/**
 * The embed color: JavaScript's `parseInt(name, 16)` on the style name. It
 * skips leading white space, takes one optional sign, drops a `0x`/`0X`
 * prefix, then reads the longest run of hexadecimal digits; with no digit the
 * result is NaN rather than an error.
 */
module HexColor {

  /** A parsed color: a number, or JavaScript's NaN. */
  datatype Color = Num(value: int) | NaN

  /** ECMAScript's StrWhiteSpaceChar: the WhiteSpace and LineTerminator code points. */
  predicate IsStrWhiteSpace(ch: char) {
    var c := ch as int;
    (0x09 <= c <= 0x0D) || c == 0x20 || c == 0xA0 || c == 0x1680 || (0x2000 <= c <= 0x200A)
    || c == 0x2028 || c == 0x2029 || c == 0x202F || c == 0x205F || c == 0x3000 || c == 0xFEFF
  }

  predicate IsHexDigit(ch: char) {
    '0' <= ch <= '9' || 'a' <= ch <= 'f' || 'A' <= ch <= 'F'
  }

  function DigitValue(ch: char): (v: nat)
    requires IsHexDigit(ch)
    ensures v < 16
  {
    if '0' <= ch <= '9' then ch as int - '0' as int
    else if 'a' <= ch <= 'f' then ch as int - 'a' as int + 10
    else ch as int - 'A' as int + 10
  }

  predicate AllHexDigits(s: string) {
    forall k :: 0 <= k < |s| ==> IsHexDigit(s[k])
  }

  /** Length of the leading run of hexadecimal digits. */
  function HexRun(s: string): (n: nat)
    ensures n <= |s|
    ensures n < |s| ==> !IsHexDigit(s[n])
  {
    if s == [] || !IsHexDigit(s[0]) then 0 else 1 + HexRun(s[1..])
  }

  /** The run is made of digits only. */
  lemma {:induction false} HexRunDigits(s: string)
    ensures AllHexDigits(s[..HexRun(s)])
  {
    if s != [] && IsHexDigit(s[0]) {
      HexRunDigits(s[1..]);
      var n := HexRun(s);
      forall k | 0 <= k < n ensures IsHexDigit(s[..n][k]) {
        if k > 0 {
          assert s[..n][k] == s[1..][..n - 1][k - 1];
        }
      }
    }
  }

  /** The value of a string of hexadecimal digits, most significant first. */
  function HexValue(digits: string): nat
    requires AllHexDigits(digits)
  {
    if digits == [] then 0
    else 16 * HexValue(digits[..|digits| - 1]) + DigitValue(digits[|digits| - 1])
  }

  /** The string with its leading white space removed. */
  function TrimStart(s: string): (t: string)
    ensures |t| <= |s| && t == s[|s| - |t|..]
    ensures t == [] || !IsStrWhiteSpace(t[0])
  {
    if s != [] && IsStrWhiteSpace(s[0]) then TrimStart(s[1..]) else s
  }

  /** Everything trimmed is white space. */
  lemma {:induction false} TrimStartSkipsWhiteSpace(s: string)
    ensures forall k :: 0 <= k < |s| - |TrimStart(s)| ==> IsStrWhiteSpace(s[k])
  {
    if s != [] && IsStrWhiteSpace(s[0]) {
      TrimStartSkipsWhiteSpace(s[1..]);
    }
  }

  /** The string after one optional leading sign. */
  function Unsigned(t: string): string {
    if |t| > 0 && (t[0] == '-' || t[0] == '+') then t[1..] else t
  }

  /** The string after an optional `0x` or `0X` prefix. */
  function WithoutHexPrefix(u: string): string {
    if |u| >= 2 && u[0] == '0' && (u[1] == 'x' || u[1] == 'X') then u[2..] else u
  }

  /** The value of the leading run of digits, negated when a minus sign was read; NaN when the run is empty. */
  function ParseDigits(v: string, negative: bool): Color {
    var n := HexRun(v);
    HexRunDigits(v);
    if n == 0 then NaN
    else
      var magnitude: int := HexValue(v[..n]);
      Num(if negative then -magnitude else magnitude)
  }

  /** `parseInt(s, 16)`. */
  function ParseInt16(s: string): Color {
    var t := TrimStart(s);
    ParseDigits(WithoutHexPrefix(Unsigned(t)), |t| > 0 && t[0] == '-')
  }

  function HexChar(d: nat): (ch: char)
    requires d < 16
    ensures IsHexDigit(ch) && DigitValue(ch) == d
  {
    if d < 10 then ('0' as int + d) as char else ('A' as int + d - 10) as char
  }

  /** Upper-case hexadecimal spelling of a natural number, without leading zeros. */
  function ToHex(n: nat): (s: string)
    ensures |s| >= 1 && AllHexDigits(s)
    ensures HexValue(s) == n
    ensures s[0] == '0' ==> s == "0"
  {
    if n < 16 then [HexChar(n)]
    else
      var front := ToHex(n / 16);
      var s := front + [HexChar(n % 16)];
      assert s[..|s| - 1] == front;
      s
  }

  /** A style named by the hexadecimal spelling of n parses back to the color n. */
  lemma ParseToHex(n: nat)
    ensures ParseInt16(ToHex(n)) == Num(n)
  {
    var s := ToHex(n);
    DigitIsPlain(s[0]);
    assert TrimStart(s) == s;
    assert Unsigned(s) == s;
    assert WithoutHexPrefix(s) == s;
    AllDigitsRun(s);
    assert s[..|s|] == s;
  }

  /** A hexadecimal digit is neither white space nor a sign. */
  lemma DigitIsPlain(ch: char)
    requires IsHexDigit(ch)
    ensures !IsStrWhiteSpace(ch) && ch != '-' && ch != '+'
  {
  }

  /** A string of digits only is one whole run. */
  lemma {:induction false} AllDigitsRun(s: string)
    requires AllHexDigits(s)
    ensures HexRun(s) == |s|
  {
    if s != [] {
      assert AllHexDigits(s[1..]) by {
        forall k | 0 <= k < |s[1..]| ensures IsHexDigit(s[1..][k]) {
          assert s[1..][k] == s[k + 1];
        }
      }
      AllDigitsRun(s[1..]);
    }
  }

  /** With nothing to skip, parsing reads the digit run from the first character. */
  lemma PlainStart(s: string)
    requires |s| > 0 && !IsStrWhiteSpace(s[0]) && s[0] != '-' && s[0] != '+'
    requires !(|s| >= 2 && s[0] == '0' && (s[1] == 'x' || s[1] == 'X'))
    ensures ParseInt16(s) == ParseDigits(s, false)
  {
    assert TrimStart(s) == s;
  }

  /** The red style "FF0000" gives 16711680. */
  lemma RedExample()
    ensures ParseInt16("FF0000") == Num(16711680)
  {
    var s := "FF0000";
    PlainStart(s);
    assert HexRun(s[5..]) == 1;
    assert HexRun(s[4..]) == 2;
    assert HexRun(s[3..]) == 3;
    assert HexRun(s[2..]) == 4;
    assert HexRun(s[1..]) == 5;
    assert HexRun(s) == 6;
    assert s[..6] == s;
    assert s[..6][..5] == s[..5] && s[..5][..4] == s[..4] && s[..4][..3] == s[..3];
    assert s[..3][..2] == s[..2] && s[..2][..1] == s[..1] && s[..1][..0] == [];
    assert HexValue(s[..1]) == 15;
    assert HexValue(s[..2]) == 255;
    assert HexValue(s[..3]) == 4080;
    assert HexValue(s[..4]) == 65280;
    assert HexValue(s[..5]) == 1044480;
  }

  /** A name whose first character is neither white space, a sign nor a hexadecimal digit gives NaN. */
  lemma NoLeadingDigitIsNaN(s: string)
    requires |s| > 0 && !IsStrWhiteSpace(s[0]) && !IsHexDigit(s[0]) && s[0] != '-' && s[0] != '+'
    ensures ParseInt16(s) == NaN
  {
    assert TrimStart(s) == s;
    assert WithoutHexPrefix(Unsigned(s)) == s;
  }

  /** "notacolor", the "undefined" of a missing style, and "#FF0000" all give NaN. */
  lemma NotAColorExamples()
    ensures ParseInt16("notacolor") == NaN
    ensures ParseInt16("undefined") == NaN
    ensures ParseInt16("#FF0000") == NaN
  {
    NoLeadingDigitIsNaN("notacolor");
    NoLeadingDigitIsNaN("undefined");
    NoLeadingDigitIsNaN("#FF0000");
  }

  /** Leading white space and a 0x prefix are skipped: " 0x1f" gives 31. */
  lemma HexPrefixExample()
    ensures ParseInt16(" 0x1f") == Num(31)
  {
    var a := " 0x1f";
    assert a[0] == ' ' && a[1] == '0' && a[2] == 'x';
    SkipOneSpace(a);
    assert a[1..][2..] == "1f";
    assert ParseInt16(a) == ParseDigits("1f", false);
    assert HexRun("1f"[1..]) == 1 && HexRun("1f") == 2;
    assert "1f"[..2] == "1f" && "1f"[..1] == "1" && "1"[..0] == "";
    assert HexValue("1") == 1;
    assert HexValue("1f") == 31;
  }

  /** One white-space character before a non-white one is all that is trimmed. */
  lemma SkipOneSpace(s: string)
    requires |s| >= 2 && IsStrWhiteSpace(s[0]) && !IsStrWhiteSpace(s[1])
    ensures TrimStart(s) == s[1..]
  {
    assert TrimStart(s[1..]) == s[1..];
  }

  /** A leading minus sign negates the value: "-ff" gives -255. */
  lemma NegativeExample()
    ensures ParseInt16("-ff") == Num(-255)
  {
    var b := "-ff";
    assert !IsStrWhiteSpace(b[0]) && TrimStart(b) == b;
    assert WithoutHexPrefix(Unsigned(b)) == "ff";
    assert HexRun("ff"[1..]) == 1 && HexRun("ff") == 2;
    assert "ff"[..2] == "ff" && "ff"[..1] == "f" && "f"[..0] == "";
    assert HexValue("f") == 15;
    assert HexValue("ff") == 255;
  }

  /** Reading stops at the first non-digit: "12zz" gives 18. */
  lemma TrailingGarbageExample()
    ensures ParseInt16("12zz") == Num(18)
  {
    var c := "12zz";
    PlainStart(c);
    assert HexRun(c[2..]) == 0 && HexRun(c[1..]) == 1 && HexRun(c) == 2;
    assert c[..2] == "12" && "12"[..1] == "1" && "1"[..0] == "";
    assert HexValue("1") == 1;
    assert HexValue("12") == 18;
  }
}
