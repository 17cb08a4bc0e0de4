/**
 * The grid layout of `createAvatarCollage`: at most five 32-pixel avatars per
 * row, 10 pixels of padding between them, the canvas just large enough for
 * the grid, and one draw per avatar in row-major input order.
 */
module AvatarCollage {

  const AvatarSize: int := 32
  const Padding: int := 10
  const MaxColumns: int := 5
  /** Distance between the corners of neighbouring cells. */
  const Stride: int := AvatarSize + Padding

  /** `Math.min(avatars.length, 5)`. */
  function Columns(n: nat): (c: nat)
    requires n >= 1
    ensures 1 <= c <= MaxColumns && c <= n
    ensures c == n || c == MaxColumns
  {
    if n < MaxColumns then n else MaxColumns
  }

  /** `Math.ceil(avatars.length / columns)`: the fewest rows of `Columns(n)` cells that hold n avatars. */
  function Rows(n: nat): (r: nat)
    requires n >= 1
    ensures r >= 1
    ensures r * Columns(n) >= n
    ensures (r - 1) * Columns(n) < n
  {
    var c := Columns(n);
    var r := (n + c - 1) / c;
    assert n + c - 1 == c * r + (n + c - 1) % c;
    r
  }

  /** `(avatarSize + padding) * columns - padding`. */
  function CanvasWidth(n: nat): (w: int)
    requires n >= 1
    ensures AvatarSize <= w <= Stride * MaxColumns - Padding
  {
    Stride * Columns(n) - Padding
  }

  /** `(avatarSize + padding) * rows - padding`. */
  function CanvasHeight(n: nat): (h: int)
    requires n >= 1
    ensures h >= AvatarSize
  {
    Stride * Rows(n) - Padding
  }

  datatype Point = Point(x: int, y: int)

  /**
   * Top-left corner of avatar i: `x = (i % columns) * 42`,
   * `y = floor(i / columns) * 42`. The 32x32 box lies inside the canvas.
   */
  function Position(n: nat, i: nat): (p: Point)
    requires i < n
    ensures 0 <= p.x && p.x + AvatarSize <= CanvasWidth(n)
    ensures 0 <= p.y && p.y + AvatarSize <= CanvasHeight(n)
    ensures p.x % Stride == 0 && p.y % Stride == 0
  {
    var c := Columns(n);
    RowInsideGrid(i, c, Rows(n));
    CellInside(i % c, c);
    CellInside(i / c, Rows(n));
    Point((i % c) * Stride, (i / c) * Stride)
  }

  /** Cell k of a line of m cells starts on the stride grid and ends inside the line. */
  lemma CellInside(k: nat, m: nat)
    requires k < m
    ensures k * Stride + AvatarSize <= Stride * m - Padding
    ensures (k * Stride) % Stride == 0
  {
    MulMonotone(m - 1, k, Stride);
  }

  /** An index below `rows * columns` lands in a row below `rows`. */
  lemma RowInsideGrid(i: nat, c: nat, r: nat)
    requires c >= 1 && i < r * c
    ensures i / c < r
  {
    if i / c >= r {
      MulMonotone(i / c, r, c);
    }
  }

  lemma MulMonotone(a: nat, b: nat, c: nat)
    requires a >= b
    ensures a * c >= b * c
  {
  }

  lemma SameCellSameIndex(i: nat, j: nat, c: nat)
    requires c >= 1
    ensures i / c == j / c && i % c == j % c ==> i == j
  {
    assert i == c * (i / c) + i % c;
    assert j == c * (j / c) + j % c;
  }

  /** Boxes of side `AvatarSize` at these corners do not overlap. */
  predicate Disjoint(p: Point, q: Point) {
    p.x + AvatarSize <= q.x || q.x + AvatarSize <= p.x || p.y + AvatarSize <= q.y || q.y + AvatarSize <= p.y
  }

  /** The canvas is just large enough: the last column's box ends at its right edge, the last row's at its bottom edge. */
  lemma CanvasTight(n: nat)
    requires n >= 1
    ensures Position(n, Columns(n) - 1).x + AvatarSize == CanvasWidth(n)
    ensures Position(n, n - 1).y + AvatarSize == CanvasHeight(n)
  {
    var c, r := Columns(n), Rows(n);
    assert (Columns(n) - 1) % c == c - 1 && (Columns(n) - 1) / c == 0;
    LastRow(n - 1, c, r);
  }

  /** The last index of a grid of r rows of c cells holding it lies in row r - 1. */
  lemma LastRow(k: nat, c: nat, r: nat)
    requires c >= 1 && r >= 1
    requires (r - 1) * c <= k < r * c
    ensures k / c == r - 1
  {
    var q := k / c;
    assert k == q * c + k % c;
    if q < r - 1 {
      MulMonotone(r - 1, q + 1, c);
    } else if q > r - 1 {
      MulMonotone(q, r, c);
    }
  }

  /** Distinct avatars get distinct cells, and their boxes do not overlap: the stride exceeds the size. */
  lemma NoOverlap(n: nat, i: nat, j: nat)
    requires i < n && j < n && i != j
    ensures Disjoint(Position(n, i), Position(n, j))
  {
    var c := Columns(n);
    var p, q := Position(n, i), Position(n, j);
    assert p == Point((i % c) * Stride, (i / c) * Stride);
    assert q == Point((j % c) * Stride, (j / c) * Stride);
    SameCellSameIndex(i, j, c);
    if i / c == j / c {
      assert i % c != j % c;
    }
  }

  /** Placement is row-major in input order: a later avatar is further down, or on the same row further right. */
  lemma RowMajor(n: nat, i: nat, j: nat)
    requires i < j < n
    ensures var p, q := Position(n, i), Position(n, j);
      p.y < q.y || (p.y == q.y && p.x < q.x)
  {
    var c := Columns(n);
    assert i == c * (i / c) + i % c;
    assert j == c * (j / c) + j % c;
    if i / c == j / c {
      assert i % c < j % c;
    }
  }

  /** One `drawImage(img, x, y, avatarSize, avatarSize)` call. */
  datatype Draw = Draw(avatar: string, at: Point, size: int)

  /** The canvas: its size and the draws made on it, in order. */
  datatype Canvas = Canvas(width: int, height: int, draws: seq<Draw>)

  /**
   * `createAvatarCollage` without the pixels: a canvas of the grid's size with
   * exactly one draw per input avatar, in input order, each inside the canvas
   * and none overlapping another. An empty list is excluded: the source then
   * computes 0 columns and `ceil(0 / 0)` rows.
   */
  method CreateAvatarCollage(avatars: seq<string>) returns (canvas: Canvas)
    requires |avatars| >= 1
    ensures canvas.width == CanvasWidth(|avatars|) && canvas.height == CanvasHeight(|avatars|)
    ensures |canvas.draws| == |avatars|
    ensures forall i :: 0 <= i < |avatars| ==>
      canvas.draws[i].avatar == avatars[i] && canvas.draws[i].size == AvatarSize
    ensures forall i :: 0 <= i < |avatars| ==> canvas.draws[i].at == Position(|avatars|, i)
    ensures forall i :: 0 <= i < |avatars| ==>
      var d := canvas.draws[i];
      0 <= d.at.x && d.at.x + d.size <= canvas.width && 0 <= d.at.y && d.at.y + d.size <= canvas.height
    ensures forall i, j :: 0 <= i < j < |avatars| ==> Disjoint(canvas.draws[i].at, canvas.draws[j].at)
    ensures forall i, j :: 0 <= i < j < |avatars| ==>
      var p, q := canvas.draws[i].at, canvas.draws[j].at;
      p.y < q.y || (p.y == q.y && p.x < q.x)
  {
    var n := |avatars|;
    var draws: seq<Draw> := [];
    for i := 0 to n
      invariant |draws| == i
      invariant forall k :: 0 <= k < i ==> draws[k] == Draw(avatars[k], Position(n, k), AvatarSize)
    {
      var p := Position(n, i);
      draws := draws + [Draw(avatars[i], p, AvatarSize)];
    }
    canvas := Canvas(CanvasWidth(n), CanvasHeight(n), draws);
    forall i, j | 0 <= i < j < n
      ensures Disjoint(draws[i].at, draws[j].at)
      ensures draws[i].at.y < draws[j].at.y || (draws[i].at.y == draws[j].at.y && draws[i].at.x < draws[j].at.x)
    {
      NoOverlap(n, i, j);
      RowMajor(n, i, j);
    }
  }
}
