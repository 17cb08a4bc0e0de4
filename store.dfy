/**
 * The card and assignment tables as the reminder pass reads them: the
 * candidate filter of the page query, the due decision, and the
 * `lastReminderDate` write of `Card.update`.
 */
module Store {
  import opened Wrappers
  import opened DayMath

  /** One row of the Card table; timestamps are milliseconds. */
  datatype Card = Card(
    cardId: int,
    name: string,
    isActive: bool,
    startDate: int,
    endDate: int,
    reminderDaysInterval: Option<int>,
    lastReminderDate: Option<int>,
    projectId: int,
    boardId: int,
    styleId: int)

  /** One row of the Assign table. */
  datatype Assignment = Assignment(cardId: int, userId: string)

  /** The `where` clause of the page query: active, has an interval, and `today` lies in [startDate, endDate]. */
  predicate IsCandidate(c: Card, today: int) {
    c.isActive && c.reminderDaysInterval.Some? && c.startDate <= today && c.endDate >= today
  }

  /** The candidate rows of a table, in table order (the fixed snapshot order the pages are cut from). */
  function Candidates(table: seq<Card>, today: int): (r: seq<Card>)
    ensures |r| <= |table|
  {
    if table == [] then []
    else
      assert table == [table[0]] + table[1..];
      (if IsCandidate(table[0], today) then [table[0]] else []) + Candidates(table[1..], today)
  }

  function CardIds(s: seq<Card>): (ids: seq<int>)
    ensures |ids| == |s|
    ensures forall k :: 0 <= k < |s| ==> ids[k] == s[k].cardId
  {
    seq(|s|, k requires 0 <= k < |s| => s[k].cardId)
  }

  /** cardId is the primary key: no two rows share it. */
  predicate UniqueIds(s: seq<Card>) {
    forall i, j :: 0 <= i < j < |s| ==> s[i].cardId != s[j].cardId
  }

  /** The reminder baseline `lastReminderDate || startDate`. */
  function Baseline(c: Card): int {
    c.lastReminderDate.GetOr(c.startDate)
  }

  /**
   * `dayjs().diff(lastReminder, 'days') >= reminderDaysInterval`. A null interval
   * would compare as 0 under JavaScript's coercion; the candidate filter never
   * lets such a card through.
   */
  predicate IsDue(c: Card, now: int) {
    WholeDays(now, Baseline(c)) >= c.reminderDaysInterval.GetOr(0)
  }

  function WithClock(c: Card, ids: seq<int>, now: int): Card {
    if c.cardId in ids then c.(lastReminderDate := Some(now)) else c
  }

  /**
   * `Card.update({ lastReminderDate: now }, { where: { cardId } })` for every id
   * in `ids`: only `lastReminderDate` changes, and only in rows whose id is listed.
   */
  function AdvanceAll(t: seq<Card>, ids: seq<int>, now: int): (r: seq<Card>)
    ensures |r| == |t|
  {
    seq(|t|, k requires 0 <= k < |t| => WithClock(t[k], ids, now))
  }

  /**
   * Row by row: a clock write changes nothing but `lastReminderDate`, and sets it
   * to `now` exactly in the rows whose id is listed.
   */
  lemma AdvanceAllRows(t: seq<Card>, ids: seq<int>, now: int)
    ensures forall k :: 0 <= k < |t| ==>
      var r := AdvanceAll(t, ids, now)[k];
      && r.(lastReminderDate := t[k].lastReminderDate) == t[k]
      && r.lastReminderDate == (if t[k].cardId in ids then Some(now) else t[k].lastReminderDate)
  {
  }

  /** A clock write keeps every row's id, so the primary key stays unique. */
  lemma AdvanceKeepsIds(t: seq<Card>, ids: seq<int>, now: int)
    ensures CardIds(AdvanceAll(t, ids, now)) == CardIds(t)
    ensures UniqueIds(AdvanceAll(t, ids, now)) <==> UniqueIds(t)
  {
    var r := AdvanceAll(t, ids, now);
    assert forall k :: 0 <= k < |t| ==> r[k].cardId == t[k].cardId;
  }

  lemma AdvanceNothing(t: seq<Card>, now: int)
    ensures AdvanceAll(t, [], now) == t
  {
  }

  /** Two successive clock writes at the same instant are one write for both id lists. */
  lemma AdvanceAllCompose(t: seq<Card>, a: seq<int>, b: seq<int>, now: int)
    ensures AdvanceAll(AdvanceAll(t, a, now), b, now) == AdvanceAll(t, a + b, now)
  {
  }

  lemma AdvanceAllAppend(s: seq<Card>, u: seq<Card>, ids: seq<int>, now: int)
    ensures AdvanceAll(s + u, ids, now) == AdvanceAll(s, ids, now) + AdvanceAll(u, ids, now)
  {
  }

  /**
   * The filter never mentions `lastReminderDate`, so filtering the advanced
   * table gives the advanced candidate list: no card enters or leaves the
   * candidate set and no candidate changes position.
   */
  lemma {:induction false} AdvanceCommutesWithCandidates(t: seq<Card>, ids: seq<int>, now: int, today: int)
    ensures Candidates(AdvanceAll(t, ids, now), today) == AdvanceAll(Candidates(t, today), ids, now)
  {
    if t != [] {
      var head := if IsCandidate(t[0], today) then [t[0]] else [];
      assert AdvanceAll(t, ids, now) == [WithClock(t[0], ids, now)] + AdvanceAll(t[1..], ids, now);
      AdvanceCommutesWithCandidates(t[1..], ids, now, today);
      AdvanceAllAppend(head, Candidates(t[1..], today), ids, now);
    }
  }

  /** The ids of the candidates, in order, are the same before and after any clock advance. */
  lemma CandidateIdsStable(t: seq<Card>, ids: seq<int>, now: int, today: int)
    ensures CardIds(Candidates(AdvanceAll(t, ids, now), today)) == CardIds(Candidates(t, today))
  {
    AdvanceCommutesWithCandidates(t, ids, now, today);
  }

  /** The candidates are exactly the rows of the table that pass the filter. */
  lemma {:induction false} CandidatesMembers(table: seq<Card>, today: int)
    ensures forall c :: c in Candidates(table, today) <==> c in table && IsCandidate(c, today)
  {
    if table != [] {
      CandidatesMembers(table[1..], today);
      assert table == [table[0]] + table[1..];
    }
  }

  lemma {:induction false} CandidatesUnique(t: seq<Card>, today: int)
    requires UniqueIds(t)
    ensures UniqueIds(Candidates(t, today))
  {
    if t != [] {
      CandidatesUnique(t[1..], today);
      var rest := Candidates(t[1..], today);
      CandidatesMembers(t[1..], today);
      forall c | c in rest ensures c.cardId != t[0].cardId {
        var m :| 0 <= m < |t[1..]| && t[1..][m] == c;
        assert t[m + 1] == c;
      }
    }
  }

  /**
   * The due decision in milliseconds: for an interval n >= 1 the card is due
   * exactly when n whole days of milliseconds have passed since the baseline;
   * reaching the interval exactly counts as due.
   */
  lemma DueIffIntervalElapsed(c: Card, now: int, n: int)
    requires c.reminderDaysInterval == Some(n) && n >= 1
    ensures IsDue(c, now) <==> now - Baseline(c) >= n * MsPerDay
    ensures WholeDays(now, Baseline(c)) == n ==> IsDue(c, now)
    ensures c.lastReminderDate == None ==> (IsDue(c, now) <==> now - c.startDate >= n * MsPerDay)
  {
    DaysAtLeast(now, Baseline(c), n);
  }

  /** Interval 3, no earlier reminder: due three days after the start, not one hour before that. */
  lemma DueBoundaryExample(c: Card)
    requires c.reminderDaysInterval == Some(3) && c.lastReminderDate == None
    ensures IsDue(c, c.startDate + 3 * MsPerDay)
    ensures !IsDue(c, c.startDate + 3 * MsPerDay - 3_600_000)
  {
  }

  /**
   * After the clock write at `now`, a re-check at the same `now` finds 0 elapsed
   * days, which is not due for any interval >= 1; the card is due again exactly
   * one interval later.
   */
  lemma AdvancedCardNotDue(t: seq<Card>, ids: seq<int>, now: int, k: int, n: int)
    requires 0 <= k < |t| && t[k].cardId in ids
    requires t[k].reminderDaysInterval == Some(n) && n >= 1
    ensures !IsDue(AdvanceAll(t, ids, now)[k], now)
    ensures IsDue(AdvanceAll(t, ids, now)[k], now + n * MsPerDay)
  {
    var c := AdvanceAll(t, ids, now)[k];
    assert Baseline(c) == now;
    DueIffIntervalElapsed(c, now, n);
    DueIffIntervalElapsed(c, now + n * MsPerDay, n);
  }
}
