/**
 * The reminder pass `checkNotifications`: page through the candidate cards,
 * and for every due card send one DM per assignment row, then write the
 * card's `lastReminderDate`. External calls are oracles in `Env`; an
 * exception that the source does not catch ends the pass with `Aborted`.
 */
module Reminder {
  import opened Wrappers
  import opened DayMath
  import opened Store
  import opened Pagination
  import opened HexColor
  import opened Payload

  /** The collaborators the pass calls, as oracles. */
  datatype Env = Env(
    users: string -> Option<User>,        // client.users.fetch: None when it throws
    delivers: string -> bool,             // whether sendDM's fetch and send succeed
    project: int -> Lookup<string>,       // Project.findOne by projectId: its name
    board: int -> Lookup<string>,         // Board.findOne by boardId: its name
    style: int -> Lookup<string>,         // Style.findOne by styleId: its name
    botAvatar: string,                    // client.user.displayAvatarURL({ size: 128 })
    pageFails: nat -> bool,               // Card.findAll throws at this offset
    assignmentsFail: int -> bool,         // Assign.findAll throws for this cardId
    collageFails: seq<string> -> bool,    // createAvatarCollage throws on these avatars
    updateFails: int -> bool)             // Card.update throws for this cardId

  /** Where an uncaught exception came from. */
  datatype Failure =
    | PageFetch(offset: nat)
    | AssignmentFetch(cardId: int)
    | CollageRender(cardId: int)
    | StyleLookup(cardId: int)
    | ClockUpdate(cardId: int)

  datatype Status = Completed | Aborted(failure: Failure)

  /** The effect of part of a pass: DMs attempted, cards whose clock was written (in order), and how it ended. */
  datatype Outcome = Outcome(dms: seq<Dm>, advanced: seq<int>, status: Status)

  const Done := Outcome([], [], Completed)

  /** Run `a`, then `b` unless `a` was aborted by an exception. */
  function Then(a: Outcome, b: Outcome): Outcome {
    if a.status.Aborted? then a else Outcome(a.dms + b.dms, a.advanced + b.advanced, b.status)
  }

  lemma ThenAssoc(a: Outcome, b: Outcome, c: Outcome)
    ensures Then(Then(a, b), c) == Then(a, Then(b, c))
  {
  }

  /** `Assign.findAll({ where: { cardId } })` mapped to user ids, in table order. */
  function AssignedUserIds(assignments: seq<Assignment>, cardId: int): (ids: seq<string>)
    ensures |ids| <= |assignments|
    ensures forall u :: u in ids <==> Assignment(cardId, u) in assignments
  {
    if assignments == [] then []
    else
      assert assignments == [assignments[0]] + assignments[1..];
      (if assignments[0].cardId == cardId then [assignments[0].userId] else [])
        + AssignedUserIds(assignments[1..], cardId)
  }

  /** A row for the card contributes its user id; a row for another card contributes nothing. */
  lemma AssignedUserIdsOne(a: Assignment, cardId: int)
    ensures a.cardId == cardId ==> AssignedUserIds([a], cardId) == [a.userId]
    ensures a.cardId != cardId ==> AssignedUserIds([a], cardId) == []
  {
    assert [a][1..] == [];
  }

  /**
   * The ids of a concatenation are the ids of its parts, in table order: with
   * `AssignedUserIdsOne`, one id per matching row, duplicates kept.
   */
  lemma {:induction false} AssignedUserIdsAppend(a: seq<Assignment>, b: seq<Assignment>, cardId: int)
    ensures AssignedUserIds(a + b, cardId) == AssignedUserIds(a, cardId) + AssignedUserIds(b, cardId)
  {
    if a == [] {
      assert a + b == b;
    } else {
      assert (a + b)[0] == a[0];
      assert (a + b)[1..] == a[1..] + b;
      AssignedUserIdsAppend(a[1..], b, cardId);
      var head := if a[0].cardId == cardId then [a[0].userId] else [];
      AppendAssoc(head, AssignedUserIds(a[1..], cardId), AssignedUserIds(b, cardId));
    }
  }

  /** The one message every recipient of card `c` is sent: built from card-scoped values only. */
  function CardMessage(c: Card, userIds: seq<string>, style: Lookup<string>, env: Env, now: int): Message
    requires !style.Thrown?
  {
    var details := ProjectAndBoardDetails(c.projectId, c.boardId, env.project(c.projectId), env.board(c.boardId));
    var resolved := Survivors(UserDetails(userIds, env.users));
    Message(
      Embed(details.projectName, env.botAvatar, StyleColor(style), details.boardName, c.name,
            c.startDate, c.endDate, WholeDays(c.endDate, now), Join(Names(resolved), ", "),
            AttachmentUrl, Footer),
      Avatars(resolved), AttachmentName)
  }

  /**
   * What the message says: the project and board names or their fallbacks, the
   * unclamped days left, the parsed color, and the names and avatars of the
   * resolved users only, as two lists of equal length.
   */
  lemma CardMessageContents(c: Card, userIds: seq<string>, style: Lookup<string>, env: Env, now: int)
    requires !style.Thrown?
    ensures var m := CardMessage(c, userIds, style, env, now);
      var resolved := Survivors(UserDetails(userIds, env.users));
      && (env.project(c.projectId).Thrown? || env.board(c.boardId).Thrown? ==>
            m.embed.title == UnknownProject && m.embed.board == UnknownBoard)
      && (env.project(c.projectId).Absent? ==> m.embed.title == UnknownProject)
      && (env.project(c.projectId).Found? && !env.board(c.boardId).Thrown? ==>
            m.embed.title == env.project(c.projectId).value)
      && (env.board(c.boardId).Absent? ==> m.embed.board == UnknownBoard)
      && (env.board(c.boardId).Found? && !env.project(c.projectId).Thrown? ==>
            m.embed.board == env.board(c.boardId).value)
      && m.embed.task == c.name
      && m.embed.daysLeft == -WholeDays(now, c.endDate)
      && (now <= c.endDate ==> m.embed.daysLeft >= 0)
      && (c.endDate + MsPerDay <= now ==> m.embed.daysLeft <= -1)
      && (style.Found? ==> m.embed.color == ParseInt16(style.value))
      && (style.Absent? ==> m.embed.color == NaN)
      && m.collage == Avatars(resolved)
      && m.embed.assignedUsers == Join(Names(resolved), ", ")
      && |m.collage| == |Names(resolved)| <= |userIds|
      && m.embed.footer == Footer
  {
    WholeDaysAntisymmetric(c.endDate, now);
  }

  /**
   * One card of a page (src/index.ts:100-192): the due check; for a due card the
   * assignment fetch, user lookups, collage, style lookup, one DM per
   * assignment row, and the clock write.
   */
  function CardStep(c: Card, assignments: seq<Assignment>, env: Env, now: int): Outcome
  {
    if !IsDue(c, now) then Done
    else if env.assignmentsFail(c.cardId) then Outcome([], [], Aborted(AssignmentFetch(c.cardId)))
    else
      var userIds := AssignedUserIds(assignments, c.cardId);
      var resolved := Survivors(UserDetails(userIds, env.users));
      if env.collageFails(Avatars(resolved)) then Outcome([], [], Aborted(CollageRender(c.cardId)))
      else if env.style(c.styleId).Thrown? then Outcome([], [], Aborted(StyleLookup(c.cardId)))
      else
        var dms := Wave(userIds, CardMessage(c, userIds, env.style(c.styleId), env, now), env.delivers);
        if env.updateFails(c.cardId) then Outcome(dms, [], Aborted(ClockUpdate(c.cardId)))
        else Outcome(dms, [c.cardId], Completed)
  }

  /**
   * The shape of one card's outcome: a card that is not due does nothing; the
   * clock of a due card is written only when every DM of its wave has been
   * attempted, one per assignment row in assignment order (users whose lookup
   * failed included), all carrying the same message; a card that throws is
   * not advanced.
   */
  lemma CardStepShape(c: Card, assignments: seq<Assignment>, env: Env, now: int)
    ensures var r := CardStep(c, assignments, env, now);
      var ids := AssignedUserIds(assignments, c.cardId);
      && (!IsDue(c, now) ==> r == Done)
      && (r.advanced == [] || r.advanced == [c.cardId])
      && (r.advanced != [] <==> IsDue(c, now) && r.status == Completed)
      && (r.advanced != [] || r.status == Aborted(ClockUpdate(c.cardId)) ==> |r.dms| == |ids|)
      && (r.dms == [] || |r.dms| == |ids|)
      && (forall k :: 0 <= k < |r.dms| ==> r.dms[k].userId == ids[k] && r.dms[k].message == r.dms[0].message)
      && (r.status.Aborted? ==> !r.status.failure.PageFetch? && r.status.failure.cardId == c.cardId)
  {
    if IsDue(c, now) && !env.assignmentsFail(c.cardId) {
      var ids := AssignedUserIds(assignments, c.cardId);
      var resolved := Survivors(UserDetails(ids, env.users));
      var style := env.style(c.styleId);
      if !env.collageFails(Avatars(resolved)) && !style.Thrown? {
        var w := Wave(ids, CardMessage(c, ids, style, env, now), env.delivers);
        assert CardStep(c, assignments, env, now).dms == w;
      }
    }
  }

  /** The cards of a sequence processed in order, stopping at the first uncaught exception. */
  function RunCards(cs: seq<Card>, assignments: seq<Assignment>, env: Env, now: int): Outcome {
    if cs == [] then Done
    else Then(CardStep(cs[0], assignments, env, now), RunCards(cs[1..], assignments, env, now))
  }

  /**
   * The pass from `offset` on, over a fixed snapshot `cands` of the candidate
   * rows: fetch a page, stop at an empty one, otherwise process it and move
   * the offset on by `QueryLimit`.
   */
  function PassFrom(cands: seq<Card>, offset: nat, assignments: seq<Assignment>, env: Env, now: int): Outcome
    decreases |cands| - offset, 1
  {
    if env.pageFails(offset) then Outcome([], [], Aborted(PageFetch(offset)))
    else if Page(cands, offset) == [] then Done
    else PageThen(cands, offset, assignments, env, now)
  }

  /** A non-empty page at `offset`: its cards, then (if none threw) the pass from the next offset. */
  function PageThen(cands: seq<Card>, offset: nat, assignments: seq<Assignment>, env: Env, now: int): Outcome
    requires offset < |cands|
    decreases |cands| - offset, 0
  {
    Then(RunCards(Page(cands, offset), assignments, env, now), PassFrom(cands, offset + QueryLimit, assignments, env, now))
  }

  lemma PassPage(cands: seq<Card>, offset: nat, assignments: seq<Assignment>, env: Env, now: int)
    requires !env.pageFails(offset) && offset < |cands|
    ensures PassFrom(cands, offset, assignments, env, now)
      == Then(RunCards(Page(cands, offset), assignments, env, now),
              PassFrom(cands, offset + QueryLimit, assignments, env, now))
  {
  }

  /** Ids of the due cards, in order. */
  function DueIds(cs: seq<Card>, now: int): seq<int> {
    if cs == [] then []
    else (if IsDue(cs[0], now) then [cs[0].cardId] else []) + DueIds(cs[1..], now)
  }

  /** DM attempts a fault-free run makes: one per assignment row of every due card. */
  function Attempts(cs: seq<Card>, assignments: seq<Assignment>, now: int): nat {
    if cs == [] then 0
    else
      (if IsDue(cs[0], now) then |AssignedUserIds(assignments, cs[0].cardId)| else 0)
        + Attempts(cs[1..], assignments, now)
  }

  lemma {:induction false} DueIdsAppend(a: seq<Card>, b: seq<Card>, now: int)
    ensures DueIds(a + b, now) == DueIds(a, now) + DueIds(b, now)
  {
    if a == [] {
      assert a + b == b;
      assert [] + DueIds(b, now) == DueIds(b, now);
    } else {
      assert (a + b)[0] == a[0] && (a + b)[1..] == a[1..] + b;
      var head := if IsDue(a[0], now) then [a[0].cardId] else [];
      assert DueIds(a + b, now) == head + DueIds(a[1..] + b, now);
      assert DueIds(a, now) == head + DueIds(a[1..], now);
      DueIdsAppend(a[1..], b, now);
      AppendAssoc(head, DueIds(a[1..], now), DueIds(b, now));
    }
  }

  lemma {:induction false} AttemptsAppend(a: seq<Card>, b: seq<Card>, assignments: seq<Assignment>, now: int)
    ensures Attempts(a + b, assignments, now) == Attempts(a, assignments, now) + Attempts(b, assignments, now)
  {
    if a == [] {
      assert a + b == b;
    } else {
      assert (a + b)[1..] == a[1..] + b;
      AttemptsAppend(a[1..], b, assignments, now);
    }
  }

  /** Processing a concatenation is processing the first part, then (if nothing threw) the second. */
  lemma {:induction false} RunCardsAppend(a: seq<Card>, b: seq<Card>, assignments: seq<Assignment>, env: Env, now: int)
    ensures RunCards(a + b, assignments, env, now)
      == Then(RunCards(a, assignments, env, now), RunCards(b, assignments, env, now))
  {
    if a == [] {
      assert a + b == b;
    } else {
      assert (a + b)[1..] == a[1..] + b;
      RunCardsAppend(a[1..], b, assignments, env, now);
      ThenAssoc(CardStep(a[0], assignments, env, now), RunCards(a[1..], assignments, env, now),
                RunCards(b, assignments, env, now));
    }
  }

  /**
   * Clock-advance scope: the cards advanced are due cards, in order, and a
   * prefix of all the due cards; a run that completes advances every due card
   * and makes one DM attempt per assignment row of each.
   */
  lemma {:induction false} RunCardsAdvancesDue(cs: seq<Card>, assignments: seq<Assignment>, env: Env, now: int)
    ensures var r := RunCards(cs, assignments, env, now);
      && r.advanced <= DueIds(cs, now)
      && (r.status == Completed ==> r.advanced == DueIds(cs, now) && |r.dms| == Attempts(cs, assignments, now))
  {
    if cs != [] {
      var h := CardStep(cs[0], assignments, env, now);
      var t := RunCards(cs[1..], assignments, env, now);
      var d := DueIds(cs[1..], now);
      CardStepShape(cs[0], assignments, env, now);
      RunCardsAdvancesDue(cs[1..], assignments, env, now);
      if h.status.Completed? {
        if IsDue(cs[0], now) {
          assert h.advanced == [cs[0].cardId];
          assert DueIds(cs, now) == [cs[0].cardId] + d;
          PrefixCons(cs[0].cardId, t.advanced, d);
        } else {
          assert h == Done;
          assert DueIds(cs, now) == d;
          assert h.advanced + t.advanced == t.advanced;
        }
      }
    }
  }

  lemma PrefixCons(x: int, a: seq<int>, b: seq<int>)
    requires a <= b
    ensures [x] + a <= [x] + b
  {
    assert ([x] + b)[..|a| + 1] == [x] + b[..|a|];
  }

  /**
   * An uncaught exception at card k ends the run there: the cards before k
   * ran to completion and keep their clock writes, card k keeps only the DMs
   * it attempted and is not advanced, and no later card is touched.
   */
  lemma {:induction false} RunCardsAbort(cs: seq<Card>, assignments: seq<Assignment>, env: Env, now: int) returns (k: nat)
    requires RunCards(cs, assignments, env, now).status.Aborted?
    ensures k < |cs|
    ensures RunCards(cs[..k], assignments, env, now).status == Completed
    ensures CardStep(cs[k], assignments, env, now).status.Aborted?
    ensures CardStep(cs[k], assignments, env, now).advanced == []
    ensures RunCards(cs, assignments, env, now)
      == Then(RunCards(cs[..k], assignments, env, now), CardStep(cs[k], assignments, env, now))
  {
    var head := CardStep(cs[0], assignments, env, now);
    if head.status.Aborted? {
      k := 0;
      assert cs[..0] == [];
    } else {
      var k' := RunCardsAbort(cs[1..], assignments, env, now);
      k := k' + 1;
      assert cs[..k][1..] == cs[1..][..k'];
      assert cs[1..][k'] == cs[k];
      ThenAssoc(head, RunCards(cs[1..][..k'], assignments, env, now), CardStep(cs[k], assignments, env, now));
    }
  }

  /**
   * Paging is transparent when no page fetch throws: the pass from `offset`
   * processes exactly the snapshot rows from `offset` on, each once, in order.
   */
  lemma {:induction false} PagingTransparent(cands: seq<Card>, offset: nat, assignments: seq<Assignment>, env: Env, now: int)
    requires forall o :: !env.pageFails(o)
    ensures PassFrom(cands, offset, assignments, env, now)
      == RunCards(if offset <= |cands| then cands[offset..] else [], assignments, env, now)
    decreases |cands| - offset
  {
    var page := Page(cands, offset);
    if page != [] {
      PagingTransparent(cands, offset + QueryLimit, assignments, env, now);
      var rest := if offset + QueryLimit <= |cands| then cands[offset + QueryLimit..] else [];
      assert cands[offset..] == page + rest;
      RunCardsAppend(page, rest, assignments, env, now);
    }
  }

  /**
   * The whole pass, page failures included: it advances a prefix of the due
   * candidates, and when it completes it has advanced every due candidate and
   * made one DM attempt per assignment row of each.
   */
  lemma {:induction false} PassAdvancesDue(cands: seq<Card>, offset: nat, assignments: seq<Assignment>, env: Env, now: int)
    ensures var r := PassFrom(cands, offset, assignments, env, now);
      var rest := if offset <= |cands| then cands[offset..] else [];
      && r.advanced <= DueIds(rest, now)
      && (r.status == Completed ==> r.advanced == DueIds(rest, now) && |r.dms| == Attempts(rest, assignments, now))
    decreases |cands| - offset
  {
    var page := Page(cands, offset);
    if !env.pageFails(offset) && page != [] {
      PassAdvancesDue(cands, offset + QueryLimit, assignments, env, now);
      RunCardsAdvancesDue(page, assignments, env, now);
      var rest := if offset + QueryLimit <= |cands| then cands[offset + QueryLimit..] else [];
      assert cands[offset..] == page + rest;
      DueIdsAppend(page, rest, now);
      AttemptsAppend(page, rest, assignments, now);
    }
  }

  /** Every id in `adv` is that of one of the first `m` rows of `s`. */
  ghost predicate AmongFirst(adv: seq<int>, s: seq<Card>, m: int) {
    forall id :: id in adv ==> exists k :: 0 <= k < m && k < |s| && s[k].cardId == id
  }

  /** What the pass loop knows before fetching the page at `offset`. */
  ghost predicate PassInv(cands: seq<Card>, whole: Outcome, acc: Outcome, offset: nat, visited: seq<Card>,
                          fetches: nat, assignments: seq<Assignment>, env: Env, now: int) {
    && acc.status == Completed
    && offset % QueryLimit == 0
    && AmongFirst(acc.advanced, cands, offset)
    && fetches == offset / QueryLimit
    && (offset == 0 || offset - QueryLimit < |cands|)
    && visited == Before(cands, offset)
    && Then(acc, PassFrom(cands, offset, assignments, env, now)) == whole
  }

  lemma PassInvStart(cands: seq<Card>, assignments: seq<Assignment>, env: Env, now: int)
    ensures PassInv(cands, PassFrom(cands, 0, assignments, env, now), Done, 0, [], 0, assignments, env, now)
  {
  }

  /**
   * One turn of the pass loop from a state satisfying `PassInv`: a failing
   * fetch ends the pass with everything done so far; an empty page ends it
   * with every candidate visited after ceil(N / QueryLimit) + 1 fetches; a
   * non-empty page is processed, after which the pass either ends in that
   * page's exception or the invariant holds at the next offset.
   */
  lemma PassInvStep(cands: seq<Card>, whole: Outcome, acc: Outcome, offset: nat, visited: seq<Card>,
                    fetches: nat, assignments: seq<Assignment>, env: Env, now: int)
    requires PassInv(cands, whole, acc, offset, visited, fetches, assignments, env, now)
    ensures AmongFirst(acc.advanced, cands, offset)
    ensures env.pageFails(offset) ==> whole == Outcome(acc.dms, acc.advanced, Aborted(PageFetch(offset)))
    ensures !env.pageFails(offset) && Page(cands, offset) == [] ==>
      && whole == acc && visited == cands
      && fetches + 1 == (|cands| + QueryLimit - 1) / QueryLimit + 1
    ensures !env.pageFails(offset) && Page(cands, offset) != [] ==>
      var run := RunCards(Page(cands, offset), assignments, env, now);
      && run.advanced <= DueIds(Page(cands, offset), now)
      && (run.status.Aborted? ==> Then(acc, run) == whole)
      && (run.status == Completed ==>
            PassInv(cands, whole, Then(acc, run), offset + QueryLimit, visited + Page(cands, offset),
                    fetches + 1, assignments, env, now))
  {
    var page := Page(cands, offset);
    if env.pageFails(offset) {
      assert acc.dms + [] == acc.dms && acc.advanced + [] == acc.advanced;
    } else if page == [] {
      FirstOffsetPastEnd(|cands|, offset);
    } else {
      var run := RunCards(page, assignments, env, now);
      var rest := PassFrom(cands, offset + QueryLimit, assignments, env, now);
      PassPage(cands, offset, assignments, env, now);
      ThenAssoc(acc, run, rest);
      RunCardsAdvancesDue(page, assignments, env, now);
      AmongFirstPage(acc.advanced, run.advanced, cands, offset, now);
      NextOffset(offset);
      BeforeNextPage(cands, offset);
    }
  }

  /**
   * Reading a page from the table after some clock writes gives the same
   * rows as the snapshot, provided every written id belongs to a candidate
   * before `offset`: the filter ignores the clock, and ids are unique.
   */
  lemma PageOfAdvancedTable(t0: seq<Card>, adv: seq<int>, now: int, today: int, offset: nat)
    requires UniqueIds(t0)
    requires AmongFirst(adv, Candidates(t0, today), offset)
    ensures Page(Candidates(AdvanceAll(t0, adv, now), today), offset) == Page(Candidates(t0, today), offset)
  {
    var c0 := Candidates(t0, today);
    AdvanceCommutesWithCandidates(t0, adv, now, today);
    CandidatesUnique(t0, today);
    var c1 := AdvanceAll(c0, adv, now);
    forall j | offset <= j < |c0| ensures c1[j] == c0[j] {
    }
  }

  lemma AppendAssoc<T>(a: seq<T>, b: seq<T>, c: seq<T>)
    ensures a + b + c == a + (b + c)
  {
  }

  /** Every due id belongs to one of the cards it was drawn from. */
  lemma {:induction false} DueIdsOwned(cs: seq<Card>, now: int, id: int)
    requires id in DueIds(cs, now)
    ensures exists k :: 0 <= k < |cs| && cs[k].cardId == id && IsDue(cs[k], now)
  {
    if cs[0].cardId == id && IsDue(cs[0], now) {
    } else {
      DueIdsOwned(cs[1..], now, id);
      var k :| 0 <= k < |cs[1..]| && cs[1..][k].cardId == id && IsDue(cs[1..][k], now);
      assert cs[k + 1] == cs[1..][k];
    }
  }

  /** After a page is processed, everything advanced so far lies before the next offset. */
  lemma AmongFirstPage(adv: seq<int>, extra: seq<int>, cands: seq<Card>, offset: nat, now: int)
    requires AmongFirst(adv, cands, offset)
    requires extra <= DueIds(Page(cands, offset), now)
    ensures AmongFirst(adv + extra, cands, offset + QueryLimit)
  {
    var page := Page(cands, offset);
    forall id | id in adv + extra
      ensures exists k :: 0 <= k < offset + QueryLimit && k < |cands| && cands[k].cardId == id
    {
      if id !in adv {
        assert id in DueIds(page, now);
        DueIdsOwned(page, now, id);
        var k :| 0 <= k < |page| && page[k].cardId == id && IsDue(page[k], now);
        assert cands[offset + k] == page[k];
      }
    }
  }

  /**
   * The notification service: the card table (updated in place), the
   * assignment table, the collaborators, and the log of DMs attempted.
   */
  class ReminderEngine {
    const cards: array<Card>
    const assignments: seq<Assignment>
    const env: Env
    var outbox: seq<Dm>

    constructor (cards: array<Card>, assignments: seq<Assignment>, env: Env)
      ensures this.cards == cards && this.assignments == assignments && this.env == env
      ensures outbox == []
    {
      this.cards := cards;
      this.assignments := assignments;
      this.env := env;
      outbox := [];
    }

    /** `sendDM`: one attempt, logged with its delivery result; a failure is swallowed, never raised. */
    method SendDM(userId: string, message: Message)
      modifies this`outbox
      ensures outbox == old(outbox) + [Dm(userId, message, env.delivers(userId))]
    {
      outbox := outbox + [Dm(userId, message, env.delivers(userId))];
    }

    /** `Card.update({ lastReminderDate: now }, { where: { cardId } })`. */
    method UpdateLastReminder(cardId: int, now: int)
      modifies cards
      ensures cards[..] == AdvanceAll(old(cards[..]), [cardId], now)
    {
      forall i | 0 <= i < cards.Length {
        cards[i] := WithClock(cards[i], [cardId], now);
      }
    }

    /**
     * The loop over the assigned user ids (src/index.ts:141-186): one `sendDM` each, in
     * order, every one carrying the same card-scoped message.
     */
    method SendWave(userIds: seq<string>, msg: Message)
      modifies this`outbox
      ensures outbox == old(outbox) + Wave(userIds, msg, env.delivers)
    {
      for i := 0 to |userIds|
        invariant outbox == old(outbox) + Wave(userIds[..i], msg, env.delivers)
      {
        WaveSnoc(userIds, i, msg, env.delivers);
        AppendAssoc(old(outbox), Wave(userIds[..i], msg, env.delivers), [Dm(userIds[i], msg, env.delivers(userIds[i]))]);
        SendDM(userIds[i], msg);
      }
      assert userIds[..|userIds|] == userIds;
    }

    /** The body of the loop over one page's cards (src/index.ts:100-192). */
    method ProcessCard(c: Card, now: int) returns (status: Status)
      modifies this`outbox, cards
      ensures var r := CardStep(c, assignments, env, now);
        && outbox == old(outbox) + r.dms
        && status == r.status
        && cards[..] == AdvanceAll(old(cards[..]), r.advanced, now)
    {
      AdvanceNothing(cards[..], now);
      var details := ProjectAndBoardDetails(c.projectId, c.boardId, env.project(c.projectId), env.board(c.boardId));
      if !IsDue(c, now) {
        return Completed;
      }
      if env.assignmentsFail(c.cardId) {
        return Aborted(AssignmentFetch(c.cardId));
      }
      var userIds := AssignedUserIds(assignments, c.cardId);
      var resolved := Survivors(UserDetails(userIds, env.users));
      var avatars := Avatars(resolved);
      if env.collageFails(avatars) {
        return Aborted(CollageRender(c.cardId));
      }
      var assignedUsers := Join(Names(resolved), ", ");
      var style := env.style(c.styleId);
      if style.Thrown? {
        return Aborted(StyleLookup(c.cardId));
      }
      var daysLeft := WholeDays(c.endDate, now);
      var embed := Embed(details.projectName, env.botAvatar, StyleColor(style), details.boardName, c.name,
                         c.startDate, c.endDate, daysLeft, assignedUsers, AttachmentUrl, Footer);
      assert Message(embed, avatars, AttachmentName) == CardMessage(c, userIds, style, env, now);
      SendWave(userIds, Message(embed, avatars, AttachmentName));
      if env.updateFails(c.cardId) {
        return Aborted(ClockUpdate(c.cardId));
      }
      UpdateLastReminder(c.cardId, now);
      status := Completed;
    }

    /** The loop over the cards of one fetched page (src/index.ts:99-192), stopping at the first exception. */
    method ProcessPage(page: seq<Card>, now: int) returns (status: Status)
      modifies this`outbox, cards
      ensures var r := RunCards(page, assignments, env, now);
        && outbox == old(outbox) + r.dms
        && status == r.status
        && cards[..] == AdvanceAll(old(cards[..]), r.advanced, now)
    {
      ghost var whole := RunCards(page, assignments, env, now);
      ghost var acc := Done;
      AdvanceNothing(cards[..], now);
      status := Completed;
      var j := 0;
      while j < |page| && status == Completed
        invariant j <= |page|
        invariant outbox == old(outbox) + acc.dms
        invariant cards[..] == AdvanceAll(old(cards[..]), acc.advanced, now)
        invariant status == acc.status
        invariant status == Completed ==> Then(acc, RunCards(page[j..], assignments, env, now)) == whole
        invariant status.Aborted? ==> acc == whole
      {
        assert page[j..][1..] == page[j + 1..];
        ghost var step := CardStep(page[j], assignments, env, now);
        ThenAssoc(acc, step, RunCards(page[j + 1..], assignments, env, now));
        AdvanceAllCompose(old(cards[..]), acc.advanced, step.advanced, now);
        AppendAssoc(old(outbox), acc.dms, step.dms);
        status := ProcessCard(page[j], now);
        acc := Then(acc, step);
        j := j + 1;
      }
      if status == Completed {
        assert page[j..] == [];
      }
    }

    /**
     * One turn of the pass loop (src/index.ts:77-197): fetch the page at `offset` of
     * the current table; an exception ends the pass, an empty page ends it
     * normally, and otherwise the page's cards are processed and the pass
     * moves on to the next offset.
     */
    method Turn(offset: nat, now: int, today: int, ghost t0: seq<Card>, ghost o0: seq<Dm>, ghost whole: Outcome,
                ghost acc: Outcome, ghost visited: seq<Card>, ghost fetches: nat)
      returns (status: Status, more: bool, ghost acc': Outcome)
      requires UniqueIds(t0)
      requires PassInv(Candidates(t0, today), whole, acc, offset, visited, fetches, assignments, env, now)
      requires outbox == o0 + acc.dms && cards[..] == AdvanceAll(t0, acc.advanced, now)
      modifies this`outbox, cards
      ensures outbox == o0 + acc'.dms && cards[..] == AdvanceAll(t0, acc'.advanced, now)
      ensures status == acc'.status
      ensures status.Aborted? ==> acc' == whole
      ensures var cands := Candidates(t0, today);
        status == Completed && more ==>
          PassInv(cands, whole, acc', offset + QueryLimit, visited + Page(cands, offset), fetches + 1, assignments, env, now)
      ensures var n := |Candidates(t0, today)|;
        status == Completed && !more ==>
          && acc' == whole && visited == Candidates(t0, today)
          && fetches + 1 == (n + QueryLimit - 1) / QueryLimit + 1
    {
      ghost var cands := Candidates(t0, today);
      PassInvStep(cands, whole, acc, offset, visited, fetches, assignments, env, now);
      if env.pageFails(offset) {
        status, more := Aborted(PageFetch(offset)), false;
        acc' := Outcome(acc.dms, acc.advanced, status);
        return;
      }
      PageOfAdvancedTable(t0, acc.advanced, now, today, offset);
      var page := Page(Candidates(cards[..], today), offset);
      if page == [] {
        status, more, acc' := Completed, false, acc;
        return;
      }
      ghost var run := RunCards(page, assignments, env, now);
      AdvanceAllCompose(t0, acc.advanced, run.advanced, now);
      AppendAssoc(o0, acc.dms, run.dms);
      status := ProcessPage(page, now);
      more := true;
      acc' := Then(acc, run);
    }

    /**
     * `checkNotifications`: the pass has the effect of `PassFrom` over the
     * snapshot of candidates taken at its start. When it completes it has
     * visited every candidate exactly once, in order, with
     * ceil(N / QueryLimit) + 1 page fetches.
     */
    method CheckNotifications(now: int, today: int) returns (status: Status, ghost visited: seq<Card>, ghost fetches: nat)
      requires UniqueIds(cards[..])
      modifies this`outbox, cards
      ensures UniqueIds(cards[..])
      ensures var r := PassFrom(Candidates(old(cards[..]), today), 0, assignments, env, now);
        && outbox == old(outbox) + r.dms
        && status == r.status
        && cards[..] == AdvanceAll(old(cards[..]), r.advanced, now)
      ensures status == Completed ==>
        var n := |Candidates(old(cards[..]), today)|;
        && visited == Candidates(old(cards[..]), today)
        && fetches == (n + QueryLimit - 1) / QueryLimit + 1
    {
      ghost var t0 := cards[..];
      ghost var cands0 := Candidates(t0, today);
      ghost var whole := PassFrom(cands0, 0, assignments, env, now);
      ghost var acc := Done;
      var offset: nat := 0;
      var hasMoreData := true;
      visited, fetches := [], 0;
      status := Completed;
      AdvanceNothing(t0, now);
      PassInvStart(cands0, assignments, env, now);
      while hasMoreData
        invariant status == acc.status == Completed
        invariant outbox == old(outbox) + acc.dms
        invariant cards[..] == AdvanceAll(t0, acc.advanced, now)
        invariant hasMoreData ==> PassInv(cands0, whole, acc, offset, visited, fetches, assignments, env, now)
        invariant !hasMoreData ==> acc == whole && visited == cands0
        invariant !hasMoreData ==> fetches == (|cands0| + QueryLimit - 1) / QueryLimit + 1
        decreases if hasMoreData then |cands0| + QueryLimit + 1 - offset else 0
      {
        ghost var next;
        status, hasMoreData, next := Turn(offset, now, today, t0, old(outbox), whole, acc, visited, fetches);
        if status.Aborted? {
          acc := next;
          break;
        }
        if hasMoreData {
          visited := visited + Page(cands0, offset);
          offset := offset + QueryLimit;
        }
        acc := next;
        fetches := fetches + 1;
      }
      AdvanceKeepsIds(t0, acc.advanced, now);
    }
  }
}
