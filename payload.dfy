/**
 * What one reminder DM carries: the recipient lists built from the user
 * lookups, the project/board name fallback, the style color, the embed and
 * the wave of one DM per assignment row.
 */
module Payload {
  import opened Wrappers
  import opened HexColor

  /** A resolved Discord user: its username and avatar URL. */
  datatype User = User(username: string, avatar: string)

  /** Outcome of a `findOne`: a row's name, no row (null), or an exception. */
  datatype Lookup<+T> = Found(value: T) | Absent | Thrown

  /** What `fetchProjectAndBoardDetails` returns. */
  datatype Details = Details(projectName: string, projectId: int, boardName: string, boardId: int)

  const UnknownProject: string := "Unknown Project"
  const UnknownBoard: string := "Unknown Board"

  /**
   * `fetchProjectAndBoardDetails`: never fails. A missing row falls back to its
   * placeholder name; an exception in either lookup falls back for both.
   */
  function ProjectAndBoardDetails(projectId: int, boardId: int, project: Lookup<string>, board: Lookup<string>): (d: Details)
    ensures d.projectId == projectId && d.boardId == boardId
    ensures project.Thrown? || board.Thrown? ==> d.projectName == UnknownProject && d.boardName == UnknownBoard
    ensures !board.Thrown? && project.Found? ==> d.projectName == project.value
    ensures !project.Thrown? && board.Found? ==> d.boardName == board.value
    ensures project.Absent? ==> d.projectName == UnknownProject
    ensures board.Absent? ==> d.boardName == UnknownBoard
  {
    if project.Thrown? || board.Thrown? then
      Details(UnknownProject, projectId, UnknownBoard, boardId)
    else
      Details(
        if project.Found? then project.value else UnknownProject, projectId,
        if board.Found? then board.value else UnknownBoard, boardId)
  }

  /** The `Promise.all` of user lookups, in assignment order: None where the lookup threw. */
  function UserDetails(userIds: seq<string>, users: string -> Option<User>): (d: seq<Option<User>>)
    ensures |d| == |userIds|
    ensures forall k :: 0 <= k < |d| ==> d[k] == users(userIds[k])
  {
    seq(|userIds|, k requires 0 <= k < |userIds| => users(userIds[k]))
  }

  /** `userDetails.filter(Boolean)`: the resolved users, failed lookups dropped. */
  function Survivors(details: seq<Option<User>>): (us: seq<User>)
    ensures |us| <= |details|
    ensures forall u :: u in us <==> Some(u) in details
  {
    if details == [] then []
    else
      assert details == [details[0]] + details[1..];
      (if details[0].Some? then [details[0].value] else []) + Survivors(details[1..])
  }

  /** Filtering keeps relative order: the survivors of a concatenation are the concatenated survivors. */
  lemma {:induction false} SurvivorsAppend(a: seq<Option<User>>, b: seq<Option<User>>)
    ensures Survivors(a + b) == Survivors(a) + Survivors(b)
  {
    if a == [] {
      assert a + b == b;
    } else {
      assert (a + b)[1..] == a[1..] + b;
      SurvivorsAppend(a[1..], b);
    }
  }

  /** With no failed lookup, nobody is dropped and the order is the assignment order. */
  lemma {:induction false} SurvivorsAllResolved(details: seq<Option<User>>)
    requires forall k :: 0 <= k < |details| ==> details[k].Some?
    ensures |Survivors(details)| == |details|
    ensures forall k :: 0 <= k < |details| ==> Survivors(details)[k] == details[k].value
  {
    if details != [] {
      SurvivorsAllResolved(details[1..]);
    }
  }

  /** Dropping the one failed entry: the survivors are the other entries' users, in order. */
  lemma {:induction false} SurvivorsDropOne(d: seq<Option<User>>, j: nat)
    requires j < |d| && d[j].None?
    requires forall k :: 0 <= k < |d| && k != j ==> d[k].Some?
    ensures |Survivors(d)| == |d| - 1
    ensures forall k :: 0 <= k < j ==> Survivors(d)[k] == d[k].value
    ensures forall k :: j < k < |d| ==> Survivors(d)[k - 1] == d[k].value
    decreases j
  {
    var rest := d[1..];
    assert forall k :: 0 <= k < |rest| ==> rest[k] == d[k + 1];
    if j == 0 {
      assert Survivors(d) == Survivors(rest);
      SurvivorsAllResolved(rest);
    } else {
      assert Survivors(d) == [d[0].value] + Survivors(rest);
      SurvivorsDropOne(rest, j - 1);
    }
  }

  /**
   * Exactly one failed lookup among K user ids: the survivors are the other
   * K - 1 users in assignment order, while the wave still attempts K DMs, the
   * failed user's included.
   */
  lemma OneFailedLookup(userIds: seq<string>, users: string -> Option<User>, j: nat, msg: Message, delivers: string -> bool)
    requires j < |userIds| && users(userIds[j]).None?
    requires forall k :: 0 <= k < |userIds| && k != j ==> users(userIds[k]).Some?
    ensures var us := Survivors(UserDetails(userIds, users));
      && |us| == |userIds| - 1
      && (forall k :: 0 <= k < j ==> us[k] == users(userIds[k]).value)
      && (forall k :: j < k < |userIds| ==> us[k - 1] == users(userIds[k]).value)
    ensures |Wave(userIds, msg, delivers)| == |userIds|
    ensures Wave(userIds, msg, delivers)[j].userId == userIds[j]
  {
    SurvivorsDropOne(UserDetails(userIds, users), j);
  }

  /** `.map(user => user.avatar)`. */
  function Avatars(us: seq<User>): (a: seq<string>)
    ensures |a| == |us|
    ensures forall k :: 0 <= k < |us| ==> a[k] == us[k].avatar
  {
    seq(|us|, k requires 0 <= k < |us| => us[k].avatar)
  }

  /** `.map(user => user.username)`. */
  function Names(us: seq<User>): (n: seq<string>)
    ensures |n| == |us|
    ensures forall k :: 0 <= k < |us| ==> n[k] == us[k].username
  {
    seq(|us|, k requires 0 <= k < |us| => us[k].username)
  }

  /**
   * The avatar list handed to the collage and the name list in the embed come
   * from the same survivors: equal length, k-th avatar and k-th name of the
   * same user, and a user whose lookup failed appears in neither.
   */
  lemma RecipientListsAgree(details: seq<Option<User>>)
    ensures var us := Survivors(details);
      && |Avatars(us)| == |Names(us)| <= |details|
      && (forall k :: 0 <= k < |us| ==> Some(User(Names(us)[k], Avatars(us)[k])) in details)
  {
    var us := Survivors(details);
    forall k | 0 <= k < |us| ensures Some(User(Names(us)[k], Avatars(us)[k])) in details {
      assert us[k] in us;
      assert User(Names(us)[k], Avatars(us)[k]) == us[k];
    }
  }

  /** `Array.prototype.join(sep)`. */
  function Join(parts: seq<string>, sep: string): string {
    if parts == [] then ""
    else if |parts| == 1 then parts[0]
    else parts[0] + sep + Join(parts[1..], sep)
  }

  /** Joining puts the parts left to right, one separator between neighbours. */
  lemma {:induction false} JoinAppend(parts: seq<string>, p: string, sep: string)
    requires parts != []
    ensures Join(parts + [p], sep) == Join(parts, sep) + sep + p
  {
    if |parts| == 1 {
      assert (parts + [p])[1..] == [p];
    } else {
      assert (parts + [p])[1..] == parts[1..] + [p];
      JoinAppend(parts[1..], p, sep);
    }
  }

  /**
   * `parseInt(style?.toJSON().name, 16)`: the style's name read as hex. A missing
   * style parses the string "undefined", which is `NaN` (see `MissingStyleColor`).
   */
  function StyleColor(style: Lookup<string>): Color
    requires !style.Thrown?
  {
    if style.Found? then ParseInt16(style.value) else NaN
  }

  /** With no style row the color is whatever `parseInt("undefined", 16)` gives. */
  lemma MissingStyleColor()
    ensures StyleColor(Absent) == ParseInt16("undefined")
  {
    NoLeadingDigitIsNaN("undefined");
  }

  const AttachmentName: string := "avatars.png"
  const AttachmentUrl: string := "attachment://avatars.png"
  const Footer: string := "Task Reminder"

  /**
   * The embed. Start and due dates are kept as timestamps (their display
   * format is not modelled); `daysLeft` is the number before " days".
   */
  datatype Embed = Embed(
    title: string,
    thumbnail: string,
    color: Color,
    board: string,
    task: string,
    startDate: int,
    dueDate: int,
    daysLeft: int,
    assignedUsers: string,
    image: string,
    footer: string)

  /** A DM: the embed plus the collage attachment, identified by the avatar list it is drawn from. */
  datatype Message = Message(embed: Embed, collage: seq<string>, attachmentName: string)

  /** One `sendDM` attempt and whether delivery succeeded (a failure is swallowed, only logged). */
  datatype Dm = Dm(userId: string, message: Message, delivered: bool)

  /** The DMs of one card, one per assignment row in assignment order, all carrying `msg`. */
  function Wave(userIds: seq<string>, msg: Message, delivers: string -> bool): (w: seq<Dm>)
    ensures |w| == |userIds|
    ensures forall k :: 0 <= k < |w| ==>
      w[k].userId == userIds[k] && w[k].message == msg && w[k].delivered == delivers(userIds[k])
  {
    if userIds == [] then []
    else
      var last := userIds[|userIds| - 1];
      Wave(userIds[..|userIds| - 1], msg, delivers) + [Dm(last, msg, delivers(last))]
  }

  /** The wave for one more recipient is the wave so far plus one DM. */
  lemma WaveSnoc(userIds: seq<string>, i: nat, msg: Message, delivers: string -> bool)
    requires i < |userIds|
    ensures Wave(userIds[..i + 1], msg, delivers) == Wave(userIds[..i], msg, delivers) + [Dm(userIds[i], msg, delivers(userIds[i]))]
  {
    assert userIds[..i + 1][..i] == userIds[..i];
  }
}
