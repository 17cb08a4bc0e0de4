# Reminder pass of the notification service, in Dafny

This project models the reminder pass `checkNotifications` of the
notification service. The pass does the following:

- It pages through the active cards whose reminder window contains today.
- For every card whose reminder interval has elapsed, it resolves the
  assigned users and renders their avatar collage.
- It then sends one Discord DM per assignment row and writes the card's
  `lastReminderDate`.

The project also models the grid arithmetic of `createAvatarCollage`.

The model is built in layers:

- **State.** The card table is an `array<Card>` that the clock write
  updates in place. The assignment table is a sequence. The DMs sent so far
  are an `outbox` field. All of them live in the class
  `Reminder.ReminderEngine`.
- **Collaborators.** Every external call is an oracle in the datatype
  `Reminder.Env`: the user lookup, DM delivery, project, board and style
  lookups, and whether a page fetch, assignment fetch, collage render or
  clock write throws.
- **Exceptions.** An exception that the source does not catch ends the pass
  with `Aborted(failure)`.
- **Methods and their specifications.** The methods `CheckNotifications`,
  `ProcessPage`, `ProcessCard` and `SendWave` follow the source's nested
  loops. Each is proved equal to a specification function:
  - `PassFrom` for the pass over the snapshot of candidates;
  - `RunCards` for the cards of one page;
  - `CardStep` for one card;
  - `Wave` for the DMs of one card.
- **Loop body.** The method `Turn` is one iteration of the page loop of
  `CheckNotifications`: it fetches one page from the live table and processes
  it. It is proved to keep the loop invariant `PassInv`, which relates the
  state so far to `PassFrom`; it is not itself equal to a specification
  function.
- **Lemmas.** The properties of the pass are proved about those functions.
- **Pure parts.** The due decision, the candidate filter, pagination,
  `parseInt(…, 16)`, the recipient lists and the collage layout are modelled
  as functions with lemmas.

Timestamps are integer milliseconds. Whole days follow dayjs
`diff(…, 'days')`: the millisecond difference divided by 86 400 000,
truncated toward zero. The pass takes one `now` and one `today` as
parameters.

Behaviour of the code that the model keeps as written:

- **Page count.** The code stops only on an empty page, never on a short
  one. A pass over N candidates therefore makes ceil(N / 100) + 1 page
  fetches, and N = 0 gives one.
- **Collage failure.** A collage render that throws is not caught per card.
  It ends the whole pass, and is not degraded to a DM without an image.
- **Malformed style name.** A style name is never an error. `parseInt`
  reads the longest run of hex digits after optional white space, a sign and
  `0x`, so "blue" gives 11. The color is NaN only when that run is empty, as
  for "notacolor", "#FF0000" or a missing style. A style lookup that throws
  ends the pass.
- **Project and board lookup.** It runs for every candidate, due or not,
  before the due check. It never throws, so it has no effect on a card that
  is not due.
- **Clock write.** A failed clock write is not retried: it ends the pass.
- **Page order.** The page query has no ORDER BY. The model fixes the table
  order as the snapshot order.
- **Assignment order.** The assignment query (`src/index.ts:105-108`) has no
  ORDER BY either. "Assignment order" throughout the model is the order of
  the assignment sequence, under the same fixed-order assumption.
- **Concurrent passes.** Nothing guards against overlapping passes.

## Model

| member | source | states |
|---|---|---|
| DayMath.WholeDaysBounds | src/index.ts:104 | the day count is the millisecond difference truncated toward zero: never more than the elapsed time, less than one day short, negative when the instants are reversed |
| DayMath.WholeDaysAntisymmetric | src/index.ts:140 | swapping the two instants negates the day count, so `daysLeft` is the negated elapsed-days count from the due date |
| DayMath.DaysAtLeast | src/index.ts:104 | for n >= 1, at least n whole days have passed iff at least n × 86 400 000 ms have passed |
| Store.CandidatesMembers | src/index.ts:82-92 | a card is a candidate iff it is a table row that is active, has an interval, and has startDate <= today <= endDate |
| Store.CandidatesUnique | src/index.ts:82-92 | filtering a table with unique card ids gives candidates with unique ids |
| Store.AdvanceAllRows | src/index.ts:188-191 | the clock write changes only `lastReminderDate`, sets it to `now` exactly in the rows whose id is written, and leaves every other row unchanged |
| Store.AdvanceKeepsIds | src/index.ts:188-191 | the clock write keeps every row's id, so the primary key stays unique |
| Store.AdvanceAllCompose | src/index.ts:188-191 | two successive clock writes at one `now` equal one write for both id lists |
| Store.AdvanceCommutesWithCandidates | src/index.ts:83-88 | the filter never reads `lastReminderDate`: filtering the advanced table gives the advanced candidates, with none added, removed or moved |
| Store.CandidateIdsStable | src/index.ts:83-88 | the candidate ids, in order, are the same before and after any clock write |
| Store.DueIffIntervalElapsed | src/index.ts:101-104 | with baseline `lastReminderDate` or else `startDate`, a card with interval n >= 1 is due iff n days of milliseconds have passed, and exactly n whole days counts as due |
| Store.DueBoundaryExample | src/index.ts:104 | interval 3 with no earlier reminder: due at exactly three days after the start, not due one hour earlier |
| Store.AdvancedCardNotDue | src/index.ts:104 | after the clock write at `now`, a re-check at `now` is not due for any interval >= 1, and the card is due again one interval later |
| Pagination.Page | src/index.ts:90-91 | a page holds at most 100 rows, is empty iff the offset is at or past the end, and is full whenever 100 rows remain |
| Pagination.PageRows | src/index.ts:90-91 | row k of the page at `offset` is snapshot row offset + k |
| Pagination.PagesFromFlatten | src/index.ts:77-97 | the pages fetched from an offset, concatenated, are exactly the snapshot rows from that offset on |
| Pagination.PagesFromCount | src/index.ts:94-97 | from an offset, the loop fetches ceil(remaining / 100) non-empty pages and then one empty page |
| Pagination.PaginationCoverage | src/index.ts:77-97 | over N snapshot rows every row is visited exactly once and in order, with ceil(N / 100) + 1 fetches, the last one empty |
| HexColor.TrimStartSkipsWhiteSpace | src/index.ts:148 | parseInt skips only white space before the number |
| HexColor.HexRunDigits | src/index.ts:148 | the digit run parseInt reads consists of hexadecimal digits only |
| HexColor.ParseToHex | src/index.ts:148 | a style named by the upper-case hex spelling of n parses to the color n |
| HexColor.PlainStart | src/index.ts:148 | with no white space, sign or 0x prefix, parsing reads the digit run from the first character |
| HexColor.RedExample | src/index.ts:148 | the style name "FF0000" gives 16711680 |
| HexColor.NoLeadingDigitIsNaN | src/index.ts:148 | a name starting with a character that is not white space, a sign or a hex digit gives NaN, not an error |
| HexColor.NotAColorExamples | src/index.ts:148 | "notacolor", "undefined" and "#FF0000" give NaN |
| HexColor.HexPrefixExample | src/index.ts:148 | leading white space and a 0x prefix are skipped: " 0x1f" gives 31 |
| HexColor.NegativeExample | src/index.ts:148 | a leading minus negates: "-ff" gives -255 |
| HexColor.TrailingGarbageExample | src/index.ts:148 | reading stops at the first non-digit: "12zz" gives 18 |
| Payload.ProjectAndBoardDetails | src/index.ts:42-69 | never fails: a found row gives its name, a missing row gives "Unknown Project" or "Unknown Board", an exception in either lookup gives both placeholders, and the ids pass through |
| Payload.Survivors | src/index.ts:127 | `filter(Boolean)` keeps exactly the resolved users and never lengthens the list |
| Payload.SurvivorsAppend | src/index.ts:127 | filtering keeps relative order: the survivors of a concatenation are the concatenated survivors |
| Payload.SurvivorsAllResolved | src/index.ts:127 | with no failed lookup nobody is dropped, and the users keep assignment order |
| Payload.SurvivorsDropOne | src/index.ts:127-133 | when exactly one lookup failed, the survivors are every other entry's user, in order, one fewer than the lookups |
| Payload.OneFailedLookup | src/index.ts:113-134 | with exactly one failed lookup among K user ids, the survivors are the other K - 1 users in assignment order, while the wave still attempts K DMs, the failed user's included |
| Payload.RecipientListsAgree | src/index.ts:127-134 | the avatar and name lists have equal length, no longer than the lookups; position k of both belongs to one resolved user; a failed lookup appears in neither |
| Payload.JoinAppend | src/index.ts:134 | `join(', ')` puts the names left to right with one separator between neighbours |
| Payload.MissingStyleColor | src/index.ts:136-148 | with no style row the color is what `parseInt("undefined", 16)` gives |
| Payload.Wave | src/index.ts:141-186 | one DM per assignment row, in assignment order, each carrying the same message and its own delivery result |
| Payload.WaveSnoc | src/index.ts:141-186 | the wave for one more row is the wave so far plus that row's DM |
| Reminder.AssignedUserIdsOne | src/index.ts:105-110 | an assignment row for the card yields exactly its user id; a row for another card yields nothing |
| Reminder.AssignedUserIdsAppend | src/index.ts:105-110 | the user ids of a concatenated table are the ids of the first part followed by those of the second: one id per matching row, in table order, duplicates kept |
| Reminder.CardMessageContents | src/index.ts:136-181 | the message holds the project name and the board name, each the row's name when found, its placeholder when absent, and both placeholders when either lookup threw; the card name; `daysLeft` equal to minus the whole days elapsed since the due date, unclamped (zero or more before the due date, negative a day after it); the parsed color (NaN without a style); and the names and avatars of the resolved users only, as equally long lists |
| Reminder.CardStepShape | src/index.ts:100-192 | a card that is not due does nothing; a due card's clock is written only when it completes, after all its DMs; it makes one DM per assignment row in order, resolved or not, all with the same message; a card that throws is not advanced, and the exception is its own |
| Reminder.RunCardsAppend | src/index.ts:99-193 | processing a concatenation is processing the first part, then the second unless the first threw |
| Reminder.RunCardsAdvancesDue | src/index.ts:104-191 | the cards advanced are a prefix of the due cards in order; a completed run advances every due card and makes one DM attempt per assignment row of each |
| Reminder.RunCardsAbort | src/index.ts:198-200 | an exception at card k keeps the completed work and clock writes of the cards before k and the DMs card k attempted; card k is not advanced and no later card is touched |
| Reminder.PagingTransparent | src/index.ts:77-97 | with no page fetch failing, the pass processes exactly the snapshot rows from its offset on, each once and in order |
| Reminder.PassAdvancesDue | src/index.ts:77-197 | a pass advances a prefix of the due candidates; a completed pass advances all of them and makes one DM attempt per assignment row of each |
| Reminder.PageOfAdvancedTable | src/index.ts:82-92 | after clock writes to cards before `offset`, the page the query returns at `offset` is the snapshot page |
| Reminder.ReminderEngine.SendDM | src/index.ts:31-39 | one attempt is logged with its delivery result; a failed delivery is swallowed and nothing else changes |
| Reminder.ReminderEngine.UpdateLastReminder | src/index.ts:188-191 | the table becomes the clock write of `now` for the rows with this card id |
| Reminder.ReminderEngine.SendWave | src/index.ts:141-186 | the outbox grows by exactly the wave of the card: one DM per assignment row, in order |
| Reminder.ReminderEngine.ProcessCard | src/index.ts:100-192 | the outbox, the table and the status after one card are those of `CardStep` |
| Reminder.ReminderEngine.ProcessPage | src/index.ts:99-193 | the outbox, the table and the status after one page are those of `RunCards`, stopping at the first exception |
| Reminder.ReminderEngine.Turn | src/index.ts:80-197 | one loop turn keeps the pass invariant: a failed fetch ends the pass; an empty page ends it having visited every candidate; a processed page moves the invariant to the next offset |
| Reminder.ReminderEngine.CheckNotifications | src/index.ts:72-201 | the outbox, the table and the status equal `PassFrom` over the candidates at the start; the card ids stay unique; a completed pass visited every candidate exactly once, in order, with ceil(N / 100) + 1 fetches |
| AvatarCollage.Columns | src/createAvatarCollage.ts:6 | `min(n, 5)`: between 1 and 5 and at most n, equal to n or to 5 |
| AvatarCollage.Rows | src/createAvatarCollage.ts:7 | `ceil(n / columns)`: the fewest rows that hold n avatars (rows × columns >= n > (rows − 1) × columns) |
| AvatarCollage.CanvasWidth | src/createAvatarCollage.ts:9 | at least one avatar wide and at most 5 cells wide |
| AvatarCollage.CanvasHeight | src/createAvatarCollage.ts:10 | at least one avatar high |
| AvatarCollage.Position | src/createAvatarCollage.ts:22-23 | avatar i's corner lies on the 42-pixel grid, and its 32×32 box lies inside the canvas |
| AvatarCollage.CanvasTight | src/createAvatarCollage.ts:4-10 | the canvas is exactly large enough: the box of the last column ends at the right edge and the box of the last avatar's row ends at the bottom edge |
| AvatarCollage.NoOverlap | src/createAvatarCollage.ts:22-34 | distinct avatars' boxes are disjoint |
| AvatarCollage.RowMajor | src/createAvatarCollage.ts:18-23 | a later avatar is lower, or on the same row and further right |
| AvatarCollage.CreateAvatarCollage | src/createAvatarCollage.ts:18-38 | a canvas of the grid's size with exactly one 32-pixel draw per avatar, in input order, avatar i drawn at `Position(n, i)` (column `i % columns`, row `i / columns`, stride 42), each inside the canvas, none overlapping, placed row-major |

## Left out

- Discord: login, `client.users.fetch`, `user.send`, `displayAvatarURL` and the building of avatar URLs are oracles in `Env`. A user is a username and an avatar string.
- Sequelize: the queries are the filter, `Page` and the in-place clock write over the card array. Migrations and connection set-up (`initDB`) are not part of this model.
- Console logging and the outer `catch` that logs the error are left out; an uncaught exception becomes `Aborted(failure)`.
- Scheduling: `cron.schedule`, and passes that overlap because the cron job has no guard, are left out. Each pass is one call of `CheckNotifications`.
- `Env.users` and `Env.delivers` are functions of the user id. Two lookups or two DMs for the same user within one pass (two assignment rows for one card, or the same user on two cards) therefore always get the same result, where the source's calls are independent. No proved property relies on this.
- `Env.project`, `Env.board`, `Env.style` and `Env.collageFails` are functions of their argument too. Whether a project, board or style lookup throws, and whether the collage throws, is therefore shared by every card with the same `projectId`, `boardId`, `styleId` or avatar list: two due cards with the same `styleId` cannot have the first style lookup succeed and the second throw. In the source these are independent calls (`src/index.ts:44-52`, `src/index.ts:130`, `src/index.ts:136`), and the collage fetches images over the network. No proved property relies on this.
- `Promise.all` over the user lookups is a sequential, order-preserving map (`UserDetails`).
- Every `dayjs()` reads the clock again in the source. The model uses one `now` for the due check, `daysLeft` and the clock write.
- `today` is a parameter. Local-time `startOf('day')` and time zones are left out.
- Date formatting (`format('ddd DD/MM/YYYY HH:mm')`) is left out: the embed keeps the start and due timestamps.
- The embed is a record of its fields, not the field-list JSON. The attachment is identified by the avatar list it is drawn from, not by pixels.
- `parseInt` works on JavaScript doubles, which lose integer precision past 2^53. The model's color is an unbounded integer.
- The white-space set skipped by `parseInt` is written out as the ECMAScript StrWhiteSpaceChar code points.
- Canvas drawing (`createCanvas`, `loadImage`, the circular clip, `drawImage`, `toBuffer`) is floating point and native code. Only the layout and the one-draw-per-avatar order are modelled.
- AvatarCollage.CreateAvatarCollage: requires at least one avatar, because for an empty list the source computes 0 columns and `ceil(0 / 0)` rows. Inside the pass the collage is the `collageFails` oracle, which also covers the empty avatar list that a card with no resolved user produces.
- Reminder.ReminderEngine.CheckNotifications: requires unique card ids in the table (`cardId` is the primary key). This is what keeps a clock write to an earlier page from changing a later one.
- Reminder.ReminderEngine.CheckNotifications: the pass is specified over the candidate order of the table at its start; a table that other writers change during the pass is not modelled.
- `src/config.ts` only reads environment variables and is not part of this model.
