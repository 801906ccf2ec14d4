# LAN chess server: game clock, completion and ratings

A Dafny model of the game lifecycle of a club chess server: the server-held
chess clock, game completion, and the members' statistics and ratings. It
also covers the JSON endpoints that drive them: create, join, move, resign,
draw and state polling.

The clock is never ticked. Each game stores the seconds left on each side
and the instant of the last committed move.

- **Peek** (`Games.GetTimerState`) projects the clock for display. The side
  to move loses the whole seconds elapsed since the last move, floored at
  zero. It changes nothing.
- **Commit** (`Games.UpdateTimerOnMove`) charges the side that just moved,
  with the same floor. It completes the game on time when that clock reaches
  zero, then stamps both timestamps.
- **Completion** (`Games.MarkCompleted`) records the winner and reason. In a
  rated game between two registered members it also hands each player a
  win, loss or draw (`Games.ApplyOutcome`).
- **Ledger** (`Ledger.UpdateStats`) keeps each member's record: counters,
  win streaks, and ±10 rating moves. It sets the one-time initial rating
  after five games, clamped to [800, 2000], and awards achievement badges.

Everything is immutable records and pure functions. Time, the candidate game
codes and the requesting identity are explicit parameters.

Modules:

| module | file | contents |
|---|---|---|
| `Wrappers` | wrappers.dfy | `Option`, `Result` |
| `Fen` | fen.dfy | Python's `str.split()`, and the side to move read from a FEN record's second field |
| `Matric` | matric.dfy | the matric-number validator, as written and as intended |
| `Ledger` | ledger.dfy | `User`, `UpdateStats`, initial rating, achievements, rating display |
| `Games` | games.dfy | `Game`, whole-second elapsed time, peek, commit, completion, start, time controls, captures |
| `Api` | api.dfy | the endpoints as transitions of a store (games by code, members by id) |
| `Traces` | traces.dfy | request sequences: polls are invisible, invariants hold, status only advances |

Modelling choices:

- **Instants** are integer microseconds, the resolution of the stored
  timestamps. Elapsed whole seconds are Python's `int(delta.total_seconds())`:
  truncation toward zero, which for a negative difference is not Dafny's
  flooring `/` (`Games.WholeSeconds`). No `now >= last_move_time`
  precondition is imposed. A clock read before the last move's instant is
  modelled exactly as the source computes it.
- **The side to move** is `'w' in fen.split()[1]`. A FEN with fewer than two
  fields makes Python raise `IndexError`, modelled as `Err(MalformedFen)`.
  The move endpoint turns that into a server error.
- **Exceptions that escape an endpoint** become the reply `ServerError`.
  The store keeps whatever had been saved before the exception.
  `add_captured_piece` saves the game mid-request, so a move whose clock
  commit then fails still keeps its new position and its capture.
- **Member records** are read before either is written back, as the two
  foreign-key objects of a game are. When one member holds both seats, the
  black-side update is written last and is the one that survives.
- **A join on a game that already has a start instant** does not store the
  black seat, because only `mark_started` saves. Created games never have one.

Two behaviours of the code that the model keeps as they are:

- **No double-completion guard.** Completion does not check whether the
  game is already completed. A move whose commit times the game out and
  whose payload also declares `game_over` therefore counts the game twice
  in both records (`Api.TimeoutThenGameOverCountsTwice`).
- **The mover comes from the post-move FEN.** The commit reads the FEN
  already stored for the move and charges the side not to move in it.
  `Api.MoveChargesWhatPeekShowed` shows that this is the side that was to
  move before, and that it is charged exactly what a poll showed, whenever
  the new position hands the move to the other side.

## Model

| member | source | states |
|---|---|---|
| `Matric.MatchesAsWritten` | game/models.py:31-34 | the validator as written accepts exactly 11 digits, or a capital and 7 digits, or either of those followed by one newline (Python's `$`) |
| `Matric.IsValidMatric` | game/models.py:28-34 | the intended validator accepts exactly 11 ASCII digits, or one capital A–Z followed by exactly 7 digits |
| `Matric.TrailingNewlineAccepted` | game/models.py:32 | `"F2301040\n"` passes the validator as written but is not a valid matric number |
| `Matric.AgreeWithoutTrailingNewline` | game/models.py:31-34 | on every input that does not end in a newline, the validator as written and the intended one agree |
| `Ledger.DisplayRating` | game/models.py:95-101 | unrated exactly when the rating is null, and then shows `max(0, 5 − games)` games still needed; otherwise shows the rating |
| `Ledger.IsRated` | game/models.py:90-93 | rated exactly when a rating is assigned and the display shows a rating rather than the provisional count; the display then shows the stored rating |
| `Ledger.RatedExactlyAfterProvisionalGames` | game/models.py:90-101 | on a consistent record, `is_rated` holds iff at least five games are played, and the display shows a rating exactly then |
| `Ledger.Clamp` | game/models.py:136 | `max(lo, min(hi, x))` lies in [lo, hi], equals x inside the range and the nearer bound outside it |
| `Ledger.AssignInitialRating` | game/models.py:132-137 | sets the rating to the clamped baseline `1000 + 20·wins − 15·losses + 5·draws`, always within [800, 2000], marks it assigned and changes nothing else |
| `Ledger.Award` | game/models.py:144-157 | a badge is appended only when earned and not already held; held badges keep their order and no duplicate appears |
| `Ledger.CheckAchievements` | game/models.py:139-159 | badges are only appended; a badge is held afterwards iff it was held before or its threshold is met (exactly one win, at least 10 games, a streak of at least 5, a rating of at least 1500); no duplicates are introduced |
| `Ledger.UpdateStats` | game/models.py:103-128 | games +1; exactly the matching counter +1; a win extends the streak and raises the longest streak to match, while a loss or draw resets it; the initial rating fires exactly when the fifth game is recorded unrated; otherwise an existing rating moves +10, −10 or 0 and a null one stays null; the old badges stay in order, every badge the new record earns is held afterwards and no other is added, and no duplicate appears |
| `Ledger.RateIfDue` | game/models.py:123-125 | on reaching five games unrated, the rating becomes the clamped baseline of the counters and is marked assigned; otherwise nothing changes; no other field changes either way |
| `Ledger.UpdateStatsKeepsConsistent` | game/models.py:103-137 | the record invariant is kept: wins + losses + draws = games, 0 ≤ streak ≤ longest streak, streak ≤ wins, assigned iff games ≥ 5, rating non-null iff assigned, no duplicate badges |
| `Ledger.NewUserConsistent` | game/models.py:54-74 | a new member's default record satisfies the record invariant |
| `Ledger.RatingNeverReverts` | game/models.py:112-125 | once assigned, the rating is never null again and each later game moves it by at most 10, never recomputing it |
| `Ledger.ReplayFromNewUser` | game/models.py:103-137 | after any sequence of results from a new member, the counters count the results; the rating is null for fewer than five games, is the clamped baseline of those results after exactly five, and is non-null from then on |
| `Ledger.FifthGameWinScenario` | game/models.py:123-136 | three wins and a loss, then a win as the fifth game, gives the initial rating 1065 |
| `Fen.Opponent` | game/models.py:365 | the mover is always the colour other than the side to move |
| `Fen.WordLength` | game/models.py:331 | the length of the longest separator-free prefix: no separator before it, a separator right after it |
| `Fen.Fields` | game/models.py:331 | `str.split()` yields only non-empty, separator-free fields |
| `Fen.FieldsOfUnwords` | game/models.py:331 | splitting fields joined by single spaces gives back exactly those fields |
| `Fen.SideToMove` | game/models.py:331 | no side when the FEN has fewer than two fields (Python raises `IndexError`); otherwise white iff the second field contains `w`, else black |
| `Fen.SideToMoveOfRecord` | game/models.py:364-365 | for any record of two or more fields, white is to move iff the second field contains `w` |
| `Fen.StartFenLayout` | game/models.py:7 | the starting FEN consists of six fields, placement first and `w` second |
| `Fen.StartPositionWhiteToMove` | game/models.py:7 | white is to move in the starting position |
| `Games.WholeSeconds` | game/models.py:328 | a microsecond difference becomes whole seconds truncated toward zero, never exceeding the difference in magnitude and within one second of it |
| `Games.ElapsedMonotone` | game/models.py:328 | a later instant never has fewer whole seconds elapsed |
| `Games.Drain` | game/models.py:338-340 | `max(0, t − elapsed)` is never negative, is zero iff the elapsed time covers the clock, and never takes more than the elapsed seconds |
| `Games.GetTimerState` | game/models.py:314-347 | a game that is not active or has no last-move instant shows its stored clocks verbatim; otherwise only the side to move is projected as `max(0, stored − elapsed whole seconds)`, the other clock as stored; a FEN without an active-colour field fails |
| `Games.PeekMonotone` | game/models.py:326-340 | polling later never shows more time on either clock |
| `Games.PeekAtLastMoveShowsStored` | game/models.py:326-340 | polling at the instant of the last move shows exactly the stored clocks |
| `Games.ResultsComplementary` | game/models.py:304-312 | a white or black win gives one side a win and the other a loss, a draw gives both a draw, and any other winner value gives no result |
| `Games.ApplyOutcome` | game/models.py:302-312 | records move only in a rated game with two registered members and a winner of white, black or draw; the black player's record always gets its update, the white player's does too when the seats differ, and no other member changes |
| `Games.RatedCompletionCountsOnce` | game/models.py:303-312 | a rated completion between two different registered members with a white, black or draw result adds exactly one game to each player's record |
| `Games.ApplyOutcomeKeepsConsistent` | game/models.py:302-312 | completion keeps every member record consistent |
| `Games.MarkCompleted` | game/models.py:294-312 | always sets status completed with the given winner, reason and completion instant, changes no other game field, and has no guard against an earlier completion |
| `Games.UpdateTimerOnMove` | game/models.py:349-379 | on a running clock the side opposite the FEN's active colour loses the elapsed whole seconds (floored at 0) and the other clock is untouched; a clock left at 0 completes the game in the same step, stamped `now`, the opponent winning by timeout; otherwise the outcome and completion stamp stay as they were; apart from the mover's clock, the outcome and the two timestamps, which both become `now`, no field of the game changes; a FEN without an active colour on a running clock is an error |
| `Games.CommitKeepsClocksValid` | game/models.py:367-375 | a commit keeps both clocks non-negative |
| `Games.PeekAfterCommitShowsCommitted` | game/models.py:349-379 | polling at the instant of a commit shows exactly the clocks the commit stored, so reading after writing causes no drift |
| `Games.MarkStarted` | game/models.py:285-292 | an unstarted game becomes active with its start instant and both clock timestamps set to now; a started game is left as it is |
| `Games.MarkStartedIdempotent` | game/models.py:285-292 | starting twice, at any instants, is the same as starting once |
| `Games.TimeControlSeconds` | game/models.py:381-394 | the initial clock is positive, is the mapped value for the nine known time controls, and is 300 for any other name |
| `Games.AddCapturedPiece` | game/models.py:396-405 | a piece is appended to the list of its colour; a colour other than white or black fails |
| `Api.Upper` | game/views.py:221 | upper-casing keeps the length and maps each ASCII lower-case letter to its capital |
| `Api.WhiteName` | game/models.py:273-277 | white is shown by the member's username when a member holds the seat, otherwise by the guest name when it is set and non-empty, otherwise as "Guest" |
| `Api.BlackName` | game/models.py:279-283 | black is shown likewise, except that a seat with neither a member nor a non-empty guest name reads "Waiting..." |
| `Api.UpperNormalises` | game/views.py:221 | an upper-cased code has no lower-case letter, and upper-casing again changes nothing |
| `Api.FirstFresh` | game/views.py:221-223 | the position found is that of a candidate whose upper-cased code is not stored, and every earlier candidate's code is stored; none is found exactly when every candidate's code is stored |
| `Api.Create` | game/views.py:220-249 | nothing is created exactly when every candidate's code is taken; otherwise the new code is not yet stored, the store gains exactly the new game under it, and the member records are untouched |
| `Api.CreateGame` | game/views.py:220-249 | the retry loop computes the same result as `Api.Create`; the code is the upper-cased first candidate not already in use, so it is new; only that code is added; the game is waiting at the starting FEN, with both clocks at the time control's seconds (300 when unknown), rated unless told otherwise, and with no moves or captures |
| `Api.GameState` | game/views.py:276-305 | an unknown code is not found; a known code gets the view exactly when the peek succeeds, and a server error otherwise; the clocks and timer stamp shown are the peek's; the code, FEN, status, both display names, winner, reason, move log, move count and captures shown are the stored game's; no store is returned, so a poll never saves |
| `Api.JoinGame` | game/views.py:372-411 | a game not waiting is rejected with the store unchanged; on a waiting, unstarted game only the black seat changes (a member's id or a visitor's name) and the game is then started, and the reply carries the game's code, FEN, clocks and both display names (black's read from the updated seat) with status active; a game already stamped as started is left as stored |
| `Api.JoinShowsJoiner` | game/views.py:386-408 | the join reply names the joiner: a known member by username; a visitor into a seat no member holds by the name sent, "Guest" when none is sent, and "Waiting..." when the name sent is empty |
| `Api.SecondJoinRejected` | game/views.py:379-380 | after a successful join, every further join is rejected with no change |
| `Api.FinishMove` | game/views.py:348-367 | exactly one commit: a failed commit answers a server error and stores nothing more; a successful one stores the committed game and member records, completed a second time when the payload declares the game over; no other game changes; the reply reads the clock and fails only for a FEN without an active colour on a running clock; the stored capture lists are those of the game committed |
| `Api.GameMove` | game/views.py:310-367 | an unknown code is not found, and a missing body or a missing or empty FEN is rejected, before any change; an accepted move is `Api.AcceptMove`; a reported capture under an unknown colour is a server error with nothing stored; otherwise the stored captures are the old lists plus the reported piece on its colour, whatever the commit does; a successful move stores the new FEN, exactly one more move, the log with the SAN appended only when sent, and the last move at now |
| `Api.AcceptMove` | game/views.py:326-358 | a failed capture stores nothing; otherwise the stored game and records are those of the single commit of the prepared game, with a reported capture stored before the commit; no game is created or removed, no other game changes, and its status stays as it was or becomes completed |
| `Api.Prepared` | game/views.py:327-346 | the recorded move (new FEN, one more move, the log entry) with the capture lists unchanged when no capture is reported and extended by `add_captured_piece` when one is; fails exactly when that append fails |
| `Api.MoveChargesWhatPeekShowed` | game/views.py:327-349 | when the new position hands the move to the other side and any reported capture names white or black, the move succeeds, the side that was to move is left exactly the clock a poll at that instant projected, and the other clock is untouched |
| `Api.FinishMoveCountsTwice` | game/views.py:349-356 | when the commit runs the mover's clock out and the payload declares the game over, each player's record gains two games |
| `Api.TimeoutThenGameOverCountsTwice` | game/views.py:349-356 | a move that runs the mover's clock out and whose payload declares the game over applies completion twice, adding two games to each member's record |
| `Api.Resign` | game/views.py:429-437 | an unknown code is not found, and an unreadable body is a server error; otherwise a resignation by white completes the game as a black win, and by any other colour value as a white win, with reason resignation and whatever the status was; only the status, winner, reason and completion instant of that game change, and the records change as completion dictates |
| `Api.OfferDraw` | game/views.py:449-456 | accepting completes the game as a draw by agreement, changing only its status, winner, reason and completion instant, and the records as completion dictates; any other action is only an offer and changes nothing |
| `Api.TwelveSecondFirstMoveScenario` | game/models.py:360-375 | a move twelve seconds after the start of a 300-second game leaves the mover 288 seconds, the opponent 300, and the game active |
| `Traces.WithoutPolls` | game/views.py:276-305 | filtering keeps no poll and is never longer than the requests |
| `Traces.WithoutPollsKeepsOthers` | game/views.py:276-305 | filtering keeps every other request exactly as often as it was sent |
| `Traces.PollsAreInvisible` | game/views.py:276-305 | each poll leaves the store as it was, because the read endpoint returns no store; so any number of polls, interleaved anywhere, leave the same store as the requests without them |
| `Traces.CompletionKeepsValid` | game/models.py:294-312 | completing a game keeps clocks non-negative and records consistent |
| `Traces.CreateKeepsValid` | game/models.py:381-394 | a created game starts with both clocks at a positive time-control value, so creation keeps the store valid |
| `Traces.FinishMoveKeepsValid` | game/views.py:348-358 | the commit and a declared end of game keep the store valid |
| `Traces.AcceptMoveKeepsValid` | game/views.py:326-358 | an accepted move keeps the store valid |
| `Traces.GameMoveKeepsValid` | game/views.py:310-367 | the move endpoint keeps the store valid |
| `Traces.JoinKeepsValid` | game/views.py:372-417 | the join endpoint keeps the store valid |
| `Traces.ResignKeepsValid` | game/views.py:422-437 | the resign endpoint keeps the store valid |
| `Traces.DrawKeepsValid` | game/views.py:442-456 | the draw endpoint keeps the store valid |
| `Traces.StepKeepsValid` | game/models.py:367-375 | every endpoint, creation included, keeps every clock non-negative and every member record consistent |
| `Traces.RunKeepsValid` | game/models.py:103-137 | along any sequence of create, join, move, resign, draw and poll requests the clocks stay non-negative and the records consistent |
| `Traces.FinishMoveAdvances` | game/models.py:349-379 | a commit and a declared end of game never move a status backwards |
| `Traces.AcceptMoveAdvances` | game/views.py:326-358 | an accepted move never removes a game or moves its status backwards |
| `Traces.CreateAdvances` | game/views.py:229-249 | creating a game keeps every stored game as it was and the member records untouched, and adds at most one game, which is waiting |
| `Traces.GameMoveAdvances` | game/views.py:310-367 | the move endpoint never removes a game or moves its status backwards |
| `Traces.JoinAdvances` | game/views.py:379-391 | joining leaves every game as it was, except that the joined game may move from waiting to active; none is removed |
| `Traces.ResignAdvances` | game/views.py:432-435 | resigning leaves every game as it was, except that the named game may end completed; none is removed and no status moves backwards |
| `Traces.DrawAdvances` | game/views.py:452-456 | the draw endpoint leaves every game as it was, except that the named game may end completed; none is removed and no status moves backwards |
| `Traces.StepAdvances` | game/models.py:285-312 | no endpoint, creation included, removes a game or moves its status backwards |
| `Traces.RunAdvances` | game/models.py:285-312 | along any sequence of requests, creation included, every game only moves from waiting to active to finished |

## Findings

| source | as written | input that shows it | evidently intended | confidence | as-written member | corrected member |
|---|---|---|---|---|---|---|
| game/models.py:32 | `^(\d{11}\|[A-Z]\d{7})$` applied with `re.search`, where `$` also matches just before a final newline | `"F2301040\n"` is accepted | only the two documented shapes, with nothing after them (`\Z` or a full match) | medium; not executed | `Matric.MatchesAsWritten`, `Matric.TrailingNewlineAccepted` | `Matric.IsValidMatric` |

## Left out

- Floating point: `win_rate` (game/models.py:83-88) and `rating_progress`
  (game/views.py:146) are left out. Elapsed time is exact integer
  microseconds, not the float `total_seconds()`, whose rounding only matters
  for spans of centuries.
- Wall-clock reads: each operation takes one `now`. The source calls
  `timezone.now()` several times per operation (three times in
  `mark_started`, and again for the reply of a move), and the readings may
  differ by microseconds.
- Random codes: `get_random_string` is replaced by a sequence of candidate
  codes.
- CreateGame: requires that some candidate is not already in use, because the
  source's retry loop is unbounded and terminates only with probability one.
  `Api.Create` and a create request in `Traces.Step` return no game, and
  leave the store unchanged, while every candidate drawn so far is taken.
- Upper-casing covers ASCII letters only. Generated codes are ASCII. Python's
  full Unicode case mapping of a looked-up code is not modelled.
- Whitespace: `str.split()` separators are modelled for the ASCII and
  Latin-1 whitespace characters only. The other Unicode spaces
  (U+1680, U+2000–U+200A, U+2028, U+2029, U+202F, U+205F, U+3000) are not.
- Digits: `\d` is modelled as ASCII digits. Python also matches other Unicode
  decimal digits.
- Integer widths: counters, ratings and clocks are unbounded integers. The
  32-bit database column limit is never reached by the arithmetic shown.
- Persistence: `save()`, the intermediate save inside `mark_completed`
  during a commit (the final stored state is modelled), `updated_at`, and
  `created_at` are left out.
- Sessions: `GameSession` creation and `api_check_session` are not modelled.
  So neither is the unique-session database error that can follow a join's
  save and turn its reply into a server error.
- JSON: encoding and decoding of the move log and captures, payloads that
  are not objects or hold values of other types, and the bare `except`
  fallbacks are left out. Payloads are typed records with optional fields.
  Only the move endpoint's "not JSON" reply and the resign/draw endpoints'
  uncaught decode error are modelled.
- UpdateStats: takes only win, loss or draw. For any other result string the
  source still adds one game, runs the fifth-game rating check and awards
  badges, but changes no other counter and no streak. No caller passes such
  a string.
- A player id with no member record is treated like a seat with no member:
  `CountsForStats` and the displayed names fall back to the guest path. In
  the source the foreign key would raise instead, so such a store cannot
  arise there.
- The `abandoned` status is declared but never set by the code.
- The HTML views, routing, admin, settings and the browser board are left
  out. So is `MAX_ACTIVE_GAMES_PER_USER`, which the code never enforces.
- Chess move legality is left out: the server never checks it.
- Concurrency is left out: the source has no locking, and each request is
  modelled as one atomic transition.
