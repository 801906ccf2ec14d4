/**
 * A game between two seats and its server-held chess clock. The clock is
 * never ticked: remaining time is stored per side together with the instant
 * of the last committed move, and is either projected for display
 * (GetTimerState, which changes nothing) or charged to the mover when a
 * move is committed (UpdateTimerOnMove).
 */
module Games {
  import opened Wrappers
  import opened Fen
  import opened Ledger

  /** A wall-clock instant, in microseconds (the resolution of the stored timestamps). */
  type Instant = int

  type UserId = nat

  /** The member records, by id. */
  type Users = map<UserId, User>

  datatype Status = Waiting | Active | Completed | Abandoned

  /** Pieces captured so far, as the client reported them, per colour. */
  datatype Captures = Captures(white: seq<string>, black: seq<string>)

  const NO_CAPTURES: Captures := Captures([], [])

  datatype Game = Game(
    code: string,
    fen: string,
    status: Status,
    whitePlayer: Option<UserId>,      // a registered member, or null for a guest
    blackPlayer: Option<UserId>,
    whiteGuestName: Option<string>,
    blackGuestName: Option<string>,
    timeControl: string,
    isRated: bool,
    whiteTime: int,                   // seconds left on each side's clock
    blackTime: int,
    lastMoveTime: Option<Instant>,
    timerLastUpdated: Option<Instant>,
    winner: Option<string>,           // "white", "black", "draw", or whatever a client sent
    resultReason: Option<string>,
    moveHistory: seq<string>,
    moveCount: int,
    captured: Captures,
    startedAt: Option<Instant>,
    completedAt: Option<Instant>)

  /** The exceptions the source raises on the paths the model covers. */
  datatype Failure =
    | MalformedFen     // the FEN has no active-colour field (IndexError)
    | UnknownColour    // a capture reported for a colour other than white or black (KeyError)

  /** The name a colour goes by in the winner field and in payloads. */
  function ColourName(c: Colour): (name: string) {
    if c == White then "white" else "black"
  }

  const DRAW: string := "draw"
  const TIMEOUT: string := "timeout"

  function TimeLeft(g: Game, c: Colour): (t: int) {
    if c == White then g.whiteTime else g.blackTime
  }

  function WithTimeLeft(g: Game, c: Colour, t: int): (h: Game) {
    if c == White then g.(whiteTime := t) else g.(blackTime := t)
  }

  /** Both clocks are non-negative: the invariant every operation keeps. */
  predicate ClocksValid(g: Game) {
    g.whiteTime >= 0 && g.blackTime >= 0
  }

  // ---------------------------------------------------------------------
  // Elapsed time
  // ---------------------------------------------------------------------

  const MICROS_PER_SECOND: int := 1000000

  /**
   * Python's `int(delta.total_seconds())`: a microsecond difference as whole
   * seconds, truncated toward zero (Dafny's `/` would floor negatives).
   */
  function WholeSeconds(micros: int): (s: int)
    ensures micros >= 0 ==> 0 <= s && s * MICROS_PER_SECOND <= micros < s * MICROS_PER_SECOND + MICROS_PER_SECOND
    ensures micros < 0 ==> s <= 0 && -micros - MICROS_PER_SECOND < -s * MICROS_PER_SECOND <= -micros
  {
    if micros >= 0 then micros / MICROS_PER_SECOND else -((-micros) / MICROS_PER_SECOND)
  }

  /** Whole seconds from `since` to `now`. */
  function ElapsedSeconds(since: Instant, now: Instant): (secs: int) {
    WholeSeconds(now - since)
  }

  /** A later instant never has fewer whole seconds elapsed. */
  lemma ElapsedMonotone(since: Instant, t1: Instant, t2: Instant)
    requires t1 <= t2
    ensures ElapsedSeconds(since, t1) <= ElapsedSeconds(since, t2)
  {
    var a, b := t1 - since, t2 - since;
    var x, y := WholeSeconds(a), WholeSeconds(b);
    if x > y {
      assert x >= y + 1;
      assert x * MICROS_PER_SECOND >= y * MICROS_PER_SECOND + MICROS_PER_SECOND;
    }
  }

  /** The clock reading after `elapsed` seconds: `max(0, t - elapsed)`. */
  function Drain(t: int, elapsed: int): (r: int)
    ensures r >= 0
    ensures r == 0 <==> t <= elapsed
    ensures elapsed >= 0 && t >= 0 ==> r <= t && t - r <= elapsed
    ensures r > 0 ==> t - r == elapsed
  {
    if t - elapsed > 0 then t - elapsed else 0
  }

  // ---------------------------------------------------------------------
  // Peek: the clock as shown to pollers
  // ---------------------------------------------------------------------

  datatype TimerState = TimerState(
    whiteTime: int,
    blackTime: int,
    currentTurn: Option<Colour>,
    lastUpdated: Option<Instant>)

  function ShownTime(v: TimerState, c: Colour): (t: int) {
    if c == White then v.whiteTime else v.blackTime
  }

  /** Whether the clock of the side to move is running. */
  predicate ClockRunning(g: Game) {
    g.status == Active && g.lastMoveTime.Some?
  }

  /**
   * The projected clocks at `now`, computed without changing the game: the
   * side to move loses the whole seconds since the last move (never below
   * zero); the other side's clock is shown as stored.
   */
  function GetTimerState(g: Game, now: Instant): (r: Result<TimerState, Failure>)
    ensures r.Err? <==> ClockRunning(g) && SideToMove(g.fen).None?
    ensures !ClockRunning(g) ==> r == Ok(TimerState(g.whiteTime, g.blackTime, None, g.timerLastUpdated))
    ensures ClockRunning(g) && r.Ok? ==>
              && r.value.currentTurn == SideToMove(g.fen)
              && r.value.lastUpdated == Some(now)
              && var turn := SideToMove(g.fen).value;
                 && ShownTime(r.value, turn) == Drain(TimeLeft(g, turn), ElapsedSeconds(g.lastMoveTime.value, now))
                 && ShownTime(r.value, Opponent(turn)) == TimeLeft(g, Opponent(turn))
  {
    if g.status != Active || g.lastMoveTime.None? then
      Ok(TimerState(g.whiteTime, g.blackTime, None, g.timerLastUpdated))
    else
      match SideToMove(g.fen)
      case None => Err(MalformedFen)
      case Some(turn) =>
        var elapsed := ElapsedSeconds(g.lastMoveTime.value, now);
        var white := if turn == White then Drain(g.whiteTime, elapsed) else g.whiteTime;
        var black := if turn == Black then Drain(g.blackTime, elapsed) else g.blackTime;
        Ok(TimerState(white, black, Some(turn), Some(now)))
  }

  /** Polling later never shows more time on either clock: repeated polls cannot drift the clock upwards. */
  lemma PeekMonotone(g: Game, t1: Instant, t2: Instant)
    requires t1 <= t2
    requires GetTimerState(g, t1).Ok?
    ensures GetTimerState(g, t2).Ok?
    ensures GetTimerState(g, t2).value.whiteTime <= GetTimerState(g, t1).value.whiteTime
    ensures GetTimerState(g, t2).value.blackTime <= GetTimerState(g, t1).value.blackTime
  {
    if ClockRunning(g) {
      ElapsedMonotone(g.lastMoveTime.value, t1, t2);
    }
  }

  /** Polling at the instant of the last move shows exactly the stored clocks. */
  lemma PeekAtLastMoveShowsStored(g: Game)
    requires ClocksValid(g) && ClockRunning(g)
    requires GetTimerState(g, g.lastMoveTime.value).Ok?
    ensures GetTimerState(g, g.lastMoveTime.value).value.whiteTime == g.whiteTime
    ensures GetTimerState(g, g.lastMoveTime.value).value.blackTime == g.blackTime
  {
  }

  // ---------------------------------------------------------------------
  // Completion and the rating ledger
  // ---------------------------------------------------------------------

  /** A game together with the member records its completion may update. */
  datatype Snapshot = Snapshot(game: Game, users: Users)

  /** The individual result the `winner` value gives the player of `side`, if any. */
  function ResultFor(side: Colour, winner: Option<string>): (result: Option<GameResult>) {
    if winner == Some(ColourName(side)) then Some(Win)
    else if winner == Some(ColourName(Opponent(side))) then Some(Loss)
    else if winner == Some(DRAW) then Some(Draw)
    else None
  }

  /** A decisive result gives one side a win and the other a loss; a draw gives both a draw; anything else gives neither a result. */
  lemma ResultsComplementary(winner: Option<string>)
    ensures winner == Some("white") ==> ResultFor(White, winner) == Some(Win) && ResultFor(Black, winner) == Some(Loss)
    ensures winner == Some("black") ==> ResultFor(White, winner) == Some(Loss) && ResultFor(Black, winner) == Some(Win)
    ensures winner == Some(DRAW) ==> ResultFor(White, winner) == Some(Draw) && ResultFor(Black, winner) == Some(Draw)
    ensures winner !in {Some("white"), Some("black"), Some(DRAW)} ==> ResultFor(White, winner).None? && ResultFor(Black, winner).None?
  {
  }

  /** Statistics move only for a rated game between two registered members. */
  predicate CountsForStats(g: Game, users: Users) {
    && g.whitePlayer.Some? && g.whitePlayer.value in users
    && g.blackPlayer.Some? && g.blackPlayer.value in users
    && g.isRated
  }

  /** Both members' records after a completion, the black side written last. */
  function WriteBack(users: Users, w: UserId, b: UserId, forWhite: GameResult, forBlack: GameResult): (r: Users)
    requires w in users && b in users
    ensures r.Keys == users.Keys
    ensures forall id :: id in users && id != w && id != b ==> r[id] == users[id]
    ensures r[b] == UpdateStats(users[b], forBlack)
    ensures w != b ==> r[w] == UpdateStats(users[w], forWhite)
  {
    var whiteUser, blackUser := users[w], users[b];
    users[w := UpdateStats(whiteUser, forWhite)][b := UpdateStats(blackUser, forBlack)]
  }

  /**
   * The ledger side of completion. Both members are read before either is
   * written back, so when the same member holds both seats the black-side
   * update, written last, is the one that survives.
   */
  function ApplyOutcome(users: Users, g: Game, winner: Option<string>): (r: Users)
    ensures r.Keys == users.Keys
    ensures !CountsForStats(g, users) || ResultFor(White, winner).None? ==> r == users
    ensures CountsForStats(g, users) && ResultFor(White, winner).Some? ==>
              var w, b := g.whitePlayer.value, g.blackPlayer.value;
              && (forall id :: id in users && id != w && id != b ==> r[id] == users[id])
              && r[b] == UpdateStats(users[b], ResultFor(Black, winner).value)
              && (w != b ==> r[w] == UpdateStats(users[w], ResultFor(White, winner).value))
  {
    if CountsForStats(g, users) then
      var w, b := g.whitePlayer.value, g.blackPlayer.value;
      if winner == Some("white") then WriteBack(users, w, b, Win, Loss)
      else if winner == Some("black") then WriteBack(users, w, b, Loss, Win)
      else if winner == Some(DRAW) then WriteBack(users, w, b, Draw, Draw)
      else users
    else users
  }

  /**
   * A rated game between two different members with a white, black or draw
   * result adds exactly one game to each player's record.
   */
  lemma RatedCompletionCountsOnce(users: Users, g: Game, winner: Option<string>)
    requires CountsForStats(g, users) && g.whitePlayer != g.blackPlayer
    requires winner in {Some("white"), Some("black"), Some(DRAW)}
    ensures var r := ApplyOutcome(users, g, winner);
            && r[g.whitePlayer.value].totalGames == users[g.whitePlayer.value].totalGames + 1
            && r[g.blackPlayer.value].totalGames == users[g.blackPlayer.value].totalGames + 1
  {
    ResultsComplementary(winner);
  }

  /** Completion keeps every member record consistent. */
  lemma ApplyOutcomeKeepsConsistent(users: Users, g: Game, winner: Option<string>)
    requires forall id :: id in users ==> Consistent(users[id])
    ensures var r := ApplyOutcome(users, g, winner);
            forall id :: id in r ==> Consistent(r[id])
  {
    var r := ApplyOutcome(users, g, winner);
    forall id | id in r
      ensures Consistent(r[id])
    {
      if CountsForStats(g, users) && ResultFor(White, winner).Some? {
        var w, b := g.whitePlayer.value, g.blackPlayer.value;
        if id == b {
          UpdateStatsKeepsConsistent(users[b], ResultFor(Black, winner).value);
        } else if id == w {
          UpdateStatsKeepsConsistent(users[w], ResultFor(White, winner).value);
        }
      }
    }
  }

  /**
   * Marks the game completed with the given winner and reason, whatever its
   * status; there is no guard against completing a game twice.
   */
  function MarkCompleted(s: Snapshot, winner: Option<string>, reason: Option<string>, now: Instant): (r: Snapshot)
    ensures r.game.status == Completed
    ensures r.game.winner == winner && r.game.resultReason == reason
    ensures r.game.completedAt == Some(now)
    ensures r.game == s.game.(status := Completed, winner := winner, resultReason := reason, completedAt := Some(now))
    ensures r.users == ApplyOutcome(s.users, s.game, winner)
  {
    var g := s.game.(status := Completed, completedAt := Some(now), winner := winner, resultReason := reason);
    Snapshot(g, ApplyOutcome(s.users, s.game, winner))
  }

  // ---------------------------------------------------------------------
  // Commit: charging the mover
  // ---------------------------------------------------------------------

  /**
   * Charges a just-made move to the clock. The game's FEN is already the
   * position after the move, so the mover is the side NOT to move in it. The
   * mover loses the whole seconds since the last move, floored at zero; a
   * clock left at zero completes the game in the same step, the opponent
   * winning on time. Both timestamps then become `now`. A game whose clock
   * is not running only has its timestamps set.
   */
  function UpdateTimerOnMove(s: Snapshot, now: Instant): (r: Result<Snapshot, Failure>)
    ensures r.Err? <==> ClockRunning(s.game) && SideToMove(s.game.fen).None?
    ensures r.Ok? ==> r.value.game.lastMoveTime == Some(now) && r.value.game.timerLastUpdated == Some(now)
    ensures r.Ok? ==> r.value.game.fen == s.game.fen && r.value.game.moveCount == s.game.moveCount
                      && r.value.game.moveHistory == s.game.moveHistory && r.value.game.captured == s.game.captured
    ensures !ClockRunning(s.game) ==>
              r == Ok(Snapshot(s.game.(lastMoveTime := Some(now), timerLastUpdated := Some(now)), s.users))
    ensures ClockRunning(s.game) && r.Ok? ==>
              var g, h := s.game, r.value.game;
              var turn := SideToMove(g.fen).value;
              var mover := Opponent(turn);
              var left := Drain(TimeLeft(g, mover), ElapsedSeconds(g.lastMoveTime.value, now));
              && TimeLeft(h, mover) == left
              && TimeLeft(h, turn) == TimeLeft(g, turn)
              // apart from the mover's clock, the stamps and the outcome, nothing changes
              && h == WithTimeLeft(g, mover, left).(lastMoveTime := Some(now), timerLastUpdated := Some(now),
                                                    status := h.status, winner := h.winner,
                                                    resultReason := h.resultReason, completedAt := h.completedAt)
              && (left == 0 ==> && h.status == Completed && h.completedAt == Some(now)
                                && h.winner == Some(ColourName(turn))
                                && h.resultReason == Some(TIMEOUT)
                                && r.value.users == ApplyOutcome(s.users, g, Some(ColourName(turn))))
              && (left != 0 ==> && h.status == g.status && h.winner == g.winner && h.completedAt == g.completedAt
                                && h.resultReason == g.resultReason && r.value.users == s.users)
  {
    var g := s.game;
    if g.lastMoveTime.None? || g.status != Active then
      Ok(Snapshot(g.(lastMoveTime := Some(now), timerLastUpdated := Some(now)), s.users))
    else
      match SideToMove(g.fen)
      case None => Err(MalformedFen)
      case Some(turn) =>
        var mover := Opponent(turn);
        var left := Drain(TimeLeft(g, mover), ElapsedSeconds(g.lastMoveTime.value, now));
        var charged := Snapshot(WithTimeLeft(g, mover, left), s.users);
        var settled := if left == 0 then MarkCompleted(charged, Some(ColourName(turn)), Some(TIMEOUT), now)
                       else charged;
        Ok(settled.(game := settled.game.(lastMoveTime := Some(now), timerLastUpdated := Some(now))))
  }

  /** Committing keeps both clocks non-negative. */
  lemma CommitKeepsClocksValid(s: Snapshot, now: Instant)
    requires ClocksValid(s.game)
    requires UpdateTimerOnMove(s, now).Ok?
    ensures ClocksValid(UpdateTimerOnMove(s, now).value.game)
  {
  }

  /**
   * No drift from reading right after writing: polling at the instant of a
   * commit shows exactly the clocks the commit stored.
   */
  lemma PeekAfterCommitShowsCommitted(s: Snapshot, now: Instant)
    requires ClocksValid(s.game)
    requires s.game.status == Active ==> SideToMove(s.game.fen).Some?
    ensures var h := UpdateTimerOnMove(s, now).value.game;
            && GetTimerState(h, now).Ok?
            && GetTimerState(h, now).value.whiteTime == h.whiteTime
            && GetTimerState(h, now).value.blackTime == h.blackTime
  {
    var h := UpdateTimerOnMove(s, now).value.game;
    assert ClocksValid(h);
    if ClockRunning(s.game) {
      assert SideToMove(h.fen) == SideToMove(s.game.fen);
    }
  }

  // ---------------------------------------------------------------------
  // Start, time controls, captures
  // ---------------------------------------------------------------------

  /**
   * Starts the game when the second player joins: once only, on the first
   * call, which sets the start instant, both clock timestamps and the
   * active status.
   */
  function MarkStarted(g: Game, now: Instant): (h: Game)
    ensures g.startedAt.None? ==> h.status == Active && h.startedAt == Some(now)
                                  && h.lastMoveTime == Some(now) && h.timerLastUpdated == Some(now)
    ensures g.startedAt.None? ==> h == g.(status := h.status, startedAt := h.startedAt,
                                          lastMoveTime := h.lastMoveTime, timerLastUpdated := h.timerLastUpdated)
    ensures g.startedAt.Some? ==> h == g
  {
    if g.startedAt.None? then
      g.(startedAt := Some(now), lastMoveTime := Some(now), timerLastUpdated := Some(now), status := Active)
    else g
  }

  /** Starting is idempotent: a second start, at any instant, changes nothing. */
  lemma MarkStartedIdempotent(g: Game, t1: Instant, t2: Instant)
    ensures MarkStarted(MarkStarted(g, t1), t2) == MarkStarted(g, t1)
  {
  }

  /** Initial seconds per side for each named time control. */
  const TIME_CONTROLS: map<string, int> := map[
    "bullet_1" := 60,
    "bullet_2" := 120,
    "blitz_3" := 180,
    "blitz_5" := 300,
    "rapid_10" := 600,
    "rapid_15" := 900,
    "classical_30" := 1800,
    "classical_2_60" := 3600,
    "unlimited" := 999999]

  const DEFAULT_TIME_CONTROL_SECONDS: int := 300

  /** The initial clock for a time control; an unknown name gets five minutes. */
  function TimeControlSeconds(timeControl: string): (secs: int)
    ensures secs > 0
    ensures timeControl !in TIME_CONTROLS ==> secs == DEFAULT_TIME_CONTROL_SECONDS
    ensures timeControl in TIME_CONTROLS ==> secs == TIME_CONTROLS[timeControl]
  {
    if timeControl in TIME_CONTROLS then TIME_CONTROLS[timeControl] else DEFAULT_TIME_CONTROL_SECONDS
  }

  /** Records a captured piece under its colour; any other colour name fails. */
  function AddCapturedPiece(c: Captures, piece: string, colour: string): (r: Result<Captures, Failure>)
    ensures r.Ok? <==> colour == "white" || colour == "black"
    ensures colour == "white" ==> r == Ok(c.(white := c.white + [piece]))
    ensures colour == "black" ==> r == Ok(c.(black := c.black + [piece]))
  {
    if colour == "white" then Ok(c.(white := c.white + [piece]))
    else if colour == "black" then Ok(c.(black := c.black + [piece]))
    else Err(UnknownColour)
  }
}
