/**
 * The game endpoints as transitions of the stored world: every request
 * either reports an error and leaves the store as it was, or stores the
 * game it changed. Games are stored under their upper-case code and looked
 * up by the upper-cased code of the request.
 */
module Api {
  import opened Wrappers
  import opened Fen
  import opened Ledger
  import opened Games

  /** The store: games by code and member records by id. */
  datatype World = World(games: map<string, Game>, users: Users)

  /** Who sends a request: a signed-in member, or a visitor and the name the payload gives, if any. */
  datatype Requester = Member(id: UserId) | Visitor(playerName: Option<string>)

  /** Settings of a new game; an absent field takes the endpoint's default. */
  datatype CreatePayload = CreatePayload(timeControl: Option<string>, isRated: Option<bool>)

  datatype CaptureReport = CaptureReport(colour: Option<string>, piece: Option<string>)

  datatype MovePayload = MovePayload(
    fen: Option<string>,
    moveSan: Option<string>,
    captured: Option<CaptureReport>,
    gameOver: bool,
    winner: Option<string>,
    reason: Option<string>)

  datatype Reply =
    | Created(code: string, fen: string, status: Status, whiteTime: int, blackTime: int)
    | Joined(code: string, fen: string, status: Status, whiteName: string, blackName: string,
             whiteTime: int, blackTime: int)
    | Moved(whiteTime: int, blackTime: int)
    | Resigned
    | DrawAccepted
    | DrawOffered
    | GameView(code: string, fen: string, status: Status, whiteName: string, blackName: string,
               whiteTime: int, blackTime: int, winner: Option<string>, resultReason: Option<string>,
               moveHistory: seq<string>, moveCount: int, captured: Captures, timerLastUpdated: Option<Instant>)
    | NotFound        // 404: no game under that code
    | InvalidJson     // 400: the move body is not JSON
    | FenRequired     // 400: the move carries no position
    | AlreadyFull     // 400: the game is not waiting for an opponent
    | ServerError     // 500: an exception escaped the endpoint

  /** What a request leaves in the store, and what it answers. */
  datatype Response = Response(world: World, reply: Reply)

  const DEFAULT_TIME_CONTROL: string := "blitz_5"
  const GUEST: string := "Guest"
  /** What an empty black seat shows. */
  const WAITING: string := "Waiting..."
  const RESIGNATION: string := "resignation"
  const AGREEMENT: string := "agreement"

  // ---------------------------------------------------------------------
  // Codes
  // ---------------------------------------------------------------------

  function UpperChar(c: char): (u: char) {
    if 'a' <= c <= 'z' then (c as int - 32) as char else c
  }

  /** `str.upper()` on the ASCII letters that game codes are drawn from. */
  function Upper(s: string): (r: string)
    ensures |r| == |s|
    ensures forall i :: 0 <= i < |s| ==> r[i] == UpperChar(s[i])
  {
    seq(|s|, i requires 0 <= i < |s| => UpperChar(s[i]))
  }

  predicate HasNoLowercase(s: string) {
    forall i :: 0 <= i < |s| ==> !('a' <= s[i] <= 'z')
  }

  /** Upper-casing leaves no lower-case letter and is idempotent. */
  lemma UpperNormalises(s: string)
    ensures HasNoLowercase(Upper(s))
    ensures Upper(Upper(s)) == Upper(s)
  {
  }

  // ---------------------------------------------------------------------
  // Display names
  // ---------------------------------------------------------------------

  /**
   * White's name as shown: the member's username when the seat holds a
   * member, otherwise the guest name when one is set and non-empty,
   * otherwise "Guest".
   */
  function WhiteName(g: Game, users: Users): (name: string)
    ensures g.whitePlayer.Some? && g.whitePlayer.value in users ==> name == users[g.whitePlayer.value].username
    ensures !(g.whitePlayer.Some? && g.whitePlayer.value in users) ==>
              name == (if g.whiteGuestName.GetOr("") != "" then g.whiteGuestName.value else GUEST)
  {
    if g.whitePlayer.Some? && g.whitePlayer.value in users then users[g.whitePlayer.value].username
    else if g.whiteGuestName.Some? && g.whiteGuestName.value != "" then g.whiteGuestName.value
    else GUEST
  }

  /**
   * Black's name as shown: as for white, except that an empty seat reads
   * "Waiting..." rather than "Guest".
   */
  function BlackName(g: Game, users: Users): (name: string)
    ensures g.blackPlayer.Some? && g.blackPlayer.value in users ==> name == users[g.blackPlayer.value].username
    ensures !(g.blackPlayer.Some? && g.blackPlayer.value in users) ==>
              name == (if g.blackGuestName.GetOr("") != "" then g.blackGuestName.value else WAITING)
  {
    if g.blackPlayer.Some? && g.blackPlayer.value in users then users[g.blackPlayer.value].username
    else if g.blackGuestName.Some? && g.blackGuestName.value != "" then g.blackGuestName.value
    else WAITING
  }

  // ---------------------------------------------------------------------
  // Create
  // ---------------------------------------------------------------------

  /** A new game under `code`, white seat taken by the creator, both clocks full. */
  function NewGame(code: string, who: Requester, data: CreatePayload): (g: Game) {
    var tc := data.timeControl.GetOr(DEFAULT_TIME_CONTROL);
    var secs := TimeControlSeconds(tc);
    Game(code, START_FEN, Waiting,
         if who.Member? then Some(who.id) else None,
         None,
         if who.Visitor? then Some(who.playerName.GetOr(GUEST)) else None,
         None,
         tc, data.isRated.GetOr(true), secs, secs,
         None, None, None, None, [], 0, NO_CAPTURES, None, None)
  }

  /** The position of the first candidate whose upper-case form is not a stored code, if any. */
  function FirstFresh(games: map<string, Game>, candidates: seq<string>): (r: Option<nat>)
    ensures r.Some? ==> && r.value < |candidates| && Upper(candidates[r.value]) !in games
                        && forall j :: 0 <= j < r.value ==> Upper(candidates[j]) in games
    ensures r.None? ==> forall j :: 0 <= j < |candidates| ==> Upper(candidates[j]) in games
    decreases |candidates|
  {
    if |candidates| == 0 then None
    else if Upper(candidates[0]) !in games then Some(0)
    else match FirstFresh(games, candidates[1..])
         case None => None
         case Some(i) => Some(i + 1)
  }

  /**
   * Game creation as a value: `None` while none of the candidate codes drawn
   * so far is fresh, otherwise the store with the new game under the first
   * fresh one, and the reply.
   */
  function Create(w: World, candidates: seq<string>, who: Requester, data: CreatePayload): (r: Option<Response>)
    ensures r.None? <==> forall j :: 0 <= j < |candidates| ==> Upper(candidates[j]) in w.games
    ensures r.Some? ==> r.value.reply.Created?
    ensures r.Some? ==>
              var code := r.value.reply.code;
              && code !in w.games
              && r.value.world == World(w.games[code := NewGame(code, who, data)], w.users)
  {
    match FirstFresh(w.games, candidates)
    case None => None
    case Some(i) =>
      var code := Upper(candidates[i]);
      var g := NewGame(code, who, data);
      Some(Response(w.(games := w.games[code := g]), Created(code, g.fen, g.status, g.whiteTime, g.blackTime)))
  }

  /**
   * Creates a game under the first candidate code whose upper-case form is not
   * yet in use. The candidates stand for the successive random strings the
   * server draws; the draw is assumed to produce a fresh code eventually.
   */
  method CreateGame(w: World, candidates: seq<string>, who: Requester, data: CreatePayload) returns (r: Response)
    requires exists i :: 0 <= i < |candidates| && Upper(candidates[i]) !in w.games
    ensures Create(w, candidates, who, data) == Some(r)
    ensures r.reply.Created?
    ensures var code := r.reply.code;
            && code !in w.games
            && HasNoLowercase(code)
            && (exists k :: 0 <= k < |candidates| && code == Upper(candidates[k])
                            && forall j :: 0 <= j < k ==> Upper(candidates[j]) in w.games)
            && code in r.world.games
            && r.world.games == w.games[code := r.world.games[code]]
            && r.world.users == w.users
            && var g := r.world.games[code];
               && g.code == code && g.status == Waiting && g.fen == START_FEN
               && g.whiteTime == TimeControlSeconds(data.timeControl.GetOr(DEFAULT_TIME_CONTROL))
               && g.blackTime == g.whiteTime
               && g.isRated == data.isRated.GetOr(true)
               && g.moveCount == 0 && g.moveHistory == [] && g.captured == NO_CAPTURES
               && g.lastMoveTime.None? && g.startedAt.None? && g.blackPlayer.None?
               && r.reply.whiteTime == g.whiteTime && r.reply.blackTime == g.blackTime
  {
    var i := 0;
    var code := Upper(candidates[0]);
    while code in w.games
      invariant 0 <= i < |candidates|
      invariant code == Upper(candidates[i])
      invariant forall j :: 0 <= j < i ==> Upper(candidates[j]) in w.games
      invariant exists k :: i <= k < |candidates| && Upper(candidates[k]) !in w.games
      decreases |candidates| - i
    {
      i := i + 1;
      code := Upper(candidates[i]);
    }
    UpperNormalises(candidates[i]);
    assert FirstFresh(w.games, candidates) == Some(i) by {
      var k := FirstFresh(w.games, candidates).value;
      assert !(k < i) && !(i < k);
    }
    var g := NewGame(code, who, data);
    r := Response(w.(games := w.games[code := g]), Created(code, g.fen, g.status, g.whiteTime, g.blackTime));
  }

  // ---------------------------------------------------------------------
  // Read
  // ---------------------------------------------------------------------

  /**
   * The state shown to a poller. It returns no world at all: a poll never
   * stores anything, and its clocks are the projection of GetTimerState.
   */
  function GameState(w: World, code: string, now: Instant): (reply: Reply)
    ensures Upper(code) !in w.games <==> reply == NotFound
    ensures Upper(code) in w.games ==>
              (reply.GameView? <==> GetTimerState(w.games[Upper(code)], now).Ok?)
    ensures reply.NotFound? || reply.GameView? || reply.ServerError?
    ensures reply.GameView? ==>
              var g := w.games[Upper(code)];
              && GetTimerState(g, now).Ok?
              && reply.whiteTime == GetTimerState(g, now).value.whiteTime
              && reply.blackTime == GetTimerState(g, now).value.blackTime
              && reply.fen == g.fen && reply.status == g.status && reply.moveCount == g.moveCount
              && reply.code == g.code && reply.winner == g.winner && reply.resultReason == g.resultReason
              && reply.moveHistory == g.moveHistory && reply.captured == g.captured
              && reply.whiteName == WhiteName(g, w.users) && reply.blackName == BlackName(g, w.users)
              && reply.timerLastUpdated == GetTimerState(g, now).value.lastUpdated
  {
    var key := Upper(code);
    if key !in w.games then NotFound
    else
      var g := w.games[key];
      match GetTimerState(g, now)
      case Err(_) => ServerError
      case Ok(t) =>
        GameView(g.code, g.fen, g.status, WhiteName(g, w.users), BlackName(g, w.users),
                 t.whiteTime, t.blackTime, g.winner, g.resultReason, g.moveHistory, g.moveCount,
                 g.captured, t.lastUpdated)
  }

  // ---------------------------------------------------------------------
  // Join
  // ---------------------------------------------------------------------

  /**
   * Takes the black seat of a waiting game and starts it. Any other status is
   * rejected with nothing changed: the waiting status is what limits a game
   * to two players. The seat is stored by the start itself, so a game that
   * somehow has a start instant already keeps its stored seat.
   */
  function JoinGame(w: World, code: string, who: Requester, now: Instant): (r: Response)
    ensures Upper(code) !in w.games ==> r == Response(w, NotFound)
    ensures Upper(code) in w.games && w.games[Upper(code)].status != Waiting ==> r == Response(w, AlreadyFull)
    ensures r.world.users == w.users && r.world.games.Keys == w.games.Keys
    ensures Upper(code) in w.games && w.games[Upper(code)].status == Waiting ==>
              var key := Upper(code);
              var g, h := w.games[key], r.world.games[key];
              && r.reply.Joined?
              && r.world.games == w.games[key := h]
              && r.reply.code == g.code && r.reply.fen == g.fen
              && r.reply.whiteName == WhiteName(g, w.users)
              && r.reply.whiteTime == g.whiteTime && r.reply.blackTime == g.blackTime
              // only the black seat changes, then the game is started
              && (g.startedAt.None? ==>
                    && h == MarkStarted(g.(blackPlayer := h.blackPlayer, blackGuestName := h.blackGuestName), now)
                    && r.reply.status == Active
                    && r.reply.blackName == BlackName(h, w.users)
                    && (who.Member? ==> h.blackGuestName == g.blackGuestName)
                    && (who.Visitor? ==> h.blackPlayer == g.blackPlayer))
              && (g.startedAt.None? ==>
                    && h.status == Active && h.startedAt == Some(now)
                    && h.lastMoveTime == Some(now) && h.timerLastUpdated == Some(now)
                    && h.whiteTime == g.whiteTime && h.blackTime == g.blackTime
                    && h.whitePlayer == g.whitePlayer && h.fen == g.fen
                    && (who.Member? ==> h.blackPlayer == Some(who.id))
                    && (who.Visitor? ==> h.blackGuestName == Some(who.playerName.GetOr(GUEST))))
              && (g.startedAt.Some? ==> h == g)
  {
    var key := Upper(code);
    if key !in w.games then Response(w, NotFound)
    else
      var g := w.games[key];
      if g.status != Waiting then Response(w, AlreadyFull)
      else
        var seated := match who
                      case Member(id) => g.(blackPlayer := Some(id))
                      case Visitor(name) => g.(blackGuestName := Some(name.GetOr(GUEST)));
        var started := MarkStarted(seated, now);
        var saved := if seated.startedAt.None? then w.(games := w.games[key := started]) else w;
        Response(saved, Joined(started.code, started.fen, started.status, WhiteName(started, w.users),
                               BlackName(started, w.users), started.whiteTime, started.blackTime))
  }

  /**
   * The reply to a join names the joiner in the black seat: a known member
   * by username, a visitor (into a seat no member holds) by the name sent or
   * "Guest". A visitor who sends an empty name is shown as the empty seat,
   * "Waiting...".
   */
  lemma JoinShowsJoiner(w: World, code: string, who: Requester, now: Instant)
    requires Upper(code) in w.games
    requires w.games[Upper(code)].status == Waiting && w.games[Upper(code)].startedAt.None?
    ensures var reply := JoinGame(w, code, who, now).reply;
            && reply.Joined?
            && (who.Member? && who.id in w.users ==> reply.blackName == w.users[who.id].username)
            && (who.Visitor? && w.games[Upper(code)].blackPlayer.None? ==>
                  reply.blackName == if who.playerName == Some("") then WAITING else who.playerName.GetOr(GUEST))
  {
  }

  /** A game admits one joiner: once a join has started it, every later join is rejected and changes nothing. */
  lemma SecondJoinRejected(w: World, code: string, first: Requester, second: Requester, t1: Instant, t2: Instant)
    requires Upper(code) in w.games
    requires w.games[Upper(code)].status == Waiting && w.games[Upper(code)].startedAt.None?
    ensures var w1 := JoinGame(w, code, first, t1).world;
            JoinGame(w1, code, second, t2) == Response(w1, AlreadyFull)
  {
  }

  // ---------------------------------------------------------------------
  // Move
  // ---------------------------------------------------------------------

  /** A capture is recorded only when both its colour and its piece are non-empty. */
  predicate CaptureReported(p: MovePayload) {
    && p.captured.Some?
    && p.captured.value.colour.Some? && p.captured.value.colour.value != ""
    && p.captured.value.piece.Some? && p.captured.value.piece.value != ""
  }

  /** The move is accepted only with a non-empty position. */
  predicate HasFen(p: MovePayload) {
    p.fen.Some? && p.fen.value != ""
  }

  /** The move log entry is appended only when a non-empty one is sent. */
  function LoggedMoves(history: seq<string>, p: MovePayload): (log: seq<string>) {
    if p.moveSan.Some? && p.moveSan.value != "" then history + [p.moveSan.value] else history
  }

  /** The game with the submitted position, one more move and the log entry, before any capture or commit. */
  function Recorded(g: Game, p: MovePayload): (h: Game)
    requires HasFen(p)
  {
    g.(fen := p.fen.value, moveCount := g.moveCount + 1, moveHistory := LoggedMoves(g.moveHistory, p))
  }

  /**
   * The recorded game with a reported capture added to the list of its
   * colour; a capture under any other colour name fails, as the source's
   * lookup of the colour key does.
   */
  function Prepared(g: Game, p: MovePayload): (r: Result<Game, Failure>)
    requires HasFen(p)
    ensures r.Err? <==> CaptureReported(p) && AddCapturedPiece(g.captured, p.captured.value.piece.value,
                                                                p.captured.value.colour.value).Err?
    ensures r.Ok? ==> r.value == Recorded(g, p).(captured := r.value.captured)
    ensures r.Ok? && !CaptureReported(p) ==> r.value.captured == g.captured
    ensures r.Ok? && CaptureReported(p) ==>
              AddCapturedPiece(g.captured, p.captured.value.piece.value, p.captured.value.colour.value)
                == Ok(r.value.captured)
  {
    var recorded := Recorded(g, p);
    if CaptureReported(p) then
      match AddCapturedPiece(recorded.captured, p.captured.value.piece.value, p.captured.value.colour.value)
      case Err(e) => Err(e)
      case Ok(c) => Ok(recorded.(captured := c))
    else Ok(recorded)
  }

  /** The clock commit, the optional declared end of game, and the reply's clock reading. */
  function FinishMove(saved: World, key: string, g: Game, p: MovePayload, now: Instant): (r: Response)
    requires key in saved.games
    ensures r.world.games.Keys == saved.games.Keys
    ensures forall k :: k in saved.games && k != key ==> r.world.games[k] == saved.games[k]
    ensures r.world.games[key] == saved.games[key] || r.world.games[key].status in {g.status, Completed}
    // exactly one commit: a failed one stores nothing more; a successful one
    // stores the committed game and records, completed again if declared over
    ensures var c := UpdateTimerOnMove(Snapshot(g, saved.users), now);
            && (c.Err? ==> r == Response(saved, ServerError))
            && (c.Ok? ==>
                  var s2 := if p.gameOver then MarkCompleted(c.value, p.winner, p.reason, now) else c.value;
                  r.world == World(saved.games[key := s2.game], s2.users))
    ensures saved.games[key].captured == g.captured ==> r.world.games[key].captured == g.captured
    ensures r.reply.Moved? || r.reply.ServerError?
    // the reply reads the clock; only a FEN without an active colour on a running clock fails
    ensures r.reply.Moved? <==> SideToMove(g.fen).Some? || (!ClockRunning(g) && (g.status != Active || p.gameOver))
    ensures r.reply.Moved? ==>
              && UpdateTimerOnMove(Snapshot(g, saved.users), now).Ok?
              && var h := r.world.games[key];
                 && h.fen == g.fen && h.moveCount == g.moveCount && h.moveHistory == g.moveHistory
                 && h.captured == g.captured && h.lastMoveTime == Some(now)
                 && (ClocksValid(g) ==> r.reply.whiteTime == h.whiteTime && r.reply.blackTime == h.blackTime)
  {
    match UpdateTimerOnMove(Snapshot(g, saved.users), now)
    case Err(_) => Response(saved, ServerError)
    case Ok(s) =>
      var s2 := if p.gameOver then MarkCompleted(s, p.winner, p.reason, now) else s;
      var w2 := World(saved.games[key := s2.game], s2.users);
      match GetTimerState(s2.game, now)
      case Err(_) => Response(w2, ServerError)
      case Ok(v) =>
        assert ClocksValid(g) ==> v.whiteTime == s2.game.whiteTime && v.blackTime == s2.game.blackTime by {
          if ClocksValid(g) && !p.gameOver {
            PeekAfterCommitShowsCommitted(Snapshot(g, saved.users), now);
          }
        }
        Response(w2, Moved(v.whiteTime, v.blackTime))
  }

  /**
   * Applies a submitted move: the new position, one more move, the log
   * entry and the capture if sent, then exactly one clock commit, then the
   * declared end of game if the payload says the game is over. A capture is
   * stored as soon as it is recorded, so a later failure keeps it and the
   * position that came with it.
   */
  function GameMove(w: World, code: string, body: Option<MovePayload>, now: Instant): (r: Response)
    ensures Upper(code) !in w.games ==> r == Response(w, NotFound)
    ensures Upper(code) in w.games && body.None? ==> r == Response(w, InvalidJson)
    ensures Upper(code) in w.games && body.Some? && !HasFen(body.value) ==> r == Response(w, FenRequired)
    ensures r.world.games.Keys == w.games.Keys
    ensures Upper(code) in w.games && body.Some? && HasFen(body.value) ==>
              r == AcceptMove(w, Upper(code), body.value, now)
    // the capture is stored with the move, whatever the commit then does
    ensures Upper(code) in w.games && body.Some? && HasFen(body.value) ==>
              var g, p := w.games[Upper(code)], body.value;
              && (!CaptureReported(p) ==> r.world.games[Upper(code)].captured == g.captured)
              && (CaptureReported(p) ==>
                    var added := AddCapturedPiece(g.captured, p.captured.value.piece.value, p.captured.value.colour.value);
                    && (added.Err? ==> r == Response(w, ServerError))
                    && (added.Ok? ==> r.world.games[Upper(code)].captured == added.value))
    ensures r.reply.Moved? ==>
              var key := Upper(code);
              var g, h := w.games[key], r.world.games[key];
              && h.fen == body.value.fen.value
              && h.moveCount == g.moveCount + 1
              && h.moveHistory == LoggedMoves(g.moveHistory, body.value)
              && h.lastMoveTime == Some(now)
              && (ClocksValid(g) ==> r.reply.whiteTime == h.whiteTime && r.reply.blackTime == h.blackTime)
  {
    var key := Upper(code);
    if key !in w.games then Response(w, NotFound)
    else if body.None? then Response(w, InvalidJson)
    else if !HasFen(body.value) then Response(w, FenRequired)
    else AcceptMove(w, key, body.value, now)
  }

  /**
   * The move after validation: record it, store a reported capture at once,
   * then finish with the single commit of the prepared game.
   */
  function AcceptMove(w: World, key: string, p: MovePayload, now: Instant): (r: Response)
    requires key in w.games && HasFen(p)
    ensures r.world.games.Keys == w.games.Keys
    ensures forall k :: k in w.games && k != key ==> r.world.games[k] == w.games[k]
    ensures r.world.games[key].status in {w.games[key].status, Completed}
    ensures Prepared(w.games[key], p).Err? ==> r == Response(w, ServerError)
    ensures Prepared(w.games[key], p).Ok? ==>
              var m := Prepared(w.games[key], p).value;
              && r.world.games[key].captured == m.captured
              && r == FinishMove(if CaptureReported(p) then w.(games := w.games[key := m]) else w, key, m, p, now)
  {
    match Prepared(w.games[key], p)
    case Err(_) => Response(w, ServerError)
    case Ok(m) =>
      FinishMove(if CaptureReported(p) then w.(games := w.games[key := m]) else w, key, m, p, now)
  }

  /**
   * The commit charges the mover exactly what a poll showed on the mover's
   * clock at the same instant: when the new position hands the move to the
   * other side, the side that was to move ends with the clock the poll
   * projected for it, and the other clock is untouched.
   */
  lemma MoveChargesWhatPeekShowed(w: World, code: string, p: MovePayload, now: Instant)
    requires Upper(code) in w.games
    requires ClockRunning(w.games[Upper(code)])
    requires SideToMove(w.games[Upper(code)].fen).Some?
    requires HasFen(p) && SideToMove(p.fen.value) == Some(Opponent(SideToMove(w.games[Upper(code)].fen).value))
    requires !p.gameOver
    requires CaptureReported(p) ==> p.captured.value.colour.value in {"white", "black"}
    ensures GameMove(w, code, Some(p), now).reply.Moved?
    ensures var g := w.games[Upper(code)];
            var turn := SideToMove(g.fen).value;
            var h := GameMove(w, code, Some(p), now).world.games[Upper(code)];
            && TimeLeft(h, turn) == ShownTime(GetTimerState(g, now).value, turn)
            && TimeLeft(h, Opponent(turn)) == TimeLeft(g, Opponent(turn))
  {
    var key := Upper(code);
    var g := w.games[key];
    var turn := SideToMove(g.fen).value;
    assert Prepared(g, p).Ok?;
    var moved := Prepared(g, p).value;
    var saved := if CaptureReported(p) then w.(games := w.games[key := moved]) else w;
    assert GameMove(w, code, Some(p), now) == FinishMove(saved, key, moved, p, now);
    // The mover in the new position is the side that was to move before it.
    assert Opponent(SideToMove(moved.fen).value) == turn;
    assert ClockRunning(moved) && TimeLeft(moved, turn) == TimeLeft(g, turn);
    assert TimeLeft(moved, Opponent(turn)) == TimeLeft(g, Opponent(turn));
    var c := UpdateTimerOnMove(Snapshot(moved, saved.users), now);
    assert FinishMove(saved, key, moved, p, now).world.games[key] == c.value.game;
  }

  /** The finishing half of a move whose commit runs the mover's clock out and whose payload declares the game over. */
  lemma FinishMoveCountsTwice(saved: World, key: string, g: Game, p: MovePayload, now: Instant)
    requires key in saved.games
    requires ClockRunning(g) && CountsForStats(g, saved.users) && g.whitePlayer != g.blackPlayer
    requires SideToMove(g.fen).Some?
    requires Drain(TimeLeft(g, Opponent(SideToMove(g.fen).value)), ElapsedSeconds(g.lastMoveTime.value, now)) == 0
    requires p.gameOver && p.winner in {Some("white"), Some("black"), Some(DRAW)}
    ensures var users := FinishMove(saved, key, g, p, now).world.users;
            && users[g.whitePlayer.value].totalGames == saved.users[g.whitePlayer.value].totalGames + 2
            && users[g.blackPlayer.value].totalGames == saved.users[g.blackPlayer.value].totalGames + 2
  {
    var turn := SideToMove(g.fen).value;
    var s := UpdateTimerOnMove(Snapshot(g, saved.users), now).value;
    // the commit runs the mover's clock out and completes the game once ...
    assert s.users == ApplyOutcome(saved.users, g, Some(ColourName(turn)));
    assert ColourName(turn) in {"white", "black"};
    RatedCompletionCountsOnce(saved.users, g, Some(ColourName(turn)));
    // ... and the declared end of game completes it again
    assert CountsForStats(s.game, s.users);
    RatedCompletionCountsOnce(s.users, s.game, p.winner);
  }

  /**
   * Completion is not guarded against repetition: when a move runs the
   * mover's clock out and its payload also declares the game over, both the
   * timeout and the declared result are applied, so each member's record
   * counts the game twice.
   */
  lemma TimeoutThenGameOverCountsTwice(w: World, code: string, p: MovePayload, now: Instant)
    requires Upper(code) in w.games
    requires var g := w.games[Upper(code)];
             && ClockRunning(g) && CountsForStats(g, w.users)
             && g.whitePlayer != g.blackPlayer
    requires HasFen(p) && !CaptureReported(p) && SideToMove(p.fen.value).Some?
    requires var g := w.games[Upper(code)];
             var mover := Opponent(SideToMove(p.fen.value).value);
             Drain(TimeLeft(g, mover), ElapsedSeconds(g.lastMoveTime.value, now)) == 0
    requires p.gameOver && p.winner in {Some("white"), Some("black"), Some(DRAW)}
    ensures var g := w.games[Upper(code)];
            var users := GameMove(w, code, Some(p), now).world.users;
            && users[g.whitePlayer.value].totalGames == w.users[g.whitePlayer.value].totalGames + 2
            && users[g.blackPlayer.value].totalGames == w.users[g.blackPlayer.value].totalGames + 2
  {
    var key := Upper(code);
    var g := w.games[key];
    var recorded := Recorded(g, p);
    FinishMoveCountsTwice(w, key, recorded, p, now);
  }

  // ---------------------------------------------------------------------
  // Resign and draw
  // ---------------------------------------------------------------------

  /**
   * Completes the game against the resigning side: a resignation by white is
   * a black win, and by any other colour value a white win. The game's
   * status is not consulted.
   */
  function Resign(w: World, code: string, body: Option<Option<string>>, now: Instant): (r: Response)
    ensures Upper(code) !in w.games ==> r == Response(w, NotFound)
    ensures Upper(code) in w.games && body.None? ==> r == Response(w, ServerError)
    ensures r.world.games.Keys == w.games.Keys
    ensures Upper(code) in w.games && body.Some? ==>
              var g, h := w.games[Upper(code)], r.world.games[Upper(code)];
              var winner := if body.value == Some("white") then "black" else "white";
              && r.reply == Resigned
              && h.status == Completed && h.winner == Some(winner) && h.resultReason == Some(RESIGNATION)
              && h.whiteTime == g.whiteTime && h.blackTime == g.blackTime && h.fen == g.fen
              && r.world.users == ApplyOutcome(w.users, g, Some(winner))
              // nothing else changes: only the game's four completion fields
              && r.world.games == w.games[Upper(code) := g.(status := Completed, winner := Some(winner),
                                                            resultReason := Some(RESIGNATION),
                                                            completedAt := Some(now))]
  {
    var key := Upper(code);
    if key !in w.games then Response(w, NotFound)
    else if body.None? then Response(w, ServerError)
    else
      var colour := body.value;
      var winner := if colour == Some("white") then "black" else "white";
      var s := MarkCompleted(Snapshot(w.games[key], w.users), Some(winner), Some(RESIGNATION), now);
      Response(World(w.games[key := s.game], s.users), Resigned)
  }

  /**
   * Accepting a draw completes the game as a draw by agreement; any other
   * action is an offer, which changes nothing.
   */
  function OfferDraw(w: World, code: string, body: Option<Option<string>>, now: Instant): (r: Response)
    ensures Upper(code) !in w.games ==> r == Response(w, NotFound)
    ensures Upper(code) in w.games && body.None? ==> r == Response(w, ServerError)
    ensures r.world.games.Keys == w.games.Keys
    ensures Upper(code) in w.games && body.Some? && body.value != Some("accept") ==> r == Response(w, DrawOffered)
    ensures Upper(code) in w.games && body == Some(Some("accept")) ==>
              var g, h := w.games[Upper(code)], r.world.games[Upper(code)];
              && r.reply == DrawAccepted
              && h.status == Completed && h.winner == Some(DRAW) && h.resultReason == Some(AGREEMENT)
              && r.world.users == ApplyOutcome(w.users, g, Some(DRAW))
              // nothing else changes: only the game's four completion fields
              && r.world.games == w.games[Upper(code) := g.(status := Completed, winner := Some(DRAW),
                                                            resultReason := Some(AGREEMENT),
                                                            completedAt := Some(now))]
  {
    var key := Upper(code);
    if key !in w.games then Response(w, NotFound)
    else if body.None? then Response(w, ServerError)
    else if body.value == Some("accept") then
      var s := MarkCompleted(Snapshot(w.games[key], w.users), Some(DRAW), Some(AGREEMENT), now);
      Response(World(w.games[key := s.game], s.users), DrawAccepted)
    else Response(w, DrawOffered)
  }

  /** A created blitz game's first move, twelve seconds after the start, leaves the mover 288 seconds and the opponent 300. */
  lemma TwelveSecondFirstMoveScenario(w: World, code: string, p: MovePayload, start: Instant)
    requires Upper(code) in w.games
    requires var g := w.games[Upper(code)];
             && g.status == Active && g.lastMoveTime == Some(start)
             && g.whiteTime == 300 && g.blackTime == 300
    requires HasFen(p) && !CaptureReported(p) && !p.gameOver
    requires SideToMove(p.fen.value) == Some(Black)
    ensures var h := GameMove(w, code, Some(p), start + 12 * MICROS_PER_SECOND).world.games[Upper(code)];
            h.whiteTime == 288 && h.blackTime == 300 && h.status == Active
  {
    assert ElapsedSeconds(start, start + 12 * MICROS_PER_SECOND) == 12;
  }
}
