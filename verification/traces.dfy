/**
 * Sequences of requests against the store, and what holds along any of
 * them: polls change nothing, clocks stay non-negative, member records stay
 * consistent, and no game's status ever moves backwards.
 */
module Traces {
  import opened Wrappers
  import opened Fen
  import opened Ledger
  import opened Games
  import opened Api

  /**
   * A request to one of the game endpoints, with the instant it is served.
   * A create request carries the candidate codes its random draws produce.
   */
  datatype Request =
    | CreateRequest(candidates: seq<string>, who: Requester, data: CreatePayload)
    | JoinRequest(code: string, who: Requester, at: Instant)
    | MoveRequest(code: string, body: Option<MovePayload>, at: Instant)
    | ResignRequest(code: string, colour: Option<Option<string>>, at: Instant)
    | DrawRequest(code: string, action: Option<Option<string>>, at: Instant)
    | PollRequest(code: string, at: Instant)

  /**
   * The store after serving one request. A poll returns no store, so it
   * leaves the store as it was; so does a create request none of whose
   * candidate codes is fresh, the server still drawing further codes.
   */
  function Step(w: World, req: Request): (w': World) {
    match req
    case CreateRequest(candidates, who, data) =>
      (match Create(w, candidates, who, data)
       case None => w
       case Some(r) => r.world)
    case JoinRequest(code, who, at) => JoinGame(w, code, who, at).world
    case MoveRequest(code, body, at) => GameMove(w, code, body, at).world
    case ResignRequest(code, colour, at) => Resign(w, code, colour, at).world
    case DrawRequest(code, action, at) => OfferDraw(w, code, action, at).world
    case PollRequest(_, _) => w
  }

  /** The store after serving the requests in order. */
  function Run(w: World, reqs: seq<Request>): (w': World)
    decreases |reqs|
  {
    if |reqs| == 0 then w else Run(Step(w, reqs[0]), reqs[1..])
  }

  /** The requests with every poll taken out. */
  function WithoutPolls(reqs: seq<Request>): (r: seq<Request>)
    ensures |r| <= |reqs|
    ensures forall i :: 0 <= i < |r| ==> !r[i].PollRequest?
    decreases |reqs|
  {
    if |reqs| == 0 then []
    else if reqs[0].PollRequest? then WithoutPolls(reqs[1..])
    else [reqs[0]] + WithoutPolls(reqs[1..])
  }

  /** Taking the polls out keeps every other request, each as often as it was sent. */
  lemma {:induction false} WithoutPollsKeepsOthers(reqs: seq<Request>)
    ensures forall q: Request :: !q.PollRequest? ==> multiset(WithoutPolls(reqs))[q] == multiset(reqs)[q]
    decreases |reqs|
  {
    if |reqs| > 0 {
      WithoutPollsKeepsOthers(reqs[1..]);
      assert reqs == [reqs[0]] + reqs[1..];
    }
  }

  /**
   * Any number of polls, interleaved anywhere, leaves the store exactly as
   * the same requests without them. Each single poll leaves the store as it
   * was by the definition of Step, since the read endpoint returns no store;
   * the lemma lifts that to whole request sequences. That a poll shows no
   * drifted clock either is PeekMonotone and PeekAfterCommitShowsCommitted.
   */
  lemma {:induction false} PollsAreInvisible(w: World, reqs: seq<Request>)
    ensures Run(w, reqs) == Run(w, WithoutPolls(reqs))
    decreases |reqs|
  {
    if |reqs| > 0 {
      PollsAreInvisible(Step(w, reqs[0]), reqs[1..]);
      if !reqs[0].PollRequest? {
        var rest := WithoutPolls(reqs[1..]);
        assert ([reqs[0]] + rest)[1..] == rest;
      }
    }
  }

  // ---------------------------------------------------------------------
  // Invariants
  // ---------------------------------------------------------------------

  /** Every clock is non-negative and every member record is consistent. */
  ghost predicate WorldValid(w: World) {
    && (forall code :: code in w.games ==> ClocksValid(w.games[code]))
    && (forall id :: id in w.users ==> Consistent(w.users[id]))
  }

  lemma CompletionKeepsValid(w: World, key: string, winner: Option<string>, reason: Option<string>, now: Instant)
    requires WorldValid(w) && key in w.games
    ensures var s := MarkCompleted(Snapshot(w.games[key], w.users), winner, reason, now);
            WorldValid(World(w.games[key := s.game], s.users))
  {
    ApplyOutcomeKeepsConsistent(w.users, w.games[key], winner);
  }

  lemma FinishMoveKeepsValid(saved: World, key: string, g: Game, p: MovePayload, now: Instant)
    requires WorldValid(saved) && key in saved.games && ClocksValid(g)
    ensures WorldValid(FinishMove(saved, key, g, p, now).world)
  {
    var c := UpdateTimerOnMove(Snapshot(g, saved.users), now);
    if c.Ok? {
      var s := c.value;
      CommitKeepsClocksValid(Snapshot(g, saved.users), now);
      ApplyOutcomeKeepsConsistent(saved.users, g, Some(ColourName(SideToMove(g.fen).GetOr(White))));
      if ClockRunning(g) {
        ApplyOutcomeKeepsConsistent(saved.users, g.(whiteTime := 0), Some(ColourName(SideToMove(g.fen).value)));
        ApplyOutcomeKeepsConsistent(saved.users, g.(blackTime := 0), Some(ColourName(SideToMove(g.fen).value)));
      }
      assert forall id :: id in s.users ==> Consistent(s.users[id]);
      var mid := World(saved.games[key := s.game], s.users);
      assert WorldValid(mid);
      if p.gameOver {
        CompletionKeepsValid(mid, key, p.winner, p.reason, now);
      }
    }
  }

  lemma AcceptMoveKeepsValid(w: World, key: string, p: MovePayload, at: Instant)
    requires key in w.games && HasFen(p)
    requires WorldValid(w)
    ensures WorldValid(AcceptMove(w, key, p, at).world)
  {
    var g := w.games[key];
    var recorded := Recorded(g, p);
    assert ClocksValid(recorded);
    if CaptureReported(p) {
      var c := AddCapturedPiece(recorded.captured, p.captured.value.piece.value, p.captured.value.colour.value);
      if c.Ok? {
        var withCapture := recorded.(captured := c.value);
        var saved := w.(games := w.games[key := withCapture]);
        assert WorldValid(saved);
        FinishMoveKeepsValid(saved, key, withCapture, p, at);
        assert AcceptMove(w, key, p, at) == FinishMove(saved, key, withCapture, p, at);
      }
    } else {
      FinishMoveKeepsValid(w, key, recorded, p, at);
      assert AcceptMove(w, key, p, at) == FinishMove(w, key, recorded, p, at);
    }
  }

  lemma GameMoveKeepsValid(w: World, code: string, body: Option<MovePayload>, at: Instant)
    requires WorldValid(w)
    ensures WorldValid(GameMove(w, code, body, at).world)
  {
    if Upper(code) in w.games && body.Some? && HasFen(body.value) {
      AcceptMoveKeepsValid(w, Upper(code), body.value, at);
    }
  }

  /** A created game starts with both clocks at the time control's seconds, which are positive. */
  lemma CreateKeepsValid(w: World, candidates: seq<string>, who: Requester, data: CreatePayload)
    requires WorldValid(w)
    ensures WorldValid(Step(w, CreateRequest(candidates, who, data)))
  {
    var r := Create(w, candidates, who, data);
    if r.Some? {
      var code := r.value.reply.code;
      var g := NewGame(code, who, data);
      assert TimeControlSeconds(data.timeControl.GetOr(DEFAULT_TIME_CONTROL)) > 0;
      assert ClocksValid(g);
    }
  }

  lemma JoinKeepsValid(w: World, code: string, who: Requester, at: Instant)
    requires WorldValid(w)
    ensures WorldValid(JoinGame(w, code, who, at).world)
  {
  }

  lemma ResignKeepsValid(w: World, code: string, colour: Option<Option<string>>, at: Instant)
    requires WorldValid(w)
    ensures WorldValid(Resign(w, code, colour, at).world)
  {
    var key := Upper(code);
    if key in w.games && colour.Some? {
      CompletionKeepsValid(w, key, Some(if colour.value == Some("white") then "black" else "white"),
                           Some(RESIGNATION), at);
    }
  }

  lemma DrawKeepsValid(w: World, code: string, action: Option<Option<string>>, at: Instant)
    requires WorldValid(w)
    ensures WorldValid(OfferDraw(w, code, action, at).world)
  {
    var key := Upper(code);
    if key in w.games && action == Some(Some("accept")) {
      CompletionKeepsValid(w, key, Some(DRAW), Some(AGREEMENT), at);
    }
  }

  /** Serving any request keeps the store valid. */
  lemma StepKeepsValid(w: World, req: Request)
    requires WorldValid(w)
    ensures WorldValid(Step(w, req))
  {
    match req
    case CreateRequest(candidates, who, data) => CreateKeepsValid(w, candidates, who, data);
    case JoinRequest(code, who, at) => JoinKeepsValid(w, code, who, at);
    case MoveRequest(code, body, at) => GameMoveKeepsValid(w, code, body, at);
    case ResignRequest(code, colour, at) => ResignKeepsValid(w, code, colour, at);
    case DrawRequest(code, action, at) => DrawKeepsValid(w, code, action, at);
    case PollRequest(_, _) =>
  }

  /** Every store reached from a valid one is valid. */
  lemma {:induction false} RunKeepsValid(w: World, reqs: seq<Request>)
    requires WorldValid(w)
    ensures WorldValid(Run(w, reqs))
    decreases |reqs|
  {
    if |reqs| > 0 {
      StepKeepsValid(w, reqs[0]);
      RunKeepsValid(Step(w, reqs[0]), reqs[1..]);
    }
  }

  /** How far along its life a game is; no request lowers it. */
  function Stage(s: Status): (n: nat) {
    match s
    case Waiting => 0
    case Active => 1
    case Completed => 2
    case Abandoned => 2
  }

  /** Games are never removed and never go back to an earlier stage. */
  ghost predicate Advances(w: World, w': World) {
    forall code :: code in w.games ==>
      code in w'.games && Stage(w.games[code].status) <= Stage(w'.games[code].status)
  }

  /**
   * Only the game under `key` may change, only when its status was one of
   * `from`, and then it ends with status `to`; every other game is kept as
   * it was, and none is removed.
   */
  ghost predicate OnlyMoves(w: World, w': World, key: string, from: set<Status>, to: Status) {
    forall code :: code in w.games ==>
      && code in w'.games
      && (w'.games[code] == w.games[code]
          || (code == key && w.games[code].status in from && w'.games[code].status == to))
  }

  /** The stored games are kept as they were, and at most one new one, waiting, is added. */
  ghost predicate OnlyAdds(w: World, w': World) {
    && (forall code :: code in w.games ==> code in w'.games && w'.games[code] == w.games[code])
    && (forall code :: code in w'.games && code !in w.games ==> w'.games[code].status == Waiting)
    && (forall a, b :: a in w'.games && a !in w.games && b in w'.games && b !in w.games ==> a == b)
  }

  lemma FinishMoveAdvances(saved: World, key: string, g: Game, p: MovePayload, now: Instant)
    requires key in saved.games && g.status == saved.games[key].status
    ensures Advances(saved, FinishMove(saved, key, g, p, now).world)
  {
  }

  lemma AcceptMoveAdvances(w: World, key: string, p: MovePayload, at: Instant)
    requires key in w.games && HasFen(p)
    ensures Advances(w, AcceptMove(w, key, p, at).world)
  {
  }

  lemma GameMoveAdvances(w: World, code: string, body: Option<MovePayload>, at: Instant)
    ensures Advances(w, GameMove(w, code, body, at).world)
  {
    if Upper(code) in w.games && body.Some? && HasFen(body.value) {
      AcceptMoveAdvances(w, Upper(code), body.value, at);
    }
  }

  /** Creating a game only adds a new, waiting one, and leaves the member records alone. */
  lemma CreateAdvances(w: World, candidates: seq<string>, who: Requester, data: CreatePayload)
    ensures Advances(w, Step(w, CreateRequest(candidates, who, data)))
    ensures OnlyAdds(w, Step(w, CreateRequest(candidates, who, data)))
    ensures Step(w, CreateRequest(candidates, who, data)).users == w.users
  {
  }

  /** Joining only moves the joined game from waiting to active. */
  lemma JoinAdvances(w: World, code: string, who: Requester, at: Instant)
    ensures Advances(w, JoinGame(w, code, who, at).world)
    ensures OnlyMoves(w, JoinGame(w, code, who, at).world, Upper(code), {Waiting}, Active)
  {
  }

  /** Resigning only moves the named game, from whatever status, to completed. */
  lemma ResignAdvances(w: World, code: string, colour: Option<Option<string>>, at: Instant)
    ensures Advances(w, Resign(w, code, colour, at).world)
    ensures OnlyMoves(w, Resign(w, code, colour, at).world, Upper(code), {Waiting, Active, Completed, Abandoned}, Completed)
  {
  }

  /** Accepting a draw only moves the named game, from whatever status, to completed. */
  lemma DrawAdvances(w: World, code: string, action: Option<Option<string>>, at: Instant)
    ensures Advances(w, OfferDraw(w, code, action, at).world)
    ensures OnlyMoves(w, OfferDraw(w, code, action, at).world, Upper(code), {Waiting, Active, Completed, Abandoned}, Completed)
  {
  }

  /** No request removes a game or moves its status backwards. */
  lemma StepAdvances(w: World, req: Request)
    ensures Advances(w, Step(w, req))
  {
    match req
    case CreateRequest(candidates, who, data) => CreateAdvances(w, candidates, who, data);
    case JoinRequest(code, who, at) => JoinAdvances(w, code, who, at);
    case MoveRequest(code, body, at) => GameMoveAdvances(w, code, body, at);
    case ResignRequest(code, colour, at) => ResignAdvances(w, code, colour, at);
    case DrawRequest(code, action, at) => DrawAdvances(w, code, action, at);
    case PollRequest(_, _) =>
  }

  /** Along any sequence of requests, every game only moves forward: waiting, then active, then finished. */
  lemma {:induction false} RunAdvances(w: World, reqs: seq<Request>)
    ensures Advances(w, Run(w, reqs))
    decreases |reqs|
  {
    if |reqs| > 0 {
      StepAdvances(w, reqs[0]);
      RunAdvances(Step(w, reqs[0]), reqs[1..]);
    }
  }
}
