/**
 * A club member's record: game counters, win streaks, the provisional
 * rating that becomes an established one after five games, and the
 * achievement badges awarded along the way.
 */
module Ledger {
  import opened Wrappers

  /** A player's individual result in one game. */
  datatype GameResult = Win | Loss | Draw

  datatype User = User(
    username: string,
    totalGames: int,
    wins: int,
    losses: int,
    draws: int,
    rating: Option<int>,          // null until the initial rating is assigned
    ratingAssigned: bool,
    longestWinStreak: int,
    currentWinStreak: int,
    achievements: seq<string>)

  /** Rating points won on a win and lost on a loss once rated. */
  const RATING_STEP: int := 10
  /** Games played when the initial rating is computed. */
  const PROVISIONAL_GAMES: int := 5
  const BASE_RATING: int := 1000
  const MIN_INITIAL_RATING: int := 800
  const MAX_INITIAL_RATING: int := 2000

  const FIRST_WIN: string := "first_win"
  const TEN_GAMES: string := "10_games"
  const WIN_STREAK_5: string := "win_streak_5"
  const RATING_1500: string := "rating_1500"

  /** A freshly registered member: every counter at its default. */
  function NewUser(username: string): (u: User) {
    User(username, 0, 0, 0, 0, None, false, 0, 0, [])
  }

  /** `a` is an initial segment of `b`. */
  predicate IsPrefix(a: seq<string>, b: seq<string>) {
    |a| <= |b| && b[..|a|] == a
  }

  lemma PrefixTransitive(a: seq<string>, b: seq<string>, c: seq<string>)
    requires IsPrefix(a, b) && IsPrefix(b, c)
    ensures IsPrefix(a, c)
  {
    assert c[..|a|] == c[..|b|][..|a|];
  }

  predicate NoDuplicates(s: seq<string>) {
    forall i, j :: 0 <= i < j < |s| ==> s[i] != s[j]
  }

  /** What a well-kept record looks like. */
  ghost predicate Consistent(u: User) {
    && u.wins >= 0 && u.losses >= 0 && u.draws >= 0
    && u.wins + u.losses + u.draws == u.totalGames
    && 0 <= u.currentWinStreak <= u.longestWinStreak
    && u.currentWinStreak <= u.wins
    && (u.ratingAssigned <==> u.totalGames >= PROVISIONAL_GAMES)
    && (u.rating.Some? <==> u.ratingAssigned)
    && NoDuplicates(u.achievements)
  }

  /** A member is rated once a rating is stored and marked assigned. */
  function IsRated(u: User): (rated: bool)
    ensures rated <==> u.ratingAssigned && DisplayRating(u).Rated?
    ensures rated ==> Some(DisplayRating(u).rating) == u.rating
  {
    u.rating.Some? && u.ratingAssigned
  }

  /** What the site shows in place of a rating. */
  datatype RatingDisplay = Unrated(gamesNeeded: int) | Rated(rating: int)

  function DisplayRating(u: User): (d: RatingDisplay)
    ensures d.Unrated? <==> u.rating.None?
    ensures d.Rated? ==> d.rating == u.rating.value
    ensures d.Unrated? ==> d.gamesNeeded >= 0
    ensures d.Unrated? && u.totalGames <= PROVISIONAL_GAMES ==> u.totalGames + d.gamesNeeded == PROVISIONAL_GAMES
    ensures d.Unrated? && u.totalGames >= PROVISIONAL_GAMES ==> d.gamesNeeded == 0
  {
    if u.rating.None? then
      Unrated(if PROVISIONAL_GAMES - u.totalGames > 0 then PROVISIONAL_GAMES - u.totalGames else 0)
    else
      Rated(u.rating.value)
  }

  /** `max(lo, min(hi, x))`. */
  function Clamp(lo: int, hi: int, x: int): (r: int)
    requires lo <= hi
    ensures lo <= r <= hi
    ensures lo <= x <= hi ==> r == x
    ensures x < lo ==> r == lo
    ensures x > hi ==> r == hi
  {
    if x < lo then lo else if x > hi then hi else x
  }

  /** The unclamped baseline computed from the first games' results. */
  function InitialScore(wins: int, losses: int, draws: int): (score: int) {
    BASE_RATING + 20 * wins - 15 * losses + 5 * draws
  }

  /** The one-time initial rating, computed from the results so far. */
  function AssignInitialRating(u: User): (v: User)
    ensures v.ratingAssigned && v.rating.Some?
    ensures MIN_INITIAL_RATING <= v.rating.value <= MAX_INITIAL_RATING
    ensures v.rating.value == Clamp(MIN_INITIAL_RATING, MAX_INITIAL_RATING, InitialScore(u.wins, u.losses, u.draws))
    ensures v == u.(rating := v.rating, ratingAssigned := true)
  {
    var score := InitialScore(u.wins, u.losses, u.draws);
    var r := if score < MIN_INITIAL_RATING then MIN_INITIAL_RATING
             else if score > MAX_INITIAL_RATING then MAX_INITIAL_RATING
             else score;
    u.(rating := Some(r), ratingAssigned := true)
  }

  /** Appends `badge` when `earned` holds and it is not held already. */
  function Award(held: seq<string>, earned: bool, badge: string): (r: seq<string>)
    ensures IsPrefix(held, r)
    ensures forall b :: b in r <==> b in held || (earned && b == badge)
    ensures NoDuplicates(held) ==> NoDuplicates(r)
  {
    if earned && badge !in held then held + [badge] else held
  }

  /** Whether `u`'s record meets the threshold of `badge`. */
  predicate Earned(u: User, badge: string) {
    || (badge == FIRST_WIN && u.wins == 1)
    || (badge == TEN_GAMES && u.totalGames >= 10)
    || (badge == WIN_STREAK_5 && u.currentWinStreak >= 5)
    || (badge == RATING_1500 && u.rating.Some? && u.rating.value != 0 && u.rating.value >= 1500)
  }

  /** Awards every badge whose threshold is met; badges are only ever appended. */
  function CheckAchievements(u: User): (v: User)
    ensures v == u.(achievements := v.achievements)
    ensures IsPrefix(u.achievements, v.achievements)
    ensures forall b :: b in v.achievements <==> b in u.achievements || Earned(u, b)
    ensures NoDuplicates(u.achievements) ==> NoDuplicates(v.achievements)
  {
    var a1 := Award(u.achievements, u.wins == 1, FIRST_WIN);
    var a2 := Award(a1, u.totalGames >= 10, TEN_GAMES);
    var a3 := Award(a2, u.currentWinStreak >= 5, WIN_STREAK_5);
    var a4 := Award(a3, u.rating.Some? && u.rating.value != 0 && u.rating.value >= 1500, RATING_1500);
    PrefixTransitive(u.achievements, a1, a2);
    PrefixTransitive(u.achievements, a2, a3);
    PrefixTransitive(u.achievements, a3, a4);
    u.(achievements := a4)
  }

  /** The counter, streak and rating-step part of recording one result. */
  function Tally(u: User, result: GameResult): (v: User) {
    var u := u.(totalGames := u.totalGames + 1);
    match result
    case Win =>
      var streak := u.currentWinStreak + 1;
      u.(wins := u.wins + 1,
         currentWinStreak := streak,
         longestWinStreak := if streak > u.longestWinStreak then streak else u.longestWinStreak,
         rating := if u.rating.Some? then Some(u.rating.value + RATING_STEP) else None)
    case Loss =>
      u.(losses := u.losses + 1,
         currentWinStreak := 0,
         rating := if u.rating.Some? then Some(u.rating.value - RATING_STEP) else None)
    case Draw =>
      u.(draws := u.draws + 1, currentWinStreak := 0)
  }

  /** Whether recording the next result triggers the initial rating. */
  predicate InitialRatingDue(u: User) {
    u.totalGames + 1 == PROVISIONAL_GAMES && !u.ratingAssigned
  }

  /** Assigns the initial rating when the record has just reached the provisional games unrated. */
  function RateIfDue(t: User): (r: User)
    ensures r == t.(rating := r.rating, ratingAssigned := r.ratingAssigned)
    ensures t.totalGames == PROVISIONAL_GAMES && !t.ratingAssigned ==>
              r.ratingAssigned && r.rating == Some(Clamp(MIN_INITIAL_RATING, MAX_INITIAL_RATING,
                                                         InitialScore(t.wins, t.losses, t.draws)))
    ensures !(t.totalGames == PROVISIONAL_GAMES && !t.ratingAssigned) ==> r == t
  {
    if t.totalGames == PROVISIONAL_GAMES && !t.ratingAssigned then AssignInitialRating(t) else t
  }

  /** Records one game's result: counters, streaks, rating, then badges. */
  function UpdateStats(u: User, result: GameResult): (v: User)
    ensures v.username == u.username
    ensures v.totalGames == u.totalGames + 1
    ensures v.wins == u.wins + (if result == Win then 1 else 0)
    ensures v.losses == u.losses + (if result == Loss then 1 else 0)
    ensures v.draws == u.draws + (if result == Draw then 1 else 0)
    ensures result == Win ==> v.currentWinStreak == u.currentWinStreak + 1
    ensures result != Win ==> v.currentWinStreak == 0
    ensures result == Win ==> v.longestWinStreak == if v.currentWinStreak > u.longestWinStreak
                                                    then v.currentWinStreak else u.longestWinStreak
    ensures result != Win ==> v.longestWinStreak == u.longestWinStreak
    // the initial rating, exactly when the fifth game is recorded unrated
    ensures InitialRatingDue(u) ==>
              v.ratingAssigned && v.rating == Some(Clamp(MIN_INITIAL_RATING, MAX_INITIAL_RATING,
                                                         InitialScore(v.wins, v.losses, v.draws)))
    // otherwise a ±10 move of an existing rating, and nothing on a draw
    ensures !InitialRatingDue(u) ==> v.ratingAssigned == u.ratingAssigned
    ensures !InitialRatingDue(u) && u.rating.None? ==> v.rating.None?
    ensures !InitialRatingDue(u) && u.rating.Some? ==>
              v.rating == Some(u.rating.value + (match result
                                                 case Win => RATING_STEP
                                                 case Loss => -RATING_STEP
                                                 case Draw => 0))
    // the badges: the old ones in order, plus exactly those the new record earns
    ensures IsPrefix(u.achievements, v.achievements)
    ensures forall b :: b in v.achievements <==> b in u.achievements || Earned(v, b)
    ensures NoDuplicates(u.achievements) ==> NoDuplicates(v.achievements)
  {
    var r := RateIfDue(Tally(u, result));
    var v := CheckAchievements(r);
    assert forall b :: Earned(v, b) == Earned(r, b);
    v
  }

  /** Every update keeps a consistent record consistent. */
  lemma UpdateStatsKeepsConsistent(u: User, result: GameResult)
    requires Consistent(u)
    ensures Consistent(UpdateStats(u, result))
  {
  }

  lemma NewUserConsistent(username: string)
    ensures Consistent(NewUser(username))
  {
  }

  /** Once a rating exists it is never cleared and never recomputed from the counters. */
  lemma RatingNeverReverts(u: User, result: GameResult)
    requires u.ratingAssigned && u.rating.Some?
    ensures UpdateStats(u, result).ratingAssigned
    ensures UpdateStats(u, result).rating.Some?
    ensures -RATING_STEP <= UpdateStats(u, result).rating.value - u.rating.value <= RATING_STEP
  {
  }

  /** For a consistent record, being rated is the same as having played at least five games. */
  lemma RatedExactlyAfterProvisionalGames(u: User)
    requires Consistent(u)
    ensures IsRated(u) <==> u.totalGames >= PROVISIONAL_GAMES
    ensures DisplayRating(u).Rated? <==> IsRated(u)
  {
  }

  /** The record after a member plays the given results in order. */
  function Replay(u: User, results: seq<GameResult>): (v: User)
    decreases |results|
  {
    if |results| == 0 then u
    else UpdateStats(Replay(u, results[..|results| - 1]), results[|results| - 1])
  }

  /**
   * For a new member, the counters track the results played; the rating stays
   * null through the first four games and after the fifth is the clamped
   * baseline of those five results; from then on it is never null.
   */
  lemma {:induction false} ReplayFromNewUser(username: string, results: seq<GameResult>)
    ensures var u := Replay(NewUser(username), results);
            && u.totalGames == |results|
            && u.wins == multiset(results)[Win]
            && u.losses == multiset(results)[Loss]
            && u.draws == multiset(results)[Draw]
            && (|results| < PROVISIONAL_GAMES ==> u.rating.None? && !u.ratingAssigned)
            && (|results| == PROVISIONAL_GAMES ==>
                  u.rating == Some(Clamp(MIN_INITIAL_RATING, MAX_INITIAL_RATING,
                                         InitialScore(multiset(results)[Win], multiset(results)[Loss],
                                                      multiset(results)[Draw]))))
            && (|results| >= PROVISIONAL_GAMES ==> u.rating.Some? && u.ratingAssigned)
    decreases |results|
  {
    if |results| > 0 {
      var init := results[..|results| - 1];
      var last := results[|results| - 1];
      assert results == init + [last];
      ReplayFromNewUser(username, init);
    }
  }

  /** Three wins and a loss, then a fifth-game win: the initial rating is 1000 + 4·20 − 15 = 1065. */
  lemma FifthGameWinScenario(u: User)
    requires u.totalGames == 4 && u.wins == 3 && u.losses == 1 && u.draws == 0
    requires !u.ratingAssigned && u.rating.None?
    ensures UpdateStats(u, Win).rating == Some(1065)
    ensures UpdateStats(u, Win).ratingAssigned
  {
  }
}
