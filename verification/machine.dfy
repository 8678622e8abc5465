/** The scoring state machine of `TennisMatch` as functions of the match
    state: one point, the bookkeeping after it, a game, a set and a match
    (src/main.rs:144-327). The random draws of `play_point` and `play_match`
    are inputs; a run is driven by a finite sequence of point outcomes and
    reports `None` when that sequence ends before the run does. The class
    in module Simulator is proved to follow these functions step by step.
    The trailing `S` in `PlayPointS`, `LogPointS`, `RallyS`, `GameS`,
    `SetLoopS`, `MatchLoopS` and `PlayMatchS` marks the reference function
    on the State value: `PlayPointS`, `LogPointS` and `GameS` specify the methods
    PlayPoint, LogPoint and PlayGame of the class, `SetLoopS` and
    `MatchLoopS` its PlaySet and PlayMatch, `PlayMatchS` PlayMatch on a
    new match (Batch.RunMatch), and `RallyS` the point loop inside
    PlayGame. */
module Machine {
  import opened Wrappers
  import opened Rules

  /** The fixed parameters of `TennisMatch::new`. */
  datatype Config = Config(player1: Player, player2: Player, bestOf: int, grandSlam: bool)

  /** One player's entry in `stats` and in a `set_history` snapshot. */
  datatype Counts = Counts(aces: nat, doubleFaults: nat)

  const NoCounts := Counts(0, 0)

  /** `stats` and the per-set snapshots, by position (player 1, player 2). */
  datatype PlayerStats = PlayerStats(first: Counts, second: Counts) {

    function At(i: Side): Counts {
      if i == 0 then first else second
    }

    function With(i: Side, c: Counts): (r: PlayerStats)
      ensures r.At(i) == c && r.At(Other(i)) == At(Other(i))
    {
      if i == 0 then PlayerStats(c, second) else PlayerStats(first, c)
    }
  }

  const NoStats := PlayerStats(NoCounts, NoCounts)

  /** The outcomes of the three comparisons of the serve cascade
      (src/main.rs:222-230): `u1 < ace_prob`, `u2 < double_fault_prob`,
      `u3 < serve_win_prob`. A later one is only consulted when every
      earlier one failed. */
  datatype Draw = Draw(ace: bool, doubleFault: bool, serveWon: bool)

  datatype PointKind = Ace | DoubleFault | ServerWon | ReceiverWon

  function Classify(d: Draw): PointKind {
    if d.ace then Ace
    else if d.doubleFault then DoubleFault
    else if d.serveWon then ServerWon
    else ReceiverWon
  }

  predicate ServerTakesPoint(k: PointKind) {
    k == Ace || k == ServerWon
  }

  /** The non-numeric part of the record `log_point` appends to `point_log`. */
  datatype PointRecord = PointRecord(server: string, receiver: string, pointScore: string,
                                     gameScore: string, setScore: string, tiebreakTenths: nat)

  /** The fields of a `TennisMatch` once a server has been chosen. */
  datatype State = State(server: Player, receiver: Player,
                         sets: Pair, games: Pair, points: Pair,
                         setHistory: seq<PlayerStats>, totalShots: nat, pointLog: seq<PointRecord>,
                         stats: PlayerStats, lastPointWinner: Option<Player>, consecutivePoints: nat,
                         lastPointAce: bool, isTiebreak: bool, tiebreakPoints: nat,
                         tiebreakServer: Option<Player>)

  /** What `play_point` returns beside the new state. */
  datatype Played = Played(state: State, winner: Player)

  /** What `log_point` returns beside the new state. */
  datatype Logged = Logged(state: State, gameOver: bool, setOver: bool)

  /** What `play_game` returns: the last point's winner and whether the set ended. */
  datatype GameEnd = GameEnd(winner: Player, setOver: bool)

  /** A run over a prefix of the supplied outcomes: the state reached, how
      many outcomes it used, and its result, or None if the outcomes ran out. */
  datatype Run<T> = Run(state: State, used: nat, outcome: Option<T>)

  /** A freshly constructed match with its server and receiver chosen. */
  function NewState(server: Player, receiver: Player): State {
    State(server, receiver, Pair(0, 0), Pair(0, 0), Pair(0, 0), [], 0, [], NoStats,
          None, 0, false, false, 0, None)
  }

  /** The server and receiver `play_match` picks from its coin
      (src/main.rs:319-320). */
  function Seat(cfg: Config, coin: bool): (Player, Player) {
    var server := if coin then cfg.player1 else cfg.player2;
    (server, if server.name == cfg.player1.name then cfg.player2 else cfg.player1)
  }

  function ServerSide(cfg: Config, s: State): Side {
    SideOf(s.server, cfg.player1)
  }

  /** `switch_server`. */
  function Swapped(s: State): State {
    s.(server := s.receiver, receiver := s.server)
  }

  predicate SetOver(cfg: Config, s: State) {
    IsSetOver(s.isTiebreak, cfg.grandSlam, cfg.bestOf, s.sets, s.games, s.points)
  }

  /** The player the cascade gives the point to. */
  function PointWinner(s: State, d: Draw): Player {
    if ServerTakesPoint(Classify(d)) then s.server else s.receiver
  }

  /** The start of `play_point`: one more shot, and the server's ace or
      double fault counted in `stats`. */
  function CountServe(cfg: Config, s: State, kind: PointKind): State {
    var side := ServerSide(cfg, s);
    var c := s.stats.At(side);
    var stats :=
      if kind == Ace then s.stats.With(side, c.(aces := c.aces + 1))
      else if kind == DoubleFault then s.stats.With(side, c.(doubleFaults := c.doubleFaults + 1))
      else s.stats;
    s.(totalShots := s.totalShots + 1, stats := stats)
  }

  /** The middle of `play_point`: the point goes to the winner's position
      (found by comparing the winner's name with the server's), and the
      winning streak and the last-point flags follow. */
  function BookPoint(cfg: Config, s: State, winner: Player, ace: bool): State {
    var side := ServerSide(cfg, s);
    var points := if winner.name == s.server.name then s.points.Bump(side) else s.points.Bump(Other(side));
    var consecutive := if Some(winner) == s.lastPointWinner then s.consecutivePoints + 1 else 1;
    s.(points := points, lastPointAce := ace, consecutivePoints := consecutive, lastPointWinner := Some(winner))
  }

  /** The end of `play_point`: in a tiebreak, count the point and change
      server after every odd-numbered one. */
  function RotateTiebreak(s: State): State {
    if s.isTiebreak then
      var t := s.(tiebreakPoints := s.tiebreakPoints + 1);
      if t.tiebreakPoints % 2 == 1 then Swapped(t) else t
    else s
  }

  /** `play_point` given the outcome of its cascade. */
  function PlayPointS(cfg: Config, s: State, d: Draw): Played {
    var winner := PointWinner(s, d);
    var kind := Classify(d);
    Played(RotateTiebreak(BookPoint(cfg, CountServe(cfg, s, kind), winner, kind == Ace)), winner)
  }

  /** The record of one point: the point score as it stood before the
      point was booked, the game and set scores after. */
  function Record(cfg: Config, s: State, pointScore: string): PointRecord {
    var side := ServerSide(cfg, s);
    PointRecord(s.server.name, s.receiver.name, pointScore,
                FormatScore(s.games, side), FormatScore(s.sets, side), TiebreakTenths(s.games.Sum()))
  }

  /** The tiebreak branch of `log_point` once the tiebreak is decided: the
      game and the set go to the position ahead on points. */
  function CloseTiebreak(s: State): State {
    var w := Leader(s.points);
    s.(games := s.games.Bump(w), sets := s.sets.Bump(w), isTiebreak := false)
  }

  /** A game of the ordinary branch of `log_point` goes to the position ahead on points. */
  function CreditGame(s: State): State {
    s.(games := s.games.Bump(Leader(s.points)))
  }

  /** A set of the ordinary branch of `log_point` goes to the position ahead on games. */
  function CreditSet(s: State): State {
    s.(sets := s.sets.Bump(Leader(s.games)))
  }

  /** Six games all: the tiebreak starts with the current server. */
  function EnterTiebreak(s: State): State {
    s.(isTiebreak := true, points := Pair(0, 0), tiebreakServer := Some(s.server), tiebreakPoints := 0)
  }

  /** The score part of `log_point`: the new state with the game-over and
      set-over flags. Its test of the point string against "GAME" is
      written as the game being won (Rules.GameCallMeansWon). */
  function Advance(cfg: Config, s: State): Logged {
    if s.isTiebreak then
      if SetOver(cfg, s) then Logged(CloseTiebreak(s), true, true)
      else Logged(s, false, false)
    else
      var gameOver := WonBy(s.points, 4);
      var g := if gameOver then CreditGame(s) else s;
      if SetOver(cfg, g) then Logged(CreditSet(g), gameOver, true)
      else if g.games.first == 6 && g.games.second == 6 then Logged(EnterTiebreak(g), gameOver, false)
      else Logged(g, gameOver, false)
  }

  /** The end of `log_point`: the point's record joins `point_log`. */
  function AppendRecord(cfg: Config, s: State, pointScore: string): State {
    s.(pointLog := s.pointLog + [Record(cfg, s, pointScore)])
  }

  /** `log_point`: the point score is read before the score changes. */
  function LogPointS(cfg: Config, s: State): Logged {
    var pointScore := FormatPoints(s.points, ServerSide(cfg, s), s.isTiebreak);
    var l := Advance(cfg, s);
    l.(state := AppendRecord(cfg, l.state, pointScore))
  }

  /** The resets at the top of `play_game`. */
  function StartGame(cfg: Config, s: State): State {
    s.(points := if !s.isTiebreak then Pair(0, 0) else s.points,
       lastPointWinner := None, consecutivePoints := 0, lastPointAce := false,
       stats := s.stats.With(ServerSide(cfg, s), NoCounts))
  }

  /** `play_game` from `s`: with `atStart` the resets at its top come
      first, then the point loop; the loop itself runs with `atStart` false.
      The flag has no counterpart in the source: it puts the resets and the
      loop into one recursive definition, so that one induction (as in
      MatchFacts.RallyFacts) covers the whole of `play_game`. */
  function RallyS(cfg: Config, s: State, draws: seq<Draw>, atStart: bool): (r: Run<GameEnd>)
    ensures r.used <= |draws|
    ensures r.outcome.Some? ==> r.used >= 1
    decreases |draws|, if atStart then 1 else 0
  {
    if atStart then RallyS(cfg, StartGame(cfg, s), draws, false)
    else if |draws| == 0 then Run(s, 0, None)
    else
      var p := PlayPointS(cfg, s, draws[0]);
      var l := LogPointS(cfg, p.state);
      if l.gameOver || l.setOver then
        var t := if !l.setOver && !l.state.isTiebreak then Swapped(l.state) else l.state;
        Run(t, 1, Some(GameEnd(p.winner, l.setOver)))
      else
        var r := RallyS(cfg, l.state, draws[1..], false);
        Run(r.state, r.used + 1, r.outcome)
  }

  /** `play_game`. */
  function GameS(cfg: Config, s: State, draws: seq<Draw>): (r: Run<GameEnd>)
    ensures r.used <= |draws|
    ensures r.outcome.Some? ==> r.used >= 1
  {
    RallyS(cfg, s, draws, true)
  }

  /** The bookkeeping of `play_set` when a set ends: one snapshot of the
      stats, zeroed stats, a new set's score and the other server. */
  function CloseSet(s: State): State {
    Swapped(s.(setHistory := s.setHistory + [s.stats], stats := NoStats,
               games := Pair(0, 0), points := Pair(0, 0), isTiebreak := false, tiebreakPoints := 0))
  }

  /** `play_set`. */
  function SetLoopS(cfg: Config, s: State, draws: seq<Draw>): (r: Run<Player>)
    ensures r.used <= |draws|
    ensures r.outcome.Some? ==> r.used >= 1
    decreases |draws|
  {
    var g := GameS(cfg, s, draws);
    match g.outcome
    case None => Run(g.state, g.used, None)
    case Some(e) =>
      if e.setOver then Run(CloseSet(g.state), g.used, Some(e.winner))
      else
        var r := SetLoopS(cfg, g.state, draws[g.used..]);
        Run(r.state, g.used + r.used, r.outcome)
  }

  /** The player `play_match` declares the winner. */
  function MatchWinner(cfg: Config, s: State): Player {
    if s.sets.first > s.sets.second then cfg.player1 else cfg.player2
  }

  /** `play_match` from `s`: with `toss` present, the coin first seats the
      server and the receiver, then the set loop runs; the loop itself runs
      with no toss. Like `atStart` of RallyS, `toss` has no counterpart in
      the source: it lets one recursive definition, and one induction over
      it, take in both the coin and the `while` loop of `play_match`. */
  function MatchLoopS(cfg: Config, s: State, draws: seq<Draw>, toss: Option<bool>): (r: Run<Player>)
    ensures r.used <= |draws|
    decreases |draws|, if toss.Some? then 1 else 0
  {
    if toss.Some? then
      var (server, receiver) := Seat(cfg, toss.value);
      MatchLoopS(cfg, s.(server := server, receiver := receiver), draws, None)
    else if s.sets.Max() >= SetsToWin(cfg.bestOf) then Run(s, 0, Some(MatchWinner(cfg, s)))
    else
      var st := SetLoopS(cfg, s, draws);
      if st.outcome.None? then Run(st.state, st.used, None)
      else
        var r := MatchLoopS(cfg, st.state, draws[st.used..], None);
        Run(r.state, st.used + r.used, r.outcome)
  }

  /** The set loop, having consumed `used` outcomes from `start` to reach
      `s`, goes on after one more set that ended in `after` with `next`
      outcomes consumed in all: the run from `start` is the run from `after`
      (or, if the set did not finish, ends there). */
  lemma MatchLoopAfterSet(cfg: Config, start: State, draws: seq<Draw>, used: nat, s: State, after: State,
                          n: nat, next: nat, setWinner: Option<Player>)
    requires next == used + n && used <= |draws| && s.sets.Max() < SetsToWin(cfg.bestOf)
    requires var r := MatchLoopS(cfg, s, draws[used..], None);
             Run(r.state, used + r.used, r.outcome) == MatchLoopS(cfg, start, draws, None)
    requires Run(after, n, setWinner) == SetLoopS(cfg, s, draws[used..])
    ensures next <= |draws|
    ensures setWinner.None? ==> Run(after, next, None) == MatchLoopS(cfg, start, draws, None)
    ensures setWinner.Some? ==>
              var r := MatchLoopS(cfg, after, draws[next..], None);
              Run(r.state, next + r.used, r.outcome) == MatchLoopS(cfg, start, draws, None)
  {
    assert draws[used..][n..] == draws[next..];
  }

  /** `play_match` on a new match whose initial-server coin came up `coin`. */
  function PlayMatchS(cfg: Config, coin: bool, draws: seq<Draw>): (r: Run<Player>)
    ensures r.used <= |draws|
  {
    MatchLoopS(cfg, NewState(cfg.player1, cfg.player2), draws, Some(coin))
  }
}
