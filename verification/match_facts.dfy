/** What the scoring state machine of module Machine guarantees: the
    effect of one point and of its bookkeeping, and, by induction over the
    point outcomes, the invariants a game, a set and a match keep. */
module MatchFacts {
  import opened Wrappers
  import opened Rules
  import opened Machine

  /** The two seats hold the two configured players, whose names differ.
      The source tells the players apart by name throughout. */
  predicate Seated(cfg: Config, s: State) {
    cfg.player1.name != cfg.player2.name &&
    ((s.server == cfg.player1 && s.receiver == cfg.player2) ||
     (s.server == cfg.player2 && s.receiver == cfg.player1))
  }

  /** A level's score after one of the two sides has gained one. */
  predicate OneMore(before: Pair, after: Pair) {
    after == before.Bump(0) || after == before.Bump(1)
  }

  /** `t` follows `s` after `n` more shots, each with its record appended
      to the log. */
  predicate Books(s: State, t: State, n: nat) {
    t.totalShots == s.totalShots + n && |t.pointLog| == |s.pointLog| + n && s.pointLog <= t.pointLog
  }

  lemma BooksChain(a: State, b: State, c: State, n: nat, m: nat)
    requires Books(a, b, n) && Books(b, c, m)
    ensures Books(a, c, n + m)
  {
    assert a.pointLog == c.pointLog[..|a.pointLog|] by {
      assert a.pointLog == b.pointLog[..|a.pointLog|];
      assert b.pointLog == c.pointLog[..|b.pointLog|];
    }
  }

  // ---------------------------------------------------------------------
  // Seating

  /** `play_match` seats the coin's player as server and the other as
      receiver. */
  lemma SeatFacts(cfg: Config, coin: bool)
    requires cfg.player1.name != cfg.player2.name
    ensures Seat(cfg, coin).0 == (if coin then cfg.player1 else cfg.player2)
    ensures Seated(cfg, NewState(Seat(cfg, coin).0, Seat(cfg, coin).1))
  {
  }

  /** The server's position in the score vectors is found by name. */
  lemma ServerSideFacts(cfg: Config, s: State)
    requires Seated(cfg, s)
    ensures ServerSide(cfg, s) == 0 <==> s.server == cfg.player1
    ensures SideOf(s.receiver, cfg.player1) == Other(ServerSide(cfg, s))
  {
  }

  // ---------------------------------------------------------------------
  // One point

  /** `play_point` counts one shot, gives exactly one point, to the
      winner's position, and touches neither games, sets nor the log. */
  lemma PointGoesToWinner(cfg: Config, s: State, d: Draw)
    requires Seated(cfg, s)
    ensures var p := PlayPointS(cfg, s, d);
            var w := SideOf(p.winner, cfg.player1);
            && p.state.totalShots == s.totalShots + 1
            && (p.winner == s.server <==> Classify(d) == Ace || Classify(d) == ServerWon)
            && (p.winner == s.receiver <==> Classify(d) == DoubleFault || Classify(d) == ReceiverWon)
            && p.state.points.At(w) == s.points.At(w) + 1
            && p.state.points.At(Other(w)) == s.points.At(Other(w))
            && p.state.points.Sum() == s.points.Sum() + 1
            && p.state.games == s.games && p.state.sets == s.sets
            && p.state.pointLog == s.pointLog && p.state.setHistory == s.setHistory
            && p.state.isTiebreak == s.isTiebreak && p.state.tiebreakServer == s.tiebreakServer
  {
  }

  /** An ace is credited to the server and wins it the point; a double
      fault is charged to the server and loses it the point; the other
      player's counts do not move. */
  lemma ServeCounted(cfg: Config, s: State, d: Draw)
    requires Seated(cfg, s)
    ensures var p := PlayPointS(cfg, s, d);
            var i := ServerSide(cfg, s);
            var before, after := s.stats.At(i), p.state.stats.At(i);
            && after.aces == before.aces + (if Classify(d) == Ace then 1 else 0)
            && after.doubleFaults == before.doubleFaults + (if Classify(d) == DoubleFault then 1 else 0)
            && p.state.stats.At(Other(i)) == s.stats.At(Other(i))
            && p.state.lastPointAce == (Classify(d) == Ace)
  {
  }

  /** The winning streak grows when the same player wins again and
      restarts at one otherwise. */
  lemma StreakCounted(cfg: Config, s: State, d: Draw)
    ensures var p := PlayPointS(cfg, s, d);
            && p.state.lastPointWinner == Some(p.winner)
            && p.state.consecutivePoints == (if s.lastPointWinner == Some(p.winner) then s.consecutivePoints + 1 else 1)
            && p.state.consecutivePoints >= 1
  {
  }

  /** In a tiebreak every point is counted, and the seats change exactly
      when the count becomes odd; outside one the seats stay. The seating
      invariant survives either way. */
  lemma TiebreakRotation(cfg: Config, s: State, d: Draw)
    requires Seated(cfg, s)
    ensures var t := PlayPointS(cfg, s, d).state;
            && Seated(cfg, t)
            && t.tiebreakPoints == s.tiebreakPoints + (if s.isTiebreak then 1 else 0)
            && (t.server == s.receiver <==> s.isTiebreak && t.tiebreakPoints % 2 == 1)
            && (t.server == s.receiver ==> t.receiver == s.server)
            && (t.server == s.server ==> t.receiver == s.receiver)
  {
  }

  // ---------------------------------------------------------------------
  // The bookkeeping after a point

  /** `log_point` outside a tiebreak. The game is over exactly when the
      formatted call is "GAME", that is when the game is won by two from
      four points; it goes to the side with more points. The set is then
      over exactly when the games are won by two from six, and goes to the
      side with more games. Otherwise, at six games all, the tiebreak
      starts with the current server. Nothing else in the score moves. */
  lemma OrdinaryPointLogged(cfg: Config, s: State)
    requires !s.isTiebreak
    ensures var l := LogPointS(cfg, s);
            var t := l.state;
            var g := if l.gameOver then s.games.Bump(Leader(s.points)) else s.games;
            && (l.gameOver <==> FormatPoints(s.points, ServerSide(cfg, s), false) == "GAME")
            && (l.gameOver <==> WonBy(s.points, 4))
            && (l.gameOver ==> s.points.At(Leader(s.points)) > s.points.At(Other(Leader(s.points))))
            && (l.setOver <==> WonBy(g, 6))
            && (l.setOver ==> t.sets == s.sets.Bump(Leader(g)) && g.At(Leader(g)) > g.At(Other(Leader(g))))
            && (!l.setOver ==> t.sets == s.sets)
            && t.games == g
            && (t.isTiebreak <==> !l.setOver && g == Pair(6, 6))
            && (t.isTiebreak ==> t.points == Pair(0, 0) && t.tiebreakPoints == 0 && t.tiebreakServer == Some(s.server))
            && (!t.isTiebreak ==>
                  t.points == s.points && t.tiebreakPoints == s.tiebreakPoints && t.tiebreakServer == s.tiebreakServer)
  {
    GameCallMeansWon(s.points, ServerSide(cfg, s));
  }

  /** `log_point` inside a tiebreak: once the tiebreak is decided, the side
      ahead on points gains exactly one game and one set, the tiebreak
      ends, and the game and the set are both reported over; until then
      the score does not move. The tiebreak server is not cleared. */
  lemma TiebreakPointLogged(cfg: Config, s: State)
    requires s.isTiebreak
    ensures var l := LogPointS(cfg, s);
            var t := l.state;
            var w := Leader(s.points);
            && l.gameOver == l.setOver == SetOver(cfg, s)
            && (l.setOver ==> t.games == s.games.Bump(w) && t.sets == s.sets.Bump(w) && !t.isTiebreak)
            && (l.setOver ==> s.points.At(w) > s.points.At(Other(w)))
            && (!l.setOver ==> t.games == s.games && t.sets == s.sets && t.isTiebreak)
            && t.points == s.points && t.tiebreakServer == s.tiebreakServer
  {
  }

  /** `log_point` appends exactly one record, carrying the point score as
      it stood before the point was booked and the seats, and keeps the
      seats, the shots and the set history. */
  lemma PointRecorded(cfg: Config, s: State)
    ensures var t := LogPointS(cfg, s).state;
            && t.pointLog == s.pointLog + [t.pointLog[|s.pointLog|]]
            && t.pointLog[|s.pointLog|].pointScore == FormatPoints(s.points, ServerSide(cfg, s), s.isTiebreak)
            && t.pointLog[|s.pointLog|].server == s.server.name
            && t.pointLog[|s.pointLog|].receiver == s.receiver.name
            && t.server == s.server && t.receiver == s.receiver
            && t.setHistory == s.setHistory && t.totalShots == s.totalShots
  {
    AdvanceKeeps(cfg, s);
  }

  /** The score update of `log_point` leaves the log, the seats, the set
      history, the shots and the serve counts alone. */
  lemma AdvanceKeeps(cfg: Config, s: State)
    ensures var t := Advance(cfg, s).state;
            && t.pointLog == s.pointLog && t.server == s.server && t.receiver == s.receiver
            && t.setHistory == s.setHistory && t.totalShots == s.totalShots && t.stats == s.stats
  {
  }

  /** One point followed by its bookkeeping leaves both players seated,
      one serving and one receiving, books one shot with its record,
      leaves the set history alone, and moves the sets only when the set
      ends, by one for one side. */
  lemma PointThenLog(cfg: Config, s: State, d: Draw)
    requires Seated(cfg, s)
    ensures var p := PlayPointS(cfg, s, d);
            var l := LogPointS(cfg, p.state);
            && Seated(cfg, l.state) && Books(s, l.state, 1) && l.state.setHistory == s.setHistory
            && (l.setOver ==> OneMore(s.sets, l.state.sets))
            && (!l.setOver ==> l.state.sets == s.sets)
  {
    var p := PlayPointS(cfg, s, d);
    TiebreakRotation(cfg, s, d);
    PointGoesToWinner(cfg, s, d);
    PointRecorded(cfg, p.state);
    if p.state.isTiebreak {
      TiebreakPointLogged(cfg, p.state);
    } else {
      OrdinaryPointLogged(cfg, p.state);
    }
  }

  // ---------------------------------------------------------------------
  // Games, sets and the match

  /** The resets at the top of `play_game`: the points only outside a
      tiebreak, the per-game stats of the server only, and the streak. */
  lemma StartGameFacts(cfg: Config, s: State)
    requires Seated(cfg, s)
    ensures var t := StartGame(cfg, s);
            var i := ServerSide(cfg, s);
            && Seated(cfg, t) && Books(s, t, 0)
            && t.points == (if s.isTiebreak then s.points else Pair(0, 0))
            && t.stats.At(i) == NoCounts && t.stats.At(Other(i)) == s.stats.At(Other(i))
            && t.lastPointWinner == None && t.consecutivePoints == 0 && !t.lastPointAce
            && t.sets == s.sets && t.games == s.games && t.setHistory == s.setHistory
            && t.isTiebreak == s.isTiebreak
  {
  }

  /** The end of `play_set`: exactly one snapshot, of the stats as they
      stood, joins the history; both players' stats are zeroed; games and
      points restart; the tiebreak is cleared and the seats change. */
  lemma CloseSetFacts(cfg: Config, s: State)
    requires Seated(cfg, s)
    ensures var t := CloseSet(s);
            && Seated(cfg, t) && Books(s, t, 0)
            && t.setHistory == s.setHistory + [s.stats]
            && t.stats == NoStats && t.games == Pair(0, 0) && t.points == Pair(0, 0)
            && !t.isTiebreak && t.tiebreakPoints == 0 && t.sets == s.sets
            && t.server == s.receiver && t.receiver == s.server
  {
  }

  /** `play_game`, by induction over the point outcomes: both players
      stay seated, one serving and one receiving, every point is one shot
      and one record, the set history does not change, and the sets move,
      by one for one side, only in the game that ends the set. A game cut short by the end of the outcomes has
      used them all. */
  lemma {:induction false} RallyFacts(cfg: Config, s: State, draws: seq<Draw>, atStart: bool)
    requires Seated(cfg, s)
    ensures var r := RallyS(cfg, s, draws, atStart);
            && Seated(cfg, r.state) && Books(s, r.state, r.used) && r.state.setHistory == s.setHistory
            && (r.outcome.None? ==> r.used == |draws| && r.state.sets == s.sets)
            && (r.outcome.Some? && r.outcome.value.setOver ==> OneMore(s.sets, r.state.sets))
            && (r.outcome.Some? && !r.outcome.value.setOver ==> r.state.sets == s.sets)
    decreases |draws|, if atStart then 1 else 0
  {
    if atStart {
      StartGameFacts(cfg, s);
      RallyFacts(cfg, StartGame(cfg, s), draws, false);
      BooksChain(s, StartGame(cfg, s), RallyS(cfg, s, draws, atStart).state, 0, RallyS(cfg, s, draws, atStart).used);
    } else if |draws| > 0 {
      var p := PlayPointS(cfg, s, draws[0]);
      var l := LogPointS(cfg, p.state);
      PointThenLog(cfg, s, draws[0]);
      if !(l.gameOver || l.setOver) {
        var r := RallyS(cfg, l.state, draws[1..], false);
        RallyFacts(cfg, l.state, draws[1..], false);
        BooksChain(s, l.state, r.state, 1, r.used);
      }
    }
  }

  /** The point loop of `play_game` from a state outside a tiebreak and
      not at six games all, which is how every game but a tiebreak starts.
      The seats stay put until the game ends; then the server and the
      receiver are exchanged exactly when the set is not over and no
      tiebreak has begun. Until then only the server can have served, so
      its ace and double-fault counts grow by at most one per point. */
  lemma {:induction false} RallyOutsideTiebreak(cfg: Config, s: State, draws: seq<Draw>)
    requires Seated(cfg, s) && !s.isTiebreak && s.games != Pair(6, 6)
    ensures var r := RallyS(cfg, s, draws, false);
            var i := ServerSide(cfg, s);
            && (r.outcome.Some? && !r.outcome.value.setOver && !r.state.isTiebreak ==>
                  r.state.server == s.receiver && r.state.receiver == s.server)
            && (r.outcome.None? || r.outcome.value.setOver || r.state.isTiebreak ==>
                  r.state.server == s.server && r.state.receiver == s.receiver)
            && r.state.stats.At(i).aces <= s.stats.At(i).aces + r.used
            && r.state.stats.At(i).doubleFaults <= s.stats.At(i).doubleFaults + r.used
    decreases |draws|
  {
    if |draws| > 0 {
      var p := PlayPointS(cfg, s, draws[0]);
      var l := LogPointS(cfg, p.state);
      TiebreakRotation(cfg, s, draws[0]);
      PointGoesToWinner(cfg, s, draws[0]);
      ServeCounted(cfg, s, draws[0]);
      PointThenLog(cfg, s, draws[0]);
      PointRecorded(cfg, p.state);
      AdvanceKeeps(cfg, p.state);
      OrdinaryPointLogged(cfg, p.state);
      if !(l.gameOver || l.setOver) {
        RallyOutsideTiebreak(cfg, l.state, draws[1..]);
      }
    }
  }

  /** A tiebreak game can only end with the set: `log_point` reports the
      game over inside a tiebreak only together with the set. */
  lemma {:induction false} RallyInTiebreak(cfg: Config, s: State, draws: seq<Draw>)
    requires Seated(cfg, s) && s.isTiebreak
    ensures var r := RallyS(cfg, s, draws, false);
            r.outcome.Some? ==> r.outcome.value.setOver
    decreases |draws|
  {
    if |draws| > 0 {
      var p := PlayPointS(cfg, s, draws[0]);
      var l := LogPointS(cfg, p.state);
      PointGoesToWinner(cfg, s, draws[0]);
      PointThenLog(cfg, s, draws[0]);
      TiebreakPointLogged(cfg, p.state);
      if !(l.gameOver || l.setOver) {
        RallyInTiebreak(cfg, l.state, draws[1..]);
      }
    }
  }

  /** `play_game`'s change of server: a game that started outside a
      tiebreak hands the serve to the receiver exactly when it ends
      neither the set nor in a tiebreak; otherwise the seats are as they
      were. A tiebreak game ends only with its set, which changes the
      server in `play_set`. */
  lemma GameServerSwap(cfg: Config, s: State, draws: seq<Draw>)
    requires Seated(cfg, s)
    ensures var r := GameS(cfg, s, draws);
            && (!s.isTiebreak && s.games != Pair(6, 6) && r.outcome.Some? ==>
                  if !r.outcome.value.setOver && !r.state.isTiebreak
                  then r.state.server == s.receiver && r.state.receiver == s.server
                  else r.state.server == s.server && r.state.receiver == s.receiver)
            && (s.isTiebreak && r.outcome.Some? ==> r.outcome.value.setOver)
  {
    StartGameFacts(cfg, s);
    if s.isTiebreak {
      RallyInTiebreak(cfg, StartGame(cfg, s), draws);
    } else if s.games != Pair(6, 6) {
      RallyOutsideTiebreak(cfg, StartGame(cfg, s), draws);
    }
  }

  /** `play_game` zeroes the server's aces and double faults before the
      first point, so after a game that started outside a tiebreak the
      server's counts are at most the points of that game, whatever they
      were before it: what the server served in its earlier service games
      of the set is gone from the stats that `play_set` will archive. */
  lemma ServiceGameCounts(cfg: Config, s: State, draws: seq<Draw>)
    requires Seated(cfg, s) && !s.isTiebreak && s.games != Pair(6, 6)
    ensures var r := GameS(cfg, s, draws);
            var i := ServerSide(cfg, s);
            r.state.stats.At(i).aces <= r.used && r.state.stats.At(i).doubleFaults <= r.used
  {
    StartGameFacts(cfg, s);
    RallyOutsideTiebreak(cfg, StartGame(cfg, s), draws);
  }

  /** `play_set`: when it ends, the sets have moved by one for one side,
      exactly one snapshot has joined the history, and the next set starts
      from nothing; when the outcomes run out first, the sets and the
      history are as they were. */
  lemma {:induction false} SetFacts(cfg: Config, s: State, draws: seq<Draw>)
    requires Seated(cfg, s)
    ensures var r := SetLoopS(cfg, s, draws);
            && Seated(cfg, r.state) && Books(s, r.state, r.used)
            && (r.outcome.None? ==> r.used == |draws| && r.state.sets == s.sets && r.state.setHistory == s.setHistory)
            && (r.outcome.Some? ==>
                  && OneMore(s.sets, r.state.sets)
                  && |r.state.setHistory| == |s.setHistory| + 1 && s.setHistory <= r.state.setHistory
                  && r.state.games == Pair(0, 0) && r.state.points == Pair(0, 0) && r.state.stats == NoStats
                  && !r.state.isTiebreak && r.state.tiebreakPoints == 0)
    decreases |draws|
  {
    var g := GameS(cfg, s, draws);
    RallyFacts(cfg, s, draws, true);
    match g.outcome
    case None =>
    case Some(e) =>
      if e.setOver {
        CloseSetFacts(cfg, g.state);
        BooksChain(s, g.state, CloseSet(g.state), g.used, 0);
      } else {
        var r := SetLoopS(cfg, g.state, draws[g.used..]);
        SetFacts(cfg, g.state, draws[g.used..]);
        BooksChain(s, g.state, r.state, g.used, r.used);
      }
  }

  /** Room left before the match is decided: both set counts are below the
      number needed, or exactly one has just reached it. */
  predicate Undecided(cfg: Config, sets: Pair) {
    var target := SetsToWin(cfg.bestOf);
    sets.Max() < target || (sets.Max() == target && sets.first != sets.second)
  }

  /** The set loop of `play_match`: one snapshot per set played, and when
      it ends, the winner is one of the two players and has exactly the
      sets needed, while the other has fewer. */
  lemma {:induction false} MatchFacts(cfg: Config, s: State, draws: seq<Draw>)
    requires Seated(cfg, s) && Undecided(cfg, s.sets) && |s.setHistory| == s.sets.Sum()
    ensures var r := MatchLoopS(cfg, s, draws, None);
            && Seated(cfg, r.state) && Books(s, r.state, r.used)
            && |r.state.setHistory| == r.state.sets.Sum()
            && (r.outcome.None? ==> r.used == |draws|)
            && (r.outcome.Some? ==>
                  var w := SideOf(r.outcome.value, cfg.player1);
                  && (r.outcome.value == cfg.player1 || r.outcome.value == cfg.player2)
                  && r.state.sets.At(w) == SetsToWin(cfg.bestOf)
                  && r.state.sets.At(Other(w)) < SetsToWin(cfg.bestOf))
    decreases |draws|
  {
    if s.sets.Max() < SetsToWin(cfg.bestOf) {
      var st := SetLoopS(cfg, s, draws);
      SetFacts(cfg, s, draws);
      if st.outcome.Some? {
        var r := MatchLoopS(cfg, st.state, draws[st.used..], None);
        MatchFacts(cfg, st.state, draws[st.used..]);
        BooksChain(s, st.state, r.state, st.used, r.used);
      }
    }
  }

  /** `play_match` from its coin: every shot has its record, one snapshot
      per set, and a finished match has a winner with `best_of / 2 + 1`
      sets against fewer. */
  lemma PlayMatchFacts(cfg: Config, coin: bool, draws: seq<Draw>)
    requires cfg.player1.name != cfg.player2.name && cfg.bestOf >= 0
    ensures var r := PlayMatchS(cfg, coin, draws);
            && r.state.totalShots == r.used == |r.state.pointLog|
            && |r.state.setHistory| == r.state.sets.Sum()
            && (r.outcome.None? ==> r.used == |draws|)
            && (r.outcome.Some? ==>
                  var w := SideOf(r.outcome.value, cfg.player1);
                  && (r.outcome.value == cfg.player1 || r.outcome.value == cfg.player2)
                  && r.state.sets.At(w) == SetsToWin(cfg.bestOf)
                  && r.state.sets.At(Other(w)) < SetsToWin(cfg.bestOf))
  {
    SeatFacts(cfg, coin);
    var (server, receiver) := Seat(cfg, coin);
    MatchFacts(cfg, NewState(server, receiver), draws);
  }

  /** With an odd `best_of`, a finished match has played at most `best_of`
      sets. */
  lemma OddBestOfBoundsSets(cfg: Config, coin: bool, draws: seq<Draw>)
    requires cfg.player1.name != cfg.player2.name && cfg.bestOf >= 0 && cfg.bestOf % 2 == 1
    ensures var r := PlayMatchS(cfg, coin, draws);
            r.outcome.Some? ==> r.state.sets.Sum() <= cfg.bestOf
  {
    PlayMatchFacts(cfg, coin, draws);
  }
}
