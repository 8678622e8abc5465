/** `TennisMatch` (src/main.rs:18-327): the match state updated in place
    by `log_point`, `play_point`, `play_game`, `play_set` and `play_match`.
    Every method is proved to leave the state that the corresponding
    function of module Machine computes from the old state. */
module Simulator {
  import opened Wrappers
  import opened Rules
  import opened Machine

  class TennisMatch {
    const player1: Player
    const player2: Player
    const bestOf: int
    const grandSlam: bool
    var server: Option<Player>
    var receiver: Option<Player>
    var sets: Pair
    var games: Pair
    var points: Pair
    var setHistory: seq<PlayerStats>
    var totalShots: nat
    var pointLog: seq<PointRecord>
    var stats: PlayerStats
    var lastPointWinner: Option<Player>
    var consecutivePoints: nat
    var lastPointAce: bool
    var isTiebreak: bool
    var tiebreakPoints: nat
    var tiebreakServer: Option<Player>

    function Settings(): Config {
      Config(player1, player2, bestOf, grandSlam)
    }

    /** A server and a receiver have been chosen (`play_match` does it first). */
    predicate Serving()
      reads this
    {
      server.Some? && receiver.Some?
    }

    /** The fields, with the given players in the server and receiver seats. */
    function Snapshot(srv: Player, rcv: Player): State
      reads this
    {
      State(srv, rcv, sets, games, points, setHistory, totalShots, pointLog, stats,
            lastPointWinner, consecutivePoints, lastPointAce, isTiebreak, tiebreakPoints, tiebreakServer)
    }

    /** The abstract value of the match. */
    function Current(): State
      reads this
      requires Serving()
    {
      Snapshot(server.value, receiver.value)
    }

    function ServerIndex(): Side
      reads this
      requires server.Some?
    {
      SideOf(server.value, player1)
    }

    /** `TennisMatch::new`. */
    constructor (player1: Player, player2: Player, bestOf: int, grandSlam: bool)
      ensures Settings() == Config(player1, player2, bestOf, grandSlam)
      ensures server == None && receiver == None
      ensures forall srv, rcv :: Snapshot(srv, rcv) == NewState(srv, rcv)
    {
      this.player1 := player1;
      this.player2 := player2;
      this.bestOf := bestOf;
      this.grandSlam := grandSlam;
      server := None;
      receiver := None;
      sets := Pair(0, 0);
      games := Pair(0, 0);
      points := Pair(0, 0);
      setHistory := [];
      totalShots := 0;
      pointLog := [];
      stats := NoStats;
      lastPointWinner := None;
      consecutivePoints := 0;
      lastPointAce := false;
      isTiebreak := false;
      tiebreakPoints := 0;
      tiebreakServer := None;
    }

    /** `switch_server`. */
    method SwitchServer()
      modifies this`server, this`receiver
      ensures server == old(receiver) && receiver == old(server)
      ensures old(Serving()) ==> Serving() && Current() == Swapped(old(Current()))
    {
      server, receiver := receiver, server;
    }

    /** The start of `play_point`: the shot and the server's ace or double fault. */
    method TallyServe(kind: PointKind)
      requires Serving()
      modifies this`totalShots, this`stats
      ensures Serving() && Current() == CountServe(Settings(), old(Current()), kind)
    {
      totalShots := totalShots + 1;
      var side := ServerIndex();
      if kind == Ace {
        stats := stats.With(side, stats.At(side).(aces := stats.At(side).aces + 1));
      } else if kind == DoubleFault {
        stats := stats.With(side, stats.At(side).(doubleFaults := stats.At(side).doubleFaults + 1));
      }
    }

    /** The point to the winner's position, then the last-point flags and the streak. */
    method AwardPoint(winner: Player, ace: bool)
      requires Serving()
      modifies this`points, this`lastPointAce, this`consecutivePoints, this`lastPointWinner
      ensures Serving() && Current() == BookPoint(Settings(), old(Current()), winner, ace)
    {
      ghost var before := Current();
      var serverName := server.value.name;
      var isServerPlayer1 := serverName == player1.name;
      if winner.name == serverName {
        points := points.Bump(if isServerPlayer1 then 0 else 1);
      } else {
        points := points.Bump(if isServerPlayer1 then 1 else 0);
      }
      assert points == BookPoint(Settings(), before, winner, ace).points;
      lastPointAce := ace;
      if Some(winner) == lastPointWinner {
        consecutivePoints := consecutivePoints + 1;
      } else {
        consecutivePoints := 1;
      }
      lastPointWinner := Some(winner);
    }

    /** The tiebreak count at the end of `play_point`. */
    method CountTiebreakPoint()
      requires Serving()
      modifies this`tiebreakPoints, this`server, this`receiver
      ensures Serving() && Current() == RotateTiebreak(old(Current()))
    {
      if isTiebreak {
        tiebreakPoints := tiebreakPoints + 1;
        if tiebreakPoints % 2 == 1 {
          SwitchServer();
        }
      }
    }

    /** `play_point`, with the cascade's comparisons supplied as `d`. */
    method PlayPoint(d: Draw) returns (winner: Player)
      requires Serving()
      modifies this
      ensures Serving()
      ensures Played(Current(), winner) == PlayPointS(Settings(), old(Current()), d)
    {
      ghost var before := Current();
      var isAce, isDoubleFault;
      if d.ace {
        winner, isAce, isDoubleFault := server.value, true, false;
      } else if d.doubleFault {
        winner, isAce, isDoubleFault := receiver.value, false, true;
      } else if d.serveWon {
        winner, isAce, isDoubleFault := server.value, false, false;
      } else {
        winner, isAce, isDoubleFault := receiver.value, false, false;
      }
      assert winner == PointWinner(before, d) && isAce == (Classify(d) == Ace);
      TallyServe(if isAce then Ace else if isDoubleFault then DoubleFault else ServerWon);
      assert Current() == CountServe(Settings(), before, Classify(d));
      AwardPoint(winner, isAce);
      CountTiebreakPoint();
    }

    /** A decided tiebreak: game and set to the position ahead on points. */
    method DecideTiebreak()
      requires Serving()
      modifies this`games, this`sets, this`isTiebreak
      ensures Serving() && Current() == CloseTiebreak(old(Current()))
    {
      var winningIndex := if points.first > points.second then 0 else 1;
      games := games.Bump(winningIndex);
      sets := sets.Bump(winningIndex);
      isTiebreak := false;
    }

    /** A won game to the position ahead on points. */
    method AddGame()
      requires Serving()
      modifies this`games
      ensures Serving() && Current() == CreditGame(old(Current()))
    {
      var winningIndex := if points.first > points.second then 0 else 1;
      games := games.Bump(winningIndex);
    }

    /** A won set to the position ahead on games. */
    method AddSet()
      requires Serving()
      modifies this`sets
      ensures Serving() && Current() == CreditSet(old(Current()))
    {
      var winningIndex := if games.first > games.second then 0 else 1;
      sets := sets.Bump(winningIndex);
    }

    /** Six games all: the tiebreak starts. */
    method StartTiebreak()
      requires Serving()
      modifies this`isTiebreak, this`points, this`tiebreakServer, this`tiebreakPoints
      ensures Serving() && Current() == EnterTiebreak(old(Current()))
    {
      isTiebreak := true;
      points := Pair(0, 0);
      tiebreakServer := server;
      tiebreakPoints := 0;
    }

    /** The point's record joins the log. */
    method PushRecord(pointScore: string)
      requires Serving()
      modifies this`pointLog
      ensures Serving() && Current() == AppendRecord(Settings(), old(Current()), pointScore)
    {
      var side := ServerIndex();
      pointLog := pointLog + [PointRecord(server.value.name, receiver.value.name, pointScore,
                                          FormatScore(games, side), FormatScore(sets, side),
                                          TiebreakTenths(games.Sum()))];
    }

    /** `log_point`: books the point into games and sets, enters or leaves
        a tiebreak, and appends the point's record. */
    method LogPoint() returns (gameOver: bool, setOver: bool)
      requires Serving()
      modifies this
      ensures Serving()
      ensures Logged(Current(), gameOver, setOver) == LogPointS(Settings(), old(Current()))
    {
      var pointScore := FormatPoints(points, ServerIndex(), isTiebreak);
      gameOver, setOver := false, false;
      if isTiebreak {
        if IsSetOver(isTiebreak, grandSlam, bestOf, sets, games, points) {
          setOver, gameOver := true, true;
          DecideTiebreak();
        }
      } else {
        GameCallMeansWon(points, ServerIndex());
        if pointScore == "GAME" {
          gameOver := true;
          AddGame();
        }
        if IsSetOver(isTiebreak, grandSlam, bestOf, sets, games, points) {
          setOver := true;
          AddSet();
        } else if games.first == 6 && games.second == 6 {
          StartTiebreak();
        }
      }
      PushRecord(pointScore);
    }

    /** The resets at the top of `play_game`. */
    method ResetForGame()
      requires Serving()
      modifies this`points, this`lastPointWinner, this`consecutivePoints, this`lastPointAce, this`stats
      ensures Serving() && Current() == StartGame(Settings(), old(Current()))
    {
      if !isTiebreak {
        points := Pair(0, 0);
      }
      lastPointWinner := None;
      consecutivePoints := 0;
      lastPointAce := false;
      stats := stats.With(ServerIndex(), NoCounts);
    }

    /** `play_game`: points until `log_point` reports the game or the set
        over, or until the supplied outcomes run out. */
    method PlayGame(draws: seq<Draw>) returns (outcome: Option<GameEnd>, used: nat)
      requires Serving()
      modifies this
      ensures Serving()
      ensures Run(Current(), used, outcome) == GameS(Settings(), old(Current()), draws)
    {
      ResetForGame();
      ghost var start := Current();
      used := 0;
      while used < |draws|
        invariant Serving() && used <= |draws|
        invariant var r := RallyS(Settings(), Current(), draws[used..], false);
                  Run(r.state, used + r.used, r.outcome) == RallyS(Settings(), start, draws, false)
        decreases |draws| - used
      {
        ghost var before := Current();
        var winner := PlayPoint(draws[used]);
        ghost var played := Played(Current(), winner);
        var gameOver, setOver := LogPoint();
        RallyNext(Settings(), before, draws, used, played, Logged(Current(), gameOver, setOver));
        used := used + 1;
        if gameOver || setOver {
          if !setOver && !isTiebreak {
            SwitchServer();
          }
          outcome := Some(GameEnd(winner, setOver));
          return;
        }
      }
      outcome := None;
    }

    /** The bookkeeping of `play_set` when the set is over. */
    method FinishSet()
      requires Serving()
      modifies this`stats, this`setHistory, this`games, this`points, this`isTiebreak,
               this`tiebreakPoints, this`server, this`receiver
      ensures Serving() && Current() == CloseSet(old(Current()))
    {
      ArchiveStats();
      ClearScores();
      SwitchServer();
    }

    /** The set's stats snapshot goes to the history, and the stats restart. */
    method ArchiveStats()
      requires Serving()
      modifies this`stats, this`setHistory
      ensures Serving()
      ensures Current() == old(Current()).(setHistory := old(setHistory) + [old(stats)], stats := NoStats)
    {
      var snapshot := stats;
      stats := NoStats;
      setHistory := setHistory + [snapshot];
    }

    /** Games, points and the tiebreak reset for the next set. */
    method ClearScores()
      requires Serving()
      modifies this`games, this`points, this`isTiebreak, this`tiebreakPoints
      ensures Serving()
      ensures Current() == old(Current()).(games := Pair(0, 0), points := Pair(0, 0), isTiebreak := false,
                                           tiebreakPoints := 0)
    {
      games := Pair(0, 0);
      points := Pair(0, 0);
      isTiebreak := false;
      tiebreakPoints := 0;
    }

    /** `play_set`: games until one ends the set, then the set's snapshot
        and resets. */
    method PlaySet(draws: seq<Draw>) returns (outcome: Option<Player>, used: nat)
      requires Serving()
      modifies this
      ensures Serving()
      ensures Run(Current(), used, outcome) == SetLoopS(Settings(), old(Current()), draws)
    {
      used := 0;
      ghost var start := Current();
      while true
        invariant Serving() && used <= |draws|
        invariant var r := SetLoopS(Settings(), Current(), draws[used..]);
                  Run(r.state, used + r.used, r.outcome) == SetLoopS(Settings(), start, draws)
        decreases |draws| - used
      {
        var game, n := PlayGame(draws[used..]);
        assert draws[used..][n..] == draws[used + n..];
        used := used + n;
        match game
        case None =>
          outcome := None;
          return;
        case Some(e) =>
          if e.setOver {
            FinishSet();
            outcome := Some(e.winner);
            return;
          }
      }
    }

    /** The first server is player 1 when the coin says so, player 2
        otherwise; the receiver is the other one (by name). */
    method TossCoin(coin: bool)
      modifies this`server, this`receiver
      ensures Serving() && Current() == old(Snapshot(Seat(Settings(), coin).0, Seat(Settings(), coin).1))
    {
      server := Some(if coin then player1 else player2);
      receiver := Some(if server.value.name == player1.name then player2 else player1);
    }

    /** `play_match`: the coin picks the first server, then sets until one
        player has won `best_of / 2 + 1` of them. */
    method PlayMatch(coin: bool, draws: seq<Draw>) returns (outcome: Option<Player>, used: nat)
      modifies this
      ensures Serving()
      ensures Run(Current(), used, outcome)
              == MatchLoopS(Settings(), old(Snapshot(Seat(Settings(), coin).0, Seat(Settings(), coin).1)), draws, None)
    {
      TossCoin(coin);
      ghost var start := Current();
      used := 0;
      while sets.Max() < SetsToWin(bestOf)
        invariant Serving() && used <= |draws|
        invariant var r := MatchLoopS(Settings(), Current(), draws[used..], None);
                  Run(r.state, used + r.used, r.outcome) == MatchLoopS(Settings(), start, draws, None)
        decreases |draws| - used
      {
        ghost var before, done := Current(), used;
        var setWinner, n := PlaySet(draws[used..]);
        used := used + n;
        MatchLoopAfterSet(Settings(), start, draws, done, before, Current(), n, used, setWinner);
        if setWinner.None? {
          outcome := None;
          return;
        }
      }
      outcome := Some(if sets.first > sets.second then player1 else player2);
    }
  }

  /** One pass of `play_game`'s loop: the point at `k`, its log, and then
      either the game's end or the rest of the rally. */
  lemma RallyNext(cfg: Config, s: State, draws: seq<Draw>, k: nat, p: Played, l: Logged)
    requires k < |draws|
    requires p == PlayPointS(cfg, s, draws[k]) && l == LogPointS(cfg, p.state)
    ensures l.gameOver || l.setOver ==>
              RallyS(cfg, s, draws[k..], false)
              == Run(if !l.setOver && !l.state.isTiebreak then Swapped(l.state) else l.state, 1,
                     Some(GameEnd(p.winner, l.setOver)))
    ensures !(l.gameOver || l.setOver) ==>
              var r := RallyS(cfg, l.state, draws[k + 1..], false);
              RallyS(cfg, s, draws[k..], false) == Run(r.state, r.used + 1, r.outcome)
  {
    assert draws[k..][0] == draws[k] && draws[k..][1..] == draws[k + 1..];
  }
}
