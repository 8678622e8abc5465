/** `simulate_batch` (src/main.rs:437-472): a fixed number of matches, each
    on a fresh `TennisMatch`, whose winners, shots, aces and double faults
    are accumulated into name-keyed counters, and whose point logs are
    concatenated for the log sink. */
module Batch {
  import opened Wrappers
  import opened Rules
  import opened Machine
  import opened MatchFacts
  import Simulator

  /** A `HashMap<String, i32>` of per-player counters. */
  type Tally = map<string, int>

  /** What the batch keeps of one finished match: the winner's name, the
      shots, the per-set stats snapshots and the point log. */
  datatype MatchSummary = MatchSummary(winner: string, shots: nat, setHistory: seq<PlayerStats>,
                                       pointLog: seq<PointRecord>)

  /** The four accumulators the batch returns. */
  datatype Totals = Totals(matchWins: Tally, totalShots: int, totalAces: Tally, totalDoubleFaults: Tally)

  /** A counter map with both players at zero. */
  function Zeroed(name1: string, name2: string): Tally {
    map[name1 := 0][name2 := 0]
  }

  function StartTotals(name1: string, name2: string): Totals {
    Totals(Zeroed(name1, name2), 0, Zeroed(name1, name2), Zeroed(name1, name2))
  }

  /** Every counter map has an entry for each of the two players, so the
      `get_mut(..).unwrap()` of the batch loop finds it. */
  predicate Keyed(t: Totals, name1: string, name2: string) {
    && name1 in t.matchWins && name2 in t.matchWins
    && name1 in t.totalAces && name2 in t.totalAces
    && name1 in t.totalDoubleFaults && name2 in t.totalDoubleFaults
  }

  /** The aces of position `i` summed over a match's set snapshots.
      The source sums aces and double faults in two separate passes over
      `set_history` (src/main.rs:458-470); this function and
      DoubleFaultsIn below are those two sums, one per counter. */
  function AcesIn(history: seq<PlayerStats>, i: Side): nat {
    if |history| == 0 then 0 else AcesIn(history[..|history| - 1], i) + history[|history| - 1].At(i).aces
  }

  /** The double faults of position `i` summed over a match's set snapshots. */
  function DoubleFaultsIn(history: seq<PlayerStats>, i: Side): nat {
    if |history| == 0 then 0
    else DoubleFaultsIn(history[..|history| - 1], i) + history[|history| - 1].At(i).doubleFaults
  }

  /** Every match was won by one of the two players. */
  predicate WonByPlayers(ms: seq<MatchSummary>, name1: string, name2: string) {
    forall i :: 0 <= i < |ms| ==> ms[i].winner == name1 || ms[i].winner == name2
  }

  /** `*counter.get_mut(key).unwrap() += n`. */
  function Credit(t: Tally, key: string, n: int): (r: Tally)
    requires key in t
    ensures r.Keys == t.Keys
  {
    t[key := t[key] + n]
  }

  /** One match into the totals: a win for its winner, its shots, and for
      player 1 then player 2 the aces and double faults of its sets. */
  function AddMatch(name1: string, name2: string, t: Totals, m: MatchSummary): (r: Totals)
    requires Keyed(t, name1, name2) && (m.winner == name1 || m.winner == name2)
    ensures Keyed(r, name1, name2)
  {
    Totals(Credit(t.matchWins, m.winner, 1),
           t.totalShots + m.shots,
           Credit(Credit(t.totalAces, name1, AcesIn(m.setHistory, 0)), name2, AcesIn(m.setHistory, 1)),
           Credit(Credit(t.totalDoubleFaults, name1, DoubleFaultsIn(m.setHistory, 0)), name2,
                  DoubleFaultsIn(m.setHistory, 1)))
  }

  /** The matches added in order to the totals `t`. */
  function Accumulate(name1: string, name2: string, t: Totals, ms: seq<MatchSummary>): (r: Totals)
    requires Keyed(t, name1, name2) && WonByPlayers(ms, name1, name2)
    ensures Keyed(r, name1, name2)
  {
    if |ms| == 0 then t
    else AddMatch(name1, name2, Accumulate(name1, name2, t, ms[..|ms| - 1]), ms[|ms| - 1])
  }

  /** The point logs of the matches, one after the other. */
  function Logs(ms: seq<MatchSummary>): seq<PointRecord> {
    if |ms| == 0 then [] else Logs(ms[..|ms| - 1]) + ms[|ms| - 1].pointLog
  }

  /** The summary of a finished match. */
  function Summary(r: Run<Player>): MatchSummary
    requires r.outcome.Some?
  {
    MatchSummary(r.outcome.value.name, r.state.totalShots, r.state.setHistory, r.state.pointLog)
  }

  /** The winner of a finished run of `play_match` is one of the two players. */
  lemma {:induction false} MatchLoopWinner(cfg: Config, s: State, draws: seq<Draw>)
    ensures var r := MatchLoopS(cfg, s, draws, None);
            r.outcome.Some? ==> r.outcome.value == cfg.player1 || r.outcome.value == cfg.player2
    decreases |draws|
  {
    if s.sets.Max() < SetsToWin(cfg.bestOf) {
      var st := SetLoopS(cfg, s, draws);
      if st.outcome.Some? {
        MatchLoopWinner(cfg, st.state, draws[st.used..]);
      }
    }
  }

  /** So is the winner of `play_match` from its coin. */
  lemma PlayMatchWinner(cfg: Config, coin: bool, draws: seq<Draw>)
    ensures var r := PlayMatchS(cfg, coin, draws);
            r.outcome.Some? ==> r.outcome.value == cfg.player1 || r.outcome.value == cfg.player2
  {
    MatchLoopWinner(cfg, NewState(Seat(cfg, coin).0, Seat(cfg, coin).1), draws);
  }

  /** One match of a batch from its coin and point outcomes: its summary,
      or None if the outcomes run out before it ends. */
  function PlayOne(cfg: Config, coin: bool, draws: seq<Draw>): (r: Option<MatchSummary>)
    ensures r.Some? ==> r.value.winner == cfg.player1.name || r.value.winner == cfg.player2.name
  {
    var run := PlayMatchS(cfg, coin, draws);
    PlayMatchWinner(cfg, coin, draws);
    if run.outcome.None? then None else Some(Summary(run))
  }

  /** The matches of a batch, played in order; None once a match runs out
      of outcomes before it ends. */
  function PlayAll(cfg: Config, coins: seq<bool>, draws: seq<seq<Draw>>): (r: Option<seq<MatchSummary>>)
    requires |coins| == |draws|
    ensures r.Some? ==> |r.value| == |coins| && WonByPlayers(r.value, cfg.player1.name, cfg.player2.name)
  {
    if |coins| == 0 then Some([])
    else
      var n := |coins| - 1;
      match PlayAll(cfg, coins[..n], draws[..n])
      case None => None
      case Some(ms) =>
        match PlayOne(cfg, coins[n], draws[n])
        case None => None
        case Some(m) => Some(ms + [m])
  }

  /** A batch whose first `k` matches do not all finish does not finish. */
  lemma {:induction false} PlayAllStops(cfg: Config, coins: seq<bool>, draws: seq<seq<Draw>>, k: nat)
    requires |coins| == |draws| && k <= |coins|
    requires PlayAll(cfg, coins[..k], draws[..k]).None?
    ensures PlayAll(cfg, coins, draws).None?
    decreases |coins| - k
  {
    if k == |coins| {
      assert coins[..k] == coins && draws[..k] == draws;
    } else {
      var n := |coins| - 1;
      assert coins[..n][..k] == coins[..k] && draws[..n][..k] == draws[..k];
      PlayAllStops(cfg, coins[..n], draws[..n], k);
    }
  }

  /** The next match of a batch played after the first `k`. */
  lemma PlayAllNext(cfg: Config, coins: seq<bool>, draws: seq<seq<Draw>>, k: nat, ms: seq<MatchSummary>)
    requires |coins| == |draws| && k < |coins|
    requires PlayAll(cfg, coins[..k], draws[..k]) == Some(ms)
    ensures PlayAll(cfg, coins[..k + 1], draws[..k + 1])
            == match PlayOne(cfg, coins[k], draws[k])
               case None => None
               case Some(m) => Some(ms + [m])
  {
    assert coins[..k + 1][..k] == coins[..k] && draws[..k + 1][..k] == draws[..k];
    assert coins[..k + 1][k] == coins[k] && draws[..k + 1][k] == draws[k];
  }

  /** One more match adds itself to the totals and its point log to the log. */
  lemma AccumulateStep(name1: string, name2: string, t: Totals, ms: seq<MatchSummary>, m: MatchSummary)
    requires Keyed(t, name1, name2)
    requires WonByPlayers(ms, name1, name2) && (m.winner == name1 || m.winner == name2)
    ensures WonByPlayers(ms + [m], name1, name2)
    ensures Accumulate(name1, name2, t, ms + [m]) == AddMatch(name1, name2, Accumulate(name1, name2, t, ms), m)
    ensures Logs(ms + [m]) == Logs(ms) + m.pointLog
  {
    assert (ms + [m])[..|ms|] == ms;
  }

  /** One iteration's match: a fresh `TennisMatch` played to the end. */
  method RunMatch(player1: Player, player2: Player, bestOf: int, grandSlam: bool, coin: bool, draws: seq<Draw>)
    returns (summary: Option<MatchSummary>)
    ensures summary == PlayOne(Config(player1, player2, bestOf, grandSlam), coin, draws)
  {
    var matchSim := new Simulator.TennisMatch(player1, player2, bestOf, grandSlam);
    var winner, used := matchSim.PlayMatch(coin, draws);
    if winner.None? {
      return None;
    }
    summary := Some(MatchSummary(winner.value.name, matchSim.totalShots, matchSim.setHistory, matchSim.pointLog));
  }

  /** The counters after one match of the batch loop: the winner's win, the
      shots, and the aces and double faults of player 1, then of player 2. */
  method AddToTotals(name1: string, name2: string, matchWins: Tally, totalShots: int, totalAces: Tally,
                     totalDoubleFaults: Tally, m: MatchSummary)
    returns (matchWins': Tally, totalShots': int, totalAces': Tally, totalDoubleFaults': Tally)
    requires Keyed(Totals(matchWins, totalShots, totalAces, totalDoubleFaults), name1, name2)
    requires m.winner == name1 || m.winner == name2
    ensures Totals(matchWins', totalShots', totalAces', totalDoubleFaults')
            == AddMatch(name1, name2, Totals(matchWins, totalShots, totalAces, totalDoubleFaults), m)
  {
    matchWins' := Credit(matchWins, m.winner, 1);
    totalShots' := totalShots + m.shots;
    totalAces' := Credit(totalAces, name1, AcesIn(m.setHistory, 0));
    totalDoubleFaults' := Credit(totalDoubleFaults, name1, DoubleFaultsIn(m.setHistory, 0));
    totalAces' := Credit(totalAces', name2, AcesIn(m.setHistory, 1));
    totalDoubleFaults' := Credit(totalDoubleFaults', name2, DoubleFaultsIn(m.setHistory, 1));
  }

  /** A finished match taken into the batch's counters and log. */
  method Absorb(name1: string, name2: string,
                matchWins: Tally, totalShots: int, totalAces: Tally, totalDoubleFaults: Tally,
                allPointLogs: seq<PointRecord>, ghost ms: seq<MatchSummary>, m: MatchSummary)
    returns (matchWins': Tally, totalShots': int, totalAces': Tally, totalDoubleFaults': Tally,
             allPointLogs': seq<PointRecord>)
    requires WonByPlayers(ms, name1, name2) && (m.winner == name1 || m.winner == name2)
    requires Totals(matchWins, totalShots, totalAces, totalDoubleFaults)
             == Accumulate(name1, name2, StartTotals(name1, name2), ms)
    requires allPointLogs == Logs(ms)
    ensures WonByPlayers(ms + [m], name1, name2)
    ensures Totals(matchWins', totalShots', totalAces', totalDoubleFaults')
            == Accumulate(name1, name2, StartTotals(name1, name2), ms + [m])
    ensures allPointLogs' == Logs(ms + [m])
  {
    AccumulateStep(name1, name2, StartTotals(name1, name2), ms, m);
    matchWins', totalShots', totalAces', totalDoubleFaults' :=
      AddToTotals(name1, name2, matchWins, totalShots, totalAces, totalDoubleFaults, m);
    allPointLogs' := allPointLogs + m.pointLog;
  }

  /** `simulate_batch`: each match on a fresh `TennisMatch`, its winner's
      counter raised by one, its shots, log, aces and double faults added.
      `log` is what the batch hands to the log sink. */
  method SimulateBatch(player1: Player, player2: Player, bestOf: int, grandSlam: bool,
                       coins: seq<bool>, draws: seq<seq<Draw>>)
    returns (totals: Option<Totals>, log: seq<PointRecord>)
    requires |coins| == |draws|
    ensures var ms := PlayAll(Config(player1, player2, bestOf, grandSlam), coins, draws);
            && (totals.Some? <==> ms.Some?)
            && (ms.Some? ==> totals.value == Accumulate(player1.name, player2.name,
                                                         StartTotals(player1.name, player2.name), ms.value)
                             && log == Logs(ms.value))
  {
    ghost var cfg := Config(player1, player2, bestOf, grandSlam);
    assert coins[..|coins|] == coins && draws[..|draws|] == draws;
    var matchWins := Zeroed(player1.name, player2.name);
    var totalShots := 0;
    var allPointLogs := [];
    var totalAces := Zeroed(player1.name, player2.name);
    var totalDoubleFaults := Zeroed(player1.name, player2.name);
    ghost var ms: seq<MatchSummary> := [];
    for k := 0 to |coins|
      invariant PlayAll(cfg, coins[..k], draws[..k]) == Some(ms)
      invariant Totals(matchWins, totalShots, totalAces, totalDoubleFaults)
                == Accumulate(player1.name, player2.name, StartTotals(player1.name, player2.name), ms)
      invariant allPointLogs == Logs(ms)
    {
      var summary := RunMatch(player1, player2, bestOf, grandSlam, coins[k], draws[k]);
      PlayAllNext(cfg, coins, draws, k, ms);
      if summary.None? {
        PlayAllStops(cfg, coins, draws, k + 1);
        return None, allPointLogs;
      }
      matchWins, totalShots, totalAces, totalDoubleFaults, allPointLogs :=
        Absorb(player1.name, player2.name, matchWins, totalShots, totalAces, totalDoubleFaults,
               allPointLogs, ms, summary.value);
      ms := ms + [summary.value];
    }
    totals := Some(Totals(matchWins, totalShots, totalAces, totalDoubleFaults));
    log := allPointLogs;
  }

  /** Totals after the matches `ms1` and then `ms2` are the totals after
      `ms2` started from the totals after `ms1`. */
  lemma {:induction false} AccumulateConcat(name1: string, name2: string, t: Totals, ms1: seq<MatchSummary>,
                                            ms2: seq<MatchSummary>)
    requires Keyed(t, name1, name2) && WonByPlayers(ms1, name1, name2) && WonByPlayers(ms2, name1, name2)
    ensures WonByPlayers(ms1 + ms2, name1, name2)
    ensures Accumulate(name1, name2, t, ms1 + ms2)
            == Accumulate(name1, name2, Accumulate(name1, name2, t, ms1), ms2)
    decreases |ms2|
  {
    if |ms2| == 0 {
      assert ms1 + ms2 == ms1;
    } else {
      var n := |ms2| - 1;
      var front := ms1 + ms2[..n];
      assert ms1 + ms2 == front + [ms2[n]];
      assert ms2 == ms2[..n] + [ms2[n]];
      AccumulateConcat(name1, name2, t, ms1, ms2[..n]);
      AccumulateStep(name1, name2, t, front, ms2[n]);
      AccumulateStep(name1, name2, Accumulate(name1, name2, t, ms1), ms2[..n], ms2[n]);
    }
  }

  /** With two different names, every match raises exactly one of the two
      win counters, so they add up to the number of matches. */
  lemma {:induction false} WinsAddUp(name1: string, name2: string, ms: seq<MatchSummary>)
    requires name1 != name2 && WonByPlayers(ms, name1, name2)
    ensures var r := Accumulate(name1, name2, StartTotals(name1, name2), ms);
            && r.matchWins[name1] >= 0 && r.matchWins[name2] >= 0
            && r.matchWins[name1] + r.matchWins[name2] == |ms|
  {
    if |ms| > 0 {
      WinsAddUp(name1, name2, ms[..|ms| - 1]);
    }
  }

  /** Every match's shots equal the records in its point log. */
  predicate ShotsLogged(ms: seq<MatchSummary>) {
    forall i :: 0 <= i < |ms| ==> ms[i].shots == |ms[i].pointLog|
  }

  /** So the batch's shot total grows by exactly the records of its log. */
  lemma {:induction false} ShotsMatchLog(name1: string, name2: string, t: Totals, ms: seq<MatchSummary>)
    requires Keyed(t, name1, name2) && WonByPlayers(ms, name1, name2) && ShotsLogged(ms)
    ensures Accumulate(name1, name2, t, ms).totalShots == t.totalShots + |Logs(ms)|
  {
    if |ms| > 0 {
      ShotsMatchLog(name1, name2, t, ms[..|ms| - 1]);
    }
  }

  /** Between two different players (and `best_of` not negative), every
      finished match of a batch logged one record per shot. */
  lemma {:induction false} PlayAllShotsLogged(cfg: Config, coins: seq<bool>, draws: seq<seq<Draw>>)
    requires |coins| == |draws| && cfg.player1.name != cfg.player2.name && cfg.bestOf >= 0
    ensures var r := PlayAll(cfg, coins, draws);
            r.Some? ==> ShotsLogged(r.value)
  {
    if |coins| > 0 {
      var n := |coins| - 1;
      PlayAllShotsLogged(cfg, coins[..n], draws[..n]);
      PlayMatchFacts(cfg, coins[n], draws[n]);
    }
  }
}
