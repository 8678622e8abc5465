/** `simulate_match_parallel` (src/main.rs:512-568): `num_simulations /
    batch_size` batches, each simulated by `simulate_batch`, whose counters
    are merged under locks into shared totals. The batches run on a thread
    pool; here they run one after the other in index order, and the
    order-independence of the merge is proved separately. */
module Parallel {
  import opened Wrappers
  import opened Rules
  import opened Machine
  import opened Batch

  /** A counter, or zero when the map has no entry for it. */
  function Get(t: Tally, key: string): int {
    if key in t then t[key] else 0
  }

  /** Every entry of `batch` added into `global`, a missing key starting at
      zero (`*global.entry(player).or_insert(0) += n`). */
  function MergeCounts(global: Tally, batch: Tally): Tally {
    map k | k in global.Keys + batch.Keys :: Get(global, k) + Get(batch, k)
  }

  /** One batch's counters merged into the shared totals. */
  function MergeTotals(global: Totals, batch: Totals): Totals {
    Totals(MergeCounts(global.matchWins, batch.matchWins),
           global.totalShots + batch.totalShots,
           MergeCounts(global.totalAces, batch.totalAces),
           MergeCounts(global.totalDoubleFaults, batch.totalDoubleFaults))
  }

  /** `step` applied to `init` and each of `items` in turn. */
  function Fold<T>(step: (T, T) -> T, init: T, items: seq<T>): T {
    if |items| == 0 then init else step(Fold(step, init, items[..|items| - 1]), items[|items| - 1])
  }

  /** The batches' counters merged into `global`, first to last. */
  function Reduce(global: Totals, batches: seq<Totals>): Totals {
    Fold(MergeTotals, global, batches)
  }

  /** The merge loop over one batch's map: its entries are visited in
      whatever order the map yields them, each added to (or inserted into)
      the shared map. */
  method MergeInto(global: Tally, batch: Tally) returns (r: Tally)
    ensures r == MergeCounts(global, batch)
  {
    r := global;
    var done: set<string> := {};
    var pending := batch.Keys;
    while pending != {}
      invariant done <= batch.Keys && pending == batch.Keys - done
      invariant MergedSoFar(global, batch, done, r)
      decreases pending
    {
      var player :| player in pending;
      MergeOneMore(global, batch, done, r, player);
      r := r[player := Get(r, player) + batch[player]];
      done := done + {player};
      pending := pending - {player};
    }
    assert done == batch.Keys;
    MergedAll(global, batch, r);
  }

  /** `r` is `global` with the counters of the keys `done` of `batch` added. */
  predicate MergedSoFar(global: Tally, batch: Tally, done: set<string>, r: Tally)
    requires done <= batch.Keys
  {
    && r.Keys == global.Keys + done
    && forall k :: k in r ==> r[k] == Get(global, k) + (if k in done then batch[k] else 0)
  }

  /** One more visited entry adds its counter. */
  lemma MergeOneMore(global: Tally, batch: Tally, done: set<string>, r: Tally, player: string)
    requires done <= batch.Keys && player in batch.Keys - done && MergedSoFar(global, batch, done, r)
    ensures MergedSoFar(global, batch, done + {player}, r[player := Get(r, player) + batch[player]])
  {
  }

  /** Once every entry is visited, the map is the merge. */
  lemma MergedAll(global: Tally, batch: Tally, r: Tally)
    requires MergedSoFar(global, batch, batch.Keys, r)
    ensures r == MergeCounts(global, batch)
  {
  }

  /** The four merges one batch makes into the shared counters. */
  method MergeBatch(matchWins: Tally, totalShots: int, totalAces: Tally, totalDoubleFaults: Tally,
                    batch: Totals)
    returns (matchWins': Tally, totalShots': int, totalAces': Tally, totalDoubleFaults': Tally)
    ensures Totals(matchWins', totalShots', totalAces', totalDoubleFaults')
            == MergeTotals(Totals(matchWins, totalShots, totalAces, totalDoubleFaults), batch)
  {
    matchWins' := MergeInto(matchWins, batch.matchWins);
    totalShots' := totalShots + batch.totalShots;
    totalAces' := MergeInto(totalAces, batch.totalAces);
    totalDoubleFaults' := MergeInto(totalDoubleFaults, batch.totalDoubleFaults);
  }

  // ---------------------------------------------------------------------
  // The merge does not depend on the order in which the batches finish.

  /** Two items may be applied in either order. */
  ghost predicate RightCommutes<T(!new)>(step: (T, T) -> T) {
    forall a, b, c :: step(step(a, b), c) == step(step(a, c), b)
  }

  /** With such a step, any one item may be taken out and applied last. */
  lemma {:induction false} FoldTakeOut<T(!new)>(step: (T, T) -> T, init: T, items: seq<T>, j: nat)
    requires RightCommutes(step) && j < |items|
    ensures Fold(step, init, items) == step(Fold(step, init, items[..j] + items[j + 1..]), items[j])
  {
    var n := |items| - 1;
    if j == n {
      assert items[..j] + items[j + 1..] == items[..n];
    } else {
      var rest := items[..j] + items[j + 1..];
      var shorter := items[..n][..j] + items[..n][j + 1..];
      assert shorter == rest[..|rest| - 1] && rest[|rest| - 1] == items[n];
      FoldTakeOut(step, init, items[..n], j);
    }
  }

  /** With such a step, the result does not depend on the order of the items. */
  lemma {:induction false} FoldAnyOrder<T(!new)>(step: (T, T) -> T, init: T, xs: seq<T>, ys: seq<T>)
    requires RightCommutes(step) && multiset(xs) == multiset(ys)
    ensures Fold(step, init, xs) == Fold(step, init, ys)
    decreases |xs|
  {
    if |xs| > 0 {
      var n := |xs| - 1;
      assert xs == xs[..n] + [xs[n]];
      assert xs[n] in multiset(ys);
      var j :| 0 <= j < |ys| && ys[j] == xs[n];
      assert ys == ys[..j] + [ys[j]] + ys[j + 1..];
      var rest := ys[..j] + ys[j + 1..];
      assert multiset(ys) == multiset(ys[..j]) + multiset{ys[j]} + multiset(ys[j + 1..]);
      assert multiset(xs) == multiset(xs[..n]) + multiset{xs[n]};
      assert multiset(rest) == multiset(ys[..j]) + multiset(ys[j + 1..]);
      assert multiset(xs[..n]) == multiset(xs) - multiset{xs[n]};
      assert multiset(rest) == multiset(ys) - multiset{ys[j]};
      FoldAnyOrder(step, init, xs[..n], rest);
      FoldTakeOut(step, init, ys, j);
    } else {
      assert |ys| == |multiset(ys)| == 0;
    }
  }

  /** Two merges into the same map commute. */
  lemma MergeCountsSwap(g: Tally, a: Tally, b: Tally)
    ensures MergeCounts(MergeCounts(g, a), b) == MergeCounts(MergeCounts(g, b), a)
  {
    var x, y := MergeCounts(MergeCounts(g, a), b), MergeCounts(MergeCounts(g, b), a);
    assert x.Keys == y.Keys;
    forall k | k in x
      ensures x[k] == y[k]
    {
    }
  }

  /** So two batches may be merged into the totals in either order. */
  lemma MergeTotalsCommute()
    ensures RightCommutes(MergeTotals)
  {
    forall g, a, b
      ensures MergeTotals(MergeTotals(g, a), b) == MergeTotals(MergeTotals(g, b), a)
    {
      MergeCountsSwap(g.matchWins, a.matchWins, b.matchWins);
      MergeCountsSwap(g.totalAces, a.totalAces, b.totalAces);
      MergeCountsSwap(g.totalDoubleFaults, a.totalDoubleFaults, b.totalDoubleFaults);
    }
  }

  /** The shared totals are the same whatever order the batches are merged
      in: any permutation of the batches gives the same result. */
  lemma ReduceAnyOrder(g: Totals, xs: seq<Totals>, ys: seq<Totals>)
    requires multiset(xs) == multiset(ys)
    ensures Reduce(g, xs) == Reduce(g, ys)
  {
    MergeTotalsCommute();
    FoldAnyOrder(MergeTotals, g, xs, ys);
  }

  // ---------------------------------------------------------------------
  // Merging batches gives the totals of one long run of all their matches.

  /** Merging a zeroed counter map changes nothing. */
  lemma MergeZeroed(name1: string, name2: string, t: Tally)
    requires name1 in t && name2 in t
    ensures MergeCounts(t, Zeroed(name1, name2)) == t
  {
    assert MergeCounts(t, Zeroed(name1, name2)).Keys == t.Keys;
  }

  /** Crediting before or after a merge is the same. */
  lemma CreditMerge(t: Tally, u: Tally, key: string, n: int)
    requires key in u
    ensures MergeCounts(t, Credit(u, key, n)) == Credit(MergeCounts(t, u), key, n)
  {
    var x, y := MergeCounts(t, Credit(u, key, n)), Credit(MergeCounts(t, u), key, n);
    assert x.Keys == y.Keys;
    forall k | k in x
      ensures x[k] == y[k]
    {
    }
  }

  /** The same for two credits in a row. */
  lemma CreditTwiceMerge(t: Tally, u: Tally, key1: string, n1: int, key2: string, n2: int)
    requires key1 in u && key2 in u
    ensures MergeCounts(t, Credit(Credit(u, key1, n1), key2, n2))
            == Credit(Credit(MergeCounts(t, u), key1, n1), key2, n2)
  {
    CreditMerge(t, u, key1, n1);
    CreditMerge(t, Credit(u, key1, n1), key2, n2);
  }

  /** Adding a match to `u` and then merging `u` into `t` is adding the
      match to the merge. */
  lemma AddMatchMerge(name1: string, name2: string, t: Totals, u: Totals, m: MatchSummary)
    requires Keyed(t, name1, name2) && Keyed(u, name1, name2) && (m.winner == name1 || m.winner == name2)
    ensures Keyed(MergeTotals(t, u), name1, name2)
    ensures MergeTotals(t, AddMatch(name1, name2, u, m)) == AddMatch(name1, name2, MergeTotals(t, u), m)
  {
    CreditMerge(t.matchWins, u.matchWins, m.winner, 1);
    CreditTwiceMerge(t.totalAces, u.totalAces, name1, AcesIn(m.setHistory, 0), name2, AcesIn(m.setHistory, 1));
    CreditTwiceMerge(t.totalDoubleFaults, u.totalDoubleFaults, name1, DoubleFaultsIn(m.setHistory, 0),
                     name2, DoubleFaultsIn(m.setHistory, 1));
  }

  /** Accumulating matches onto any keyed totals is merging the batch's
      own totals (started from zero) into them. */
  lemma {:induction false} AccumulateFrom(name1: string, name2: string, t: Totals, ms: seq<MatchSummary>)
    requires Keyed(t, name1, name2) && WonByPlayers(ms, name1, name2)
    ensures Accumulate(name1, name2, t, ms)
            == MergeTotals(t, Accumulate(name1, name2, StartTotals(name1, name2), ms))
  {
    if |ms| == 0 {
      MergeZeroed(name1, name2, t.matchWins);
      MergeZeroed(name1, name2, t.totalAces);
      MergeZeroed(name1, name2, t.totalDoubleFaults);
    } else {
      var n := |ms| - 1;
      AccumulateFrom(name1, name2, t, ms[..n]);
      AddMatchMerge(name1, name2, t, Accumulate(name1, name2, StartTotals(name1, name2), ms[..n]), ms[n]);
    }
  }

  /** The matches of all batches, batch after batch. */
  function Flatten(bms: seq<seq<MatchSummary>>): (r: seq<MatchSummary>)
    ensures |r| == Count(bms)
  {
    if |bms| == 0 then [] else Flatten(bms[..|bms| - 1]) + bms[|bms| - 1]
  }

  /** The number of matches in all batches. */
  function Count(bms: seq<seq<MatchSummary>>): nat {
    if |bms| == 0 then 0 else Count(bms[..|bms| - 1]) + |bms[|bms| - 1]|
  }

  /** Every batch's matches were won by one of the two players. */
  predicate AllWonByPlayers(bms: seq<seq<MatchSummary>>, name1: string, name2: string) {
    forall i :: 0 <= i < |bms| ==> WonByPlayers(bms[i], name1, name2)
  }

  /** The totals each batch returns. */
  function BatchTotals(name1: string, name2: string, bms: seq<seq<MatchSummary>>): (r: seq<Totals>)
    requires AllWonByPlayers(bms, name1, name2)
    ensures |r| == |bms|
  {
    if |bms| == 0 then []
    else BatchTotals(name1, name2, bms[..|bms| - 1])
         + [Accumulate(name1, name2, StartTotals(name1, name2), bms[|bms| - 1])]
  }

  /** Merging the batches' totals into zeroed counters gives what one
      `simulate_batch` over all their matches, in order, would have counted. */
  lemma {:induction false} MergedIsSequential(name1: string, name2: string, bms: seq<seq<MatchSummary>>)
    requires AllWonByPlayers(bms, name1, name2)
    ensures WonByPlayers(Flatten(bms), name1, name2)
    ensures Reduce(StartTotals(name1, name2), BatchTotals(name1, name2, bms))
            == Accumulate(name1, name2, StartTotals(name1, name2), Flatten(bms))
  {
    if |bms| > 0 {
      var n := |bms| - 1;
      var start := StartTotals(name1, name2);
      MergedIsSequential(name1, name2, bms[..n]);
      var front := Flatten(bms[..n]);
      var bts := BatchTotals(name1, name2, bms);
      assert bts[..n] == BatchTotals(name1, name2, bms[..n]);
      AccumulateFrom(name1, name2, Accumulate(name1, name2, start, front), bms[n]);
      AccumulateConcat(name1, name2, start, front, bms[n]);
    }
  }

  // ---------------------------------------------------------------------
  // The batches of a run, and which of them write their logs.

  /** `save_logs` for batch `i`: the matches done through this batch are a
      multiple of `log_interval`. */
  predicate SavesLogs(i: nat, batchSize: nat, logInterval: nat)
    requires logInterval > 0
  {
    (i + 1) * batchSize % logInterval == 0
  }

  /** When `log_interval` is a multiple `q` of `batch_size`, exactly every
      `q`-th batch writes its log. */
  lemma SavesEvery(i: nat, batchSize: nat, q: nat)
    requires batchSize > 0 && q > 0
    ensures SavesLogs(i, batchSize, q * batchSize) <==> (i + 1) % q == 0
  {
    var x := i + 1;
    var d, r := x / q, x % q;
    assert x == q * d + r && 0 <= r < q;
    assert x * batchSize == (q * batchSize) * d + r * batchSize by {
      calc {
        x * batchSize;
        (q * d + r) * batchSize;
        (q * batchSize) * d + r * batchSize;
      }
    }
    assert 0 <= r * batchSize < q * batchSize;
    ModOfMultiplePlus(q * batchSize, d, r * batchSize);
    assert r * batchSize == 0 <==> r == 0;
  }

  /** `(m * d + r) % m == r` for a remainder `r` below `m`. */
  lemma ModOfMultiplePlus(m: nat, d: nat, r: nat)
    requires 0 <= r < m
    ensures (m * d + r) % m == r
  {
    var y := m * d + r;
    var d', r' := y / m, y % m;
    assert y == m * d' + r' && 0 <= r' < m;
    assert m * (d' - d) == r - r';
    SmallMultiple(m, d' - d);
  }

  /** A multiple of `m` strictly between `-m` and `m` is zero. */
  lemma SmallMultiple(m: int, k: int)
    requires m > 0 && -m < m * k < m
    ensures k == 0
  {
  }

  /** The point logs the saving batches write, in batch order. */
  function SavedLogs(bms: seq<seq<MatchSummary>>, batchSize: nat, logInterval: nat): seq<PointRecord>
    requires logInterval > 0
  {
    if |bms| == 0 then []
    else
      var n := |bms| - 1;
      SavedLogs(bms[..n], batchSize, logInterval) + (if SavesLogs(n, batchSize, logInterval) then Logs(bms[n]) else [])
  }

  /** The batches of a run, each from its own coins and point outcomes;
      None once a batch does not finish. */
  function PlayBatches(cfg: Config, coins: seq<seq<bool>>, draws: seq<seq<seq<Draw>>>)
    : (r: Option<seq<seq<MatchSummary>>>)
    requires |coins| == |draws|
    requires forall i :: 0 <= i < |coins| ==> |coins[i]| == |draws[i]|
    ensures r.Some? ==> |r.value| == |coins| && AllWonByPlayers(r.value, cfg.player1.name, cfg.player2.name)
    ensures r.Some? ==> forall i :: 0 <= i < |coins| ==> |r.value[i]| == |coins[i]|
  {
    if |coins| == 0 then Some([])
    else
      var n := |coins| - 1;
      match PlayBatches(cfg, coins[..n], draws[..n])
      case None => None
      case Some(bms) =>
        match PlayAll(cfg, coins[n], draws[n])
        case None => None
        case Some(ms) => Some(bms + [ms])
  }

  /** The next batch of a run played after the first `i`. */
  lemma PlayBatchesNext(cfg: Config, coins: seq<seq<bool>>, draws: seq<seq<seq<Draw>>>, i: nat,
                        bms: seq<seq<MatchSummary>>)
    requires |coins| == |draws| && i < |coins|
    requires forall j :: 0 <= j < |coins| ==> |coins[j]| == |draws[j]|
    requires PlayBatches(cfg, coins[..i], draws[..i]) == Some(bms)
    ensures PlayBatches(cfg, coins[..i + 1], draws[..i + 1])
            == match PlayAll(cfg, coins[i], draws[i])
               case None => None
               case Some(ms) => Some(bms + [ms])
  {
    assert coins[..i + 1][..i] == coins[..i] && draws[..i + 1][..i] == draws[..i];
    assert coins[..i + 1][i] == coins[i] && draws[..i + 1][i] == draws[i];
  }

  /** A run whose first `i` batches do not all finish does not finish. */
  lemma {:induction false} PlayBatchesStops(cfg: Config, coins: seq<seq<bool>>, draws: seq<seq<seq<Draw>>>,
                                            i: nat)
    requires |coins| == |draws| && i <= |coins|
    requires forall j :: 0 <= j < |coins| ==> |coins[j]| == |draws[j]|
    requires PlayBatches(cfg, coins[..i], draws[..i]).None?
    ensures PlayBatches(cfg, coins, draws).None?
    decreases |coins| - i
  {
    if i == |coins| {
      assert coins[..i] == coins && draws[..i] == draws;
    } else {
      var n := |coins| - 1;
      assert coins[..n][..i] == coins[..i] && draws[..n][..i] == draws[..i];
      PlayBatchesStops(cfg, coins[..n], draws[..n], i);
    }
  }

  /** One more batch is merged into what the earlier batches left. */
  lemma ReduceStep(name1: string, name2: string, g: Totals, bms: seq<seq<MatchSummary>>, ms: seq<MatchSummary>)
    requires AllWonByPlayers(bms, name1, name2) && WonByPlayers(ms, name1, name2)
    ensures AllWonByPlayers(bms + [ms], name1, name2)
    ensures Reduce(g, BatchTotals(name1, name2, bms + [ms]))
            == MergeTotals(Reduce(g, BatchTotals(name1, name2, bms)),
                           Accumulate(name1, name2, StartTotals(name1, name2), ms))
  {
    assert (bms + [ms])[..|bms|] == bms;
  }

  /** One more batch writes its log after the earlier ones exactly when it saves. */
  lemma SavedLogsStep(bms: seq<seq<MatchSummary>>, ms: seq<MatchSummary>, batchSize: nat, logInterval: nat)
    requires logInterval > 0
    ensures SavedLogs(bms + [ms], batchSize, logInterval)
            == SavedLogs(bms, batchSize, logInterval)
               + (if SavesLogs(|bms|, batchSize, logInterval) then Logs(ms) else [])
  {
    assert (bms + [ms])[..|bms|] == bms;
  }

  /** `simulate_match_parallel`: `num_simulations / batch_size` batches, each
      played by `simulate_batch` and merged into the shared counters, the
      batches whose count of finished matches is a multiple of
      `log_interval` appending their logs to `saved`. Batch `i` plays from
      `coins[i]` and `draws[i]`. */
  method SimulateParallel(player1: Player, player2: Player, bestOf: int, grandSlam: bool, numSimulations: nat,
                          batchSize: nat, logInterval: nat, coins: seq<seq<bool>>, draws: seq<seq<seq<Draw>>>)
    returns (totals: Option<Totals>, saved: seq<PointRecord>)
    requires batchSize > 0 && logInterval > 0
    requires |coins| == |draws| == numSimulations / batchSize
    requires forall i :: 0 <= i < |coins| ==> |coins[i]| == |draws[i]| == batchSize
    ensures var bms := PlayBatches(Config(player1, player2, bestOf, grandSlam), coins, draws);
            && (totals.Some? <==> bms.Some?)
            && (bms.Some? ==>
                  && totals.value == Reduce(StartTotals(player1.name, player2.name),
                                            BatchTotals(player1.name, player2.name, bms.value))
                  && saved == SavedLogs(bms.value, batchSize, logInterval))
  {
    ghost var cfg := Config(player1, player2, bestOf, grandSlam);
    var matchWins := Zeroed(player1.name, player2.name);
    var totalShots := 0;
    var totalAces := Zeroed(player1.name, player2.name);
    var totalDoubleFaults := Zeroed(player1.name, player2.name);
    saved := [];
    ghost var bms: seq<seq<MatchSummary>> := [];
    for i := 0 to |coins|
      invariant PlayBatches(cfg, coins[..i], draws[..i]) == Some(bms)
      invariant AllWonByPlayers(bms, player1.name, player2.name) && |bms| == i
      invariant Totals(matchWins, totalShots, totalAces, totalDoubleFaults)
                == Reduce(StartTotals(player1.name, player2.name), BatchTotals(player1.name, player2.name, bms))
      invariant saved == SavedLogs(bms, batchSize, logInterval)
    {
      var saveLogs := (i + 1) * batchSize % logInterval == 0;
      var batch, log := SimulateBatch(player1, player2, bestOf, grandSlam, coins[i], draws[i]);
      PlayBatchesNext(cfg, coins, draws, i, bms);
      if batch.None? {
        PlayBatchesStops(cfg, coins, draws, i + 1);
        return None, saved;
      }
      ghost var ms := PlayAll(cfg, coins[i], draws[i]).value;
      ReduceStep(player1.name, player2.name, StartTotals(player1.name, player2.name), bms, ms);
      SavedLogsStep(bms, ms, batchSize, logInterval);
      matchWins, totalShots, totalAces, totalDoubleFaults :=
        MergeBatch(matchWins, totalShots, totalAces, totalDoubleFaults, batch.value);
      if saveLogs {
        saved := saved + log;
      }
      bms := bms + [ms];
    }
    assert coins[..|coins|] == coins && draws[..|draws|] == draws;
    totals := Some(Totals(matchWins, totalShots, totalAces, totalDoubleFaults));
  }

  /** `batch_size` matches in every batch make `batch_size` times the
      number of batches. */
  lemma {:induction false} CountBatches(bms: seq<seq<MatchSummary>>, batchSize: nat)
    requires forall i :: 0 <= i < |bms| ==> |bms[i]| == batchSize
    ensures Count(bms) == |bms| * batchSize
  {
    if |bms| > 0 {
      CountBatches(bms[..|bms| - 1], batchSize);
    }
  }

  /** The matches of a finished run each logged one record per shot. */
  lemma {:induction false} PlayBatchesShotsLogged(cfg: Config, coins: seq<seq<bool>>, draws: seq<seq<seq<Draw>>>)
    requires |coins| == |draws| && forall i :: 0 <= i < |coins| ==> |coins[i]| == |draws[i]|
    requires cfg.player1.name != cfg.player2.name && cfg.bestOf >= 0
    ensures var r := PlayBatches(cfg, coins, draws);
            r.Some? ==> ShotsLogged(Flatten(r.value))
  {
    if |coins| > 0 {
      var n := |coins| - 1;
      PlayBatchesShotsLogged(cfg, coins[..n], draws[..n]);
      PlayAllShotsLogged(cfg, coins[n], draws[n]);
    }
  }

  /** The log of matches `ms1` then `ms2` is their two logs one after the other. */
  lemma {:induction false} LogsConcat(ms1: seq<MatchSummary>, ms2: seq<MatchSummary>)
    ensures Logs(ms1 + ms2) == Logs(ms1) + Logs(ms2)
    decreases |ms2|
  {
    if |ms2| == 0 {
      assert ms1 + ms2 == ms1;
    } else {
      var n := |ms2| - 1;
      assert (ms1 + ms2)[..|ms1 + ms2| - 1] == ms1 + ms2[..n];
      LogsConcat(ms1, ms2[..n]);
    }
  }

  /** When `log_interval` divides `batch_size`, every batch saves, and the
      saved log is the log of every match, batch after batch. */
  lemma {:induction false} SavedEverything(bms: seq<seq<MatchSummary>>, batchSize: nat, logInterval: nat)
    requires logInterval > 0 && batchSize % logInterval == 0
    ensures SavedLogs(bms, batchSize, logInterval) == Logs(Flatten(bms))
  {
    if |bms| > 0 {
      var n := |bms| - 1;
      SavedEverything(bms[..n], batchSize, logInterval);
      SavesMultiple(n, batchSize, logInterval);
      LogsConcat(Flatten(bms[..n]), bms[n]);
    }
  }

  /** A batch always saves when `log_interval` divides `batch_size`. */
  lemma SavesMultiple(i: nat, batchSize: nat, logInterval: nat)
    requires logInterval > 0 && batchSize % logInterval == 0
    ensures SavesLogs(i, batchSize, logInterval)
  {
    var q := batchSize / logInterval;
    assert batchSize == logInterval * q;
    assert (i + 1) * batchSize == logInterval * ((i + 1) * q);
    ModOfMultiplePlus(logInterval, (i + 1) * q, 0);
  }

  /** Between two different players, the totals of a finished run are those
      of one long batch of all its matches: the two win counters add up to
      the matches played, `batch_size` for each batch, and the shot total
      is the number of point records logged. */
  lemma RunTotals(cfg: Config, coins: seq<seq<bool>>, draws: seq<seq<seq<Draw>>>, batchSize: nat)
    requires |coins| == |draws|
    requires forall i :: 0 <= i < |coins| ==> |coins[i]| == |draws[i]| == batchSize
    requires cfg.player1.name != cfg.player2.name && cfg.bestOf >= 0
    requires PlayBatches(cfg, coins, draws).Some?
    ensures var bms := PlayBatches(cfg, coins, draws).value;
            var name1, name2 := cfg.player1.name, cfg.player2.name;
            var t := Reduce(StartTotals(name1, name2), BatchTotals(name1, name2, bms));
            && WonByPlayers(Flatten(bms), name1, name2)
            && t == Accumulate(name1, name2, StartTotals(name1, name2), Flatten(bms))
            && t.matchWins[name1] + t.matchWins[name2] == |coins| * batchSize
            && t.totalShots == |Logs(Flatten(bms))|
  {
    var bms := PlayBatches(cfg, coins, draws).value;
    var name1, name2 := cfg.player1.name, cfg.player2.name;
    MergedIsSequential(name1, name2, bms);
    CountBatches(bms, batchSize);
    WinsAddUp(name1, name2, Flatten(bms));
    PlayBatchesShotsLogged(cfg, coins, draws);
    ShotsMatchLog(name1, name2, StartTotals(name1, name2), Flatten(bms));
  }
}
