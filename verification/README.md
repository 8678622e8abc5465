# Tennis match simulator: scoring machine, batches and merge

A model of the match simulator in `src/main.rs`. The model covers three parts:

- The `TennisMatch` scoring machine. A point is decided by the serve cascade (ace, double fault, serve won, serve lost). Each point is booked into points, games, tiebreaks and sets, and each point leaves one record in the point log. A coin decides the first server. A match ends when one player has won `best_of / 2 + 1` sets.
- `simulate_batch`. It plays a fixed number of matches and counts wins, shots, aces and double faults per player.
- `simulate_match_parallel`. It merges every batch's counters into shared totals. Batch `i` (counting from 0) writes its log when `(i + 1) * batch_size` is a multiple of `log_interval`. This depends on the batch's index, not on how many matches have finished.

As in the source (src/main.rs:273-274), `play_game` zeroes the server's aces and double faults at the start of each game. A set's snapshot in `set_history` therefore holds each player's counts only since the start of their last service game in that set (plus any tiebreak points). The batch totals sum these snapshots, so they do not count every ace and double fault of a match. `MatchFacts.ServiceGameCounts` states this.

Random draws are inputs. These are the coin of `play_match` and the three comparisons of `play_point`'s cascade (`Machine.Draw`). Each match is driven by a finite sequence of point outcomes. A run reports `None` when that sequence ends before the match does.

The modules:

- `Rules` (rules.dfy) holds the pure scoring tests and the score strings.
- `Decimal` (decimal.dfy) holds the decimal rendering of counts.
- `Machine` (machine.dfy) holds the scoring machine as functions of a `State` value. These functions are the reference definition.
- `MatchFacts` (match_facts.dfy) proves what that machine guarantees.
- `Simulator` (tennis_match.dfy) is the class `TennisMatch`. Its fields are updated in place, and each method is proved to reach the state the reference function computes from the old state.
- `Batch` (batch.dfy) and `Parallel` (parallel.dfy) model the batch loop and the merge. A proof shows the merged totals do not depend on the order in which batches finish. Another shows they equal one long sequential batch.

## Model

| member | source | states |
|---|---|---|
| Rules.Leader | src/main.rs:153-168 | the position the source credits when a level is won is strictly ahead whenever the two counts differ |
| Rules.LeaderIsLastScorer | src/main.rs:161-168 | when a game or set has just been won by the side that scored last, the credited position is that side |
| Rules.SetsToWin | src/main.rs:322 | `best_of / 2 + 1` with division truncating toward zero; for `best_of >= 0` it is the least count above half of `best_of` |
| Rules.GrandSlamFinalTiebreak | src/main.rs:78-92 | a grand-slam final-set tiebreak needs 10 points (7-5 does not close it, 10-8 does); every score that closes it closes an ordinary tiebreak |
| Rules.PointName | src/main.rs:118-130 | a point name is a non-empty string of digits |
| Rules.PointNameValue | src/main.rs:118-130 | read back as a number, a point name is 0, 15, 30, 40 for the first three points of an ordinary game, and the count itself beyond them and in a tiebreak |
| Rules.JoinedStartsWithDigit | src/main.rs:98-110 | a "x-y" score line starts with a digit and is none of "Deuce", "Ad-In", "Ad-Out", "GAME" |
| Rules.PointScoreCalls | src/main.rs:94-116 | outside a tiebreak, each direction: "Deuce" iff the counts are equal and at least 3; "Ad-In"/"Ad-Out" iff someone has 4+ and the server/receiver leads by one; "GAME" iff won by two from four; past three points the result is always one of the four words |
| Rules.GameCallMeansWon | src/main.rs:159-163 | the "GAME" test of `log_point` on the score vector holds iff the game is won by two from four points |
| Rules.ScoreLineInjective | src/main.rs:132-142 | a "a-b" score line determines both counts and their order |
| Rules.ServerCountFirst | src/main.rs:132-142 | the game and set strings read back as the server's count, then the receiver's |
| Rules.TiebreakPointScoreRaw | src/main.rs:111-115 | in a tiebreak the point string reads back as the raw server and receiver points |
| Rules.TiebreakTenths | src/main.rs:403-411 | the tiebreak likelihood (in tenths) is one of 1, 2, 5, 10, and 10 exactly from twelve games on |
| Rules.TiebreakTenthsMonotone | src/main.rs:403-411 | the tiebreak likelihood never falls as games are added |
| Decimal.Show | src/main.rs:118-130 | `to_string` of a count is a non-empty digit string, one digit exactly below ten |
| Decimal.ParseShow | src/main.rs:118-130 | reading the digits of a count back gives the count |
| Decimal.ShowInjective | src/main.rs:132-142 | different counts print differently |
| Machine.RallyS | src/main.rs:266-286 | the point loop of `play_game` uses at most the outcomes given, and at least one when it ends |
| Machine.GameS | src/main.rs:266-286 | `play_game` uses at most the outcomes given, and at least one when it ends |
| Machine.SetLoopS | src/main.rs:288-315 | `play_set` uses at most the outcomes given, and at least one when it ends |
| Machine.MatchLoopS | src/main.rs:317-327 | `play_match` uses at most the outcomes given |
| Machine.MatchLoopAfterSet | src/main.rs:322-324 | one more set of the match loop continues the run from where the set ended, or ends the run if the set was cut short |
| Machine.PlayMatchS | src/main.rs:317-327 | `play_match` from its coin uses at most the outcomes given |
| MatchFacts.SeatFacts | src/main.rs:318-320 | the coin's player serves first and the other player receives |
| MatchFacts.ServerSideFacts | src/main.rs:219-220 | the server's position is found by name: 0 iff the server is player 1, and the receiver holds the other position |
| MatchFacts.PointGoesToWinner | src/main.rs:214-245 | one shot; an ace or a won serve gives the point to the server, a double fault or a lost serve gives it to the receiver; exactly one point, to the winner's position; games, sets, log and history untouched |
| MatchFacts.ServeCounted | src/main.rs:232-238 | an ace adds one to the server's aces and a double fault one to its double faults; the other player's counts do not move |
| MatchFacts.StreakCounted | src/main.rs:247-254 | the streak grows by one when the last winner wins again and restarts at one otherwise |
| MatchFacts.TiebreakRotation | src/main.rs:256-261 | in a tiebreak each point is counted and the seats change exactly when the count turns odd; outside one the seats stay |
| MatchFacts.OrdinaryPointLogged | src/main.rs:158-175 | outside a tiebreak: game over iff the call is "GAME" iff the game is won, credited to the leader; set over iff games are won by two from six, credited to the leader; otherwise the tiebreak starts exactly at 6-6 with the current server |
| MatchFacts.TiebreakPointLogged | src/main.rs:149-157 | in a tiebreak: once it is decided, the side ahead gains one game and one set, and both game and set are reported over; until then the score stays |
| MatchFacts.AdvanceKeeps | src/main.rs:149-175 | the score update of `log_point` leaves the log, the seats, the history, the shots and the serve counts alone |
| MatchFacts.PointRecorded | src/main.rs:144-212 | `log_point` appends exactly one record, carrying the point score from before the update and the seats |
| MatchFacts.PointThenLog | src/main.rs:277-278 | a point and its logging leave both players seated, one serving and one receiving, book one shot and one record, and move the sets (by one for one side) only when the set ends |
| MatchFacts.StartGameFacts | src/main.rs:267-274 | the top of `play_game` clears the points outside a tiebreak, clears only the server's per-game stats, and resets the streak |
| MatchFacts.CloseSetFacts | src/main.rs:295-312 | the end of a set adds one stats snapshot, zeroes the stats, games and points, leaves the tiebreak and swaps the seats |
| MatchFacts.RallyFacts | src/main.rs:266-286 | in `play_game` both players stay seated, one serving and one receiving; it books one shot and one record per point, and moves the sets only in the game that ends the set |
| MatchFacts.RallyOutsideTiebreak | src/main.rs:276-285 | in the point loop of a game begun outside a tiebreak (and not at six games all), the server and receiver are exchanged at the end exactly when the set is not over and no tiebreak has begun, and otherwise stay; the server's aces and double faults grow by at most one per point |
| MatchFacts.RallyInTiebreak | src/main.rs:148-157 | a game played in a tiebreak can end only together with its set |
| MatchFacts.GameServerSwap | src/main.rs:266-286 | `play_game` hands the serve to the receiver exactly when a game begun outside a tiebreak ends neither the set nor in a tiebreak; otherwise the seats are as they were; a tiebreak game ends only with the set |
| MatchFacts.ServiceGameCounts | src/main.rs:273-274 | after a game begun outside a tiebreak, the server's aces and double faults are at most the points of that game, whatever they were before |
| MatchFacts.SetFacts | src/main.rs:288-315 | a finished `play_set` moves the sets by one for one side, adds exactly one snapshot and restarts the score; one cut short leaves sets and history alone |
| MatchFacts.MatchFacts | src/main.rs:322-326 | a finished match is won by one of the two players, who holds exactly `best_of / 2 + 1` sets against fewer; one snapshot per set played |
| MatchFacts.PlayMatchFacts | src/main.rs:317-327 | from the coin: shots equal the point records, one snapshot per set, and the winner has exactly the sets needed against fewer |
| MatchFacts.OddBestOfBoundsSets | src/main.rs:322 | with an odd `best_of`, a finished match plays at most `best_of` sets |
| Simulator.TennisMatch.constructor | src/main.rs:39-72 | a new match has no server yet and zero scores, history, shots, log, stats, streak and tiebreak state |
| Simulator.TennisMatch.SwitchServer | src/main.rs:74-76 | server and receiver are exchanged |
| Simulator.TennisMatch.TallyServe | src/main.rs:232-238 | the server's ace or double fault is counted, and the shot too (line 215) |
| Simulator.TennisMatch.AwardPoint | src/main.rs:240-254 | the point goes to the winner's position and the streak and last-point flags follow, as `Machine.BookPoint` |
| Simulator.TennisMatch.CountTiebreakPoint | src/main.rs:256-261 | in a tiebreak the point is counted and the server changes after odd counts |
| Simulator.TennisMatch.PlayPoint | src/main.rs:214-264 | the new fields and the returned winner are `Machine.PlayPointS` of the old state and the cascade outcome |
| Simulator.TennisMatch.DecideTiebreak | src/main.rs:149-157 | a decided tiebreak's game and set go to the side ahead on points |
| Simulator.TennisMatch.AddGame | src/main.rs:159-163 | a won game goes to the side ahead on points |
| Simulator.TennisMatch.AddSet | src/main.rs:165-168 | a won set goes to the side ahead on games |
| Simulator.TennisMatch.StartTiebreak | src/main.rs:169-174 | at six games all the tiebreak starts from zero with the current server |
| Simulator.TennisMatch.PushRecord | src/main.rs:177-209 | one record with the seats, the point score and the server-first game and set scores is appended |
| Simulator.TennisMatch.LogPoint | src/main.rs:144-212 | the new fields and both flags are `Machine.LogPointS` of the old state |
| Simulator.TennisMatch.ResetForGame | src/main.rs:267-274 | the resets at the top of `play_game` |
| Simulator.TennisMatch.PlayGame | src/main.rs:266-286 | the new fields, result and outcomes used are `Machine.GameS` of the old state |
| Simulator.RallyNext | src/main.rs:276-285 | one pass of the loop: a point that ends the game or set finishes the rally after one outcome, with the server switched only outside a set's end and a tiebreak; otherwise the rally goes on from the logged state |
| Simulator.TennisMatch.ArchiveStats | src/main.rs:296-306 | the stats become one more history snapshot and restart at zero |
| Simulator.TennisMatch.ClearScores | src/main.rs:307-310 | games, points and the tiebreak restart |
| Simulator.TennisMatch.FinishSet | src/main.rs:295-312 | the bookkeeping at the end of a set, as `Machine.CloseSet` |
| Simulator.TennisMatch.PlaySet | src/main.rs:288-315 | the new fields, winner and outcomes used are `Machine.SetLoopS` of the old state |
| Simulator.TennisMatch.TossCoin | src/main.rs:318-320 | player 1 serves iff the coin says so; the receiver is the other player by name |
| Simulator.TennisMatch.PlayMatch | src/main.rs:317-327 | the new fields, winner and outcomes used are `Machine.MatchLoopS` run from the seated old state |
| Batch.Credit | src/main.rs:453 | raising a counter that exists keeps the same set of players |
| Batch.AddMatch | src/main.rs:453-471 | one match into the totals keeps every player's counter present |
| Batch.Accumulate | src/main.rs:450-472 | the batch's counters after any matches won by the two players still hold both players |
| Batch.MatchLoopWinner | src/main.rs:326 | the set loop's declared winner is one of the two players |
| Batch.PlayMatchWinner | src/main.rs:317-327 | `play_match`'s winner is one of the two players |
| Batch.PlayOne | src/main.rs:451-452 | a finished match's summary names one of the two players as winner |
| Batch.PlayAll | src/main.rs:450-472 | a finished batch has one summary per coin, each won by one of the two players |
| Batch.PlayAllStops | src/main.rs:450-452 | a batch with an unfinished match among its first `k` does not finish |
| Batch.PlayAllNext | src/main.rs:450-452 | the batch after match `k` extends the batch before it by that match's summary, or stops if the match does not finish |
| Batch.AccumulateStep | src/main.rs:450-472 | one more match adds itself to the counters and its point log to the batch log |
| Batch.RunMatch | src/main.rs:451-452 | a fresh `TennisMatch` played to the end yields the summary `PlayOne` specifies |
| Batch.AddToTotals | src/main.rs:453-471 | the four counter updates of one iteration are `AddMatch` |
| Batch.Absorb | src/main.rs:453-471 | a finished match taken into the counters and log gives the accumulation over one more match |
| Batch.SimulateBatch | src/main.rs:437-510 | the counters exist iff every match finishes; they are then the accumulation over the batch's matches in order, and the log is their point logs concatenated |
| Batch.AccumulateConcat | src/main.rs:450-472 | counting matches `ms1` then `ms2` is counting `ms2` from the counters after `ms1` |
| Batch.WinsAddUp | src/main.rs:453 | with two different names, the two win counters are non-negative and add up to the number of matches |
| Batch.ShotsMatchLog | src/main.rs:454-455 | when every match logged one record per shot, the shot total grows by the size of the batch log |
| Batch.PlayAllShotsLogged | src/main.rs:450-455 | between two different players, every finished match logged one record per shot |
| Parallel.MergeInto | src/main.rs:539-541 | the `entry(..).or_insert(0) +=` loop over a batch map, in any visiting order, yields the key-wise sum, a missing key starting at zero |
| Parallel.MergeOneMore | src/main.rs:539-541 | one more visited entry adds its counter to the partial merge |
| Parallel.MergedAll | src/main.rs:539-541 | once every entry is visited, the map is the key-wise sum |
| Parallel.MergeBatch | src/main.rs:538-556 | the four merges of one batch are `MergeTotals` |
| Parallel.FoldTakeOut | src/main.rs:526 | with steps that may be swapped, any one item can be applied last |
| Parallel.FoldAnyOrder | src/main.rs:526 | with steps that may be swapped, any permutation of the items gives the same result |
| Parallel.MergeCountsSwap | src/main.rs:539-541 | two batch maps merged into the same map commute |
| Parallel.MergeTotalsCommute | src/main.rs:538-556 | two batches' merges into the totals commute |
| Parallel.ReduceAnyOrder | src/main.rs:526-557 | the final totals are the same for every order in which the batches finish |
| Parallel.MergeZeroed | src/main.rs:513-522 | merging a map with both players at zero changes nothing |
| Parallel.CreditMerge | src/main.rs:538-556 | raising a batch counter before the merge is raising it after |
| Parallel.CreditTwiceMerge | src/main.rs:538-556 | the same for the two credits of the aces and of the double faults |
| Parallel.AddMatchMerge | src/main.rs:538-556 | counting a match in a batch then merging is counting it in the merge |
| Parallel.AccumulateFrom | src/main.rs:538-556 | counting matches onto any totals is merging the batch's own counters (from zero) into them |
| Parallel.Flatten | src/main.rs:526 | all batches' matches in batch order, as many as the batches hold |
| Parallel.BatchTotals | src/main.rs:528-536 | one counter set per batch |
| Parallel.MergedIsSequential | src/main.rs:526-557 | merging every batch's counters into zeroed totals equals one sequential count of all their matches |
| Parallel.SavesEvery | src/main.rs:527 | with `log_interval = q * batch_size`, batch `i` saves iff `(i + 1) % q == 0` |
| Parallel.SavesMultiple | src/main.rs:527 | when `log_interval` divides `batch_size`, every batch saves |
| Parallel.PlayBatches | src/main.rs:526-536 | a finished run has one list of summaries per batch, of the batch's size, each won by one of the two players |
| Parallel.PlayBatchesNext | src/main.rs:526-536 | the run after batch `i` extends the run before it by that batch, or stops |
| Parallel.PlayBatchesStops | src/main.rs:526 | a run with an unfinished batch does not finish |
| Parallel.ReduceStep | src/main.rs:538-556 | one more batch is merged into what the earlier ones left |
| Parallel.SavedLogsStep | src/main.rs:527 | one more batch appends its log after the earlier ones exactly when it saves |
| Parallel.SimulateParallel | src/main.rs:512-568 | the totals exist iff every batch finishes; they are then the merge of every batch's counters into zeroed totals, and the saved log is the logs of the saving batches in batch order |
| Parallel.CountBatches | src/main.rs:526 | `batch_size` matches per batch make `batch_size` times the number of batches |
| Parallel.PlayBatchesShotsLogged | src/main.rs:526-536 | every match of a finished run logged one record per shot |
| Parallel.LogsConcat | src/main.rs:455 | the log of two lists of matches is their two logs one after the other |
| Parallel.SavedEverything | src/main.rs:527 | when `log_interval` divides `batch_size`, the saved log is every match's log in batch order |
| Parallel.RunTotals | src/main.rs:512-568 | between two different players, a finished run's totals equal one sequential count of all matches; the win counters add up to `batch_size` times the number of batches; the shot total equals the point records logged |

## Left out

- Probabilities. The floating-point win, set, game, next-point and ace probabilities (src/main.rs:329-401) are left out, and so are the fields of the point record that hold them. The tiebreak likelihood is kept, in tenths.
- The random number generator. The coin of `play_match` and the three comparisons of the serve cascade are inputs. A supplied outcome sequence may end before a match does; the model then reports `None`. The source never runs out.
- CSV output of `simulate_batch`. This covers opening the file, the header line written when the file is empty, and the formatting of each row (src/main.rs:474-507). The model returns the log a batch would write, and the run collects the logs of the saving batches.
- Threads. The rayon pool, the mutexes and the timer are left out, so the model cannot express interleaving. Batches run one after the other in index order. `Parallel.ReduceAnyOrder` shows the totals are the same for any order in which batches finish. The order in which saved logs reach the file is not modelled.
- `main` and the printing of results are left out.
- Integer width. `i32` and `usize` are unbounded integers, so overflow is not modelled. `best_of / 2` uses truncating division, as in Rust.
- Stats by position. The per-player stats and set snapshots are stored by position (player 1, player 2), not in maps keyed by name. The batch loop reads each player's aces by position. This matches the source only when the two names differ. The lemmas that rely on it say so in their preconditions.
- MatchFacts.PlayMatchFacts: stated only for `best_of >= 0` and two different player names. The source does not restrict these.
- Parallel.SimulateParallel: requires `batch_size > 0` and `log_interval > 0`. A zero `batch_size` makes the division `num_simulations / batch_size` panic before any batch runs. A zero `log_interval` panics as soon as one batch runs. With a zero `log_interval` and fewer simulations than one batch, no batch runs and the source returns the zeroed totals; the model does not cover that case.
- `tiebreak_server` is set when a tiebreak starts and never read or cleared by the source. The model keeps it the same way.
