/** The scoring rules of `TennisMatch` that are pure expressions over the
    score: final-set and set-over tests, the tiebreak likelihood, and the
    server-first score strings (src/main.rs:78-142, 403-411). */
module Rules {
  import Decimal

  /** A player's skill profile. The probabilities only feed the random
      draws, which the model receives as already-decided outcomes. */
  datatype Player = Player(name: string, serveWinProb: real, aceProb: real, doubleFaultProb: real)

  /** A position in the score vectors: 0 is player 1, 1 is player 2. */
  type Side = i: int | 0 <= i < 2

  function Other(i: Side): Side {
    1 - i
  }

  /** A score vector `[player1, player2]` of one of the levels sets, games, points. */
  datatype Pair = Pair(first: nat, second: nat) {

    function At(i: Side): nat {
      if i == 0 then first else second
    }

    /** One more for side `i`, nothing for the other side. */
    function Bump(i: Side): (p: Pair)
      ensures p.At(i) == At(i) + 1 && p.At(Other(i)) == At(Other(i))
    {
      if i == 0 then Pair(first + 1, second) else Pair(first, second + 1)
    }

    function Max(): nat {
      if first >= second then first else second
    }

    function Margin(): nat {
      if first >= second then first - second else second - first
    }

    function Sum(): nat {
      first + second
    }
  }

  /** The side the source credits when a level is won: position 0 if it is
      strictly ahead, else position 1. */
  function Leader(p: Pair): (i: Side)
    ensures p.first != p.second ==> p.At(i) > p.At(Other(i))
  {
    if p.first > p.second then 0 else 1
  }

  /** The position of a player in the score vectors, decided by name as
      the source does. */
  function SideOf(p: Player, player1: Player): Side {
    if p.name == player1.name then 0 else 1
  }

  /** `(best_of / 2) + 1`, with Rust's division that truncates toward zero. */
  function SetsToWin(bestOf: int): (t: int)
    ensures bestOf >= 0 ==> 2 * (t - 1) <= bestOf < 2 * t
  {
    (if bestOf >= 0 then bestOf / 2 else -((-bestOf) / 2)) + 1
  }

  /** The final set is the one played when the sets won add up to `best_of - 1`. */
  predicate IsFinalSet(sets: Pair, bestOf: int) {
    sets.Sum() == bestOf - 1
  }

  /** Points a tiebreak needs: 10 in the final set of a grand-slam match, else 7. */
  function TiebreakTarget(grandSlam: bool, finalSet: bool): nat {
    if grandSlam && finalSet then 10 else 7
  }

  /** A level is won once the higher count reaches `goal` with a margin of two. */
  predicate WonBy(p: Pair, goal: nat) {
    p.Max() >= goal && p.Margin() >= 2
  }

  /** `is_set_over`: on games outside a tiebreak, on tiebreak points inside one. */
  predicate IsSetOver(isTiebreak: bool, grandSlam: bool, bestOf: int, sets: Pair, games: Pair, points: Pair) {
    if !isTiebreak then WonBy(games, 6)
    else WonBy(points, TiebreakTarget(grandSlam, IsFinalSet(sets, bestOf)))
  }

  /** `point_to_tennis_score`: 0, 15, 30, 40 for the first three points of a
      game, the plain count beyond them and throughout a tiebreak. */
  function PointName(points: nat, isTiebreak: bool): (r: string)
    ensures |r| >= 1 && Decimal.AllDigits(r)
  {
    if isTiebreak then Decimal.Show(points)
    else if points == 0 then "0"
    else if points == 1 then "15"
    else if points == 2 then "30"
    else if points == 3 then "40"
    else Decimal.Show(points)
  }

  /** `format!("{}-{}", a, b)` on two counts. */
  function ScoreLine(a: nat, b: nat): string {
    Decimal.Show(a) + "-" + Decimal.Show(b)
  }

  /** `format_point_score`, given the server's and the receiver's points. */
  function FormatPointScore(serverPoints: nat, receiverPoints: nat, isTiebreak: bool): string {
    if !isTiebreak then
      var lead := if serverPoints >= receiverPoints then serverPoints - receiverPoints else receiverPoints - serverPoints;
      if serverPoints == receiverPoints && serverPoints >= 3 then "Deuce"
      else if Pair(serverPoints, receiverPoints).Max() >= 4 then
        if lead == 1 then (if serverPoints > receiverPoints then "Ad-In" else "Ad-Out")
        else if lead >= 2 then "GAME"
        else PointName(serverPoints, isTiebreak) + "-" + PointName(receiverPoints, isTiebreak)
      else PointName(serverPoints, isTiebreak) + "-" + PointName(receiverPoints, isTiebreak)
    else ScoreLine(serverPoints, receiverPoints)
  }

  /** `format_point_score` on a score vector, the server at `serverSide`. */
  function FormatPoints(points: Pair, serverSide: Side, isTiebreak: bool): string {
    FormatPointScore(points.At(serverSide), points.At(Other(serverSide)), isTiebreak)
  }

  /** `format_game_score` and `format_set_score`: the server's count first. */
  function FormatScore(p: Pair, serverSide: Side): string {
    ScoreLine(p.At(serverSide), p.At(Other(serverSide)))
  }

  /** `calculate_tiebreak_probability` in tenths: 0.1, 0.2, 0.5 or 1.0. */
  function TiebreakTenths(gamesSum: nat): (t: nat)
    ensures t in {1, 2, 5, 10}
    ensures t == 10 <==> gamesSum >= 12
  {
    if gamesSum <= 9 then 1
    else if gamesSum == 10 then 2
    else if gamesSum == 11 then 5
    else 10
  }

  // ---------------------------------------------------------------------
  // Properties of the rules

  /** The tiebreak likelihood never falls as more games are played. */
  lemma TiebreakTenthsMonotone(a: nat, b: nat)
    requires a <= b
    ensures TiebreakTenths(a) <= TiebreakTenths(b)
  {
  }

  /** The value a point name stands for: the tennis call 0, 15, 30, 40 for
      the first points of an ordinary game, else the count itself. */
  function CallValue(points: nat, isTiebreak: bool): nat {
    if isTiebreak || points >= 4 then points else [0, 15, 30, 40][points]
  }

  /** Reading a point name back as a number gives the call it stands for. */
  lemma PointNameValue(points: nat, isTiebreak: bool)
    ensures Decimal.Parse(PointName(points, isTiebreak)) == CallValue(points, isTiebreak)
  {
    if isTiebreak || points >= 4 {
      Decimal.ParseShow(points);
    } else if points == 1 {
      assert "15"[..1] == "1";
    } else if points == 2 {
      assert "30"[..1] == "3";
    } else if points == 3 {
      assert "40"[..1] == "4";
    }
  }

  /** A score line starts with a digit, which none of the words
      "Deuce", "Ad-In", "Ad-Out", "GAME" does. */
  lemma JoinedStartsWithDigit(a: string, b: string)
    requires |a| >= 1 && Decimal.AllDigits(a)
    ensures Decimal.IsDigit((a + "-" + b)[0])
    ensures a + "-" + b !in {"Deuce", "Ad-In", "Ad-Out", "GAME"}
  {
    var s := a + "-" + b;
    assert s[0] == a[0];
    assert forall w :: w in {"Deuce", "Ad-In", "Ad-Out", "GAME"} ==> !Decimal.IsDigit(w[0]);
  }

  /** The meaning of every string `format_point_score` produces outside a
      tiebreak, each in both directions. Beyond three points a game is
      always one of the four words: the fallback at src/main.rs:105-106 is
      never taken. */
  lemma PointScoreCalls(s: nat, r: nat)
    ensures FormatPointScore(s, r, false) == "Deuce" <==> s == r && s >= 3
    ensures FormatPointScore(s, r, false) == "Ad-In" <==> Pair(s, r).Max() >= 4 && s == r + 1
    ensures FormatPointScore(s, r, false) == "Ad-Out" <==> Pair(s, r).Max() >= 4 && r == s + 1
    ensures FormatPointScore(s, r, false) == "GAME" <==> WonBy(Pair(s, r), 4)
    ensures Pair(s, r).Max() >= 4 ==> FormatPointScore(s, r, false) in {"Deuce", "Ad-In", "Ad-Out", "GAME"}
    ensures Pair(s, r).Max() < 4 && !(s == r && s == 3) ==>
              FormatPointScore(s, r, false) == PointName(s, false) + "-" + PointName(r, false)
  {
    JoinedStartsWithDigit(PointName(s, false), PointName(r, false));
  }

  /** The game-over test of `log_point` compares the formatted score with
      "GAME"; on a score vector it means: the game is won. */
  lemma GameCallMeansWon(points: Pair, serverSide: Side)
    ensures FormatPoints(points, serverSide, false) == "GAME" <==> WonBy(points, 4)
  {
    PointScoreCalls(points.At(serverSide), points.At(Other(serverSide)));
    assert Pair(points.At(serverSide), points.At(Other(serverSide))).Max() == points.Max();
    assert Pair(points.At(serverSide), points.At(Other(serverSide))).Margin() == points.Margin();
  }

  /** In `x + "-" + rest` with `x` all digits, the first dash is at `|x|`. */
  lemma DashAfterDigits(x: string, rest: string)
    requires Decimal.AllDigits(x)
    ensures (x + "-" + rest)[|x|] == '-'
    ensures forall i :: 0 <= i < |x| ==> (x + "-" + rest)[i] != '-'
  {
    var t := x + "-" + rest;
    assert forall i :: 0 <= i < |x| ==> t[i] == x[i];
  }

  /** A score line determines both counts and their order. */
  lemma ScoreLineInjective(a: nat, b: nat, c: nat, d: nat)
    requires ScoreLine(a, b) == ScoreLine(c, d)
    ensures a == c && b == d
  {
    var x, y := Decimal.Show(a), Decimal.Show(c);
    var s := ScoreLine(a, b);
    DashAfterDigits(x, Decimal.Show(b));
    DashAfterDigits(y, Decimal.Show(d));
    assert x == s[..|x|] == y;
    assert Decimal.Show(b) == s[|x| + 1..] == Decimal.Show(d);
    Decimal.ShowInjective(a, c);
    Decimal.ShowInjective(b, d);
  }

  /** The game and set strings put the server's count first: read back, a
      line gives the server's count, then the receiver's. */
  lemma ServerCountFirst(p: Pair, serverSide: Side, serverCount: nat, receiverCount: nat)
    requires FormatScore(p, serverSide) == ScoreLine(serverCount, receiverCount)
    ensures serverCount == p.At(serverSide) && receiverCount == p.At(Other(serverSide))
  {
    ScoreLineInjective(p.At(serverSide), p.At(Other(serverSide)), serverCount, receiverCount);
  }

  /** In a tiebreak the point string is the raw server-receiver count,
      and it determines both counts. */
  lemma TiebreakPointScoreRaw(points: Pair, serverSide: Side, serverCount: nat, receiverCount: nat)
    requires FormatPoints(points, serverSide, true) == ScoreLine(serverCount, receiverCount)
    ensures serverCount == points.At(serverSide) && receiverCount == points.At(Other(serverSide))
  {
    ScoreLineInjective(points.At(serverSide), points.At(Other(serverSide)), serverCount, receiverCount);
  }

  /** When a level has just been won by the side that scored last, `Leader`
      names that side: the winner the source credits is the right one. */
  lemma LeaderIsLastScorer(before: Pair, w: Side, goal: nat)
    requires !WonBy(before, goal) && WonBy(before.Bump(w), goal)
    ensures Leader(before.Bump(w)) == w
  {
  }

  /** A grand-slam final-set tiebreak needs ten points: 7-5 closes any
      other tiebreak but not that one, 10-8 closes it. */
  lemma GrandSlamFinalTiebreak(bestOf: int, sets: Pair, games: Pair)
    requires IsFinalSet(sets, bestOf)
    ensures !IsSetOver(true, true, bestOf, sets, games, Pair(7, 5))
    ensures IsSetOver(true, false, bestOf, sets, games, Pair(7, 5))
    ensures IsSetOver(true, true, bestOf, sets, games, Pair(10, 8))
    ensures forall p :: IsSetOver(true, true, bestOf, sets, games, p) ==> IsSetOver(true, false, bestOf, sets, games, p)
  {
  }
}
