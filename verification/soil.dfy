/** The soil analysis page's overall health: a score per parameter from its
    status, the rounded average of the scores, and a label for the result. */
module Soil {
  import opened Seqs

  datatype SoilParameter = SoilParameter(name: string, status: string)

  /** `good` scores 85, `medium` 65, any other status 45. */
  function Score(status: string): (s: int)
    ensures s == 45 || s == 65 || s == 85
    ensures s == 85 <==> status == "good"
  {
    if status == "good" then 85 else if status == "medium" then 65 else 45
  }

  function ParameterScore(p: SoilParameter): int
  {
    Score(p.status)
  }

  /** `Math.round(n / d)`: the nearest integer, halves rounded up. */
  function RoundedQuotient(n: int, d: int): (r: int)
    requires d > 0
    ensures 2 * d * r <= 2 * n + d < 2 * d * (r + 1)
  {
    (2 * n + d) / (2 * d)
  }

  lemma {:induction false} MulMonotone(k: nat, x: int, y: int)
    requires x <= y
    ensures k * x <= k * y
  {
    if k > 0 {
      MulMonotone(k - 1, x, y);
      assert k * x == (k - 1) * x + x && k * y == (k - 1) * y + y;
    }
  }

  lemma MulCancel(k: int, x: int, y: int)
    requires k > 0 && k * x < k * y
    ensures x < y
  {
    MulMonotone(k, y, if x >= y then x else y);
  }

  /** A larger numerator never gives a smaller rounded quotient. */
  lemma RoundedQuotientMonotone(n: int, m: int, d: int)
    requires d > 0 && n <= m
    ensures RoundedQuotient(n, d) <= RoundedQuotient(m, d)
  {
    var a, b := RoundedQuotient(n, d), RoundedQuotient(m, d);
    MulCancel(2 * d, a, b + 1);
  }

  /** Rounding `n / d` stays within any integer bounds that `n / d` respects. */
  lemma RoundedQuotientBetween(n: int, d: int, lo: int, hi: int)
    requires d > 0 && d * lo <= n <= d * hi
    ensures lo <= RoundedQuotient(n, d) <= hi
  {
    var r := RoundedQuotient(n, d);
    assert 2 * d * lo == 2 * (d * lo) && 2 * d * hi == 2 * (d * hi);
    assert 2 * d * (hi + 1) == 2 * d * hi + 2 * d;
    MulCancel(2 * d, lo, r + 1);
    MulCancel(2 * d, r, hi + 1);
  }

  /** `overallHealth`: the rounded average score, so between the lowest and
      the highest score a parameter can have. */
  function OverallHealth(ps: seq<SoilParameter>): (h: int)
    requires |ps| > 0
    ensures 45 <= h <= 85
  {
    ScoreSumBounds(ps);
    RoundedQuotientBetween(SumOf(ps, ParameterScore), |ps|, 45, 85);
    RoundedQuotient(SumOf(ps, ParameterScore), |ps|)
  }

  /** The scores of `n` parameters sum to between 45n and 85n. */
  lemma {:induction false} ScoreSumBounds(ps: seq<SoilParameter>)
    ensures 45 * |ps| <= SumOf(ps, ParameterScore) <= 85 * |ps|
  {
    if ps != [] {
      ScoreSumBounds(ps[1..]);
    }
  }

  /** Turning any parameter's status to `good` never lowers the overall health. */
  lemma ImprovingToGoodNeverLowers(ps: seq<SoilParameter>, i: nat)
    requires i < |ps|
    ensures OverallHealth(ps[i := ps[i].(status := "good")]) >= OverallHealth(ps)
  {
    SumOfUpdate(ps, i, ps[i].(status := "good"), ParameterScore);
    RoundedQuotientMonotone(SumOf(ps, ParameterScore), SumOf(ps[i := ps[i].(status := "good")], ParameterScore), |ps|);
  }

  datatype HealthLabel = Excellent | Good | NeedsAttention

  /** The badge: 80 and above excellent, 65 and above good, otherwise needs attention. */
  function LabelFor(health: int): (l: HealthLabel)
    ensures l == Excellent <==> health >= 80
    ensures l == Good <==> 65 <= health < 80
    ensures l == NeedsAttention <==> health < 65
  {
    if health >= 80 then Excellent else if health >= 65 then Good else NeedsAttention
  }

  /** The number of parameters with a given status: none exactly when no
      parameter has it, all exactly when every parameter has it. */
  function CountStatus(ps: seq<SoilParameter>, status: string): (n: nat)
    ensures n <= |ps|
    ensures n == 0 <==> forall i :: 0 <= i < |ps| ==> ps[i].status != status
    ensures n == |ps| <==> forall i :: 0 <= i < |ps| ==> ps[i].status == status
  {
    if ps == [] then 0 else (if ps[0].status == status then 1 else 0) + CountStatus(ps[1..], status)
  }

  /** The score sum by status: 85 for each `good` parameter, 65 for each
      `medium` one and 45 for each of the rest. */
  lemma {:induction false} ScoreSumByStatus(ps: seq<SoilParameter>)
    ensures var good, medium := CountStatus(ps, "good"), CountStatus(ps, "medium");
      SumOf(ps, ParameterScore) == 85 * good + 65 * medium + 45 * (|ps| - good - medium)
  {
    if ps != [] {
      ScoreSumByStatus(ps[1..]);
    }
  }

  /** No parameter is counted under two statuses. */
  lemma {:induction false} StatusCountsDisjoint(ps: seq<SoilParameter>)
    ensures CountStatus(ps, "good") + CountStatus(ps, "medium") + CountStatus(ps, "low") <= |ps|
  {
    if ps != [] {
      StatusCountsDisjoint(ps[1..]);
    }
  }

  const SeedParameters: seq<SoilParameter> := [
    SoilParameter("pH Level", "good"),
    SoilParameter("Nitrogen (N)", "good"),
    SoilParameter("Phosphorus (P)", "low"),
    SoilParameter("Potassium (K)", "good"),
    SoilParameter("Organic Matter", "good"),
    SoilParameter("Moisture", "low"),
    SoilParameter("Calcium", "good"),
    SoilParameter("Magnesium", "low"),
    SoilParameter("Sulfur", "good"),
    SoilParameter("Iron", "good"),
    SoilParameter("Zinc", "good"),
    SoilParameter("Boron", "good")
  ]

  /** The seeded list sums to 900 over 12 parameters: its overall health is
      75, labelled good. */
  lemma SeedHealthIsGood()
    ensures OverallHealth(SeedParameters) == 75 && LabelFor(OverallHealth(SeedParameters)) == Good
  {
    SeedScoreSum();
    HealthFromTotals(SeedParameters);
  }

  lemma HealthFromTotals(ps: seq<SoilParameter>)
    requires |ps| == 12 && SumOf(ps, ParameterScore) == 900
    ensures OverallHealth(ps) == 75
  {
  }

  /** The summary card's figures agree with the seeded list: 12 parameters
      analysed, 9 of them optimal (`good`) and 3 needing improvement (`low`). */
  lemma SeedSummary()
    ensures |SeedParameters| == 12
    ensures CountStatus(SeedParameters, "good") == 9
    ensures CountStatus(SeedParameters, "low") == 3
    ensures CountStatus(SeedParameters, "good") + CountStatus(SeedParameters, "low") == |SeedParameters|
  {
    SeedGoodCount();
    SeedLowCount();
  }

  lemma SeedGoodCount()
    ensures CountStatus(SeedParameters, "good") == 9
  {
    var s := SeedParameters;
    SeedGoodCountTail();
    assert CountStatus(s[5..], "good") == 5;
    assert CountStatus(s[4..], "good") == 6;
    assert CountStatus(s[3..], "good") == 7;
    assert CountStatus(s[2..], "good") == 7;
    assert CountStatus(s[1..], "good") == 8;
  }

  lemma SeedGoodCountTail()
    ensures CountStatus(SeedParameters[6..], "good") == 5
  {
    var s := SeedParameters;
    assert CountStatus(s[11..], "good") == 1;
    assert CountStatus(s[10..], "good") == 2;
    assert CountStatus(s[9..], "good") == 3;
    assert CountStatus(s[8..], "good") == 4;
    assert CountStatus(s[7..], "good") == 4;
  }

  lemma SeedLowCount()
    ensures CountStatus(SeedParameters, "low") == 3
  {
    var s := SeedParameters;
    SeedLowCountTail();
    assert CountStatus(s[5..], "low") == 2;
    assert CountStatus(s[4..], "low") == 2;
    assert CountStatus(s[3..], "low") == 2;
    assert CountStatus(s[2..], "low") == 3;
    assert CountStatus(s[1..], "low") == 3;
  }

  lemma SeedLowCountTail()
    ensures CountStatus(SeedParameters[6..], "low") == 1
  {
    var s := SeedParameters;
    assert CountStatus(s[8..], "low") == 0;
    assert CountStatus(s[7..], "low") == 1;
  }

  /** The seeded score sum follows from the counts: no parameter is `medium`,
      so the sum is 85 for each of the 9 good ones and 45 for each of the 3 low ones. */
  lemma SeedScoreSum()
    ensures SumOf(SeedParameters, ParameterScore) == 900
  {
    SeedSummary();
    StatusCountsDisjoint(SeedParameters);
    ScoreSumByStatus(SeedParameters);
  }
}
