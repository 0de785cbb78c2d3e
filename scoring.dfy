/**
 * The wallet scorers: portfolio totals and the allocation by category, the
 * 0-100 risk score with its level, the activity level and the portfolio
 * health grade. Money amounts are reals; `Math.round` is floor(x + 1/2).
 */
module Scoring {
  import opened Wrappers
  import opened Tables
  import opened Holdings

  // ---- totals and allocation ----

  /** The sum of the USD values of `ts`. */
  function SumValues(ts: seq<TokenHolding>): real
  {
    if ts == [] then 0.0 else SumValues(ts[..|ts| - 1]) + ts[|ts| - 1].valueUsd
  }

  /** The sum of the USD values of the tokens of category `c`. */
  function CategoryValue(ts: seq<TokenHolding>, c: Category): real
  {
    if ts == [] then 0.0
    else CategoryValue(ts[..|ts| - 1], c) + (if ts[|ts| - 1].category == c then ts[|ts| - 1].valueUsd else 0.0)
  }

  /** The four categories partition the tokens, so their sums add up to the token value. */
  lemma {:induction false} CategoriesPartitionValue(ts: seq<TokenHolding>)
    ensures CategoryValue(ts, BlueChip) + CategoryValue(ts, Defi) + CategoryValue(ts, Meme) + CategoryValue(ts, Other)
            == SumValues(ts)
  {
    if ts != [] {
      CategoriesPartitionValue(ts[..|ts| - 1]);
    }
  }

  lemma {:induction false} SumValuesNonNegative(ts: seq<TokenHolding>)
    requires forall t :: t in ts ==> t.valueUsd >= 0.0
    ensures SumValues(ts) >= 0.0
    ensures forall c :: 0.0 <= CategoryValue(ts, c) <= SumValues(ts)
  {
    if ts != [] {
      SumValuesNonNegative(ts[..|ts| - 1]);
    }
  }

  /** The share of the portfolio held in STX and in each token category. */
  datatype Allocation = Allocation(stx: real, blueChip: real, defi: real, meme: real, other: real)

  /** A fraction of the total, or 0 when the total is not positive. */
  function Share(part: real, total: real): (f: real)
    ensures total > 0.0 ==> f * total == part
    ensures total <= 0.0 ==> f == 0.0
  {
    if total > 0.0 then part / total else 0.0
  }

  /** The total portfolio value: the token values plus the STX balance at the STX price. */
  function TotalValue(ts: seq<TokenHolding>, stxBalance: real, stxPrice: real): (v: real)
    ensures v == stxBalance * stxPrice + CategoryValue(ts, BlueChip) + CategoryValue(ts, Defi)
                 + CategoryValue(ts, Meme) + CategoryValue(ts, Other)
    ensures (forall t :: t in ts ==> t.valueUsd >= 0.0) && stxBalance >= 0.0 && stxPrice >= 0.0 ==> v >= 0.0
  {
    CategoriesPartitionValue(ts);
    if forall t :: t in ts ==> t.valueUsd >= 0.0 then SumValuesNonNegative(ts); SumValues(ts) + stxBalance * stxPrice
    else SumValues(ts) + stxBalance * stxPrice
  }

  /**
   * The allocation: for a positive total each fraction is its part over the
   * total (STX at the STX price, then the four category sums); otherwise 0.
   */
  function ComputeAllocation(ts: seq<TokenHolding>, stxBalance: real, stxPrice: real): (a: Allocation)
    ensures var total := TotalValue(ts, stxBalance, stxPrice);
            total > 0.0 ==> a == Allocation(stxBalance * stxPrice / total, CategoryValue(ts, BlueChip) / total,
                                            CategoryValue(ts, Defi) / total, CategoryValue(ts, Meme) / total,
                                            CategoryValue(ts, Other) / total)
    ensures TotalValue(ts, stxBalance, stxPrice) <= 0.0 ==> a == Allocation(0.0, 0.0, 0.0, 0.0, 0.0)
  {
    var total := TotalValue(ts, stxBalance, stxPrice);
    Allocation(
      Share(stxBalance * stxPrice, total),
      Share(CategoryValue(ts, BlueChip), total),
      Share(CategoryValue(ts, Defi), total),
      Share(CategoryValue(ts, Meme), total),
      Share(CategoryValue(ts, Other), total))
  }

  function AllocationSum(a: Allocation): real
  {
    a.stx + a.blueChip + a.defi + a.meme + a.other
  }

  /**
   * The five fractions add up to exactly 1 when the total is positive,
   * because the categories partition the tokens; otherwise all are 0.
   */
  lemma AllocationSumsToOne(ts: seq<TokenHolding>, stxBalance: real, stxPrice: real)
    ensures var a, total := ComputeAllocation(ts, stxBalance, stxPrice), TotalValue(ts, stxBalance, stxPrice);
            && (total > 0.0 ==> AllocationSum(a) == 1.0)
            && (total <= 0.0 ==> a == Allocation(0.0, 0.0, 0.0, 0.0, 0.0))
  {
    var total := TotalValue(ts, stxBalance, stxPrice);
    if total > 0.0 {
      CategoriesPartitionValue(ts);
      SharesAddUp(stxBalance * stxPrice, CategoryValue(ts, BlueChip), CategoryValue(ts, Defi),
                  CategoryValue(ts, Meme), CategoryValue(ts, Other), total);
    }
  }

  /** Parts that add up to the total have shares that add up to 1. */
  lemma SharesAddUp(s: real, b: real, d: real, m: real, o: real, total: real)
    requires total > 0.0 && s + b + d + m + o == total
    ensures Share(s, total) + Share(b, total) + Share(d, total) + Share(m, total) + Share(o, total) == 1.0
  {
    calc {
      Share(s, total) + Share(b, total) + Share(d, total) + Share(m, total) + Share(o, total);
      (s + b + d + m + o) / total;
      1.0;
    }
  }

  /** With no negative amounts every fraction lies between 0 and 1. */
  lemma AllocationBounds(ts: seq<TokenHolding>, stxBalance: real, stxPrice: real)
    requires forall t :: t in ts ==> t.valueUsd >= 0.0
    requires stxBalance >= 0.0 && stxPrice >= 0.0
    ensures var a := ComputeAllocation(ts, stxBalance, stxPrice);
            && 0.0 <= a.stx <= 1.0 && 0.0 <= a.blueChip <= 1.0 && 0.0 <= a.defi <= 1.0
            && 0.0 <= a.meme <= 1.0 && 0.0 <= a.other <= 1.0
  {
    var total := TotalValue(ts, stxBalance, stxPrice);
    SumValuesNonNegative(ts);
    if total > 0.0 {
      ShareInUnit(stxBalance * stxPrice, total);
      ShareInUnit(CategoryValue(ts, BlueChip), total);
      ShareInUnit(CategoryValue(ts, Defi), total);
      ShareInUnit(CategoryValue(ts, Meme), total);
      ShareInUnit(CategoryValue(ts, Other), total);
    }
  }

  lemma ShareInUnit(part: real, total: real)
    requires 0.0 <= part <= total && total > 0.0
    ensures 0.0 <= Share(part, total) <= 1.0
  {
    assert part / total * total == part;
  }

  // ---- risk score ----

  datatype RiskLevel = Low | Medium | High

  datatype Risk = Risk(score: int, level: RiskLevel)

  /** `Math.round` on reals: the nearest integer, halves rounded up. */
  function Round(x: real): (n: int)
    ensures n as real - 0.5 <= x < n as real + 0.5
  {
    (x + 0.5).Floor
  }

  function MinReal(x: real, y: real): real { if x <= y then x else y }

  function MinInt(x: int, y: int): int { if x <= y then x else y }

  /** The largest USD value among `ts`. */
  function MaxValue(ts: seq<TokenHolding>): (m: real)
    requires ts != []
    ensures forall t :: t in ts ==> t.valueUsd <= m
    ensures exists t :: t in ts && t.valueUsd == m
  {
    if |ts| == 1 then ts[0].valueUsd
    else
      var m := MaxValue(ts[..|ts| - 1]);
      assert forall t :: t in ts ==> t in ts[..|ts| - 1] || t == ts[|ts| - 1];
      if ts[|ts| - 1].valueUsd > m then ts[|ts| - 1].valueUsd else m
  }

  /** The sum of the absolute 24-hour changes, a missing change counting as 0. */
  function AbsChangeSum(ts: seq<TokenHolding>): real
  {
    if ts == [] then 0.0
    else
      var c := ts[|ts| - 1].change24h;
      AbsChangeSum(ts[..|ts| - 1]) + (if c.None? then 0.0 else if c.value < 0.0 then -c.value else c.value)
  }

  /** Meme exposure: 80 points per unit of meme share, at most 40. */
  function MemePoints(a: Allocation): real
  {
    MinReal(a.meme * 80.0, 40.0)
  }

  /**
   * Concentration: 30 points times the largest token value over the token
   * total plus one cent; nothing without tokens.
   */
  function ConcentrationPoints(ts: seq<TokenHolding>): real
  {
    if ts == [] then 0.0
    else
      var den := SumValues(ts) + 0.01;
      if den == 0.0 then 0.0 else MaxValue(ts) / den * 30.0
  }

  /** Few tokens: 20 points for at most two, 10 for three to five. */
  function DiversificationPoints(tokenCount: nat): real
  {
    if tokenCount <= 2 then 20.0 else if tokenCount <= 5 then 10.0 else 0.0
  }

  /** Volatility: 10 points when the mean absolute 24-hour change exceeds 20. */
  function VolatilityPoints(ts: seq<TokenHolding>): real
  {
    var avg := AbsChangeSum(ts) / (if ts == [] then 1 else |ts|) as real;
    if avg > 20.0 then 10.0 else 0.0
  }

  function LevelOf(score: int): (l: RiskLevel)
    ensures l == High <==> score >= 60
    ensures l == Medium <==> 30 <= score < 60
    ensures l == Low <==> score < 30
  {
    if score >= 60 then High else if score >= 30 then Medium else Low
  }

  /** The unrounded score: the sum of the four components. */
  function RawRisk(ts: seq<TokenHolding>, a: Allocation): real
  {
    MemePoints(a) + ConcentrationPoints(ts) + DiversificationPoints(|ts|) + VolatilityPoints(ts)
  }

  /**
   * The risk assessment: the sum of the four components rounded to the
   * nearest integer, capped at 100, and graded high from 60, medium from 30.
   */
  function RiskOf(ts: seq<TokenHolding>, a: Allocation): (r: Risk)
    ensures r.score <= 100
    ensures r.score == 100 <==> RawRisk(ts, a) >= 99.5
    ensures r.score < 100 ==> r.score as real - 0.5 <= RawRisk(ts, a) < r.score as real + 0.5
    ensures r.level == High <==> r.score >= 60
    ensures r.level == Medium <==> 30 <= r.score < 60
    ensures r.level == Low <==> r.score < 30
  {
    var score := MinInt(Round(RawRisk(ts, a)), 100);
    Risk(score, LevelOf(score))
  }

  /** Accumulates the score component by component, then grades it. */
  method CalculateRiskScore(tokens: seq<TokenHolding>, allocation: Allocation) returns (r: Risk)
    ensures r == RiskOf(tokens, allocation)
  {
    var score := 0.0;
    score := score + MinReal(allocation.meme * 80.0, 40.0);
    assert score == MemePoints(allocation);
    if |tokens| > 0 {
      var den := SumValues(tokens) + 0.01;
      if den != 0.0 {
        var maxPct := MaxValue(tokens) / den;
        score := score + maxPct * 30.0;
      }
    }
    assert score == MemePoints(allocation) + ConcentrationPoints(tokens);
    if |tokens| <= 2 {
      score := score + 20.0;
    } else if |tokens| <= 5 {
      score := score + 10.0;
    }
    assert score == MemePoints(allocation) + ConcentrationPoints(tokens) + DiversificationPoints(|tokens|);
    var avgChange := AbsChangeSum(tokens) / (if |tokens| == 0 then 1 else |tokens|) as real;
    if avgChange > 20.0 {
      score := score + 10.0;
    }
    assert score == MemePoints(allocation) + ConcentrationPoints(tokens) + DiversificationPoints(|tokens|)
                    + VolatilityPoints(tokens);
    var rounded := MinInt(Round(score), 100);
    var level := Low;
    if rounded >= 60 {
      level := High;
    } else if rounded >= 30 {
      level := Medium;
    }
    r := Risk(rounded, level);
  }

  /** With no negative token value the largest value is at most the sum. */
  lemma {:induction false} MaxValueAtMostSum(ts: seq<TokenHolding>)
    requires ts != []
    requires forall t :: t in ts ==> t.valueUsd >= 0.0
    ensures MaxValue(ts) <= SumValues(ts)
  {
    if |ts| > 1 {
      var init := ts[..|ts| - 1];
      MaxValueAtMostSum(init);
      SumValuesNonNegative(init);
    }
  }

  lemma ConcentrationBelow30(ts: seq<TokenHolding>)
    requires forall t :: t in ts ==> t.valueUsd >= 0.0
    ensures 0.0 <= ConcentrationPoints(ts) < 30.0
  {
    if ts != [] {
      MaxValueAtMostSum(ts);
      SumValuesNonNegative(ts);
      var m, den := MaxValue(ts), SumValues(ts) + 0.01;
      assert 0.0 <= m < den;
      assert m / den < 1.0;
    }
  }

  /**
   * For non-negative token values and meme share the score lies in 0..100 and
   * the cap at 100 never changes it: the four components stay below 100.
   */
  lemma RiskScoreRange(ts: seq<TokenHolding>, a: Allocation)
    requires forall t :: t in ts ==> t.valueUsd >= 0.0
    requires a.meme >= 0.0
    ensures 0 <= RiskOf(ts, a).score <= 100
    ensures var raw := MemePoints(a) + ConcentrationPoints(ts) + DiversificationPoints(|ts|) + VolatilityPoints(ts);
            RiskOf(ts, a).score == Round(raw) && raw < 100.0
  {
    ConcentrationBelow30(ts);
  }

  /** A larger meme share never lowers the score. */
  lemma RiskMonotoneInMeme(ts: seq<TokenHolding>, a: Allocation, b: Allocation)
    requires a.meme <= b.meme
    ensures RiskOf(ts, a).score <= RiskOf(ts, b).score
  {
    var rest := ConcentrationPoints(ts) + DiversificationPoints(|ts|) + VolatilityPoints(ts);
    assert MemePoints(a) <= MemePoints(b);
    RoundMonotone(MemePoints(a) + rest, MemePoints(b) + rest);
  }

  lemma RoundMonotone(x: real, y: real)
    requires x <= y
    ensures Round(x) <= Round(y)
  {
  }

  /** A meme share of at least one half alone puts the score at 40 or more: a medium risk at least. */
  lemma HalfMemeIsAtLeastMedium(ts: seq<TokenHolding>, a: Allocation)
    requires forall t :: t in ts ==> t.valueUsd >= 0.0
    requires a.meme >= 0.5
    ensures RiskOf(ts, a).score >= 40 && RiskOf(ts, a).level != Low
  {
    ConcentrationBelow30(ts);
    var raw := MemePoints(a) + ConcentrationPoints(ts) + DiversificationPoints(|ts|) + VolatilityPoints(ts);
    assert raw >= 40.0;
    RoundMonotone(40.0, raw);
    RiskScoreRange(ts, a);
  }

  /** With no tokens and no meme share only the diversification points remain: a score of 20, a low risk. */
  lemma EmptyPortfolioRisk(a: Allocation)
    requires a.meme == 0.0
    ensures RiskOf([], a) == Risk(20, Low)
  {
    assert MemePoints(a) + ConcentrationPoints([]) + DiversificationPoints(0) + VolatilityPoints([]) == 20.0;
  }

  // ---- activity level ----

  datatype ActivityLevel = Inactive | LowActivity | Moderate | HighActivity | Whale

  function ActivityRank(l: ActivityLevel): nat
  {
    match l
    case Inactive => 0
    case LowActivity => 1
    case Moderate => 2
    case HighActivity => 3
    case Whale => 4
  }

  /** A wallet above 100000 USD is a whale; otherwise the 30-day count decides. */
  function ActivityLevelOf(txCount30d: nat, totalValue: real): (l: ActivityLevel)
    ensures l == Whale <==> totalValue > 100000.0
    ensures l == Inactive <==> totalValue <= 100000.0 && txCount30d == 0
    ensures l == LowActivity <==> totalValue <= 100000.0 && 1 <= txCount30d <= 4
    ensures l == Moderate <==> totalValue <= 100000.0 && 5 <= txCount30d <= 19
    ensures l == HighActivity <==> totalValue <= 100000.0 && txCount30d >= 20
  {
    if totalValue > 100000.0 then Whale
    else if txCount30d == 0 then Inactive
    else if txCount30d < 5 then LowActivity
    else if txCount30d < 20 then Moderate
    else HighActivity
  }

  /** Below the whale threshold more transactions never give a lower level. */
  lemma ActivityMonotone(n: nat, m: nat, totalValue: real)
    requires n <= m && totalValue <= 100000.0
    ensures ActivityRank(ActivityLevelOf(n, totalValue)) <= ActivityRank(ActivityLevelOf(m, totalValue))
  {
  }

  // ---- portfolio health ----

  datatype Health = Poor | Fair | Good | Excellent

  /** How many of the four checks pass: five or more tokens, meme below 0.2, blue chips above 0.3, STX above 0.1. */
  function HealthChecks(a: Allocation, tokenCount: nat): (n: nat)
    ensures n <= 4
    ensures n == 4 <==> tokenCount >= 5 && a.meme < 0.2 && a.blueChip > 0.3 && a.stx > 0.1
    ensures n == 0 <==> tokenCount < 5 && a.meme >= 0.2 && a.blueChip <= 0.3 && a.stx <= 0.1
  {
    (if tokenCount >= 5 then 1 else 0) + (if a.meme < 0.2 then 1 else 0)
    + (if a.blueChip > 0.3 then 1 else 0) + (if a.stx > 0.1 then 1 else 0)
  }

  function PortfolioHealth(a: Allocation, tokens: seq<TokenHolding>): (h: Health)
    ensures h == Excellent <==> HealthChecks(a, |tokens|) == 4
    ensures h == Good <==> HealthChecks(a, |tokens|) == 3
    ensures h == Fair <==> HealthChecks(a, |tokens|) == 2
    ensures h == Poor <==> HealthChecks(a, |tokens|) <= 1
  {
    var score := HealthChecks(a, |tokens|);
    if score >= 4 then Excellent
    else if score >= 3 then Good
    else if score >= 2 then Fair
    else Poor
  }

  /** An empty portfolio passes exactly one check, the low-meme one, and is graded poor. */
  lemma EmptyPortfolioIsPoor(a: Allocation)
    requires a == Allocation(0.0, 0.0, 0.0, 0.0, 0.0)
    ensures HealthChecks(a, 0) == 1
    ensures PortfolioHealth(a, []) == Poor
  {
  }
}
