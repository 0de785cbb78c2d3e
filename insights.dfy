/**
 * The insight generator: nine independent rules, checked in a fixed order,
 * each appending at most one insight to the report's list.
 */
module Insights {
  import opened Wrappers
  import opened Tables
  import opened Holdings
  import opened Activity
  import opened Scoring
  import opened Report

  const RuleCount: nat := 9

  /** The position of a title's rule in the rule order. */
  function Rank(t: Title): (k: nat)
    ensures k < RuleCount
  {
    match t
    case LargePortfolio => 0
    case HighRiskProfile => 1
    case ConcentrationRisk => 2
    case LowStxBalance => 3
    case DefiOpportunities => 4
    case StackingAvailable => 5
    case SbtcConsideration => 6
    case DormantWallet => 7
    case NftCollector => 8
  }

  /** The index of the first token of largest value: later tokens replace it only when strictly larger. */
  function TopIndex(ts: seq<TokenHolding>): (i: nat)
    requires ts != []
    ensures i < |ts|
    ensures forall j :: 0 <= j < |ts| ==> ts[j].valueUsd <= ts[i].valueUsd
    ensures forall j :: 0 <= j < i ==> ts[j].valueUsd < ts[i].valueUsd
  {
    if |ts| == 1 then 0
    else
      var i := TopIndex(ts[..|ts| - 1]);
      if ts[|ts| - 1].valueUsd > ts[i].valueUsd then |ts| - 1 else i
  }

  function TopToken(ts: seq<TokenHolding>): TokenHolding
    requires ts != []
  {
    ts[TopIndex(ts)]
  }

  /**
   * Whether `part / total` exceeds a non-negative `bound` in floating-point
   * arithmetic: over a zero total a positive part gives +Infinity (above any
   * bound), a zero part NaN and a negative part -Infinity (above none).
   */
  function ShareAbove(part: real, total: real, bound: real): bool
  {
    if total == 0.0 then part > 0.0 else part / total > bound
  }

  /** The rounded percentage `part / total * 100`, or `None` when it is not finite. */
  function SharePercent(part: real, total: real): Option<int>
  {
    if total == 0.0 then None else Some(Round(part / total * 100.0))
  }

  predicate HasStaking(defi: seq<Position>)
  {
    exists i :: 0 <= i < |defi| && defi[i].kind == Staking
  }

  predicate HoldsSbtc(ts: seq<TokenHolding>)
  {
    exists i :: 0 <= i < |ts| && ts[i].symbol == "sBTC"
  }

  /** The condition of rule `k`. */
  function Fires(k: nat, r: WalletReport): bool
    requires k < RuleCount
  {
    var s := r.summary;
    if k == 0 then s.totalValueUsd > 50000.0
    else if k == 1 then s.riskLevel == High
    else if k == 2 then r.tokens != [] && ShareAbove(TopToken(r.tokens).valueUsd, s.totalValueUsd, 0.6)
    else if k == 3 then r.allocation.stx < 0.1 && s.totalValueUsd > 100.0
    else if k == 4 then r.defi == [] && s.stxBalance > 100.0
    else if k == 5 then s.stxBalance > 500.0 && !HasStaking(r.defi)
    else if k == 6 then r.allocation.blueChip > 0.5 && !HoldsSbtc(r.tokens)
    else if k == 7 then s.activityLevel == Inactive
    else s.nftCount > 10
  }

  /** The insight rule `k` appends. */
  function InsightOf(k: nat, r: WalletReport): (i: Insight)
    requires k < RuleCount
    ensures Rank(i.title) == k
  {
    var s := r.summary;
    if k == 0 then
      Insight(Info, LargePortfolio, PortfolioValue(s.totalValueUsd), None)
    else if k == 1 then
      Insight(RiskWarning, HighRiskProfile, MemeShare(Round(r.allocation.meme * 100.0)),
              Some(Rebalance))
    else if k == 2 then
      var top := if r.tokens == [] then "" else TopToken(r.tokens).symbol;
      var percent := if r.tokens == [] then None else SharePercent(TopToken(r.tokens).valueUsd, s.totalValueUsd);
      Insight(Warning, ConcentrationRisk, TopShare(percent, top), Some(Diversify))
    else if k == 3 then
      Insight(Warning, LowStxBalance, Fixed(FeesNeedStx),
              Some(HoldStx))
    else if k == 4 then
      Insight(Opportunity, DefiOpportunities, Fixed(IdleStx),
              Some(ExploreDefi))
    else if k == 5 then
      Insight(Opportunity, StackingAvailable, StackableStx(s.stxBalance),
              Some(StackStx))
    else if k == 6 then
      Insight(Opportunity, SbtcConsideration, Fixed(SbtcUtility),
              Some(AllocateSbtc))
    else if k == 7 then
      Insight(Info, DormantWallet, Fixed(NoRecentTransactions),
              Some(PutAssetsToWork))
    else
      Insight(Info, NftCollector, NftHoldings(s.nftCount, |r.nfts|), None)
  }

  /** The insights of the first `n` rules, in rule order. */
  function Collect(r: WalletReport, n: nat): seq<Insight>
    requires n <= RuleCount
  {
    if n == 0 then [] else Collect(r, n - 1) + (if Fires(n - 1, r) then [InsightOf(n - 1, r)] else [])
  }

  /** The rules among the first `n` that fire, in order. */
  function Fired(r: WalletReport, n: nat): seq<nat>
    requires n <= RuleCount
  {
    if n == 0 then [] else Fired(r, n - 1) + (if Fires(n - 1, r) then [n - 1] else [])
  }

  /** `c` lists the insights of the rules `f` among the first `n`, which are those that fire, in order. */
  ghost predicate Tracks(r: WalletReport, n: nat, c: seq<Insight>, f: seq<nat>)
    requires n <= RuleCount
  {
    && |c| == |f| <= n
    && (forall i :: 0 <= i < |f| ==> f[i] < n && c[i] == InsightOf(f[i], r))
    && (forall i, j :: 0 <= i < j < |f| ==> f[i] < f[j])
    && (forall k :: 0 <= k < n ==> (k in f <==> Fires(k, r)))
  }

  /** Applying rule `n` keeps the tracking. */
  lemma TracksStep(r: WalletReport, n: nat, c: seq<Insight>, f: seq<nat>)
    requires n < RuleCount && Tracks(r, n, c, f)
    ensures Tracks(r, n + 1, c + (if Fires(n, r) then [InsightOf(n, r)] else []),
                   f + (if Fires(n, r) then [n] else []))
  {
    var f' := f + (if Fires(n, r) then [n] else []);
    forall k | 0 <= k < n + 1 ensures k in f' <==> Fires(k, r) {
      if k < n {
        assert k in f' <==> k in f;
      }
    }
  }

  lemma {:induction false} CollectFacts(r: WalletReport, n: nat)
    requires n <= RuleCount
    ensures Tracks(r, n, Collect(r, n), Fired(r, n))
  {
    if n > 0 {
      CollectFacts(r, n - 1);
      TracksStep(r, n - 1, Collect(r, n - 1), Fired(r, n - 1));
    }
  }

  /** Applying rule `k` to the insights of the rules before it gives the insights of the first `k + 1` rules. */
  lemma RuleApplied(r: WalletReport, k: nat, before: seq<Insight>, after: seq<Insight>)
    requires k < RuleCount && before == Collect(r, k)
    requires after == if Fires(k, r) then before + [InsightOf(k, r)] else before
    ensures after == Collect(r, k + 1)
  {
  }

  predicate HasTitle(insights: seq<Insight>, title: Title)
  {
    exists i :: 0 <= i < |insights| && insights[i].title == title
  }

  /** Looking an insight up by its title text finds exactly the insights with that title. */
  lemma HasTitleText(insights: seq<Insight>, title: Title)
    ensures HasTitle(insights, title)
            <==> exists i :: 0 <= i < |insights| && TitleText(insights[i].title) == TitleText(title)
  {
    forall i | 0 <= i < |insights| && TitleText(insights[i].title) == TitleText(title)
      ensures insights[i].title == title
    {
      TitleTextInjective(insights[i].title, title);
    }
  }

  /**
   * The list holds at most one insight per rule, in rule order, and the
   * insight of a rule is present exactly when the rule's condition holds.
   */
  lemma InsightsInRuleOrder(r: WalletReport)
    ensures |Collect(r, RuleCount)| <= RuleCount
    ensures var s := Collect(r, RuleCount);
            forall i, j :: 0 <= i < j < |s| ==> Rank(s[i].title) < Rank(s[j].title)
    ensures forall t :: HasTitle(Collect(r, RuleCount), t) <==> Fires(Rank(t), r)
  {
    var s, f := Collect(r, RuleCount), Fired(r, RuleCount);
    CollectFacts(r, RuleCount);
    forall t ensures HasTitle(s, t) <==> Fires(Rank(t), r) {
      if Fires(Rank(t), r) {
        var i :| 0 <= i < |f| && f[i] == Rank(t);
        assert s[i].title == t;
      }
      if HasTitle(s, t) {
        var i :| 0 <= i < |s| && s[i].title == t;
        assert f[i] in f;
      }
    }
  }

  /** "Dormant Wallet" is reported exactly for an inactive wallet. */
  lemma DormantIffInactive(r: WalletReport)
    ensures HasTitle(Collect(r, RuleCount), DormantWallet) <==> r.summary.activityLevel == Inactive
  {
    InsightsInRuleOrder(r);
  }

  /** "NFT Collector" is reported exactly when more than ten NFTs are held. */
  lemma CollectorIffMoreThanTenNfts(r: WalletReport)
    ensures HasTitle(Collect(r, RuleCount), NftCollector) <==> r.summary.nftCount > 10
  {
    InsightsInRuleOrder(r);
  }

  /** "Concentration Risk" needs at least one token, and the top token's share of the total above 0.6. */
  lemma ConcentrationNeedsTopShare(r: WalletReport)
    ensures HasTitle(Collect(r, RuleCount), ConcentrationRisk)
            <==> r.tokens != [] && ShareAbove(TopToken(r.tokens).valueUsd, r.summary.totalValueUsd, 0.6)
  {
    InsightsInRuleOrder(r);
  }

  /** Applies the nine rules in order, appending each insight whose condition holds. */
  method GenerateInsights(report: WalletReport) returns (insights: seq<Insight>)
    ensures insights == Collect(report, RuleCount)
  {
    var s := report.summary;
    insights := [];
    ghost var before, done := insights, 0;  // invariant: insights == Collect(report, done)
    if s.totalValueUsd > 50000.0 {
      insights := insights + [InsightOf(0, report)];
    }
    RuleApplied(report, done, before, insights);
    done := done + 1;
    before := insights;
    if s.riskLevel == High {
      insights := insights + [InsightOf(1, report)];
    }
    RuleApplied(report, done, before, insights);
    done := done + 1;
    before := insights;
    if |report.tokens| > 0 {
      var topToken := TopToken(report.tokens);
      if ShareAbove(topToken.valueUsd, s.totalValueUsd, 0.6) {
        insights := insights + [InsightOf(2, report)];
      }
    }
    RuleApplied(report, done, before, insights);
    done := done + 1;
    before := insights;
    if report.allocation.stx < 0.1 && s.totalValueUsd > 100.0 {
      insights := insights + [InsightOf(3, report)];
    }
    RuleApplied(report, done, before, insights);
    done := done + 1;
    before := insights;
    if |report.defi| == 0 && s.stxBalance > 100.0 {
      insights := insights + [InsightOf(4, report)];
    }
    RuleApplied(report, done, before, insights);
    done := done + 1;
    before := insights;
    if s.stxBalance > 500.0 && !HasStaking(report.defi) {
      insights := insights + [InsightOf(5, report)];
    }
    RuleApplied(report, done, before, insights);
    done := done + 1;
    before := insights;
    if report.allocation.blueChip > 0.5 && !HoldsSbtc(report.tokens) {
      insights := insights + [InsightOf(6, report)];
    }
    RuleApplied(report, done, before, insights);
    done := done + 1;
    before := insights;
    if s.activityLevel == Inactive {
      insights := insights + [InsightOf(7, report)];
    }
    RuleApplied(report, done, before, insights);
    done := done + 1;
    before := insights;
    if s.nftCount > 10 {
      insights := insights + [InsightOf(8, report)];
    }
    RuleApplied(report, done, before, insights);
    done := done + 1;
  }
}
