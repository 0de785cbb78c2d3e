/**
 * The analysis endpoint after payment: the address check, the totals and
 * allocation, the three scorers, the two descending sorts and the insights,
 * over the already-fetched STX price and balance, token holdings, NFT
 * holdings and transaction-history analysis.
 */
module Analysis {
  import opened Wrappers
  import opened Text
  import opened Ordering
  import opened Holdings
  import opened Nfts
  import opened Activity
  import opened Scoring
  import opened Report
  import opened Insights
  import opened Dictionaries

  /** A Stacks mainnet address: standard (`SP`) or multisig (`SM`). */
  predicate ValidAddress(address: string)
  {
    StartsWith(address, "SP") || StartsWith(address, "SM")
  }

  /** The sort key of `tokens.sort((a, b) => b.valueUsd - a.valueUsd)`. */
  function ValueKey(t: TokenHolding): real
  {
    t.valueUsd
  }

  /** The sort key of `nfts.sort((a, b) => b.count - a.count)`. */
  function CountKey(n: NftHolding): real
  {
    n.count as real
  }

  /**
   * What a report holds for the given inputs: every figure is computed on
   * the holdings in provider order, the lists are then sorted by descending
   * value and count, and the insights are those of the report without them.
   */
  ghost predicate Assembled(r: WalletReport, address: string, bnsName: Option<string>, timestamp: string,
                            stxPrice: real, stxBalance: real, tokens: seq<TokenHolding>,
                            nfts: seq<NftHolding>, defiData: ActivityReport)
  {
    var total := TotalValue(tokens, stxBalance, stxPrice);
    var allocation := ComputeAllocation(tokens, stxBalance, stxPrice);
    var risk := RiskOf(tokens, allocation);
    && r.address == address && r.bnsName == bnsName && r.timestamp == timestamp
    && r.summary == Summary(total, stxBalance, stxPrice, |tokens|, SumOf(nfts, HoldingCount), |defiData.positions|,
                            risk.score, risk.level, ActivityLevelOf(defiData.txCount30d, total),
                            PortfolioHealth(allocation, tokens))
    && r.allocation == allocation
    && r.tokens == SortDesc(tokens, ValueKey)
    && r.nfts == SortDesc(nfts, CountKey)
    && r.defi == defiData.positions
    && r.recentActivity == RecentActivity(defiData.txCount30d, defiData.lastActive, defiData.topInteractions)
    && r.insights == Collect(r.(insights := []), RuleCount)
  }

  /**
   * The analysis handler once the payment is verified: an address that is
   * neither `SP…` nor `SM…` is rejected; otherwise the report is assembled.
   */
  method AnalyzeWallet(address: string, bnsName: Option<string>, timestamp: string,
                       stxPrice: real, stxBalance: real, tokens: seq<TokenHolding>,
                       nfts: seq<NftHolding>, defiData: ActivityReport)
    returns (result: Result<WalletReport, string>)
    ensures result.Err? <==> !ValidAddress(address)
    ensures result.Err? ==> result.error == "Invalid Stacks address"
    ensures result.Ok? ==> Assembled(result.value, address, bnsName, timestamp, stxPrice, stxBalance,
                                     tokens, nfts, defiData)
  {
    if !StartsWith(address, "SP") && !StartsWith(address, "SM") {
      return Err("Invalid Stacks address");
    }
    var tokenValue := SumValues(tokens);
    var stxValueUsd := stxBalance * stxPrice;
    var totalValueUsd := tokenValue + stxValueUsd;
    var allocation := ComputeAllocation(tokens, stxBalance, stxPrice);
    var risk := CalculateRiskScore(tokens, allocation);
    var activityLevel := ActivityLevelOf(defiData.txCount30d, totalValueUsd);
    var portfolioHealth := PortfolioHealth(allocation, tokens);
    var summary := Summary(totalValueUsd, stxBalance, stxPrice, |tokens|, SumOf(nfts, HoldingCount),
                           |defiData.positions|, risk.score, risk.level, activityLevel, portfolioHealth);
    var report := WalletReport(address, bnsName, timestamp, summary, allocation,
                               SortDesc(tokens, ValueKey), SortDesc(nfts, CountKey), defiData.positions,
                               RecentActivity(defiData.txCount30d, defiData.lastActive, defiData.topInteractions),
                               []);
    var insights := GenerateInsights(report);
    result := Ok(report.(insights := insights));
  }

  /** In a list sorted by descending value the top token is the first one. */
  lemma TopOfSortedIsFirst(ts: seq<TokenHolding>)
    requires ts != [] && SortedDesc(ts, ValueKey)
    ensures TopIndex(ts) == 0
  {
    var i := TopIndex(ts);
    assert ValueKey(ts[0]) >= ValueKey(ts[i]);
  }

  /** The top token of the sorted holdings carries the largest token value. */
  lemma TopOfSortedIsMax(ts: seq<TokenHolding>)
    requires ts != []
    ensures var sorted := SortDesc(ts, ValueKey);
            sorted != [] && TopToken(sorted) == sorted[0] && sorted[0].valueUsd == MaxValue(ts)
  {
    var sorted := SortDesc(ts, ValueKey);
    SortDescIsStableSort(ts, ValueKey);
    assert sorted[0] in multiset(ts);
    TopOfSortedIsFirst(sorted);
    var k :| 0 <= k < |ts| && ts[k].valueUsd == MaxValue(ts);
    assert ts[k] in multiset(sorted);
    var j :| 0 <= j < |sorted| && sorted[j] == ts[k];
    assert ValueKey(sorted[0]) >= ValueKey(sorted[j]);
  }

  /**
   * An assembled report: holdings sorted and permuted, fractions adding up to
   * one for a positive total, a risk score within 0..100 and at most nine
   * insights in rule order, "Concentration Risk" exactly when the largest
   * token value is above 0.6 of the total.
   */
  lemma AssembledFacts(r: WalletReport, address: string, bnsName: Option<string>, timestamp: string,
                       stxPrice: real, stxBalance: real, tokens: seq<TokenHolding>,
                       nfts: seq<NftHolding>, defiData: ActivityReport)
    requires Assembled(r, address, bnsName, timestamp, stxPrice, stxBalance, tokens, nfts, defiData)
    requires forall t :: t in tokens ==> t.valueUsd >= 0.0
    requires stxBalance >= 0.0 && stxPrice >= 0.0
    ensures SortedDesc(r.tokens, ValueKey) && multiset(r.tokens) == multiset(tokens)
    ensures SortedDesc(r.nfts, CountKey) && multiset(r.nfts) == multiset(nfts)
    ensures r.summary.totalValueUsd > 0.0 ==> AllocationSum(r.allocation) == 1.0
    ensures 0 <= r.summary.riskScore <= 100
    ensures |r.insights| <= RuleCount
    ensures forall i, j :: 0 <= i < j < |r.insights| ==> Rank(r.insights[i].title) < Rank(r.insights[j].title)
    ensures HasTitle(r.insights, ConcentrationRisk)
            <==> tokens != [] && ShareAbove(MaxValue(tokens), r.summary.totalValueUsd, 0.6)
  {
    SortDescIsStableSort(tokens, ValueKey);
    SortDescIsStableSort(nfts, CountKey);
    AllocationSumsToOne(tokens, stxBalance, stxPrice);
    AllocationBounds(tokens, stxBalance, stxPrice);
    RiskScoreRange(tokens, r.allocation);
    var r0 := r.(insights := []);
    InsightsInRuleOrder(r0);
    ConcentrationNeedsTopShare(r0);
    if tokens != [] {
      TopOfSortedIsMax(tokens);
    }
  }
}
