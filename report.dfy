/**
 * The wallet-intelligence report: the summary figures, the allocation, the
 * sorted holdings, the DeFi positions, the recent-activity block and the
 * insights, as the analysis endpoint assembles them.
 */
module Report {
  import opened Wrappers
  import opened Holdings
  import opened Nfts
  import opened Activity
  import opened Scoring

  datatype Summary = Summary(
    totalValueUsd: real,
    stxBalance: real,
    stxPrice: real,
    tokenCount: nat,
    nftCount: int,
    defiProtocols: nat,
    riskScore: int,
    riskLevel: RiskLevel,
    activityLevel: ActivityLevel,
    portfolioHealth: Health)

  datatype RecentActivity = RecentActivity(txCount30d: nat, lastActive: Option<string>, topInteractions: seq<string>)

  datatype InsightType = Info | Warning | Opportunity | RiskWarning

  /** The fixed sentences some insights carry as their description. */
  datatype Note = FeesNeedStx | IdleStx | SbtcUtility | NoRecentTransactions

  function NoteText(n: Note): string
  {
    match n
    case FeesNeedStx => "STX is needed for transaction fees and stacking rewards."
    case IdleStx => "You have STX that could be earning yield."
    case SbtcUtility => "sBTC offers Bitcoin exposure with DeFi utility on Stacks."
    case NoRecentTransactions => "No transactions in the last 30 days."
  }

  /**
   * An insight's description. Those that embed figures keep the figures, not
   * their rendering as text; `topPercent` is `None` where the percentage is not
   * a finite number (a share of a zero total).
   */
  datatype Description =
    | Fixed(note: Note)
    | PortfolioValue(usd: real)
    | MemeShare(percent: int)
    | TopShare(topPercent: Option<int>, symbol: string)
    | StackableStx(stx: real)
    | NftHoldings(count: int, collections: nat)

  /** The suggested actions, one per fixed sentence; their wording is not modelled. */
  datatype Action = Rebalance | Diversify | HoldStx | ExploreDefi | StackStx | AllocateSbtc | PutAssetsToWork

  /** The nine insight titles. */
  datatype Title =
    | LargePortfolio | HighRiskProfile | ConcentrationRisk | LowStxBalance | DefiOpportunities
    | StackingAvailable | SbtcConsideration | DormantWallet | NftCollector

  function TitleText(t: Title): string
  {
    match t
    case LargePortfolio => "Large Portfolio"
    case HighRiskProfile => "High Risk Profile"
    case ConcentrationRisk => "Concentration Risk"
    case LowStxBalance => "Low STX Balance"
    case DefiOpportunities => "DeFi Opportunities"
    case StackingAvailable => "Stacking Available"
    case SbtcConsideration => "sBTC Consideration"
    case DormantWallet => "Dormant Wallet"
    case NftCollector => "NFT Collector"
  }

  /** Distinct titles read differently: a title is identified by its text. */
  lemma TitleTextInjective(t: Title, u: Title)
    requires TitleText(t) == TitleText(u)
    ensures t == u
  {
    var a, b := TitleText(t), TitleText(u);
    assert |a| == |b| && a[0] == b[0] && a[1] == b[1];
  }

  /** Distinct notes read differently. */
  lemma NoteTextInjective(n: Note, m: Note)
    requires NoteText(n) == NoteText(m)
    ensures n == m
  {
    assert |NoteText(n)| == |NoteText(m)|;
  }

  datatype Insight = Insight(kind: InsightType, title: Title, description: Description, action: Option<Action>)

  datatype WalletReport = WalletReport(
    address: string,
    bnsName: Option<string>,
    timestamp: string,
    summary: Summary,
    allocation: Allocation,
    tokens: seq<TokenHolding>,
    nfts: seq<NftHolding>,
    defi: seq<Position>,
    recentActivity: RecentActivity,
    insights: seq<Insight>)
}
