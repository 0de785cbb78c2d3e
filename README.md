# wallet-intel: the aggregation and scoring engine

This project models the core of the Stacks wallet-intelligence service. The service
accepts a wallet address, collects the wallet's fungible-token holdings, NFT
holdings and recent transaction history, and answers with a report. The report
holds:

- the portfolio total and its allocation across STX and four token categories;
- a 0–100 risk score and risk level;
- an activity level and a portfolio-health grade;
- the holdings sorted by value;
- the DeFi protocols the wallet has used, plus its five most-called contracts;
- up to nine rule-based insights.

The model takes every input as an already-parsed record:

- the provider's token rows and NFT records;
- the transaction list;
- the STX price and balance;
- the current time, in milliseconds.

It does not model the network fetches that produce these inputs.

Modules, in dependency order:

| module | what it models |
|---|---|
| `Wrappers` | `Option` and `Result` |
| `Text` | ASCII upper-casing, `startsWith`, `includes`, `split(sep)[0]`, `split('.').pop()`, and the `x \|\| default` idiom |
| `Tables` | the fixed tables: the ten-row protocol table with its deployer addresses, the meme list, the blue-chip list, and the DeFi name fragments |
| `Dictionaries` | plain objects used as dictionaries: the lookup `obj[key]` over a sequence of entries and a key projection, and the sum of a projection over the entries |
| `Ordering` | `Array.prototype.sort` with a descending comparator, as a stable insertion sort (JavaScript's sort is stable), and `slice(0, n)` |
| `Holdings` | the token categoriser and the provider-row mapping, with its placeholders |
| `Nfts` | the group-by-collection loop of the NFT fetch |
| `Activity` | the transaction-history analysis: the 30-day count, the last-active time, the first-match protocol scan, the per-protocol and per-contract dictionaries, and the top five |
| `Scoring` | totals and allocation, the risk score, the activity level and the portfolio health |
| `Report` | the report record |
| `Insights` | the nine insight rules |
| `Analysis` | the analysis handler: the address check, then assembling the report |
| `Payment` | the payment-token-type choice and transaction-id normalisation |
| `PriceCache` | the five-minute STX price cache and its fallback chain |

JavaScript objects used as ordered dictionaries are modelled as sequences of entries in insertion order. This covers the NFT collections, the per-protocol interactions and the per-contract counts. Insertion order decides the first-seen order of entries and the tie order of the top-five list.

The imperative parts are methods with loops or step-by-step updates, proved against functions of their inputs:

- the NFT grouping loop;
- the transaction loop with its inner protocol scan, which breaks at the first match;
- the score accumulation;
- the insight list;
- the price cache.

The functions' properties are proved as lemmas.

Money and shares are `real`. `Math.round(x)` is `floor(x + 1/2)`.

Four behaviours of the code that its own comments and tables do not suggest (the `// 0-100` comments at src/index.ts:609 and 883, and the blue-chip table at src/index.ts:569), modelled as the code has them:

- **Risk score.** The score is capped at 100 but not clamped below. Its range 0..100 is proved for non-negative token values (`Scoring.RiskScoreRange`), and there the cap never changes the value.
- **Empty portfolio, risk.** With no tokens, the diversification rule still adds 20 points (it applies to "at most two tokens"). So the risk score is 20, not 0 (`Scoring.EmptyPortfolioRisk`).
- **Empty portfolio, health.** An empty portfolio with an all-zero allocation passes one health check, the low-meme one, not zero checks. It is still graded poor (`Scoring.EmptyPortfolioIsPoor`).
- **Blue-chip matching.** The blue-chip test upper-cases the symbol but compares it against a list that contains `sBTC`, `xBTC` and `sUSDT`. Those three entries can never match, so those tokens are never blue-chip (`Holdings.BlueChipExactly`).

## Model

| member | source | states |
|---|---|---|
| Text.Upper | src/index.ts:753 | `toUpperCase` on ASCII: same length; each character is upper-cased, and only a–z change |
| Text.UpperHasNoLowerCase | src/index.ts:753 | an upper-cased symbol contains no lower-case letter |
| Text.BeforeDoubleColon | src/index.ts:798 | `split('::')[0]` is the prefix before the first `::`: no `::` starts inside it, and `::` follows it when it is shorter than the input |
| Text.BeforeFirst | src/index.ts:843 | `split('.')[0]` is a prefix with no `.`, followed by `.` when shorter than the input |
| Text.LastSegment | src/index.ts:799 | `split('.').pop()` is a suffix with no `.`, preceded by `.` when shorter than the input |
| Text.OrDefault | src/index.ts:544 | `o \|\| d`: a present, non-empty string wins; otherwise the default |
| Tables.DeployerOfRow | src/index.ts:552-563 | the deployer address of each protocol-table row is the one of its protocol name |
| Tables.SameNameSameDeployer | src/index.ts:552-563 | rows with the same protocol name share their deployer address |
| Holdings.CategorizeToken | src/index.ts:752-758 | blue-chip exactly when the upper-cased symbol is STX, USDA, ALEX or VELAR; meme exactly when it is not in the blue-chip list but in the meme list; defi exactly when it is in neither list and the contract contains alex, velar or arkadiko; other in every remaining case |
| Holdings.BlueChipExactly | src/index.ts:752-758 | a token is blue-chip exactly when its upper-cased symbol is STX, USDA, ALEX or VELAR |
| Holdings.MixedCaseEntriesUnreachable | src/index.ts:569 | membership of an upper-cased symbol in the blue-chip list is membership in its all-upper-case entries |
| Holdings.BitcoinAndDollarTokensNotBlueChip | src/index.ts:752-758 | sBTC, xBTC and sUSDT, in any letter case, are never blue-chip; they are defi or other |
| Holdings.CategoryPriority | src/index.ts:752-758 | the blue-chip test beats the meme test, and both beat the contract test; a listed symbol makes the contract irrelevant; defi exactly when the symbol is unlisted and the contract contains alex, velar or arkadiko |
| Holdings.CategoryIgnoresLetterCase | src/index.ts:753 | symbols that upper-case alike get the same category |
| Holdings.NormalizeToken | src/index.ts:767-781 | the row mapping passes every present field through (a non-empty symbol and name, the contract, the balance, the parsed numbers, the 24-hour change) and fills in the "UNKNOWN" and "Unknown Token" placeholders, an empty contract and 0 for missing numbers; the category is that of the final symbol and contract |
| Holdings.NormalizeRoundTrip | src/index.ts:767-781 | every canonical holding is the mapping of its own row form |
| Holdings.NormalizeIdempotent | src/index.ts:767-781 | the mapping's output is canonical, and mapping it again changes nothing |
| Holdings.NormalizeHoldings | src/index.ts:767-781 | one holding per row, in provider order, each canonical |
| Nfts.CollectionId | src/index.ts:798 | the collection key is the text before the first `::` of the asset identifier when that is non-empty; "Unknown" when the identifier is missing or that text is empty |
| Nfts.CollectionName | src/index.ts:799 | the collection name is the last `.`-separated segment of the key when that is non-empty, else "Unknown"; never empty and without `.` |
| Dictionaries.IndexOf | src/index.ts:802 | the dictionary lookup `obj[key]`: the position of the entry with that key, -1 exactly when no entry has it |
| Nfts.SeenOrderDistinct | src/index.ts:797-807 | the collection keys, in first-seen order, are distinct |
| Nfts.GroupKeys | src/index.ts:797-807 | the dictionary has one entry per distinct collection, in first-seen order |
| Nfts.NewEntryAt | src/index.ts:802-806 | a record with an unseen collection key opens an entry with just its token id, count 1 and the collection's name |
| Nfts.GroupEntryAt | src/index.ts:802-806 | an entry holds its collection's token ids in provider order, and its count is their number (positive) |
| Nfts.GroupCountsAll | src/index.ts:797-807 | the counts add up to the number of records |
| Nfts.GroupReportsCollections | src/index.ts:795-814 | the reported holdings are the distinct collections in first-seen order, each with its count, its first token id and its name; their counts sum to the number of records |
| Nfts.GroupNfts | src/index.ts:795-814 | the grouping loop reports exactly that |
| Activity.CountRecent | src/index.ts:829-830 | the 30-day count is at most the number of transactions; it equals it exactly when all are recent, and is 0 exactly when none is |
| Activity.CountRecentCountsRecent | src/index.ts:829-830 | the 30-day count is the number of transactions whose parsed block time lies within the last 30 days |
| Activity.LastActive | src/index.ts:876 | last-active is the first transaction's non-empty time, and null for an empty history |
| Activity.MatchRowFrom | src/index.ts:842-856 | the first protocol row, in declaration order, whose deployer address occurs in the contract id; no earlier row matches |
| Activity.ScanProtocols | src/index.ts:842-856 | the inner scan stops at that first matching row, or finds none |
| Activity.DetectDefiPositions | src/index.ts:829-876 | the loop yields the per-protocol positions, the top five contracts, the 30-day count and the last-active time, as `Summarize` defines them |
| Activity.MatchIsFirstRowOfItsName | src/index.ts:842-856 | the matched row is the first row of its protocol name |
| Activity.SameNameSameRow | src/index.ts:842-856 | calls attributed to the same protocol name are attributed to the same row |
| Activity.AlexIsVaultArkadikoIsDex | src/index.ts:552-563 | the second and third ALEX rows and the second and third Arkadiko rows never match; ALEX calls become vault positions and Arkadiko calls dex positions |
| Activity.SeenProtocolsDistinct | src/index.ts:844-853 | the attributed protocol names, in first-seen order, are distinct |
| Activity.DefiTallyKeys | src/index.ts:844-865 | one position per attributed protocol, in first-seen order |
| Activity.DefiTallyEntryAt | src/index.ts:844-865 | a position counts the calls attributed to its protocol (at least one); its type and last interaction come from the first of those calls |
| Activity.DefiTallySum | src/index.ts:836-858 | the interactions sum to the attributed calls, which are at most the contract calls, which are at most the transactions |
| Activity.CallTallyFacts | src/index.ts:836-839 | the per-contract counts are positive, keyed by distinct contracts, and sum to the number of contract calls |
| Activity.SeenContractsDistinct | src/index.ts:836-839 | the called contracts, in first-call order, are distinct |
| Activity.CallTallyKeys | src/index.ts:836-839 | one per-contract count per distinct called contract, keyed in first-call order |
| Activity.CallTallyEntryAt | src/index.ts:836-839 | each contract's count is the number of contract calls to it, and positive |
| Activity.TopCalls | src/index.ts:866-870 | `Object.entries(all).sort(by count).slice(0, 5)` keeps five entries when there are more than five and all of them otherwise, each drawn from the dictionary |
| Activity.TopCallsFacts | src/index.ts:867-870 | the top list has exactly five entries when there are more than five, and all of them otherwise; sorted by descending count; every left-out contract has a count no higher than any kept one; equal counts keep insertion order; the top list is the first entries of the stable sort, so among equal counts the earlier-inserted contracts are the ones kept |
| Activity.TopInteractionsMostCalled | src/index.ts:836-870 | each top contract was called, and its count is its number of calls; no called contract left out of the top list was called more often than any kept one |
| Activity.Summarize | src/index.ts:829-876 | the analysis holds one position per attributed protocol, in first-seen order, and the top contracts: five when more than five contracts were called, all of them otherwise, each of them a called contract |
| Activity.SummaryBounds | src/index.ts:829-876 | the 30-day count is at most the number of transactions; there are at most five top interactions; the interactions are at most the contract calls; last-active is present exactly when the first transaction has a time; the protocols are distinct |
| Ordering.Take | src/index.ts:869 | `slice(0, n)` is a prefix: the whole list when it has at most n elements, exactly n elements otherwise |
| Ordering.SortDescIsStableSort | src/index.ts:1238-1239 | the sort keeps the length, is a permutation, orders by descending key, and keeps equal keys in input order |
| Scoring.TotalValue | src/index.ts:1199-1201 | the total is the STX value plus the four category sums; it is non-negative when no amount is negative |
| Scoring.ComputeAllocation | src/index.ts:1204-1215 | for a positive total each fraction is its part over the total (the STX value, then each category sum), as the `totalValueUsd > 0 ? … : 0` guards give; otherwise every fraction is 0 |
| Scoring.CategoriesPartitionValue | src/index.ts:1204-1207 | the four category sums add up to the token total |
| Scoring.SumValuesNonNegative | src/index.ts:1199 | non-negative values give a non-negative total |
| Scoring.AllocationSumsToOne | src/index.ts:1199-1215 | for a positive total the five fractions sum to exactly 1; otherwise they are all 0 |
| Scoring.AllocationBounds | src/index.ts:1209-1215 | with no negative amounts every fraction lies in [0, 1] |
| Scoring.Round | src/index.ts:904 | `Math.round` gives the integer within one half below and under one half above |
| Scoring.MaxValue | src/index.ts:892 | the largest token value bounds every token value and is attained |
| Scoring.MaxValueAtMostSum | src/index.ts:892 | with no negative values, the largest value is at most the sum |
| Scoring.ConcentrationBelow30 | src/index.ts:891-894 | the concentration component lies in [0, 30) |
| Scoring.LevelOf | src/index.ts:906-908 | high iff the score is at least 60, medium iff it is 30..59, low iff it is below 30 |
| Scoring.RiskOf | src/index.ts:884-911 | the score is the sum of the four components rounded to the nearest integer, or 100 exactly when that sum is at least 99.5; the level is high from 60, medium from 30 to 59, low below 30 |
| Scoring.CalculateRiskScore | src/index.ts:884-911 | the accumulated score and level are those of the four components, rounded and capped at 100 |
| Scoring.RiskScoreRange | src/index.ts:884-911 | for non-negative inputs the score is in 0..100 and the cap never binds |
| Scoring.RiskMonotoneInMeme | src/index.ts:888 | a larger meme share never lowers the score |
| Scoring.HalfMemeIsAtLeastMedium | src/index.ts:888-908 | a meme share of at least 0.5 gives a score of at least 40, so the level is not low |
| Scoring.EmptyPortfolioRisk | src/index.ts:884-911 | no tokens and no meme share give a score of 20 and a low level |
| Scoring.ActivityLevelOf | src/index.ts:929-935 | whale iff the total is above 100000; otherwise inactive iff 0 transactions, low iff 1–4, moderate iff 5–19, high iff 20 or more |
| Scoring.ActivityMonotone | src/index.ts:929-935 | below the whale threshold, more transactions never give a lower level |
| Scoring.HealthChecks | src/index.ts:915-920 | at most four checks pass; all four exactly when every check holds; none exactly when every check fails |
| Scoring.PortfolioHealth | src/index.ts:914-926 | excellent iff 4 checks pass, good iff 3, fair iff 2, poor iff 0–1 |
| Scoring.EmptyPortfolioIsPoor | src/index.ts:914-926 | an empty portfolio with a zero allocation passes exactly one check and is poor |
| Report.TitleTextInjective | src/index.ts:945-1028 | the nine insight titles are distinct strings |
| Report.NoteTextInjective | src/index.ts:979-1019 | the four fixed descriptions are distinct strings |
| Insights.HasTitleText | src/index.ts:938-1034 | an insight with a given title is present exactly when an insight with that title string is |
| Insights.TopIndex | src/index.ts:962 | the top token has the largest value, and every earlier token has a strictly smaller one (the first maximum wins) |
| Insights.InsightOf | src/index.ts:938-1034 | the insight of rule k carries rule k's title |
| Insights.CollectFacts | src/index.ts:938-1034 | the insights are, in order, those of the rules that fire, with at most one per rule |
| Insights.InsightsInRuleOrder | src/index.ts:938-1034 | at most nine insights, titles in strictly increasing rule order, and a title present exactly when its rule's condition holds |
| Insights.DormantIffInactive | src/index.ts:1015-1022 | "Dormant Wallet" is present iff the activity level is inactive |
| Insights.CollectorIffMoreThanTenNfts | src/index.ts:1025-1031 | "NFT Collector" is present iff the NFT count is above 10 |
| Insights.ConcentrationNeedsTopShare | src/index.ts:961-972 | "Concentration Risk" is present iff there is a token and the top token's share of the total is above 0.6 |
| Insights.GenerateInsights | src/index.ts:938-1034 | applying the nine rules in order appends exactly the insights of the rules that fire |
| Analysis.AnalyzeWallet | src/index.ts:1184-1249 | an address starting with neither SP nor SM is rejected with "Invalid Stacks address"; otherwise the report holds the totals, the allocation, and the risk, activity and health of the unsorted holdings; the holdings are sorted by value and count; the insights are those of the assembled report |
| Analysis.TopOfSortedIsFirst | src/index.ts:962 | in value-sorted holdings the top token is the first one |
| Analysis.TopOfSortedIsMax | src/index.ts:1238 | after the sort, the first token is the top token and carries the largest value |
| Analysis.AssembledFacts | src/index.ts:1199-1249 | an assembled report has sorted, permuted token and NFT lists, fractions summing to 1 for a positive total, a score in 0..100, at most nine insights in rule order, and "Concentration Risk" iff the largest token value exceeds 0.6 of the total |
| Payment.TokenTypeText | src/index.ts:541-546 | the header, if non-empty, wins over the query parameter, which wins over "STX" |
| Payment.PaymentTokenType | src/index.ts:541-546 | sBTC exactly when the text in force (header, else query parameter, else STX) spells sbtc in any letter case |
| Payment.SbtcIffSpelled | src/index.ts:544-545 | sBTC is chosen exactly when the text in force spells sbtc in any letter case |
| Payment.HeaderTakesPrecedence | src/index.ts:544 | a non-empty header makes the query parameter irrelevant |
| Payment.DefaultsToStx | src/index.ts:544-545 | with neither a header nor a query parameter, the payment is in STX |
| Payment.NormalizeTxid | src/index.ts:668 | the result starts with 0x; an id with the prefix is kept; otherwise 0x is prepended to it |
| Payment.NormalizeTxidIdempotent | src/index.ts:668 | normalising twice equals normalising once |
| PriceCache.StxPriceCache.constructor | src/index.ts:638 | the cache starts empty |
| PriceCache.PriceStep | src/index.ts:689-722 | the cache is either kept or replaced by the returned price stamped now, and replaced only when stale; the price is 0.85, the cached price or one of the sources' answers; it is 0 only when the second source answered 0 or the cache is fresh |
| PriceCache.StxPriceCache.FetchStxPrice | src/index.ts:689-722 | the price returned and the new cache are the fallback chain's: fresh cache, then the first source, then the second, then the stale cache, then 0.85 |
| PriceCache.FreshHitServesCache | src/index.ts:691-693 | a cache younger than five minutes answers alone and is kept |
| PriceCache.FetchedPriceServedUntilExpiry | src/index.ts:689-722 | a price fetched from a source is served unchanged for the next five minutes, whatever the sources say |
| PriceCache.FallbackNeverZero | src/index.ts:721 | with no source answering, the price is the stale cached one if non-zero, else 0.85; never 0 |

## Left out

- Network I/O is not modelled: the `fetch` calls, the JSON and response-status handling, and the try/catch fallbacks to empty results. Their parsed outcomes are the inputs.
- The fan-out of `Promise.all` is not modelled. The fetches are independent, so the handler's result does not depend on their order.
- The BNS-name lookup and the STX-balance fetch are not modelled. Their results are parameters of `Analysis.AnalyzeWallet`.
- The payment gate is not modelled: the nonce from `crypto.randomUUID`, the expiry from `Date.now`, and the on-chain check of the payment transaction. Only the choice of token type and the `0x` normalisation are modelled.
- The wall clock, the ISO timestamp and `Date` parsing are parameters: each transaction carries its block time already parsed to milliseconds, or none when it does not parse.
- Floating point is not modelled. Money is exact `real`, so rounding in sums and IEEE NaN are absent. Where a JavaScript division by zero matters, the result is written out: the concentration insight's share of a zero total is +Infinity, NaN or -Infinity (`Insights.ShareAbove`); the percentage in its text is then absent (`Insights.SharePercent`).
- Scoring.ConcentrationPoints: the denominator `sum + 0.01` is 0 only for a negative token total of exactly -0.01. JavaScript would then add Infinity or NaN to the score; the model adds 0.
- `parseFloat` and `parseInt` are not modelled. Numeric fields arrive as parsed numbers or absent. A non-empty field that fails to parse, and so gives NaN, is not modelled.
- Text.Upper: `toUpperCase` is modelled on ASCII only; JavaScript upper-cases all of Unicode. So 'ſ' (long s) becomes 'S', 'ı' (dotless i) becomes 'I', and 'ß' becomes "SS", which also changes the length. The model leaves every non-ASCII character unchanged. Consequences: a symbol such as "ſtx" is blue-chip in the code but other in the model; a token-type header such as "ſbtc" selects sBTC in the code but STX in the model. Holdings.CategoryIgnoresLetterCase and Payment.SbtcIffSpelled hold for ASCII letter case only.
- Dictionary keys are assumed to be ordinary strings: contract identifiers and protocol names. JavaScript enumerates integer-like keys first, in numeric order. Keys such as `constructor` or `__proto__` clash with built-in object properties, so `obj[key]` is then not a plain lookup (src/index.ts:802, 839). The model ignores both effects.
- The wording of the seven suggested-action sentences is not modelled: an insight's action is the `Action` value naming it.
- Text formatting of money and counts is not modelled (`toLocaleString`, `toFixed`, and the interpolation into description strings). Insight descriptions keep their figures as data: the `Description` datatype in `Report`.
- The HTML page, the routes, CORS, and the discovery, health and root responses are not modelled.
- The quick-summary endpoint is not modelled. It re-computes the totals and takes the first five tokens in provider order, unsorted.
- The sorts are modelled on values: `SortDesc` returns the sorted list, not a mutation of an array. The report's lists are those sorted values. The unsorted input remains what the risk score and health were computed on, as in the handler, where both run before the sort.
- PriceCache.PriceStep: a price fetched from a source is stamped with the call's time `now`. The code reads `Date.now()` again after the awaited fetch (src/index.ts:701, 714), so its stamp is the completion time, never earlier. The model therefore expires a fetched price no later than the code does.
