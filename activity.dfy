/**
 * DeFi detection from transaction history: recent-transaction count, per-protocol
 * positions (first matching protocol-table row wins), per-contract call counts
 * and the five most called contracts, and the last-active timestamp.
 */
module Activity {
  import opened Wrappers
  import opened Text
  import opened Tables
  import opened Ordering
  import opened Dictionaries

  /**
   * A transaction-history record. `blockTimeMs` is the block time in milliseconds
   * parsed from `blockTimeIso`, `None` when that text is missing or does not parse
   * (`new Date(undefined)` is NaN): a record with no `blockTimeIso` has no
   * `blockTimeMs` either.
   */
  datatype Tx = Tx(txType: string, contractId: Option<string>, blockTimeIso: Option<string>, blockTimeMs: Option<int>)

  /** A DeFi position; also the value type of the per-protocol dictionary, keyed by `protocol`. */
  datatype Position = Position(protocol: string, kind: PositionType, interactions: nat, lastInteraction: Option<string>)

  /** One entry of the per-contract call-count dictionary. */
  datatype CallCount = CallCount(contract: string, count: nat)

  datatype ActivityReport = ActivityReport(
    positions: seq<Position>,
    topInteractions: seq<string>,
    txCount30d: nat,
    lastActive: Option<string>)

  const ThirtyDaysMs: int := 30 * 24 * 60 * 60 * 1000

  // ---- the 30-day window and the last-active timestamp ----

  /** A transaction whose block time parses and lies strictly after `now - 30 days`. */
  predicate IsRecent(tx: Tx, now: int)
  {
    tx.blockTimeMs.Some? && tx.blockTimeMs.value > now - ThirtyDaysMs
  }

  /** `txs.filter(recent).length`. */
  function CountRecent(txs: seq<Tx>, now: int): (n: nat)
    ensures n <= |txs|
    ensures n == |txs| <==> forall i :: 0 <= i < |txs| ==> IsRecent(txs[i], now)
    ensures n == 0 <==> forall i :: 0 <= i < |txs| ==> !IsRecent(txs[i], now)
  {
    if txs == [] then 0
    else CountRecent(txs[..|txs| - 1], now) + (if IsRecent(txs[|txs| - 1], now) then 1 else 0)
  }

  /** The positions of the recent transactions. */
  function RecentPositions(txs: seq<Tx>, now: int): set<int>
  {
    set i | 0 <= i < |txs| && IsRecent(txs[i], now)
  }

  /** The 30-day count is the number of recent transactions. */
  lemma {:induction false} CountRecentCountsRecent(txs: seq<Tx>, now: int)
    ensures CountRecent(txs, now) == |RecentPositions(txs, now)|
  {
    if txs != [] {
      CountRecentCountsRecent(txs[..|txs| - 1], now);
      RecentPositionsStep(txs, now);
    }
  }

  /** The recent positions gain the last index exactly when the last transaction is recent. */
  lemma RecentPositionsStep(txs: seq<Tx>, now: int)
    requires txs != []
    ensures var n := |txs| - 1;
            && n !in RecentPositions(txs[..n], now)
            && RecentPositions(txs, now)
               == RecentPositions(txs[..n], now) + (if IsRecent(txs[n], now) then {n} else {})
  {
    var n := |txs| - 1;
    var init := txs[..n];
    var before, after := RecentPositions(init, now), RecentPositions(txs, now);
    var last := if IsRecent(txs[n], now) then {n} else {};
    forall i ensures i in after <==> i in before + last {
      if 0 <= i < n {
        assert txs[i] == init[i];
      }
    }
  }

  /** `txs[0]?.burn_block_time_iso || null`. */
  function LastActive(txs: seq<Tx>): (r: Option<string>)
    ensures r.Some? ==> |txs| > 0 && txs[0].blockTimeIso == r && r.value != ""
    ensures txs == [] ==> r.None?
  {
    if txs != [] && txs[0].blockTimeIso.Some? && txs[0].blockTimeIso.value != "" then txs[0].blockTimeIso
    else None
  }

  // ---- protocol matching ----

  /** A contract call that names a contract. */
  predicate IsContractCall(tx: Tx)
  {
    tx.txType == "contract_call" && tx.contractId.Some? && tx.contractId.value != ""
  }

  predicate RowMatches(contract: string, j: nat)
    requires j < |DefiProtocols|
  {
    Contains(contract, Deployer(DefiProtocols[j]))
  }

  /** The first table row, at or after row `j`, whose deployer address occurs in `contract`; -1 if none. */
  function MatchRowFrom(contract: string, j: nat): (k: int)
    requires j <= |DefiProtocols|
    ensures k == -1 || (j <= k < |DefiProtocols| && RowMatches(contract, k))
    ensures forall m :: j <= m < |DefiProtocols| && (k < 0 || m < k) ==> !RowMatches(contract, m)
    decreases |DefiProtocols| - j
  {
    if j == |DefiProtocols| then -1
    else if RowMatches(contract, j) then j
    else MatchRowFrom(contract, j + 1)
  }

  /** The protocol a contract call is attributed to: the first matching row of the table. */
  function MatchProtocol(contract: string): Option<Protocol>
  {
    var k := MatchRowFrom(contract, 0);
    if k < 0 then None else Some(DefiProtocols[k])
  }

  // ---- the two dictionaries, step by step ----

  /** The key of a DeFi-position entry: its protocol name. */
  function PositionKey(e: Position): string
  {
    e.protocol
  }

  /** The interactions of a DeFi position. */
  function Interactions(e: Position): int
  {
    e.interactions
  }

  /** The entry a protocol starts with: its type and timestamp come from this first call. */
  function NewPosition(p: Protocol, tx: Tx): Position
  {
    Position(p.name, p.kind, 1, tx.blockTimeIso)
  }

  function BumpPosition(e: Position): Position
  {
    e.(interactions := e.interactions + 1)
  }

  function RecordDefi(ps: seq<Position>, p: Protocol, tx: Tx): seq<Position>
  {
    var k := IndexOf(ps, PositionKey, p.name);
    if k < 0 then ps + [NewPosition(p, tx)] else ps[k := BumpPosition(ps[k])]
  }

  /** The key of a call-count entry: its contract. */
  function ContractKey(e: CallCount): string
  {
    e.contract
  }

  /** The calls counted by a call-count entry. */
  function CallCountOf(e: CallCount): int
  {
    e.count
  }

  function BumpCall(e: CallCount): CallCount
  {
    e.(count := e.count + 1)
  }

  /** `allInteractions[contract] = (allInteractions[contract] || 0) + 1`. */
  function RecordCall(cs: seq<CallCount>, contract: string): seq<CallCount>
  {
    var k := IndexOf(cs, ContractKey, contract);
    if k < 0 then cs + [CallCount(contract, 1)] else cs[k := BumpCall(cs[k])]
  }

  /** The per-protocol dictionary after `txs`. */
  function DefiTally(txs: seq<Tx>): seq<Position>
  {
    if txs == [] then []
    else
      var ps := DefiTally(txs[..|txs| - 1]);
      var tx := txs[|txs| - 1];
      if IsContractCall(tx) && MatchProtocol(tx.contractId.value).Some?
      then RecordDefi(ps, MatchProtocol(tx.contractId.value).value, tx)
      else ps
  }

  /** The per-contract dictionary after `txs`. */
  function CallTally(txs: seq<Tx>): seq<CallCount>
  {
    if txs == [] then []
    else
      var cs := CallTally(txs[..|txs| - 1]);
      var tx := txs[|txs| - 1];
      if IsContractCall(tx) then RecordCall(cs, tx.contractId.value) else cs
  }

  function CallKey(c: CallCount): real
  {
    c.count as real
  }

  function Contracts(cs: seq<CallCount>): (r: seq<string>)
    ensures |r| == |cs|
    ensures forall i :: 0 <= i < |cs| ==> r[i] == cs[i].contract
  {
    seq(|cs|, i requires 0 <= i < |cs| => cs[i].contract)
  }

  /** `Object.entries(all).sort(by count, descending).slice(0, 5)`. */
  function TopCalls(cs: seq<CallCount>): (top: seq<CallCount>)
    ensures |cs| <= 5 ==> |top| == |cs|
    ensures |cs| > 5 ==> |top| == 5
    ensures forall t :: t in top ==> t in cs
  {
    var sorted := SortDesc(cs, CallKey);
    SortDescIsStableSort(cs, CallKey);
    assert forall t :: t in Take(sorted, 5) ==> t in multiset(sorted);
    Take(sorted, 5)
  }

  /** The analysis of a transaction history, stated as functions of it. */
  function Summarize(txs: seq<Tx>, now: int): (r: ActivityReport)
    ensures |r.positions| == |SeenProtocols(txs)|
    ensures forall k :: 0 <= k < |r.positions| ==> r.positions[k].protocol == SeenProtocols(txs)[k]
    ensures |SeenContracts(txs)| <= 5 ==> |r.topInteractions| == |SeenContracts(txs)|
    ensures |SeenContracts(txs)| > 5 ==> |r.topInteractions| == 5
    ensures forall c :: c in r.topInteractions ==> c in SeenContracts(txs)
  {
    DefiTallyKeys(txs);
    CallTallyKeys(txs);
    TopInteractionsMostCalled(txs);
    ActivityReport(DefiTally(txs), Contracts(TopCalls(CallTally(txs))), CountRecent(txs, now), LastActive(txs))
  }

  /** The tallies after one more transaction that is not a contract call. */
  lemma TallySkip(txs: seq<Tx>, i: nat)
    requires i < |txs| && !IsContractCall(txs[i])
    ensures DefiTally(txs[..i + 1]) == DefiTally(txs[..i])
    ensures CallTally(txs[..i + 1]) == CallTally(txs[..i])
  {
    assert txs[..i + 1][..i] == txs[..i];
  }

  /** The tallies after one more contract call. */
  lemma TallyCall(txs: seq<Tx>, i: nat)
    requires i < |txs| && IsContractCall(txs[i])
    ensures var m := MatchProtocol(txs[i].contractId.value);
            DefiTally(txs[..i + 1]) == if m.Some? then RecordDefi(DefiTally(txs[..i]), m.value, txs[i])
                                       else DefiTally(txs[..i])
    ensures CallTally(txs[..i + 1]) == RecordCall(CallTally(txs[..i]), txs[i].contractId.value)
  {
    assert txs[..i + 1][..i] == txs[..i];
  }

  /**
   * The inner loop of the DeFi detection: the protocol table in declaration
   * order, stopping at the first row whose deployer address occurs in `contract`.
   */
  method ScanProtocols(contract: string) returns (row: Option<Protocol>)
    ensures row == MatchProtocol(contract)
    ensures row.Some? ==> row.value in DefiProtocols && Contains(contract, Deployer(row.value))
  {
    var j := 0;
    while j < |DefiProtocols|
      invariant 0 <= j <= |DefiProtocols|
      invariant MatchRowFrom(contract, 0) == MatchRowFrom(contract, j)
    {
      var info := DefiProtocols[j];
      if Contains(contract, Deployer(info)) {
        return Some(info);
      }
      j := j + 1;
    }
    return None;
  }

  /**
   * The loop of the DeFi detection: each contract call is counted per contract
   * and, when a protocol-table row's deployer occurs in it, per protocol, the
   * first matching row in table order deciding (the scan stops there).
   */
  method DetectDefiPositions(txs: seq<Tx>, now: int) returns (r: ActivityReport)
    ensures r == Summarize(txs, now)
  {
    var defi: seq<Position> := [];
    var all: seq<CallCount> := [];
    var i := 0;
    while i < |txs|
      invariant 0 <= i <= |txs|
      invariant defi == DefiTally(txs[..i])
      invariant all == CallTally(txs[..i])
    {
      var tx := txs[i];
      if tx.txType == "contract_call" && tx.contractId.Some? && tx.contractId.value != "" {
        TallyCall(txs, i);
        var contract := tx.contractId.value;
        ghost var allBefore := all;
        var c := IndexOf(all, ContractKey, contract);
        if c < 0 {
          all := all + [CallCount(contract, 1)];
        } else {
          all := all[c := BumpCall(all[c])];
        }
        assert all == RecordCall(allBefore, contract);
        var row := ScanProtocols(contract);
        if row.Some? {
          var k := IndexOf(defi, PositionKey, row.value.name);
          if k < 0 {
            defi := defi + [NewPosition(row.value, tx)];
          } else {
            defi := defi[k := BumpPosition(defi[k])];
          }
        }
      } else {
        TallySkip(txs, i);
      }
      i := i + 1;
    }
    assert txs[..i] == txs;
    r := ActivityReport(defi, Contracts(Take(SortDesc(all, CallKey), 5)), CountRecent(txs, now), LastActive(txs));
  }

  // ---- the protocol table: the first row of each protocol name wins ----

  /** The row a call is attributed to is the first row of the table with that protocol name. */
  lemma MatchIsFirstRowOfItsName(contract: string)
    requires MatchRowFrom(contract, 0) >= 0
    ensures var k := MatchRowFrom(contract, 0);
            forall i :: 0 <= i < k ==> DefiProtocols[i].name != DefiProtocols[k].name
  {
    var k := MatchRowFrom(contract, 0);
    forall i | 0 <= i < k ensures DefiProtocols[i].name != DefiProtocols[k].name {
      if DefiProtocols[i].name == DefiProtocols[k].name {
        SameNameSameDeployer(i, k);
        assert RowMatches(contract, i);
      }
    }
  }

  /**
   * All calls attributed to one protocol name are attributed to the same row,
   * so a protocol's type never depends on which of its contracts was called.
   */
  lemma SameNameSameRow(c1: string, c2: string)
    requires MatchProtocol(c1).Some? && MatchProtocol(c2).Some?
    requires MatchProtocol(c1).value.name == MatchProtocol(c2).value.name
    ensures MatchProtocol(c1) == MatchProtocol(c2)
  {
    var k1, k2 := MatchRowFrom(c1, 0), MatchRowFrom(c2, 0);
    MatchIsFirstRowOfItsName(c1);
    MatchIsFirstRowOfItsName(c2);
    assert DefiProtocols[k1].name == DefiProtocols[k2].name;
    assert !(k1 < k2) && !(k2 < k1);
  }

  /**
   * Consequently the ALEX reserve-pool and launchpad rows and the Arkadiko
   * vault and stake-pool rows are never matched: every ALEX call counts as a
   * vault interaction and every Arkadiko call as a DEX interaction.
   */
  lemma AlexIsVaultArkadikoIsDex(contract: string)
    ensures MatchRowFrom(contract, 0) !in {1, 2, 5, 6}
    ensures MatchProtocol(contract).Some? && MatchProtocol(contract).value.name == "ALEX"
            ==> MatchProtocol(contract).value.kind == Vault
    ensures MatchProtocol(contract).Some? && MatchProtocol(contract).value.name == "Arkadiko"
            ==> MatchProtocol(contract).value.kind == Dex
  {
    var k := MatchRowFrom(contract, 0);
    if k >= 0 {
      MatchIsFirstRowOfItsName(contract);
      assert DefiProtocols[0].name == DefiProtocols[1].name == DefiProtocols[2].name == "ALEX";
      assert DefiProtocols[4].name == DefiProtocols[5].name == DefiProtocols[6].name == "Arkadiko";
    }
  }

  // ---- what the per-protocol dictionary holds ----

  /** The protocol name a transaction is attributed to, if any. */
  function MatchedName(tx: Tx): Option<string>
  {
    if IsContractCall(tx) && MatchProtocol(tx.contractId.value).Some?
    then Some(MatchProtocol(tx.contractId.value).value.name)
    else None
  }

  /** The transactions attributed to protocol `name`, in history order. */
  function ProtocolTxs(txs: seq<Tx>, name: string): seq<Tx>
  {
    if txs == [] then []
    else ProtocolTxs(txs[..|txs| - 1], name)
         + (if MatchedName(txs[|txs| - 1]) == Some(name) then [txs[|txs| - 1]] else [])
  }

  /** The distinct protocol names attributed, in order of first appearance. */
  function SeenProtocols(txs: seq<Tx>): seq<string>
  {
    if txs == [] then []
    else
      var names := SeenProtocols(txs[..|txs| - 1]);
      var m := MatchedName(txs[|txs| - 1]);
      if m.None? || m.value in names then names else names + [m.value]
  }

  lemma {:induction false} SeenProtocolsDistinct(txs: seq<Tx>)
    ensures forall i, j :: 0 <= i < j < |SeenProtocols(txs)| ==> SeenProtocols(txs)[i] != SeenProtocols(txs)[j]
  {
    if txs != [] {
      SeenProtocolsDistinct(txs[..|txs| - 1]);
    }
  }

  lemma {:induction false} ProtocolTxsEmptyUnlessSeen(txs: seq<Tx>, name: string)
    requires name !in SeenProtocols(txs)
    ensures ProtocolTxs(txs, name) == []
  {
    if txs != [] {
      var init := txs[..|txs| - 1];
      assert forall x :: x in SeenProtocols(init) ==> x in SeenProtocols(txs);
      ProtocolTxsEmptyUnlessSeen(init, name);
    }
  }

  lemma {:induction false} DefiTallyKeys(txs: seq<Tx>)
    ensures |DefiTally(txs)| == |SeenProtocols(txs)|
    ensures forall k :: 0 <= k < |DefiTally(txs)| ==> DefiTally(txs)[k].protocol == SeenProtocols(txs)[k]
  {
    if txs != [] {
      var init := txs[..|txs| - 1];
      DefiTallyKeys(init);
      var m := MatchedName(txs[|txs| - 1]);
      if m.Some? {
        assert IndexOf(DefiTally(init), PositionKey, m.value) < 0 <==> m.value !in SeenProtocols(init);
      }
    }
  }

  /**
   * Each position counts the calls attributed to its protocol, and takes its
   * type and timestamp from the first of them.
   */
  lemma {:induction false} DefiTallyEntryAt(txs: seq<Tx>, j: nat)
    requires j < |DefiTally(txs)|
    ensures var e := DefiTally(txs)[j];
            var ptxs := ProtocolTxs(txs, e.protocol);
            && e.interactions == |ptxs| > 0
            && e.lastInteraction == ptxs[0].blockTimeIso
            && MatchedName(ptxs[0]) == Some(e.protocol)
            && e.kind == MatchProtocol(ptxs[0].contractId.value).value.kind
  {
    var init, last := txs[..|txs| - 1], txs[|txs| - 1];
    var ps := DefiTally(init);
    var m := MatchedName(last);
    if m.None? {
      DefiTallyEntryAt(init, j);
    } else {
      var k := IndexOf(ps, PositionKey, m.value);
      if k < 0 && j == |ps| {
        DefiTallyKeys(init);
        ProtocolTxsEmptyUnlessSeen(init, m.value);
      } else if j == k {
        DefiTallyEntryAt(init, j);
      } else {
        DefiTallyEntryAt(init, j);
        DefiTallyKeys(init);
        SeenProtocolsDistinct(init);
      }
    }
  }

  // ---- sums ----

  /** The number of contract calls in `txs`. */
  function NumCalls(txs: seq<Tx>): (n: nat)
    ensures n <= |txs|
  {
    if txs == [] then 0 else NumCalls(txs[..|txs| - 1]) + (if IsContractCall(txs[|txs| - 1]) then 1 else 0)
  }

  /** The number of contract calls attributed to some protocol. */
  function NumMatched(txs: seq<Tx>): (n: nat)
    ensures n <= NumCalls(txs)
  {
    if txs == [] then 0 else NumMatched(txs[..|txs| - 1]) + (if MatchedName(txs[|txs| - 1]).Some? then 1 else 0)
  }

  /** Every attributed call is counted once: the interactions add up to the attributed calls. */
  lemma {:induction false} DefiTallySum(txs: seq<Tx>)
    ensures SumOf(DefiTally(txs), Interactions) == NumMatched(txs) <= NumCalls(txs) <= |txs|
  {
    if txs != [] {
      var init, last := txs[..|txs| - 1], txs[|txs| - 1];
      DefiTallySum(init);
      var ps := DefiTally(init);
      var m := MatchedName(last);
      if m.Some? {
        var k := IndexOf(ps, PositionKey, m.value);
        if k >= 0 {
          SumOfUpdate(ps, Interactions, k, BumpPosition(ps[k]));
        } else {
          assert (ps + [DefiTally(txs)[|ps|]])[..|ps|] == ps;
        }
      }
    }
  }

  /** The per-contract counts are keyed by distinct contracts and add up to the contract calls. */
  lemma {:induction false} CallTallyFacts(txs: seq<Tx>)
    ensures SumOf(CallTally(txs), CallCountOf) == NumCalls(txs)
    ensures forall i, j :: 0 <= i < j < |CallTally(txs)| ==> CallTally(txs)[i].contract != CallTally(txs)[j].contract
    ensures forall i :: 0 <= i < |CallTally(txs)| ==> CallTally(txs)[i].count > 0
  {
    if txs != [] {
      var init, last := txs[..|txs| - 1], txs[|txs| - 1];
      CallTallyFacts(init);
      var cs := CallTally(init);
      if IsContractCall(last) {
        var k := IndexOf(cs, ContractKey, last.contractId.value);
        if k >= 0 {
          SumOfUpdate(cs, CallCountOf, k, BumpCall(cs[k]));
        } else {
          assert (cs + [CallTally(txs)[|cs|]])[..|cs|] == cs;
        }
      }
    }
  }

  // ---- what the per-contract dictionary holds ----

  /** The contract calls to `contract`, in history order. */
  function CallsTo(txs: seq<Tx>, contract: string): seq<Tx>
  {
    if txs == [] then []
    else
      var tx := txs[|txs| - 1];
      CallsTo(txs[..|txs| - 1], contract)
      + (if IsContractCall(tx) && tx.contractId.value == contract then [tx] else [])
  }

  /** The distinct contracts called, in order of first call. */
  function SeenContracts(txs: seq<Tx>): seq<string>
  {
    if txs == [] then []
    else
      var contracts := SeenContracts(txs[..|txs| - 1]);
      var tx := txs[|txs| - 1];
      if !IsContractCall(tx) || tx.contractId.value in contracts then contracts
      else contracts + [tx.contractId.value]
  }

  lemma {:induction false} SeenContractsDistinct(txs: seq<Tx>)
    ensures forall i, j :: 0 <= i < j < |SeenContracts(txs)| ==> SeenContracts(txs)[i] != SeenContracts(txs)[j]
  {
    if txs != [] {
      SeenContractsDistinct(txs[..|txs| - 1]);
    }
  }

  lemma {:induction false} CallsToEmptyUnlessSeen(txs: seq<Tx>, contract: string)
    requires contract !in SeenContracts(txs)
    ensures CallsTo(txs, contract) == []
  {
    if txs != [] {
      var init := txs[..|txs| - 1];
      assert forall x :: x in SeenContracts(init) ==> x in SeenContracts(txs);
      CallsToEmptyUnlessSeen(init, contract);
    }
  }

  /** The per-contract dictionary has one entry per contract called, in order of first call. */
  lemma {:induction false} CallTallyKeys(txs: seq<Tx>)
    ensures |CallTally(txs)| == |SeenContracts(txs)|
    ensures forall k :: 0 <= k < |CallTally(txs)| ==> CallTally(txs)[k].contract == SeenContracts(txs)[k]
  {
    if txs != [] {
      var init, last := txs[..|txs| - 1], txs[|txs| - 1];
      CallTallyKeys(init);
      if IsContractCall(last) {
        assert IndexOf(CallTally(init), ContractKey, last.contractId.value) < 0
               <==> last.contractId.value !in SeenContracts(init);
      }
    }
  }

  /** Each entry counts the calls to its contract. */
  lemma {:induction false} CallTallyEntryAt(txs: seq<Tx>, j: nat)
    requires j < |CallTally(txs)|
    ensures CallTally(txs)[j].count == |CallsTo(txs, CallTally(txs)[j].contract)| > 0
  {
    var init, last := txs[..|txs| - 1], txs[|txs| - 1];
    var cs := CallTally(init);
    if !IsContractCall(last) {
      CallTallyEntryAt(init, j);
    } else {
      var c := last.contractId.value;
      var k := IndexOf(cs, ContractKey, c);
      if k < 0 && j == |cs| {
        CallTallyKeys(init);
        CallsToEmptyUnlessSeen(init, c);
      } else if j == k {
        CallTallyEntryAt(init, j);
      } else {
        CallTallyEntryAt(init, j);
        CallTallyKeys(init);
        SeenContractsDistinct(init);
      }
    }
  }

  // ---- the five most called contracts ----

  /**
   * The top list holds at most five of the counted contracts, most called
   * first; every contract left out was called at most as often as any listed
   * one; and among equal counts the dictionary's insertion order is kept.
   */
  lemma TopCallsFacts(cs: seq<CallCount>)
    ensures |TopCalls(cs)| <= 5 && |TopCalls(cs)| <= |cs|
    ensures |cs| <= 5 ==> |TopCalls(cs)| == |cs|
    ensures |cs| > 5 ==> |TopCalls(cs)| == 5
    ensures SortedDesc(TopCalls(cs), CallKey)
    ensures forall t :: t in TopCalls(cs) ==> t in cs
    ensures forall c, t :: c in cs && c !in TopCalls(cs) && t in TopCalls(cs) ==> c.count <= t.count
    ensures forall v :: WithKey(SortDesc(cs, CallKey), CallKey, v) == WithKey(cs, CallKey, v)
    ensures TopCalls(cs) == SortDesc(cs, CallKey)[..|TopCalls(cs)|]
  {
    var sorted := SortDesc(cs, CallKey);
    SortDescIsStableSort(cs, CallKey);
    var top := TopCalls(cs);
    assert top == sorted[..|top|];
    forall c, t | c in cs && c !in top && t in top ensures c.count <= t.count {
      assert c in multiset(sorted);
      var m :| 0 <= m < |sorted| && sorted[m] == c;
      var i :| 0 <= i < |top| && top[i] == t;
      assert m >= |top|;
      assert CallKey(sorted[i]) >= CallKey(sorted[m]);
    }
  }

  /**
   * The top interactions, read against the history: each listed contract was
   * called, and its count is its number of calls; a called contract left off
   * the list was called no more often than any listed one.
   */
  lemma TopInteractionsMostCalled(txs: seq<Tx>)
    ensures var top := TopCalls(CallTally(txs));
            && (forall t :: t in top ==> t.contract in SeenContracts(txs) && t.count == |CallsTo(txs, t.contract)|)
            && (forall c, t :: c in SeenContracts(txs) && c !in Contracts(top) && t in top
                  ==> |CallsTo(txs, c)| <= t.count)
  {
    var cs := CallTally(txs);
    var top := TopCalls(cs);
    TopCallsFacts(cs);
    CallTallyKeys(txs);
    forall t | t in top ensures t.contract in SeenContracts(txs) && t.count == |CallsTo(txs, t.contract)| {
      var k :| 0 <= k < |cs| && cs[k] == t;
      CallTallyEntryAt(txs, k);
    }
    forall c, t | c in SeenContracts(txs) && c !in Contracts(top) && t in top
      ensures |CallsTo(txs, c)| <= t.count
    {
      var k :| 0 <= k < |SeenContracts(txs)| && SeenContracts(txs)[k] == c;
      CallTallyEntryAt(txs, k);
    }
  }

  /** What the analysis of a transaction history promises. */
  lemma SummaryBounds(txs: seq<Tx>, now: int)
    ensures var r := Summarize(txs, now);
            && r.txCount30d <= |txs|
            && |r.topInteractions| <= 5
            && SumOf(r.positions, Interactions) <= NumCalls(txs)
            && (r.lastActive.Some? <==> txs != [] && txs[0].blockTimeIso.Some? && txs[0].blockTimeIso.value != "")
            && (forall i, j :: 0 <= i < j < |r.positions| ==> r.positions[i].protocol != r.positions[j].protocol)
  {
    DefiTallySum(txs);
    DefiTallyKeys(txs);
    SeenProtocolsDistinct(txs);
    TopCallsFacts(CallTally(txs));
  }
}
