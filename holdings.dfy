/**
 * Fungible-token holdings: the category classifier and the mapping of a raw
 * holdings-provider row onto a canonical token holding, with its placeholder
 * defaults.
 */
module Holdings {
  import opened Wrappers
  import opened Text
  import opened Tables

  /** A canonical token holding. */
  datatype TokenHolding = TokenHolding(
    symbol: string,
    name: string,
    contract: string,
    balance: Option<string>,
    balanceFormatted: real,
    valueUsd: real,
    priceUsd: real,
    change24h: Option<real>,
    category: Category)

  /**
   * A holdings-provider row, already parsed. A missing or empty text field is
   * `None` or `Some("")`; a numeric field is `None` when it is missing or empty.
   * `change24h` is `None` whenever the provider's field is falsy, the number 0
   * included, since the mapping tests the field itself before parsing it.
   */
  datatype RawToken = RawToken(
    symbol: Option<string>,
    name: Option<string>,
    tokenAddress: Option<string>,
    balance: Option<string>,
    balanceFormatted: Option<real>,
    valueUsd: Option<real>,
    priceUsd: Option<real>,
    change24h: Option<real>)

  /** Blue-chip list first, then the meme list (both on the upper-cased symbol), then the contract fragments. */
  function CategorizeToken(symbol: string, contract: string): (c: Category)
    ensures c == BlueChip <==> Upper(symbol) in ReachableBlueChips
    ensures c == Meme <==> Upper(symbol) !in BlueChipTokens && Upper(symbol) in HighRiskTokens
    ensures c == Defi <==> Upper(symbol) !in BlueChipTokens + HighRiskTokens
                           && exists f :: f in DefiFragments && Contains(contract, f)
  {
    MixedCaseEntriesUnreachable(symbol);
    assert DefiFragments[0] == "alex" && DefiFragments[1] == "velar" && DefiFragments[2] == "arkadiko";
    assert (exists f :: f in DefiFragments && Contains(contract, f))
           <==> Contains(contract, "alex") || Contains(contract, "velar") || Contains(contract, "arkadiko");
    var upper := Upper(symbol);
    if upper in BlueChipTokens then BlueChip
    else if upper in HighRiskTokens then Meme
    else if Contains(contract, "alex") || Contains(contract, "velar") || Contains(contract, "arkadiko") then Defi
    else Other
  }

  /** The blue-chip entries that an upper-cased symbol can equal. */
  const ReachableBlueChips: seq<string> := ["STX", "USDA", "ALEX", "VELAR"]

  lemma MixedCaseEntriesUnreachable(symbol: string)
    ensures Upper(symbol) in BlueChipTokens <==> Upper(symbol) in ReachableBlueChips
  {
    var u := Upper(symbol);
    UpperHasNoLowerCase(symbol);
    if u in BlueChipTokens {
      var k :| 0 <= k < |BlueChipTokens| && BlueChipTokens[k] == u;
      assert k != 1 by { assert "sBTC"[0] == 's'; }
      assert k != 2 by { assert "xBTC"[0] == 'x'; }
      assert k != 4 by { assert "sUSDT"[0] == 's'; }
    }
  }

  /**
   * A token is blue-chip exactly when its upper-cased symbol is STX, USDA, ALEX
   * or VELAR: the table's `sBTC`, `xBTC` and `sUSDT` never match.
   */
  lemma BlueChipExactly(symbol: string, contract: string)
    ensures CategorizeToken(symbol, contract) == BlueChip <==> Upper(symbol) in ReachableBlueChips
  {
    MixedCaseEntriesUnreachable(symbol);
  }

  /** In particular the symbols sBTC, xBTC and sUSDT, in any letter case, are never blue-chip. */
  lemma BitcoinAndDollarTokensNotBlueChip(symbol: string, contract: string)
    requires Upper(symbol) in ["SBTC", "XBTC", "SUSDT"]
    ensures CategorizeToken(symbol, contract) != BlueChip
    ensures CategorizeToken(symbol, contract) in {Defi, Other}
  {
    BlueChipExactly(symbol, contract);
  }

  /**
   * The symbol tests come first: a listed symbol decides the category whatever
   * the contract; otherwise the contract alone decides between DeFi and other.
   */
  lemma CategoryPriority(symbol: string, contract: string, contract': string)
    ensures Upper(symbol) in BlueChipTokens ==> CategorizeToken(symbol, contract) == BlueChip
    ensures Upper(symbol) !in BlueChipTokens && Upper(symbol) in HighRiskTokens
            ==> CategorizeToken(symbol, contract) == Meme
    ensures Upper(symbol) in BlueChipTokens + HighRiskTokens
            ==> CategorizeToken(symbol, contract) == CategorizeToken(symbol, contract')
    ensures CategorizeToken(symbol, contract) == Defi
            <==> Upper(symbol) !in BlueChipTokens + HighRiskTokens
                 && exists f :: f in DefiFragments && Contains(contract, f)
  {
    assert DefiFragments[0] == "alex" && DefiFragments[1] == "velar" && DefiFragments[2] == "arkadiko";
    if exists f :: f in DefiFragments && Contains(contract, f) {
      var f :| f in DefiFragments && Contains(contract, f);
      assert f == "alex" || f == "velar" || f == "arkadiko";
    }
  }

  /** The category depends on the symbol only through its upper-cased form. */
  lemma CategoryIgnoresLetterCase(symbol: string, symbol': string, contract: string)
    requires Upper(symbol) == Upper(symbol')
    ensures CategorizeToken(symbol, contract) == CategorizeToken(symbol', contract)
  {
  }

  /** A numeric field parsed with a `'0'` default. */
  function NumberOrZero(o: Option<real>): real
  {
    if o.Some? then o.value else 0.0
  }

  /** The row mapping of the holdings fetch. */
  function NormalizeToken(t: RawToken): (h: TokenHolding)
    ensures h.symbol != "" && h.name != ""
    ensures h.category == CategorizeToken(h.symbol, h.contract)
    ensures t.symbol.None? || t.symbol.value == "" ==> h.symbol == "UNKNOWN"
    ensures t.name.None? || t.name.value == "" ==> h.name == "Unknown Token"
    ensures t.valueUsd.None? ==> h.valueUsd == 0.0
    ensures t.symbol.Some? && t.symbol.value != "" ==> h.symbol == t.symbol.value
    ensures t.name.Some? && t.name.value != "" ==> h.name == t.name.value
    ensures t.tokenAddress.Some? ==> h.contract == t.tokenAddress.value
    ensures t.tokenAddress.None? ==> h.contract == ""
    ensures h.balance == t.balance && h.change24h == t.change24h
    ensures t.balanceFormatted.Some? ==> h.balanceFormatted == t.balanceFormatted.value
    ensures t.valueUsd.Some? ==> h.valueUsd == t.valueUsd.value
    ensures t.priceUsd.Some? ==> h.priceUsd == t.priceUsd.value
    ensures t.balanceFormatted.None? ==> h.balanceFormatted == 0.0
    ensures t.priceUsd.None? ==> h.priceUsd == 0.0
  {
    var symbol := OrDefault(t.symbol, "UNKNOWN");
    var contract := OrDefault(t.tokenAddress, "");
    TokenHolding(
      symbol,
      OrDefault(t.name, "Unknown Token"),
      contract,
      t.balance,
      NumberOrZero(t.balanceFormatted),
      NumberOrZero(t.valueUsd),
      NumberOrZero(t.priceUsd),
      t.change24h,
      CategorizeToken(symbol, contract))
  }

  /** What the mapping can produce: placeholders filled in and the category derived. */
  predicate Canonical(h: TokenHolding)
  {
    h.symbol != "" && h.name != "" && h.category == CategorizeToken(h.symbol, h.contract)
  }

  /** A canonical holding written back as a provider row. */
  function ToRaw(h: TokenHolding): RawToken
  {
    RawToken(Some(h.symbol), Some(h.name), Some(h.contract), h.balance,
             Some(h.balanceFormatted), Some(h.valueUsd), Some(h.priceUsd), h.change24h)
  }

  /** Normalising is onto the canonical holdings and loses nothing of them. */
  lemma NormalizeRoundTrip(h: TokenHolding)
    requires Canonical(h)
    ensures NormalizeToken(ToRaw(h)) == h
  {
  }

  /** Normalising a row that is already canonical changes nothing. */
  lemma NormalizeIdempotent(t: RawToken)
    ensures Canonical(NormalizeToken(t))
    ensures NormalizeToken(ToRaw(NormalizeToken(t))) == NormalizeToken(t)
  {
  }

  /** `rows.map(...)`: one holding per row, in provider order. */
  function NormalizeHoldings(rows: seq<RawToken>): (hs: seq<TokenHolding>)
    ensures |hs| == |rows|
    ensures forall i :: 0 <= i < |rows| ==> hs[i] == NormalizeToken(rows[i])
    ensures forall h :: h in hs ==> Canonical(h)
  {
    seq(|rows|, i requires 0 <= i < |rows| => NormalizeToken(rows[i]))
  }
}
