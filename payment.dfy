/**
 * The two small input normalisations of the payment gate: the payment token
 * type chosen by header or query parameter, and the `0x` prefix of a
 * transaction id.
 */
module Payment {
  import opened Wrappers
  import opened Text

  datatype PaymentToken = Stx | Sbtc

  /** The token-type text in force: the header, else the query parameter, else `STX`. */
  function TokenTypeText(header: Option<string>, query: Option<string>): (t: string)
    ensures header.Some? && header.value != "" ==> t == header.value
    ensures (header.None? || header.value == "") && query.Some? && query.value != "" ==> t == query.value
    ensures (header.None? || header.value == "") && (query.None? || query.value == "") ==> t == "STX"
  {
    OrDefault(header, OrDefault(query, "STX"))
  }

  /** The token type of a request: `sBTC` when the text in force upper-cases to `SBTC`, else STX. */
  function PaymentTokenType(header: Option<string>, query: Option<string>): (p: PaymentToken)
    ensures p == Sbtc <==> SpellsSbtc(TokenTypeText(header, query))
  {
    var t := TokenTypeText(header, query);
    var u := Upper(t);
    assert SpellsSbtc(t) ==> u == "SBTC";
    assert u == "SBTC" ==> u[0] == 'S' && u[1] == 'B' && u[2] == 'T' && u[3] == 'C';
    if u == "SBTC" then Sbtc else Stx
  }

  /** Spelled `sbtc` in any mix of letter cases. */
  predicate SpellsSbtc(t: string)
  {
    && |t| == 4
    && (t[0] == 's' || t[0] == 'S') && (t[1] == 'b' || t[1] == 'B')
    && (t[2] == 't' || t[2] == 'T') && (t[3] == 'c' || t[3] == 'C')
  }

  /** sBTC is chosen exactly when the text in force spells `sbtc`, whatever its letter case. */
  lemma SbtcIffSpelled(header: Option<string>, query: Option<string>)
    ensures PaymentTokenType(header, query) == Sbtc <==> SpellsSbtc(TokenTypeText(header, query))
  {
    var t := TokenTypeText(header, query);
    var u := Upper(t);
    if SpellsSbtc(t) {
      assert u == "SBTC";
    }
    if u == "SBTC" {
      assert u[0] == 'S' && u[1] == 'B' && u[2] == 'T' && u[3] == 'C';
    }
  }

  /** A non-empty header decides alone: the query parameter is then ignored. */
  lemma HeaderTakesPrecedence(header: string, query: Option<string>, query': Option<string>)
    requires header != ""
    ensures PaymentTokenType(Some(header), query) == PaymentTokenType(Some(header), query')
  {
  }

  /** With neither a header nor a query parameter the payment is in STX. */
  lemma DefaultsToStx(header: Option<string>, query: Option<string>)
    requires header.None? || header.value == ""
    requires query.None? || query.value == ""
    ensures PaymentTokenType(header, query) == Stx
  {
    var u := Upper("STX");
    assert |u| == 3;
  }

  /** `txid.startsWith('0x') ? txid : '0x' + txid`. */
  function NormalizeTxid(txid: string): (r: string)
    ensures StartsWith(r, "0x")
    ensures StartsWith(txid, "0x") ==> r == txid
    ensures !StartsWith(txid, "0x") ==> |r| == |txid| + 2 && r[2..] == txid
  {
    if StartsWith(txid, "0x") then txid else "0x" + txid
  }

  /** Normalising twice is normalising once. */
  lemma NormalizeTxidIdempotent(txid: string)
    ensures NormalizeTxid(NormalizeTxid(txid)) == NormalizeTxid(txid)
  {
  }
}
