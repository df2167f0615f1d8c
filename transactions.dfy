/**
 * Decoding of a fetched pool-creation transaction into the record that is
 * stored (`parse_transaction`).
 */
module PoolTransactions {
  import opened Wrappers
  import opened Errors
  import opened Json
  import opened TokenBalances

  /** Execution metadata: the on-chain error, if any, and the post-execution token balances. */
  datatype Meta = Meta(err: Option<string>, postTokenBalances: seq<Value>)

  /** A fetched transaction: its metadata, when the node returned any, and its account keys. */
  datatype Transaction = Transaction(meta: Option<Meta>, accountKeys: seq<string>)

  /** The stored record of one pool creation. */
  datatype TokenData = TokenData(
    lpSignature: string,
    creator: string,
    timestamp: string,
    baseInfo: TokenInfo,
    quoteInfo: TokenInfo)

  /** A transaction without metadata, or one that failed on chain, is not a pool-creation event. */
  predicate NotAnEvent(tx: Transaction) {
    tx.meta.None? || tx.meta.value.err.Some?
  }

  /**
   * `parse_transaction`: `fetched` is the node's answer to the fetch of
   * `signature` and `now` the clock reading taken when the record is built.
   */
  function ParseTransaction(signature: string, fetched: Result<Transaction, Error>, now: string)
    : (r: Result<Option<TokenData>, Error>)
    ensures fetched.Failure? ==> r == Failure(fetched.error)
    ensures r == Success(None) <==> fetched.Success? && NotAnEvent(fetched.value)
    ensures fetched.Success? && !NotAnEvent(fetched.value) && fetched.value.accountKeys == [] ==>
      r == Failure(NoSignerFound)
    ensures fetched.Success? && !NotAnEvent(fetched.value) && fetched.value.accountKeys != [] ==>
      var balances := fetched.value.meta.value.postTokenBalances;
      (r.Failure? <==> ExtractTokenInfo(balances, false).Failure? || ExtractTokenInfo(balances, true).Failure?) &&
      (r.Failure? ==> r.error == TokenInfoNotFound)
    ensures r.Success? && r.value.Some? ==>
      var tx, d := fetched.value, r.value.value;
      && d.lpSignature == signature
      && d.creator == tx.accountKeys[0]
      && d.timestamp == now
      && d.baseInfo == ExtractTokenInfo(tx.meta.value.postTokenBalances, false).value
      && d.quoteInfo == ExtractTokenInfo(tx.meta.value.postTokenBalances, true).value
      && d.quoteInfo.address == WSOL_MINT
      && d.baseInfo.address != d.quoteInfo.address
  {
    match fetched
    case Failure(e) => Failure(e)
    case Success(tx) =>
      if NotAnEvent(tx) then Success(None)
      else if tx.accountKeys == [] then Failure(NoSignerFound)
      else
        var balances := tx.meta.value.postTokenBalances;
        match ExtractTokenInfo(balances, false)
        case Failure(e) => Failure(e)
        case Success(base) =>
          match ExtractTokenInfo(balances, true)
          case Failure(e) => Failure(e)
          case Success(quote) =>
            Success(Some(TokenData(signature, tx.accountKeys[0], now, base, quote)))
  }

  /** One balance record with the given owner, mint, decimals and amount, shaped as the node returns it. */
  function BalanceRecord(owner: string, mint: string, decimals: U64, uiAmount: real): Value {
    Object(map[
      "owner" := Str(owner),
      "mint" := Str(mint),
      "uiTokenAmount" := Object(map["decimals" := Num(PosInt(decimals)), "uiAmount" := Num(Float(uiAmount))])])
  }

  /** A record built by `BalanceRecord` reads back as the values it was built from. */
  lemma BalanceRecordReads(owner: string, mint: string, decimals: U64, uiAmount: real)
    ensures var b := BalanceRecord(owner, mint, decimals, uiAmount);
      Owner(b) == owner && Mint(b) == mint && Decimals(b) == decimals % 256 && UiAmount(b) == uiAmount
  {
    var b := BalanceRecord(owner, mint, decimals, uiAmount);
    var amount := Get(b, "uiTokenAmount");
    assert amount == Object(map["decimals" := Num(PosInt(decimals)), "uiAmount" := Num(Float(uiAmount))]);
    assert Get(amount, "decimals") == Num(PosInt(decimals));
    assert Get(amount, "uiAmount") == Num(Float(uiAmount));
  }

  /** A quote record and a base record owned by the LP authority decode to a two-sided event. */
  lemma PairingExample(signature: string, creator: string, now: string, baseMint: string)
    requires baseMint != WSOL_MINT
    ensures
      var quote := BalanceRecord(LP_OWNER, WSOL_MINT, 9, 5.0);
      var base := BalanceRecord(LP_OWNER, baseMint, 6, 1000.0);
      var tx := Transaction(Some(Meta(None, [quote, base])), [creator]);
      ParseTransaction(signature, Success(tx), now) == Success(Some(TokenData(
        signature, creator, now, TokenInfo(baseMint, 6, 1000.0), TokenInfo(WSOL_MINT, 9, 5.0))))
  {
    var quote := BalanceRecord(LP_OWNER, WSOL_MINT, 9, 5.0);
    var base := BalanceRecord(LP_OWNER, baseMint, 6, 1000.0);
    BalanceRecordReads(LP_OWNER, WSOL_MINT, 9, 5.0);
    BalanceRecordReads(LP_OWNER, baseMint, 6, 1000.0);
    var balances := [quote, base];
    assert IsFirstFit(balances, true, 0);
    assert IsFirstFit(balances, false, 1);
    ExtractReadsFirstFit(balances, true, 0);
    ExtractReadsFirstFit(balances, false, 1);
    assert ToTokenInfo(quote) == TokenInfo(WSOL_MINT, 9, 5.0);
    assert ToTokenInfo(base) == TokenInfo(baseMint, 6, 1000.0);
  }

  /** A transaction holding only the quote-side record is rejected with "Token info not found". */
  lemma QuoteOnlyRejected(signature: string, creator: string, now: string)
    ensures
      var quote := BalanceRecord(LP_OWNER, WSOL_MINT, 9, 5.0);
      var tx := Transaction(Some(Meta(None, [quote])), [creator]);
      ParseTransaction(signature, Success(tx), now) == Failure(TokenInfoNotFound)
  {
    var quote := BalanceRecord(LP_OWNER, WSOL_MINT, 9, 5.0);
    BalanceRecordReads(LP_OWNER, WSOL_MINT, 9, 5.0);
    assert !Fits(quote, false);
  }
}
