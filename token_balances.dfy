/**
 * Selection of the base-side and quote-side token of a new pool from the
 * post-execution token-balance records of its creation transaction
 * (`extract_token_info`).
 */
module TokenBalances {
  import opened Wrappers
  import opened Errors
  import opened Json

  /** The authority that holds the pooled balances of every pool. */
  const LP_OWNER: string := "5Q544fKrFoe6tsEbD7S8EmxGTJYAKtTVhAW5Q5pge4j1"
  /** The wrapped-SOL mint, the quote side of every pool. */
  const WSOL_MINT: string := "So11111111111111111111111111111111111111112"

  type U8 = x: int | 0 <= x < 256

  datatype TokenInfo = TokenInfo(address: string, decimals: U8, lpAmount: real)

  /** The `owner` of a record; absent or not a string reads as "". */
  function Owner(balance: Value): string {
    AsStr(Get(balance, "owner")).GetOr("")
  }

  /** The `mint` of a record; absent or not a string reads as "". */
  function Mint(balance: Value): string {
    AsStr(Get(balance, "mint")).GetOr("")
  }

  /** The record's raw `uiTokenAmount.decimals` truncated to a byte; absent reads as 0. */
  function Decimals(balance: Value): U8 {
    AsU64(Get(Get(balance, "uiTokenAmount"), "decimals")).GetOr(0) % 256
  }

  /** The record's `uiTokenAmount.uiAmount`; absent or null reads as 0. */
  function UiAmount(balance: Value): real {
    AsF64(Get(Get(balance, "uiTokenAmount"), "uiAmount")).GetOr(0.0)
  }

  /** The search predicate: owned by the LP authority, and WSOL on the quote side, anything else on the base side. */
  predicate Fits(balance: Value, isQuote: bool) {
    Owner(balance) == LP_OWNER &&
    if isQuote then Mint(balance) == WSOL_MINT else Mint(balance) != WSOL_MINT
  }

  /** `i` is the position of the first record that fits the side. */
  predicate IsFirstFit(balances: seq<Value>, isQuote: bool, i: int) {
    0 <= i < |balances| && Fits(balances[i], isQuote) &&
    forall j :: 0 <= j < i ==> !Fits(balances[j], isQuote)
  }

  /** Iterator `find`: the position of the first record that fits, if any. */
  function FindBalance(balances: seq<Value>, isQuote: bool): (r: Option<nat>)
    ensures r.Some? ==> IsFirstFit(balances, isQuote, r.value)
    ensures r.None? ==> forall j :: 0 <= j < |balances| ==> !Fits(balances[j], isQuote)
  {
    if balances == [] then None
    else if Fits(balances[0], isQuote) then Some(0)
    else match FindBalance(balances[1..], isQuote)
      case None => None
      case Some(i) => Some(i + 1)
  }

  /** The token information read from one balance record. */
  function ToTokenInfo(balance: Value): TokenInfo {
    TokenInfo(Mint(balance), Decimals(balance), UiAmount(balance))
  }

  /** `extract_token_info`: the token of the first record that fits the side, or "Token info not found". */
  function ExtractTokenInfo(balances: seq<Value>, isQuote: bool): (r: Result<TokenInfo, Error>)
    ensures r.Failure? <==> forall j :: 0 <= j < |balances| ==> !Fits(balances[j], isQuote)
    ensures r.Failure? ==> r.error == TokenInfoNotFound
    ensures r.Success? ==>
      exists i :: IsFirstFit(balances, isQuote, i) && r.value == ToTokenInfo(balances[i])
    ensures r.Success? && isQuote ==> r.value.address == WSOL_MINT
    ensures r.Success? && !isQuote ==> r.value.address != WSOL_MINT
  {
    match FindBalance(balances, isQuote)
    case None => Failure(TokenInfoNotFound)
    case Some(i) => Success(ToTokenInfo(balances[i]))
  }

  /** The first fitting record is the only position that is the first fit. */
  lemma FirstFitUnique(balances: seq<Value>, isQuote: bool, i: int, k: int)
    requires IsFirstFit(balances, isQuote, i) && IsFirstFit(balances, isQuote, k)
    ensures i == k
  {
  }

  /** A successful extraction reads exactly the first fitting record. */
  lemma ExtractReadsFirstFit(balances: seq<Value>, isQuote: bool, i: int)
    requires IsFirstFit(balances, isQuote, i)
    ensures ExtractTokenInfo(balances, isQuote) == Success(ToTokenInfo(balances[i]))
  {
    var r := ExtractTokenInfo(balances, isQuote);
    assert r.Success?;
    var k :| IsFirstFit(balances, isQuote, k) && r.value == ToTokenInfo(balances[k]);
    FirstFitUnique(balances, isQuote, i, k);
  }

  /** Base and quote sides found in the same records are distinct tokens read from distinct records. */
  lemma BaseAndQuoteDistinct(balances: seq<Value>)
    requires ExtractTokenInfo(balances, false).Success?
    requires ExtractTokenInfo(balances, true).Success?
    ensures ExtractTokenInfo(balances, false).value.address
         != ExtractTokenInfo(balances, true).value.address
    ensures FindBalance(balances, false).value != FindBalance(balances, true).value
  {
  }

  /** A record whose owner is absent or not a string is never selected, on either side. */
  lemma AbsentOwnerNeverFits(balance: Value, isQuote: bool)
    requires AsStr(Get(balance, "owner")).None?
    ensures !Fits(balance, isQuote)
  {
    assert LP_OWNER[0] == '5';
  }

  /** Absent amount fields (or a record without `uiTokenAmount`) default to zero instead of failing. */
  lemma AbsentAmountsDefaultToZero(balance: Value)
    requires Get(Get(balance, "uiTokenAmount"), "decimals") == Null
    requires Get(Get(balance, "uiTokenAmount"), "uiAmount") == Null
    ensures ToTokenInfo(balance).decimals == 0
    ensures ToTokenInfo(balance).lpAmount == 0.0
  {
  }

  /** The decimals are the raw unsigned value taken modulo 256 (`as u8`). */
  lemma DecimalsTruncatedToByte(balance: Value, raw: U64)
    requires Get(Get(balance, "uiTokenAmount"), "decimals") == Num(PosInt(raw))
    ensures ToTokenInfo(balance).decimals == raw % 256
    ensures raw < 256 ==> ToTokenInfo(balance).decimals == raw
  {
  }
}
