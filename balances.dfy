/** The value-level part of features/wallet-connection/slices/balanceSlice.ts:
    the entry a token gets after a fetch, the message reported when a fetch
    fails, and the optimistic balance a pending transaction projects. */
module Balances {
  import opened Wrappers
  import opened JsRuntime
  import opened WalletTypes

  const BalanceErrorPrefix: string := "Failed to fetch token balances: "
  const UnknownBalanceError: string := "Unknown error fetching balances"
  const FailedMarker: string := "Failed"

  /** The chain client's `balanceOf(owner)` read on a token's contract: the
      raw integer balance, or the thrown value. */
  type BalanceRead = (Token, string) -> Result<nat, Thrown>

  /** The entry before any fetch, and after a fetch without a wallet. */
  function UnknownBalance(t: Token, loading: bool): TokenBalance {
    TokenBalance(None, None, Symbol(t), loading, None)
  }

  /** The entry after a successful fetch: the confirmed and the optimistic
      balance are the same formatted amount. */
  function FetchedBalance(t: Token, raw: nat): (r: TokenBalance)
    ensures r.balance == r.optimisticBalance == Some(FormatUnits(raw, Decimals(t)))
    ensures !r.loading && r.error == None && r.symbol == Symbol(t)
  {
    var formatted := FormatUnits(raw, Decimals(t));
    TokenBalance(Some(formatted), Some(formatted), Symbol(t), false, None)
  }

  /** The strings a thrown value carries that the balance fetch may report. */
  function CarriedStrings(error: Thrown): set<string> {
    match error
    case ErrorInstance(m) => {m}
    case StringValue(s) => {s}
    case PlainObject(short, m) =>
      (if short.Some? then {short.value} else {}) + (if m.Some? then {m.value} else {})
    case _ => {}
  }

  /** The message handed to the error slot when a balance read throws: the
      prefix followed by a string the error carries (an object's
      `shortMessage` before its `message`), or a fixed text when it carries
      none. */
  function BalanceErrorMessage(error: Thrown): (r: string)
    ensures r == UnknownBalanceError <==> CarriedStrings(error) == {}
    ensures r != UnknownBalanceError ==>
              StartsWith(r, BalanceErrorPrefix) && r[|BalanceErrorPrefix|..] in CarriedStrings(error)
    ensures error.PlainObject? && error.shortMessageProp.Some? ==>
              r == BalanceErrorPrefix + error.shortMessageProp.value
  {
    assert UnknownBalanceError[0] != BalanceErrorPrefix[0];
    match error
    case ErrorInstance(m) => BalanceErrorPrefix + m
    case StringValue(s) => BalanceErrorPrefix + s
    case PlainObject(short, m) =>
      if short.Some? then BalanceErrorPrefix + short.value
      else if m.Some? then BalanceErrorPrefix + m.value
      else UnknownBalanceError
    case _ => UnknownBalanceError
  }

  /** The kind of transaction whose effect is projected. */
  datatype TxType = MintTx | TransferTx | ApproveTx

  /** `Number(balance)`: a missing balance counts as zero. */
  function NumericValue(b: Option<real>): real {
    b.GetOr(0.0)
  }

  /** The optimistic balance projected from the confirmed one: a mint adds
      the amount, a transfer subtracts it, an approval moves nothing. */
  function OptimisticAfter(balance: Option<real>, amount: real, txType: TxType): (r: Option<real>)
    ensures txType == ApproveTx ==> r == balance
    ensures txType != ApproveTx ==> r.Some?
    ensures txType == MintTx ==> r.value - NumericValue(balance) == amount
    ensures txType == TransferTx ==> NumericValue(balance) - r.value == amount
  {
    match txType
    case MintTx => Some(NumericValue(balance) + amount)
    case TransferTx => Some(NumericValue(balance) - amount)
    case ApproveTx => balance
  }
}
