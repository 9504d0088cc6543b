/** Records shared by the wallet-connection slices: the two supported tokens
    and their fixed configuration, the lifecycle of one contract write, a
    token's balance entry and one entry of the transaction history. */
module WalletTypes {
  import opened Wrappers

  datatype Token = DAI | USDC

  /** The tokens in the order the history scan visits them. */
  const Tokens: seq<Token> := [DAI, USDC]

  function Symbol(t: Token): string {
    match t
    case DAI => "DAI"
    case USDC => "USDC"
  }

  function Decimals(t: Token): nat {
    match t
    case DAI => 18
    case USDC => 6
  }

  function Pow10(n: nat): (r: nat)
    ensures r >= 1
  {
    if n == 0 then 1 else 10 * Pow10(n - 1)
  }

  /** `formatUnits(raw, decimals)`: the raw integer amount in whole tokens. */
  function FormatUnits(raw: nat, decimals: nat): real {
    raw as real / Pow10(decimals) as real
  }

  /** The lifecycle of one contract write (features/wallet-connection/types). */
  datatype TransactionState = TransactionState(loading: bool, error: Option<string>, success: bool, txHash: Option<string>)

  const IdleTransaction := TransactionState(false, None, false, None)

  /** A token's balance entry. `balance` and `optimisticBalance` are the
      numeric values of the decimal strings the store holds. */
  datatype TokenBalance = TokenBalance(
    balance: Option<real>,
    optimisticBalance: Option<real>,
    symbol: string,
    loading: bool,
    error: Option<string>)

  datatype EventStatus = Pending | Success | Failed

  /** The event's `type` field. */
  datatype EventKind = Transfer | Approve | Mint

  /** One entry of the transaction history; `amount` is in whole tokens. */
  datatype TokenEvent = TokenEvent(
    amount: real,
    from: string,
    id: string,
    to: string,
    status: EventStatus,
    token: Token,
    transactionHash: string,
    kind: EventKind)
}
