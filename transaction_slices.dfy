/** The form and transaction records of the three write slices
    (features/wallet-connection/slices/mintSlice.ts, transferSlice.ts and
    approveSlice.ts), the partial updates their setters merge in, the contract
    call each write issues, and the messages each reports on failure. */
module TransactionSlices {
  import opened Wrappers
  import opened JsRuntime
  import opened WalletTypes

  // ---------------------------------------------------------------- contract writes

  /** The ERC-20 function a write calls. */
  datatype WriteFunction = MintFn | TransferFn | ApproveFn

  /** A write to the token's contract calling `functionName(target, amount)`;
      `amount` is the human-readable amount that is scaled by
      `Decimals(token)` before the call. */
  datatype WriteCall = WriteCall(token: Token, functionName: WriteFunction, target: string, amount: string)

  /** The chain client's write: the transaction hash, or the thrown value
      (a thrown amount conversion included). */
  type ContractWrite = WriteCall -> Result<string, Thrown>

  // ---------------------------------------------------------------- mint slice

  /** `recipientAddress` is not declared by the slice, but the setter's
      parameter type admits it and the merge copies it in when given. */
  datatype MintValidationErrors = MintValidationErrors(amount: string, recipientAddress: Option<string>)
  datatype MintForm = MintForm(amount: string, validationErrors: MintValidationErrors)
  datatype MintState = MintState(form: MintForm, transactionState: TransactionState)

  /** A partial record: `None` is an absent key. */
  datatype MintErrorsPatch = MintErrorsPatch(amount: Option<string>, recipientAddress: Option<string>)

  const InitialMint := MintState(MintForm("", MintValidationErrors("", None)), IdleTransaction)

  // ---------------------------------------------------------------- transfer slice

  datatype TransferFields = TransferFields(amount: string, recipientAddress: string)
  datatype TransferForm = TransferForm(amount: string, recipientAddress: string, validationErrors: TransferFields)
  datatype TransferState = TransferState(form: TransferForm, transactionState: TransactionState)
  datatype TransferPatch = TransferPatch(amount: Option<string>, recipientAddress: Option<string>)

  const InitialTransfer := TransferState(TransferForm("", "", TransferFields("", "")), IdleTransaction)

  // ---------------------------------------------------------------- approve slice

  datatype ApproveFields = ApproveFields(amount: string, spenderAddress: string)
  datatype ApproveForm = ApproveForm(amount: string, spenderAddress: string, validationErrors: ApproveFields)
  datatype ApproveState = ApproveState(allowance: string, form: ApproveForm, transactionState: TransactionState)
  datatype ApprovePatch = ApprovePatch(amount: Option<string>, spenderAddress: Option<string>)

  const InitialApprove := ApproveState("", ApproveForm("", "", ApproveFields("", "")), IdleTransaction)

  // ---------------------------------------------------------------- merging partial records

  /** `{ ...current, ...patch }` for one key: a given key overwrites. */
  function MergeKey(current: string, patch: Option<string>): string {
    patch.GetOr(current)
  }

  function MergeOptionalKey(current: Option<string>, patch: Option<string>): Option<string> {
    if patch.Some? then patch else current
  }

  // ---------------------------------------------------------------- failure messages

  const WalletNotFound: string := "Wallet address not found. Please connect your wallet."
  const RejectedWord: string := "rejected"

  const MintRejected: string := "Mint transaction was rejected."
  const TransferRejected: string := "Transfer transaction was rejected."
  const ApproveRejected: string := "Approve transaction was rejected."

  function MintFailure(t: Token): string {
    "Failed to mint " + Symbol(t) + ". Please try again."
  }

  function TransferFailure(t: Token): string {
    "Failed to transfer " + Symbol(t) + ". Please check details and balance."
  }

  function ApproveFailure(t: Token): string {
    "Failed to approve " + Symbol(t) + ". Please try again."
  }

  /** The rejection test looks for "rejected" in the failure template itself,
      never in the thrown error, and no template contains the word: the
      "transaction was rejected" messages are unreachable. */
  lemma {:induction false} RejectionNeverDetected(t: Token)
    ensures !Contains(MintFailure(t), RejectedWord)
    ensures !Contains(TransferFailure(t), RejectedWord)
    ensures !Contains(ApproveFailure(t), RejectedWord)
  {
    assert RejectedWord[2] == 'j';
    ContainsNeedsEveryChar(MintFailure(t), RejectedWord, 'j');
    ContainsNeedsEveryChar(TransferFailure(t), RejectedWord, 'j');
    ContainsNeedsEveryChar(ApproveFailure(t), RejectedWord, 'j');
  }
}
