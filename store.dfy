/** The composed client-side store (store/index.ts): every wallet-connection
    slice spread into one object. Each action's field-level `modifies` clause
    names the fields its `set(...)` call may write; where only one of them is
    written, the `ensures` say the other keeps its value, and fields outside
    the clause keep theirs. Calls into the chain client are
    parameters: a balance read, a block-number result, a log query and a
    contract write. Each asynchronous action runs to completion at once. */
module Store {
  import opened Wrappers
  import opened JsRuntime
  import opened WalletTypes
  import opened Utils
  import opened History
  import opened Balances
  import opened TransactionSlices

  const ExpectedNetwork: string := "sepolia"

  /** The profile slice's `details`; only `address` is read here. */
  datatype ProfileDetails = ProfileDetails(address: string, chain: string, balance: string, ensName: string)

  class AppStore {
    // history slice
    var events: Option<seq<TokenEvent>>
    var optimisticEvents: Option<seq<TokenEvent>>
    var eventsIsLoading: bool
    var eventsErrorMessage: Option<string>
    var eventsFetchError: bool
    var isRetryingEvents: bool
    // network slice
    var network: string
    var isWrongNetwork: bool
    // profile slice (its actions are not part of this model)
    var details: ProfileDetails
    // balance slice
    var daiBalance: TokenBalance
    var usdcBalance: TokenBalance
    var transactionState: TransactionState
    var selectedToken: Token
    // error slice
    var error: Option<string>
    var isErrorModalOpen: bool
    // write slices
    var mint: MintState
    var transfer: TransferState
    var approve: ApproveState

    /** What every action preserves: the error modal is open exactly when an
        error is stored, the network and the allowance never change, and each
        balance entry keeps its token's symbol. */
    ghost predicate Valid()
      reads this
    {
      && (isErrorModalOpen <==> error.Some?)
      && network == ExpectedNetwork
      && approve.allowance == ""
      && daiBalance.symbol == Symbol(DAI)
      && usdcBalance.symbol == Symbol(USDC)
    }

    /** The balance entry of the selected token. */
    function Selected(): TokenBalance
      reads this
    {
      if selectedToken == DAI then daiBalance else usdcBalance
    }

    /** The state every slice starts in. */
    constructor ()
      ensures Valid()
      ensures events == None && optimisticEvents == None
      ensures eventsIsLoading && eventsErrorMessage == None && !eventsFetchError && !isRetryingEvents
      ensures network == ExpectedNetwork && !isWrongNetwork
      ensures details == ProfileDetails("", "", "", "")
      ensures selectedToken == DAI
      ensures daiBalance == UnknownBalance(DAI, true) && usdcBalance == UnknownBalance(USDC, true)
      ensures transactionState == IdleTransaction
      ensures error == None && !isErrorModalOpen
      ensures mint == InitialMint && transfer == InitialTransfer && approve == InitialApprove
    {
      events, optimisticEvents := None, None;
      eventsIsLoading, eventsErrorMessage, eventsFetchError, isRetryingEvents := true, None, false, false;
      network, isWrongNetwork := ExpectedNetwork, false;
      details := ProfileDetails("", "", "", "");
      selectedToken := DAI;
      daiBalance := TokenBalance(None, None, Symbol(DAI), true, None);
      usdcBalance := TokenBalance(None, None, Symbol(USDC), true, None);
      transactionState := TransactionState(false, None, false, None);
      error, isErrorModalOpen := None, false;
      mint := MintState(MintForm("", MintValidationErrors("", None)), TransactionState(false, None, false, None));
      transfer := TransferState(TransferForm("", "", TransferFields("", "")), TransactionState(false, None, false, None));
      approve := ApproveState("", ApproveForm("", "", ApproveFields("", "")), TransactionState(false, None, false, None));
    }

    // ------------------------------------------------------------ error slice

    /** Stores the message, replacing any earlier one, and opens the modal. */
    method SetError(message: string)
      requires Valid()
      modifies this`error, this`isErrorModalOpen
      ensures Valid()
      ensures error == Some(message) && isErrorModalOpen
    {
      error, isErrorModalOpen := Some(message), true;
    }

    /** Forgets the message and closes the modal. */
    method ClearError()
      requires Valid()
      modifies this`error, this`isErrorModalOpen
      ensures Valid()
      ensures error == None && !isErrorModalOpen
    {
      error, isErrorModalOpen := None, false;
    }

    // ------------------------------------------------------------ network slice

    method SetIsWrongNetwork(wrong: bool)
      requires Valid()
      modifies this`isWrongNetwork
      ensures Valid()
      ensures isWrongNetwork == wrong
    {
      isWrongNetwork := wrong;
    }

    // ------------------------------------------------------------ balance slice

    /** The synchronous start of a fetch for a connected wallet: both entries
        are marked loading with no error, their amounts kept. */
    method BeginBalanceFetch()
      requires Valid()
      modifies this`daiBalance, this`usdcBalance
      ensures Valid()
      ensures daiBalance == old(daiBalance).(loading := true, error := None)
      ensures usdcBalance == old(usdcBalance).(loading := true, error := None)
    {
      daiBalance := daiBalance.(loading := true, error := None);
      usdcBalance := usdcBalance.(loading := true, error := None);
    }

    /** Fetches both token balances. Without a wallet both entries are
        cleared. Otherwise DAI is read, then USDC; if both reads succeed each
        entry holds the formatted amount as both its confirmed and its
        optimistic balance; if either throws, the first thrown value is
        reported through the error slot and both entries keep their amounts,
        stop loading and carry the error marker. */
    method FetchTokenBalances(walletAddress: Option<string>, readBalanceOf: BalanceRead)
      requires Valid()
      modifies this`daiBalance, this`usdcBalance, this`error, this`isErrorModalOpen
      ensures Valid()
      ensures !Truthy(walletAddress) ==>
        && daiBalance == UnknownBalance(DAI, false) && usdcBalance == UnknownBalance(USDC, false)
        && error == old(error) && isErrorModalOpen == old(isErrorModalOpen)
      ensures Truthy(walletAddress) ==>
        var dai := readBalanceOf(DAI, walletAddress.value);
        var usdc := readBalanceOf(USDC, walletAddress.value);
        if dai.Ok? && usdc.Ok? then
          && daiBalance == FetchedBalance(DAI, dai.value) && usdcBalance == FetchedBalance(USDC, usdc.value)
          && error == old(error) && isErrorModalOpen == old(isErrorModalOpen)
        else
          && daiBalance == old(daiBalance).(loading := false, error := Some(FailedMarker))
          && usdcBalance == old(usdcBalance).(loading := false, error := Some(FailedMarker))
          && error == Some(BalanceErrorMessage(if dai.Err? then dai.error else usdc.error))
          && isErrorModalOpen
    {
      if !Truthy(walletAddress) {
        daiBalance := TokenBalance(None, None, Symbol(DAI), false, None);
        usdcBalance := TokenBalance(None, None, Symbol(USDC), false, None);
        return;
      }
      BeginBalanceFetch();
      var failure: Option<Thrown> := None;
      var daiResult := readBalanceOf(DAI, walletAddress.value);
      if daiResult.Err? {
        failure := Some(daiResult.error);
      } else {
        var usdcResult := readBalanceOf(USDC, walletAddress.value);
        if usdcResult.Err? {
          failure := Some(usdcResult.error);
        } else {
          var formattedDai := FormatUnits(daiResult.value, Decimals(DAI));
          var formattedUsdc := FormatUnits(usdcResult.value, Decimals(USDC));
          daiBalance := TokenBalance(Some(formattedDai), Some(formattedDai), Symbol(DAI), false, None);
          usdcBalance := TokenBalance(Some(formattedUsdc), Some(formattedUsdc), Symbol(USDC), false, None);
        }
      }
      if failure.Some? {
        var errorMessage := UnknownBalanceError;
        match failure.value {
          case ErrorInstance(m) => errorMessage := BalanceErrorPrefix + m;
          case StringValue(s) => errorMessage := BalanceErrorPrefix + s;
          case PlainObject(short, m) =>
            if short.Some? {
              errorMessage := BalanceErrorPrefix + short.value;
            } else if m.Some? {
              errorMessage := BalanceErrorPrefix + m.value;
            }
          case _ =>
        }
        SetError(errorMessage);
        daiBalance := daiBalance.(loading := false, error := Some(FailedMarker));
        usdcBalance := usdcBalance.(loading := false, error := Some(FailedMarker));
      }
    }

    /** Sets the selected token's optimistic balance back to its confirmed
        balance; a second call changes nothing. */
    method ResetOptimisticBalance()
      requires Valid()
      modifies this`daiBalance, this`usdcBalance
      ensures Valid()
      ensures selectedToken == DAI ==>
        daiBalance == old(daiBalance).(optimisticBalance := old(daiBalance.balance)) && usdcBalance == old(usdcBalance)
      ensures selectedToken == USDC ==>
        usdcBalance == old(usdcBalance).(optimisticBalance := old(usdcBalance.balance)) && daiBalance == old(daiBalance)
      ensures Selected().optimisticBalance == Selected().balance
      ensures old(Selected().optimisticBalance == Selected().balance) ==>
        daiBalance == old(daiBalance) && usdcBalance == old(usdcBalance)
    {
      if selectedToken == DAI {
        daiBalance := daiBalance.(optimisticBalance := daiBalance.balance);
      } else {
        usdcBalance := usdcBalance.(optimisticBalance := usdcBalance.balance);
      }
    }

    /** Puts the balance slice's transaction state back to idle. */
    method ResetTransactionState()
      requires Valid()
      modifies this`transactionState
      ensures Valid()
      ensures transactionState == IdleTransaction
    {
      transactionState := TransactionState(false, None, false, None);
    }

    method SetIsDaiPending(pending: bool)
      requires Valid()
      modifies this`daiBalance
      ensures Valid()
      ensures daiBalance == old(daiBalance).(loading := pending)
    {
      daiBalance := daiBalance.(loading := pending);
    }

    method SetIsUsdcPending(pending: bool)
      requires Valid()
      modifies this`usdcBalance
      ensures Valid()
      ensures usdcBalance == old(usdcBalance).(loading := pending)
    {
      usdcBalance := usdcBalance.(loading := pending);
    }

    /** Projects a pending transaction onto the selected token only: its
        optimistic balance becomes the confirmed balance plus the amount for a
        mint, minus it for a transfer, and the confirmed balance itself for an
        approval. Confirmed balances and the other token stay as they were. */
    method SetOptimisticBalance(amount: real, txType: TxType)
      requires Valid()
      modifies this`daiBalance, this`usdcBalance
      ensures Valid()
      ensures selectedToken == DAI ==>
        && daiBalance == old(daiBalance).(optimisticBalance := OptimisticAfter(old(daiBalance.balance), amount, txType))
        && usdcBalance == old(usdcBalance)
      ensures selectedToken == USDC ==>
        && usdcBalance == old(usdcBalance).(optimisticBalance := OptimisticAfter(old(usdcBalance.balance), amount, txType))
        && daiBalance == old(daiBalance)
    {
      if selectedToken == DAI {
        if txType == MintTx {
          daiBalance := daiBalance.(optimisticBalance := Some(NumericValue(daiBalance.balance) + amount));
        } else if txType == TransferTx {
          daiBalance := daiBalance.(optimisticBalance := Some(NumericValue(daiBalance.balance) - amount));
        } else {
          daiBalance := daiBalance.(optimisticBalance := daiBalance.balance);
        }
      } else {
        if txType == MintTx {
          usdcBalance := usdcBalance.(optimisticBalance := Some(NumericValue(usdcBalance.balance) + amount));
        } else if txType == TransferTx {
          usdcBalance := usdcBalance.(optimisticBalance := Some(NumericValue(usdcBalance.balance) - amount));
        } else {
          usdcBalance := usdcBalance.(optimisticBalance := usdcBalance.balance);
        }
      }
    }

    method SetSelectedToken(token: Token)
      requires Valid()
      modifies this`selectedToken
      ensures Valid()
      ensures selectedToken == token
    {
      selectedToken := token;
    }

    // ------------------------------------------------------------ history slice

    /** The synchronous start of a fetch for a connected wallet. */
    method BeginEventsFetch(showIsLoading: bool)
      requires Valid()
      modifies this`eventsIsLoading, this`eventsErrorMessage, this`eventsFetchError, this`isRetryingEvents
      ensures Valid()
      ensures eventsIsLoading == showIsLoading && eventsErrorMessage == None
      ensures !eventsFetchError && isRetryingEvents
    {
      eventsIsLoading, eventsErrorMessage, eventsFetchError, isRetryingEvents := showIsLoading, None, false, true;
    }

    /** Rebuilds the transaction history. Without a wallet all event state is
        cleared. Otherwise the history is reconstructed from the chain; on
        success it becomes both the confirmed and the optimistic list, on any
        failure both lists are dropped and the error is recorded. */
    method FetchEvents(walletAddress: Option<string>, blockNumber: Result<int, Thrown>, getLogs: LogQuery,
                       showIsLoading: bool := true)
      requires Valid()
      modifies this`events, this`optimisticEvents, this`eventsIsLoading, this`eventsErrorMessage,
               this`eventsFetchError, this`isRetryingEvents
      ensures Valid()
      ensures !eventsIsLoading && !isRetryingEvents
      ensures !Truthy(walletAddress) ==>
        events == None && optimisticEvents == None && eventsErrorMessage == None && !eventsFetchError
      ensures Truthy(walletAddress) ==>
        match HistoryOutcome(blockNumber, getLogs, walletAddress.value)
        case Ok(history) =>
          events == Some(history) && optimisticEvents == Some(history)
          && eventsErrorMessage == None && !eventsFetchError
        case Err(thrown) =>
          events == None && optimisticEvents == None
          && eventsErrorMessage == Some(HistoryErrorMessage(thrown)) && eventsFetchError
    {
      if !Truthy(walletAddress) {
        events, optimisticEvents := None, None;
        eventsIsLoading, eventsErrorMessage, eventsFetchError, isRetryingEvents := false, None, false, false;
        return;
      }
      BeginEventsFetch(showIsLoading);
      var outcome := ReconstructHistory(blockNumber, getLogs, walletAddress.value);
      if outcome.Ok? {
        events, optimisticEvents := Some(outcome.value), Some(outcome.value);
        eventsIsLoading, eventsErrorMessage, eventsFetchError, isRetryingEvents := false, None, false, false;
      } else {
        var detail := if outcome.error.ErrorInstance? then outcome.error.message else "Please try again.";
        events, optimisticEvents := None, None;
        eventsIsLoading, eventsErrorMessage := false, Some(HistoryErrorPrefix + detail);
        eventsFetchError, isRetryingEvents := true, false;
      }
    }

    /** Drops the optimistic overlay: the optimistic list is the confirmed one. */
    method ResetOptimisticEvents()
      requires Valid()
      modifies this`optimisticEvents
      ensures Valid()
      ensures optimisticEvents == events
    {
      optimisticEvents := events;
    }

    /** Appends an in-flight event to the optimistic list, creating the list
        when there is none; the confirmed list is untouched. */
    method SetOptimisticEvents(newEvent: TokenEvent)
      requires Valid()
      modifies this`optimisticEvents
      ensures Valid()
      ensures old(optimisticEvents).Some? ==> optimisticEvents == Some(old(optimisticEvents).value + [newEvent])
      ensures old(optimisticEvents).None? ==> optimisticEvents == Some([newEvent])
    {
      optimisticEvents := if optimisticEvents.Some? then Some(optimisticEvents.value + [newEvent]) else Some([newEvent]);
    }

    // ------------------------------------------------------------ mint slice

    /** Stores the sanitised amount, with the selected token's decimals. */
    method SetMintAmount(value: string)
      requires Valid()
      modifies this`mint
      ensures Valid()
      ensures mint == old(mint).(form := old(mint.form).(amount := FormattedAmount(value, Decimals(selectedToken))))
      ensures IsSubsequence(mint.form.amount, value)
    {
      var decimals := if selectedToken == DAI then 18 else 6;
      var processedValue := FormatValueOnInputChange(value, decimals);
      mint := mint.(form := mint.form.(amount := processedValue));
    }

    /** Merges the given validation errors; keys not given keep their value. */
    method SetMintFormValidationErrors(errors: MintErrorsPatch)
      requires Valid()
      modifies this`mint
      ensures Valid()
      ensures mint.transactionState == old(mint.transactionState)
      ensures mint.form.amount == old(mint.form.amount)
      ensures mint.form.validationErrors.amount == MergeKey(old(mint.form.validationErrors.amount), errors.amount)
      ensures mint.form.validationErrors.recipientAddress ==
              MergeOptionalKey(old(mint.form.validationErrors.recipientAddress), errors.recipientAddress)
    {
      var merged := MintValidationErrors(MergeKey(mint.form.validationErrors.amount, errors.amount),
                                         MergeOptionalKey(mint.form.validationErrors.recipientAddress, errors.recipientAddress));
      mint := mint.(form := mint.form.(validationErrors := merged));
    }

    method SetMintTransactionState(state: TransactionState)
      requires Valid()
      modifies this`mint
      ensures Valid()
      ensures mint == old(mint).(transactionState := state)
    {
      mint := mint.(transactionState := state);
    }

    /** Mints to the connected wallet's own address. Without an address the
        error slot says so and no write is issued; a failed write is reported
        with the token's failure message. The mint slice is not touched. */
    method MintToken(token: Token, amount: string, write: ContractWrite) returns (hash: Option<string>, issued: Option<WriteCall>)
      requires Valid()
      modifies this`error, this`isErrorModalOpen
      ensures Valid()
      ensures details.address == "" ==> issued == None && hash == None && error == Some(WalletNotFound)
      ensures details.address != "" ==>
        && issued == Some(WriteCall(token, MintFn, details.address, amount))
        && hash == write(issued.value).ToOption()
        && (write(issued.value).Ok? ==> error == old(error) && isErrorModalOpen == old(isErrorModalOpen))
        && (write(issued.value).Err? ==> error == Some(MintFailure(token)))
    {
      var walletAddress := details.address;
      if walletAddress == "" {
        SetError(WalletNotFound);
        return None, None;
      }
      var call := WriteCall(token, MintFn, walletAddress, amount);
      var result := write(call);
      issued := Some(call);
      if result.Ok? {
        return Some(result.value), issued;
      }
      var message := "Failed to mint " + Symbol(token) + ". Please try again.";
      var userRejected := false;
      if result.error.ErrorInstance? {
        userRejected := Contains(message, RejectedWord);
      }
      RejectionNeverDetected(token);
      var finalMessage := if userRejected then MintRejected else message;
      SetError(finalMessage);
      hash := None;
    }

    // ------------------------------------------------------------ transfer slice

    /** Merges the given validation errors; keys not given keep their value. */
    method SetTransferFormValidationErrors(errors: TransferPatch)
      requires Valid()
      modifies this`transfer
      ensures Valid()
      ensures transfer.transactionState == old(transfer.transactionState)
      ensures transfer.form.amount == old(transfer.form.amount)
      ensures transfer.form.recipientAddress == old(transfer.form.recipientAddress)
      ensures transfer.form.validationErrors == TransferFields(
                MergeKey(old(transfer.form.validationErrors.amount), errors.amount),
                MergeKey(old(transfer.form.validationErrors.recipientAddress), errors.recipientAddress))
    {
      var current := transfer.form.validationErrors;
      var merged := current.(amount := MergeKey(current.amount, errors.amount),
                             recipientAddress := MergeKey(current.recipientAddress, errors.recipientAddress));
      transfer := transfer.(form := transfer.form.(validationErrors := merged));
    }

    /** Merges the given form values; validation errors are untouched. */
    method SetTransferFormValues(values: TransferPatch)
      requires Valid()
      modifies this`transfer
      ensures Valid()
      ensures transfer.transactionState == old(transfer.transactionState)
      ensures transfer.form.validationErrors == old(transfer.form.validationErrors)
      ensures transfer.form.amount == MergeKey(old(transfer.form.amount), values.amount)
      ensures transfer.form.recipientAddress == MergeKey(old(transfer.form.recipientAddress), values.recipientAddress)
    {
      var form := transfer.form.(amount := MergeKey(transfer.form.amount, values.amount),
                                 recipientAddress := MergeKey(transfer.form.recipientAddress, values.recipientAddress));
      transfer := transfer.(form := form);
    }

    method SetTransferTransactionState(state: TransactionState)
      requires Valid()
      modifies this`transfer
      ensures Valid()
      ensures transfer == old(transfer).(transactionState := state)
    {
      transfer := transfer.(transactionState := state);
    }

    /** Transfers to `recipient`; there is no wallet check. A failed write is
        reported with the token's failure message. The transfer slice is not
        touched. */
    method TransferToken(token: Token, recipient: string, amount: string, write: ContractWrite)
      returns (hash: Option<string>, issued: WriteCall)
      requires Valid()
      modifies this`error, this`isErrorModalOpen
      ensures Valid()
      ensures issued == WriteCall(token, TransferFn, recipient, amount)
      ensures hash == write(issued).ToOption()
      ensures write(issued).Ok? ==> error == old(error) && isErrorModalOpen == old(isErrorModalOpen)
      ensures write(issued).Err? ==> error == Some(TransferFailure(token))
    {
      issued := WriteCall(token, TransferFn, recipient, amount);
      var result := write(issued);
      if result.Ok? {
        return Some(result.value), issued;
      }
      var message := "Failed to transfer " + Symbol(token) + ". Please check details and balance.";
      var userRejected := false;
      if result.error.ErrorInstance? {
        userRejected := Contains(message, RejectedWord);
      }
      RejectionNeverDetected(token);
      var finalMessage := if userRejected then TransferRejected else message;
      SetError(finalMessage);
      hash := None;
    }

    // ------------------------------------------------------------ approve slice

    /** Merges the given form values; validation errors are untouched. */
    method SetApproveFormValues(values: ApprovePatch)
      requires Valid()
      modifies this`approve
      ensures Valid()
      ensures approve.allowance == old(approve.allowance)
      ensures approve.transactionState == old(approve.transactionState)
      ensures approve.form.validationErrors == old(approve.form.validationErrors)
      ensures approve.form.amount == MergeKey(old(approve.form.amount), values.amount)
      ensures approve.form.spenderAddress == MergeKey(old(approve.form.spenderAddress), values.spenderAddress)
    {
      var form := approve.form.(amount := MergeKey(approve.form.amount, values.amount),
                                spenderAddress := MergeKey(approve.form.spenderAddress, values.spenderAddress));
      approve := approve.(form := form);
    }

    /** Merges the given validation errors; keys not given keep their value. */
    method SetApproveFormValidationErrors(errors: ApprovePatch)
      requires Valid()
      modifies this`approve
      ensures Valid()
      ensures approve.allowance == old(approve.allowance)
      ensures approve.transactionState == old(approve.transactionState)
      ensures approve.form.amount == old(approve.form.amount)
      ensures approve.form.spenderAddress == old(approve.form.spenderAddress)
      ensures approve.form.validationErrors == ApproveFields(
                MergeKey(old(approve.form.validationErrors.amount), errors.amount),
                MergeKey(old(approve.form.validationErrors.spenderAddress), errors.spenderAddress))
    {
      var current := approve.form.validationErrors;
      var merged := current.(amount := MergeKey(current.amount, errors.amount),
                             spenderAddress := MergeKey(current.spenderAddress, errors.spenderAddress));
      approve := approve.(form := approve.form.(validationErrors := merged));
    }

    method SetApproveTransactionState(state: TransactionState)
      requires Valid()
      modifies this`approve
      ensures Valid()
      ensures approve == old(approve).(transactionState := state)
    {
      approve := approve.(transactionState := state);
    }

    /** Approves `spender`; a failed write is reported with the token's
        failure message. The approve slice is not touched. */
    method ApproveToken(token: Token, spender: string, amount: string, write: ContractWrite)
      returns (hash: Option<string>, issued: WriteCall)
      requires Valid()
      modifies this`error, this`isErrorModalOpen
      ensures Valid()
      ensures issued == WriteCall(token, ApproveFn, spender, amount)
      ensures hash == write(issued).ToOption()
      ensures write(issued).Ok? ==> error == old(error) && isErrorModalOpen == old(isErrorModalOpen)
      ensures write(issued).Err? ==> error == Some(ApproveFailure(token))
    {
      issued := WriteCall(token, ApproveFn, spender, amount);
      var result := write(issued);
      if result.Ok? {
        return Some(result.value), issued;
      }
      var message := "Failed to approve " + Symbol(token) + ". Please try again.";
      var userRejected := false;
      if result.error.ErrorInstance? {
        userRejected := Contains(message, RejectedWord);
      }
      RejectionNeverDetected(token);
      var finalMessage := if userRejected then ApproveRejected else message;
      SetError(finalMessage);
      hash := None;
    }
  }
}
