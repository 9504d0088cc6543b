# Wallet-connection store, modelled in Dafny

This project models the client-side state store of a small web app. The app
connects a browser wallet to two test tokens (DAI and USDC) on the Sepolia
network. The store is one object composed of slices:

- **history** rebuilds the wallet's transfers, mints and approvals from
  on-chain logs, and keeps an optimistic overlay of in-flight events;
- **balance** reads both token balances and projects the effect of a pending
  transaction on the selected token;
- **mint**, **transfer** and **approve** each hold a form, its validation
  errors and a transaction state, and submit one contract write;
- **error** holds the single global error message and the modal flag;
- **network** holds the expected network and a wrong-network flag.

Next to the store the project models the helpers in `lib/utils.ts`: the
error-message picker, the address shortener and the amount sanitiser. It
also models the landing page's primary call-to-action chooser.

Layout:

- `wrappers.dfy` has `Option` and `Result`.
- `js_runtime.dfy` has the JavaScript built-ins the code relies on
  (`substring`, `indexOf`, `includes`, `toLowerCase`, truthiness) and the
  `Thrown` datatype for caught values.
- `utils.dfy` models `lib/utils.ts`.
- `primary_cta.dfy` models the call-to-action chooser.
- `wallet_types.dfy` has the token table and the shared records.
- `history.dfy` has the log classification and the history reconstruction.
- `balances.dfy` has the value-level parts of the balance slice.
- `transaction_slices.dfy` has the records, patch merging and failure
  messages of the write slices.
- `store.dfy` has the class `AppStore`. Its fields are the store's state.
  Each action is a method whose `modifies` clause names the fields the
  action's `set(...)` may write, and no others; where the code writes only one
  of the fields named (`ResetOptimisticBalance`, `SetOptimisticBalance`), the
  `ensures` state that the other keeps its value. Every action keeps the invariant `Valid()`: the
  modal is open exactly when an error is stored, the network and the
  allowance are constant, and each balance entry keeps its token's symbol.

Calls to the chain client are parameters of the actions that make them:

- a balance read `(Token, owner) -> Result<nat, Thrown>`;
- the block-number result;
- a log query `(Token, kind, fromBlock) -> Result<logs, Thrown>`;
- a contract write `WriteCall -> Result<hash, Thrown>`. The `WriteCall` value
  records the token, the function name, the target address and the amount
  text, so the contracts can say which call was issued.

Where the code and its own comments disagree, the model follows the code. The
comments meant are those at `lib/utils.ts` lines 42, 60 and 71-73, which promise
a single decimal point and the removal of extra leading zeros, and the
`userRejected` branches of the three write slices, which promise a special
message for a rejected transaction:

- The returned amount of `formatValueOnInputChange` does not enforce a single
  decimal point. The pass that keeps only the first dot is computed and then
  overwritten. The second pass's callback only fires for characters outside
  `[0-9.]`, so it never sees a dot. Hence "1.2.3" stays "1.2.3"
  (`Utils.MultipleDotsKept`).
- Only one leading zero is removed per call: "000.5001" becomes "00.5001",
  not "0.5001" (`Utils.OnlyOneLeadingZeroDroppedBeforeFraction`).
- The "transaction was rejected" wording is never chosen. The code searches
  its own failure template for "rejected" rather than the caught error's
  text, and no template contains the word
  (`TransactionSlices.RejectionNeverDetected`).

## Model

| member | source | states |
|---|---|---|
| Utils.GetErrorMessage | lib/utils.ts:8-22 | a non-empty string carried by the error (a thrown string, an Error's message, an object's string `message`) is returned; otherwise the fallback |
| Utils.GetErrorMessageCases | lib/utils.test.ts:13-36 | the documented cases: string, Error, object with message, empty string, null, non-string message |
| Utils.MiddleEllipsis | lib/utils.ts:24-31 | empty in iff empty out; otherwise "0x" prefix and bounded length; for `len+2 <= |str|` the result is "0x", the `len` characters after the prefix, "..." and the last `len` characters |
| Utils.FirstPass | lib/utils.ts:33-65 | the discarded first pass never lengthens its input, leaves at most one dot, and holds only digits and dots |
| Utils.KeepFirstDot | lib/utils.ts:42-49 | keeping the text up to the first dot and stripping later dots leaves exactly one dot, does not lengthen, and keeps "digits and dots only" |
| Utils.PrefixAndSuffixKeep | lib/utils.ts:51-65 | trimming the fraction (a prefix) and dropping a leading character (a suffix) keep "at most one dot" and "digits and dots only" |
| Utils.FormatValueOnInputChange | lib/utils.ts:33-94 | the result is the sanitised amount (filter, trim fraction, drop one leading zero) and the first pass is discarded; the result holds only digits and dots, is a subsequence of the input, and has at most `decimals` characters after its first dot |
| Utils.ReplaceOutsideAmountChars | lib/utils.ts:70-75 | the loop over the text with the dot-keeping callback computes exactly the digits-and-dots filter: the callback never keeps anything |
| Utils.WithoutDots | lib/utils.ts:48 | removing dots never lengthens, leaves no dot, and keeps "digits and dots only" |
| Utils.WithoutDotsCounts | lib/utils.ts:48 | per character: no dot survives and every other character keeps its number of occurrences |
| Utils.WithoutDotsKeepsOrder | lib/utils.ts:48 | the result sits in the input at increasing positions, so the kept characters stay in order |
| Utils.KeepDigitsAndDots | lib/utils.ts:72-75 | the character filter never lengthens and leaves only digits and dots |
| Utils.FilterEmbedded | lib/utils.ts:72-75 | the filter's output sits in the input at increasing positions |
| Utils.FilterCounts | lib/utils.ts:72-75 | per character: every digit and every dot of the input survives, everything else is removed (the "first dot only" callback never applies) |
| Utils.FilterKeepsAmountChars | lib/utils.ts:72-75 | a string of digits and dots passes the filter unchanged |
| Utils.FilterShortensOtherwise | lib/utils.ts:72-75 | if the filter removes nothing, the input was digits and dots only |
| Utils.FormattedIsPieceOfFiltered | lib/utils.ts:77-89 | the sanitised amount is a contiguous slice of the filtered input |
| Utils.FormattedAmountOnly | lib/utils.ts:70-89 | the sanitised amount holds only digits and dots |
| Utils.FormattedAmountIsSubsequence | lib/utils.ts:70-89 | the sanitised amount is obtained by deleting characters of the input, so it is never longer |
| Utils.FormattedFractionWithinLimit | lib/utils.ts:77-89 | after the first dot at most `decimals` characters remain, also after the leading zero is dropped |
| Utils.SettledAmountsAreFixedPoints | lib/utils.ts:70-89 | an amount comes back unchanged iff it has only digits and dots, a fraction within the limit, and no removable leading zero |
| Utils.MultipleDotsKept | lib/utils.ts:72-75 | "1.2.3" is returned unchanged: extra dots are not removed |
| Utils.LeadingZeroDropped | lib/utils.ts:86-89 | "05" becomes "5" |
| Utils.ZeroBeforeDotKept | lib/utils.ts:86-89 | "0.5" is kept as it is |
| Utils.OnlyOneLeadingZeroDropped | lib/utils.ts:86-89 | "005" becomes "05" |
| Utils.OnlyOneLeadingZeroDroppedBeforeFraction | lib/utils.ts:86-89 | "000.5001" becomes "00.5001" |
| Utils.FractionTrimmed | lib/utils.ts:77-84 | "1.2345678" is cut to "1.234567" at 6 decimals |
| Utils.ForeignCharactersRemoved | lib/utils.ts:72-75 | "1a,5" becomes "15" |
| Utils.FormattedAmountNotIdempotent | lib/utils.ts:86-89 | sanitising twice can differ from sanitising once |
| JsRuntime.Substring | lib/utils.ts:30 | JavaScript `substring`: in-range indices give the slice, reversed in-range indices give the same slice, a start at or below 0 with an end at or beyond the length selects the whole text, and two indices both at or beyond the length, or both at or below 0, select nothing |
| Utils.MiddleEllipsisClampsLongLength | lib/utils.ts:30 | with a length beyond the text, "0x12" shortened to 4 becomes "0x12...0x12" |
| Utils.MiddleEllipsisSwapsNegativeLength | lib/utils.ts:30 | with a negative length, "0xabcdef" shortened to -1 becomes "0xx..." |
| JsRuntime.IndexOf | lib/utils.ts:43 | `indexOf` returns -1 iff the character is absent, otherwise its first position |
| JsRuntime.ContainsNeedsEveryChar | features/wallet-connection/slices/mintSlice.ts:97 | `includes` can only succeed when every character of the needle occurs in the text |
| JsRuntime.StartsWith | lib/utils.ts:61 | `startsWith` holds iff the prefix is no longer than the text and agrees with it position by position |
| JsRuntime.ContainsIffOccurs | features/wallet-connection/slices/mintSlice.ts:97 | `includes` holds iff the needle occurs as a contiguous piece at some position of the text |
| JsRuntime.ToLower | features/wallet-connection/slices/historySlice.ts:130-131 | lower-casing keeps the length and maps each ASCII letter to lower case |
| PrimaryCta.GetPrimaryCta | features/marketing/utils/get-primary-cta.ts:3-15 | authenticated iff the dashboard link, unauthenticated iff the sign-up link, with their labels |
| PrimaryCta.CtaOutcomesDistinct | features/marketing/utils/get-primary-cta.ts:3-15 | the href alone, and the label alone, determine which case applied |
| History.Classify | features/wallet-connection/slices/historySlice.ts:123-173 | a log yields an event iff value, both addresses and hash are present and truthy and the wallet is one of the two parties (case-insensitive); the event copies the log's fields, is a Success, and is a Mint exactly for a transfer from the zero address |
| History.KeptEvents | features/wallet-connection/slices/historySlice.ts:123-173 | at most one event per log, and every event is a valid history event for the wallet |
| History.KeptEventsMembership | features/wallet-connection/slices/historySlice.ts:123-147 | an event is in the history iff some log classifies to it |
| History.KeptEventsAppend | features/wallet-connection/slices/historySlice.ts:123-147 | scanning two runs of logs gives the first run's events followed by the second's: log order is kept |
| History.UninvolvedLogsDropped | features/wallet-connection/slices/historySlice.ts:128-134 | logs in which the wallet takes no part yield no events |
| History.AppendKeptEvents | features/wallet-connection/slices/historySlice.ts:123-173 | the loop with its two `continue` guards appends exactly the kept events to the list |
| History.ScanStep | features/wallet-connection/slices/historySlice.ts:87-174 | one token's step: a failing query aborts with its error, otherwise its transfers and approvals come first |
| History.ReconstructHistory | features/wallet-connection/slices/historySlice.ts:76-175 | the method's result is the specified outcome: a fixed Error when the block number fails, the first thrown query error, or the full history |
| History.HistoryOrder | features/wallet-connection/slices/historySlice.ts:87-175 | with all queries answered: DAI transfers, DAI approvals, USDC transfers, USDC approvals, each in log order |
| History.HistoryAllOrNothing | features/wallet-connection/slices/historySlice.ts:78-120 | a history is produced iff the block number and all four log queries succeed |
| History.HistoryErrorMessage | features/wallet-connection/slices/historySlice.ts:191-193 | the stored message is the fixed prefix followed by the Error's message, or by "Please try again." for any other thrown value |
| Balances.FetchedBalance | features/wallet-connection/slices/balanceSlice.ts:102-120 | after a successful read, confirmed and optimistic balance are both the formatted amount, not loading, no error, the token's symbol |
| Balances.BalanceErrorMessage | features/wallet-connection/slices/balanceSlice.ts:123-134 | the fixed "unknown" text iff the error carries no string; otherwise the prefix followed by a carried string; `shortMessage` wins over `message` |
| Balances.OptimisticAfter | features/wallet-connection/slices/balanceSlice.ts:173-229 | a mint adds the amount to the confirmed balance (missing counts as 0), a transfer subtracts it, an approval copies the confirmed balance |
| TransactionSlices.RejectionNeverDetected | features/wallet-connection/slices/mintSlice.ts:93-100 | none of the mint, transfer and approve failure templates contains "rejected", so the rejection wording is unreachable |
| Store.AppStore.constructor | store/index.ts:15-27 | the composed initial state of every modelled slice, which satisfies the invariant |
| Store.AppStore.SetError | features/wallet-connection/slices/errorSlice.ts:21 | stores the message and opens the modal |
| Store.AppStore.ClearError | features/wallet-connection/slices/errorSlice.ts:22 | clears the message and closes the modal |
| Store.AppStore.SetIsWrongNetwork | features/wallet-connection/slices/networkSlice.ts:15 | sets the flag, nothing else changes |
| Store.AppStore.BeginBalanceFetch | features/wallet-connection/slices/balanceSlice.ts:80-83 | both entries loading with no error, amounts kept |
| Store.AppStore.FetchTokenBalances | features/wallet-connection/slices/balanceSlice.ts:59-141 | no wallet: both entries cleared; both reads succeed: both entries fetched; otherwise the first thrown value's message is reported, entries keep their amounts, stop loading and carry "Failed" |
| Store.AppStore.ResetOptimisticBalance | features/wallet-connection/slices/balanceSlice.ts:142-152 | only the selected token's optimistic balance is set to its confirmed balance; a second call changes nothing |
| Store.AppStore.ResetTransactionState | features/wallet-connection/slices/balanceSlice.ts:153-162 | the transaction state is idle |
| Store.AppStore.SetIsDaiPending | features/wallet-connection/slices/balanceSlice.ts:163-167 | only DAI's loading flag changes |
| Store.AppStore.SetIsUsdcPending | features/wallet-connection/slices/balanceSlice.ts:168-172 | only USDC's loading flag changes |
| Store.AppStore.SetOptimisticBalance | features/wallet-connection/slices/balanceSlice.ts:173-229 | the selected token's optimistic balance becomes the projection of the pending transaction; the other token and confirmed balances are unchanged |
| Store.AppStore.SetSelectedToken | features/wallet-connection/slices/balanceSlice.ts:230-235 | the selected token is the given one |
| Store.AppStore.BeginEventsFetch | features/wallet-connection/slices/historySlice.ts:68-73 | loading as requested, no error, retrying |
| Store.AppStore.FetchEvents | features/wallet-connection/slices/historySlice.ts:55-198 | no wallet: all event state cleared; success: the reconstructed history is both the confirmed and the optimistic list; failure: both lists dropped and the prefixed error stored; never loading or retrying afterwards |
| Store.AppStore.ResetOptimisticEvents | features/wallet-connection/slices/historySlice.ts:199-201 | the optimistic list equals the confirmed list |
| Store.AppStore.SetOptimisticEvents | features/wallet-connection/slices/historySlice.ts:202-206 | the event is appended to the optimistic list, or starts a new one |
| Store.AppStore.SetMintAmount | features/wallet-connection/slices/mintSlice.ts:47-55 | the stored amount is the sanitised input for the selected token's decimals, a subsequence of what was typed; the rest of the mint slice is kept |
| Store.AppStore.SetMintFormValidationErrors | features/wallet-connection/slices/mintSlice.ts:56-64 | given keys overwrite, missing keys keep their value, the rest of the slice is kept |
| Store.AppStore.SetMintTransactionState | features/wallet-connection/slices/mintSlice.ts:65-67 | only the mint transaction state changes |
| Store.AppStore.MintToken | features/wallet-connection/slices/mintSlice.ts:68-104 | no wallet address: error stored, no write issued; otherwise a mint of the amount to the wallet's own address is issued, its hash returned on success, the token's failure message stored on failure |
| Store.AppStore.SetTransferFormValidationErrors | features/wallet-connection/slices/transferSlice.ts:50-58 | given keys overwrite, missing keys keep their value, form values untouched |
| Store.AppStore.SetTransferFormValues | features/wallet-connection/slices/transferSlice.ts:59-64 | given values overwrite, missing values kept, validation errors untouched |
| Store.AppStore.SetTransferTransactionState | features/wallet-connection/slices/transferSlice.ts:65-67 | only the transfer transaction state changes |
| Store.AppStore.TransferToken | features/wallet-connection/slices/transferSlice.ts:68-94 | a transfer of the amount to the recipient is issued; hash on success, the token's failure message on failure |
| Store.AppStore.SetApproveFormValues | features/wallet-connection/slices/approveSlice.ts:52-57 | given values overwrite, missing values kept, errors and allowance untouched |
| Store.AppStore.SetApproveFormValidationErrors | features/wallet-connection/slices/approveSlice.ts:58-66 | given keys overwrite, missing keys keep their value, form values untouched |
| Store.AppStore.SetApproveTransactionState | features/wallet-connection/slices/approveSlice.ts:67-69 | only the approve transaction state changes |
| Store.AppStore.ApproveToken | features/wallet-connection/slices/approveSlice.ts:70-97 | an approval of the amount for the spender is issued; hash on success, the token's failure message on failure |

## Left out

- `cn` in `lib/utils.ts` is left out. It only joins CSS class names through two styling libraries.
- The profile slice is not part of this model. Its `fetchProfile` is the only writer of `details`, so `MintToken` reads whatever address `details` holds.
- The feature01 slice is not part of this model. It is composed into the same store but belongs to another feature.
- `lib/contractsAbi` is not part of this model. The balance and write slices take their token table from it, so the model uses the table declared in `historySlice.ts` (symbols and decimals).
- Asynchrony is not modelled. Each action runs to completion in one step, so interleavings of concurrent fetches (last response wins) are not represented.
- Console logging is omitted.
- `getBlockNumber`, `getLogs`, `readContract` and `writeContract` are parameters. The amount text's parsing (`parseUnits`, which can throw) is folded into the write parameter.
- `formatUnits` is not a parameter but the fixed function `WalletTypes.FormatUnits`: the exact quotient of the raw amount by 10 to the power of the decimals, as a `real`. The decimal text that viem returns is not modelled.
- Contract addresses are not modelled. Reads, log queries and writes name the token, and each token has one fixed contract.
- JsRuntime.Substring: counts Unicode scalar values, while JavaScript's `length` and `substring` count UTF-16 code units. `MiddleEllipsis` would differ on text outside the Basic Multilingual Plane; wallet addresses are ASCII.
- Balances and amounts are exact `real` numbers. Floating-point rounding, `NaN` from a non-numeric amount text, and the `toString()` text of the optimistic balance are not modelled.
- Store.AppStore.SetOptimisticBalance: takes the amount as a number rather than the text the code passes to `Number(...)`.
- Utils.FormatValueOnInputChange: `decimals` is a `nat`, so a negative or fractional decimal count is not modelled. The store only passes 18 or 6.
- Utils.MiddleEllipsis: `len` is an integer. JavaScript's `number` may be fractional or NaN, which `substring` truncates to an integer (NaN to 0); those inputs are not modelled.
- JsRuntime.ToLower: lower-cases ASCII letters only. Addresses are hexadecimal, so full Unicode case mapping is not needed.
- Patches that pass a key explicitly set to `undefined` are treated like a missing key. In the code the spread would store `undefined`.
- The form-level validation schemas and the UI components that call these actions are not part of this model.
