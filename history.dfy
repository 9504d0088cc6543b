/** features/wallet-connection/slices/historySlice.ts, the part that turns
    on-chain logs into the wallet's transaction history. For each token, in
    the order DAI then USDC, the Transfer logs of the last 10,000 blocks and
    the Approval logs of the last 99 blocks are fetched; logs that lack a field
    or do not involve the wallet are skipped, the rest become events. A
    Transfer from the zero address is a mint (the convention of the Events
    section of EIP-20). */
module History {
  import opened Wrappers
  import opened JsRuntime
  import opened WalletTypes

  const ZeroAddress: string := "0x0000000000000000000000000000000000000000"

  /** How many blocks back each kind of log is fetched. */
  const TransferWindow: int := 10000
  const ApprovalWindow: int := 99

  const HistoryErrorPrefix: string := "Failed to fetch transaction history. "
  const BlockNumberFailure: string := "Failed to get current block number."

  datatype LogKind = TransferLog | ApprovalLog

  /** One decoded log as the chain client returns it. `sender` is a Transfer's
      `from` or an Approval's `owner`, `receiver` a Transfer's `to` or an
      Approval's `spender`; a field is `None` when the log does not carry it. */
  datatype RawLog = RawLog(
    sender: Option<string>,
    receiver: Option<string>,
    value: Option<nat>,
    transactionHash: Option<string>)

  /** The log query of the chain client: logs of one kind emitted by a token's
      contract from the given block on, or the value it throws. */
  type LogQuery = (Token, LogKind, int) -> Result<seq<RawLog>, Thrown>

  /** A log is usable when its value is non-zero and its parties and hash are
      non-empty (the source tests each for truthiness). */
  predicate HasRequiredFields(log: RawLog) {
    && log.value.Some? && log.value.value != 0
    && Truthy(log.sender) && Truthy(log.receiver) && Truthy(log.transactionHash)
  }

  /** One of the two addresses is the wallet's, ignoring ASCII letter case. */
  predicate Involves(a: string, b: string, wallet: string) {
    ToLower(a) == ToLower(wallet) || ToLower(b) == ToLower(wallet)
  }

  /** What a kept log of the given kind becomes: Approval logs are approvals;
      Transfer logs are mints exactly when sent from the zero address. */
  predicate KindFits(e: TokenEvent, kind: LogKind) {
    match kind
    case ApprovalLog => e.kind == Approve
    case TransferLog => e.kind != Approve && (e.kind == Mint <==> e.from == ZeroAddress)
  }

  /** The shape every reconstructed event has. */
  predicate IsHistoryEvent(e: TokenEvent, token: Token, kind: LogKind, wallet: string) {
    && e.status == Success
    && e.token == token
    && e.id == e.transactionHash
    && e.amount > 0.0
    && Involves(e.from, e.to, wallet)
    && KindFits(e, kind)
  }

  /** The event a single log yields, if any. */
  function Classify(token: Token, kind: LogKind, log: RawLog, wallet: string): (r: Option<TokenEvent>)
    ensures r.Some? <==> HasRequiredFields(log) && Involves(log.sender.value, log.receiver.value, wallet)
    ensures r.Some? ==> IsHistoryEvent(r.value, token, kind, wallet)
    ensures r.Some? ==> && r.value.from == log.sender.value && r.value.to == log.receiver.value
                        && r.value.transactionHash == log.transactionHash.value
                        && r.value.amount == FormatUnits(log.value.value, Decimals(token))
  {
    if !HasRequiredFields(log) then None
    else if !Involves(log.sender.value, log.receiver.value, wallet) then None
    else
      var kindOf := match kind
        case ApprovalLog => Approve
        case TransferLog => if log.sender.value == ZeroAddress then Mint else Transfer;
      var amount := FormatUnits(log.value.value, Decimals(token));
      assert amount > 0.0;
      Some(TokenEvent(amount, log.sender.value, log.transactionHash.value, log.receiver.value,
                      Success, token, log.transactionHash.value, kindOf))
  }

  /** The events a list of logs yields, in log order. */
  function KeptEvents(token: Token, kind: LogKind, logs: seq<RawLog>, wallet: string): (r: seq<TokenEvent>)
    ensures |r| <= |logs|
    ensures forall e :: e in r ==> IsHistoryEvent(e, token, kind, wallet)
  {
    if logs == [] then []
    else
      var last := Classify(token, kind, logs[|logs| - 1], wallet);
      KeptEvents(token, kind, logs[..|logs| - 1], wallet) + (if last.Some? then [last.value] else [])
  }

  /** An event is kept exactly when some log classifies to it. */
  lemma {:induction false} KeptEventsMembership(token: Token, kind: LogKind, logs: seq<RawLog>, wallet: string, e: TokenEvent)
    ensures e in KeptEvents(token, kind, logs, wallet) <==>
            exists i :: 0 <= i < |logs| && Classify(token, kind, logs[i], wallet) == Some(e)
  {
    if logs != [] {
      var init := logs[..|logs| - 1];
      KeptEventsMembership(token, kind, init, wallet, e);
      if e in KeptEvents(token, kind, logs, wallet) {
        if e in KeptEvents(token, kind, init, wallet) {
          var i :| 0 <= i < |init| && Classify(token, kind, init[i], wallet) == Some(e);
          assert logs[i] == init[i];
        }
      } else {
        forall i | 0 <= i < |logs| ensures Classify(token, kind, logs[i], wallet) != Some(e) {
          if i < |init| { assert logs[i] == init[i]; }
        }
      }
    }
  }

  /** Scanning two runs of logs one after the other yields the events of the
      first run followed by those of the second: log order is kept, nothing is
      sorted. */
  lemma {:induction false} KeptEventsAppend(token: Token, kind: LogKind, a: seq<RawLog>, b: seq<RawLog>, wallet: string)
    ensures KeptEvents(token, kind, a + b, wallet) == KeptEvents(token, kind, a, wallet) + KeptEvents(token, kind, b, wallet)
  {
    if b == [] {
      assert a + b == a;
    } else {
      var init := b[..|b| - 1];
      KeptEventsAppend(token, kind, a, init, wallet);
      assert (a + b)[..|a + b| - 1] == a + init;
    }
  }

  /** Logs in which the wallet takes no part yield no events. */
  lemma {:induction false} UninvolvedLogsDropped(token: Token, kind: LogKind, logs: seq<RawLog>, wallet: string)
    requires forall i :: 0 <= i < |logs| && HasRequiredFields(logs[i]) ==>
               !Involves(logs[i].sender.value, logs[i].receiver.value, wallet)
    ensures KeptEvents(token, kind, logs, wallet) == []
  {
    if logs != [] {
      UninvolvedLogsDropped(token, kind, logs[..|logs| - 1], wallet);
    }
  }

  /** Runs the source's log loop: skips incomplete logs and logs without the
      wallet, and appends one event per remaining log. */
  method AppendKeptEvents(events: seq<TokenEvent>, token: Token, kind: LogKind, logs: seq<RawLog>, wallet: string)
    returns (result: seq<TokenEvent>)
    ensures result == events + KeptEvents(token, kind, logs, wallet)
  {
    result := events;
    for i := 0 to |logs|
      invariant result == events + KeptEvents(token, kind, logs[..i], wallet)
    {
      assert logs[..i + 1][..i] == logs[..i];
      var log := logs[i];
      if !Truthy(log.sender) || !Truthy(log.receiver) || log.value.None? || log.value.value == 0 || !Truthy(log.transactionHash) {
        continue;
      }
      if ToLower(log.sender.value) != ToLower(wallet) && ToLower(log.receiver.value) != ToLower(wallet) {
        continue;
      }
      var eventType := if kind == ApprovalLog then Approve
                       else if log.sender.value == ZeroAddress then Mint
                       else Transfer;
      result := result + [TokenEvent(FormatUnits(log.value.value, Decimals(token)), log.sender.value,
                                     log.transactionHash.value, log.receiver.value, Success, token,
                                     log.transactionHash.value, eventType)];
    }
    assert logs[..|logs|] == logs;
  }

  /** The history the scan of `tokens` yields, or the first value thrown by a
      log query. */
  function ScanTokens(tokens: seq<Token>, block: int, getLogs: LogQuery, wallet: string): Result<seq<TokenEvent>, Thrown>
    decreases |tokens|
  {
    if tokens == [] then Ok([])
    else
      var t := tokens[0];
      match getLogs(t, TransferLog, block - TransferWindow)
      case Err(e) => Err(e)
      case Ok(transfers) =>
        match getLogs(t, ApprovalLog, block - ApprovalWindow)
        case Err(e) => Err(e)
        case Ok(approvals) =>
          match ScanTokens(tokens[1..], block, getLogs, wallet)
          case Err(e) => Err(e)
          case Ok(rest) =>
            Ok(KeptEvents(t, TransferLog, transfers, wallet) + KeptEvents(t, ApprovalLog, approvals, wallet) + rest)
  }

  /** The outcome of the whole reconstruction; a failed block-number read is
      replaced by an Error with a fixed message. */
  function HistoryOutcome(blockNumber: Result<int, Thrown>, getLogs: LogQuery, wallet: string): Result<seq<TokenEvent>, Thrown> {
    match blockNumber
    case Err(_) => Err(ErrorInstance(BlockNumberFailure))
    case Ok(b) => ScanTokens(Tokens, b, getLogs, wallet)
  }

  function PrependEvents(events: seq<TokenEvent>, r: Result<seq<TokenEvent>, Thrown>): Result<seq<TokenEvent>, Thrown> {
    match r
    case Ok(rest) => Ok(events + rest)
    case Err(e) => Err(e)
  }

  /** One step of the scan: the head token's events come first. */
  lemma ScanStep(tokens: seq<Token>, block: int, getLogs: LogQuery, wallet: string, events: seq<TokenEvent>)
    requires tokens != []
    ensures var t := tokens[0];
      var transfers := getLogs(t, TransferLog, block - TransferWindow);
      var approvals := getLogs(t, ApprovalLog, block - ApprovalWindow);
      && (transfers.Err? ==> PrependEvents(events, ScanTokens(tokens, block, getLogs, wallet)) == Err(transfers.error))
      && (transfers.Ok? && approvals.Err? ==> PrependEvents(events, ScanTokens(tokens, block, getLogs, wallet)) == Err(approvals.error))
      && (transfers.Ok? && approvals.Ok? ==>
            PrependEvents(events, ScanTokens(tokens, block, getLogs, wallet)) ==
            PrependEvents(events + KeptEvents(t, TransferLog, transfers.value, wallet) + KeptEvents(t, ApprovalLog, approvals.value, wallet),
                          ScanTokens(tokens[1..], block, getLogs, wallet)))
  {
    var t := tokens[0];
    var transfers := getLogs(t, TransferLog, block - TransferWindow);
    var approvals := getLogs(t, ApprovalLog, block - ApprovalWindow);
    var later := ScanTokens(tokens[1..], block, getLogs, wallet);
    if transfers.Ok? && approvals.Ok? && later.Ok? {
      var kt := KeptEvents(t, TransferLog, transfers.value, wallet);
      var ka := KeptEvents(t, ApprovalLog, approvals.value, wallet);
      assert events + (kt + ka + later.value) == events + kt + ka + later.value;
    }
  }

  /** Reconstructs the history: reads the block number, then for each token
      fetches its Transfer and Approval logs and appends the kept events.
      Any thrown value aborts the whole scan. */
  method ReconstructHistory(blockNumber: Result<int, Thrown>, getLogs: LogQuery, wallet: string)
    returns (r: Result<seq<TokenEvent>, Thrown>)
    ensures r == HistoryOutcome(blockNumber, getLogs, wallet)
  {
    if blockNumber.Err? {
      return Err(ErrorInstance(BlockNumberFailure));
    }
    var fromBlock := blockNumber.value;
    ghost var all := ScanTokens(Tokens, fromBlock, getLogs, wallet);
    var events: seq<TokenEvent> := [];
    assert Tokens[0..] == Tokens;
    assert all.Ok? ==> [] + all.value == all.value;
    var i := 0;
    while i < |Tokens|
      invariant 0 <= i <= |Tokens|
      invariant PrependEvents(events, ScanTokens(Tokens[i..], fromBlock, getLogs, wallet)) == all
    {
      var token := Tokens[i];
      ScanStep(Tokens[i..], fromBlock, getLogs, wallet, events);
      assert Tokens[i..][1..] == Tokens[i + 1..];
      var transferLogs := getLogs(token, TransferLog, fromBlock - TransferWindow);
      if transferLogs.Err? {
        return Err(transferLogs.error);
      }
      var approvalLogs := getLogs(token, ApprovalLog, fromBlock - ApprovalWindow);
      if approvalLogs.Err? {
        return Err(approvalLogs.error);
      }
      events := AppendKeptEvents(events, token, TransferLog, transferLogs.value, wallet);
      events := AppendKeptEvents(events, token, ApprovalLog, approvalLogs.value, wallet);
      i := i + 1;
    }
    assert Tokens[i..] == [];
    assert events + [] == events;
    r := Ok(events);
  }

  /** With every query answered, the history is DAI's transfers, DAI's
      approvals, USDC's transfers, USDC's approvals, each in log order. */
  lemma HistoryOrder(block: int, getLogs: LogQuery, wallet: string)
    requires getLogs(DAI, TransferLog, block - TransferWindow).Ok?
    requires getLogs(DAI, ApprovalLog, block - ApprovalWindow).Ok?
    requires getLogs(USDC, TransferLog, block - TransferWindow).Ok?
    requires getLogs(USDC, ApprovalLog, block - ApprovalWindow).Ok?
    ensures HistoryOutcome(Ok(block), getLogs, wallet) == Ok(
      KeptEvents(DAI, TransferLog, getLogs(DAI, TransferLog, block - TransferWindow).value, wallet)
      + KeptEvents(DAI, ApprovalLog, getLogs(DAI, ApprovalLog, block - ApprovalWindow).value, wallet)
      + KeptEvents(USDC, TransferLog, getLogs(USDC, TransferLog, block - TransferWindow).value, wallet)
      + KeptEvents(USDC, ApprovalLog, getLogs(USDC, ApprovalLog, block - ApprovalWindow).value, wallet))
  {
    var kdt := KeptEvents(DAI, TransferLog, getLogs(DAI, TransferLog, block - TransferWindow).value, wallet);
    var kda := KeptEvents(DAI, ApprovalLog, getLogs(DAI, ApprovalLog, block - ApprovalWindow).value, wallet);
    var kut := KeptEvents(USDC, TransferLog, getLogs(USDC, TransferLog, block - TransferWindow).value, wallet);
    var kua := KeptEvents(USDC, ApprovalLog, getLogs(USDC, ApprovalLog, block - ApprovalWindow).value, wallet);
    assert Tokens[1..][1..] == [];
    assert ScanTokens(Tokens[1..][1..], block, getLogs, wallet) == Ok([]);
    assert ScanTokens(Tokens[1..], block, getLogs, wallet) == Ok(kut + kua + []);
    assert ScanTokens(Tokens, block, getLogs, wallet) == Ok(kdt + kda + (kut + kua + []));
    assert kdt + kda + (kut + kua + []) == kdt + kda + kut + kua;
  }

  /** The scan is all-or-nothing: it yields a history exactly when the block
      number and all four log queries succeed. */
  lemma HistoryAllOrNothing(blockNumber: Result<int, Thrown>, getLogs: LogQuery, wallet: string)
    ensures HistoryOutcome(blockNumber, getLogs, wallet).Ok? <==>
      && blockNumber.Ok?
      && getLogs(DAI, TransferLog, blockNumber.value - TransferWindow).Ok?
      && getLogs(DAI, ApprovalLog, blockNumber.value - ApprovalWindow).Ok?
      && getLogs(USDC, TransferLog, blockNumber.value - TransferWindow).Ok?
      && getLogs(USDC, ApprovalLog, blockNumber.value - ApprovalWindow).Ok?
  {
    assert Tokens[1..][1..] == [];
  }

  /** The message stored when the reconstruction fails. */
  function HistoryErrorMessage(error: Thrown): (r: string)
    ensures StartsWith(r, HistoryErrorPrefix)
    ensures error.ErrorInstance? ==> r[|HistoryErrorPrefix|..] == error.message
    ensures !error.ErrorInstance? ==> r == HistoryErrorPrefix + "Please try again."
  {
    HistoryErrorPrefix + (if error.ErrorInstance? then error.message else "Please try again.")
  }
}
