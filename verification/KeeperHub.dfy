/**
  core/keeperhub: the execution of one approved trade. Quotes, transfer replies, status polls and logs
  come from outside; they are given as the arbitrary replies of `Replies`.
 */
module KeeperHub {
  import opened Prelude
  import Models

  // ---- core/keeperhub/models.py ----

  datatype KhStatus = Pending | Running | Success | Completed | Failed | Errored | Cancelled

  /** A `KHExecutionStatus_` */
  datatype StatusReply = StatusReply(
    status: KhStatus,
    txHash: Option<string>,
    blockNumber: Option<int>,
    gasUsed: Option<int>,
    error: Option<string>,
    explorerUrl: Option<string>)

  predicate Succeeded(status: KhStatus)
  {
    status == Success || status == Completed
  }

  predicate IsTerminal(status: KhStatus)
  {
    status == Success || status == Completed || status == Failed || status == Errored || status == Cancelled
  }

  /** `KHAuditEntry.succeeded`, which does not count COMPLETED. */
  predicate AuditSucceeded(status: KhStatus)
  {
    status == Success
  }

  predicate Truthy(s: Option<string>)
  {
    s.Some? && s.value != ""
  }

  // ---- core/keeperhub/client.py: the two backends ----

  /** The parts of a live status body the client looks at. */
  datatype LiveBody = LiveBody(status: Option<string>, transactionHash: Option<string>, error: Option<string>,
      transactionLink: Option<string>)

  function MapRawStatus(raw: string): KhStatus
  {
    if raw == "completed" then Success
    else if raw == "error" then Failed
    else if raw == "pending" then Pending
    else if raw == "running" then Running
    else Pending
  }

  /** The live `get_execution_status`, given the body of the reply. */
  function LiveStatus(body: LiveBody): StatusReply
  {
    StatusReply(MapRawStatus(if body.status.Some? then body.status.value else "pending"),
                body.transactionHash, None, None, body.error, body.transactionLink)
  }

  const MOCK_HASH: string := "0xabababababababababababababababababababababababababababababababab"

  function MockStatus(failed: bool): StatusReply
  {
    if failed then StatusReply(Failed, None, None, None, Some("Mock failure"), None)
    else StatusReply(Success, Some(MOCK_HASH), Some(12345678), Some(150000), None,
        Some("https://basescan.org/tx/" + MOCK_HASH))
  }

  class MockBackend {
    var transferCalls: nat
    var executions: map<string, StatusReply>
    var failNext: bool

    constructor ()
      ensures Valid() && transferCalls == 0 && executions == map[] && !failNext
    {
      transferCalls, executions, failNext := 0, map[], false;
    }

    ghost predicate Valid()
      reads this
    {
      forall id | id in executions :: ShippedReply(executions[id])
    }

    /** `execute_transfer` with the id `uuid4` supplies. */
    method ExecuteTransfer(freshId: string) returns (executionId: string)
      requires Valid()
      modifies this
      ensures Valid() && executionId == "direct_" + freshId
      ensures transferCalls == old(transferCalls) + 1 && !failNext
      ensures executions == old(executions)[executionId := MockStatus(old(failNext))]
    {
      transferCalls := transferCalls + 1;
      executionId := "direct_" + freshId;
      executions := executions[executionId := MockStatus(failNext)];
      failNext := false;
    }

    /** None is the KeyError. */
    method GetExecutionStatus(executionId: string) returns (reply: Option<StatusReply>)
      requires Valid()
      ensures reply == if executionId in executions then Some(executions[executionId]) else None
      ensures reply.Some? ==> ShippedReply(reply.value)
    {
      return if executionId in executions then Some(executions[executionId]) else None;
    }
  }

  /** A status reply one of the two backends could give. */
  ghost predicate ShippedReply(reply: StatusReply)
  {
    (exists body :: reply == LiveStatus(body)) || (exists failed :: reply == MockStatus(failed))
  }

  /** Neither backend ever reports COMPLETED, whatever raw status the service sends. */
  lemma ShippedNeverCompleted(reply: StatusReply)
    requires ShippedReply(reply)
    ensures reply.status != Completed
    ensures reply.status != Errored && reply.status != Cancelled
  {}

  /**
    A live execution is over exactly when the service says "completed" or "error", and succeeded exactly in the first
    case.
   */
  lemma LiveStatusIff(body: LiveBody)
    ensures IsTerminal(LiveStatus(body).status) <==> body.status == Some("completed") || body.status == Some("error")
    ensures Succeeded(LiveStatus(body).status) <==> body.status == Some("completed")
    ensures LiveStatus(body).status == Running <==> body.status == Some("running")
    ensures
      var reply := LiveStatus(body);
      && reply.txHash == body.transactionHash && reply.error == body.error && reply.explorerUrl == body.transactionLink
      && reply.blockNumber == None && reply.gasUsed == None
  {}

  /** Terminal means neither waiting nor at work; succeeded is SUCCESS or COMPLETED. */
  lemma TerminalIff(status: KhStatus)
    ensures IsTerminal(status) <==> status != Pending && status != Running
    ensures Succeeded(status) <==> IsTerminal(status) && status !in {Failed, Errored, Cancelled}
  {}

  /** One HTTP attempt at a transfer. */
  datatype Attempt =
    | Unreached(message: string)      // connection error or timeout: retried
    | Rejected(message: string)       // any other error: raised
    | Unreadable(message: string)     // accepted, but the reply does not parse: raised
    | Accepted(executionId: string)

  datatype Transfer = TransferRaised(message: string) | Submitted(executionId: string)

  function Verdict(a: Attempt): Transfer
  {
    match a
    case Accepted(id) => Submitted(id)
    case Unreached(m) => TransferRaised(m)
    case Rejected(m) => TransferRaised(m)
    case Unreadable(m) => TransferRaised(m)
  }

  const MAX_ATTEMPTS := 3

  /** How many POSTs the retry policy makes against these attempts. */
  function PostsMade(attempts: nat -> Attempt): (n: nat)
    ensures 1 <= n <= 3
    ensures forall i: nat | i < n - 1 :: attempts(i).Unreached?
    ensures n < 3 ==> !attempts(n - 1).Unreached?
  {
    if !attempts(0).Unreached? then 1 else if !attempts(1).Unreached? then 2 else 3
  }

  /** The live `execute_transfer` under its retry policy. */
  method ExecuteTransfer(attempts: nat -> Attempt) returns (outcome: Transfer, posts: nat)
    ensures posts == PostsMade(attempts)
    ensures outcome == Verdict(attempts(posts - 1))
  {
    posts := 0;
    while true
      invariant posts < MAX_ATTEMPTS
      invariant forall i: nat | i < posts :: attempts(i).Unreached?
      decreases MAX_ATTEMPTS - posts
    {
      var attempt := attempts(posts);
      posts := posts + 1;
      if !attempt.Unreached? || posts == MAX_ATTEMPTS { return Verdict(attempt), posts; }
    }
  }

  // ---- wait_for_completion ----

  datatype Poll = PollRaised | Replied(reply: StatusReply)

  function Ceil(x: real): int
  {
    -((-x).Floor)
  }

  ghost predicate NonTerminal(p: Poll)
  {
    p.Replied? && !IsTerminal(p.reply.status)
  }

  lemma CeilingBound(n: nat, interval: real, timeout: real)
    requires interval > 0.0
    ensures n as real * interval < timeout <==> n < Ceil(timeout / interval)
  {
    var q := timeout / interval;
    assert q * interval == timeout;
    assert n as real * interval < timeout <==> (n as real) < q by {
      if (n as real) < q { assert (q - n as real) * interval > 0.0; }
      if (n as real) >= q { assert (n as real - q) * interval >= 0.0; }
    }
    var c := Ceil(q);
    assert (c - 1) as real < q <= c as real;
  }

  /** The number of status reads made while time is left. */
  function LoopReads(interval: real, timeout: real): nat
    requires interval > 0.0
  {
    if timeout <= 0.0 then 0 else if Ceil(timeout / interval) < 0 then 0 else Ceil(timeout / interval)
  }

  /**
    Terminates for every positive interval after at most ceil(timeout / interval) + 1 reads. The first terminal
    read is returned at once; a non-terminal answer means that every read was non-terminal, the final one too.
   */
  method WaitForCompletion(polls: nat -> Poll, interval: real, timeout: real) returns (answer: Poll, n: nat)
    requires interval > 0.0
    ensures 1 <= n <= LoopReads(interval, timeout) + 1
    ensures answer == polls(n - 1)
    ensures forall i: nat | i < n - 1 :: NonTerminal(polls(i))
    ensures NonTerminal(answer) ==> n == LoopReads(interval, timeout) + 1
  {
    var elapsed := 0.0;
    n := 0;
    CeilingBound(0, interval, timeout);
    while elapsed < timeout
      invariant elapsed == n as real * interval
      invariant n <= LoopReads(interval, timeout)
      invariant forall i: nat | i < n :: NonTerminal(polls(i))
      decreases LoopReads(interval, timeout) - n
    {
      CeilingBound(n, interval, timeout);
      assert timeout > 0.0 by { assert n as real * interval >= 0.0; }
      answer := polls(n);
      n := n + 1;
      if answer.PollRaised? || IsTerminal(answer.reply.status) { return; }
      assert (n - 1) as real * interval + interval == n as real * interval;
      elapsed := elapsed + interval;
    }
    CeilingBound(n, interval, timeout);
    answer := polls(n);
    n := n + 1;
  }

  // ---- core/keeperhub/executor.py ----

  datatype Quote = QuoteRaised(message: string) | Quoted(amountOut: Option<string>)

  /** A value in a log entry's output. */
  datatype Field = Falsy | Text(s: string) | OtherTruthy

  datatype LogItem = NoOutput | Output(transactionHash: Field, txHash: Field)

  datatype Logs = LogsRaised | Entries(items: seq<LogItem>)

  /** Everything the outside world answers during one `execute_swap`. */
  datatype Replies = Replies(
    quote: Quote,
    recipient: string,
    attempts: nat -> Attempt,
    polls: string -> nat -> Poll,
    logs: string -> Logs)

  /** The `_ExecStatus` of a treasury commitment. */
  datatype ExecStatus = ExecStatus(
    executionId: string,
    status: KhStatus,
    txHash: Option<string>,
    blockNumber: Option<int>,
    gasUsed: Option<int>,
    error: Option<string>,
    explorerUrl: Option<string>)

  const POLL_BUDGET := 60

  function Shown(f: Field): Field
  {
    if f == Text("") then Falsy else f
  }

  /** The usable hash of a log entry: `transactionHash`, else `txHash`, if it is a "0x" string. */
  function HashIn(item: LogItem): Option<string>
  {
    if item.NoOutput? then None
    else
      var tx := if Shown(item.transactionHash) != Falsy then item.transactionHash else item.txHash;
      if tx.Text? && "0x" <= tx.s then Some(tx.s) else None
  }

  /** The item's output carries h as its `transactionHash`, or as its `txHash` where the former is missing or empty. */
  ghost predicate Shows(item: LogItem, h: string)
  {
    && item.Output? && |h| >= 2 && h[0] == '0' && h[1] == 'x'
    && (item.transactionHash == Text(h) || (item.transactionHash in {Falsy, Text("")} && item.txHash == Text(h)))
  }

  lemma HashInIff(item: LogItem, h: string)
    ensures HashIn(item) == Some(h) <==> Shows(item, h)
  {
    assert "0x" <= h <==> |h| >= 2 && h[0] == '0' && h[1] == 'x';
  }

  /** The k-th item is the first to show a hash, and shows h. */
  ghost predicate FirstShown(items: seq<LogItem>, k: nat, h: string)
  {
    k < |items| && Shows(items[k], h) && forall j, g | 0 <= j < k :: !Shows(items[j], g)
  }

  lemma NoneShown(item: LogItem)
    ensures HashIn(item).None? <==> forall g :: !Shows(item, g)
  {
    forall g
      ensures HashIn(item) == Some(g) <==> Shows(item, g)
    {
      HashInIff(item, g);
    }
    if HashIn(item).Some? {
      assert Shows(item, HashIn(item).value);
    }
  }

  /** The log fallback finds the first hash that an item shows, if there is one. */
  lemma FirstLogHashIff(items: seq<LogItem>, h: string)
    ensures FirstLogHash(items) == Some(h) <==> exists k: nat :: FirstShown(items, k, h)
    ensures FirstLogHash(items) == None <==> forall k, g | 0 <= k < |items| :: !Shows(items[k], g)
  {
    forall j | 0 <= j < |items|
      ensures HashIn(items[j]).None? <==> forall g :: !Shows(items[j], g)
    {
      NoneShown(items[j]);
    }
    var found := FirstLogHash(items);
    if found.Some? {
      var k :| 0 <= k < |items| && HashIn(items[k]) == found && forall j | 0 <= j < k :: HashIn(items[j]).None?;
      HashInIff(items[k], found.value);
      assert FirstShown(items, k, found.value);
    }
    if k: nat :| FirstShown(items, k, h) {
      HashInIff(items[k], h);
      assert HashIn(items[k]) == Some(h) && forall j | 0 <= j < k :: HashIn(items[j]).None?;
      FirstIsUnique(items, found, k);
    }
  }

  lemma FirstIsUnique(items: seq<LogItem>, found: Option<string>, k: nat)
    requires k < |items| && HashIn(items[k]).Some? && forall j | 0 <= j < k :: HashIn(items[j]).None?
    requires found == FirstLogHash(items)
    ensures found == HashIn(items[k])
  {
    var i :| 0 <= i < |items| && HashIn(items[i]) == found && forall j | 0 <= j < i :: HashIn(items[j]).None?;
    assert i == k;
  }

  function FirstLogHash(items: seq<LogItem>): (hash: Option<string>)
    ensures hash.None? <==> forall i | 0 <= i < |items| :: HashIn(items[i]).None?
    ensures hash.Some? ==> exists i | 0 <= i < |items| ::
      HashIn(items[i]) == hash && forall j | 0 <= j < i :: HashIn(items[j]).None?
  {
    if items == [] then None
    else if HashIn(items[0]).Some? then
      assert HashIn(items[0]) == HashIn(items[0]);
      HashIn(items[0])
    else
      var rest := FirstLogHash(items[1..]);
      assert rest.Some? ==> exists i | 0 <= i < |items| ::
        HashIn(items[i]) == rest && forall j | 0 <= j < i :: HashIn(items[j]).None? by {
        if rest.Some? {
          var k :| 0 <= k < |items[1..]| && HashIn(items[1..][k]) == rest &&
              forall j | 0 <= j < k :: HashIn(items[1..][j]).None?;
          assert HashIn(items[k + 1]) == rest;
          forall j | 0 <= j < k + 1 ensures HashIn(items[j]).None? { if j > 0 { assert items[j] ==
              items[1..][j - 1]; } }
        }
      }
      rest
  }

  /** A poll that ends the polling: it shows a hash, or the execution is over. */
  predicate Decides(p: Poll)
  {
    p.Replied? && (Truthy(p.reply.txHash) || IsTerminal(p.reply.status))
  }

  /** Polling stops after n polls: at the first deciding one, or when the budget is spent. */
  ghost predicate StopsAfter(polls: nat -> Poll, n: nat)
  {
    && 1 <= n <= POLL_BUDGET
    && (forall i: nat | i < n - 1 :: !Decides(polls(i)))
    && (n < POLL_BUDGET ==> Decides(polls(n - 1)))
  }

  lemma StopsOnce(polls: nat -> Poll, n: nat, k: nat)
    requires StopsAfter(polls, n) && StopsAfter(polls, k)
    ensures n == k
  {}

  lemma StopsSometime(polls: nat -> Poll) returns (n: nat)
    ensures StopsAfter(polls, n)
  {
    n := 1;
    while n < POLL_BUDGET && !Decides(polls(n - 1))
      invariant 1 <= n <= POLL_BUDGET
      invariant forall i: nat | i < n - 1 :: !Decides(polls(i))
    {
      n := n + 1;
    }
  }

  ghost function PollsMade(polls: nat -> Poll): (n: nat)
    ensures StopsAfter(polls, n)
  {
    assert exists n :: StopsAfter(polls, n) by { var k := StopsSometime(polls); }
    var n: nat :| StopsAfter(polls, n);
    n
  }

  /** The latest of the first n polls that got an answer. */
  function LastReply(polls: nat -> Poll, n: nat): Option<StatusReply>
  {
    if n == 0 then None else if polls(n - 1).Replied? then Some(polls(n - 1).reply) else LastReply(polls, n - 1)
  }

  function NothingSent(message: string): ExecStatus
  {
    ExecStatus("", Failed, None, None, None, Some(message), None)
  }

  /** What the reply streams make of a submitted transfer. */
  ghost function Settled(id: string, polls: nat -> Poll, logs: Logs): ExecStatus
  {
    var last := LastReply(polls, PollsMade(polls));
    if last.Some? && Truthy(last.value.txHash) then
      var r := last.value;
      ExecStatus(id, r.status, r.txHash, r.blockNumber, r.gasUsed, r.error, r.explorerUrl)
    else if logs.Entries? && FirstLogHash(logs.items).Some? then
      ExecStatus(id, Success, FirstLogHash(logs.items), None, None, None, None)
    else
      match last
      case Some(r) => ExecStatus(id, r.status, r.txHash, None, None, r.error, None)
      case None => ExecStatus(id, Running, None, None, None, None, None)
  }

  const NO_RECIPIENT := "No recipient — set KH_KEEPER_ADDRESS or pass wallet_address"

  ghost function Commitment(r: Replies): ExecStatus
  {
    if r.recipient == "" then NothingSent(NO_RECIPIENT)
    else
      match Verdict(r.attempts(PostsMade(r.attempts) - 1))
      case TransferRaised(message) => NothingSent(message)
      case Submitted(id) => Settled(id, r.polls(id), r.logs(id))
  }

  datatype SwapStatus = Confirmed | SwapSubmitted | SwapFailed

  datatype SwapResult = SwapResult(status: SwapStatus, txHash: Option<string>, error: Option<string>,
      amountOut: Option<string>)

  predicate Contains(text: string, part: string)
  {
    part <= text || (text != "" && Contains(text[1..], part))
  }

  /** Errors of the service that are reported as a deferred submission. */
  const QUIRKS: seq<string> := [
    "fragment inputs doesn't match arguments",
    "execution reverted (unknown custom error)",
    "missing revert data",
    "500 Internal Server Error"]

  function StatusOf(status: KhStatus): SwapStatus
  {
    if Succeeded(status) then Confirmed else if status == Running then SwapSubmitted else SwapFailed
  }

  /** `execute_swap` as a function of the replies: total, whatever they are. */
  ghost function Swap(r: Replies): SwapResult
  {
    match r.quote
    case QuoteRaised(message) =>
      var quirk := exists q | q in QUIRKS :: Contains(message, q);
      SwapResult(if quirk then SwapSubmitted else SwapFailed, None, Some(message), None)
    case Quoted(amountOut) =>
      var kh := Commitment(r);
      SwapResult(StatusOf(kh.status), kh.txHash, if Succeeded(kh.status) then None else kh.error, amountOut)
  }

  /** POSTs to the transfer endpoint during one `execute_swap`. */
  function PostsOf(r: Replies): nat
  {
    if r.quote.QuoteRaised? || r.recipient == "" then 0 else PostsMade(r.attempts)
  }

  /** The event the audit of the run is logged under; None: the run never reaches its audit. */
  ghost function AuditEvent(r: Replies): Option<Models.LogEventType>
  {
    if r.quote.QuoteRaised? then None
    else Some(if AuditSucceeded(Commitment(r).status) then Models.TradeExecuted else Models.TradeFailed)
  }

  /** The polling loop: the last status read when a poll shows a hash, the execution ends, or the budget is spent. */
  method PollStatus(polls: nat -> Poll) returns (last: Option<StatusReply>)
    ensures last == LastReply(polls, PollsMade(polls))
  {
    last := None;
    for i := 0 to POLL_BUDGET
      invariant forall j: nat | j < i :: !Decides(polls(j))
      invariant last == LastReply(polls, i)
    {
      match polls(i) {
        case PollRaised =>
        case Replied(reply) =>
          last := Some(reply);
          if Truthy(reply.txHash) || IsTerminal(reply.status) {
            StopsOnce(polls, PollsMade(polls), i + 1);
            return;
          }
      }
    }
    StopsOnce(polls, PollsMade(polls), POLL_BUDGET);
  }

  class KeeperHubSwapExecutor {
    /** POSTs made to the transfer endpoint so far. */
    var posts: nat
    /** Audit events logged so far. */
    var audits: seq<Models.LogEventType>
    /** Whether a storage client was passed; without one nothing is audited. */
    const hasStorage: bool

    constructor (hasStorage: bool)
      ensures posts == 0 && audits == [] && this.hasStorage == hasStorage
    {
      posts, audits, this.hasStorage := 0, [], hasStorage;
    }

    method SubmitTreasuryCommitment(r: Replies) returns (st: ExecStatus)
      modifies this`posts
      ensures st == Commitment(r)
      ensures posts == old(posts) + if r.recipient == "" then 0 else PostsMade(r.attempts)
    {
      if r.recipient == "" { return NothingSent(NO_RECIPIENT); }
      var transfer, made := ExecuteTransfer(r.attempts);
      posts := posts + made;
      if transfer.TransferRaised? { return NothingSent(transfer.message); }
      var id := transfer.executionId;
      var last := PollStatus(r.polls(id));
      if last.Some? && Truthy(last.value.txHash) {
        var reply := last.value;
        return ExecStatus(id, reply.status, reply.txHash, reply.blockNumber, reply.gasUsed, reply.error,
            reply.explorerUrl);
      }
      var logs := r.logs(id);
      if logs.Entries? {
        var hash := FirstLogHash(logs.items);
        if hash.Some? { return ExecStatus(id, Success, hash, None, None, None, None); }
      }
      return match last
        case Some(reply) => ExecStatus(id, reply.status, reply.txHash, None, None, reply.error, None)
        case None => ExecStatus(id, Running, None, None, None, None, None);
    }

    /**
      `execute_swap`. It never raises; `handled` says that the result comes from the exception handler.
      An audit that cannot be stored is dropped silently.
     */
    method ExecuteSwap(r: Replies, auditStored: bool) returns (result: SwapResult, handled: bool)
      modifies this
      ensures result == Swap(r)
      ensures posts == old(posts) + PostsOf(r)
      ensures audits == old(audits) +
        (if hasStorage && auditStored && AuditEvent(r).Some? then [AuditEvent(r).value] else [])
      ensures handled <==> r.quote.QuoteRaised?
      ensures handled ==> posts == old(posts) && audits == old(audits)
    {
      if r.quote.QuoteRaised? {
        var quirk := exists q | q in QUIRKS :: Contains(r.quote.message, q);
        return SwapResult(if quirk then SwapSubmitted else SwapFailed, None, Some(r.quote.message), None), true;
      }
      var kh := SubmitTreasuryCommitment(r);
      if hasStorage && auditStored {
        audits := audits + [if AuditSucceeded(kh.status) then Models.TradeExecuted else Models.TradeFailed];
      }
      return SwapResult(StatusOf(kh.status), kh.txHash, if Succeeded(kh.status) then None
          else kh.error, r.quote.amountOut), false;
    }
  }

  // ---- What a swap's result means ----

  /** Of the first n polls, the i-th is the last that was answered. */
  ghost predicate LastAnswerAt(polls: nat -> Poll, n: nat, i: nat)
  {
    i < n && polls(i).Replied? && forall j: nat | i < j < n :: polls(j).PollRaised?
  }

  lemma {:induction false} LastReplyWasGiven(polls: nat -> Poll, n: nat)
    ensures LastReply(polls, n).Some? ==>
      exists i: nat :: LastAnswerAt(polls, n, i) && polls(i) == Replied(LastReply(polls, n).value)
    ensures LastReply(polls, n).None? <==> forall i: nat | i < n :: polls(i).PollRaised?
  {
    if n > 0 {
      LastReplyWasGiven(polls, n - 1);
      if polls(n - 1).Replied? {
        assert LastAnswerAt(polls, n, n - 1);
      } else if LastReply(polls, n - 1).Some? {
        var i: nat :| LastAnswerAt(polls, n - 1, i) && polls(i) == Replied(LastReply(polls, n - 1).value);
        assert LastAnswerAt(polls, n, i);
      }
    }
  }

  /** The first poll to show a hash, if no terminal poll comes before it. */
  ghost predicate FirstHashAt(polls: nat -> Poll, i: nat)
  {
    && i < 60 && polls(i).Replied? && Truthy(polls(i).reply.txHash)
    && forall j: nat | j < i :: !Decides(polls(j))
  }

  /** The first hash seen no later than the first terminal poll wins over everything else. */
  lemma FirstHashWins(id: string, polls: nat -> Poll, logs: Logs, i: nat)
    requires FirstHashAt(polls, i)
    ensures
      var reply := polls(i).reply;
      Settled(id, polls, logs) ==
        ExecStatus(id, reply.status, reply.txHash, reply.blockNumber, reply.gasUsed, reply.error, reply.explorerUrl)
  {}

  lemma HashEndsPolling(polls: nat -> Poll) returns (i: nat)
    requires var last := LastReply(polls, PollsMade(polls)); last.Some? && Truthy(last.value.txHash)
    ensures FirstHashAt(polls, i)
  {
    var n := PollsMade(polls);
    LastReplyWasGiven(polls, n);
    i :| LastAnswerAt(polls, n, i) && polls(i) == Replied(LastReply(polls, n).value);
  }

  lemma NoHashMeansNone(polls: nat -> Poll)
    requires forall i: nat :: !FirstHashAt(polls, i)
    ensures var last := LastReply(polls, PollsMade(polls)); last.None? || !Truthy(last.value.txHash)
  {
    var last := LastReply(polls, PollsMade(polls));
    if last.Some? && Truthy(last.value.txHash) {
      var i := HashEndsPolling(polls);
    }
  }

  /**
    Failing such a poll, the first hash that the logs show, as SUCCESS; failing that, the status of the last poll that
    was answered; and RUNNING if all of them raised. Of the n polls the last is the first terminal one, or the 60th.
   */
  lemma WithoutPolledHash(id: string, polls: nat -> Poll, logs: Logs, n: nat)
    requires (forall i: nat :: !FirstHashAt(polls, i)) && StopsAfter(polls, n)
    ensures n <= 60 && (n < 60 ==> polls(n - 1).Replied? && IsTerminal(polls(n - 1).reply.status))
    ensures
      var st := Settled(id, polls, logs);
      && (forall k: nat, h | logs.Entries? && FirstShown(logs.items, k, h) ::
            st == ExecStatus(id, Success, Some(h), None, None, None, None))
      && ((logs.Entries? ==> forall k, g | 0 <= k < |logs.items| :: !Shows(logs.items[k], g)) ==>
            if forall i: nat | i < n :: polls(i).PollRaised? then
              st == ExecStatus(id, Running, None, None, None, None, None)
            else exists i: nat :: LastAnswerAt(polls, n, i) && AsRead(id, polls(i).reply, st))
  {
    StopsOnce(polls, PollsMade(polls), n);
    NoHashMeansNone(polls);
    LastReplyWasGiven(polls, n);
    if n < 60 {
      HashDecides(polls, n - 1);
    }
    if logs.Entries? {
      forall k: nat, h | FirstShown(logs.items, k, h)
        ensures FirstLogHash(logs.items) == Some(h)
      {
        FirstLogHashIff(logs.items, h);
      }
      FirstLogHashIff(logs.items, "");
    }
  }

  /** A status read without a hash, as it is handed on. */
  ghost predicate AsRead(id: string, reply: StatusReply, st: ExecStatus)
  {
    st == ExecStatus(id, reply.status, reply.txHash, None, None, reply.error, None) && !Truthy(reply.txHash)
  }

  lemma HashDecides(polls: nat -> Poll, i: nat)
    requires i < 60 && Decides(polls(i)) && !FirstHashAt(polls, i) && forall j: nat | j < i :: !Decides(polls(j))
    ensures polls(i).Replied? && IsTerminal(polls(i).reply.status)
  {}

  /** A hash in the result was reported for this very execution, by one of its polls or by an item of its logs. */
  lemma HashWasReported(r: Replies)
    requires Truthy(Swap(r).txHash)
    ensures PostsOf(r) > 0
    ensures
      var attempt, hash := r.attempts(PostsOf(r) - 1), Swap(r).txHash;
      && attempt.Accepted?
      && var id := attempt.executionId;
         || (exists i: nat | i < 60 :: r.polls(id)(i).Replied? && r.polls(id)(i).reply.txHash == hash)
         || (r.logs(id).Entries? && exists k | 0 <= k < |r.logs(id).items| :: Shows(r.logs(id).items[k], hash.value))
  {
    var id := r.attempts(PostsMade(r.attempts) - 1).executionId;
    var polls := r.polls(id);
    LastReplyWasGiven(polls, PollsMade(polls));
    var last := LastReply(polls, PollsMade(polls));
    if last.Some? && Swap(r).txHash == last.value.txHash {
      var i: nat :| LastAnswerAt(polls, PollsMade(polls), i) && polls(i) == Replied(last.value);
      assert r.polls(id)(i).reply.txHash == Swap(r).txHash;
    } else {
      FirstLogHashIff(r.logs(id).items, Swap(r).txHash.value);
      var k: nat :| FirstShown(r.logs(id).items, k, Swap(r).txHash.value);
      assert Shows(r.logs(id).items[k], Swap(r).txHash.value);
    }
  }

  /** The part occurs somewhere in the text. */
  lemma {:induction false} ContainsIff(text: string, part: string)
    ensures Contains(text, part) <==> exists k: nat :: OccursAt(text, part, k)
  {
    if part <= text {
      assert OccursAt(text, part, 0);
    } else if text != "" {
      ContainsIff(text[1..], part);
      if k: nat :| OccursAt(text[1..], part, k) {
        OccursLater(text, part, k);
      }
      if k: nat :| OccursAt(text, part, k) {
        assert k > 0;
        OccursLater(text, part, k - 1);
      }
    }
  }

  lemma OccursLater(text: string, part: string, k: nat)
    requires text != ""
    ensures OccursAt(text[1..], part, k) <==> OccursAt(text, part, k + 1)
  {
    if k + 1 + |part| <= |text| {
      assert text[1..][k..k + |part|] == text[k + 1..k + 1 + |part|];
    }
  }

  ghost predicate OccursAt(text: string, part: string, k: nat)
  {
    k + |part| <= |text| && text[k..k + |part|] == part
  }

  /** The message of a failed quote that is reported as a deferred submission. */
  ghost predicate Deferred(message: string)
  {
    || (exists k: nat :: OccursAt(message, "fragment inputs doesn't match arguments", k))
    || (exists k: nat :: OccursAt(message, "execution reverted (unknown custom error)", k))
    || (exists k: nat :: OccursAt(message, "missing revert data", k))
    || (exists k: nat :: OccursAt(message, "500 Internal Server Error", k))
  }

  lemma DeferredIff(message: string)
    ensures (exists q | q in QUIRKS :: Contains(message, q)) <==> Deferred(message)
  {
    forall q
      ensures Contains(message, q) <==> exists k: nat :: OccursAt(message, q, k)
    {
      ContainsIff(message, q);
    }
    assert QUIRKS[0] in QUIRKS && QUIRKS[1] in QUIRKS && QUIRKS[2] in QUIRKS && QUIRKS[3] in QUIRKS;
  }

  /** A quote that raises ends the swap: its message is the error, and certain messages count as deferred. */
  lemma FailedQuote(r: Replies)
    requires r.quote.QuoteRaised?
    ensures
      var status := if Deferred(r.quote.message) then SwapSubmitted else SwapFailed;
      Swap(r) == SwapResult(status, None, Some(r.quote.message), None) && PostsOf(r) == 0
  {
    DeferredIff(r.quote.message);
  }

  /** No recipient: nothing is sent. No attempt accepted: the error of the last one is the error of the swap. */
  lemma FailedTransfer(r: Replies)
    requires r.quote.Quoted? && (r.recipient == "" || !r.attempts(PostsMade(r.attempts) - 1).Accepted?)
    ensures
      var error := if r.recipient == "" then "No recipient — set KH_KEEPER_ADDRESS or pass wallet_address"
                   else r.attempts(PostsMade(r.attempts) - 1).message;
      && Swap(r) == SwapResult(SwapFailed, None, Some(error), r.quote.amountOut)
      && PostsOf(r) == if r.recipient == "" then 0 else PostsMade(r.attempts)
  {}

  /** A transfer that was accepted: the settled status decides, and only a failure hands its error on. */
  lemma SubmittedTransfer(r: Replies)
    requires r.quote.Quoted? && r.recipient != "" && r.attempts(PostsMade(r.attempts) - 1).Accepted?
    ensures
      var id := r.attempts(PostsMade(r.attempts) - 1).executionId;
      var st, result := Settled(id, r.polls(id), r.logs(id)), Swap(r);
      && PostsOf(r) == PostsMade(r.attempts) && result.txHash == st.txHash && result.amountOut == r.quote.amountOut
      && (result.status == Confirmed <==> st.status == Success || st.status == Completed)
      && (result.status == SwapSubmitted <==> st.status == Running)
      && result.error == if result.status == Confirmed then None else st.error
  {}

  /** The two success tests part company on COMPLETED, and only there. */
  lemma AuditAgreesIff(r: Replies)
    requires r.quote.Quoted?
    ensures (AuditEvent(r) == Some(Models.TradeExecuted) <==> Swap(r).status == Confirmed) <==>
            Commitment(r).status != Completed
  {}

  /** With either shipped backend the audit says TRADE_EXECUTED exactly when the result is CONFIRMED. */
  lemma AuditAgreesWithResult(r: Replies)
    requires r.quote.Quoted?
    requires forall id, i: nat :: r.polls(id)(i).Replied? ==> ShippedReply(r.polls(id)(i).reply)
    ensures AuditEvent(r) == Some(Models.TradeExecuted) <==> Swap(r).status == Confirmed
  {
    if r.recipient != "" {
      var transfer := Verdict(r.attempts(PostsMade(r.attempts) - 1));
      if transfer.Submitted? {
        var polls := r.polls(transfer.executionId);
        LastReplyWasGiven(polls, PollsMade(polls));
        var last := LastReply(polls, PollsMade(polls));
        if last.Some? {
          var i: nat :| LastAnswerAt(polls, PollsMade(polls), i) && polls(i) == Replied(last.value);
          assert r.polls(transfer.executionId)(i).Replied?;
          ShippedNeverCompleted(last.value);
        }
      }
    }
  }

  /**
    Against the mock backend a quoted swap is CONFIRMED with the mock hash, or FAILED with the mock error, after one
    poll.
   */
  lemma MockSwap(r: Replies, id: string, failed: bool)
    requires r.quote.Quoted? && r.recipient != "" && r.attempts(0) == Accepted(id)
    requires r.polls(id)(0) == Replied(MockStatus(failed)) && r.logs(id) == Entries([NoOutput])
    ensures PostsOf(r) == 1 && PollsMade(r.polls(id)) == 1
    ensures Swap(r).status == (if failed then SwapFailed else Confirmed)
    ensures Swap(r).txHash == (if failed then None else Some(MOCK_HASH))
    ensures Swap(r).error == (if failed then Some("Mock failure") else None)
    ensures MOCK_HASH == "0xabababababababababababababababababababababababababababababababab"
    ensures !failed ==> Commitment(r).blockNumber == Some(12345678) && Commitment(r).gasUsed == Some(150000)
  {}
}
