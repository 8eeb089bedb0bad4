/** core/schema.py, core/compute/risk_scorer.py and agents/: the risk gate between a model's opinion and a transfer. */
module Agents {
  import opened Prelude
  import opened KeeperHub

  // ---- core/schema.py ----

  datatype Action = Buy | Sell | Hold

  datatype Decision = Decision(
    action: Action,
    tokenIn: string,
    tokenOut: string,
    chainId: int,
    amountInWei: int,
    riskScore: real,
    confidence: real,
    rejectionReason: Option<string>)

  /** The validators of `TradeDecisionPayload`. */
  predicate ValidDecision(d: Decision)
  {
    && d.amountInWei > 0
    && 0.0 <= d.riskScore <= 10.0
    && 0.0 <= d.confidence <= 1.0
    && (d.action == Hold ==> Truthy(d.rejectionReason))
  }

  datatype ResultPayload = ResultPayload(success: bool, txHash: Option<string>, error: Option<string>)

  /** The validators of `ExecutionResultPayload`. */
  predicate ValidResult(p: ResultPayload)
  {
    (p.success ==> Truthy(p.txHash)) && (!p.success ==> Truthy(p.error))
  }

  // ---- core/compute/risk_scorer.py ----

  /** A field of a parsed reply or signal, as the code reads it: absent, usable, or such that reading it raises. */
  datatype Read<T> = Missing | Got(value: T) | Unusable

  datatype ModelReply =
    | InferenceFailed(message: string)   // the call or the parsing raised
    | NotAnObject                        // parsed, but not a JSON object
    | Opinion(riskScore: Read<real>, action: Read<string>, confidence: Read<real>, rejectionReason: Read<string>)

  datatype Signal = Signal(
    promptReadable: bool,
    tokenIn: Option<string>,
    tokenOut: Option<string>,
    chainId: Read<int>,
    amountInWei: Read<int>)

  const RISK_THRESHOLD := 7.0
  const NATIVE_ETH := "0x0000000000000000000000000000000000000000"
  const USDC := "0x833589fCD6eDb6E08f4c7C32D4f71b54bdA02913"
  const OVER_THRESHOLD := "Risk score exceeds threshold 7.0"
  const HOLD_SIGNAL := "Risk gate: hold signal"

  function Or<T>(field: Read<T>, default: T): Option<T>
  {
    match field case Missing => Some(default) case Got(v) => Some(v) case Unusable => None
  }

  /** The reply that stands in for a failed inference. */
  function Fallback(message: string): ModelReply
  {
    Opinion(Got(10.0), Got("hold"), Got(0.0), Got("Inference error: " + message))
  }

  /** `RiskScorer.score`: the decision it sends, or None where it raises. */
  method Score(signal: Signal, reply: ModelReply) returns (decision: Option<Decision>)
    ensures decision == Scored(signal, reply)
    ensures decision.Some? ==> ValidDecision(decision.value)
    ensures decision.Some? && decision.value.action != Hold ==> decision.value.riskScore < 7.0
  {
    if !signal.promptReadable { return None; }
    var result := reply;
    if reply.InferenceFailed? { result := Fallback(reply.message); }
    if result.NotAnObject? { return None; }
    var risk, act, conf := Or(result.riskScore, 10.0), Or(result.action, "hold"), Or(result.confidence, 0.5);
    if risk.None? || act.None? || conf.None? { return None; }
    var actionStr := Lower(act.value);
    if risk.value >= RISK_THRESHOLD && actionStr != "hold" {
      actionStr := "hold";
      result := result.(rejectionReason := Got(OVER_THRESHOLD));
    }
    var action := if actionStr == "buy" then Buy else if actionStr == "sell" then Sell else Hold;
    var chain, amount := Or(signal.chainId, 8453), Or(signal.amountInWei, 100_000_000_000_000_000);
    if chain.None? || amount.None? { return None; }
    var reason: Option<string> := None;
    if action == Hold {
      match result.rejectionReason {
        case Unusable => return None;
        case Missing => reason := Some(HOLD_SIGNAL);
        case Got(text) => reason := Some(if text == "" then HOLD_SIGNAL else text);
      }
    }
    var d := Decision(action,
                      if signal.tokenIn.Some? then signal.tokenIn.value else NATIVE_ETH,
                      if signal.tokenOut.Some? then signal.tokenOut.value else USDC,
                      chain.value, amount.value, risk.value, conf.value, reason);
    if !ValidDecision(d) { return None; }
    return Some(d);
  }

  /** The reason a held decision carries; None where building it raises. */
  function HoldReason(reply: ModelReply, overridden: bool): Option<string>
    requires reply.Opinion?
  {
    if overridden then Some(OVER_THRESHOLD)
    else match reply.rejectionReason
         case Unusable => None
         case Missing => Some(HOLD_SIGNAL)
         case Got(text) => Some(if text == "" then HOLD_SIGNAL else text)
  }

  /** The scorer as a function: which decision leaves the gate for this signal and opinion. */
  function Scored(signal: Signal, reply: ModelReply): Option<Decision>
  {
    var result := if reply.InferenceFailed? then Fallback(reply.message) else reply;
    if !signal.promptReadable || result.NotAnObject? then None
    else
      match (Or(result.riskScore, 10.0), Or(result.action, "hold"), Or(result.confidence, 0.5),
             Or(signal.chainId, 8453), Or(signal.amountInWei, 100_000_000_000_000_000))
      case (Some(risk), Some(act), Some(confidence), Some(chain), Some(amount)) =>
        var asked := if Lower(act) == "buy" then Buy else if Lower(act) == "sell" then Sell else Hold;
        var high := risk >= RISK_THRESHOLD;
        var action := if high then Hold else asked;
        var reason := HoldReason(result, high && Lower(act) != "hold");
        var d := Decision(action,
                          if signal.tokenIn.Some? then signal.tokenIn.value else NATIVE_ETH,
                          if signal.tokenOut.Some? then signal.tokenOut.value else USDC,
                          chain, amount, risk, confidence, if action == Hold then reason else None);
        if (action == Hold && reason.None?) || !ValidDecision(d) then None else Some(d)
      case _ => None
  }

  /** No opinion of the model gets a risky or empty trade past the gate, and a failed inference always holds. */
  lemma GateHolds(signal: Signal, reply: ModelReply)
    ensures
      var d := Scored(signal, reply);
      d.Some? ==>
        && ValidDecision(d.value)
        && (d.value.action != Hold ==> 0.0 <= d.value.riskScore < 7.0 && d.value.amountInWei > 0)
        && (reply.InferenceFailed? ==> d.value.action == Hold)
        && (d.value.action != Hold ==>
              && reply.Opinion? && reply.action.Got?
              && Lower(reply.action.value) == if d.value.action == Buy then "buy" else "sell")
  {
    if reply.InferenceFailed? {
      assert Lower("hold") == "hold";
    }
    assert Lower("hold") == "hold";
    assert "hold"[0] != "buy"[0] && "hold"[0] != "sell"[0];
  }

  /** The opinion with which the scorer works: a failed inference counts as risk 10, confidence 0. */
  function RiskOf(reply: ModelReply): Read<real>
  {
    if reply.InferenceFailed? then Got(10.0) else if reply.Opinion? then reply.riskScore else Unusable
  }

  function ConfidenceOf(reply: ModelReply): Read<real>
  {
    if reply.InferenceFailed? then Got(0.0) else if reply.Opinion? then reply.confidence else Unusable
  }

  /** The field as read has this value: its own, or the default where it is missing. */
  predicate Reads<T(==)>(field: Read<T>, default: T, value: T)
  {
    field == Got(value) || (field == Missing && value == default)
  }

  predicate Readable<T>(field: Read<T>) { !field.Unusable? }

  /** A decision carries the signal's own tokens, chain and amount, and the opinion's own risk and confidence. */
  lemma DecisionCarries(signal: Signal, reply: ModelReply)
    requires Scored(signal, reply).Some?
    ensures
      var d := Scored(signal, reply).value;
      && d.tokenIn == (match signal.tokenIn case Some(t) => t case None => "0x0000000000000000000000000000000000000000")
      && d.tokenOut ==
         (match signal.tokenOut case Some(t) => t case None => "0x833589fCD6eDb6E08f4c7C32D4f71b54bdA02913")
      && Reads(signal.chainId, 8453, d.chainId) && Reads(signal.amountInWei, 100_000_000_000_000_000, d.amountInWei)
      && Reads(RiskOf(reply), 10.0, d.riskScore) && Reads(ConfidenceOf(reply), 0.5, d.confidence)
  {}

  /** The model asks for this action, in whatever case of letters. */
  ghost predicate Asks(reply: ModelReply, action: string)
  {
    reply.Opinion? && reply.action.Got? && Lower(reply.action.value) == action
  }

  /** What must hold of a signal and an opinion for any decision to come of them. */
  ghost predicate Sound(signal: Signal, reply: ModelReply)
  {
    && signal.promptReadable && Readable(signal.chainId) && Readable(signal.amountInWei)
    && (signal.amountInWei.Got? ==> signal.amountInWei.value > 0)
    && (reply.Opinion? ==>
          && Readable(reply.action) && Readable(reply.riskScore) && Readable(reply.confidence)
          && (reply.riskScore.Got? ==> 0.0 <= reply.riskScore.value <= 10.0)
          && (reply.confidence.Got? ==> 0.0 <= reply.confidence.value <= 1.0))
  }

  /** The opinion's risk lets a trade pass: it is given, and below 7. */
  ghost predicate LowRisk(reply: ModelReply)
  {
    reply.Opinion? && reply.riskScore.Got? && reply.riskScore.value < 7.0
  }

  lemma NotBoth()
    ensures Lower("hold") == "hold" && "buy" != "sell" && "buy" != "hold" && "sell" != "hold"
  {
    assert "buy"[0] != "sell"[0] && "buy"[0] != "hold"[0] && "sell"[0] != "hold"[0];
  }

  /** A trade leaves the gate exactly if the model asks for it, at a risk below 7, and signal and opinion are sound. */
  lemma TradesExactlyIf(signal: Signal, reply: ModelReply)
    ensures
      var d := Scored(signal, reply);
      && (d.Some? && d.value.action == Buy <==> Sound(signal, reply) && LowRisk(reply) && Asks(reply, "buy"))
      && (d.Some? && d.value.action == Sell <==> Sound(signal, reply) && LowRisk(reply) && Asks(reply, "sell"))
  {
    NotBoth();
  }

  /** The gate overrides the model: it asks for something else than hold, at a risk of 7 or more. */
  ghost predicate Overridden(reply: ModelReply)
  {
    reply.Opinion? && reply.action.Got? && Lower(reply.action.value) != "hold" && !LowRisk(reply)
  }

  /** Whenever signal and opinion are sound and no trade is made, a HOLD is sent, with the reason the code gives. */
  lemma HoldsExactlyIf(signal: Signal, reply: ModelReply)
    ensures
      var d := Scored(signal, reply);
      var trade := LowRisk(reply) && (Asks(reply, "buy") || Asks(reply, "sell"));
      && (d.Some? && d.value.action == Hold <==>
            && Sound(signal, reply) && !reply.NotAnObject? && !trade
            && (reply.Opinion? && !Overridden(reply) ==> Readable(reply.rejectionReason)))
      && (d.Some? && d.value.action == Hold ==>
            d.value.rejectionReason == Some(
              if reply.InferenceFailed? then "Inference error: " + reply.message
              else if Overridden(reply) then "Risk score exceeds threshold 7.0"
              else if reply.rejectionReason.Got? && reply.rejectionReason.value != "" then reply.rejectionReason.value
              else "Risk gate: hold signal"))
      && (d.Some? && d.value.action != Hold ==> d.value.rejectionReason == None)
  {
    NotBoth();
  }

  // ---- agents/executor.py ----

  /** Everything outside the executor that one delivery meets. `memoryOk(i)`: does the i-th memory call succeed? */
  datatype Circumstances = Circumstances(memoryOk: nat -> bool, replies: Replies, auditStored: bool)

  /** What a delivery leads to: result messages whose sending is attempted, and POSTs to the transfer endpoint. */
  datatype Effects = Effects(attempted: seq<ResultPayload>, posts: nat, raised: bool)

  /** `_send_result`: an invalid payload raises before anything is sent; a failed send is logged and forgotten. */
  function SendResult(success: bool, txHash: Option<string>, error: Option<string>): Option<ResultPayload>
  {
    var p := ResultPayload(success, if success then txHash else None, if success then None else error);
    if ValidResult(p) then Some(p) else None
  }

  function HoldError(d: Decision): string
  {
    "HOLD: " + (if d.rejectionReason.Some? then d.rejectionReason.value else "None")
  }

  /** The message the executor owes the researcher, if the payload for it is valid. */
  ghost function Report(d: Decision, c: Circumstances): Option<ResultPayload>
  {
    if d.action == Hold then SendResult(false, None, Some(HoldError(d)))
    else
      var result := Swap(c.replies);
      SendResult(result.status == Confirmed || result.status == SwapSubmitted, result.txHash, result.error)
  }

  /** `_handle_trade_decision` on a payload that may not even validate. */
  ghost function Handle(hasMemory: bool, payload: Option<Decision>, c: Circumstances): Effects
  {
    if payload.None? || !ValidDecision(payload.value) then Effects([], 0, false)
    else
      var d := payload.value;
      var posts := if d.action == Hold || (hasMemory && !c.memoryOk(0)) then 0 else PostsOf(c.replies);
      var memoryFails := hasMemory &&
        (!c.memoryOk(0) || !c.memoryOk(1) || (d.action != Hold && !c.memoryOk(2)));
      if memoryFails || Report(d, c).None? then Effects([], posts, true)
      else Effects([Report(d, c).value], posts, false)
  }

  datatype Message = Ping(pongDelivered: bool) | TradeDecision(payload: Option<Decision>, c: Circumstances) | Unexpected

  /**
    What the receive stream yields: an error of its own (the transport, an HTTP status, a message that does not
    decode), or a message. `stopped`: the agent had been stopped by then.
   */
  datatype Incoming = StreamFailed | Received(stopped: bool, message: Message)

  /** How a stretch of the dispatch loop ends. */
  datatype Ending = Waiting | Stopped | Crashed

  class ExecutorAgent {
    const hasMemory: bool
    const executor: KeeperHubSwapExecutor
    var running: bool
    /** Result messages whose sending was attempted, and messages routed, in order. */
    var attempted: seq<ResultPayload>
    var handled: seq<Message>

    constructor (hasMemory: bool, executor: KeeperHubSwapExecutor)
      ensures this.hasMemory == hasMemory && this.executor == executor
      ensures running && attempted == [] && handled == []
    {
      this.hasMemory, this.executor, running, attempted, handled := hasMemory, executor, true, [], [];
    }

    method HandleTradeDecision(payload: Option<Decision>, c: Circumstances) returns (raised: bool)
      modifies this`attempted, executor
      ensures
        var e := Handle(hasMemory, payload, c);
        raised == e.raised && attempted == old(attempted) + e.attempted &&
            executor.posts == old(executor.posts) + e.posts
    {
      if payload.None? || !ValidDecision(payload.value) { return false; }
      var d := payload.value;
      if d.action == Hold {
        if hasMemory && !c.memoryOk(0) { return true; }
        if hasMemory && !c.memoryOk(1) { return true; }
        raised := Send(SendResult(false, None, Some(HoldError(d))));
        return;
      }
      if hasMemory && !c.memoryOk(0) { return true; }
      var result, _ := executor.ExecuteSwap(c.replies, c.auditStored);
      if hasMemory && !c.memoryOk(1) { return true; }
      if hasMemory && !c.memoryOk(2) { return true; }
      var success := result.status == Confirmed || result.status == SwapSubmitted;
      raised := Send(SendResult(success, result.txHash, result.error));
    }

    method Send(payload: Option<ResultPayload>) returns (raised: bool)
      modifies this`attempted
      ensures raised <==> payload.None?
      ensures attempted == old(attempted) + (if payload.Some? then [payload.value] else [])
    {
      if payload.None? { return true; }
      attempted := attempted + [payload.value];
      return false;
    }

    /** `_route`: whatever a handler raises is absorbed; only a failed pong gets through. */
    method Route(m: Message) returns (crashed: bool)
      modifies this`attempted, this`handled, executor
      ensures handled == old(handled) + [m]
      ensures crashed <==> m == Ping(false)
      ensures attempted == old(attempted) + EffectsOf(hasMemory, m).attempted
      ensures executor.posts == old(executor.posts) + EffectsOf(hasMemory, m).posts
    {
      handled := handled + [m];
      crashed := false;
      match m {
        case Ping(delivered) => crashed := !delivered;
        case TradeDecision(payload, c) => var _ := HandleTradeDecision(payload, c);
        case Unexpected =>
      }
    }

    /** Since the given moment the agent has done exactly what handling these messages in order leads to. */
    ghost predicate Accounts(attempted0: seq<ResultPayload>, posts0: nat, ms: seq<Message>)
      reads this, executor
    {
      attempted == attempted0 + AllAttempted(hasMemory, ms) && executor.posts == posts0 + AllPosts(hasMemory, ms)
    }

    method RouteNext(m: Message, ghost attempted0: seq<ResultPayload>, ghost posts0: nat, ghost done: seq<Message>)
      returns (crashed: bool)
      requires Accounts(attempted0, posts0, done)
      modifies this`attempted, this`handled, executor
      ensures handled == old(handled) + [m]
      ensures crashed <==> m == Ping(false)
      ensures Accounts(attempted0, posts0, done + [m])
    {
      EffectsAdd(hasMemory, done, m);
      crashed := Route(m);
    }

    /**
      `_dispatch_loop` over the messages that arrive: they are routed in order, each once, until one cannot be
      decoded, a pong cannot be sent, or the agent has been stopped; no handler error ends the loop.
     */
    method DispatchLoop(inbox: seq<Incoming>) returns (ending: Ending)
      modifies this`attempted, this`handled, executor
      ensures handled == old(handled) + Routed(inbox)
      ensures Accounts(old(attempted), old(executor.posts), Routed(inbox))
      ensures ending == EndsAs(inbox)
    {
      ghost var done: seq<Message> := [];
      assert inbox[0..] == inbox;
      for i := 0 to |inbox|
        invariant Progress(inbox, i, done)
        invariant handled == old(handled) + done
        invariant Accounts(old(attempted), old(executor.posts), done)
      {
        LoopStep(inbox, i, done);
        if inbox[i].StreamFailed? { return Crashed; }
        if inbox[i].stopped { return Stopped; }
        var crashed := RouteNext(inbox[i].message, old(attempted), old(executor.posts), done);
        done := done + [inbox[i].message];
        if crashed { return Crashed; }
      }
      assert inbox[|inbox|..] == [] && Routed(inbox) == done;
      return Waiting;
    }
  }

  ghost function EffectsOf(hasMemory: bool, m: Message): Effects
  {
    if m.TradeDecision? then Handle(hasMemory, m.payload, m.c) else Effects([], 0, false)
  }

  /** The incoming messages that get routed: a prefix of what arrives. */
  function Routed(inbox: seq<Incoming>): (ms: seq<Message>)
  {
    if inbox == [] || inbox[0].StreamFailed? || inbox[0].stopped then []
    else if inbox[0].message == Ping(false) then [inbox[0].message]
    else [inbox[0].message] + Routed(inbox[1..])
  }

  function EndsAs(inbox: seq<Incoming>): Ending
  {
    if inbox == [] then Waiting
    else if inbox[0].StreamFailed? then Crashed
    else if inbox[0].stopped then Stopped
    else if inbox[0].message == Ping(false) then Crashed
    else EndsAs(inbox[1..])
  }

  ghost function AllAttempted(hasMemory: bool, ms: seq<Message>): seq<ResultPayload>
  {
    if ms == [] then [] else AllAttempted(hasMemory, ms[..|ms| - 1]) + EffectsOf(hasMemory, ms[|ms| - 1]).attempted
  }

  ghost function AllPosts(hasMemory: bool, ms: seq<Message>): nat
  {
    if ms == [] then 0 else AllPosts(hasMemory, ms[..|ms| - 1]) + EffectsOf(hasMemory, ms[|ms| - 1]).posts
  }

  /** The loop has routed `done` and stands at the i-th message. */
  ghost predicate Progress(inbox: seq<Incoming>, i: nat, done: seq<Message>)
    requires i <= |inbox|
  {
    Routed(inbox) == done + Routed(inbox[i..]) && EndsAs(inbox) == EndsAs(inbox[i..])
  }

  lemma LoopStep(inbox: seq<Incoming>, i: nat, done: seq<Message>)
    requires i < |inbox| && Progress(inbox, i, done)
    ensures inbox[i].StreamFailed? ==> Routed(inbox) == done && EndsAs(inbox) == Crashed
    ensures inbox[i].Received? && inbox[i].stopped ==> Routed(inbox) == done && EndsAs(inbox) == Stopped
    ensures inbox[i].Received? && !inbox[i].stopped && inbox[i].message == Ping(false) ==>
              Routed(inbox) == done + [inbox[i].message] && EndsAs(inbox) == Crashed
    ensures inbox[i].Received? && !inbox[i].stopped && inbox[i].message != Ping(false) ==>
              Progress(inbox, i + 1, done + [inbox[i].message])
  {
    assert inbox[i..][0] == inbox[i] && inbox[i..][1..] == inbox[i + 1..];
    if inbox[i].StreamFailed? || inbox[i].stopped {
      assert done + [] == done;
    } else if inbox[i].message != Ping(false) {
      assert done + ([inbox[i].message] + Routed(inbox[i + 1..])) ==
          (done + [inbox[i].message]) + Routed(inbox[i + 1..]);
    }
  }

  /** Messages are routed in the order of arrival, each once, from the first on. */
  lemma {:induction false} RoutedIsPrefix(inbox: seq<Incoming>)
    ensures |Routed(inbox)| <= |inbox|
    ensures forall i | 0 <= i < |Routed(inbox)| ::
      inbox[i].Received? && !inbox[i].stopped && inbox[i].message == Routed(inbox)[i]
  {
    if inbox != [] {
      RoutedIsPrefix(inbox[1..]);
    }
  }

  /** Where and how the loop ends: at a failed pong, at an error of the stream, at a stop, or not at all. */
  lemma {:induction false} LoopEnd(inbox: seq<Incoming>)
    ensures
      var ms, n := Routed(inbox), |Routed(inbox)|;
      var pongFailed := n > 0 && ms[n - 1] == Ping(false);
      && (forall i | 0 <= i < n - 1 :: ms[i] != Ping(false))
      && (if pongFailed then n <= |inbox| && EndsAs(inbox) == Crashed
          else if n == |inbox| then EndsAs(inbox) == Waiting
          else
            && n < |inbox| && (inbox[n].StreamFailed? || inbox[n].stopped)
            && EndsAs(inbox) == if inbox[n].StreamFailed? then Crashed else Stopped)
  {
    if inbox != [] && inbox[0].Received? && !inbox[0].stopped && inbox[0].message != Ping(false) {
      LoopEnd(inbox[1..]);
      var rest := Routed(inbox[1..]);
      assert Routed(inbox) == [inbox[0].message] + rest;
    }
  }

  lemma EffectsAdd(hasMemory: bool, ms: seq<Message>, m: Message)
    ensures AllAttempted(hasMemory, ms + [m]) == AllAttempted(hasMemory, ms) + EffectsOf(hasMemory, m).attempted
    ensures AllPosts(hasMemory, ms + [m]) == AllPosts(hasMemory, ms) + EffectsOf(hasMemory, m).posts
  {}

  /** The loop survives every message that is decodable, not a ping it cannot answer, and not received after a stop. */
  lemma {:induction false} LoopSurvives(inbox: seq<Incoming>)
    requires forall i | 0 <= i < |inbox| :: inbox[i].Received? && !inbox[i].stopped && inbox[i].message != Ping(false)
    ensures |Routed(inbox)| == |inbox| && EndsAs(inbox) == Waiting
  {
    if inbox != [] {
      LoopSurvives(inbox[1..]);
    }
  }

  /**
    The notification law. With memory working, a valid decision is answered exactly once if it is a HOLD, or ends
    CONFIRMED or SUBMITTED with a hash, or FAILED with an error; in every other case the researcher hears nothing.
   */
  lemma AnsweredExactlyIf(hasMemory: bool, d: Decision, c: Circumstances)
    requires ValidDecision(d) && (hasMemory ==> forall i :: c.memoryOk(i))
    ensures
      var result := Swap(c.replies);
      var answered :=
        || d.action == Hold
        || (result.status != SwapFailed && Truthy(result.txHash))
        || (result.status == SwapFailed && Truthy(result.error));
      |Handle(hasMemory, Some(d), c).attempted| == if answered then 1 else 0
  {}

  /** What the one result message says. */
  lemma ReportSays(hasMemory: bool, d: Decision, c: Circumstances)
    requires ValidDecision(d) && Handle(hasMemory, Some(d), c).attempted != []
    ensures
      var result := Swap(c.replies);
      Handle(hasMemory, Some(d), c).attempted == [
        if d.action == Hold then ResultPayload(false, None, Some("HOLD: " + d.rejectionReason.value))
        else if result.status == SwapFailed then ResultPayload(false, None, result.error)
        else ResultPayload(true, result.txHash, None)]
  {}

  /**
    A payload that does not validate does nothing. A memory call that fails ends the handling: before the transfer if
    it is the first, after it if it is a later one; and nothing is reported.
   */
  lemma MemoryFailures(hasMemory: bool, payload: Option<Decision>, c: Circumstances)
    ensures payload.None? || !ValidDecision(payload.value) ==> Handle(hasMemory, payload, c) == Effects([], 0, false)
    ensures payload.Some? && ValidDecision(payload.value) && hasMemory ==>
      var e, trade := Handle(hasMemory, payload, c), payload.value.action != Hold;
      && (!c.memoryOk(0) ==> e == Effects([], 0, true))
      && (c.memoryOk(0) && !(c.memoryOk(1) && (trade ==> c.memoryOk(2))) ==>
            e == Effects([], if trade then PostsOf(c.replies) else 0, true))
      && (c.memoryOk(0) && trade ==> e.posts == PostsOf(c.replies))
  {}

  /**
    What the polls and logs of a submitted transfer make of it goes unreported: a hash with a status that is neither
    success nor RUNNING and no error; or no hash at all, unless a status that is neither comes with an error.
   */
  ghost predicate SilentPolls(polls: nat -> Poll, logs: Logs)
  {
    if exists i: nat :: FirstHashAt(polls, i) then
      exists i: nat :: FirstHashAt(polls, i) && !Reportable(polls(i).reply.status) && !Truthy(polls(i).reply.error)
    else
      && (logs.Entries? ==> forall k, h | 0 <= k < |logs.items| :: !Shows(logs.items[k], h))
      && exists n: nat :: StopsAfter(polls, n) && SilentAnswers(polls, n)
  }

  /** None of the n polls was answered, or the last answer is a success or RUNNING, or has no error. */
  ghost predicate SilentAnswers(polls: nat -> Poll, n: nat)
  {
    forall i: nat | LastAnswerAt(polls, n, i) :: Reportable(polls(i).reply.status) || !Truthy(polls(i).reply.error)
  }

  predicate Reportable(status: KhStatus)
  {
    Succeeded(status) || status == Running
  }

  /** With these replies the result of a trade is never reported. */
  ghost predicate Silent(r: Replies)
  {
    match r.quote
    case QuoteRaised(message) => message == "" || Deferred(message)
    case Quoted(_) =>
      r.recipient != "" &&
      match Verdict(r.attempts(PostsMade(r.attempts) - 1))
      case TransferRaised(message) => message == ""
      case Submitted(id) => SilentPolls(r.polls(id), r.logs(id))
  }

  lemma OneFirstHash(polls: nat -> Poll, i: nat, j: nat)
    requires FirstHashAt(polls, i) && FirstHashAt(polls, j)
    ensures i == j
  {
    if i < j {
      assert Decides(polls(i));
    } else if j < i {
      assert Decides(polls(j));
    }
  }

  lemma OneLastAnswer(polls: nat -> Poll, n: nat, i: nat, j: nat)
    requires LastAnswerAt(polls, n, i) && LastAnswerAt(polls, n, j)
    ensures i == j
  {}

  ghost predicate Announced(st: ExecStatus)
  {
    if Reportable(st.status) then Truthy(st.txHash) else Truthy(st.error)
  }

  lemma UnhashedSilentIff(id: string, polls: nat -> Poll, logs: Logs, n: nat)
    requires (forall i: nat :: !FirstHashAt(polls, i)) && StopsAfter(polls, n)
    requires logs.Entries? ==> forall k, h | 0 <= k < |logs.items| :: !Shows(logs.items[k], h)
    ensures SilentAnswers(polls, n) <==> !Announced(Settled(id, polls, logs))
  {
    WithoutPolledHash(id, polls, logs, n);
    var st := Settled(id, polls, logs);
    if i: nat :| LastAnswerAt(polls, n, i) && AsRead(id, polls(i).reply, st) {
      forall j: nat | LastAnswerAt(polls, n, j)
        ensures j == i
      {
        OneLastAnswer(polls, n, i, j);
      }
    }
  }

  /** The result of a submitted transfer can be reported unless its polls and logs are silent. */
  lemma SettledSilentIff(id: string, polls: nat -> Poll, logs: Logs)
    ensures SilentPolls(polls, logs) <==> !Announced(Settled(id, polls, logs))
  {
    if i: nat :| FirstHashAt(polls, i) {
      FirstHashWins(id, polls, logs, i);
      forall j: nat | FirstHashAt(polls, j)
        ensures j == i
      {
        OneFirstHash(polls, i, j);
      }
    } else {
      var n := PollsMade(polls);
      forall m: nat | StopsAfter(polls, m)
        ensures m == n
      {
        StopsOnce(polls, m, n);
      }
      if logs.Entries? && exists k, h :: 0 <= k < |logs.items| && Shows(logs.items[k], h) {
        LoggedIsAnnounced(id, polls, logs);
      } else {
        UnhashedSilentIff(id, polls, logs, n);
      }
    }
  }

  lemma LoggedIsAnnounced(id: string, polls: nat -> Poll, logs: Logs)
    requires (forall i: nat :: !FirstHashAt(polls, i)) && logs.Entries?
    requires exists k, h :: 0 <= k < |logs.items| && Shows(logs.items[k], h)
    ensures Announced(Settled(id, polls, logs))
  {
    FirstLogHashIff(logs.items, "");
    var h := FirstLogHash(logs.items).value;
    FirstLogHashIff(logs.items, h);
    var k: nat :| FirstShown(logs.items, k, h);
    WithoutPolledHash(id, polls, logs, PollsMade(polls));
  }

  /** Which trades go unanswered, in terms of what the outside world replies. */
  lemma UnansweredIff(hasMemory: bool, d: Decision, c: Circumstances)
    requires ValidDecision(d) && d.action != Hold && (hasMemory ==> forall i :: c.memoryOk(i))
    ensures Handle(hasMemory, Some(d), c).attempted == [] <==> Silent(c.replies)
  {
    var r := c.replies;
    if r.quote.QuoteRaised? {
      FailedQuote(r);
    } else if r.recipient != "" {
      var transfer := Verdict(r.attempts(PostsMade(r.attempts) - 1));
      if transfer.Submitted? {
        SettledSilentIff(transfer.executionId, r.polls(transfer.executionId), r.logs(transfer.executionId));
      }
    }
  }

  /** A transfer that shows its hash while still PENDING counts as failed, and nobody is told. */
  lemma PendingHashIsSilent(hasMemory: bool, d: Decision, c: Circumstances, id: string, i: nat)
    requires ValidDecision(d) && d.action != Hold && (hasMemory ==> forall i :: c.memoryOk(i))
    requires c.replies.quote.Quoted? && c.replies.recipient != "" && c.replies.attempts(0) == Accepted(id)
    requires FirstHashAt(c.replies.polls(id), i)
    requires var reply := c.replies.polls(id)(i).reply; reply.status == Pending && reply.error == None
    ensures Handle(hasMemory, Some(d), c).attempted == [] && Handle(hasMemory, Some(d), c).posts == 1
    ensures Swap(c.replies).status == SwapFailed && Swap(c.replies).txHash == c.replies.polls(id)(i).reply.txHash
  {
    FirstHashWins(id, c.replies.polls(id), c.replies.logs(id), i);
    assert !Truthy(c.replies.polls(id)(i).reply.error);
    assert SilentPolls(c.replies.polls(id), c.replies.logs(id));
    UnansweredIff(hasMemory, d, c);
  }

  /** A decision the researcher never hears about: the transfer goes out and every poll says pending. */
  lemma SilentExecution(hasMemory: bool, d: Decision, id: string) returns (c: Circumstances)
    requires ValidDecision(d) && d.action != Hold
    ensures Handle(hasMemory, Some(d), c).posts == 1
    ensures Handle(hasMemory, Some(d), c).attempted == []
    ensures Swap(c.replies).status == SwapFailed && Swap(c.replies).error == None
  {
    var pending := StatusReply(Pending, None, None, None, None, None);
    var replies := Replies(Quoted(None), "0xkeeper", (_: nat) => Accepted(id),
        (_: string) => (_: nat) => Replied(pending), (_: string) => LogsRaised);
    c := Circumstances((_: nat) => true, replies, true);
    var polls := replies.polls(id);
    LastReplyWasGiven(polls, PollsMade(polls));
    var last := LastReply(polls, PollsMade(polls));
    assert polls(0) == Replied(pending);
    assert last == Some(pending);
    assert Settled(id, polls, LogsRaised).status == Pending;
  }

  // ---- Whole runs of the gate ----

  /** One handling of a decision by the executor, and the POSTs it made. */
  datatype Delivery = Delivery(decision: Decision, posts: nat)

  /**
    The network between the risk agent and the executor: every decision ever sent (a message may be lost, late or
    delivered repeatedly), and every delivery so far.
   */
  datatype Net = Net(inFlight: seq<Decision>, deliveries: seq<Delivery>)

  datatype NetEvent =
    | SignalArrives(signal: Signal, reply: ModelReply, riskMemoryOk: bool)
    | Deliver(k: nat, c: Circumstances)

  ghost function NetStep(hasMemory: bool, net: Net, e: NetEvent): Net
  {
    match e
    case SignalArrives(signal, reply, memoryOk) =>
      if memoryOk && Scored(signal, reply).Some? then net.(inFlight := net.inFlight + [Scored(signal, reply).value])
          else net
    case Deliver(k, c) =>
      if k >= |net.inFlight| then net
      else
        var d := net.inFlight[k];
        net.(deliveries := net.deliveries + [Delivery(d, Handle(hasMemory, Some(d), c).posts)])
  }

  ghost function NetRun(hasMemory: bool, events: seq<NetEvent>): Net
  {
    if events == [] then Net([], [])
    else NetStep(hasMemory, NetRun(hasMemory, events[..|events| - 1]), events[|events| - 1])
  }

  ghost predicate GatePassed(d: Decision)
  {
    d.action != Hold && d.amountInWei > 0 && 0.0 <= d.riskScore < 7.0
  }

  function TotalPosts(ds: seq<Delivery>): nat
  {
    if ds == [] then 0 else TotalPosts(ds[..|ds| - 1]) + ds[|ds| - 1].posts
  }

  function TradesDelivered(ds: seq<Delivery>): nat
  {
    if ds == [] then 0 else TradesDelivered(ds[..|ds| - 1]) + if ds[|ds| - 1].decision.action == Hold then 0 else 1
  }

  /**
    The delivery is of a decision that was sent, and it made POSTs, at most three, only if that decision is a trade
    past the gate.
   */
  ghost predicate Gated(net: Net, x: Delivery)
  {
    x.decision in net.inFlight && x.posts <= 3 && (x.posts > 0 ==> GatePassed(x.decision))
  }

  ghost predicate GateInv(net: Net)
  {
    && (forall d | d in net.inFlight :: ValidDecision(d) && (d.action != Hold ==> GatePassed(d)))
    && (forall x | x in net.deliveries :: Gated(net, x))
  }

  lemma DeliveryKeepsGate(hasMemory: bool, net: Net, k: nat, c: Circumstances)
    requires GateInv(net)
    ensures GateInv(NetStep(hasMemory, net, Deliver(k, c)))
  {
    if k < |net.inFlight| {
      var d := net.inFlight[k];
      assert Gated(net, Delivery(d, Handle(hasMemory, Some(d), c).posts));
    }
  }

  lemma {:induction false} PostsCounted(net: Net, ds: seq<Delivery>)
    requires forall x | x in ds :: Gated(net, x)
    ensures TotalPosts(ds) <= 3 * TradesDelivered(ds)
  {
    if ds != [] {
      assert ds[|ds| - 1] in ds;
      PostsCounted(net, ds[..|ds| - 1]);
    }
  }

  /**
    Gate safety. Whatever the signals, the model's replies and the order, loss and duplication of messages: every
    delivery that makes a transfer is of a buy or sell of a positive amount scored below 7, so a HOLD makes none,
    and there are at most three POSTs for each delivery of a trade.
   */
  lemma {:induction false} GateSafety(hasMemory: bool, events: seq<NetEvent>)
    ensures GateInv(NetRun(hasMemory, events))
    ensures TotalPosts(NetRun(hasMemory, events).deliveries) <= 3 * TradesDelivered(NetRun(hasMemory,
            events).deliveries)
  {
    if events != [] {
      var e := events[|events| - 1];
      GateSafety(hasMemory, events[..|events| - 1]);
      if e.SignalArrives? {
        GateHolds(e.signal, e.reply);
      } else {
        DeliveryKeepsGate(hasMemory, NetRun(hasMemory, events[..|events| - 1]), e.k, e.c);
      }
    }
    PostsCounted(NetRun(hasMemory, events), NetRun(hasMemory, events).deliveries);
  }

  /** One step after another. */
  lemma NetRunStep(hasMemory: bool, events: seq<NetEvent>, e: NetEvent)
    ensures NetRun(hasMemory, events + [e]) == NetStep(hasMemory, NetRun(hasMemory, events), e)
  {
    assert (events + [e])[..|events|] == events;
  }

  /** And the gate is open to what may pass: such a trade, signalled and delivered, makes its POSTs. */
  lemma GateIsOpen(hasMemory: bool, signal: Signal, reply: ModelReply, c: Circumstances)
    requires Sound(signal, reply) && LowRisk(reply) && (Asks(reply, "buy") || Asks(reply, "sell"))
    requires hasMemory ==> c.memoryOk(0)
    ensures Scored(signal, reply).Some?
    ensures NetRun(hasMemory, [] + [SignalArrives(signal, reply, true)] + [Deliver(0, c)]) ==
            Net([Scored(signal, reply).value], [Delivery(Scored(signal, reply).value, PostsOf(c.replies))])
  {
    TradesExactlyIf(signal, reply);
    NetRunStep(hasMemory, [], SignalArrives(signal, reply, true));
    NetRunStep(hasMemory, [] + [SignalArrives(signal, reply, true)], Deliver(0, c));
    DeliveredPosts(hasMemory, Scored(signal, reply).value, c);
  }

  lemma DeliveredPosts(hasMemory: bool, d: Decision, c: Circumstances)
    requires ValidDecision(d) && d.action != Hold && (hasMemory ==> c.memoryOk(0))
    ensures Handle(hasMemory, Some(d), c).posts == PostsOf(c.replies)
  {}
}
