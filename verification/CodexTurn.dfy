/**
 The message loop of a Codex App Server turn with client tools: agent/codex_app_server.py,
 from the settings it reads after turn/start to the end of the turn.

 The stream is arbitrary.  With each message come the answers the loop gets while it handles it:
 the clock, the reply of `publish_call`, how the wait for `take_result` ended, and how many writes
 to the server's stdin still succeed.
 */
module CodexTurn {
  import opened Wrappers
  import opened Json
  import opened TurnLaw
  import Handoff = ToolHandoff

  const INTERRUPT_ID := 1000

  /** A frame is a message, or one that `_read_message` refuses, or one nested too deeply for
      `json.loads`, whose RecursionError nobody catches. */
  datatype Frame = Line(message: Message) | Unreadable | TooDeep

  datatype Input = Input(
    now: real, wait: real, frame: Frame, publish: Offered, take: Wait, sends: nat)

  datatype Config = Config(threadId: string, terms: Terms)

  /** The loop's variables. */
  datatype Turn = Turn(
    turnId: Option<string>,
    turnRequest: int,
    oldRequests: set<int>,
    finalText: string,
    calls: nat,
    rejected: nat,
    remindersLeft: nat,
    seenRequests: set<Json>,
    seenCalls: set<CallId>,
    usage: Message,
    stopDeadline: Option<real>,
    confirmed: bool)

  function Opening(c: Config): Turn {
    Turn(None, 3, {}, "", 0, 0, c.terms.reminders, {}, {}, map[], None, false)
  }

  predicate IsResponse(m: Message, expected: int) {
    Get(m, "id") == Num(expected) && "method" !in m
  }

  function TurnJson(st: Turn): Json {
    if st.turnId.None? then Null else Str(st.turnId.value)
  }

  predicate Counted(usage: Message, name: string) {
    Get(usage, name).Num? && Get(usage, name).n >= 0
  }

  predicate HasUsage(usage: Message) {
    Counted(usage, "inputTokens") || Counted(usage, "outputTokens") || Counted(usage, "totalTokens")
    || Counted(usage, "cachedInputTokens") || Counted(usage, "reasoningOutputTokens")
  }

  // ---------------------------------------------------------------- the loop's variables

  function Params(m: Message): Json {
    Get(m, "params")
  }

  /** A tool call of this turn, well identified, before its request id is looked up. */
  predicate Identified(c: Config, st: Turn, m: Message) {
    && st.stopDeadline.None? && "id" in m && Get(m, "method") == Str("item/tool/call") && Dict(Params(m))
    && In(Params(m), "threadId") == Str(c.threadId) && In(Params(m), "turnId") == TurnJson(st)
    && In(Params(m), "namespace") == Null && In(Params(m), "tool").Str? && In(Params(m), "callId").Str?
  }

  /** Python keeps True and 1, False and 0 as one member of a set. */
  function RequestKey(id: Json): Json {
    if id.Bool? then Num(if id.b then 1 else 0) else id
  }

  /** The call `publish_call` is asked to offer: a new one. */
  function Asks(c: Config, st: Turn, m: Message): Option<Request> {
    if !Identified(c, st, m) || !Hashable(m["id"]) then None
    else
      var id := Named(In(Params(m), "callId").s);
      if RequestKey(m["id"]) in st.seenRequests || id in st.seenCalls then None
      else Some(Request(id, In(Params(m), "tool").s))
  }

  predicate HasArguments(m: Message) {
    Params(m).Obj? && "arguments" in Params(m).fields
  }

  function AwaitFate(st: Turn, i: Input): Fate<Turn> {
    match i.take
    case WaitStale => Ends(Stale)
    case WaitRaised => Ends(Crashed)
    case Got(answer) =>
      if !answer.terminal then if i.sends >= 1 then GoesOn(st) else Ends(Finished)
      else if i.sends >= 2 then GoesOn(st.(stopDeadline := Some(i.now + TERMINAL_STOP_S)))
      else Ends(Finished)
    case _ => Ends(Finished)
  }

  function OfferFate(c: Config, st: Turn, i: Input, id: CallId, hasArguments: bool): Fate<Turn> {
    var st := st.(seenCalls := st.seenCalls + {id});
    match i.publish
    case OfferRaised => Ends(Crashed)
    case Replied(PublishStale) => Ends(Stale)
    case Replied(PublishConflict) => Ends(Finished)
    case Replied(InvalidArguments) =>
      if st.rejected < c.terms.argRetries && i.sends >= 1 then GoesOn(st.(rejected := st.rejected + 1))
          else Ends(Finished)
    case Replied(Published) =>
      if hasArguments then AwaitFate(st.(calls := st.calls + 1), i) else Ends(Crashed)
  }

  function CallFate(c: Config, st: Turn, i: Input, m: Message): Fate<Turn> {
    if st.stopDeadline.Some? || "id" !in m then Ends(Finished)
    else if !Dict(Params(m)) then Ends(Crashed)
    else if !Identified(c, st, m) then Ends(Finished)
    else if !Hashable(m["id"]) then Ends(Crashed)
    else
      match Asks(c, st, m)
      case None => Ends(Finished)
      case Some(r) =>
        OfferFate(c, st.(seenRequests := st.seenRequests + {RequestKey(m["id"])}), i, r.id, HasArguments(m))
  }

  function CompletedFate(c: Config, st: Turn, i: Input, m: Message): Fate<Turn> {
    var turn := In(Params(m), "turn");
    if !Dict(Params(m)) then Ends(Crashed)
    else if In(Params(m), "threadId") !in {Null, Str(c.threadId)} then Ends(Finished)
    else if !Dict(turn) then Ends(Crashed)
    else if In(turn, "id") == TurnJson(st) && In(turn, "status") == Str("completed")
            && st.stopDeadline.None? && st.calls == 0 && c.terms.required && st.remindersLeft > 0 && i.sends > 0 then
      GoesOn(st.(remindersLeft := st.remindersLeft - 1, oldRequests := st.oldRequests + {st.turnRequest},
                 turnRequest := st.turnRequest + 1, turnId := None))
    else Ends(Finished)
  }

  function NotificationFate(c: Config, st: Turn, i: Input, m: Message): Fate<Turn> {
    var kind, params := Get(m, "method"), Params(m);
    if kind == Str("model/rerouted") then Ends(if Dict(params) then Finished else Crashed)
    else if kind == Str("thread/tokenUsage/updated") then
      if !Dict(params) then Ends(Crashed)
      else if In(params, "threadId") != Str(c.threadId) || In(params, "turnId") != TurnJson(st) then Ends(Finished)
      else if !Dict(In(params, "tokenUsage")) then Ends(Crashed)
      else
        var observed := In(In(params, "tokenUsage"), "total");
        GoesOn(if observed.Obj? then st.(usage := observed.fields) else st)
    else if kind == Str("item/completed") then
      var item := In(params, "item");
      if !Dict(params) then Ends(Crashed)
      else if In(params, "threadId") !in {Null, Str(c.threadId)} || In(params, "turnId") !in {Null, TurnJson(st)} then
        Ends(Finished)
      else if !Dict(item) then Ends(Crashed)
      else if In(item, "type") == Str("agentMessage") && st.stopDeadline.None? then
        GoesOn(st.(finalText := Text(In(item, "text"))))
      else GoesOn(st)
    else if kind == Str("turn/completed") then CompletedFate(c, st, i, m)
    else GoesOn(st)
  }

  /** A reply to one of our own requests. */
  predicate IsReply(st: Turn, m: Message) {
    || IsResponse(m, INTERRUPT_ID) || IsResponse(m, st.turnRequest)
    || exists k :: k in st.oldRequests && IsResponse(m, k)
  }

  function ReplyFate(st: Turn, m: Message): Fate<Turn> {
    var result := Get(m, "result");
    if IsResponse(m, INTERRUPT_ID) then
      if IsInterruptReply(st, m) then GoesOn(st.(confirmed := true)) else Ends(Finished)
    else if exists k :: k in st.oldRequests && IsResponse(m, k) then Ends(Finished)
    else if st.turnId.Some? || Truthy(Get(m, "error")) then Ends(Finished)
    else if !Dict(result) || !Dict(In(result, "turn")) then Ends(Crashed)
    else
      var id := In(In(result, "turn"), "id");
      if id.Str? && id.s != "" then GoesOn(st.(turnId := Some(id.s))) else Ends(Finished)
  }

  function MessageFate(c: Config, st: Turn, i: Input, m: Message): Fate<Turn> {
    if IsReply(st, m) then ReplyFate(st, m)
    else if Get(m, "method") == Str("item/tool/call") then CallFate(c, st, i, m)
    else if "id" in m && Truthy(Get(m, "method")) then Ends(Finished)
    else NotificationFate(c, st, i, m)
  }

  predicate InTime(st: Turn, i: Input) {
    st.stopDeadline.Some? ==> 0.0 < st.stopDeadline.value - i.now && i.wait <= st.stopDeadline.value - i.now
  }

  /** What one input does to the loop, apart from its acts. */
  function InputFate(c: Config, st: Turn, i: Input): Fate<Turn> {
    if !InTime(st, i) then Ends(Finished)
    else
      match i.frame
      case Unreadable => Ends(Finished)
      case TooDeep => Ends(Crashed)
      case Line(m) => MessageFate(c, st, i, m)
  }

  function Reading(c: Config): (Turn, Input) -> Fate<Turn> {
    (st, i) => InputFate(c, st, i)
  }

  // ---------------------------------------------------------------- when an error escapes

  predicate ReplyRaises(st: Turn, m: Message) {
    && IsResponse(m, st.turnRequest) && st.turnRequest != INTERRUPT_ID && st.turnRequest !in st.oldRequests
    && st.turnId.None? && !Truthy(Get(m, "error"))
    && !(Dict(Get(m, "result")) && Dict(In(Get(m, "result"), "turn")))
  }

  predicate CallRaises(c: Config, st: Turn, i: Input, m: Message) {
    && Get(m, "method") == Str("item/tool/call") && st.stopDeadline.None? && "id" in m
    && (|| !Dict(Params(m))
        || (Identified(c, st, m) && !Hashable(m["id"]))
        || (Asks(c, st, m).Some?
            && (i.publish == OfferRaised
                || (i.publish == Replied(Handoff.Published) && (!HasArguments(m) || i.take == WaitRaised)))))
  }

  predicate NotificationRaises(c: Config, st: Turn, m: Message) {
    var kind, params := Get(m, "method"), Params(m);
    && "id" !in m
    && kind in {Str("model/rerouted"), Str("thread/tokenUsage/updated"), Str("item/completed"), Str("turn/completed")}
    && (|| !Dict(params)
        || (kind == Str("thread/tokenUsage/updated") && !Dict(In(params, "tokenUsage"))
            && In(params, "threadId") == Str(c.threadId) && In(params, "turnId") == TurnJson(st))
        || (kind == Str("item/completed") && !Dict(In(params, "item"))
            && In(params, "threadId") in {Null, Str(c.threadId)} && In(params, "turnId") in {Null, TurnJson(st)})
        || (kind == Str("turn/completed") && !Dict(In(params, "turn"))
            && In(params, "threadId") in {Null, Str(c.threadId)}))
  }

  /** Python raises an error the loop does not catch: a value of the wrong type where the message is
      read, an id no set can hold, a published call without arguments, or a failing database. */
  predicate Escapes(c: Config, st: Turn, i: Input) {
    && InTime(st, i)
    && match i.frame
       case Unreadable => false
       case TooDeep => true
       case Line(m) => ReplyRaises(st, m) || CallRaises(c, st, i, m) || NotificationRaises(c, st, m)
  }

  predicate LosesLease(c: Config, st: Turn, i: Input) {
    && InTime(st, i) && i.frame.Line? && Asks(c, st, i.frame.message).Some?
    && (i.publish == Replied(Handoff.PublishStale)
        || (i.publish == Replied(Handoff.Published) && HasArguments(i.frame.message) && i.take == WaitStale))
  }

  lemma ReplyRaisesIff(st: Turn, m: Message)
    requires IsReply(st, m)
    ensures ReplyFate(st, m) == Ends(Crashed) <==> ReplyRaises(st, m)
    ensures ReplyFate(st, m) != Ends(Stale)
  {
  }

  lemma CallRaisesIff(c: Config, st: Turn, i: Input, m: Message)
    requires Get(m, "method") == Str("item/tool/call")
    ensures CallFate(c, st, i, m) == Ends(Crashed) <==> CallRaises(c, st, i, m)
    ensures CallFate(c, st, i, m) == Ends(Stale) <==>
      Asks(c, st, m).Some? &&
      (i.publish == Replied(Handoff.PublishStale)
       || (i.publish == Replied(Handoff.Published) && HasArguments(m) && i.take == WaitStale))
  {
  }

  lemma NotificationRaisesIff(c: Config, st: Turn, i: Input, m: Message)
    requires "id" !in m || !Truthy(Get(m, "method"))
    ensures NotificationFate(c, st, i, m) == Ends(Crashed) <==> NotificationRaises(c, st, m)
    ensures NotificationFate(c, st, i, m) != Ends(Stale)
  {
  }

  /** The exact condition, for every state and input. */
  lemma EscapesIff(c: Config, st: Turn, i: Input)
    ensures InputFate(c, st, i) == Ends(Crashed) <==> Escapes(c, st, i)
    ensures InputFate(c, st, i) == Ends(Stale) <==> LosesLease(c, st, i)
  {
    if InTime(st, i) && i.frame.Line? {
      var m := i.frame.message;
      if IsReply(st, m) {
        ReplyRaisesIff(st, m);
      } else if Get(m, "method") == Str("item/tool/call") {
        CallRaisesIff(c, st, i, m);
      } else if "id" !in m || !Truthy(Get(m, "method")) {
        NotificationRaisesIff(c, st, i, m);
      }
    }
  }

  /** The loop's variables when it handles input `n`; None: the turn was over before. */
  function StateAt(c: Config, inputs: seq<Input>, n: nat): Option<Turn>
    requires n < |inputs|
  {
    Reached(Reading(c), Opening(c), inputs, n)
  }

  /** A turn crashes, or stops for a lost lease, exactly when an input it reaches does that. */
  lemma TurnEndsIff(c: Config, inputs: seq<Input>)
    ensures EndOf(Reading(c), Opening(c), inputs) == Crashed <==>
      exists n ::
        && 0 <= n < |inputs| && StateAt(c, inputs, n).Some?
        && Escapes(c, StateAt(c, inputs, n).value, inputs[n])
    ensures EndOf(Reading(c), Opening(c), inputs) == Stale <==>
      exists n ::
        && 0 <= n < |inputs| && StateAt(c, inputs, n).Some?
        && LosesLease(c, StateAt(c, inputs, n).value, inputs[n])
  {
    EndsSoIff(Reading(c), Opening(c), inputs, Crashed);
    EndsSoIff(Reading(c), Opening(c), inputs, Stale);
    forall n | 0 <= n < |inputs|
      ensures EndsAt(Reading(c), Opening(c), inputs, n, Crashed) <==>
        StateAt(c, inputs, n).Some? && Escapes(c, StateAt(c, inputs, n).value, inputs[n])
      ensures EndsAt(Reading(c), Opening(c), inputs, n, Stale) <==>
        StateAt(c, inputs, n).Some? && LosesLease(c, StateAt(c, inputs, n).value, inputs[n])
    {
      var st := StateAt(c, inputs, n);
      if st.Some? {
        EscapesIff(c, st.value, inputs[n]);
      }
    }
  }

  /** One line of JSON is enough. */
  lemma MalformedCompletionCrashes(c: Config, i: Input)
    requires i.frame == Line(map["method" := Str("turn/completed"), "params" := Num(1)])
    ensures EndOf(Reading(c), Opening(c), [i]) == Crashed
  {
    EscapesIff(c, Opening(c), i);
  }

  // ---------------------------------------------------------------- the loop's acts

  function AwaitActs(i: Input, id: CallId): seq<Act> {
    match i.take
    case WaitStale => []
    case WaitRaised => []
    case WaitCancelled => [Yield(RunCancelled)]
    case Got(a) =>
      if i.sends == 0 then [Yield(RunFailed)]
      else
        [Answer(id, a), Yield(ToolResult(id, a.success))]
        + if !a.terminal then [] else if i.sends == 1 then [Yield(RunFailed)] else [Interrupt]
    case _ => [Yield(RunFailed)]
  }

  function OfferActs(c: Config, st: Turn, i: Input, id: CallId, tool: string, hasArguments: bool): seq<Act> {
    match i.publish
    case OfferRaised => []
    case Replied(PublishStale) => []
    case Replied(PublishConflict) => [Yield(RunFailed)]
    case Replied(InvalidArguments) =>
      if st.rejected >= c.terms.argRetries || i.sends == 0 then [Yield(RunFailed)]
      else [Reject(id), Yield(ToolResult(id, false))]
    case Replied(Published) =>
      if hasArguments then [Publish(id, tool), Yield(ToolCall(id))] + AwaitActs(i, id) else [Publish(id, tool)]
  }

  function ReplyActs(st: Turn, m: Message): seq<Act> {
    if ReplyFate(st, m) == Ends(Finished) then [Yield(RunFailed)]
    else if IsResponse(m, INTERRUPT_ID) then [Confirm] else []
  }

  /** Ending badly is one `run.failed`. */
  function FailActs(f: Fate<Turn>): seq<Act> {
    if f == Ends(Finished) then [Yield(RunFailed)] else []
  }

  function CallActs(c: Config, st: Turn, i: Input, m: Message): seq<Act> {
    match Asks(c, st, m)
    case Some(r) => OfferActs(c, st, i, r.id, r.tool, HasArguments(m))
    case None => FailActs(CallFate(c, st, i, m))
  }

  /** `turn/completed` of this turn, allowed now: the required tool was called, or the interrupt
      confirmed. */
  predicate Completes(c: Config, st: Turn, m: Message) {
    var turn := In(Params(m), "turn");
    && Dict(Params(m)) && In(Params(m), "threadId") in {Null, Str(c.threadId)}
    && Dict(turn) && In(turn, "id") == TurnJson(st)
    && (if st.stopDeadline.Some? then st.confirmed && In(turn, "status") in {Str("completed"), Str("interrupted")}
        else In(turn, "status") == Str("completed") && (c.terms.required ==> st.calls > 0))
  }

  /** After a terminal result the answer is empty. */
  function AnswerText(st: Turn): string {
    if st.stopDeadline.Some? then "" else st.finalText
  }

  function CompletedActs(c: Config, st: Turn, i: Input, m: Message): seq<Act> {
    if Completes(c, st, m) then
      (if HasUsage(st.usage) then [Yield(Usage)] else []) + [Yield(RunCompleted(AnswerText(st)))]
    else if CompletedFate(c, st, i, m).GoesOn? then [Remind]
    else FailActs(CompletedFate(c, st, i, m))
  }

  function NotificationActs(c: Config, st: Turn, i: Input, m: Message): seq<Act> {
    var kind, params := Get(m, "method"), Params(m);
    if kind == Str("turn/completed") then CompletedActs(c, st, i, m)
    else if kind == Str("model/rerouted") && In(params, "threadId") == Str(c.threadId)
        && In(params, "turnId") == TurnJson(st)
            && In(params, "fromModel").Str? && In(params, "toModel").Str? then
      [Yield(ModelRerouted), Yield(RunFailed)]
    else FailActs(NotificationFate(c, st, i, m))
  }

  function MessageActs(c: Config, st: Turn, i: Input, m: Message): seq<Act> {
    if IsReply(st, m) then ReplyActs(st, m)
    else if Get(m, "method") == Str("item/tool/call") then CallActs(c, st, i, m)
    else if "id" in m && Truthy(Get(m, "method")) then [Yield(RunFailed)]
    else NotificationActs(c, st, i, m)
  }

  function InputActs(c: Config, st: Turn, i: Input): seq<Act> {
    if InTime(st, i) && i.frame.Line? then MessageActs(c, st, i, i.frame.message) else FailActs(InputFate(c, st, i))
  }

  function Writing(c: Config): (Turn, Input) -> seq<Act> {
    (st, i) => InputActs(c, st, i)
  }

  function DriedUp(c: Config): Turn -> seq<Act> {
    _ => [Yield(RunFailed)]
  }

  /** The acts of the turn from `st` on; a stream that dries up is a failure. */
  function TurnActs(c: Config, st: Turn, inputs: seq<Input>): seq<Act> {
    ActsOf(Reading(c), Writing(c), DriedUp(c), st, inputs)
  }

  lemma OfferFaithful(c: Config, st: Turn, i: Input, r: Request, hasArguments: bool)
    ensures Faithful(OfferActs(c, st, i, r.id, r.tool, hasArguments), r, i.publish, i.take)
  {
  }

  lemma NotificationSilent(c: Config, st: Turn, i: Input, m: Message)
    ensures Silent(NotificationActs(c, st, i, m)) && Silent(ReplyActs(st, m)) && Silent(FailActs(CallFate(c, st, i, m)))
  {
  }

  lemma MessageAnswers(c: Config, st: Turn, i: Input, m: Message)
    ensures match Asks(c, st, m)
      case None => Silent(MessageActs(c, st, i, m))
      case Some(r) => Faithful(MessageActs(c, st, i, m), r, i.publish, i.take)
  {
    NotificationSilent(c, st, i, m);
    match Asks(c, st, m)
    case None =>
    case Some(r) =>
      OfferFaithful(c, st, i, r, HasArguments(m));
      assert MessageActs(c, st, i, m) == CallActs(c, st, i, m);
  }

  /** The call this input makes the loop offer. */
  function AsksNow(c: Config): (Turn, Input) -> Option<Request> {
    (st, i) => if InTime(st, i) && i.frame.Line? then Asks(c, st, i.frame.message) else None
  }

  /** What one input says about the calls it publishes and answers. */
  lemma InputAnswers(c: Config, st: Turn, i: Input)
    ensures match AsksNow(c)(st, i)
      case None => Silent(Writing(c)(st, i))
      case Some(r) => Faithful(Writing(c)(st, i), r, i.publish, i.take)
  {
    if InTime(st, i) && i.frame.Line? {
      MessageAnswers(c, st, i, i.frame.message);
    }
  }

  // ---------------------------------------------------------------- messages that raise in no state

  /** Objects where objects are expected, an id a set can hold, a call that has arguments: what a
      peer can check before it sends. */
  predicate WellShaped(m: Message) {
    var params, result := Get(m, "params"), Get(m, "result");
    && Dict(params) && Dict(result) && Dict(In(result, "turn"))
    && Dict(In(params, "turn")) && Dict(In(params, "item")) && Dict(In(params, "tokenUsage"))
    && Hashable(Get(m, "id"))
    && (Get(m, "method") == Str("item/tool/call") && params.Obj? ==> "arguments" in params.fields)
  }

  predicate Clean(i: Input) {
    && (i.frame.Line? ==> WellShaped(i.frame.message)) && !i.frame.TooDeep?
    && i.publish != OfferRaised && i.take != WaitRaised
    && i.publish != Replied(Handoff.PublishStale) && i.take != WaitStale
  }

  lemma CleanGoesOn(c: Config, st: Turn, i: Input)
    requires Clean(i)
    ensures !Escapes(c, st, i) && !LosesLease(c, st, i)
  {
  }

  lemma CleanEnds(c: Config, inputs: seq<Input>)
    requires forall k :: 0 <= k < |inputs| ==> Clean(inputs[k])
    ensures EndOf(Reading(c), Opening(c), inputs) == Finished
  {
    TurnEndsIff(c, inputs);
    forall n, st | 0 <= n < |inputs|
      ensures !Escapes(c, st, inputs[n]) && !LosesLease(c, st, inputs[n])
    {
      CleanGoesOn(c, st, inputs[n]);
    }
  }

  // ---------------------------------------------------------------- a server that plays by the protocol

  /** A call of this turn with a new request id and call id; the client is offered it and answers. */
  ghost predicate IsCall(c: Config, st: Turn, i: Input, m: Message) {
    && Asks(c, st, m).Some? && HasArguments(m)
    && i.publish == Replied(Handoff.Published) && i.take.Got? && i.sends >= 2
  }

  ghost predicate IsTurnReply(st: Turn, m: Message) {
    var turn := In(Get(m, "result"), "turn");
    && IsResponse(m, st.turnRequest) && st.turnRequest != INTERRUPT_ID && st.turnRequest !in st.oldRequests
    && st.turnId.None? && !Truthy(Get(m, "error")) && turn.Obj? && In(turn, "id").Str? && In(turn, "id").s != ""
  }

  predicate IsInterruptReply(st: Turn, m: Message) {
    IsResponse(m, INTERRUPT_ID) && st.stopDeadline.Some? && "result" in m && "error" !in m && !st.confirmed
  }

  ghost predicate OfThisTurn(c: Config, st: Turn, m: Message, kind: string) {
    var params := Get(m, "params");
    && "id" !in m && Get(m, "method") == Str(kind) && params.Obj?
    && (In(params, "threadId") == Null || In(params, "threadId") == Str(c.threadId))
  }

  /** Assistant text of this turn, before any terminal result. */
  ghost predicate IsText(c: Config, st: Turn, m: Message) {
    var params := Get(m, "params");
    && OfThisTurn(c, st, m, "item/completed") && st.stopDeadline.None?
    && (In(params, "turnId") == Null || In(params, "turnId") == TurnJson(st))
    && In(params, "item").Obj? && In(In(params, "item"), "type") == Str("agentMessage")
  }

  ghost predicate IsEnd(c: Config, st: Turn, m: Message) {
    "id" !in m && Get(m, "method") == Str("turn/completed") && Completes(c, st, m)
  }

  ghost predicate Welcome(c: Config, st: Turn, i: Input) {
    && InTime(st, i) && i.frame.Line?
    && var m := i.frame.message;
      IsCall(c, st, i, m) || IsTurnReply(st, m) || IsInterruptReply(st, m) || IsText(c, st, m)
  }

  /** The turn after a welcome message. */
  ghost function Heard(c: Config, st: Turn, i: Input): Turn
    requires Welcome(c, st, i)
  {
    var m := i.frame.message;
    if IsCall(c, st, i, m) then
      var id := Named(In(Get(m, "params"), "callId").s);
      st.(seenRequests := st.seenRequests + {RequestKey(m["id"])}, seenCalls := st.seenCalls + {id},
          calls := st.calls + 1,
          stopDeadline := if i.take.answer.terminal then Some(i.now + TERMINAL_STOP_S) else None)
    else if IsTurnReply(st, m) then st.(turnId := Some(In(In(Get(m, "result"), "turn"), "id").s))
    else if IsInterruptReply(st, m) then st.(confirmed := true)
    else st.(finalText := Text(In(In(Get(m, "params"), "item"), "text")))
  }

  lemma WelcomeGoesOn(c: Config, st: Turn, i: Input)
    requires Welcome(c, st, i)
    ensures InputFate(c, st, i) == GoesOn(Heard(c, st, i))
  {
  }

  ghost predicate Cooperative(c: Config, st: Turn, inputs: seq<Input>)
    decreases |inputs|
  {
    && inputs != []
    && var i := inputs[0];
      if |inputs| == 1 then InTime(st, i) && i.frame.Line? && IsEnd(c, st, i.frame.message)
      else Welcome(c, st, i) && Cooperative(c, Heard(c, st, i), inputs[1..])
  }

  /** The answer such a conversation ends with: its last text, nothing after a terminal result. */
  ghost function LastText(c: Config, st: Turn, inputs: seq<Input>): string
    requires Cooperative(c, st, inputs)
    decreases |inputs|
  {
    if |inputs| > 1 then LastText(c, Heard(c, st, inputs[0]), inputs[1..]) else AnswerText(st)
  }

  /** Such a conversation completes, with its answer. */
  lemma {:induction false} CooperativeCompletes(c: Config, st: Turn, inputs: seq<Input>)
    requires Cooperative(c, st, inputs)
    ensures EndOf(Reading(c), st, inputs) == Finished
    ensures var acts := TurnActs(c, st, inputs);
      acts != [] && acts[|acts| - 1] == Yield(RunCompleted(LastText(c, st, inputs)))
    decreases |inputs|
  {
    if |inputs| > 1 {
      WelcomeGoesOn(c, st, inputs[0]);
      CooperativeCompletes(c, Heard(c, st, inputs[0]), inputs[1..]);
    } else {
      EndCompletes(c, st, inputs[0]);
    }
  }

  lemma EndCompletes(c: Config, st: Turn, i: Input)
    requires InTime(st, i) && i.frame.Line? && IsEnd(c, st, i.frame.message)
    ensures InputFate(c, st, i) == Ends(Finished)
    ensures var acts := InputActs(c, st, i); acts != [] && acts[|acts| - 1] == Yield(RunCompleted(AnswerText(st)))
  {
  }

  // ---------------------------------------------------------------- the invariant

  /** The turn so far is lawful, and the loop's variables are what the monitor remembers. */
  ghost predicate Inv(c: Config, st: Turn, acts: seq<Act>) {
    && st.remindersLeft <= c.terms.reminders
    && (st.stopDeadline.Some? ==> st.calls > 0)
    && Watch(c.terms, acts) == Some(Monitor(
         st.seenCalls, None, st.calls, st.rejected, c.terms.reminders - st.remindersLeft,
         st.stopDeadline.Some?, st.stopDeadline.Some?, st.confirmed, false))
  }

  /** After a step: the loop goes on lawfully, or the turn is over with or without its final event. */
  ghost predicate Outcome(c: Config, st: Turn, acts: seq<Act>, v: Verdict) {
    match v
    case Go => Inv(c, st, acts)
    case Over(end) =>
      Watch(c.terms, acts).Some? && (end == Finished <==> Watch(c.terms, acts).value.ended)
  }

  /** Every exception the loop catches ends in one `run.failed` (or `run.cancelled`). */
  method Finish(c: Config, acts: seq<Act>, e: Event) returns (acts': seq<Act>, v: Verdict)
    requires e == RunFailed || e == RunCancelled
    requires Watch(c.terms, acts).Some? && !Watch(c.terms, acts).value.ended
    ensures acts' == acts + [Yield(e)] && v == Over(Finished)
    ensures Watch(c.terms, acts').Some? && Watch(c.terms, acts').value.ended
  {
    WatchOne(c.terms, acts, Yield(e));
    acts', v := acts + [Yield(e)], Over(Finished);
  }

  /** The published call: wait for the client, hand over its result, stop on a terminal one. */
  method AwaitClient(c: Config, st0: Turn, acts0: seq<Act>, i: Input, id: CallId)
    returns (st: Turn, acts: seq<Act>, v: Verdict)
    requires st0.calls > 0 && st0.stopDeadline.None? && st0.remindersLeft <= c.terms.reminders
    requires Watch(c.terms, acts0) == Some(Monitor(
      st0.seenCalls, Some(id), st0.calls, st0.rejected, c.terms.reminders - st0.remindersLeft,
      false, false, st0.confirmed, false))
    ensures Outcome(c, st, acts, v) && FateOf(st, v) == AwaitFate(st0, i)
    ensures acts == acts0 + AwaitActs(i, id)
  {
    st, acts := st0, acts0;
    match i.take {
      case WaitStale =>
        v := Over(Stale);
      case WaitRaised =>
        v := Over(Crashed);
      case WaitCancelled =>
        acts, v := Finish(c, acts, RunCancelled);
      case WaitConflict =>
        acts, v := Finish(c, acts, RunFailed);
      case Exited =>
        acts, v := Finish(c, acts, RunFailed);
      case Got(answer) =>
        if i.sends == 0 {
          acts, v := Finish(c, acts, RunFailed);
          return;
        }
        WatchOne(c.terms, acts, Answer(id, answer));
        acts := acts + [Answer(id, answer)];
        WatchOne(c.terms, acts, Yield(ToolResult(id, answer.success)));
        acts := acts + [Yield(ToolResult(id, answer.success))];
        if answer.terminal {
          if i.sends == 1 {
            acts, v := Finish(c, acts, RunFailed);
            return;
          }
          WatchOne(c.terms, acts, Interrupt);
          acts := acts + [Interrupt];
          st := st.(stopDeadline := Some(i.now + TERMINAL_STOP_S));
        }
        v := Go;
    }
  }

  /** Broken arguments go back to the model, within the budget. */
  method SendBack(c: Config, st0: Turn, acts0: seq<Act>, i: Input, id: CallId, ghost tool: string)
    returns (st: Turn, acts: seq<Act>, v: Verdict)
    requires Inv(c, st0, acts0) && st0.stopDeadline.None? && id !in st0.seenCalls
    requires i.publish == Replied(Handoff.InvalidArguments)
    ensures Outcome(c, st, acts, v) && FateOf(st, v) == OfferFate(c, st0, i, id, true)
    ensures acts == acts0 + OfferActs(c, st0, i, id, tool, true)
  {
    st, acts := st0.(seenCalls := st0.seenCalls + {id}), acts0;
    if st.rejected >= c.terms.argRetries {
      acts, v := Finish(c, acts, RunFailed);
      return;
    }
    st := st.(rejected := st.rejected + 1);
    if i.sends == 0 {
      acts, v := Finish(c, acts, RunFailed);
      return;
    }
    WatchOne(c.terms, acts, Reject(id));
    acts := acts + [Reject(id)];
    WatchOne(c.terms, acts, Yield(ToolResult(id, false)));
    acts := acts + [Yield(ToolResult(id, false))];
    v := Go;
  }

  /** The client sees the call: report it, then wait for its result. */
  method OfferPublished(c: Config, st0: Turn, acts0: seq<Act>, i: Input, id: CallId, tool: string, hasArguments: bool)
    returns (st: Turn, acts: seq<Act>, v: Verdict)
    requires Inv(c, st0, acts0) && st0.stopDeadline.None? && id !in st0.seenCalls
    requires i.publish == Replied(Handoff.Published)
    ensures Outcome(c, st, acts, v) && FateOf(st, v) == OfferFate(c, st0, i, id, hasArguments)
    ensures acts == acts0 + OfferActs(c, st0, i, id, tool, hasArguments)
  {
    st, acts := st0.(seenCalls := st0.seenCalls + {id}, calls := st0.calls + 1), acts0;
    WatchOne(c.terms, acts, Publish(id, tool));
    acts := acts + [Publish(id, tool)];
    if !hasArguments {
      return st, acts, Over(Crashed);
    }
    WatchOne(c.terms, acts, Yield(ToolCall(id)));
    acts := acts + [Yield(ToolCall(id))];
    st, acts, v := AwaitClient(c, st, acts, i, id);
  }

  /** Offer the call to the client. */
  method Offer(c: Config, st0: Turn, acts0: seq<Act>, i: Input, id: CallId, tool: string, hasArguments: bool)
    returns (st: Turn, acts: seq<Act>, v: Verdict)
    requires Inv(c, st0, acts0) && st0.stopDeadline.None? && id !in st0.seenCalls
    ensures Outcome(c, st, acts, v) && FateOf(st, v) == OfferFate(c, st0, i, id, hasArguments)
    ensures acts == acts0 + OfferActs(c, st0, i, id, tool, hasArguments)
  {
    st, acts := st0.(seenCalls := st0.seenCalls + {id}), acts0;
    match i.publish {
      case OfferRaised =>
        v := Over(Crashed);
      case Replied(PublishStale) =>
        v := Over(Stale);
      case Replied(PublishConflict) =>
        acts, v := Finish(c, acts, RunFailed);
      case Replied(InvalidArguments) =>
        st, acts, v := SendBack(c, st0, acts0, i, id, tool);
      case Replied(Published) =>
        st, acts, v := OfferPublished(c, st0, acts0, i, id, tool, hasArguments);
    }
  }

  /** item/tool/call */
  method OnToolCall(c: Config, st0: Turn, acts0: seq<Act>, i: Input, m: Message)
    returns (st: Turn, acts: seq<Act>, v: Verdict)
    requires Inv(c, st0, acts0) && i.frame == Line(m) && Get(m, "method") == Str("item/tool/call")
    ensures Outcome(c, st, acts, v) && FateOf(st, v) == CallFate(c, st0, i, m)
    ensures acts == acts0 + CallActs(c, st0, i, m)
  {
    st, acts := st0, acts0;
    if st.stopDeadline.Some? || "id" !in m {
      acts, v := Finish(c, acts, RunFailed);
      return;
    }
    var params := Get(m, "params");
    if !Dict(params) {
      return st, acts, Over(Crashed);
    }
    if In(params, "threadId") != Str(c.threadId) || In(params, "turnId") != TurnJson(st)
       || In(params, "namespace") != Null {
      acts, v := Finish(c, acts, RunFailed);
      return;
    }
    var callId, name := In(params, "callId"), In(params, "tool");
    if !name.Str? || !callId.Str? {
      acts, v := Finish(c, acts, RunFailed);
      return;
    }
    if !Hashable(m["id"]) {
      return st, acts, Over(Crashed);
    }
    var id := Named(callId.s);
    if RequestKey(m["id"]) in st.seenRequests || id in st.seenCalls {
      acts, v := Finish(c, acts, RunFailed);
      return;
    }
    st := st.(seenRequests := st.seenRequests + {RequestKey(m["id"])});
    st, acts, v := Offer(c, st, acts, i, id, name.s, HasArguments(m));
  }

  /** turn/completed */
  method OnTurnCompleted(c: Config, st0: Turn, acts0: seq<Act>, i: Input, m: Message)
    returns (st: Turn, acts: seq<Act>, v: Verdict)
    requires Inv(c, st0, acts0) && i.frame == Line(m)
    ensures Outcome(c, st, acts, v) && FateOf(st, v) == CompletedFate(c, st0, i, m)
    ensures acts == acts0 + CompletedActs(c, st0, i, m)
  {
    st, acts := st0, acts0;
    var params := Get(m, "params");
    if !Dict(params) {
      return st, acts, Over(Crashed);
    }
    if In(params, "threadId") != Null && In(params, "threadId") != Str(c.threadId) {
      acts, v := Finish(c, acts, RunFailed);
      return;
    }
    var turn := In(params, "turn");
    if !Dict(turn) {
      return st, acts, Over(Crashed);
    }
    if In(turn, "id") != TurnJson(st) {
      acts, v := Finish(c, acts, RunFailed);
      return;
    }
    var status := In(turn, "status");
    if status != Str("completed") && !(st.stopDeadline.Some? && status == Str("interrupted")) {
      acts, v := Finish(c, acts, RunFailed);
      return;
    }
    if st.stopDeadline.Some? {
      if !st.confirmed {
        acts, v := Finish(c, acts, RunFailed);
        return;
      }
      st := st.(finalText := "");
    } else if st.calls == 0 && c.terms.required {
      st, acts, v := RemindModel(c, st, acts, i);
      return;
    }
    acts, v := Complete(c, st, acts);
  }

  /** One more turn/start that asks for the tool, within the budget. */
  method RemindModel(c: Config, st0: Turn, acts0: seq<Act>, i: Input) returns (st: Turn, acts: seq<Act>, v: Verdict)
    requires Inv(c, st0, acts0) && st0.stopDeadline.None? && st0.calls == 0 && c.terms.required
    ensures Outcome(c, st, acts, v)
    ensures v == (if st0.remindersLeft > 0 && i.sends > 0 then Go else Over(Finished))
    ensures acts == acts0 + [if v == Go then Remind else Yield(RunFailed)]
    ensures v == Go ==>
      st == st0.(remindersLeft := st0.remindersLeft - 1, oldRequests := st0.oldRequests + {st0.turnRequest},
                 turnRequest := st0.turnRequest + 1, turnId := None)
  {
    st, acts := st0, acts0;
    if st.remindersLeft == 0 || i.sends == 0 {
      acts, v := Finish(c, acts, RunFailed);
      return;
    }
    st := st.(remindersLeft := st.remindersLeft - 1, oldRequests := st.oldRequests + {st.turnRequest},
              turnRequest := st.turnRequest + 1, turnId := None);
    WatchOne(c.terms, acts, Remind);
    acts := acts + [Remind];
    v := Go;
  }

  /** The usage, if any count is known, and the answer. */
  method Complete(c: Config, st: Turn, acts0: seq<Act>) returns (acts: seq<Act>, v: Verdict)
    requires Watch(c.terms, acts0).Some? && MayDo(c.terms, Watch(c.terms, acts0).value,
      Yield(RunCompleted(st.finalText)))
    ensures v == Over(Finished) && Watch(c.terms, acts).Some? && Watch(c.terms, acts).value.ended
    ensures acts == acts0 + (if HasUsage(st.usage) then [Yield(Usage)] else []) + [Yield(RunCompleted(st.finalText))]
  {
    acts := acts0;
    if HasUsage(st.usage) {
      WatchOne(c.terms, acts, Yield(Usage));
      acts := acts + [Yield(Usage)];
    }
    WatchOne(c.terms, acts, Yield(RunCompleted(st.finalText)));
    acts := acts + [Yield(RunCompleted(st.finalText))];
    v := Over(Finished);
  }

  /** Notifications that only check their identity or update a variable. */
  method OnNotification(c: Config, st0: Turn, acts0: seq<Act>, i: Input, m: Message)
    returns (st: Turn, acts: seq<Act>, v: Verdict)
    requires Inv(c, st0, acts0) && i.frame == Line(m)
    ensures Outcome(c, st, acts, v) && FateOf(st, v) == NotificationFate(c, st0, i, m)
    ensures acts == acts0 + NotificationActs(c, st0, i, m)
  {
    st, acts := st0, acts0;
    var kind := Get(m, "method");
    var params := Get(m, "params");
    if kind == Str("model/rerouted") {
      if !Dict(params) {
        return st, acts, Over(Crashed);
      }
      if In(params, "threadId") == Str(c.threadId) && In(params, "turnId") == TurnJson(st)
         && In(params, "fromModel").Str? && In(params, "toModel").Str? {
        WatchOne(c.terms, acts, Yield(ModelRerouted));
        acts := acts + [Yield(ModelRerouted)];
      }
      acts, v := Finish(c, acts, RunFailed);
    } else if kind == Str("thread/tokenUsage/updated") {
      if !Dict(params) {
        return st, acts, Over(Crashed);
      }
      if In(params, "threadId") != Str(c.threadId) || In(params, "turnId") != TurnJson(st) {
        acts, v := Finish(c, acts, RunFailed);
        return;
      }
      if !Dict(In(params, "tokenUsage")) {
        return st, acts, Over(Crashed);
      }
      var observed := In(In(params, "tokenUsage"), "total");
      if observed.Obj? {
        st := st.(usage := observed.fields);
      }
      v := Go;
    } else if kind == Str("item/completed") {
      if !Dict(params) {
        return st, acts, Over(Crashed);
      }
      if (In(params, "threadId") != Null && In(params, "threadId") != Str(c.threadId))
         || (In(params, "turnId") != Null && In(params, "turnId") != TurnJson(st)) {
        acts, v := Finish(c, acts, RunFailed);
        return;
      }
      var item := In(params, "item");
      if !Dict(item) {
        return st, acts, Over(Crashed);
      }
      if In(item, "type") == Str("agentMessage") && st.stopDeadline.None? {
        st := st.(finalText := Text(In(item, "text")));
      }
      v := Go;
    } else if kind == Str("turn/completed") {
      st, acts, v := OnTurnCompleted(c, st, acts, i, m);
    } else {
      v := Go;
    }
  }

  /** Replies to our own requests: the interrupt, the current and the earlier turn/start. */
  method OnResponse(c: Config, st0: Turn, acts0: seq<Act>, i: Input, m: Message)
    returns (handled: bool, st: Turn, acts: seq<Act>, v: Verdict)
    requires Inv(c, st0, acts0) && i.frame == Line(m)
    ensures Outcome(c, st, acts, v)
    ensures handled <==> IsReply(st0, m)
    ensures !handled ==> v == Go && st == st0 && acts == acts0
    ensures handled ==> FateOf(st, v) == ReplyFate(st0, m) && acts == acts0 + ReplyActs(st0, m)
  {
    handled, st, acts, v := true, st0, acts0, Go;
    if IsResponse(m, INTERRUPT_ID) {
      if st.stopDeadline.None? || "result" !in m || "error" in m || st.confirmed {
        acts, v := Finish(c, acts, RunFailed);
        return;
      }
      WatchOne(c.terms, acts, Confirm);
      acts := acts + [Confirm];
      st := st.(confirmed := true);
    } else if exists k :: k in st.oldRequests && IsResponse(m, k) {
      acts, v := Finish(c, acts, RunFailed);
    } else if IsResponse(m, st.turnRequest) {
      if st.turnId.Some? || Truthy(Get(m, "error")) {
        acts, v := Finish(c, acts, RunFailed);
        return;
      }
      var result := Get(m, "result");
      if !Dict(result) || !Dict(In(result, "turn")) {
        return true, st, acts, Over(Crashed);
      }
      var id := In(In(result, "turn"), "id");
      if !id.Str? || id.s == "" {
        acts, v := Finish(c, acts, RunFailed);
        return;
      }
      st := st.(turnId := Some(id.s));
    } else {
      handled := false;
    }
  }

  method OnMessage(c: Config, st0: Turn, acts0: seq<Act>, i: Input, m: Message)
    returns (st: Turn, acts: seq<Act>, v: Verdict)
    requires Inv(c, st0, acts0) && i.frame == Line(m)
    ensures Outcome(c, st, acts, v) && FateOf(st, v) == MessageFate(c, st0, i, m)
    ensures acts == acts0 + MessageActs(c, st0, i, m)
    ensures InTime(st0, i) ==>
      (v == Over(Crashed) <==> Escapes(c, st0, i)) && (v == Over(Stale) <==> LosesLease(c, st0, i))
  {
    if InTime(st0, i) {
      EscapesIff(c, st0, i);
    }
    var handled;
    handled, st, acts, v := OnResponse(c, st0, acts0, i, m);
    if handled {
      return;
    }
    if Get(m, "method") == Str("item/tool/call") {
      st, acts, v := OnToolCall(c, st, acts, i, m);
    } else if "id" in m && Truthy(Get(m, "method")) {
      acts, v := Finish(c, acts, RunFailed);
    } else {
      st, acts, v := OnNotification(c, st, acts, i, m);
    }
  }

  /** One round of the loop: the clock, then what was read. */
  method OnInput(c: Config, st0: Turn, acts0: seq<Act>, i: Input) returns (st: Turn, acts: seq<Act>, v: Verdict)
    requires Inv(c, st0, acts0)
    ensures Outcome(c, st, acts, v) && FateOf(st, v) == Reading(c)(st0, i)
    ensures acts == acts0 + Writing(c)(st0, i)
  {
    st, acts := st0, acts0;
    if st.stopDeadline.Some?
       && (st.stopDeadline.value - i.now <= 0.0 || i.wait > st.stopDeadline.value - i.now) {
      acts, v := Finish(c, acts, RunFailed);
    } else {
      match i.frame {
        case Unreadable => acts, v := Finish(c, acts, RunFailed);
        case TooDeep => v := Over(Crashed);
        case Line(m) => st, acts, v := OnMessage(c, st, acts, i, m);
      }
    }
  }

  /** The loop itself, from any state. */
  method ReadTurn(c: Config, st0: Turn, inputs: seq<Input>) returns (acts: seq<Act>, end: End)
    requires Inv(c, st0, [])
    ensures Watch(c.terms, acts).Some? && (end == Finished <==> Watch(c.terms, acts).value.ended)
    ensures acts == TurnActs(c, st0, inputs) && end == EndOf(Reading(c), st0, inputs)
  {
    var st := st0;
    acts := [];
    var n := 0;
    while n < |inputs|
      invariant 0 <= n <= |inputs|
      invariant Inv(c, st, acts)
      invariant EndOf(Reading(c), st, inputs[n..]) == EndOf(Reading(c), st0, inputs)
      invariant acts + TurnActs(c, st, inputs[n..]) == TurnActs(c, st0, inputs)
    {
      ghost var before, done := st, acts;
      var v;
      st, acts, v := OnInput(c, st, acts, inputs[n]);
      Round(Reading(c), Writing(c), DriedUp(c), before, inputs, n, st, v, done);
      if v.Over? {
        return acts, v.end;
      }
      n := n + 1;
    }
    assert inputs[n..] == [] && TurnActs(c, st, inputs[n..]) == [Yield(RunFailed)];
    var v;
    acts, v := Finish(c, acts, RunFailed);
    end := Finished;
  }

  /** For every stream the turn is lawful, and its acts and its end are those of `TurnActs` and
      `EndOf`; it has its one final event, last, unless an error or a lost lease leaves the loop,
      and then none. */
  method RunToolTurn(c: Config, inputs: seq<Input>) returns (acts: seq<Act>, end: End)
    ensures Watch(c.terms, acts).Some?
    ensures acts == TurnActs(c, Opening(c), inputs) && end == EndOf(Reading(c), Opening(c), inputs)
    ensures end == Finished ==> EndsOnce(acts)
    ensures end != Finished ==> forall k :: 0 <= k < |acts| ==> !IsFinal(acts[k])
  {
    acts, end := ReadTurn(c, Opening(c), inputs);
    EndedMeans(c.terms, acts);
  }
}
