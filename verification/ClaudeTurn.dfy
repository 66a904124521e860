/**
 The message loop of a Claude Code turn with client tools: agent/claude_tool_turn.py.

 Control lines are read as JSON; every other line is what the CLI output parser makes of it, an
 arbitrary list of items.  As in the Codex turn, each line comes with the clock, the replies of
 `publish_call` and `take_result`, and how many writes to the CLI's stdin still succeed.
 */
module ClaudeTurn {
  import opened Wrappers
  import opened Json
  import opened TurnLaw
  import Handoff = ToolHandoff

  const INIT := Str("broker-init-1")
  const INTERRUPT := Str("broker-interrupt-1")
  const SERVER := Str("broker")
  const DIAGNOSTIC := "[ede_diagnostic]"

  /** The parser's events, as far as the loop tells them apart. */
  datatype Item =
    | Call(id: string, broker: bool)
    | Result(id: string)
    | Spent(counted: bool)      // usage, with or without token counts
    | Delta
    | Completed(text: string)
    | Failed
    | Other

  predicate Closing(x: Item) {
    x.Completed? || x.Failed?
  }

  /** What `parser.feed` did with a line: its items, a ValueError, or another Python error. */
  datatype Parsed = Items(items: seq<Item>) | BadValue | Raises

  /** A line is a JSON object, or none, or one nested too deeply for `json.loads`, whose
      RecursionError nobody catches. */
  datatype Frame = Line(message: Message) | NotJson | TooDeep

  datatype Input = Input(
    now: real, wait: real, frame: Frame, parsed: Parsed, publish: Offered, take: Wait, sends: nat)

  datatype Turn = Turn(
    number: nat,
    calls: nat,
    rejected: nat,
    remindersLeft: nat,
    brokerUses: set<string>,
    answered: set<string>,
    counted: bool,
    stopDeadline: Option<real>,
    confirmed: bool)

  function Opening(t: Terms): Turn {
    Turn(0, 0, 0, t.reminders, {}, {}, false, None, false)
  }

  function Kind(i: Input): Json {
    if i.frame.Line? then Get(i.frame.message, "type") else Null
  }

  // ---------------------------------------------------------------- interrupt_was_clean

  predicate Diagnostic(j: Json) {
    j.Str? && DIAGNOSTIC <= j.s
  }

  /** `errors` can be walked: empty, a list, a string or an object. */
  predicate Walkable(errors: Json) {
    !Truthy(errors) || errors.Arr? || errors.Str? || errors.Obj?
  }

  predicate OnlyDiagnostics(errors: Json) {
    match errors
    case Arr(items) => forall k :: 0 <= k < |items| ==> Diagnostic(items[k])
    case Obj(fields) => forall k :: k in fields ==> DIAGNOSTIC <= k
    case Str(s) => s == ""        // walked by character
    case _ => true
  }

  predicate InterruptWasClean(result: Message) {
    && Get(result, "terminal_reason") in {Str("aborted_streaming"), Str("aborted_tools")}
    && Get(result, "api_error_status") == Null
    && !Truthy(Get(result, "result"))
    && OnlyDiagnostics(Get(result, "errors"))
  }

  predicate Control(i: Input) {
    Kind(i) in {Str("control_response"), Str("control_request"), Str("control_cancel_request")}
  }

  // ---------------------------------------------------------------- the loop's variables

  predicate InTime(st: Turn, i: Input) {
    st.stopDeadline.Some? ==> 0.0 < st.stopDeadline.value - i.now && i.wait <= st.stopDeadline.value - i.now
  }

  function RequestOf(d: Message): Json {
    Get(d, "request")
  }

  function Mcp(d: Message): Json {
    In(RequestOf(d), "message")
  }

  /** A request for our MCP server. */
  predicate ToBroker(d: Message) {
    && Get(d, "type") == Str("control_request") && In(RequestOf(d), "subtype") == Str("mcp_message")
    && In(RequestOf(d), "server_name") == SERVER && Mcp(d).Obj?
  }

  predicate Asking(d: Message, name: string) {
    ToBroker(d) && In(Mcp(d), "id") != Null && In(Mcp(d), "method") == Str(name)
  }

  /** The call `publish_call` is asked to offer. */
  function Asks(st: Turn, d: Message): Option<Request> {
    var params := In(Mcp(d), "params");
    if Asking(d, "tools/call") && st.stopDeadline.None? && Dict(params) && In(params, "name").Str?
    then Some(Request(Numbered(st.number + 1), In(params, "name").s)) else None
  }

  predicate GivenUp(st: Turn, d: Message) {
    && Get(d, "type") == Str("control_cancel_request")
    && Get(d, "request_id").Str? && Get(d, "request_id").s in st.answered
  }

  /** `str(data.get("request_id"))` joins the answered ids once the reply is sent. */
  function Answered(st: Turn, d: Message): Turn {
    st.(answered := st.answered + {Rendered(Get(d, "request_id"))})
  }

  function ResponseFate(st: Turn, d: Message): Fate<Turn> {
    var response := Get(d, "response");
    var id := In(response, "request_id");
    if !Dict(response) then Ends(Crashed)
    else if In(response, "subtype") != Str("success") then Ends(Finished)
    else if id == INIT then GoesOn(st)
    else if id == INTERRUPT && st.stopDeadline.Some? && !st.confirmed then GoesOn(st.(confirmed := true))
    else Ends(Finished)
  }

  function AwaitFate(st: Turn, i: Input, d: Message): Fate<Turn> {
    match i.take
    case WaitStale => Ends(Stale)
    case WaitRaised => Ends(Crashed)
    case Got(answer) =>
      if !answer.terminal then if i.sends >= 1 then GoesOn(Answered(st, d)) else Ends(Finished)
      else if i.sends >= 2 then GoesOn(Answered(st, d).(stopDeadline := Some(i.now + TERMINAL_STOP_S)))
      else Ends(Finished)
    case _ => Ends(Finished)
  }

  function OfferFate(t: Terms, st: Turn, i: Input, d: Message): Fate<Turn> {
    match i.publish
    case OfferRaised => Ends(Crashed)
    case Replied(PublishStale) => Ends(Stale)
    case Replied(PublishConflict) => Ends(Finished)
    case Replied(InvalidArguments) =>
      if st.rejected < t.argRetries && i.sends >= 1 then GoesOn(Answered(st.(rejected := st.rejected + 1), d))
          else Ends(Finished)
    case Replied(Published) => AwaitFate(st.(calls := st.calls + 1), i, d)
  }

  function RequestFate(t: Terms, st: Turn, i: Input, d: Message): Fate<Turn> {
    var params := In(Mcp(d), "params");
    if Get(d, "type") == Str("control_cancel_request") && !Hashable(Get(d, "request_id")) then Ends(Crashed)
    else if GivenUp(st, d) then GoesOn(st)
    else if !Dict(RequestOf(d)) then Ends(Crashed)
    else if !ToBroker(d) then Ends(Finished)
    else if Asking(d, "tools/call") then
      if st.stopDeadline.Some? then Ends(Finished)
      else if !Dict(params) then Ends(Crashed)
      else if Asks(st, d).None? then Ends(Finished)
      else OfferFate(t, st.(number := st.number + 1), i, d)
    else if Asking(d, "initialize") && !Dict(params) then Ends(Crashed)
    else if i.sends == 0 then Ends(Finished)
    else GoesOn(Answered(st, d))
  }

  /** A finished answer without the required call, while a reminder may still be sent. */
  predicate Reminds(t: Terms, st: Turn, x: Item, left: nat) {
    x.Completed? && st.stopDeadline.None? && st.calls == 0 && t.required && st.remindersLeft > 0 && left > 0
  }

  /** `_result_shape` walks the errors of a result that fails while the turn is being stopped. */
  predicate Unwalkable(i: Input) {
    i.frame.Line? && !Walkable(Get(i.frame.message, "errors"))
  }

  function ItemFate(t: Terms, st: Turn, i: Input, x: Item, left: nat): Fate<Turn> {
    match x
    case Call(id, broker) => GoesOn(if broker then st.(brokerUses := st.brokerUses + {id}) else st)
    case Spent(counted) => GoesOn(st.(counted := st.counted || counted))
    case Completed(_) =>
      if Reminds(t, st, x, left) then GoesOn(st.(remindersLeft := st.remindersLeft - 1)) else Ends(Finished)
    case Failed => Ends(if st.stopDeadline.Some? && Unwalkable(i) then Crashed else Finished)
    case _ => GoesOn(st)
  }

  function LeftAfter(t: Terms, st: Turn, x: Item, left: nat): nat {
    if Reminds(t, st, x, left) then left - 1 else left
  }

  function ItemsFate(t: Terms, st: Turn, i: Input, items: seq<Item>, left: nat): Fate<Turn>
    decreases |items|
  {
    if items == [] then GoesOn(st)
    else
      match ItemFate(t, st, i, items[0], left)
      case Ends(end) => Ends(end)
      case GoesOn(next) => ItemsFate(t, next, i, items[1..], LeftAfter(t, st, items[0], left))
  }

  /** What one input does to the loop, apart from its acts. */
  function InputFate(t: Terms, st: Turn, i: Input): Fate<Turn> {
    if !InTime(st, i) then Ends(Finished)
    else if i.frame.TooDeep? then Ends(Crashed)
    else if Kind(i) == Str("control_response") then ResponseFate(st, i.frame.message)
    else if Control(i) then RequestFate(t, st, i, i.frame.message)
    else
      match i.parsed
      case Raises => Ends(Crashed)
      case BadValue => Ends(Finished)
      case Items(items) => ItemsFate(t, st, i, items, i.sends)
  }

  function Reading(t: Terms): (Turn, Input) -> Fate<Turn> {
    (st, i) => InputFate(t, st, i)
  }

  // ---------------------------------------------------------------- when an error escapes

  predicate RequestRaises(st: Turn, i: Input, d: Message) {
    var params := In(Mcp(d), "params");
    || (Get(d, "type") == Str("control_cancel_request") && !Hashable(Get(d, "request_id")))
    || (!Dict(RequestOf(d)) && !GivenUp(st, d))
    || (Asking(d, "initialize") && !Dict(params))
    || (Asking(d, "tools/call") && st.stopDeadline.None? && !Dict(params))
    || (Asks(st, d).Some?
        && (i.publish == OfferRaised || (i.publish == Replied(Handoff.Published) && i.take == WaitRaised)))
  }

  /** The first closing item is a failure. */
  ghost predicate FailsFirst(items: seq<Item>) {
    exists n :: 0 <= n < |items| && items[n].Failed? && forall k :: 0 <= k < n ==> !Closing(items[k])
  }

  /** Python raises an error the loop does not catch: a value of the wrong type where the line is
      read, an id no set can hold, or a failing database. */
  ghost predicate Escapes(st: Turn, i: Input) {
    && InTime(st, i)
    && (|| i.frame.TooDeep?
        || (Kind(i) == Str("control_response") && !Dict(Get(i.frame.message, "response")))
        || (Control(i) && Kind(i) != Str("control_response") && RequestRaises(st, i, i.frame.message))
        || (!Control(i)
            && (i.parsed.Raises?
                || (i.parsed.Items? && st.stopDeadline.Some? && Unwalkable(i) && FailsFirst(i.parsed.items)))))
  }

  predicate LosesLease(st: Turn, i: Input) {
    && InTime(st, i) && i.frame.Line? && Asks(st, i.frame.message).Some?
    && (i.publish == Replied(Handoff.PublishStale)
        || (i.publish == Replied(Handoff.Published) && i.take == WaitStale))
  }

  lemma RequestRaisesIff(t: Terms, st: Turn, i: Input, d: Message)
    requires Get(d, "type") in {Str("control_request"), Str("control_cancel_request")}
    ensures RequestFate(t, st, i, d) == Ends(Crashed) <==> RequestRaises(st, i, d)
    ensures RequestFate(t, st, i, d) == Ends(Stale) <==>
      Asks(st, d).Some? &&
      (i.publish == Replied(Handoff.PublishStale) || (i.publish == Replied(Handoff.Published) && i.take == WaitStale))
  {
  }

  lemma {:induction false} ItemsRaiseIff(t: Terms, st: Turn, i: Input, items: seq<Item>, left: nat)
    ensures ItemsFate(t, st, i, items, left) == Ends(Crashed) <==>
      st.stopDeadline.Some? && Unwalkable(i) && FailsFirst(items)
    ensures ItemsFate(t, st, i, items, left) != Ends(Stale)
    decreases |items|
  {
    if items != [] {
      var x, rest := items[0], items[1..];
      var f := ItemFate(t, st, i, x, left);
      if f.GoesOn? {
        ItemsRaiseIff(t, f.next, i, rest, LeftAfter(t, st, x, left));
      }
      if !Closing(x) {
        FailsFirstRest(items);
      }
    }
  }

  lemma FailsFirstRest(items: seq<Item>)
    requires items != [] && !Closing(items[0])
    ensures FailsFirst(items) <==> FailsFirst(items[1..])
  {
    var rest := items[1..];
    assert forall k :: 0 <= k < |rest| ==> rest[k] == items[k + 1];
    if FailsFirst(items) {
      var n :| 0 <= n < |items| && items[n].Failed? && forall k :: 0 <= k < n ==> !Closing(items[k]);
      assert rest[n - 1].Failed? && forall k :: 0 <= k < n - 1 ==> !Closing(rest[k]);
    }
    if FailsFirst(rest) {
      var n :| 0 <= n < |rest| && rest[n].Failed? && forall k :: 0 <= k < n ==> !Closing(rest[k]);
      assert items[n + 1].Failed? && forall k :: 0 <= k < n + 1 ==> !Closing(items[k]);
    }
  }

  /** The exact condition, for every state and input. */
  lemma EscapesIff(t: Terms, st: Turn, i: Input)
    ensures InputFate(t, st, i) == Ends(Crashed) <==> Escapes(st, i)
    ensures InputFate(t, st, i) == Ends(Stale) <==> LosesLease(st, i)
  {
    if Control(i) {
      if Kind(i) != Str("control_response") {
        RequestRaisesIff(t, st, i, i.frame.message);
      }
    } else if i.parsed.Items? {
      ItemsRaiseIff(t, st, i, i.parsed.items, i.sends);
    }
  }

  /** The loop's variables when it handles input `n`; None: the turn was over before. */
  function StateAt(t: Terms, inputs: seq<Input>, n: nat): Option<Turn>
    requires n < |inputs|
  {
    Reached(Reading(t), Opening(t), inputs, n)
  }

  /** A turn crashes, or stops for a lost lease, exactly when an input it reaches does that. */
  lemma TurnEndsIff(t: Terms, inputs: seq<Input>)
    ensures EndOf(Reading(t), Opening(t), inputs) == Crashed <==>
      exists n ::
        && 0 <= n < |inputs| && StateAt(t, inputs, n).Some?
        && Escapes(StateAt(t, inputs, n).value, inputs[n])
    ensures EndOf(Reading(t), Opening(t), inputs) == Stale <==>
      exists n ::
        && 0 <= n < |inputs| && StateAt(t, inputs, n).Some?
        && LosesLease(StateAt(t, inputs, n).value, inputs[n])
  {
    EndsSoIff(Reading(t), Opening(t), inputs, Crashed);
    EndsSoIff(Reading(t), Opening(t), inputs, Stale);
    forall n | 0 <= n < |inputs|
      ensures EndsAt(Reading(t), Opening(t), inputs, n, Crashed) <==>
        StateAt(t, inputs, n).Some? && Escapes(StateAt(t, inputs, n).value, inputs[n])
      ensures EndsAt(Reading(t), Opening(t), inputs, n, Stale) <==>
        StateAt(t, inputs, n).Some? && LosesLease(StateAt(t, inputs, n).value, inputs[n])
    {
      var st := StateAt(t, inputs, n);
      if st.Some? {
        EscapesIff(t, st.value, inputs[n]);
      }
    }
  }

  /** One line of JSON is enough. */
  lemma MalformedResponseCrashes(t: Terms, i: Input)
    requires i.frame == Line(map["type" := Str("control_response"), "response" := Num(1)])
    ensures EndOf(Reading(t), Opening(t), [i]) == Crashed
  {
    EscapesIff(t, Opening(t), i);
  }

  // ---------------------------------------------------------------- the loop's acts

  /** `if _counted(usage): yield usage` */
  function Spending(st: Turn): seq<Act> {
    if st.counted then [Yield(Usage)] else []
  }

  function Ending(st: Turn, e: Event): seq<Act> {
    Spending(st) + [Yield(e)]
  }

  function FailActs(st: Turn, f: Fate<Turn>): seq<Act> {
    if f == Ends(Finished) then Ending(st, RunFailed) else []
  }

  function ResponseActs(st: Turn, d: Message): seq<Act> {
    var f := ResponseFate(st, d);
    if f.GoesOn? && In(Get(d, "response"), "request_id") == INTERRUPT then [Confirm] else FailActs(st, f)
  }

  function HandOverActs(st: Turn, i: Input, id: CallId, a: Handoff.Answer): seq<Act> {
    [Yield(ToolResult(id, a.success))] +
    if i.sends == 0 then Ending(st, RunFailed)
    else [Answer(id, a)] + if !a.terminal then [] else if i.sends == 1 then Ending(st, RunFailed) else [Interrupt]
  }

  function AwaitActs(st: Turn, i: Input, id: CallId): seq<Act> {
    match i.take
    case WaitStale => []
    case WaitRaised => []
    case WaitCancelled => Ending(st, RunCancelled)
    case Got(a) => HandOverActs(st, i, id, a)
    case _ => Ending(st, RunFailed)
  }

  function OfferActs(t: Terms, st: Turn, i: Input, id: CallId, tool: string): seq<Act> {
    match i.publish
    case OfferRaised => []
    case Replied(PublishStale) => []
    case Replied(PublishConflict) => Ending(st, RunFailed)
    case Replied(InvalidArguments) =>
      if st.rejected >= t.argRetries then Ending(st, RunFailed)
      else [Yield(ToolResult(id, false))] + if i.sends == 0 then Ending(st, RunFailed) else [Reject(id)]
    case Replied(Published) => [Publish(id, tool), Yield(ToolCall(id))] + AwaitActs(st.(calls := st.calls + 1), i, id)
  }

  function RequestActs(t: Terms, st: Turn, i: Input, d: Message): seq<Act> {
    match Asks(st, d)
    case Some(r) => OfferActs(t, st, i, r.id, r.tool)
    case None => FailActs(st, RequestFate(t, st, i, d))
  }

  /** A final item while the turn is being stopped.  When the CLI reports success but never
      confirmed the interrupt, the usage is reported here and once more by the error path. */
  function FinalActs(st: Turn, i: Input, x: Item): seq<Act> {
    Spending(st) +
    if x.Failed? && Unwalkable(i) then []
    else if x.Failed? && !(st.confirmed && Kind(i) == Str("result") && InterruptWasClean(i.frame.message))
        then [Yield(RunFailed)]
    else if st.confirmed then [Yield(RunCompleted(""))]
    else Ending(st, RunFailed)
  }

  function ItemActs(t: Terms, st: Turn, i: Input, x: Item, left: nat): seq<Act> {
    match x
    case Call(id, broker) => if broker then [] else [Yield(ToolCall(Named(id)))]
    case Result(id) => if id in st.brokerUses then [] else [Yield(ToolResult(Named(id), true))]
    case Spent(_) => []
    case Delta => if st.stopDeadline.Some? then [] else [Yield(OtherEvent)]
    case Other => [Yield(OtherEvent)]
    case Completed(text) =>
      if st.stopDeadline.Some? then FinalActs(st, i, x)
      else if Reminds(t, st, x, left) then [Remind]
      else if st.calls == 0 && t.required then Ending(st, RunFailed)
      else [Yield(Usage), Yield(RunCompleted(text))]
    case Failed => if st.stopDeadline.Some? then FinalActs(st, i, x) else Ending(st, RunFailed)
  }

  function ItemsActs(t: Terms, st: Turn, i: Input, items: seq<Item>, left: nat): seq<Act>
    decreases |items|
  {
    if items == [] then []
    else
      ItemActs(t, st, i, items[0], left) +
      match ItemFate(t, st, i, items[0], left)
      case Ends(_) => []
      case GoesOn(next) => ItemsActs(t, next, i, items[1..], LeftAfter(t, st, items[0], left))
  }

  function InputActs(t: Terms, st: Turn, i: Input): seq<Act> {
    if !InTime(st, i) then Ending(st, RunFailed)
    else if i.frame.TooDeep? then []
    else if Kind(i) == Str("control_response") then ResponseActs(st, i.frame.message)
    else if Control(i) then RequestActs(t, st, i, i.frame.message)
    else
      match i.parsed
      case Raises => []
      case BadValue => Ending(st, RunFailed)
      case Items(items) => ItemsActs(t, st, i, items, i.sends)
  }

  function Writing(t: Terms): (Turn, Input) -> seq<Act> {
    (st, i) => InputActs(t, st, i)
  }

  function DriedUp(t: Terms): Turn -> seq<Act> {
    st => Ending(st, RunFailed)
  }

  /** The acts of the turn from `st` on; a stream that dries up is a failure. */
  function TurnActs(t: Terms, st: Turn, inputs: seq<Input>): seq<Act> {
    ActsOf(Reading(t), Writing(t), DriedUp(t), st, inputs)
  }

  /** The call this input makes the loop offer. */
  function AsksNow(t: Terms): (Turn, Input) -> Option<Request> {
    (st, i) => if InTime(st, i) && i.frame.Line? then Asks(st, i.frame.message) else None
  }

  lemma {:induction false} ItemsSilent(t: Terms, st: Turn, i: Input, items: seq<Item>, left: nat)
    ensures Silent(ItemsActs(t, st, i, items, left))
    decreases |items|
  {
    if items != [] {
      var f := ItemFate(t, st, i, items[0], left);
      assert Silent(ItemActs(t, st, i, items[0], left));
      if f.GoesOn? {
        ItemsSilent(t, f.next, i, items[1..], LeftAfter(t, st, items[0], left));
      }
    }
  }

  lemma OfferFaithful(t: Terms, st: Turn, i: Input, r: Request)
    ensures Faithful(OfferActs(t, st, i, r.id, r.tool), r, i.publish, i.take)
  {
  }

  lemma FailSilent(st: Turn, f: Fate<Turn>)
    ensures Silent(FailActs(st, f)) && Silent(Ending(st, RunFailed))
  {
  }

  /** What one input says about the calls it publishes and answers. */
  lemma InputAnswers(t: Terms, st: Turn, i: Input)
    ensures match AsksNow(t)(st, i)
      case None => Silent(Writing(t)(st, i))
      case Some(r) => Faithful(Writing(t)(st, i), r, i.publish, i.take)
  {
    FailSilent(st, InputFate(t, st, i));
    if Control(i) {
      var d := i.frame.message;
      match Asks(st, d)
      case Some(r) => OfferFaithful(t, st, i, r);
      case None =>
        FailSilent(st, RequestFate(t, st, i, d));
        FailSilent(st, ResponseFate(st, d));
    } else if i.parsed.Items? {
      ItemsSilent(t, st, i, i.parsed.items, i.sends);
    }
  }

  // ---------------------------------------------------------------- lines that raise in no state

  /** What a peer can check before it sends. */
  predicate WellShaped(d: Message) {
    && Dict(Get(d, "response")) && Dict(RequestOf(d)) && Dict(In(Mcp(d), "params"))
    && Hashable(Get(d, "request_id")) && Walkable(Get(d, "errors"))
  }

  predicate Clean(i: Input) {
    && (i.frame.Line? ==> WellShaped(i.frame.message)) && !i.frame.TooDeep? && !i.parsed.Raises?
    && i.publish != OfferRaised && i.take != WaitRaised
    && i.publish != Replied(Handoff.PublishStale) && i.take != WaitStale
  }

  lemma CleanGoesOn(st: Turn, i: Input)
    requires Clean(i)
    ensures !Escapes(st, i) && !LosesLease(st, i)
  {
  }

  lemma CleanEnds(t: Terms, inputs: seq<Input>)
    requires forall k :: 0 <= k < |inputs| ==> Clean(inputs[k])
    ensures EndOf(Reading(t), Opening(t), inputs) == Finished
  {
    TurnEndsIff(t, inputs);
    forall n, st | 0 <= n < |inputs|
      ensures !Escapes(st, inputs[n]) && !LosesLease(st, inputs[n])
    {
      CleanGoesOn(st, inputs[n]);
    }
  }

  // ---------------------------------------------------------------- the turn is lawful

  /** The calls numbered so far. */
  function Seen(n: nat): (ids: set<CallId>)
    ensures forall id :: id in ids ==> id.Numbered? && id.number <= n
  {
    if n == 0 then {} else Seen(n - 1) + {Numbered(n)}
  }

  predicate Fine(t: Terms, st: Turn) {
    st.remindersLeft <= t.reminders && (st.stopDeadline.Some? ==> st.calls > 0)
  }

  /** What the monitor remembers of a turn with these variables, while `open` is with the client. */
  function MonitorOf(t: Terms, st: Turn, open: Option<CallId>): Monitor
    requires Fine(t, st)
  {
    Monitor(Seen(st.number), open, st.calls, st.rejected, t.reminders - st.remindersLeft,
            st.stopDeadline.Some?, st.stopDeadline.Some?, st.confirmed, false)
  }

  /** `m` is the monitor after acts that led to `f`. */
  predicate Lawful(t: Terms, m: Option<Monitor>, f: Fate<Turn>) {
    && m.Some?
    && match f
       case Ends(end) => end == Finished <==> m.value.ended
       case GoesOn(next) => Fine(t, next) && m.value == MonitorOf(t, next, None)
  }

  lemma EndingLawful(t: Terms, st: Turn, m: Monitor, e: Event)
    requires !m.ended && (e == RunFailed || e == RunCancelled)
    ensures Follow(t, Some(m), Ending(st, e)) == Some(m.(ended := true))
  {
    FollowOne(t, Some(m), Yield(e));
    FollowTwo(t, Some(m), Yield(Usage), Yield(e));
  }

  lemma FailLawful(t: Terms, st: Turn, f: Fate<Turn>)
    requires Fine(t, st) && (f.GoesOn? ==> Fine(t, f.next) && MonitorOf(t, f.next, None) == MonitorOf(t, st, None))
    ensures Lawful(t, Follow(t, Some(MonitorOf(t, st, None)), FailActs(st, f)), f)
  {
    EndingLawful(t, st, MonitorOf(t, st, None), RunFailed);
  }

  lemma HandOverLawful(t: Terms, st: Turn, i: Input, d: Message, id: CallId, a: Handoff.Answer)
    requires Fine(t, st) && st.calls > 0 && st.stopDeadline.None? && i.take == Got(a)
    ensures Lawful(t, Follow(t, Some(MonitorOf(t, st, Some(id))), HandOverActs(st, i, id, a)), AwaitFate(st, i, d))
  {
    var m, told := MonitorOf(t, st, Some(id)), [Yield(ToolResult(id, a.success))];
    FollowOne(t, Some(m), told[0]);
    EndingLawful(t, st, m, RunFailed);
    if i.sends == 0 {
      FollowConcat(t, Some(m), told, Ending(st, RunFailed));
    } else {
      var m' := Do(m, Answer(id, a));
      var more: seq<Act> := if !a.terminal then [] else if i.sends == 1 then Ending(st, RunFailed) else [Interrupt];
      FollowConcat(t, Some(m), told, [Answer(id, a)] + more);
      FollowConcat(t, Some(m), [Answer(id, a)], more);
      FollowOne(t, Some(m), Answer(id, a));
      EndingLawful(t, st, m', RunFailed);
      FollowOne(t, Some(m'), Interrupt);
    }
  }

  lemma AwaitLawful(t: Terms, st: Turn, i: Input, d: Message, id: CallId)
    requires Fine(t, st) && st.calls > 0 && st.stopDeadline.None?
    ensures Lawful(t, Follow(t, Some(MonitorOf(t, st, Some(id))), AwaitActs(st, i, id)), AwaitFate(st, i, d))
  {
    var m := MonitorOf(t, st, Some(id));
    EndingLawful(t, st, m, RunFailed);
    EndingLawful(t, st, m, RunCancelled);
    if i.take.Got? {
      HandOverLawful(t, st, i, d, id, i.take.answer);
    }
  }

  lemma SendBackLawful(t: Terms, st: Turn, i: Input, d: Message, m: Monitor, id: CallId, tool: string)
    requires i.publish == Replied(Handoff.InvalidArguments) && Fine(t, st)
    requires !m.ended && m.rejects == st.rejected && MayDo(t, m, Publish(id, tool))
    requires Do(m, Reject(id)) == MonitorOf(t, st.(rejected := st.rejected + 1), None)
    ensures Lawful(t, Follow(t, Some(m), OfferActs(t, st, i, id, tool)), OfferFate(t, st, i, d))
  {
    var told := [Yield(ToolResult(id, false))];
    EndingLawful(t, st, m, RunFailed);
    FollowOne(t, Some(m), told[0]);
    FollowOne(t, Some(m), Reject(id));
    FollowConcat(t, Some(m), told, [Reject(id)]);
    FollowConcat(t, Some(m), told, Ending(st, RunFailed));
  }

  /** `m` is the monitor before the call that got number `st.number`. */
  lemma PublishedLawful(t: Terms, st: Turn, i: Input, d: Message, m: Monitor, id: CallId, tool: string)
    requires i.publish == Replied(Handoff.Published) && Fine(t, st) && st.stopDeadline.None?
    requires !m.ended && MayDo(t, m, Publish(id, tool))
    requires Do(m, Publish(id, tool)) == MonitorOf(t, st.(calls := st.calls + 1), Some(id))
    ensures Lawful(t, Follow(t, Some(m), OfferActs(t, st, i, id, tool)), OfferFate(t, st, i, d))
  {
    var st' := st.(calls := st.calls + 1);
    FollowTwo(t, Some(m), Publish(id, tool), Yield(ToolCall(id)));
    FollowConcat(t, Some(m), [Publish(id, tool), Yield(ToolCall(id))], AwaitActs(st', i, id));
    AwaitLawful(t, st', i, d, id);
  }

  lemma OfferLawful(t: Terms, st: Turn, i: Input, d: Message, m: Monitor, id: CallId, tool: string)
    requires Fine(t, st) && st.stopDeadline.None?
    requires !m.ended && m.rejects == st.rejected && MayDo(t, m, Publish(id, tool))
    requires Do(m, Publish(id, tool)) == MonitorOf(t, st.(calls := st.calls + 1), Some(id))
    ensures Lawful(t, Follow(t, Some(m), OfferActs(t, st, i, id, tool)), OfferFate(t, st, i, d))
  {
    if i.publish == Replied(Handoff.InvalidArguments) {
      SendBackLawful(t, st, i, d, m, id, tool);
    } else if i.publish == Replied(Handoff.Published) {
      PublishedLawful(t, st, i, d, m, id, tool);
    } else {
      EndingLawful(t, st, m, RunFailed);
    }
  }

  /** A call that is offered decides; any other request changes nothing the monitor knows. */
  lemma RequestEither(t: Terms, st: Turn, i: Input, d: Message)
    requires Fine(t, st)
    ensures var f := RequestFate(t, st, i, d);
      if Asks(st, d).Some? then f == OfferFate(t, st.(number := st.number + 1), i, d)
      else f.GoesOn? ==> Fine(t, f.next) && MonitorOf(t, f.next, None) == MonitorOf(t, st, None)
  {
  }

  lemma AskedLawful(t: Terms, st: Turn, i: Input, d: Message, tool: string)
    requires Fine(t, st) && st.stopDeadline.None?
    ensures var st' := st.(number := st.number + 1);
      Lawful(t, Follow(t, Some(MonitorOf(t, st, None)), OfferActs(t, st', i, Numbered(st'.number), tool)),
             OfferFate(t, st', i, d))
  {
    OfferLawful(t, st.(number := st.number + 1), i, d, MonitorOf(t, st, None), Numbered(st.number + 1), tool);
  }

  lemma RequestLawful(t: Terms, st: Turn, i: Input, d: Message)
    requires Fine(t, st)
    ensures Lawful(t, Follow(t, Some(MonitorOf(t, st, None)), RequestActs(t, st, i, d)), RequestFate(t, st, i, d))
  {
    RequestEither(t, st, i, d);
    if Asks(st, d).Some? {
      AskedLawful(t, st, i, d, Asks(st, d).value.tool);
      assert RequestActs(t, st, i, d) == OfferActs(t, st, i, Numbered(st.number + 1), Asks(st, d).value.tool);
    } else {
      FailLawful(t, st, RequestFate(t, st, i, d));
    }
  }

  lemma ResponseLawful(t: Terms, st: Turn, d: Message)
    requires Fine(t, st)
    ensures Lawful(t, Follow(t, Some(MonitorOf(t, st, None)), ResponseActs(st, d)), ResponseFate(st, d))
  {
    var m := MonitorOf(t, st, None);
    EndingLawful(t, st, m, RunFailed);
    FollowOne(t, Some(m), Confirm);
  }

  lemma FinalLawful(t: Terms, st: Turn, i: Input, x: Item)
    requires Fine(t, st) && st.stopDeadline.Some? && Closing(x)
    ensures Lawful(t, Follow(t, Some(MonitorOf(t, st, None)), FinalActs(st, i, x)),
                   Ends(if x.Failed? && Unwalkable(i) then Crashed else Finished))
  {
    var m := MonitorOf(t, st, None);
    FollowOne(t, Some(m), Yield(Usage));
    assert Follow(t, Some(m), Spending(st)) == Some(m);
    FollowConcat(t, Some(m), Spending(st), FinalActs(st, i, x)[|Spending(st)|..]);
    assert FinalActs(st, i, x) == Spending(st) + FinalActs(st, i, x)[|Spending(st)|..];
    FollowOne(t, Some(m), Yield(RunFailed));
    FollowOne(t, Some(m), Yield(RunCompleted("")));
    EndingLawful(t, st, m, RunFailed);
  }

  lemma ItemLawful(t: Terms, st: Turn, i: Input, x: Item, left: nat)
    requires Fine(t, st)
    ensures Lawful(t, Follow(t, Some(MonitorOf(t, st, None)), ItemActs(t, st, i, x, left)), ItemFate(t, st, i, x, left))
  {
    var m := MonitorOf(t, st, None);
    if Closing(x) && st.stopDeadline.Some? {
      FinalLawful(t, st, i, x);
    } else if Closing(x) {
      EndingLawful(t, st, m, RunFailed);
      FollowOne(t, Some(m), Remind);
      if x.Completed? {
        FollowTwo(t, Some(m), Yield(Usage), Yield(RunCompleted(x.text)));
      }
    } else if ItemActs(t, st, i, x, left) != [] {
      FollowOne(t, Some(m), ItemActs(t, st, i, x, left)[0]);
    }
  }

  lemma {:induction false} ItemsLawful(t: Terms, st: Turn, i: Input, items: seq<Item>, left: nat)
    requires Fine(t, st)
    ensures Lawful(t, Follow(t, Some(MonitorOf(t, st, None)), ItemsActs(t, st, i, items, left)),
                   ItemsFate(t, st, i, items, left))
    decreases |items|
  {
    if items != [] {
      var x := items[0];
      var f, acts := ItemFate(t, st, i, x, left), ItemActs(t, st, i, x, left);
      ItemLawful(t, st, i, x, left);
      if f.GoesOn? {
        var left' := LeftAfter(t, st, x, left);
        ItemsLawful(t, f.next, i, items[1..], left');
        FollowConcat(t, Some(MonitorOf(t, st, None)), acts, ItemsActs(t, f.next, i, items[1..], left'));
      } else {
        assert acts + [] == acts;
      }
    }
  }

  lemma InputLawful(t: Terms, st: Turn, i: Input)
    requires Fine(t, st)
    ensures Lawful(t, Follow(t, Some(MonitorOf(t, st, None)), InputActs(t, st, i)), InputFate(t, st, i))
  {
    EndingLawful(t, st, MonitorOf(t, st, None), RunFailed);
    if i.frame.Line? && Kind(i) == Str("control_response") {
      ResponseLawful(t, st, i.frame.message);
    } else if Control(i) {
      RequestLawful(t, st, i, i.frame.message);
    } else if i.parsed.Items? {
      ItemsLawful(t, st, i, i.parsed.items, i.sends);
    }
  }

  /** The acts of a turn, over every stream, obey the law, and end with a final event exactly when
      the turn ends regularly. */
  lemma {:induction false} TurnLawful(t: Terms, st: Turn, inputs: seq<Input>)
    requires Fine(t, st)
    ensures var m := Follow(t, Some(MonitorOf(t, st, None)), TurnActs(t, st, inputs));
      m.Some? && (m.value.ended <==> EndOf(Reading(t), st, inputs) == Finished)
    decreases |inputs|
  {
    if inputs == [] {
      EndingLawful(t, st, MonitorOf(t, st, None), RunFailed);
    } else {
      var f, acts := Reading(t)(st, inputs[0]), Writing(t)(st, inputs[0]);
      InputLawful(t, st, inputs[0]);
      if f.GoesOn? {
        TurnLawful(t, f.next, inputs[1..]);
        FollowConcat(t, Some(MonitorOf(t, st, None)), acts, TurnActs(t, f.next, inputs[1..]));
      } else {
        assert acts + [] == acts;
      }
    }
  }

  // ---------------------------------------------------------------- how often usage is reported

  /** The branch that reports it twice: a success item, with counts on record, while the turn is being
      stopped and the interrupt was not confirmed. */
  predicate Repeats(st: Turn, x: Item) {
    x.Completed? && st.stopDeadline.Some? && !st.confirmed && st.counted
  }

  lemma EndingUsages(st: Turn, e: Event)
    requires e != Usage
    ensures Usages(Ending(st, e)) == if st.counted then 1 else 0
  {
    UsagesOf(Yield(Usage), Yield(e));
    UsagesOf(Yield(e), Yield(e));
    assert Ending(st, e) == if st.counted then [Yield(Usage), Yield(e)] else [Yield(e)];
  }

  lemma FinalUsages(st: Turn, i: Input, x: Item)
    requires Closing(x) && st.stopDeadline.Some?
    ensures Usages(FinalActs(st, i, x)) <= 2 && (Usages(FinalActs(st, i, x)) == 2 <==> Repeats(st, x))
  {
    var rest := FinalActs(st, i, x)[|Spending(st)|..];
    assert FinalActs(st, i, x) == Spending(st) + rest;
    UsagesConcat(Spending(st), rest);
    UsagesOf(Yield(Usage), Yield(RunFailed));
    UsagesOf(Yield(RunFailed), Yield(RunFailed));
    UsagesOf(Yield(RunCompleted("")), Yield(RunFailed));
    EndingUsages(st, RunFailed);
  }

  lemma ItemUsages(t: Terms, st: Turn, i: Input, x: Item, left: nat)
    ensures var acts := ItemActs(t, st, i, x, left);
      && Usages(acts) <= 2 && (Usages(acts) == 2 <==> Repeats(st, x))
      && (ItemFate(t, st, i, x, left).GoesOn? ==> Usages(acts) == 0)
  {
    var acts := ItemActs(t, st, i, x, left);
    if Closing(x) && st.stopDeadline.Some? {
      FinalUsages(st, i, x);
    } else if Closing(x) {
      EndingUsages(st, RunFailed);
      UsagesOf(Remind, Remind);
      if x.Completed? {
        UsagesOf(Yield(Usage), Yield(RunCompleted(x.text)));
      }
    } else if acts != [] {
      UsagesOf(acts[0], acts[0]);
      assert acts == [acts[0]];
    }
  }

  /** So does a line whose first final item is a success, with counts before it. */
  ghost predicate LineRepeats(st: Turn, items: seq<Item>) {
    && st.stopDeadline.Some? && !st.confirmed
    && exists n :: 0 <= n < |items| && SucceedsFirst(items, n) && (st.counted || Spent(true) in items[..n])
  }

  predicate SucceedsFirst(items: seq<Item>, n: nat)
    requires n < |items|
  {
    items[n].Completed? && forall k :: 0 <= k < n ==> !Closing(items[k])
  }

  lemma LineRepeatsRest(st: Turn, next: Turn, items: seq<Item>)
    requires items != [] && !Closing(items[0])
    requires next.stopDeadline == st.stopDeadline && next.confirmed == st.confirmed
    requires next.counted == (st.counted || items[0] == Spent(true))
    ensures LineRepeats(st, items) <==> LineRepeats(next, items[1..])
  {
    var rest := items[1..];
    forall n | 0 <= n < |rest|
      ensures SucceedsFirst(items, n + 1) == SucceedsFirst(rest, n)
      ensures Spent(true) in items[..n + 1] <==> items[0] == Spent(true) || Spent(true) in rest[..n]
    {
      assert items[..n + 1] == [items[0]] + rest[..n];
      assert forall k :: 0 <= k < n ==> rest[k] == items[k + 1];
    }
    if LineRepeats(st, items) {
      var n :| 0 <= n < |items| && SucceedsFirst(items, n) && (st.counted || Spent(true) in items[..n]);
      assert SucceedsFirst(rest, n - 1);
    }
    if LineRepeats(next, rest) {
      var n :| 0 <= n < |rest| && SucceedsFirst(rest, n) && (next.counted || Spent(true) in rest[..n]);
      assert SucceedsFirst(items, n + 1);
    }
  }

  lemma LineRepeatsNow(st: Turn, items: seq<Item>)
    requires items != [] && Closing(items[0])
    ensures LineRepeats(st, items) <==> Repeats(st, items[0])
  {
    assert SucceedsFirst(items, 0) <==> items[0].Completed?;
    assert items[..0] == [];
  }

  lemma {:induction false} ItemsUsages(t: Terms, st: Turn, i: Input, items: seq<Item>, left: nat)
    ensures var acts := ItemsActs(t, st, i, items, left);
      && Usages(acts) <= 2 && (Usages(acts) == 2 <==> LineRepeats(st, items))
      && (ItemsFate(t, st, i, items, left).GoesOn? ==> Usages(acts) == 0)
    decreases |items|
  {
    if items != [] {
      var x, rest := items[0], items[1..];
      var f, here, left' := ItemFate(t, st, i, x, left), ItemActs(t, st, i, x, left), LeftAfter(t, st, x, left);
      ItemUsages(t, st, i, x, left);
      if f.GoesOn? {
        ItemsUsages(t, f.next, i, rest, left');
        UsagesConcat(here, ItemsActs(t, f.next, i, rest, left'));
        NextLineRepeats(t, st, i, items, left);
      } else {
        assert here + [] == here;
        LineRepeatsNow(st, items);
      }
    }
  }

  lemma NextLineRepeats(t: Terms, st: Turn, i: Input, items: seq<Item>, left: nat)
    requires items != [] && ItemFate(t, st, i, items[0], left).GoesOn?
    ensures LineRepeats(st, items) <==> LineRepeats(ItemFate(t, st, i, items[0], left).next, items[1..])
  {
    if st.stopDeadline.Some? {
      LineRepeatsRest(st, ItemFate(t, st, i, items[0], left).next, items);
    }
  }

  /** An input after which usage has been reported twice. */
  ghost predicate RepeatsUsage(st: Turn, i: Input) {
    InTime(st, i) && !i.frame.TooDeep? && !Control(i) && i.parsed.Items? && LineRepeats(st, i.parsed.items)
  }

  lemma HandOverUsages(st: Turn, i: Input, d: Message, id: CallId, a: Handoff.Answer)
    requires i.take == Got(a)
    ensures Usages(HandOverActs(st, i, id, a)) <= 1
    ensures AwaitFate(st, i, d).GoesOn? ==> Usages(HandOverActs(st, i, id, a)) == 0
  {
    EndingUsages(st, RunFailed);
    UsagesOf(Interrupt, Interrupt);
    var more: seq<Act> := if !a.terminal then [] else if i.sends == 1 then Ending(st, RunFailed) else [Interrupt];
    var rest := if i.sends == 0 then Ending(st, RunFailed) else [Answer(id, a)] + more;
    UsagesFirst(Answer(id, a), more);
    UsagesFirst(Yield(ToolResult(id, a.success)), rest);
    assert HandOverActs(st, i, id, a) == [Yield(ToolResult(id, a.success))] + rest;
  }

  lemma AwaitUsages(st: Turn, i: Input, d: Message, id: CallId)
    ensures Usages(AwaitActs(st, i, id)) <= 1
    ensures AwaitFate(st, i, d).GoesOn? ==> Usages(AwaitActs(st, i, id)) == 0
  {
    EndingUsages(st, RunFailed);
    EndingUsages(st, RunCancelled);
    if i.take.Got? {
      HandOverUsages(st, i, d, id, i.take.answer);
    }
  }

  lemma SendBackUsages(t: Terms, st: Turn, i: Input, d: Message, id: CallId, tool: string)
    requires i.publish == Replied(Handoff.InvalidArguments)
    ensures Usages(OfferActs(t, st, i, id, tool)) <= 1
    ensures OfferFate(t, st, i, d).GoesOn? ==> Usages(OfferActs(t, st, i, id, tool)) == 0
  {
    EndingUsages(st, RunFailed);
    var rest := if i.sends == 0 then Ending(st, RunFailed) else [Reject(id)];
    UsagesOf(Reject(id), Reject(id));
    UsagesFirst(Yield(ToolResult(id, false)), rest);
  }

  lemma PublishedUsages(t: Terms, st: Turn, i: Input, d: Message, id: CallId, tool: string)
    requires i.publish == Replied(Handoff.Published)
    ensures Usages(OfferActs(t, st, i, id, tool)) <= 1
    ensures OfferFate(t, st, i, d).GoesOn? ==> Usages(OfferActs(t, st, i, id, tool)) == 0
  {
    var st' := st.(calls := st.calls + 1);
    AwaitUsages(st', i, d, id);
    UsagesOf(Publish(id, tool), Yield(ToolCall(id)));
    UsagesConcat([Publish(id, tool), Yield(ToolCall(id))], AwaitActs(st', i, id));
  }

  lemma OfferUsages(t: Terms, st: Turn, i: Input, d: Message, id: CallId, tool: string)
    ensures Usages(OfferActs(t, st, i, id, tool)) <= 1
    ensures OfferFate(t, st, i, d).GoesOn? ==> Usages(OfferActs(t, st, i, id, tool)) == 0
  {
    if i.publish == Replied(Handoff.Published) {
      PublishedUsages(t, st, i, d, id, tool);
    } else if i.publish == Replied(Handoff.InvalidArguments) {
      SendBackUsages(t, st, i, d, id, tool);
    } else {
      EndingUsages(st, RunFailed);
    }
  }

  lemma FailUsages(st: Turn, f: Fate<Turn>)
    ensures Usages(FailActs(st, f)) <= 1 && (f.GoesOn? ==> Usages(FailActs(st, f)) == 0)
  {
    EndingUsages(st, RunFailed);
  }

  lemma AskedFate(t: Terms, st: Turn, i: Input, d: Message)
    requires Asks(st, d).Some?
    ensures RequestFate(t, st, i, d) == OfferFate(t, st.(number := st.number + 1), i, d)
  {
  }

  lemma RequestUsages(t: Terms, st: Turn, i: Input, d: Message)
    ensures Usages(RequestActs(t, st, i, d)) <= 1
    ensures RequestFate(t, st, i, d).GoesOn? ==> Usages(RequestActs(t, st, i, d)) == 0
  {
    if Asks(st, d).Some? {
      AskedFate(t, st, i, d);
      OfferUsages(t, st, i, d, Numbered(st.number + 1), Asks(st, d).value.tool);
    } else {
      FailUsages(st, RequestFate(t, st, i, d));
    }
  }

  lemma ResponseUsages(st: Turn, d: Message)
    ensures Usages(ResponseActs(st, d)) <= 1 && (ResponseFate(st, d).GoesOn? ==> Usages(ResponseActs(st, d)) == 0)
  {
    FailUsages(st, ResponseFate(st, d));
    UsagesOf(Confirm, Confirm);
  }

  lemma InputUsages(t: Terms, st: Turn, i: Input)
    ensures var acts := Writing(t)(st, i);
      && Usages(acts) <= 2 && (Usages(acts) == 2 <==> RepeatsUsage(st, i))
      && (Reading(t)(st, i).GoesOn? ==> Usages(acts) == 0)
  {
    EndingUsages(st, RunFailed);
    if Control(i) {
      RequestUsages(t, st, i, i.frame.message);
      ResponseUsages(st, i.frame.message);
    } else if i.parsed.Items? {
      ItemsUsages(t, st, i, i.parsed.items, i.sends);
    }
  }

  /** Input `n` is reached, and repeats the usage. */
  ghost predicate RepeatsAt(t: Terms, st: Turn, inputs: seq<Input>, n: nat)
    requires n < |inputs|
  {
    Reached(Reading(t), st, inputs, n).Some? && RepeatsUsage(Reached(Reading(t), st, inputs, n).value, inputs[n])
  }

  lemma RepeatsFirst(t: Terms, st: Turn, inputs: seq<Input>)
    requires inputs != []
    ensures RepeatsAt(t, st, inputs, 0) <==> RepeatsUsage(st, inputs[0])
    ensures var f := Reading(t)(st, inputs[0]);
      forall n :: 0 < n < |inputs| ==>
        (RepeatsAt(t, st, inputs, n) <==> f.GoesOn? && RepeatsAt(t, f.next, inputs[1..], n - 1))
  {
  }

  ghost predicate SomeRepeats(t: Terms, st: Turn, inputs: seq<Input>) {
    exists n :: 0 <= n < |inputs| && RepeatsAt(t, st, inputs, n)
  }

  lemma SomeRepeatsFirst(t: Terms, st: Turn, inputs: seq<Input>)
    requires inputs != []
    ensures var f := Reading(t)(st, inputs[0]);
      SomeRepeats(t, st, inputs) <==>
      RepeatsUsage(st, inputs[0]) || (f.GoesOn? && SomeRepeats(t, f.next, inputs[1..]))
  {
    var f, rest := Reading(t)(st, inputs[0]), inputs[1..];
    RepeatsFirst(t, st, inputs);
    if f.GoesOn? && SomeRepeats(t, f.next, rest) {
      var n :| 0 <= n < |rest| && RepeatsAt(t, f.next, rest, n);
      assert RepeatsAt(t, st, inputs, n + 1);
    }
  }

  /** A turn reports usage at most twice, and twice exactly when it reaches such an input. */
  lemma {:induction false} UsageRepeatedIff(t: Terms, st: Turn, inputs: seq<Input>)
    ensures Usages(TurnActs(t, st, inputs)) <= 2
    ensures Usages(TurnActs(t, st, inputs)) == 2 <==> SomeRepeats(t, st, inputs)
    decreases |inputs|
  {
    if inputs == [] {
      EndingUsages(st, RunFailed);
    } else {
      var f, here, rest := Reading(t)(st, inputs[0]), Writing(t)(st, inputs[0]), inputs[1..];
      InputUsages(t, st, inputs[0]);
      SomeRepeatsFirst(t, st, inputs);
      if f.GoesOn? {
        UsageRepeatedIff(t, f.next, rest);
        UsagesConcat(here, TurnActs(t, f.next, rest));
      } else {
        assert here + [] == here;
      }
    }
  }

  lemma RepeatingLine(t: Terms, st: Turn, i: Input)
    requires InTime(st, i) && st.stopDeadline.Some? && !st.confirmed
    requires i.frame == Line(map["type" := Str("result")]) && i.parsed == Items([Spent(true), Completed("x")])
    ensures InputFate(t, st, i) == Ends(Finished)
    ensures InputActs(t, st, i) == [Yield(Usage), Yield(Usage), Yield(RunFailed)]
  {
    var items := [Spent(true), Completed("x")];
    var st' := st.(counted := true);
    assert items[1..] == [Completed("x")] && [Completed("x")][1..] == [];
    assert ItemsActs(t, st', i, items[1..], i.sends) == FinalActs(st', i, Completed("x"));
  }

  /** A call whose result the client marks terminal, then the usage and a success, before the CLI has
      confirmed the interrupt. */
  lemma UsageRepeated(t: Terms, call: Input, end: Input)
    requires IsCall(Key(0, None, false), call) && call.take.answer.terminal
    requires call.now == end.now && end.wait <= TERMINAL_STOP_S
    requires end.frame == Line(map["type" := Str("result")]) && end.parsed == Items([Spent(true), Completed("x")])
    ensures TurnActs(t, Opening(t), [call, end]) ==
      InputActs(t, Opening(t), call) + [Yield(Usage), Yield(Usage), Yield(RunFailed)]
  {
    WelcomeGoesOn(t, Opening(t), call);
    var next := InputFate(t, Opening(t), call).next;
    RepeatingLine(t, next, end);
    assert [call, end][1..] == [end];
    assert TurnActs(t, next, [end]) == InputActs(t, next, end) + [];
  }

  function ToolsCall(name: string): Message {
    var message := map["id" := Num(1), "method" := Str("tools/call"), "params" := Obj(map["name" := Str(name)])];
    var request := map["subtype" := Str("mcp_message"), "server_name" := SERVER, "message" := Obj(message)];
    map["type" := Str("control_request"), "request" := Obj(request)]
  }

  /** The client answers the call at once and marks its result terminal. */
  function AnsweredCall(): Input {
    Input(0.0, 0.0, Line(ToolsCall("answer")), Items([]),
          Replied(Handoff.Published), Got(Handoff.Answer(true, [], true)), 2)
  }

  /** The CLI reports its usage and success as if nobody had interrupted it. */
  function PlainResult(): Input {
    Input(0.0, 0.0, Line(map["type" := Str("result")]), Items([Spent(true), Completed("x")]),
          Replied(Handoff.Published), Exited, 0)
  }

  /** These two lines are enough. */
  lemma TwoLinesRepeat(t: Terms)
    ensures TurnActs(t, Opening(t), [AnsweredCall(), PlainResult()]) ==
      InputActs(t, Opening(t), AnsweredCall()) + [Yield(Usage), Yield(Usage), Yield(RunFailed)]
  {
    assert Asking(ToolsCall("answer"), "tools/call");
    UsageRepeated(t, AnsweredCall(), PlainResult());
  }

  // ---------------------------------------------------------------- a CLI that plays by the protocol

  /** The variables the protocol turns on. */
  datatype Key = Key(calls: nat, stopDeadline: Option<real>, confirmed: bool)

  function KeyOf(st: Turn): Key {
    Key(st.calls, st.stopDeadline, st.confirmed)
  }

  ghost predicate InTimeFor(k: Key, i: Input) {
    k.stopDeadline.Some? ==> 0.0 < k.stopDeadline.value - i.now && i.wait <= k.stopDeadline.value - i.now
  }

  /** A `tools/call` to our server that the client is offered and answers. */
  ghost predicate IsCall(k: Key, i: Input) {
    && k.stopDeadline.None? && i.frame.Line? && Asking(i.frame.message, "tools/call")
    && Dict(In(Mcp(i.frame.message), "params")) && In(In(Mcp(i.frame.message), "params"), "name").Str?
    && i.publish == Replied(Handoff.Published) && i.take.Got? && i.sends >= 2
  }

  ghost predicate IsInterruptReply(k: Key, i: Input) {
    && k.stopDeadline.Some? && !k.confirmed && Kind(i) == Str("control_response")
    && In(Get(i.frame.message, "response"), "request_id") == INTERRUPT
    && In(Get(i.frame.message, "response"), "subtype") == Str("success")
  }

  ghost predicate IsChatter(i: Input) {
    !i.frame.TooDeep? && !Control(i) && i.parsed.Items? && forall n :: 0 <= n < |i.parsed.items| ==>
        !Closing(i.parsed.items[n])
  }

  predicate Allowed(t: Terms, k: Key) {
    if k.stopDeadline.Some? then k.confirmed else t.required ==> k.calls > 0
  }

  /** The result line of a turn that was interrupted and nothing else: an abort reason, no API error, no
      answer, and no error but the CLI's own diagnostics. */
  predicate OnlyInterrupted(d: Message) {
    var errors := Get(d, "errors");
    && Get(d, "type") == Str("result")
    && (Get(d, "terminal_reason") == Str("aborted_streaming") || Get(d, "terminal_reason") == Str("aborted_tools"))
    && Get(d, "api_error_status") == Null
    && Get(d, "result") in {Null, Bool(false), Num(0), Str(""), Arr([]), Obj(map[])}
    && match errors
       case Arr(items) => forall e :: e in items ==> e.Str? && "[ede_diagnostic]" <= e.s
       case Obj(fields) => forall key :: key in fields ==> "[ede_diagnostic]" <= key
       case _ => errors in {Null, Bool(false), Num(0), Str("")}
  }

  /** What ends a turn: the CLI's success, or the failure it reports for our own interrupt. */
  predicate EndingItem(k: Key, i: Input, x: Item) {
    x.Completed? || (x.Failed? && k.stopDeadline.Some? && i.frame.Line? && OnlyInterrupted(i.frame.message))
  }

  /** Items of which the last one ends the turn. */
  predicate EndingItems(k: Key, i: Input, items: seq<Item>) {
    items != [] && EndingItem(k, i, items[|items| - 1]) && forall n :: 0 <= n < |items| - 1 ==> !Closing(items[n])
  }

  /** The line that ends the turn, allowed now. */
  ghost predicate IsEnd(t: Terms, k: Key, i: Input) {
    !i.frame.TooDeep? && !Control(i) && i.parsed.Items? && EndingItems(k, i, i.parsed.items) && Allowed(t, k)
  }

  ghost predicate Welcome(k: Key, i: Input) {
    InTimeFor(k, i) && (IsCall(k, i) || IsInterruptReply(k, i) || IsChatter(i))
  }

  ghost function Heard(k: Key, i: Input): Key {
    if IsCall(k, i) then
      Key(k.calls + 1, if i.take.answer.terminal then Some(i.now + TERMINAL_STOP_S) else None, k.confirmed)
    else if IsInterruptReply(k, i) then k.(confirmed := true)
    else k
  }

  ghost predicate Cooperative(t: Terms, k: Key, inputs: seq<Input>)
    decreases |inputs|
  {
    && inputs != []
    && if |inputs| == 1 then InTimeFor(k, inputs[0]) && IsEnd(t, k, inputs[0])
       else Welcome(k, inputs[0]) && Cooperative(t, Heard(k, inputs[0]), inputs[1..])
  }

  ghost function EndText(k: Key, i: Input, items: seq<Item>): string
    requires EndingItems(k, i, items)
  {
    if k.stopDeadline.Some? then "" else items[|items| - 1].text
  }

  /** The answer of the conversation: the CLI's result text, nothing after a terminal result. */
  ghost function LastText(t: Terms, k: Key, inputs: seq<Input>): string
    requires Cooperative(t, k, inputs)
    decreases |inputs|
  {
    if |inputs| == 1 then EndText(k, inputs[0], inputs[0].parsed.items)
    else LastText(t, Heard(k, inputs[0]), inputs[1..])
  }

  lemma {:induction false} ChatterGoesOn(t: Terms, st: Turn, i: Input, items: seq<Item>, left: nat)
    requires forall n :: 0 <= n < |items| ==> !Closing(items[n])
    ensures var f := ItemsFate(t, st, i, items, left); f.GoesOn? && KeyOf(f.next) == KeyOf(st)
    decreases |items|
  {
    if items != [] {
      ChatterGoesOn(t, ItemFate(t, st, i, items[0], left).next, i, items[1..], LeftAfter(t, st, items[0], left));
    }
  }

  /** `interrupt_was_clean`, on the fields of the line. */
  lemma OnlyInterruptedIff(d: Message)
    ensures OnlyInterrupted(d) <==>
      Get(d, "type") == Str("result") && Walkable(Get(d, "errors")) && InterruptWasClean(d)
  {
    var errors := Get(d, "errors");
    if errors.Arr? {
      assert forall e :: e in errors.items <==> exists k :: 0 <= k < |errors.items| && errors.items[k] == e;
    }
  }

  lemma {:induction false} EndingCompletes(t: Terms, st: Turn, i: Input, items: seq<Item>, left: nat)
    requires EndingItems(KeyOf(st), i, items) && Allowed(t, KeyOf(st)) && i.frame != TooDeep
    ensures ItemsFate(t, st, i, items, left) == Ends(Finished)
    ensures var acts := ItemsActs(t, st, i, items, left);
      acts != [] && acts[|acts| - 1] == Yield(RunCompleted(EndText(KeyOf(st), i, items)))
    decreases |items|
  {
    if |items| > 1 {
      var next := ItemFate(t, st, i, items[0], left).next;
      EndingCompletes(t, next, i, items[1..], LeftAfter(t, st, items[0], left));
    } else if items[0].Failed? {
      OnlyInterruptedIff(i.frame.message);
    }
  }

  lemma WelcomeGoesOn(t: Terms, st: Turn, i: Input)
    requires Welcome(KeyOf(st), i)
    ensures var f := InputFate(t, st, i); f.GoesOn? && KeyOf(f.next) == Heard(KeyOf(st), i)
  {
    if IsChatter(i) {
      ChatterGoesOn(t, st, i, i.parsed.items, i.sends);
    }
  }

  /** Such a conversation completes, with its answer. */
  lemma {:induction false} CooperativeCompletes(t: Terms, st: Turn, inputs: seq<Input>)
    requires Cooperative(t, KeyOf(st), inputs)
    ensures EndOf(Reading(t), st, inputs) == Finished
    ensures var acts := TurnActs(t, st, inputs);
      acts != [] && acts[|acts| - 1] == Yield(RunCompleted(LastText(t, KeyOf(st), inputs)))
    decreases |inputs|
  {
    if |inputs| > 1 {
      WelcomeGoesOn(t, st, inputs[0]);
      CooperativeCompletes(t, InputFate(t, st, inputs[0]).next, inputs[1..]);
    } else {
      EndingCompletes(t, st, inputs[0], inputs[0].parsed.items, inputs[0].sends);
    }
  }

  // ---------------------------------------------------------------- the loop

  /** `if _counted(usage): yield usage`, then the final event: every way out but a plain completion. */
  method Finish(st: Turn, acts: seq<Act>, e: Event) returns (acts': seq<Act>, v: Verdict)
    ensures acts' == acts + Ending(st, e) && v == Over(Finished)
  {
    acts' := acts;
    if st.counted {
      acts' := acts' + [Yield(Usage)];
    }
    acts' := acts' + [Yield(e)];
    v := Over(Finished);
  }

  /** control_response: our initialize or, once it was sent, our interrupt. */
  method OnControlResponse(t: Terms, st0: Turn, acts0: seq<Act>, i: Input, d: Message)
    returns (st: Turn, acts: seq<Act>, v: Verdict)
    requires i.frame == Line(d)
    ensures FateOf(st, v) == ResponseFate(st0, d)
    ensures acts == acts0 + ResponseActs(st0, d)
  {
    st, acts, v := st0, acts0, Go;
    var response := Get(d, "response");
    if !Dict(response) {
      return st, acts, Over(Crashed);
    }
    var id := In(response, "request_id");
    if !(id == INIT || (st.stopDeadline.Some? && id == INTERRUPT)) || In(response, "subtype") != Str("success") {
      acts, v := Finish(st, acts, RunFailed);
      return;
    }
    if id == INTERRUPT {
      if st.confirmed {
        acts, v := Finish(st, acts, RunFailed);
        return;
      }
      acts := acts + [Confirm];
      st := st.(confirmed := true);
    }
  }

  /** The client's result goes to the model; a terminal one also stops the turn. */
  method HandOver(t: Terms, st0: Turn, acts0: seq<Act>, i: Input, d: Message, id: CallId, a: Handoff.Answer)
    returns (st: Turn, acts: seq<Act>, v: Verdict)
    requires i.take == Got(a)
    ensures FateOf(st, v) == AwaitFate(st0, i, d)
    ensures acts == acts0 + HandOverActs(st0, i, id, a)
  {
    st, acts, v := st0, acts0, Go;
    acts := acts + [Yield(ToolResult(id, a.success))];
    if i.sends == 0 {
      acts, v := Finish(st, acts, RunFailed);
      return;
    }
    acts := acts + [Answer(id, a)];
    st := Answered(st, d);
    if a.terminal {
      if i.sends == 1 {
        acts, v := Finish(st, acts, RunFailed);
        return;
      }
      acts := acts + [Interrupt];
      st := st.(stopDeadline := Some(i.now + TERMINAL_STOP_S));
    }
  }

  /** The published call: poll until the client's result is there, or the wait ends otherwise. */
  method AwaitClient(t: Terms, st0: Turn, acts0: seq<Act>, i: Input, d: Message, id: CallId)
    returns (st: Turn, acts: seq<Act>, v: Verdict)
    ensures FateOf(st, v) == AwaitFate(st0, i, d)
    ensures acts == acts0 + AwaitActs(st0, i, id)
  {
    st, acts := st0, acts0;
    match i.take {
      case WaitStale =>
        v := Over(Stale);
      case WaitRaised =>
        v := Over(Crashed);
      case WaitCancelled =>
        acts, v := Finish(st, acts, RunCancelled);
      case WaitConflict =>
        acts, v := Finish(st, acts, RunFailed);
      case Exited =>
        acts, v := Finish(st, acts, RunFailed);
      case Got(answer) =>
        st, acts, v := HandOver(t, st, acts, i, d, id, answer);
    }
  }

  /** Broken arguments go back to the model, within the budget. */
  method SendBack(t: Terms, st0: Turn, acts0: seq<Act>, i: Input, d: Message, id: CallId, ghost tool: string)
    returns (st: Turn, acts: seq<Act>, v: Verdict)
    requires i.publish == Replied(Handoff.InvalidArguments)
    ensures FateOf(st, v) == OfferFate(t, st0, i, d)
    ensures acts == acts0 + OfferActs(t, st0, i, id, tool)
  {
    st, acts := st0, acts0;
    if st.rejected >= t.argRetries {
      acts, v := Finish(st, acts, RunFailed);
      return;
    }
    acts := acts + [Yield(ToolResult(id, false))];
    if i.sends == 0 {
      acts, v := Finish(st, acts, RunFailed);
      return;
    }
    acts := acts + [Reject(id)];
    st := Answered(st.(rejected := st.rejected + 1), d);
    v := Go;
  }

  /** Offer the call to the client. */
  method Offer(t: Terms, st0: Turn, acts0: seq<Act>, i: Input, d: Message, id: CallId, tool: string)
    returns (st: Turn, acts: seq<Act>, v: Verdict)
    ensures FateOf(st, v) == OfferFate(t, st0, i, d)
    ensures acts == acts0 + OfferActs(t, st0, i, id, tool)
  {
    st, acts := st0, acts0;
    match i.publish {
      case OfferRaised =>
        v := Over(Crashed);
      case Replied(PublishStale) =>
        v := Over(Stale);
      case Replied(PublishConflict) =>
        acts, v := Finish(st, acts, RunFailed);
      case Replied(InvalidArguments) =>
        st, acts, v := SendBack(t, st, acts, i, d, id, tool);
      case Replied(Published) =>
        acts := acts + [Publish(id, tool)];
        st := st.(calls := st.calls + 1);
        acts := acts + [Yield(ToolCall(id))];
        st, acts, v := AwaitClient(t, st, acts, i, d, id);
    }
  }

  /** tools/call */
  method OnToolCall(t: Terms, st0: Turn, acts0: seq<Act>, i: Input, d: Message)
    returns (st: Turn, acts: seq<Act>, v: Verdict)
    requires i.frame == Line(d) && Asking(d, "tools/call")
    ensures FateOf(st, v) == RequestFate(t, st0, i, d)
    ensures acts == acts0 + RequestActs(t, st0, i, d)
  {
    st, acts := st0, acts0;
    if st.stopDeadline.Some? {
      acts, v := Finish(st, acts, RunFailed);
      return;
    }
    st := st.(number := st.number + 1);
    var params := In(Mcp(d), "params");
    if !Dict(params) {
      return st, acts, Over(Crashed);
    }
    if !In(params, "name").Str? {
      acts, v := Finish(st, acts, RunFailed);
      return;
    }
    st, acts, v := Offer(t, st, acts, i, d, Numbered(st.number), In(params, "name").s);
  }

  /** control_request and control_cancel_request */
  method OnControlRequest(t: Terms, st0: Turn, acts0: seq<Act>, i: Input, d: Message)
    returns (st: Turn, acts: seq<Act>, v: Verdict)
    requires i.frame == Line(d)
    requires Kind(i) == Str("control_request") || Kind(i) == Str("control_cancel_request")
    ensures FateOf(st, v) == RequestFate(t, st0, i, d)
    ensures acts == acts0 + RequestActs(t, st0, i, d)
  {
    st, acts := st0, acts0;
    if Kind(i) == Str("control_cancel_request") {
      if !Hashable(Get(d, "request_id")) {
        return st, acts, Over(Crashed);
      }
      var id := Get(d, "request_id");
      if id.Str? && id.s in st.answered {
        return st, acts, Go;       // the CLI gave up on a call we already answered
      }
    }
    var request := Get(d, "request");
    if !Dict(request) {
      return st, acts, Over(Crashed);
    }
    var message := In(request, "message");
    if Kind(i) != Str("control_request") || In(request, "subtype") != Str("mcp_message")
       || In(request, "server_name") != SERVER || !message.Obj? {
      acts, v := Finish(st, acts, RunFailed);
      return;
    }
    var kind := In(message, "method");
    var params := In(message, "params");
    if In(message, "id") != Null && kind == Str("initialize") && !Dict(params) {
      return st, acts, Over(Crashed);
    }
    if In(message, "id") != Null && kind == Str("tools/call") {
      st, acts, v := OnToolCall(t, st, acts, i, d);
    } else if i.sends == 0 {
      acts, v := Finish(st, acts, RunFailed);
    } else {
      st, v := Answered(st, d), Go;
    }
  }

  method OnFinalWhileStopped(t: Terms, st: Turn, acts0: seq<Act>, i: Input, x: Item)
    returns (acts: seq<Act>, v: Verdict)
    requires st.stopDeadline.Some? && Closing(x)
    ensures v == Over(if x.Failed? && Unwalkable(i) then Crashed else Finished)
    ensures acts == acts0 + FinalActs(st, i, x)
  {
    acts := acts0;
    if st.counted {
      acts := acts + [Yield(Usage)];
    }
    if x.Failed? {
      if Unwalkable(i) {
        return acts, Over(Crashed);
      }
      var cancelled := Kind(i) == Str("result") && InterruptWasClean(i.frame.message);
      if !(st.confirmed && cancelled) {
        acts := acts + [Yield(RunFailed)];
        return acts, Over(Finished);
      }
    }
    if !st.confirmed {
      acts, v := Finish(st, acts, RunFailed);
      return;
    }
    acts := acts + [Yield(RunCompleted(""))];
    v := Over(Finished);
  }

  method OnItem(t: Terms, st0: Turn, acts0: seq<Act>, i: Input, x: Item, sends: nat)
    returns (st: Turn, acts: seq<Act>, v: Verdict, left: nat)
    ensures FateOf(st, v) == ItemFate(t, st0, i, x, sends)
    ensures acts == acts0 + ItemActs(t, st0, i, x, sends)
    ensures left == LeftAfter(t, st0, x, sends)
  {
    st, acts, v, left := st0, acts0, Go, sends;
    match x {
      case Call(id, broker) =>
        if broker {
          st := st.(brokerUses := st.brokerUses + {id});
        } else {
          acts := acts + [Yield(ToolCall(Named(id)))];
        }
      case Result(id) =>
        if id !in st.brokerUses {
          acts := acts + [Yield(ToolResult(Named(id), true))];
        }
      case Spent(counted) =>
        st := st.(counted := st.counted || counted);
      case Delta =>
        if st.stopDeadline.None? {
          acts := acts + [Yield(OtherEvent)];
        }
      case Other =>
        acts := acts + [Yield(OtherEvent)];
      case Completed(text) =>
        if st.stopDeadline.Some? {
          acts, v := OnFinalWhileStopped(t, st, acts, i, x);
        } else if st.calls == 0 && t.required {
          if st.remindersLeft == 0 || left == 0 {
            acts, v := Finish(st, acts, RunFailed);
            return;
          }
          left := left - 1;
          st := st.(remindersLeft := st.remindersLeft - 1);
          acts := acts + [Remind];
        } else {
          acts := acts + [Yield(Usage)];
          acts := acts + [Yield(RunCompleted(text))];
          v := Over(Finished);
        }
      case Failed =>
        if st.stopDeadline.Some? {
          acts, v := OnFinalWhileStopped(t, st, acts, i, x);
        } else {
          acts, v := Finish(st, acts, RunFailed);
        }
    }
  }

  lemma ItemStep(t: Terms, st: Turn, i: Input, items: seq<Item>, n: nat, left: nat)
    requires n < |items|
    ensures var f := ItemFate(t, st, i, items[n], left);
      var left' := LeftAfter(t, st, items[n], left);
      && ItemsFate(t, st, i, items[n..], left) == (if f.Ends? then f
          else ItemsFate(t, f.next, i, items[n + 1..], left'))
      && ItemsActs(t, st, i, items[n..], left) ==
         ItemActs(t, st, i, items[n], left) + if f.Ends? then [] else ItemsActs(t, f.next, i, items[n + 1..], left')
  {
    var here := items[n..];
    assert here[0] == items[n] && here[1..] == items[n + 1..];
  }

  /** One item, seen from the rest of the line; `done` are the acts so far. */
  lemma ItemRound(t: Terms, st: Turn, i: Input, items: seq<Item>, n: nat, left: nat, done: seq<Act>)
    requires n < |items|
    ensures var f := ItemFate(t, st, i, items[n], left);
      var here, left' := done + ItemActs(t, st, i, items[n], left), LeftAfter(t, st, items[n], left);
      if f.Ends? then
        ItemsFate(t, st, i, items[n..], left) == f && done + ItemsActs(t, st, i, items[n..], left) == here
      else
        && ItemsFate(t, st, i, items[n..], left) == ItemsFate(t, f.next, i, items[n + 1..], left')
        && done + ItemsActs(t, st, i, items[n..], left) == here + ItemsActs(t, f.next, i, items[n + 1..], left')
  {
    ItemStep(t, st, i, items, n, left);
    var f, here := ItemFate(t, st, i, items[n], left), ItemActs(t, st, i, items[n], left);
    if f.GoesOn? {
      Regroup(done, here, ItemsActs(t, f.next, i, items[n + 1..], LeftAfter(t, st, items[n], left)));
    } else {
      Regroup(done, here, []);
    }
  }

  /** Where the line leads from here, and all the acts by then. */
  function Whole(t: Terms, st: Turn, i: Input, items: seq<Item>, left: nat, done: seq<Act>): (Fate<Turn>, seq<Act>) {
    (ItemsFate(t, st, i, items, left), done + ItemsActs(t, st, i, items, left))
  }

  method OnItemAt(t: Terms, st0: Turn, acts0: seq<Act>, i: Input, items: seq<Item>, n: nat, left0: nat)
    returns (st: Turn, acts: seq<Act>, v: Verdict, left: nat)
    requires n < |items|
    ensures Whole(t, st0, i, items[n..], left0, acts0) ==
      if v.Over? then (Ends(v.end), acts) else Whole(t, st, i, items[n + 1..], left, acts)
  {
    ItemRound(t, st0, i, items, n, left0, acts0);
    st, acts, v, left := OnItem(t, st0, acts0, i, items[n], left0);
  }

  method OnItems(t: Terms, st0: Turn, acts0: seq<Act>, i: Input, items: seq<Item>)
    returns (st: Turn, acts: seq<Act>, v: Verdict)
    ensures FateOf(st, v) == ItemsFate(t, st0, i, items, i.sends)
    ensures acts == acts0 + ItemsActs(t, st0, i, items, i.sends)
  {
    st, acts := st0, acts0;
    var n, left := 0, i.sends;
    ghost var all := Whole(t, st0, i, items, i.sends, acts0);
    while n < |items|
      invariant 0 <= n <= |items|
      invariant Whole(t, st, i, items[n..], left, acts) == all
    {
      st, acts, v, left := OnItemAt(t, st, acts, i, items, n, left);
      if v.Over? {
        return;
      }
      n := n + 1;
    }
    assert items[n..] == [] && acts + [] == acts;
    v := Go;
  }

  /** One round of the loop: the clock, then what was read. */
  method OnInput(t: Terms, st0: Turn, acts0: seq<Act>, i: Input) returns (st: Turn, acts: seq<Act>, v: Verdict)
    ensures FateOf(st, v) == Reading(t)(st0, i)
    ensures acts == acts0 + Writing(t)(st0, i)
    ensures (v == Over(Crashed) <==> Escapes(st0, i)) && (v == Over(Stale) <==> LosesLease(st0, i))
  {
    EscapesIff(t, st0, i);
    st, acts := st0, acts0;
    if st.stopDeadline.Some?
       && (st.stopDeadline.value - i.now <= 0.0 || i.wait > st.stopDeadline.value - i.now) {
      acts, v := Finish(st, acts, RunFailed);
    } else if i.frame.TooDeep? {
      v := Over(Crashed);
    } else if Kind(i) == Str("control_response") {
      st, acts, v := OnControlResponse(t, st, acts, i, i.frame.message);
    } else if Kind(i) == Str("control_request") || Kind(i) == Str("control_cancel_request") {
      st, acts, v := OnControlRequest(t, st, acts, i, i.frame.message);
    } else {
      match i.parsed {
        case Raises => v := Over(Crashed);
        case BadValue => acts, v := Finish(st, acts, RunFailed);
        case Items(items) => st, acts, v := OnItems(t, st, acts, i, items);
      }
    }
  }

  /** The loop itself, from any state. */
  method ReadTurn(t: Terms, st0: Turn, inputs: seq<Input>) returns (acts: seq<Act>, end: End)
    ensures acts == TurnActs(t, st0, inputs) && end == EndOf(Reading(t), st0, inputs)
  {
    var st := st0;
    acts := [];
    var n := 0;
    while n < |inputs|
      invariant 0 <= n <= |inputs|
      invariant EndOf(Reading(t), st, inputs[n..]) == EndOf(Reading(t), st0, inputs)
      invariant acts + TurnActs(t, st, inputs[n..]) == TurnActs(t, st0, inputs)
    {
      ghost var before, done := st, acts;
      var v;
      st, acts, v := OnInput(t, st, acts, inputs[n]);
      Round(Reading(t), Writing(t), DriedUp(t), before, inputs, n, st, v, done);
      if v.Over? {
        return acts, v.end;
      }
      n := n + 1;
    }
    assert inputs[n..] == [] && TurnActs(t, st, inputs[n..]) == Ending(st, RunFailed);
    var v;
    acts, v := Finish(st, acts, RunFailed);
    end := Finished;
  }

  /** For every stream the turn is lawful, and its acts and its end are those of `TurnActs` and
      `EndOf`; it has its one final event, last, unless an error or a lost lease leaves the loop,
      and then none. */
  method RunToolTurn(t: Terms, inputs: seq<Input>) returns (acts: seq<Act>, end: End)
    ensures Watch(t, acts).Some?
    ensures acts == TurnActs(t, Opening(t), inputs) && end == EndOf(Reading(t), Opening(t), inputs)
    ensures end == Finished ==> EndsOnce(acts)
    ensures end != Finished ==> forall k :: 0 <= k < |acts| ==> !IsFinal(acts[k])
  {
    acts, end := ReadTurn(t, Opening(t), inputs);
    TurnLawful(t, Opening(t), inputs);
    WatchFollows(t, acts);
    EndedMeans(t, acts);
  }
}
