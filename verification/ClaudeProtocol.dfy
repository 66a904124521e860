/**
 What the lines of a Claude Code turn mean, field by field (agent/claude_tool_turn.py), and what a turn
 therefore does: the description the loop of ClaudeTurn is held against.  Nothing here is used by
 that loop.
 */
module ClaudeProtocol {
  import opened Wrappers
  import opened Json
  import opened TurnLaw
  import opened ClaudeTurn
  import Handoff = ToolHandoff

  // ---------------------------------------------------------------- the control lines

  /** Before the deadline of a pending stop, if there is one. */
  predicate OnTime(st: Turn, i: Input) {
    st.stopDeadline.Some? ==> i.now < st.stopDeadline.value && i.now + i.wait <= st.stopDeadline.value
  }

  predicate Says(st: Turn, i: Input, d: Message) {
    OnTime(st, i) && i.frame == Line(d)
  }

  /** The CLI grants one of our own requests. */
  predicate Grants(d: Message, request: string) {
    && Get(d, "type") == Str("control_response")
    && In(Get(d, "response"), "request_id") == Str(request) && In(Get(d, "response"), "subtype") == Str("success")
  }

  predicate ConfirmsInterrupt(st: Turn, d: Message) {
    Grants(d, "broker-interrupt-1") && st.stopDeadline.Some? && !st.confirmed
  }

  /** A message to the broker's MCP server. */
  predicate ForServer(d: Message) {
    && Get(d, "type") == Str("control_request") && In(Get(d, "request"), "subtype") == Str("mcp_message")
    && In(Get(d, "request"), "server_name") == Str("broker") && In(Get(d, "request"), "message").Obj?
  }

  /** Which asks for an answer to this method. */
  predicate AsksServer(d: Message, name: string) {
    var message := In(Get(d, "request"), "message");
    ForServer(d) && In(message, "id") != Null && In(message, "method") == Str(name)
  }

  predicate CallsTool(st: Turn, d: Message, tool: string) {
    var params := In(In(Get(d, "request"), "message"), "params");
    && AsksServer(d, "tools/call") && st.stopDeadline == None
    && params.Obj? && In(params, "name") == Str(tool)
  }

  /** Any other message to the server is acknowledged. */
  predicate OnlyAcknowledged(d: Message) {
    && ForServer(d) && !AsksServer(d, "tools/call")
    && (AsksServer(d, "initialize") ==> Dict(In(In(Get(d, "request"), "message"), "params")))
  }

  /** The CLI gives up on a call that was answered already. */
  predicate GivesUp(st: Turn, d: Message) {
    && Get(d, "type") == Str("control_cancel_request")
    && exists id :: id in st.answered && Get(d, "request_id") == Str(id)
  }

  predicate IsControl(d: Message) {
    || Get(d, "type") == Str("control_response") || Get(d, "type") == Str("control_request")
    || Get(d, "type") == Str("control_cancel_request")
  }

  /** A line the parser reads. */
  predicate ForParser(st: Turn, i: Input) {
    OnTime(st, i) && i.frame != TooDeep && (i.frame.Line? ==> !IsControl(i.frame.message))
  }

  // ---------------------------------------------------------------- what each of them does

  predicate Does(t: Terms, st: Turn, i: Input, acts: seq<Act>, f: Fate<Turn>) {
    InputActs(t, st, i) == acts && InputFate(t, st, i) == f
  }

  /** What the turn spent is reported before its final event, if there are counts. */
  function WithUsage(st: Turn, e: Event): seq<Act> {
    if st.counted then [Yield(Usage), Yield(e)] else [Yield(e)]
  }

  lemma GrantedMeans(t: Terms, st: Turn, i: Input, d: Message)
    requires Says(st, i, d)
    ensures Grants(d, "broker-init-1") ==> Does(t, st, i, [], GoesOn(st))
    ensures ConfirmsInterrupt(st, d) ==> Does(t, st, i, [Confirm], GoesOn(st.(confirmed := true)))
  {
  }

  /** The id of an answered request is remembered as text. */
  predicate Remembered(st: Turn, next: Turn, d: Message) {
    var id := Get(d, "request_id");
    && (id.Str? ==> next.answered == st.answered + {id.s})
    && (id == Null ==> next.answered == st.answered + {"None"})
    && exists s :: s in next.answered && next.answered == st.answered + {s}
  }

  lemma SentBackMeans(t: Terms, st: Turn, i: Input, d: Message, tool: string)
    requires Says(st, i, d) && CallsTool(st, d, tool) && i.publish == Replied(Handoff.InvalidArguments)
    ensures var id := Numbered(st.number + 1);
      if st.rejected >= t.argRetries then Does(t, st, i, WithUsage(st, RunFailed), Ends(Finished))
      else if i.sends == 0 then
        Does(t, st, i, [Yield(ToolResult(id, false))] + WithUsage(st, RunFailed), Ends(Finished))
      else
        && InputActs(t, st, i) == [Yield(ToolResult(id, false)), Reject(id)]
        && InputFate(t, st, i).GoesOn?
        && var next := InputFate(t, st, i).next;
          Remembered(st, next, d) && next == st.(number := st.number + 1, rejected := st.rejected + 1,
                                                 answered := next.answered)
  {
  }

  lemma RefusedMeans(t: Terms, st: Turn, i: Input, d: Message, tool: string)
    requires Says(st, i, d) && CallsTool(st, d, tool) && i.publish == Replied(Handoff.PublishConflict)
    ensures Does(t, st, i, WithUsage(st, RunFailed), Ends(Finished))
  {
  }

  /** A published call whose wait brings no result: a cancelled job cancels the run, anything else
      fails it. */
  lemma NoResultMeans(t: Terms, st: Turn, i: Input, d: Message, tool: string)
    requires Says(st, i, d) && CallsTool(st, d, tool) && i.publish == Replied(Handoff.Published)
    ensures var id := Numbered(st.number + 1);
      var offered := [Publish(id, tool), Yield(ToolCall(id))];
      && (i.take == WaitCancelled ==> Does(t, st, i, offered + WithUsage(st, RunCancelled), Ends(Finished)))
      && (i.take == WaitConflict || i.take == Exited ==>
            Does(t, st, i, offered + WithUsage(st, RunFailed), Ends(Finished)))
  {
  }

  /** A published call the client answers: the result is shown and handed over as it is; a terminal one
      stops the turn, for thirty seconds at most. */
  lemma AnsweredMeans(t: Terms, st: Turn, i: Input, d: Message, tool: string, a: Handoff.Answer)
    requires Says(st, i, d) && CallsTool(st, d, tool) && i.publish == Replied(Handoff.Published) && i.take == Got(a)
    ensures var id := Numbered(st.number + 1);
      var shown := [Publish(id, tool), Yield(ToolCall(id)), Yield(ToolResult(id, a.success))];
      && (i.sends == 0 ==> Does(t, st, i, shown + WithUsage(st, RunFailed), Ends(Finished)))
      && (i.sends == 1 && a.terminal ==>
            Does(t, st, i, shown + [Answer(id, a)] + WithUsage(st, RunFailed), Ends(Finished)))
      && ((i.sends == 1 && !a.terminal) || i.sends > 1 ==>
            && InputActs(t, st, i) == shown + [Answer(id, a)] + (if a.terminal then [Interrupt] else [])
            && InputFate(t, st, i).GoesOn?
            && var next := InputFate(t, st, i).next;
              Remembered(st, next, d) && next == st.(number := st.number + 1, calls := st.calls + 1,
                answered := next.answered, stopDeadline := if a.terminal then Some(i.now + 30.0) else None))
  {
  }

  lemma AcknowledgedMeans(t: Terms, st: Turn, i: Input, d: Message)
    requires Says(st, i, d)
    ensures GivesUp(st, d) ==> Does(t, st, i, [], GoesOn(st))
    ensures OnlyAcknowledged(d) && i.sends == 0 ==> Does(t, st, i, WithUsage(st, RunFailed), Ends(Finished))
    ensures OnlyAcknowledged(d) && i.sends > 0 ==>
      && InputActs(t, st, i) == [] && InputFate(t, st, i).GoesOn?
      && var next := InputFate(t, st, i).next;
        Remembered(st, next, d) && next == st.(answered := next.answered)
  {
  }

  /** A control line the loop has a use for. */
  ghost predicate Expected(st: Turn, d: Message) {
    || Grants(d, "broker-init-1") || ConfirmsInterrupt(st, d) || GivesUp(st, d) || OnlyAcknowledged(d)
    || exists tool :: CallsTool(st, d, tool)
  }

  /** Late lines, lines the parser rejects and every other control line fail the turn, unless Python
      raises. */
  lemma UnexpectedMeans(t: Terms, st: Turn, i: Input)
    requires || !OnTime(st, i) || (ForParser(st, i) && i.parsed == BadValue)
             || (i.frame.Line? && IsControl(i.frame.message) && !Expected(st, i.frame.message))
    requires !Escapes(st, i)
    ensures Does(t, st, i, WithUsage(st, RunFailed), Ends(Finished))
  {
    if OnTime(st, i) && i.frame.Line? && IsControl(i.frame.message) {
      var d := i.frame.message;
      var tool := In(In(In(Get(d, "request"), "message"), "params"), "name");
      assert tool.Str? ==> !CallsTool(st, d, tool.s);
    }
  }

  // ---------------------------------------------------------------- what each parsed item does

  /** Item `x` writes exactly `acts`, leads to `f`, and `used` writes to the CLI were needed. */
  predicate ItemDoes(t: Terms, st: Turn, i: Input, x: Item, left: nat, acts: seq<Act>, f: Fate<Turn>, used: nat) {
    && ItemActs(t, st, i, x, left) == acts && ItemFate(t, st, i, x, left) == f
    && LeftAfter(t, st, x, left) + used == left
  }

  lemma ProgressMeans(t: Terms, st: Turn, i: Input, x: Item, left: nat)
    ensures match x
      case Call(id, true) => ItemDoes(t, st, i, x, left, [], GoesOn(st.(brokerUses := st.brokerUses + {id})), 0)
      case Call(id, false) => ItemDoes(t, st, i, x, left, [Yield(ToolCall(Named(id)))], GoesOn(st), 0)
      case Result(id) =>
        ItemDoes(t, st, i, x, left,
                 if id in st.brokerUses then [] else [Yield(ToolResult(Named(id), true))], GoesOn(st), 0)
      case Spent(counted) => ItemDoes(t, st, i, x, left, [], GoesOn(if counted then st.(counted := true) else st), 0)
      case Delta =>
        ItemDoes(t, st, i, x, left, if st.stopDeadline == None then [Yield(OtherEvent)] else [], GoesOn(st), 0)
      case Other => ItemDoes(t, st, i, x, left, [Yield(OtherEvent)], GoesOn(st), 0)
      case _ => true
  {
  }

  /** Success, while nothing is being stopped: the answer, or a reminder of the missing call. */
  lemma SuccessMeans(t: Terms, st: Turn, i: Input, text: string, left: nat)
    requires st.stopDeadline == None
    ensures var x := Completed(text);
      if !t.required || st.calls > 0 then
        ItemDoes(t, st, i, x, left, [Yield(Usage), Yield(RunCompleted(text))], Ends(Finished), 0)
      else if st.remindersLeft > 0 && left > 0 then
        ItemDoes(t, st, i, x, left, [Remind], GoesOn(st.(remindersLeft := st.remindersLeft - 1)), 1)
      else ItemDoes(t, st, i, x, left, WithUsage(st, RunFailed), Ends(Finished), 0)
  {
  }

  lemma FailureMeans(t: Terms, st: Turn, i: Input, left: nat)
    requires st.stopDeadline == None
    ensures ItemDoes(t, st, i, Failed, left, WithUsage(st, RunFailed), Ends(Finished), 0)
  {
  }

  /** After a terminal result: with the interrupt confirmed, a success completes the run with no text, and
      so does a failure that is only our own interrupt; any other failure fails it. */
  lemma StoppedMeans(t: Terms, st: Turn, i: Input, x: Item, left: nat)
    requires st.stopDeadline.Some? && st.confirmed && Closing(x) && i.frame != TooDeep
    requires i.frame.Line? ==> Walkable(Get(i.frame.message, "errors"))
    ensures if x.Completed? || (i.frame.Line? && OnlyInterrupted(i.frame.message))
      then ItemDoes(t, st, i, x, left, WithUsage(st, RunCompleted("")), Ends(Finished), 0)
      else ItemDoes(t, st, i, x, left, WithUsage(st, RunFailed), Ends(Finished), 0)
  {
    if i.frame.Line? {
      OnlyInterruptedIff(i.frame.message);
    }
  }

  /** And without the confirmation it fails; a success has then reported its usage already. */
  lemma UnconfirmedMeans(t: Terms, st: Turn, i: Input, x: Item, left: nat)
    requires st.stopDeadline.Some? && !st.confirmed && Closing(x)
    requires i.frame.Line? ==> Walkable(Get(i.frame.message, "errors"))
    ensures ItemDoes(t, st, i, x, left,
                     (if x.Completed? && st.counted then [Yield(Usage)] else []) + WithUsage(st, RunFailed),
                     Ends(Finished), 0)
  {
  }

  /** A line does what its items do, one after the other. */
  lemma LineMeans(t: Terms, st: Turn, i: Input, x: Item, rest: seq<Item>, left: nat)
    ensures var f, acts, left' := ItemFate(t, st, i, x, left), ItemActs(t, st, i, x, left), LeftAfter(t, st, x, left);
      && ItemsActs(t, st, i, [x] + rest, left)
         == acts + (if f.GoesOn? then ItemsActs(t, f.next, i, rest, left') else [])
      && ItemsFate(t, st, i, [x] + rest, left) == (if f.GoesOn? then ItemsFate(t, f.next, i, rest, left') else f)
      && ItemsActs(t, st, i, [], left) == [] && ItemsFate(t, st, i, [], left) == GoesOn(st)
  {
    assert ([x] + rest)[1..] == rest;
  }

  lemma ParsedMeans(t: Terms, st: Turn, i: Input)
    requires ForParser(st, i) && i.parsed.Items?
    ensures Does(t, st, i, ItemsActs(t, st, i, i.parsed.items, i.sends), ItemsFate(t, st, i, i.parsed.items, i.sends))
  {
  }

  // ---------------------------------------------------------------- what that makes of a whole turn

  /** The job is cancelled while the worker waits for the result of a published call. */
  ghost predicate CancelsWait(st: Turn, i: Input) {
    && OnTime(st, i) && i.frame.Line? && i.publish == Replied(Handoff.Published) && i.take == WaitCancelled
    && exists tool :: CallsTool(st, i.frame.message, tool)
  }

  /** The run is shown a result of call `id`: the client's, with its success, or a rejection. */
  ghost predicate ShowsResult(t: Terms, st: Turn, i: Input, id: CallId, ok: bool) {
    && OnTime(st, i) && i.frame.Line? && id == Numbered(st.number + 1)
    && (exists tool :: CallsTool(st, i.frame.message, tool))
    && (|| (i.publish == Replied(Handoff.Published) && i.take.Got? && i.take.answer.success == ok)
        || (i.publish == Replied(Handoff.InvalidArguments) && st.rejected < t.argRetries && !ok))
  }

  /** Item `n` is the first that ends a turn, and completes it with `text`. */
  ghost predicate CompletesAt(t: Terms, st: Turn, i: Input, items: seq<Item>, n: nat, text: string)
    requires n < |items|
  {
    && (forall k :: 0 <= k < n ==> !Closing(items[k]))
    && if st.stopDeadline == None then items[n] == Completed(text) && (t.required ==> st.calls > 0)
       else
         && st.confirmed && text == ""
         && (items[n].Completed? || (items[n].Failed? && i.frame.Line? && OnlyInterrupted(i.frame.message)))
  }

  ghost predicate SomeItemCompletes(t: Terms, st: Turn, i: Input, items: seq<Item>, text: string) {
    exists n :: 0 <= n < |items| && CompletesAt(t, st, i, items, n, text)
  }

  /** The turn ends here with this answer. */
  ghost predicate Answers(t: Terms, st: Turn, i: Input, text: string) {
    ForParser(st, i) && i.parsed.Items? && SomeItemCompletes(t, st, i, i.parsed.items, text)
  }

  lemma AskedCall(st: Turn, d: Message)
    ensures Asks(st, d).Some? ==> CallsTool(st, d, Asks(st, d).value.tool)
    ensures forall tool :: CallsTool(st, d, tool) ==> Asks(st, d) == Some(Request(Numbered(st.number + 1), tool))
  {
  }

  lemma OfferActsSay(t: Terms, st: Turn, i: Input, r: Request, id: CallId, ok: bool)
    requires r.id.Numbered? && id.Numbered?
    ensures var acts := OfferActs(t, st, i, r.id, r.tool);
      && (Yield(RunCancelled) in acts <==> i.publish == Replied(Handoff.Published) && i.take == WaitCancelled)
      && (Yield(ToolResult(id, ok)) in acts <==>
            && r.id == id
            && (|| (i.publish == Replied(Handoff.Published) && i.take.Got? && i.take.answer.success == ok)
                || (i.publish == Replied(Handoff.InvalidArguments) && st.rejected < t.argRetries && !ok)))
      && forall text :: Yield(RunCompleted(text)) !in acts
  {
  }

  lemma {:induction false} ItemsSay(t: Terms, st: Turn, i: Input, items: seq<Item>, left: nat, id: CallId, ok: bool)
    requires id.Numbered?
    ensures var acts := ItemsActs(t, st, i, items, left);
      Yield(RunCancelled) !in acts && Yield(ToolResult(id, ok)) !in acts
    decreases |items|
  {
    if items != [] {
      var f := ItemFate(t, st, i, items[0], left);
      if f.GoesOn? {
        ItemsSay(t, f.next, i, items[1..], LeftAfter(t, st, items[0], left), id, ok);
      }
    }
  }

  lemma ControlSays(t: Terms, st: Turn, i: Input, d: Message, id: CallId, ok: bool)
    requires Says(st, i, d) && IsControl(d) && id.Numbered?
    ensures Yield(RunCancelled) in InputActs(t, st, i) <==> CancelsWait(st, i)
    ensures Yield(ToolResult(id, ok)) in InputActs(t, st, i) <==> ShowsResult(t, st, i, id, ok)
    ensures forall text :: Yield(RunCompleted(text)) !in InputActs(t, st, i)
  {
    AskedCall(st, d);
    if Asks(st, d).Some? {
      OfferActsSay(t, st, i, Asks(st, d).value, id, ok);
      assert InputActs(t, st, i) == OfferActs(t, st, i, Asks(st, d).value.id, Asks(st, d).value.tool);
    }
  }

  lemma InputSays(t: Terms, st: Turn, i: Input, id: CallId, ok: bool)
    requires id.Numbered?
    ensures Yield(RunCancelled) in InputActs(t, st, i) <==> CancelsWait(st, i)
    ensures Yield(ToolResult(id, ok)) in InputActs(t, st, i) <==> ShowsResult(t, st, i, id, ok)
  {
    if OnTime(st, i) && i.frame.Line? && IsControl(i.frame.message) {
      ControlSays(t, st, i, i.frame.message, id, ok);
    } else if i.parsed.Items? {
      ItemsSay(t, st, i, i.parsed.items, i.sends, id, ok);
    }
  }

  /** The first item decides, or leaves it to the others. */
  lemma CompletesFirst(t: Terms, st: Turn, next: Turn, i: Input, items: seq<Item>, text: string)
    requires items != [] && !Closing(items[0])
    requires next.stopDeadline == st.stopDeadline && next.confirmed == st.confirmed && next.calls == st.calls
    ensures SomeItemCompletes(t, st, i, items, text) <==> SomeItemCompletes(t, next, i, items[1..], text)
  {
    var rest := items[1..];
    forall n | 0 <= n < |rest|
      ensures CompletesAt(t, st, i, items, n + 1, text) <==> CompletesAt(t, next, i, rest, n, text)
    {
      assert forall k :: 0 <= k < n ==> rest[k] == items[k + 1];
    }
    if n :| 0 <= n < |items| && CompletesAt(t, st, i, items, n, text) {
      assert CompletesAt(t, next, i, rest, n - 1, text);
    }
    if n :| 0 <= n < |rest| && CompletesAt(t, next, i, rest, n, text) {
      assert CompletesAt(t, st, i, items, n + 1, text);
    }
  }

  lemma FinalSays(t: Terms, st: Turn, i: Input, items: seq<Item>, left: nat, text: string)
    requires items != [] && Closing(items[0]) && i.frame != TooDeep
    ensures Yield(RunCompleted(text)) in ItemActs(t, st, i, items[0], left) <==>
      SomeItemCompletes(t, st, i, items, text)
    ensures ItemFate(t, st, i, items[0], left).GoesOn? ==> st.stopDeadline == None && t.required && st.calls == 0
  {
    if i.frame.Line? {
      OnlyInterruptedIff(i.frame.message);
    }
    assert SomeItemCompletes(t, st, i, items, text) <==> CompletesAt(t, st, i, items, 0, text);
  }

  lemma {:induction false} ItemsAnswer(t: Terms, st: Turn, i: Input, items: seq<Item>, left: nat, text: string)
    requires i.frame != TooDeep
    ensures Yield(RunCompleted(text)) in ItemsActs(t, st, i, items, left) <==> SomeItemCompletes(t, st, i, items, text)
    decreases |items|
  {
    if items != [] {
      var x, f := items[0], ItemFate(t, st, i, items[0], left);
      if Closing(x) {
        FinalSays(t, st, i, items, left, text);
      }
      if f.GoesOn? {
        ItemsAnswer(t, f.next, i, items[1..], LeftAfter(t, st, x, left), text);
        if Closing(x) {
          assert !SomeItemCompletes(t, f.next, i, items[1..], text);
        } else {
          CompletesFirst(t, st, f.next, i, items, text);
        }
      }
    }
  }

  lemma InputAnswersWith(t: Terms, st: Turn, i: Input, text: string)
    ensures Yield(RunCompleted(text)) in InputActs(t, st, i) <==> Answers(t, st, i, text)
  {
    if OnTime(st, i) && i.frame.Line? && IsControl(i.frame.message) {
      ControlSays(t, st, i, i.frame.message, Numbered(0), true);
    } else if i.parsed.Items? && i.frame != TooDeep {
      ItemsAnswer(t, st, i, i.parsed.items, i.sends, text);
    }
  }

  /** Some input the turn reaches cancels a wait. */
  ghost predicate SomeCancels(t: Terms, inputs: seq<Input>) {
    exists n :: 0 <= n < |inputs| && StateAt(t, inputs, n).Some? && CancelsWait(StateAt(t, inputs, n).value, inputs[n])
  }

  /** Some input it reaches ends it with this answer. */
  ghost predicate SomeAnswers(t: Terms, inputs: seq<Input>, text: string) {
    exists n ::
      0 <= n < |inputs| && StateAt(t, inputs, n).Some? && Answers(t, StateAt(t, inputs, n).value, inputs[n], text)
  }

  lemma DriesUpFailing(t: Terms, st: Turn)
    ensures forall e :: Final(e) && e != RunFailed ==> Yield(e) !in DriedUp(t)(st)
    ensures forall id, ok :: Yield(ToolResult(id, ok)) !in DriedUp(t)(st)
  {
  }

  lemma CancelledIff(t: Terms, inputs: seq<Input>)
    ensures Yield(RunCancelled) in TurnActs(t, Opening(t), inputs) <==> SomeCancels(t, inputs)
  {
    var a := Yield(RunCancelled);
    forall st ensures a !in DriedUp(t)(st) { DriesUpFailing(t, st); }
    ActIff(Reading(t), Writing(t), DriedUp(t), Opening(t), inputs, a);
    forall n | 0 <= n < |inputs|
      ensures WritesAt(Reading(t), Writing(t), Opening(t), inputs, n, a) <==>
        StateAt(t, inputs, n).Some? && CancelsWait(StateAt(t, inputs, n).value, inputs[n])
    {
      if StateAt(t, inputs, n).Some? {
        InputSays(t, StateAt(t, inputs, n).value, inputs[n], Numbered(0), true);
      }
    }
  }

  lemma CompletedIff(t: Terms, inputs: seq<Input>, text: string)
    ensures Yield(RunCompleted(text)) in TurnActs(t, Opening(t), inputs) <==> SomeAnswers(t, inputs, text)
  {
    var a := Yield(RunCompleted(text));
    forall st ensures a !in DriedUp(t)(st) { DriesUpFailing(t, st); }
    ActIff(Reading(t), Writing(t), DriedUp(t), Opening(t), inputs, a);
    forall n | 0 <= n < |inputs|
      ensures WritesAt(Reading(t), Writing(t), Opening(t), inputs, n, a) <==>
        StateAt(t, inputs, n).Some? && Answers(t, StateAt(t, inputs, n).value, inputs[n], text)
    {
      if StateAt(t, inputs, n).Some? {
        InputAnswersWith(t, StateAt(t, inputs, n).value, inputs[n], text);
      }
    }
  }

  /** A result is shown with the success the client gave it, or as a failure for a rejected call. */
  lemma ToolResultIff(t: Terms, inputs: seq<Input>, id: CallId, ok: bool)
    requires id.Numbered?
    ensures Yield(ToolResult(id, ok)) in TurnActs(t, Opening(t), inputs) <==>
      exists n ::
        && 0 <= n < |inputs| && StateAt(t, inputs, n).Some?
        && ShowsResult(t, StateAt(t, inputs, n).value, inputs[n], id, ok)
  {
    var a := Yield(ToolResult(id, ok));
    forall st ensures a !in DriedUp(t)(st) { DriesUpFailing(t, st); }
    ActIff(Reading(t), Writing(t), DriedUp(t), Opening(t), inputs, a);
    forall n | 0 <= n < |inputs|
      ensures WritesAt(Reading(t), Writing(t), Opening(t), inputs, n, a) <==>
        StateAt(t, inputs, n).Some? && ShowsResult(t, StateAt(t, inputs, n).value, inputs[n], id, ok)
    {
      if StateAt(t, inputs, n).Some? {
        InputSays(t, StateAt(t, inputs, n).value, inputs[n], id, ok);
      }
    }
  }

  ghost predicate EndsWith(acts: seq<Act>, e: Event) {
    acts != [] && acts[|acts| - 1] == Yield(e)
  }

  /** The final event of a turn, if it has one, is its last act. */
  lemma FinalIsLast(t: Terms, inputs: seq<Input>)
    ensures var acts := TurnActs(t, Opening(t), inputs);
      && (forall e :: Final(e) ==> (EndsWith(acts, e) <==> Yield(e) in acts))
      && (EndOf(Reading(t), Opening(t), inputs) == Finished <==> acts != [] && IsFinal(acts[|acts| - 1]))
  {
    var acts := TurnActs(t, Opening(t), inputs);
    TurnLawful(t, Opening(t), inputs);
    WatchFollows(t, acts);
    EndedMeans(t, acts);
  }

  /** How a turn ends, over every stream.  It is cancelled exactly when it reaches a wait that a
      cancelled job ends. */
  lemma TurnCancelledIff(t: Terms, inputs: seq<Input>)
    ensures EndsWith(TurnActs(t, Opening(t), inputs), RunCancelled) <==> SomeCancels(t, inputs)
  {
    FinalIsLast(t, inputs);
    CancelledIff(t, inputs);
  }

  /** It completes with `text` exactly when it reaches its allowed end with that answer. */
  lemma TurnCompletedIff(t: Terms, inputs: seq<Input>, text: string)
    ensures EndsWith(TurnActs(t, Opening(t), inputs), RunCompleted(text)) <==> SomeAnswers(t, inputs, text)
  {
    FinalIsLast(t, inputs);
    CompletedIff(t, inputs, text);
  }

  /** And it fails in every other case in which no error and no lost lease leaves the loop. */
  lemma TurnFailedIff(t: Terms, inputs: seq<Input>)
    ensures EndsWith(TurnActs(t, Opening(t), inputs), RunFailed) <==>
      && EndOf(Reading(t), Opening(t), inputs) == Finished
      && !SomeCancels(t, inputs) && forall text :: !SomeAnswers(t, inputs, text)
  {
    var acts := TurnActs(t, Opening(t), inputs);
    FinalIsLast(t, inputs);
    TurnCancelledIff(t, inputs);
    forall text
      ensures EndsWith(acts, RunCompleted(text)) <==> SomeAnswers(t, inputs, text)
    {
      TurnCompletedIff(t, inputs, text);
    }
    if acts != [] && IsFinal(acts[|acts| - 1]) {
      var e := acts[|acts| - 1].event;
      assert e.RunCompleted? ==> EndsWith(acts, RunCompleted(e.text));
    }
  }
}
