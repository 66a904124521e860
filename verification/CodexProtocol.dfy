/**
 What the messages of a Codex App Server turn mean, field by field (agent/codex_app_server.py), and what
 a turn therefore does: the description the loop of CodexTurn is held against.  Nothing here is used
 by that loop.
 */
module CodexProtocol {
  import opened Wrappers
  import opened Json
  import opened TurnLaw
  import opened CodexTurn
  import Handoff = ToolHandoff

  // ---------------------------------------------------------------- the messages

  /** Before the deadline of a pending stop, if there is one. */
  predicate OnTime(st: Turn, i: Input) {
    st.stopDeadline.Some? ==> i.now < st.stopDeadline.value && i.now + i.wait <= st.stopDeadline.value
  }

  predicate Says(st: Turn, i: Input, m: Message) {
    OnTime(st, i) && i.frame == Line(m)
  }

  function ThisTurn(st: Turn): Json {
    match st.turnId
    case None => Null
    case Some(id) => Str(id)
  }

  /** A message without an id, of this kind, whose params can be read. */
  predicate Notice(m: Message, kind: string) {
    "id" !in m && Get(m, "method") == Str(kind) && Dict(Get(m, "params"))
  }

  predicate NotElsewhere(c: Config, m: Message) {
    In(Get(m, "params"), "threadId") == Null || In(Get(m, "params"), "threadId") == Str(c.threadId)
  }

  /** The server starts the turn it was last asked for. */
  predicate StartsTurn(st: Turn, m: Message, id: string) {
    && "method" !in m && Get(m, "id") == Num(st.turnRequest)
    && st.turnRequest != 1000 && st.turnRequest !in st.oldRequests && st.turnId == None
    && !Truthy(Get(m, "error")) && In(In(Get(m, "result"), "turn"), "id") == Str(id) && id != ""
  }

  predicate ConfirmsInterrupt(st: Turn, m: Message) {
    && "method" !in m && Get(m, "id") == Num(1000) && "result" in m && "error" !in m
    && st.stopDeadline.Some? && !st.confirmed
  }

  /** Python's `in` on a set of request ids: True is 1 and False is 0. */
  predicate SameId(a: Json, b: Json) {
    || a == b
    || (a == Bool(true) && b == Num(1)) || (a == Num(1) && b == Bool(true))
    || (a == Bool(false) && b == Num(0)) || (a == Num(0) && b == Bool(false))
  }

  /** The model calls a tool in this turn, under ids it has not used. */
  predicate CallsTool(c: Config, st: Turn, m: Message, r: Request) {
    var params := Get(m, "params");
    && "id" in m && Get(m, "method") == Str("item/tool/call") && st.stopDeadline == None
    && In(params, "threadId") == Str(c.threadId) && In(params, "turnId") == ThisTurn(st)
    && In(params, "namespace") == Null && In(params, "tool") == Str(r.tool)
    && r.id.Named? && In(params, "callId") == Str(r.id.name) && r.id !in st.seenCalls
    && !m["id"].Arr? && !m["id"].Obj? && forall seen :: seen in st.seenRequests ==> !SameId(seen, m["id"])
  }

  predicate GivesArguments(m: Message) {
    Get(m, "params").Obj? && "arguments" in Get(m, "params").fields
  }

  /** An item of this turn is complete. */
  predicate ItemIsComplete(c: Config, st: Turn, m: Message) {
    && Notice(m, "item/completed") && NotElsewhere(c, m)
    && (In(Get(m, "params"), "turnId") == Null || In(Get(m, "params"), "turnId") == ThisTurn(st))
    && Dict(In(Get(m, "params"), "item"))
  }

  /** And it is assistant text that may still become the answer. */
  predicate IsAnswerText(st: Turn, m: Message) {
    In(In(Get(m, "params"), "item"), "type") == Str("agentMessage") && st.stopDeadline == None
  }

  predicate CountsTokens(c: Config, st: Turn, m: Message) {
    && Notice(m, "thread/tokenUsage/updated")
    && In(Get(m, "params"), "threadId") == Str(c.threadId) && In(Get(m, "params"), "turnId") == ThisTurn(st)
    && Dict(In(Get(m, "params"), "tokenUsage"))
  }

  /** The end of this turn, with its status. */
  predicate EndsTurn(c: Config, st: Turn, m: Message, status: string) {
    var turn := In(Get(m, "params"), "turn");
    && Notice(m, "turn/completed") && NotElsewhere(c, m)
    && In(turn, "id") == ThisTurn(st) && In(turn, "status") == Str(status)
  }

  /** The answer is wanted and there: after a terminal result the confirmed interrupt, else the
      required call. */
  predicate MayEnd(c: Config, st: Turn, status: string) {
    if st.stopDeadline.Some? then st.confirmed && (status == "completed" || status == "interrupted")
    else status == "completed" && (c.terms.required ==> st.calls > 0)
  }

  predicate MissesCall(c: Config, st: Turn, status: string) {
    st.stopDeadline == None && status == "completed" && c.terms.required && st.calls == 0
  }

  /** The server announces that another model serves the turn. */
  predicate Reroutes(c: Config, st: Turn, m: Message) {
    var params := Get(m, "params");
    && Notice(m, "model/rerouted")
    && In(params, "threadId") == Str(c.threadId) && In(params, "turnId") == ThisTurn(st)
    && In(params, "fromModel").Str? && In(params, "toModel").Str?
  }

  /** Of no concern to the loop: no request, no reply to one of ours, no notice it knows. */
  predicate Unconcerned(st: Turn, m: Message) {
    && !("id" in m && Truthy(Get(m, "method")))
    && ("method" !in m ==>
          && Get(m, "id") != Num(1000) && Get(m, "id") != Num(st.turnRequest)
          && forall past :: past in st.oldRequests ==> Get(m, "id") != Num(past))
    && Get(m, "method") != Str("item/tool/call") && Get(m, "method") != Str("model/rerouted")
    && Get(m, "method") != Str("thread/tokenUsage/updated") && Get(m, "method") != Str("item/completed")
    && Get(m, "method") != Str("turn/completed")
  }

  // ---------------------------------------------------------------- what each of them does

  /** The loop's variables hold integers for the ids it has seen, as `Opening` and every step do. */
  predicate Keyed(st: Turn) {
    forall seen :: seen in st.seenRequests ==> !seen.Bool?
  }

  lemma AsksIff(c: Config, st: Turn, m: Message, r: Request)
    requires Keyed(st)
    ensures Asks(c, st, m) == Some(r) <==> CallsTool(c, st, m, r)
  {
  }

  /** Input `i` writes exactly `acts` and leads to `f`. */
  predicate Does(c: Config, st: Turn, i: Input, acts: seq<Act>, f: Fate<Turn>) {
    InputActs(c, st, i) == acts && InputFate(c, st, i) == f
  }

  lemma StartedMeans(c: Config, st: Turn, i: Input, m: Message, id: string)
    requires Says(st, i, m) && StartsTurn(st, m, id)
    ensures Does(c, st, i, [], GoesOn(st.(turnId := Some(id))))
  {
  }

  /** The first turn is asked for under request id 3, and its reply starts it. */
  lemma FirstReplyStarts(c: Config, i: Input, m: Message, id: string)
    requires i.frame == Line(m) && "method" !in m && Get(m, "id") == Num(3) && !Truthy(Get(m, "error"))
    requires In(In(Get(m, "result"), "turn"), "id") == Str(id) && id != ""
    ensures Does(c, Opening(c), i, [], GoesOn(Opening(c).(turnId := Some(id))))
    ensures Opening(c).rejected == 0 && Opening(c).remindersLeft == c.terms.reminders && Opening(c).calls == 0
    ensures Opening(c).stopDeadline == None && !Opening(c).confirmed && Opening(c).finalText == ""
  {
  }

  lemma ConfirmedMeans(c: Config, st: Turn, i: Input, m: Message)
    requires Says(st, i, m) && ConfirmsInterrupt(st, m)
    ensures Does(c, st, i, [Confirm], GoesOn(st.(confirmed := true)))
  {
  }

  /** The ids of the call are remembered. */
  ghost predicate Remembered(st: Turn, next: Turn, m: Message, r: Request) {
    && next.seenCalls == st.seenCalls + {r.id}
    && exists key :: SameId(key, Get(m, "id")) && !key.Bool? && next.seenRequests == st.seenRequests + {key}
  }

  /** A call the client cannot be offered: sent back within the budget, else the end. */
  lemma SentBackMeans(c: Config, st: Turn, i: Input, m: Message, r: Request)
    requires Keyed(st) && Says(st, i, m) && CallsTool(c, st, m, r) && i.publish == Replied(Handoff.InvalidArguments)
    ensures if st.rejected < c.terms.argRetries && i.sends > 0 then
        && InputActs(c, st, i) == [Reject(r.id), Yield(ToolResult(r.id, false))]
        && InputFate(c, st, i).GoesOn?
        && var next := InputFate(c, st, i).next;
          Remembered(st, next, m, r) && next == st.(seenRequests := next.seenRequests, seenCalls := next.seenCalls,
                                                    rejected := st.rejected + 1)
      else Does(c, st, i, [Yield(RunFailed)], Ends(Finished))
  {
    AsksIff(c, st, m, r);
    assert SameId(RequestKey(m["id"]), m["id"]);
  }

  lemma RefusedMeans(c: Config, st: Turn, i: Input, m: Message, r: Request)
    requires Keyed(st) && Says(st, i, m) && CallsTool(c, st, m, r) && i.publish == Replied(Handoff.PublishConflict)
    ensures Does(c, st, i, [Yield(RunFailed)], Ends(Finished))
  {
    AsksIff(c, st, m, r);
  }

  /** A published call whose wait brings no result: a cancelled job cancels the run, anything else
      fails it. */
  lemma NoResultMeans(c: Config, st: Turn, i: Input, m: Message, r: Request)
    requires Keyed(st) && Says(st, i, m) && CallsTool(c, st, m, r) && GivesArguments(m)
    requires i.publish == Replied(Handoff.Published)
    ensures var offered := [Publish(r.id, r.tool), Yield(ToolCall(r.id))];
      && (i.take == WaitCancelled ==> Does(c, st, i, offered + [Yield(RunCancelled)], Ends(Finished)))
      && (i.take == WaitConflict || i.take == Exited ==> Does(c, st, i, offered + [Yield(RunFailed)], Ends(Finished)))
  {
    AsksIff(c, st, m, r);
  }

  /** A published call the client answers: the result is handed over as it is; a terminal one stops the
      turn, for thirty seconds at most. */
  lemma AnsweredMeans(c: Config, st: Turn, i: Input, m: Message, r: Request, a: Handoff.Answer)
    requires Keyed(st) && Says(st, i, m) && CallsTool(c, st, m, r) && GivesArguments(m)
    requires i.publish == Replied(Handoff.Published) && i.take == Got(a)
    ensures var offered := [Publish(r.id, r.tool), Yield(ToolCall(r.id))];
      var told := offered + [Answer(r.id, a), Yield(ToolResult(r.id, a.success))];
      && (i.sends == 0 ==> Does(c, st, i, offered + [Yield(RunFailed)], Ends(Finished)))
      && (i.sends == 1 && a.terminal ==> Does(c, st, i, told + [Yield(RunFailed)], Ends(Finished)))
      && ((i.sends == 1 && !a.terminal) || i.sends > 1 ==>
            && InputActs(c, st, i) == told + (if a.terminal then [Interrupt] else [])
            && InputFate(c, st, i).GoesOn?
            && var next := InputFate(c, st, i).next;
              Remembered(st, next, m, r) && next == st.(seenRequests := next.seenRequests, seenCalls := next.seenCalls,
                calls := st.calls + 1, stopDeadline := if a.terminal then Some(i.now + 30.0) else None))
  {
    AsksIff(c, st, m, r);
    assert SameId(RequestKey(m["id"]), m["id"]);
  }

  lemma ItemMeans(c: Config, st: Turn, i: Input, m: Message)
    requires Says(st, i, m) && ItemIsComplete(c, st, m)
    ensures var text := In(In(Get(m, "params"), "item"), "text");
      && (!IsAnswerText(st, m) ==> Does(c, st, i, [], GoesOn(st)))
      && (IsAnswerText(st, m) && text.Str? ==> Does(c, st, i, [], GoesOn(st.(finalText := text.s))))
      && (IsAnswerText(st, m) && text == Null ==> Does(c, st, i, [], GoesOn(st.(finalText := ""))))
      && (IsAnswerText(st, m) ==> exists s :: Does(c, st, i, [], GoesOn(st.(finalText := s))))
  {
    assert IsAnswerText(st, m) ==>
      Does(c, st, i, [], GoesOn(st.(finalText := Text(In(In(Get(m, "params"), "item"), "text")))));
  }

  lemma TokensMean(c: Config, st: Turn, i: Input, m: Message)
    requires Says(st, i, m) && CountsTokens(c, st, m)
    ensures var total := In(In(Get(m, "params"), "tokenUsage"), "total");
      Does(c, st, i, [], GoesOn(if total.Obj? then st.(usage := total.fields) else st))
  {
  }

  /** Some count was reported. */
  ghost predicate Reported(usage: Message) {
    exists name :: name in {"inputTokens", "outputTokens", "totalTokens", "cachedInputTokens", "reasoningOutputTokens"}
      && name in usage && usage[name].Num? && usage[name].n >= 0
  }

  lemma EndMeans(c: Config, st: Turn, i: Input, m: Message, status: string)
    requires Says(st, i, m) && EndsTurn(c, st, m, status)
    ensures MayEnd(c, st, status) ==>
      Does(c, st, i,
           (if Reported(st.usage) then [Yield(Usage)] else [])
           + [Yield(RunCompleted(if st.stopDeadline.Some? then "" else st.finalText))],
           Ends(Finished))
    ensures MissesCall(c, st, status) && st.remindersLeft > 0 && i.sends > 0 ==>
      Does(c, st, i, [Remind],
           GoesOn(st.(remindersLeft := st.remindersLeft - 1, oldRequests := st.oldRequests + {st.turnRequest},
                      turnRequest := st.turnRequest + 1, turnId := None)))
  {
    assert Reported(st.usage) <==> HasUsage(st.usage);
  }

  lemma RerouteMeans(c: Config, st: Turn, i: Input, m: Message)
    requires Says(st, i, m) && Reroutes(c, st, m)
    ensures Does(c, st, i, [Yield(ModelRerouted), Yield(RunFailed)], Ends(Finished))
  {
  }

  lemma UnconcernedMeans(c: Config, st: Turn, i: Input, m: Message)
    requires Says(st, i, m) && Unconcerned(st, m)
    ensures Does(c, st, i, [], GoesOn(st))
  {
  }

  /** A message the loop has a use for. */
  ghost predicate Expected(c: Config, st: Turn, i: Input, m: Message) {
    || (exists id :: StartsTurn(st, m, id)) || ConfirmsInterrupt(st, m) || (exists r :: CallsTool(c, st, m, r))
    || ItemIsComplete(c, st, m) || CountsTokens(c, st, m) || Reroutes(c, st, m) || Unconcerned(st, m)
    || exists status :: EndsTurn(c, st, m, status)
         && (MayEnd(c, st, status) || (MissesCall(c, st, status) && st.remindersLeft > 0 && i.sends > 0))
  }

  lemma UnexpectedReply(c: Config, st: Turn, i: Input, m: Message)
    requires Says(st, i, m) && !Expected(c, st, i, m) && !Escapes(c, st, i) && "method" !in m
    ensures Does(c, st, i, [Yield(RunFailed)], Ends(Finished))
  {
    var id := In(In(Get(m, "result"), "turn"), "id");
    assert id.Str? ==> !StartsTurn(st, m, id.s);
  }

  lemma UnexpectedRequest(c: Config, st: Turn, i: Input, m: Message)
    requires Keyed(st) && Says(st, i, m) && !Expected(c, st, i, m) && !Escapes(c, st, i)
    requires "method" in m && ("id" in m || m["method"] == Str("item/tool/call"))
    ensures Does(c, st, i, [Yield(RunFailed)], Ends(Finished))
  {
    if Asks(c, st, m).Some? {
      AsksIff(c, st, m, Asks(c, st, m).value);
    }
  }

  lemma UnexpectedNotice(c: Config, st: Turn, i: Input, m: Message)
    requires Says(st, i, m) && !Expected(c, st, i, m) && !Escapes(c, st, i)
    requires "method" in m && "id" !in m && m["method"] != Str("item/tool/call")
    ensures Does(c, st, i, [Yield(RunFailed)], Ends(Finished))
  {
    var status := In(In(Get(m, "params"), "turn"), "status");
    assert status.Str? && EndsTurn(c, st, m, status.s) ==>
      !MayEnd(c, st, status.s) && !(MissesCall(c, st, status.s) && st.remindersLeft > 0 && i.sends > 0);
  }

  /** Everything else fails the turn, unless it makes Python raise: late messages, unreadable frames,
      wrong identities, replies out of turn, requests the loop does not grant. */
  lemma UnexpectedMeans(c: Config, st: Turn, i: Input)
    requires Keyed(st)
    requires !OnTime(st, i) || i.frame == Unreadable || (i.frame.Line? && !Expected(c, st, i, i.frame.message))
    requires !Escapes(c, st, i)
    ensures Does(c, st, i, [Yield(RunFailed)], Ends(Finished))
  {
    if OnTime(st, i) && i.frame.Line? {
      var m := i.frame.message;
      if "method" !in m {
        UnexpectedReply(c, st, i, m);
      } else if "id" in m || m["method"] == Str("item/tool/call") {
        UnexpectedRequest(c, st, i, m);
      } else {
        UnexpectedNotice(c, st, i, m);
      }
    }
  }

  // ---------------------------------------------------------------- what that makes of a whole turn

  /** The job is cancelled while the worker waits for the result of a published call. */
  ghost predicate CancelsWait(c: Config, st: Turn, i: Input) {
    && OnTime(st, i) && i.frame.Line? && GivesArguments(i.frame.message)
    && i.publish == Replied(Handoff.Published) && i.take == WaitCancelled
    && exists r :: CallsTool(c, st, i.frame.message, r)
  }

  /** The turn ends here with this answer. */
  ghost predicate Answers(c: Config, st: Turn, i: Input, text: string) {
    && OnTime(st, i) && i.frame.Line?
    && (exists status :: EndsTurn(c, st, i.frame.message, status) && MayEnd(c, st, status))
    && text == if st.stopDeadline.Some? then "" else st.finalText
  }

  /** The run is shown a result of call `id`: the client's, with its success, or a rejection. */
  ghost predicate ShowsResult(c: Config, st: Turn, i: Input, id: CallId, ok: bool) {
    && OnTime(st, i) && i.frame.Line? && i.sends > 0
    && (exists tool :: CallsTool(c, st, i.frame.message, Request(id, tool)))
    && (|| (GivesArguments(i.frame.message) && i.publish == Replied(Handoff.Published)
            && i.take.Got? && i.take.answer.success == ok)
        || (i.publish == Replied(Handoff.InvalidArguments) && st.rejected < c.terms.argRetries && !ok))
  }

  lemma AskedCall(c: Config, st: Turn, m: Message)
    requires Keyed(st)
    ensures Asks(c, st, m).Some? ==> CallsTool(c, st, m, Asks(c, st, m).value)
    ensures forall r :: CallsTool(c, st, m, r) ==> Asks(c, st, m) == Some(r)
  {
    forall r
      ensures CallsTool(c, st, m, r) ==> Asks(c, st, m) == Some(r)
    {
      AsksIff(c, st, m, r);
    }
    if Asks(c, st, m).Some? {
      AsksIff(c, st, m, Asks(c, st, m).value);
    }
  }

  lemma CallActsSay(c: Config, st: Turn, i: Input, m: Message, id: CallId, ok: bool)
    requires Keyed(st) && Asks(c, st, m).Some?
    ensures var r, acts := Asks(c, st, m).value, CallActs(c, st, i, m);
      && (Yield(RunCancelled) in acts <==>
            GivesArguments(m) && i.publish == Replied(Handoff.Published) && i.take == WaitCancelled)
      && (Yield(ToolResult(id, ok)) in acts <==>
            && r.id == id && i.sends > 0
            && (|| (GivesArguments(m) && i.publish == Replied(Handoff.Published)
                    && i.take.Got? && i.take.answer.success == ok)
                || (i.publish == Replied(Handoff.InvalidArguments) && st.rejected < c.terms.argRetries && !ok)))
      && forall text :: Yield(RunCompleted(text)) !in acts
  {
  }

  lemma OtherActsSay(c: Config, st: Turn, i: Input, m: Message, id: CallId, ok: bool)
    requires Asks(c, st, m).None?
    ensures var acts := MessageActs(c, st, i, m);
      && Yield(RunCancelled) !in acts && Yield(ToolResult(id, ok)) !in acts
  {
  }

  lemma InputSays(c: Config, st: Turn, i: Input, id: CallId, ok: bool)
    requires Keyed(st)
    ensures Yield(RunCancelled) in InputActs(c, st, i) <==> CancelsWait(c, st, i)
    ensures Yield(ToolResult(id, ok)) in InputActs(c, st, i) <==> ShowsResult(c, st, i, id, ok)
  {
    if OnTime(st, i) && i.frame.Line? {
      var m := i.frame.message;
      AskedCall(c, st, m);
      if Asks(c, st, m).Some? {
        CallActsSay(c, st, i, m, id, ok);
        assert InputActs(c, st, i) == CallActs(c, st, i, m);
        assert Asks(c, st, m).value == Request(Asks(c, st, m).value.id, Asks(c, st, m).value.tool);
      } else {
        OtherActsSay(c, st, i, m, id, ok);
      }
    }
  }

  lemma InputAnswersWith(c: Config, st: Turn, i: Input, text: string)
    requires Keyed(st)
    ensures Yield(RunCompleted(text)) in InputActs(c, st, i) <==> Answers(c, st, i, text)
  {
    if OnTime(st, i) && i.frame.Line? {
      var m := i.frame.message;
      var status := In(In(Get(m, "params"), "turn"), "status");
      if Get(m, "method") == Str("turn/completed") && "id" !in m {
        assert Completes(c, st, m) <==> status.Str? && EndsTurn(c, st, m, status.s) && MayEnd(c, st, status.s);
      }
    }
  }

  /** Every state a turn reaches has its ids keyed. */
  lemma {:induction false} ReachedKeyed(c: Config, st: Turn, inputs: seq<Input>, n: nat)
    requires Keyed(st) && n < |inputs|
    ensures var s := Reached(Reading(c), st, inputs, n); s.Some? ==> Keyed(s.value)
    decreases n
  {
    if n > 0 && InputFate(c, st, inputs[0]).GoesOn? {
      NextKeyed(c, st, inputs[0]);
      ReachedKeyed(c, InputFate(c, st, inputs[0]).next, inputs[1..], n - 1);
    }
  }

  lemma NextKeyed(c: Config, st: Turn, i: Input)
    requires Keyed(st) && InputFate(c, st, i).GoesOn?
    ensures Keyed(InputFate(c, st, i).next)
  {
  }

  /** Some input the turn reaches cancels a wait. */
  ghost predicate SomeCancels(c: Config, inputs: seq<Input>) {
    exists n ::
      0 <= n < |inputs| && StateAt(c, inputs, n).Some? && CancelsWait(c, StateAt(c, inputs, n).value, inputs[n])
  }

  /** Some input it reaches is its allowed end, with this answer. */
  ghost predicate SomeAnswers(c: Config, inputs: seq<Input>, text: string) {
    exists n ::
      0 <= n < |inputs| && StateAt(c, inputs, n).Some? && Answers(c, StateAt(c, inputs, n).value, inputs[n], text)
  }

  lemma CancelledIff(c: Config, inputs: seq<Input>)
    ensures Yield(RunCancelled) in TurnActs(c, Opening(c), inputs) <==> SomeCancels(c, inputs)
  {
    var a := Yield(RunCancelled);
    ActIff(Reading(c), Writing(c), DriedUp(c), Opening(c), inputs, a);
    forall n | 0 <= n < |inputs|
      ensures WritesAt(Reading(c), Writing(c), Opening(c), inputs, n, a) <==>
        StateAt(c, inputs, n).Some? && CancelsWait(c, StateAt(c, inputs, n).value, inputs[n])
    {
      ReachedKeyed(c, Opening(c), inputs, n);
      if StateAt(c, inputs, n).Some? {
        InputSays(c, StateAt(c, inputs, n).value, inputs[n], Numbered(0), true);
      }
    }
  }

  lemma CompletedIff(c: Config, inputs: seq<Input>, text: string)
    ensures Yield(RunCompleted(text)) in TurnActs(c, Opening(c), inputs) <==> SomeAnswers(c, inputs, text)
  {
    var a := Yield(RunCompleted(text));
    ActIff(Reading(c), Writing(c), DriedUp(c), Opening(c), inputs, a);
    forall n | 0 <= n < |inputs|
      ensures WritesAt(Reading(c), Writing(c), Opening(c), inputs, n, a) <==>
        StateAt(c, inputs, n).Some? && Answers(c, StateAt(c, inputs, n).value, inputs[n], text)
    {
      ReachedKeyed(c, Opening(c), inputs, n);
      if StateAt(c, inputs, n).Some? {
        InputAnswersWith(c, StateAt(c, inputs, n).value, inputs[n], text);
      }
    }
  }

  /** A result is shown with the success the client gave it, or as a failure for a rejected call. */
  lemma ToolResultIff(c: Config, inputs: seq<Input>, id: CallId, ok: bool)
    ensures Yield(ToolResult(id, ok)) in TurnActs(c, Opening(c), inputs) <==>
      exists n ::
        && 0 <= n < |inputs| && StateAt(c, inputs, n).Some?
        && ShowsResult(c, StateAt(c, inputs, n).value, inputs[n], id, ok)
  {
    var a := Yield(ToolResult(id, ok));
    ActIff(Reading(c), Writing(c), DriedUp(c), Opening(c), inputs, a);
    forall n | 0 <= n < |inputs|
      ensures WritesAt(Reading(c), Writing(c), Opening(c), inputs, n, a) <==>
        StateAt(c, inputs, n).Some? && ShowsResult(c, StateAt(c, inputs, n).value, inputs[n], id, ok)
    {
      ReachedKeyed(c, Opening(c), inputs, n);
      if StateAt(c, inputs, n).Some? {
        InputSays(c, StateAt(c, inputs, n).value, inputs[n], id, ok);
      }
    }
  }

  /** A final event is the last act of an input that ends the turn, and an input that ends it regularly
      has one. */
  ghost predicate EndsWell(acts: seq<Act>, f: Fate<Turn>) {
    && (forall k :: 0 <= k < |acts| && IsFinal(acts[k]) ==> k == |acts| - 1 && f == Ends(Finished))
    && (f == Ends(Finished) ==> acts != [] && IsFinal(acts[|acts| - 1]))
  }

  lemma CallEnds(c: Config, st: Turn, i: Input, m: Message)
    ensures EndsWell(CallActs(c, st, i, m), CallFate(c, st, i, m))
  {
  }

  lemma NotificationEnds(c: Config, st: Turn, i: Input, m: Message)
    ensures EndsWell(NotificationActs(c, st, i, m), NotificationFate(c, st, i, m))
  {
  }

  lemma InputEnds(c: Config, st: Turn, i: Input)
    ensures EndsWell(InputActs(c, st, i), InputFate(c, st, i))
  {
    if i.frame.Line? {
      CallEnds(c, st, i, i.frame.message);
      NotificationEnds(c, st, i, i.frame.message);
    }
  }

  /** The same of the turn: its final event, if it has one, is its last act. */
  lemma {:induction false} TurnEnds(c: Config, st: Turn, inputs: seq<Input>)
    ensures var acts := TurnActs(c, st, inputs);
      && (forall k :: 0 <= k < |acts| && IsFinal(acts[k]) ==> k == |acts| - 1)
      && (EndOf(Reading(c), st, inputs) == Finished <==> acts != [] && IsFinal(acts[|acts| - 1]))
    decreases |inputs|
  {
    if inputs != [] {
      InputEnds(c, st, inputs[0]);
      var f, here, rest := InputFate(c, st, inputs[0]), InputActs(c, st, inputs[0]), inputs[1..];
      if f.GoesOn? {
        TurnEnds(c, f.next, rest);
        assert TurnActs(c, st, inputs) == here + TurnActs(c, f.next, rest);
      } else {
        assert TurnActs(c, st, inputs) == here;
      }
    }
  }

  ghost predicate EndsWith(acts: seq<Act>, e: Event) {
    acts != [] && acts[|acts| - 1] == Yield(e)
  }

  lemma FinalIsLast(c: Config, inputs: seq<Input>, e: Event)
    requires Final(e)
    ensures EndsWith(TurnActs(c, Opening(c), inputs), e) <==> Yield(e) in TurnActs(c, Opening(c), inputs)
  {
    TurnEnds(c, Opening(c), inputs);
  }

  /** How a turn ends, over every stream.  It is cancelled exactly when it reaches a wait that a
      cancelled job ends. */
  lemma TurnCancelledIff(c: Config, inputs: seq<Input>)
    ensures EndsWith(TurnActs(c, Opening(c), inputs), RunCancelled) <==> SomeCancels(c, inputs)
  {
    FinalIsLast(c, inputs, RunCancelled);
    CancelledIff(c, inputs);
  }

  /** It completes with `text` exactly when it reaches its allowed end with that answer. */
  lemma TurnCompletedIff(c: Config, inputs: seq<Input>, text: string)
    ensures EndsWith(TurnActs(c, Opening(c), inputs), RunCompleted(text)) <==> SomeAnswers(c, inputs, text)
  {
    FinalIsLast(c, inputs, RunCompleted(text));
    CompletedIff(c, inputs, text);
  }

  /** And it fails in every other case in which no error and no lost lease leaves the loop. */
  lemma TurnFailedIff(c: Config, inputs: seq<Input>)
    ensures EndsWith(TurnActs(c, Opening(c), inputs), RunFailed) <==>
      && EndOf(Reading(c), Opening(c), inputs) == Finished
      && !SomeCancels(c, inputs) && forall text :: !SomeAnswers(c, inputs, text)
  {
    var acts := TurnActs(c, Opening(c), inputs);
    TurnEnds(c, Opening(c), inputs);
    TurnCancelledIff(c, inputs);
    forall text
      ensures EndsWith(acts, RunCompleted(text)) <==> SomeAnswers(c, inputs, text)
    {
      TurnCompletedIff(c, inputs, text);
    }
    if acts != [] && IsFinal(acts[|acts| - 1]) {
      var e := acts[|acts| - 1].event;
      assert e.RunCompleted? ==> EndsWith(acts, RunCompleted(e.text));
    }
  }
}
