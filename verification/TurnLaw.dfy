/**
 What a tool turn may do, whichever CLI drives it: the law both turn protocols
 (agent/codex_app_server.py, agent/claude_tool_turn.py) are held to.

 A turn is observed as a sequence of acts.  `Watch` runs a small monitor over it; the lemmas at the
 end say in plain terms what a lawful turn is.
 */
module TurnLaw {
  import opened Wrappers
  import Handoff = ToolHandoff

  const TERMINAL_STOP_S := 30.0

  /** Codex names its calls; the broker numbers Claude's calls within one attempt. */
  datatype CallId = Named(name: string) | Numbered(number: nat)

  datatype Event =
    | ToolCall(id: CallId)
    | ToolResult(id: CallId, ok: bool)
    | Usage
    | ModelRerouted
    | OtherEvent
    | RunCompleted(text: string)
    | RunFailed
    | RunCancelled

  predicate Final(e: Event) {
    e.RunCompleted? || e.RunFailed? || e.RunCancelled?
  }

  datatype Act =
    | Yield(event: Event)
    | Publish(id: CallId, tool: string)       // the call is offered to the client
    | Reject(id: CallId)                      // the model is told its arguments are broken
    | Answer(id: CallId, answer: Handoff.Answer)   // the client's result is handed to the model
    | Interrupt                               // we ask the CLI to stop the turn
    | Confirm                                 // the CLI confirmed the interrupt
    | Remind                                  // the model is told to call a tool

  /** What the job asks: a tool must be called, and how often the model is corrected. */
  datatype Terms = Terms(required: bool, argRetries: nat, reminders: nat)

  datatype Monitor = Monitor(
    seen: set<CallId>,
    open: Option<CallId>,
    calls: nat,
    rejects: nat,
    reminds: nat,
    stopped: bool,
    interrupted: bool,
    confirmed: bool,
    ended: bool)

  const FRESH := Monitor({}, None, 0, 0, 0, false, false, false, false)

  predicate MayDo(t: Terms, m: Monitor, a: Act) {
    && !m.ended
    && match a
       case Publish(id, _) => id !in m.seen && m.open.None? && !m.stopped
       case Reject(id) => id !in m.seen && m.open.None? && !m.stopped && m.rejects < t.argRetries
       case Answer(id, _) => m.open == Some(id)
       case Interrupt => m.stopped && !m.interrupted
       case Confirm => m.interrupted && !m.confirmed
       case Remind => t.required && m.calls == 0 && m.reminds < t.reminders
       case Yield(RunCompleted(text)) =>
         && m.open.None?
         && (t.required ==> m.calls > 0)
         && (m.stopped ==> m.confirmed && text == "")
       case Yield(_) => true
  }

  function Do(m: Monitor, a: Act): Monitor {
    match a
    case Publish(id, _) => m.(seen := m.seen + {id}, open := Some(id), calls := m.calls + 1)
    case Reject(id) => m.(seen := m.seen + {id}, rejects := m.rejects + 1)
    case Answer(id, answer) => m.(open := None, stopped := m.stopped || answer.terminal)
    case Interrupt => m.(interrupted := true)
    case Confirm => m.(confirmed := true)
    case Remind => m.(reminds := m.reminds + 1)
    case Yield(e) => m.(ended := m.ended || Final(e))
  }

  /** The monitor after `acts`, or None once an act broke the law. */
  function Watch(t: Terms, acts: seq<Act>): Option<Monitor> {
    if acts == [] then Some(FRESH)
    else
      var m := Watch(t, acts[..|acts| - 1]);
      var a := acts[|acts| - 1];
      if m.Some? && MayDo(t, m.value, a) then Some(Do(m.value, a)) else None
  }

  lemma WatchOne(t: Terms, acts: seq<Act>, a: Act)
    ensures Watch(t, acts + [a]) ==
      var m := Watch(t, acts);
      if m.Some? && MayDo(t, m.value, a) then Some(Do(m.value, a)) else None
  {
    assert (acts + [a])[..|acts|] == acts;
  }

  function Step(t: Terms, m: Option<Monitor>, a: Act): Option<Monitor> {
    if m.Some? && MayDo(t, m.value, a) then Some(Do(m.value, a)) else None
  }

  /** The monitor run on from `m`. */
  function Follow(t: Terms, m: Option<Monitor>, acts: seq<Act>): Option<Monitor>
    decreases |acts|
  {
    if acts == [] then m else Follow(t, Step(t, m, acts[0]), acts[1..])
  }

  lemma {:induction false} FollowConcat(t: Terms, m: Option<Monitor>, x: seq<Act>, y: seq<Act>)
    ensures Follow(t, m, x + y) == Follow(t, Follow(t, m, x), y)
    decreases |x|
  {
    if x == [] {
      assert x + y == y;
    } else {
      assert (x + y)[1..] == x[1..] + y;
      FollowConcat(t, Step(t, m, x[0]), x[1..], y);
    }
  }

  lemma FollowOne(t: Terms, m: Option<Monitor>, a: Act)
    ensures Follow(t, m, [a]) == Step(t, m, a)
  {
    assert [a][1..] == [];
  }

  lemma FollowTwo(t: Terms, m: Option<Monitor>, a: Act, b: Act)
    ensures Follow(t, m, [a, b]) == Step(t, Step(t, m, a), b)
  {
    assert [a, b] == [a] + [b];
    FollowConcat(t, m, [a], [b]);
    FollowOne(t, m, a);
    FollowOne(t, Step(t, m, a), b);
  }

  /** `Watch` and `Follow` are the same monitor. */
  lemma {:induction false} WatchFollows(t: Terms, acts: seq<Act>)
    ensures Watch(t, acts) == Follow(t, Some(FRESH), acts)
  {
    if acts != [] {
      var before, a := acts[..|acts| - 1], acts[|acts| - 1];
      assert acts == before + [a];
      WatchFollows(t, before);
      WatchOne(t, before, a);
      FollowConcat(t, Some(FRESH), before, [a]);
      FollowOne(t, Watch(t, before), a);
    }
  }

  // ---------------------------------------------------------------- what surrounds a loop

  /** How `publish_call` came back; `OfferRaised`: with an error of the database. */
  datatype Offered = Replied(reply: Handoff.PublishReply) | OfferRaised

  /** How polling `take_result` ended; `Exited`: the CLI stopped first. */
  datatype Wait = Got(answer: Handoff.Answer) | WaitConflict | WaitCancelled | WaitStale | WaitRaised | Exited

  /** `Stale` and `Crashed`: StaleLease, or an error the loop does not catch, leaves it. */
  datatype End = Finished | Stale | Crashed
  datatype Verdict = Go | Over(end: End)

  /** What one input does to a loop with variables `S`. */
  datatype Fate<S> = GoesOn(next: S) | Ends(end: End)

  function FateOf<S>(st: S, v: Verdict): Fate<S> {
    if v.Go? then GoesOn(st) else Ends(v.end)
  }

  /** How a loop ends; a stream that dries up ends it regularly. */
  function EndOf<S, I>(fate: (S, I) -> Fate<S>, st: S, inputs: seq<I>): End
    decreases |inputs|
  {
    if inputs == [] then Finished
    else
      match fate(st, inputs[0])
      case Ends(end) => end
      case GoesOn(next) => EndOf(fate, next, inputs[1..])
  }

  /** The acts of a loop; a stream that dries up ends with `last`. */
  function ActsOf<S, I>(fate: (S, I) -> Fate<S>, write: (S, I) -> seq<Act>, last: S -> seq<Act>, st: S,
        inputs: seq<I>): seq<Act>
    decreases |inputs|
  {
    if inputs == [] then last(st)
    else
      write(st, inputs[0]) +
      match fate(st, inputs[0])
      case Ends(_) => []
      case GoesOn(next) => ActsOf(fate, write, last, next, inputs[1..])
  }

  lemma Regroup(a: seq<Act>, b: seq<Act>, c: seq<Act>)
    ensures a + (b + c) == (a + b) + c && b + [] == b
  {
  }

  /** One round, seen from the rest of the stream; `acts` are the acts so far. */
  lemma Round<S, I>(fate: (S, I) -> Fate<S>, write: (S, I) -> seq<Act>, last: S -> seq<Act>, st: S, inputs: seq<I>,
        n: nat, next: S, v: Verdict, acts: seq<Act>)
    requires n < |inputs| && fate(st, inputs[n]) == FateOf(next, v)
    ensures EndOf(fate, st, inputs[n..]) == if v.Over? then v.end else EndOf(fate, next, inputs[n + 1..])
    ensures acts + ActsOf(fate, write, last, st, inputs[n..]) ==
      if v.Over? then acts + write(st, inputs[n])
      else (acts + write(st, inputs[n])) + ActsOf(fate, write, last, next, inputs[n + 1..])
  {
    assert inputs[n..][1..] == inputs[n + 1..];
  }

  /** The variables when input `n` is handled; None: the loop ended before. */
  function Reached<S, I>(fate: (S, I) -> Fate<S>, st: S, inputs: seq<I>, n: nat): Option<S>
    requires n < |inputs|
    decreases n
  {
    if n == 0 then Some(st)
    else
      match fate(st, inputs[0])
      case Ends(_) => None
      case GoesOn(next) => Reached(fate, next, inputs[1..], n - 1)
  }

  /** Input `n` is reached, and ends the loop that way. */
  predicate EndsAt<S, I>(fate: (S, I) -> Fate<S>, st: S, inputs: seq<I>, n: nat, end: End)
    requires n < |inputs|
  {
    Reached(fate, st, inputs, n).Some? && fate(Reached(fate, st, inputs, n).value, inputs[n]).Ends?
    && fate(Reached(fate, st, inputs, n).value, inputs[n]).end == end
  }

  /** A loop ends irregularly exactly when an input it reaches makes it so. */
  lemma {:induction false} EndsSoIff<S, I>(fate: (S, I) -> Fate<S>, st: S, inputs: seq<I>, end: End)
    requires end != Finished
    ensures EndOf(fate, st, inputs) == end <==>
      exists n :: 0 <= n < |inputs| && EndsAt(fate, st, inputs, n, end)
    decreases |inputs|
  {
    if inputs != [] {
      assert EndsAt(fate, st, inputs, 0, end) <==> fate(st, inputs[0]) == Ends(end);
      var f, rest := fate(st, inputs[0]), inputs[1..];
      if f.GoesOn? {
        EndsSoIff(fate, f.next, rest, end);
        assert forall n :: 0 < n < |inputs| ==>
          EndsAt(fate, st, inputs, n, end) == EndsAt(fate, f.next, rest, n - 1, end);
        if EndOf(fate, st, inputs) == end {
          var n :| 0 <= n < |rest| && EndsAt(fate, f.next, rest, n, end);
          assert EndsAt(fate, st, inputs, n + 1, end);
        }
      } else {
        assert forall n :: 0 < n < |inputs| ==> !EndsAt(fate, st, inputs, n, end);
      }
    }
  }

  /** An act no stream dries up with is among the acts of a loop exactly when an input it reaches
      writes it. */
  lemma {:induction false} ActIff<S(!new), I>(fate: (S, I) -> Fate<S>, write: (S, I) -> seq<Act>, last: S -> seq<Act>,
                                              st: S, inputs: seq<I>, a: Act)
    requires forall s: S :: a !in last(s)
    ensures a in ActsOf(fate, write, last, st, inputs) <==>
      exists n :: 0 <= n < |inputs| && WritesAt(fate, write, st, inputs, n, a)
    decreases |inputs|
  {
    if inputs != [] {
      var f, rest := fate(st, inputs[0]), inputs[1..];
      assert WritesAt(fate, write, st, inputs, 0, a) <==> a in write(st, inputs[0]);
      assert forall n :: 0 < n < |inputs| ==>
        (WritesAt(fate, write, st, inputs, n, a) <==> f.GoesOn? && WritesAt(fate, write, f.next, rest, n - 1, a));
      if f.GoesOn? {
        ActIff(fate, write, last, f.next, rest, a);
        if n :| 0 <= n < |rest| && WritesAt(fate, write, f.next, rest, n, a) {
          assert WritesAt(fate, write, st, inputs, n + 1, a);
        }
      }
    }
  }

  predicate WritesAt<S, I>(fate: (S, I) -> Fate<S>, write: (S, I) -> seq<Act>, st: S, inputs: seq<I>, n: nat, a: Act)
    requires n < |inputs|
  {
    Reached(fate, st, inputs, n).Some? && a in write(Reached(fate, st, inputs, n).value, inputs[n])
  }

  /** A call the model makes: its id and the tool. */
  datatype Request = Request(id: CallId, tool: string)

  /** Publishing and answering follow the replies, and concern no other call than `r`. */
  ghost predicate Faithful(acts: seq<Act>, r: Request, publish: Offered, take: Wait) {
    forall a :: a in acts && (a.Publish? || a.Answer?) ==>
      && publish == Replied(Handoff.Published) && Publish(r.id, r.tool) in acts
      && (a.Publish? ==> a == Publish(r.id, r.tool)) && (a.Answer? ==> a.id == r.id && take == Got(a.answer))
  }

  ghost predicate Silent(acts: seq<Act>) {
    forall a :: a in acts ==> !a.Publish? && !a.Answer?
  }

  // ---------------------------------------------------------------- what it means

  lemma {:induction false} WatchPrefix(t: Terms, acts: seq<Act>, n: nat)
    requires Watch(t, acts).Some? && n <= |acts|
    ensures Watch(t, acts[..n]).Some?
  {
    if n < |acts| {
      assert acts[..|acts| - 1][..n] == acts[..n];
      WatchPrefix(t, acts[..|acts| - 1], n);
    } else {
      assert acts[..n] == acts;
    }
  }

  /** Act `i` of a lawful turn was allowed by the monitor of the acts before it. */
  lemma ActAllowed(t: Terms, acts: seq<Act>, i: nat)
    requires Watch(t, acts).Some? && i < |acts|
    ensures Watch(t, acts[..i]).Some? && MayDo(t, Watch(t, acts[..i]).value, acts[i])
    ensures Watch(t, acts[..i + 1]) == Some(Do(Watch(t, acts[..i]).value, acts[i]))
  {
    WatchPrefix(t, acts, i + 1);
    assert acts[..i + 1] == acts[..i] + [acts[i]];
    WatchOne(t, acts[..i], acts[i]);
  }

  /** What the monitor remembers of an act never fades. */
  lemma {:induction false} Remembers(t: Terms, acts: seq<Act>, i: nat, j: nat)
    requires Watch(t, acts).Some? && i < j <= |acts|
    ensures Watch(t, acts[..j]).Some?
    ensures var m := Watch(t, acts[..j]).value;
      && (acts[i].Publish? || acts[i].Reject? ==> acts[i].id in m.seen)
      && (acts[i].Answer? && acts[i].answer.terminal ==> m.stopped)
      && (acts[i].Yield? && Final(acts[i].event) ==> m.ended)
    decreases j
  {
    ActAllowed(t, acts, j - 1);
    if i < j - 1 {
      Remembers(t, acts, i, j - 1);
    }
  }

  /** Exactly one final event, and it is the last act. */
  ghost predicate EndsOnce(acts: seq<Act>) {
    && |acts| > 0 && IsFinal(acts[|acts| - 1])
    && forall i :: 0 <= i < |acts| - 1 ==> !IsFinal(acts[i])
  }

  predicate IsFinal(a: Act) {
    a.Yield? && Final(a.event)
  }

  lemma EndedStep(before: seq<Act>, a: Act)
    requires forall i :: 0 <= i < |before| ==> !IsFinal(before[i])
    ensures if IsFinal(a) then EndsOnce(before + [a])
            else forall i :: 0 <= i < |before + [a]| ==> !IsFinal((before + [a])[i])
  {
  }

  lemma {:induction false} EndedMeans(t: Terms, acts: seq<Act>)
    requires Watch(t, acts).Some?
    ensures Watch(t, acts).value.ended ==> EndsOnce(acts)
    ensures !Watch(t, acts).value.ended ==> forall i :: 0 <= i < |acts| ==> !IsFinal(acts[i])
  {
    if acts != [] {
      var n := |acts| - 1;
      var before, a := acts[..n], acts[n];
      assert acts == before + [a];
      WatchOne(t, before, a);
      EndedMeans(t, before);
      EndedStep(before, a);
    }
  }

  /** No call reaches the client after a terminal result, and no call id is used twice. */
  lemma NoCallAfterTerminalResult(t: Terms, acts: seq<Act>, i: nat, j: nat)
    requires Watch(t, acts).Some? && i < j < |acts|
    ensures acts[i].Answer? && acts[i].answer.terminal ==> !acts[j].Publish? && !acts[j].Reject?
    ensures (acts[i].Publish? || acts[i].Reject?) && (acts[j].Publish? || acts[j].Reject?) ==> acts[i].id != acts[j].id
  {
    Remembers(t, acts, i, j);
    ActAllowed(t, acts, j);
  }

  lemma {:induction false} CallMade(t: Terms, acts: seq<Act>) returns (i: nat)
    requires Watch(t, acts).Some? && Watch(t, acts).value.calls > 0
    ensures i < |acts| && acts[i].Publish?
  {
    var n := |acts| - 1;
    if acts[n].Publish? {
      return n;
    }
    i := CallMade(t, acts[..n]);
  }

  lemma {:induction false} InterruptMade(t: Terms, acts: seq<Act>) returns (i: nat)
    requires Watch(t, acts).Some? && Watch(t, acts).value.interrupted
    ensures i < |acts| && acts[i].Interrupt?
  {
    var n := |acts| - 1;
    if acts[n].Interrupt? {
      return n;
    }
    i := InterruptMade(t, acts[..n]);
  }

  lemma {:induction false} ConfirmMade(t: Terms, acts: seq<Act>) returns (i: nat, k: nat)
    requires Watch(t, acts).Some? && Watch(t, acts).value.confirmed
    ensures i < k < |acts| && acts[i].Interrupt? && acts[k].Confirm?
  {
    var n := |acts| - 1;
    if acts[n].Confirm? {
      i := InterruptMade(t, acts[..n]);
      k := n;
    } else {
      i, k := ConfirmMade(t, acts[..n]);
    }
  }

  /** A turn completes only when a required tool was called at least once and, after a terminal
      result, only with a confirmed interrupt and an empty text. */
  lemma CompletionMeans(t: Terms, acts: seq<Act>, i: nat)
    requires Watch(t, acts).Some? && i < |acts| && acts[i].Yield? && acts[i].event.RunCompleted?
    ensures t.required ==> exists k :: 0 <= k < i && acts[k].Publish?
    ensures (exists k :: 0 <= k < i && acts[k].Answer? && acts[k].answer.terminal) ==>
      acts[i].event.text == "" && exists k, m :: 0 <= k < m < i && acts[k].Interrupt? && acts[m].Confirm?
  {
    ActAllowed(t, acts, i);
    if t.required {
      var k := CallMade(t, acts[..i]);
      assert acts[k].Publish?;
    }
    if k :| 0 <= k < i && acts[k].Answer? && acts[k].answer.terminal {
      Remembers(t, acts, k, i);
      var a, b := ConfirmMade(t, acts[..i]);
      assert acts[a].Interrupt? && acts[b].Confirm?;
    }
  }

  /** Nothing stays open: every call published was answered, but the one still with the client. */
  lemma {:induction false} PublishedAnswered(t: Terms, acts: seq<Act>, i: nat)
    requires Watch(t, acts).Some? && i < |acts| && acts[i].Publish?
    ensures Watch(t, acts).value.open != Some(acts[i].id) ==>
      exists k :: i < k < |acts| && acts[k].Answer? && acts[k].id == acts[i].id
  {
    var before, a := acts[..|acts| - 1], acts[|acts| - 1];
    assert acts == before + [a];
    WatchOne(t, before, a);
    if i < |before| {
      PublishedAnswered(t, before, i);
      if Watch(t, before).value.open != Some(acts[i].id) {
        var k :| i < k < |before| && before[k].Answer? && before[k].id == before[i].id;
        assert acts[k] == before[k];
      } else if a.Answer? {
        assert acts[|before|].Answer? && acts[|before|].id == acts[i].id;
      }
    }
  }

  /** How often usage is reported. */
  function Usages(acts: seq<Act>): nat {
    if acts == [] then 0 else (if acts[0] == Yield(Usage) then 1 else 0) + Usages(acts[1..])
  }

  lemma UsagesFirst(a: Act, rest: seq<Act>)
    ensures Usages([a] + rest) == (if a == Yield(Usage) then 1 else 0) + Usages(rest)
  {
    assert ([a] + rest)[1..] == rest;
  }

  lemma UsagesOf(a: Act, b: Act)
    ensures Usages([a]) == if a == Yield(Usage) then 1 else 0
    ensures Usages([a, b]) == (if a == Yield(Usage) then 1 else 0) + if b == Yield(Usage) then 1 else 0
  {
    assert [a] == [a] + [] && [b] == [b] + [] && [a, b] == [a] + [b];
    UsagesFirst(a, []);
    UsagesFirst(b, []);
    UsagesFirst(a, [b]);
  }

  lemma {:induction false} UsagesConcat(a: seq<Act>, b: seq<Act>)
    ensures Usages(a + b) == Usages(a) + Usages(b)
  {
    if a == [] {
      assert a + b == b;
    } else {
      assert (a + b)[1..] == a[1..] + b;
      UsagesConcat(a[1..], b);
    }
  }

  function Rejections(acts: seq<Act>): nat {
    if acts == [] then 0 else Rejections(acts[..|acts| - 1]) + (if acts[|acts| - 1].Reject? then 1 else 0)
  }

  function Reminders(acts: seq<Act>): nat {
    if acts == [] then 0 else Reminders(acts[..|acts| - 1]) + (if acts[|acts| - 1].Remind? then 1 else 0)
  }

  /** Rejection replies and reminders stay within their budgets. */
  lemma {:induction false} WithinBudgets(t: Terms, acts: seq<Act>)
    requires Watch(t, acts).Some?
    ensures Rejections(acts) == Watch(t, acts).value.rejects <= t.argRetries
    ensures Reminders(acts) == Watch(t, acts).value.reminds <= t.reminders
  {
    if acts != [] {
      WithinBudgets(t, acts[..|acts| - 1]);
    }
  }
}
