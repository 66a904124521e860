/**
 One attempt of a claimed run, from the auth gate to its last write: agent/executor.py
 (`_held_drive`, `_drive`, `_drive_held_gate`, `_stream`).

 Everything the attempt meets - replies of the CLI, lost leases, clocks, failing writes - is given
 as its surroundings; what it does is a sequence of acts.
 */
module Attempt {
  import opened Wrappers

  datatype Event =
    | RunStarted
    | BillingAttested
    | FromAdapter(tag: int)
    | WaitingQuota
    | RunCompleted
    | RunFailed
    | RunCancelled
    | RunTimedOut

  predicate Closing(e: Event) {
    e.RunCompleted? || e.RunFailed? || e.RunCancelled? || e.RunTimedOut?
  }

  /** Events that may only follow a started and attested attempt. */
  predicate NeedsAttestation(e: Event) {
    e.FromAdapter? || e.RunCompleted? || e.WaitingQuota?
  }

  datatype Act =
    | Write(event: Event)     // the event is committed
    | TakeGate                // the auth-refresh start-up lease is taken
    | OpenGate                // and given back
    | StartCli
    | ModelCalled             // an event that proves a completed model call arrived
    | StopCli                 // a stop of the CLI was awaited
    | StopCut                 // the attempt itself was cancelled while it awaited one
    | Requeue

  /** An item of the adapter's stream. */
  datatype Item =
    | Progress(tag: int, proof: bool)   // proof: assistant text, a tool call, or usage
    | Done
    | Failure(quota: bool)
    | Stopped

  /** One turn of the stream loop: what it finds first, and then what the queue gives it. */
  datatype Heard = Nothing | Ended | Got(item: Item)
  datatype Tick = Tick(leaseLost: bool, gateLost: bool, timeUp: bool, cancelled: bool, heard: Heard)

  datatype GateReply = NotNeeded | Held | WaitCancelled | Busy(cancelled: bool, overCap: bool)

  datatype Env = Env(
    gate: GateReply, cancelledAtGate: bool,
    writes: nat,              // how many fenced writes succeed before one is refused
    resumeUnsupported: bool, billingRefused: bool, attestation: bool, modelUnknown: bool,
    attachmentsBad: bool, gateLost: bool, ticks: seq<Tick>, parkFits: bool,
    stopCut: bool)            // whether a stop it awaits is cut short by its own cancellation

  // ---------------------------------------------------------------- the law

  datatype Gate = Unused | Taken | Opened

  /** `safe`: since the CLI started, a model call was proven or a stop was awaited; `cut`: the stop
      was cut short; `early`: the gate was opened after that. */
  datatype Monitor = Monitor(
    started: bool, attested: bool, cli: bool, safe: bool, gate: Gate, over: bool, cut: bool, early: bool)

  const FRESH := Monitor(false, false, false, false, Unused, false, false, false)

  predicate MayDo(m: Monitor, a: Act) {
    match a
    case Write(RunStarted) => !m.over && !m.started
    case Write(BillingAttested) => !m.over && m.started && !m.attested
    case Write(e) => !m.over && (NeedsAttestation(e) ==> m.attested) && (e.FromAdapter? ==> m.cli)
    case TakeGate => m.gate == Unused && !m.started && !m.cli
    case OpenGate => m.gate == Taken && (m.cli ==> m.safe || m.cut)
    case StartCli => m.attested && !m.cli && !m.over
    case ModelCalled => m.cli && !m.cut
    case StopCli => m.cli && !m.cut
    case StopCut => m.cli && !m.cut && (m.gate == Taken ==> !m.safe)
    case Requeue => !m.started && !m.over && m.gate == Unused
  }

  function Do(m: Monitor, a: Act): Monitor {
    match a
    case Write(e) =>
      m.(started := m.started || e == RunStarted, attested := m.attested || e == BillingAttested,
         over := m.over || Closing(e) || e == WaitingQuota)
    case TakeGate => m.(gate := Taken)
    case OpenGate => m.(gate := Opened, early := m.early || m.cut)
    case StartCli => m.(cli := true)
    case ModelCalled => m.(safe := true)
    case StopCli => m.(safe := true)
    case StopCut => m.(cut := true)
    case Requeue => m
  }

  function Watch(acts: seq<Act>): Option<Monitor> {
    if acts == [] then Some(FRESH)
    else
      var m := Watch(acts[..|acts| - 1]);
      if m.Some? && MayDo(m.value, acts[|acts| - 1]) then Some(Do(m.value, acts[|acts| - 1])) else None
  }

  function Writes(acts: seq<Act>): seq<Event> {
    if acts == [] then []
    else Writes(acts[..|acts| - 1]) + if acts[|acts| - 1].Write? then [acts[|acts| - 1].event] else []
  }

  /** One more act. */
  method Add(acts: seq<Act>, a: Act) returns (acts': seq<Act>)
    requires Watch(acts).Some? && MayDo(Watch(acts).value, a)
    ensures acts' == acts + [a] && Watch(acts') == Some(Do(Watch(acts).value, a))
    ensures Writes(acts') == Writes(acts) + if a.Write? then [a.event] else []
  {
    assert (acts + [a])[..|acts|] == acts;
    acts' := acts + [a];
  }

  /** A fenced write: refused once the lease is stale or the run closed under us. */
  method TryWrite(acts: seq<Act>, left: nat, e: Event) returns (acts': seq<Act>, left': nat, ok: bool)
    requires Watch(acts).Some? && MayDo(Watch(acts).value, Write(e))
    ensures ok <==> left > 0
    ensures ok ==> left' == left - 1 && Watch(acts') == Some(Do(Watch(acts).value, Write(e)))
    ensures ok ==> acts' == acts + [Write(e)] && Writes(acts') == Writes(acts) + [e]
    ensures !ok ==> acts' == acts && left' == left
  {
    if left == 0 {
      return acts, left, false;
    }
    acts' := Add(acts, Write(e));
    return acts', left - 1, true;
  }

  // ---------------------------------------------------------------- the stream

  datatype StreamEnd = Terminal(item: Item) | TimedOut | Raised

  /** Nothing in the tick ends the loop, if its write succeeds; `held`: the gate is still ours. */
  predicate GoesOn(t: Tick, held: bool) {
    && !t.leaseLost && !(held && t.gateLost) && !t.timeUp && !t.cancelled
    && !t.heard.Ended? && (t.heard.Got? ==> t.heard.item.Progress?)
  }

  predicate Proves(t: Tick) {
    t.heard.Got? && t.heard.item.Progress? && t.heard.item.proof
  }

  /** No tick proved a model call, so a gate that was taken is still held. */
  predicate Unproven(ticks: seq<Tick>) {
    forall i :: 0 <= i < |ticks| ==> !Proves(ticks[i])
  }

  /** How many ticks go on before the loop ends. */
  function Calm(ticks: seq<Tick>, held: bool): (n: nat)
    ensures n <= |ticks|
    decreases |ticks|
  {
    if ticks == [] || !GoesOn(ticks[0], held) then 0 else 1 + Calm(ticks[1..], held && !Proves(ticks[0]))
  }

  function ItemOf(t: Tick): seq<Event> {
    if t.heard.Got? && t.heard.item.Progress? then [FromAdapter(t.heard.item.tag)] else []
  }

  function Items(ticks: seq<Tick>): seq<Event> {
    if ticks == [] then [] else Items(ticks[..|ticks| - 1]) + ItemOf(ticks[|ticks| - 1])
  }

  /** A tick with the gate in hand: it stays so, it ends the loop, and the writes left after it. */
  predicate Holds(t: Tick) {
    var trouble := t.leaseLost || t.gateLost || t.timeUp || t.cancelled || !t.heard.Got?;
    trouble || !(t.heard.item.Progress? && t.heard.item.proof)
  }

  predicate Ends(t: Tick, left: nat) {
    t.leaseLost || t.gateLost || t.timeUp || t.cancelled || t.heard.Ended?
    || (t.heard.Got? && (!t.heard.item.Progress? || left == 0))
  }

  function After(t: Tick, left: nat): nat {
    if t.heard.Got? && left > 0 then left - 1 else left
  }

  /** The gate is still held when the loop is over: no tick before that proved a model call. */
  predicate StillHeld(ticks: seq<Tick>, left: nat)
    decreases |ticks|
  {
    ticks == [] || (Holds(ticks[0]) && (Ends(ticks[0], left) || StillHeld(ticks[1..], After(ticks[0], left))))
  }

  /** The CLI runs; `held`: the gate is still ours. */
  ghost predicate Streaming(acts: seq<Act>, held: bool, gated: bool) {
    var gate := if held then Taken else if gated then Opened else Unused;
    Watch(acts) == Some(Monitor(true, true, true, gated && !held, gate, false, false, false))
  }

  predicate IsFinal(end: StreamEnd) {
    end.Terminal? ==> !end.item.Progress?
  }

  /** How a tick that does not go on ends the loop, and whether the CLI must be stopped then. */
  function LoopEnd(t: Tick, held: bool): (StreamEnd, bool) {
    if t.leaseLost then (Raised, true)
    else if held && t.gateLost then (Terminal(Failure(false)), true)
    else if t.timeUp then (TimedOut, true)
    else if t.cancelled then (Terminal(Stopped), true)
    else if t.heard.Got? then (Terminal(t.heard.item), t.heard.item.Stopped?)
    else (Terminal(Failure(false)), true)
  }

  /** One turn of the loop: what ends it, or None to go on; `stop`: the CLI must be stopped. */
  method OnTick(t: Tick, acts0: seq<Act>, left0: nat, held0: bool, ghost gated: bool)
    returns (acts: seq<Act>, left: nat, held: bool, end: Option<StreamEnd>, stop: bool)
    requires Streaming(acts0, held0, gated) && (held0 ==> gated)
    ensures Streaming(acts, held, gated) && (held ==> gated) && Writes(acts0) <= Writes(acts)
    ensures held0 ==> held == Holds(t) && (end.None? ==> left == After(t, left0))
    ensures held ==> (end.Some? <==> Ends(t, left0))
    ensures !held0 ==> !held
    ensures end.Some? ==> IsFinal(end.value)
    ensures held <==> held0 && !(GoesOn(t, held0) && Proves(t))
    ensures left0 > 0 && GoesOn(t, held0) ==>
      end == None && left >= left0 - 1 && Writes(acts) == Writes(acts0) + ItemOf(t)
    ensures !GoesOn(t, held0) ==>
      end == Some(LoopEnd(t, held0).0) && stop == LoopEnd(t, held0).1
      && left == left0 && Writes(acts) == Writes(acts0)
  {
    acts, left, held, end, stop := acts0, left0, held0, None, true;
    if t.leaseLost {
      end := Some(Raised);
    } else if held && t.gateLost {
      end := Some(Terminal(Failure(false)));
    } else if t.timeUp {
      end := Some(TimedOut);
    } else if t.cancelled {
      end := Some(Terminal(Stopped));
    } else if t.heard.Ended? {
      end := Some(Terminal(Failure(false)));    // no_terminal_event
    } else if t.heard.Got? {
      var item := t.heard.item;
      if item.Progress? && item.proof && held {
        acts := Add(acts, ModelCalled);
        acts := Add(acts, OpenGate);
        held := false;
      }
      if !item.Progress? {
        end := Some(Terminal(item));
        stop := item.Stopped?;
      } else {
        var ok;
        acts, left, ok := TryWrite(acts, left, FromAdapter(item.tag));
        if !ok {
          end := Some(Raised);
        }
      }
    }
  }

  /** The loop so far, as long as no write was refused: `n` ticks went on, or the one after `k` ended it. */
  ghost predicate Looping(ticks: seq<Tick>, gated: bool, n: nat, held: bool, over: Option<StreamEnd>, stop: bool,
        log0: seq<Event>, log: seq<Event>)
    requires n <= |ticks|
  {
    var k := Calm(ticks, gated);
    if over.None? then
      && k == n + Calm(ticks[n..], held) && held == (gated && Unproven(ticks[..n])) && log == log0 + Items(ticks[..n])
    else
      && k < |ticks| && held == (gated && Unproven(ticks[..k])) && log == log0 + Items(ticks[..k])
      && (over.value, stop) == LoopEnd(ticks[k], held)
  }

  lemma LoopGoesOn(ticks: seq<Tick>, gated: bool, n: nat, held: bool, log0: seq<Event>, log: seq<Event>)
    requires n < |ticks| && Looping(ticks, gated, n, held, None, true, log0, log) && GoesOn(ticks[n], held)
    ensures Looping(ticks, gated, n + 1, held && !Proves(ticks[n]), None, true, log0, log + ItemOf(ticks[n]))
  {
    ItemsGrow(ticks, n);
    UnprovenGrows(ticks, n);
    CalmStep(ticks, n, held);
    assert log + ItemOf(ticks[n]) == log0 + (Items(ticks[..n]) + ItemOf(ticks[n]));
  }

  lemma ItemsGrow(ticks: seq<Tick>, n: nat)
    requires n < |ticks|
    ensures Items(ticks[..n + 1]) == Items(ticks[..n]) + ItemOf(ticks[n])
  {
    assert ticks[..n + 1][..n] == ticks[..n];
  }

  lemma UnprovenGrows(ticks: seq<Tick>, n: nat)
    requires n < |ticks|
    ensures Unproven(ticks[..n + 1]) <==> Unproven(ticks[..n]) && !Proves(ticks[n])
  {
    assert ticks[..n + 1] == ticks[..n] + [ticks[n]];
  }

  lemma CalmStep(ticks: seq<Tick>, n: nat, held: bool)
    requires n < |ticks| && GoesOn(ticks[n], held)
    ensures Calm(ticks[n..], held) == 1 + Calm(ticks[n + 1..], held && !Proves(ticks[n]))
  {
    assert ticks[n..][1..] == ticks[n + 1..] && ticks[n..][0] == ticks[n];
  }

  lemma LoopEnds(ticks: seq<Tick>, gated: bool, n: nat, held: bool, log0: seq<Event>, log: seq<Event>)
    requires n < |ticks| && Looping(ticks, gated, n, held, None, true, log0, log) && !GoesOn(ticks[n], held)
    ensures Looping(ticks, gated, n + 1, held, Some(LoopEnd(ticks[n], held).0), LoopEnd(ticks[n], held).1, log0, log)
  {
    assert ticks[n..][0] == ticks[n];
  }

  /** The loop over the adapter's items. */
  method Loop(ticks: seq<Tick>, acts0: seq<Act>, left0: nat, gated: bool)
    returns (acts: seq<Act>, left: nat, over: Option<StreamEnd>, stop: bool, held: bool)
    requires Streaming(acts0, gated, gated)
    ensures Streaming(acts, held, gated) && (held ==> gated)
    ensures gated ==> (StillHeld(ticks, left0) <==> held)
    ensures over.Some? ==> IsFinal(over.value)
    ensures left0 >= |ticks| ==>
      && left >= left0 - |ticks|
      && Looping(ticks, gated, |ticks|, held, over, stop, Writes(acts0), Writes(acts))
  {
    acts, left, over, stop, held := acts0, left0, None, true, gated;
    var n := 0;
    while n < |ticks| && over.None?
      invariant 0 <= n <= |ticks|
      invariant Streaming(acts, held, gated) && (held ==> gated) && (over.Some? ==> IsFinal(over.value))
      invariant gated ==> (StillHeld(ticks, left0) <==> held && (over.Some? || StillHeld(ticks[n..], left)))
      invariant left0 >= |ticks| ==>
        && left >= left0 - n
        && Looping(ticks, gated, n, held, over, stop, Writes(acts0), Writes(acts))
    {
      assert ticks[n..][1..] == ticks[n + 1..];
      if left0 >= |ticks| {
        if GoesOn(ticks[n], held) {
          LoopGoesOn(ticks, gated, n, held, Writes(acts0), Writes(acts));
        } else {
          LoopEnds(ticks, gated, n, held, Writes(acts0), Writes(acts));
        }
      }
      acts, left, held, over, stop := OnTick(ticks[n], acts, left, held, gated);
      n := n + 1;
    }
    assert over.None? ==> ticks[n..] == [];
  }

  /** The loop and its cleanup.  The gate is given back on the first event that proves a model call,
      else only after a stop of the CLI was awaited. */
  method Stream(ticks: seq<Tick>, acts0: seq<Act>, left0: nat, gated: bool, stopCut: bool)
    returns (acts: seq<Act>, left: nat, end: StreamEnd, held: bool)
    requires Watch(acts0) == Some(FRESH.(started := true, attested := true, gate := if gated then Taken else Unused))
    ensures Watch(acts).Some? && var m := Watch(acts).value;
      && m.started && m.attested && m.cli && !m.over && (m.cut ==> stopCut && end == Raised)
      && m.gate == (if held then Taken else if gated then Opened else Unused)
      && (held ==> m.cut) && !m.early
    ensures IsFinal(end) && (held <==> stopCut && gated && StillHeld(ticks, left0))
    ensures left0 > |ticks| ==> left > 0 && Streamed(ticks, gated, stopCut, Writes(acts0), Writes(acts), end)
  {
    acts := Add(acts0, StartCli);
    var over, stop;
    acts, left, over, stop, held := Loop(ticks, acts, left0, gated);
    // the queue ended, or the loop did
    end := if over.Some? then over.value else Terminal(Failure(false));
    if left0 >= |ticks| {
      LoopStreamed(ticks, gated, stopCut, held, over, stop, Writes(acts0), Writes(acts), end);
    }
    var finished;
    acts, held, finished := CleanUp(acts, held, gated, over.None? || stop || held, stopCut);
    end := if finished then end else Raised;
  }

  lemma LoopStreamed(ticks: seq<Tick>, gated: bool, stopCut: bool, held: bool, over: Option<StreamEnd>, stop: bool,
        log0: seq<Event>, log: seq<Event>, end: StreamEnd)
    requires Looping(ticks, gated, |ticks|, held, over, stop, log0, log)
    requires end == if over.Some? then over.value else Terminal(Failure(false))
    ensures Streamed(ticks, gated, stopCut, log0, log,
                     if (over.None? || stop || held) && stopCut then Raised else end)
  {
    assert ticks[..|ticks|] == ticks && ticks[|ticks|..] == [];
  }

  /** What a stream writes, and its end, as long as no write is refused. */
  ghost predicate Streamed(ticks: seq<Tick>, gated: bool, stopCut: bool, log0: seq<Event>, log: seq<Event>,
        end: StreamEnd)
  {
    var k := Calm(ticks, gated);
    var held := gated && Unproven(ticks[..k]);
    var (over, stop) := if k == |ticks| then (Terminal(Failure(false)), true) else LoopEnd(ticks[k], held);
    && log == log0 + Items(ticks[..k])
    && end == if stopCut && (stop || held) then Raised else over
  }

  /** The loop's `finally`: stop the CLI where needed, then give the gate back; a cancellation of the
      attempt itself while it awaits the stop leaves at once. */
  method CleanUp(acts0: seq<Act>, held0: bool, ghost gated: bool, stop: bool, stopCut: bool)
    returns (acts: seq<Act>, held: bool, finished: bool)
    requires Streaming(acts0, held0, gated) && (held0 ==> gated && stop)
    ensures finished <==> !(stop && stopCut)
    ensures held <==> held0 && stopCut
    ensures Writes(acts) == Writes(acts0)
    ensures Watch(acts).Some? && var m := Watch(acts).value;
      && m.started && m.attested && m.cli && !m.over && (m.cut <==> !finished) && !m.early
      && m.gate == (if held then Taken else if gated then Opened else Unused)
  {
    acts, held := acts0, held0;
    if stop {
      if stopCut {
        acts := Add(acts, StopCut);
        return acts, held, false;
      }
      acts := Add(acts, StopCli);
    }
    if held {
      acts := Add(acts, OpenGate);
      held := false;
    }
    finished := true;
  }

  // ---------------------------------------------------------------- the drive

  /** `_finish`: the closing write; a run that was closed under us keeps its first closing event. */
  method Finish(acts: seq<Act>, left: nat, e: Event) returns (acts': seq<Act>)
    requires Closing(e) && Watch(acts).Some? && MayDo(Watch(acts).value, Write(e))
    ensures acts' == if left > 0 then acts + [Write(e)] else acts
    ensures left > 0 ==> Watch(acts') == Some(Do(Watch(acts).value, Write(e))) && Writes(acts') == Writes(acts) + [e]
  {
    var left', ok;
    acts', left', ok := TryWrite(acts, left, e);
  }

  /** The checks before the CLI starts all pass. */
  predicate Welcome(e: Env) {
    !e.resumeUnsupported && !e.billingRefused && e.attestation && !e.modelUnknown && !e.attachmentsBad
  }

  /** The attempt ends before the CLI was started. */
  method Refuse(acts: seq<Act>, left: nat) returns (acts': seq<Act>)
    requires Watch(acts).Some? && MayDo(Watch(acts).value, Write(RunFailed))
    ensures Watch(acts').Some? && Watch(acts').value == Watch(acts).value.(over := Watch(acts').value.over)
    ensures left > 0 ==> Writes(acts') == Writes(acts) + [RunFailed]
  {
    acts' := Finish(acts, left, RunFailed);
  }

  /** The monitor before the CLI starts. */
  predicate Preparing(acts: seq<Act>, started: bool, attested: bool, gate: Gate) {
    Watch(acts) == Some(Monitor(started, attested, false, false, gate, false, false, false))
  }

  /** The monitor of an attempt that ended before the CLI started, not attested unless `attested`. */
  predicate Unstarted(acts: seq<Act>, attested: bool, gate: Gate) {
    && Watch(acts).Some?
    && var m := Watch(acts).value;
      !m.cli && m.gate == gate && !m.early && !m.cut && (m.attested ==> attested)
  }

  /** The second half of the preparation. */
  method Attest(e: Env, acts0: seq<Act>, left0: nat, gate: Gate) returns (acts: seq<Act>, left: nat, ready: bool)
    requires Preparing(acts0, true, false, gate) && Writes(acts0) == [RunStarted]
    ensures ready <==> left0 > 0 && !e.modelUnknown && !e.attachmentsBad && !(e.gate == Held && e.gateLost)
    ensures ready ==> Preparing(acts, true, true, gate) && left == left0 - 1
    ensures ready ==> Writes(acts) == [RunStarted, BillingAttested]
    ensures !ready ==> Unstarted(acts, true, gate)
    ensures !ready && left0 >= 2 ==> Writes(acts) == [RunStarted, BillingAttested, RunFailed]
  {
    var ok;
    acts, left, ok := TryWrite(acts0, left0, BillingAttested);
    if !ok {
      return acts, left, false;
    }
    if e.modelUnknown || e.attachmentsBad || (e.gate == Held && e.gateLost) {
      acts := Refuse(acts, left);
      return acts, left, false;
    }
    ready := true;
  }

  /** Up to the attestation: nothing of the CLI runs before both events are written. */
  method Prepare(e: Env, acts0: seq<Act>, left0: nat, gate: Gate) returns (acts: seq<Act>, left: nat, ready: bool)
    requires Writes(acts0) == [] && Preparing(acts0, false, false, gate)
    ensures ready <==> left0 >= 2 && Welcome(e) && !(e.gate == Held && e.gateLost)
    ensures ready ==> Preparing(acts, true, true, gate) && left == left0 - 2
    ensures ready ==> Writes(acts) == [RunStarted, BillingAttested]
    ensures !ready ==> Unstarted(acts, !e.billingRefused && e.attestation, gate)
    ensures !ready && left0 >= 3 ==>
      if e.resumeUnsupported || e.billingRefused || !e.attestation then Writes(acts) == [RunStarted, RunFailed]
      else Writes(acts) == [RunStarted, BillingAttested, RunFailed]
  {
    var ok;
    acts, left, ok := TryWrite(acts0, left0, RunStarted);
    if !ok {
      return acts, left, false;
    }
    if e.resumeUnsupported || e.billingRefused || !e.attestation {
      acts := Refuse(acts, left);
      return acts, left, false;
    }
    acts, left, ready := Attest(e, acts, left, gate);
  }

  /** The event the end of the stream leads to: a quota failure waits when the deadline allows. */
  function Conclusion(end: StreamEnd, parkFits: bool): Event
    requires IsFinal(end) && !end.Raised?
  {
    match end
    case TimedOut => RunTimedOut
    case Terminal(Done) => RunCompleted
    case Terminal(Stopped) => RunCancelled
    case Terminal(Failure(quota)) => if quota && parkFits then WaitingQuota else RunFailed
  }

  /** What an attempt writes as long as no write is refused.  `log` is all its stream wrote before the
      tick that ended it; a cancellation while a stop is awaited keeps the closing event out. */
  ghost predicate StreamLog(e: Env, ws: seq<Event>) {
    var k := Calm(e.ticks, e.gate == Held);
    var held := e.gate == Held && Unproven(e.ticks[..k]);
    var log := [RunStarted, BillingAttested] + Items(e.ticks[..k]);
    if k == |e.ticks| then ws == if e.stopCut then log else log + [RunFailed]
    else
      var t := e.ticks[k];
      if t.leaseLost then ws == log
      else if held && t.gateLost then ws == if e.stopCut then log else log + [RunFailed]
      else if t.timeUp then ws == if e.stopCut then log else log + [RunTimedOut]
      else if t.cancelled then ws == if e.stopCut then log else log + [RunCancelled]
      else if !t.heard.Got? then ws == if e.stopCut then log else log + [RunFailed]
      else if t.heard.item == Stopped then ws == if e.stopCut then log else log + [RunCancelled]
      else if held && e.stopCut then ws == log
      else if t.heard.item == Done then ws == log + [RunCompleted]
      else if t.heard.item == Failure(true) && e.parkFits then ws == log + [WaitingQuota]
      else ws == log + [RunFailed]
  }

  /** The whole log of an attempt, by what it meets first. */
  ghost predicate LogOf(e: Env, ws: seq<Event>) {
    if e.gate.WaitCancelled? then ws == [RunCancelled]
    else if e.gate.Busy? then
      ws == if e.gate.cancelled then [RunCancelled] else if e.gate.overCap then [RunFailed] else []
    else if e.gate == Held && e.cancelledAtGate then ws == [RunCancelled]
    else if e.resumeUnsupported || e.billingRefused || !e.attestation then ws == [RunStarted, RunFailed]
    else if e.modelUnknown || e.attachmentsBad || (e.gate == Held && e.gateLost)
    then ws == [RunStarted, BillingAttested, RunFailed]
    else StreamLog(e, ws)
  }

  /** Every write the attempt can make succeeds. */
  predicate WritesSucceed(e: Env) {
    e.writes >= |e.ticks| + 3
  }

  /** The gate was not to be had: cancelled, or back to the queue (capped). */
  method TurnedAway(e: Env, acts0: seq<Act>) returns (acts: seq<Act>)
    requires e.gate.WaitCancelled? || e.gate.Busy?
    requires acts0 == []
    ensures Watch(acts).Some? && var m := Watch(acts).value; m.gate != Taken && !m.attested && !m.early
    ensures Requeue in acts <==> e.gate.Busy? && !e.gate.cancelled
    ensures WritesSucceed(e) ==> LogOf(e, Writes(acts))
  {
    acts := acts0;
    if e.gate.WaitCancelled? || e.gate.cancelled {
      acts := Finish(acts, e.writes, RunCancelled);
      return;
    }
    acts := Add(acts, Requeue);
    assert acts[|acts| - 1] == Requeue;
    if e.gate.overCap {
      acts := Finish(acts, e.writes, RunFailed);
    }
  }

  /** Where the gate opens although the CLI may still be starting up: the attempt still holds it when
      the stream is over, and is itself cancelled while it awaits the stop of the CLI. */
  predicate OpensEarly(e: Env) {
    && e.stopCut && e.gate == Held && !e.cancelledAtGate && Welcome(e) && !e.gateLost
    && e.writes >= 2 && StillHeld(e.ticks, e.writes - 2)
  }

  /** The closing event of the stream, and the caller's own cleanup. */
  method Conclude(acts0: seq<Act>, left: nat, end: StreamEnd, parkFits: bool, held: bool) returns (acts: seq<Act>)
    requires IsFinal(end) && Watch(acts0).Some?
    requires var m := Watch(acts0).value;
      && m.started && m.attested && m.cli && !m.over && (m.cut ==> end == Raised)
      && (held <==> m.gate == Taken) && (held ==> m.cut) && !m.early
    ensures Watch(acts).Some? && Watch(acts).value.gate != Taken && (Watch(acts).value.early <==> held)
    ensures left > 0 ==>
      Writes(acts) == Writes(acts0) + if end.Raised? then [] else [Conclusion(end, parkFits)]
  {
    acts := acts0;
    if end != Raised {
      var left', ok;
      acts, left', ok := TryWrite(acts, left, Conclusion(end, parkFits));
    }
    if held {
      acts := Add(acts, OpenGate);
    }
  }

  lemma StreamLogged(e: Env, log: seq<Event>, end: StreamEnd)
    requires e.gate == Held || e.gate == NotNeeded
    requires Streamed(e.ticks, e.gate == Held, e.stopCut, [RunStarted, BillingAttested], log, end) && IsFinal(end)
    ensures StreamLog(e, log + if end.Raised? then [] else [Conclusion(end, e.parkFits)])
  {
    assert log + [] == log;
  }

  /** The attempt with the gate in hand, or without need of one. */
  method DriveHeldGate(e: Env, acts0: seq<Act>, gate: Gate) returns (acts: seq<Act>)
    requires (e.gate == Held && !e.cancelledAtGate) || e.gate == NotNeeded
    requires gate == (if e.gate == Held then Taken else Unused)
    requires Writes(acts0) == [] && Preparing(acts0, false, false, gate)
    ensures Watch(acts).Some? && Watch(acts).value.gate != Taken
    ensures Watch(acts).value.early <==> OpensEarly(e)
    ensures e.billingRefused || !e.attestation ==> !Watch(acts).value.attested
    ensures WritesSucceed(e) ==> LogOf(e, Writes(acts))
  {
    var left, ready;
    acts, left, ready := Prepare(e, acts0, e.writes, gate);
    if !ready {
      if e.gate == Held {
        acts := Add(acts, OpenGate);
      }
      return;
    }
    var end, held;
    acts, left, end, held := Stream(e.ticks, acts, left, e.gate == Held, e.stopCut);
    if WritesSucceed(e) {
      StreamLogged(e, Writes(acts), end);
    }
    acts := Conclude(acts, left, end, e.parkFits, held);
  }

  /** Nothing starts the CLI before the attestation is written. */
  lemma {:induction false} StartNeedsAttestation(acts: seq<Act>)
    requires Watch(acts).Some? && StartCli in acts
    ensures Watch(acts).value.attested
  {
    var before, a := acts[..|acts| - 1], acts[|acts| - 1];
    if a != StartCli {
      assert acts == before + [a];
      StartNeedsAttestation(before);
    }
  }

  lemma UnattestedNeverStarts(acts: seq<Act>)
    requires Watch(acts).Some?
    ensures !Watch(acts).value.attested ==> StartCli !in acts
  {
    if StartCli in acts {
      StartNeedsAttestation(acts);
    }
  }

  /** Cancelled right after the gate was taken. */
  method LeaveGate(e: Env, acts0: seq<Act>) returns (acts: seq<Act>)
    requires e.gate == Held && e.cancelledAtGate
    requires Writes(acts0) == [] && Preparing(acts0, false, false, Taken)
    ensures Watch(acts).Some? && var m := Watch(acts).value; m.gate == Opened && !m.early && !m.attested
    ensures WritesSucceed(e) ==> Writes(acts) == [RunCancelled]
  {
    acts := Finish(acts0, e.writes, RunCancelled);
    acts := Add(acts, OpenGate);
  }

  method DriveGated(e: Env) returns (acts: seq<Act>)
    ensures Watch(acts).Some? && Watch(acts).value.gate != Taken
    ensures Watch(acts).value.early <==> OpensEarly(e)
    ensures e.billingRefused || !e.attestation ==> !Watch(acts).value.attested
    ensures WritesSucceed(e) ==> LogOf(e, Writes(acts))
  {
    acts := [];
    if e.gate.WaitCancelled? || e.gate.Busy? {
      acts := TurnedAway(e, acts);
    } else if e.gate == Held {
      acts := Add(acts, TakeGate);
      if e.cancelledAtGate {
        acts := LeaveGate(e, acts);
      } else {
        acts := DriveHeldGate(e, acts, Taken);
      }
    } else {
      acts := DriveHeldGate(e, acts, Unused);
    }
  }

  /** The whole attempt: lawful whatever it meets, the gate never left taken; and, as long
      as no write is refused, exactly the log its surroundings call for. */
  method Drive(e: Env) returns (acts: seq<Act>)
    ensures Watch(acts).Some? && Watch(acts).value.gate != Taken
    ensures (exists i :: 0 <= i < |acts| && Unsafe(acts, i)) <==> OpensEarly(e)
    ensures e.billingRefused || !e.attestation ==> StartCli !in acts && !Watch(acts).value.attested
    ensures e.writes >= |e.ticks| + 3 ==> LogOf(e, Writes(acts))
  {
    acts := DriveGated(e);
    UnattestedNeverStarts(acts);
    EarlyIff(acts);
  }

  // ---------------------------------------------------------------- what the log says

  /** The stream goes on through tick `i`, `gated`: the attempt took the gate. */
  ghost predicate Untroubled(ticks: seq<Tick>, gated: bool, i: nat)
    requires i < |ticks|
  {
    var t := ticks[i];
    && !t.leaseLost && !t.timeUp && !t.cancelled && t.heard != Ended
    && (t.heard.Got? ==> t.heard.item.Progress?)
    && (t.gateLost && gated ==>
        exists p :: 0 <= p < i && ticks[p].heard.Got? && ticks[p].heard.item.Progress? && ticks[p].heard.item.proof)
  }

  lemma UnprovenIff(ticks: seq<Tick>, n: nat)
    requires n <= |ticks|
    ensures Unproven(ticks[..n]) <==>
      !exists p :: 0 <= p < n && ticks[p].heard.Got? && ticks[p].heard.item.Progress? && ticks[p].heard.item.proof
  {
    assert forall p :: 0 <= p < n ==> ticks[..n][p] == ticks[p];
  }

  lemma {:induction false} CalmFrom(ticks: seq<Tick>, gated: bool, n: nat)
    requires n <= |ticks|
    ensures var k := n + Calm(ticks[n..], gated && Unproven(ticks[..n]));
      && (forall i :: n <= i < k ==> Untroubled(ticks, gated, i))
      && (k < |ticks| ==> !Untroubled(ticks, gated, k))
    decreases |ticks| - n
  {
    if n < |ticks| {
      UnprovenIff(ticks, n);
      assert ticks[n..][0] == ticks[n];
      assert GoesOn(ticks[n], gated && Unproven(ticks[..n])) <==> Untroubled(ticks, gated, n);
      if Untroubled(ticks, gated, n) {
        UnprovenGrows(ticks, n);
        CalmStep(ticks, n, gated && Unproven(ticks[..n]));
        CalmFrom(ticks, gated, n + 1);
      }
    }
  }

  /** What ends a stream is the first tick with a lost lease, a gate lost before any model call was
      proven, no time left, a cancellation, an ended queue, or a final item. */
  lemma CalmMeans(ticks: seq<Tick>, gated: bool)
    ensures var k := Calm(ticks, gated);
      && (forall i :: 0 <= i < k ==> Untroubled(ticks, gated, i))
      && (k < |ticks| ==> !Untroubled(ticks, gated, k))
  {
    assert ticks[0..] == ticks;
    CalmFrom(ticks, gated, 0);
  }

  /** Every progress item before that is written, once and in order, and nothing else. */
  lemma {:induction false} ItemsMeans(ticks: seq<Tick>, i: nat)
    requires i < |ticks|
    ensures var before, upto, all := Items(ticks[..i]), Items(ticks[..i + 1]), Items(ticks);
      && before <= upto <= all
      && upto == before + (if ticks[i].heard.Got? && ticks[i].heard.item.Progress?
                           then [FromAdapter(ticks[i].heard.item.tag)] else [])
    ensures Items([]) == [] && Items(ticks[..|ticks|]) == Items(ticks)
  {
    ItemsGrow(ticks, i);
    assert ticks[..|ticks|] == ticks;
    if i + 1 < |ticks| {
      ItemsMeans(ticks[..|ticks| - 1], i);
      assert ticks[..|ticks| - 1][..i] == ticks[..i] && ticks[..|ticks| - 1][..i + 1] == ticks[..i + 1];
    }
  }

  // ---------------------------------------------------------------- what the law means

  lemma {:induction false} WatchPrefix(acts: seq<Act>, n: nat)
    requires Watch(acts).Some? && n <= |acts|
    ensures Watch(acts[..n]).Some?
  {
    if n < |acts| {
      assert acts[..|acts| - 1][..n] == acts[..n];
      WatchPrefix(acts[..|acts| - 1], n);
    } else {
      assert acts[..n] == acts;
    }
  }

  lemma ActAllowed(acts: seq<Act>, i: nat)
    requires Watch(acts).Some? && i < |acts|
    ensures Watch(acts[..i]).Some? && MayDo(Watch(acts[..i]).value, acts[i])
  {
    WatchPrefix(acts, i + 1);
    assert acts[..i + 1][..i] == acts[..i];
  }

  /** The gate opens at `i` although the CLI was started and neither a model call was proven nor a stop
      of it awaited. */
  predicate Unsafe(acts: seq<Act>, i: nat)
    requires i < |acts|
  {
    acts[i] == OpenGate && StartCli in acts[..i] && ModelCalled !in acts[..i] && StopCli !in acts[..i]
  }

  ghost predicate Recalls(m: Monitor, acts: seq<Act>) {
    && (m.cli <==> StartCli in acts) && (m.cut <==> StopCut in acts)
    && (m.safe <==> ModelCalled in acts || StopCli in acts)
  }

  predicate Consistent(m: Monitor) {
    (m.safe ==> m.cli) && (m.cut ==> m.cli && (m.gate == Taken ==> !m.safe))
  }

  lemma RecallsOne(m: Monitor, before: seq<Act>, a: Act)
    requires Recalls(m, before) && MayDo(m, a)
    ensures Recalls(Do(m, a), before + [a])
  {
    assert forall x :: x in before + [a] <==> x in before || x == a;
  }

  /** The monitor knows whether the CLI was started, a stop cut short, a model call proven or a stop
      awaited. */
  lemma {:induction false} Remembers(acts: seq<Act>)
    requires Watch(acts).Some?
    ensures Recalls(Watch(acts).value, acts) && Consistent(Watch(acts).value)
  {
    if acts != [] {
      var before, a := acts[..|acts| - 1], acts[|acts| - 1];
      assert acts == before + [a];
      Remembers(before);
      RecallsOne(Watch(before).value, before, a);
    }
  }

  /** The monitor tells an opening that is not safe. */
  lemma {:induction false} EarlyIff(acts: seq<Act>)
    requires Watch(acts).Some?
    ensures Watch(acts).value.early <==> exists i :: 0 <= i < |acts| && Unsafe(acts, i)
  {
    if acts != [] {
      var before, a := acts[..|acts| - 1], acts[|acts| - 1];
      assert acts == before + [a];
      EarlyIff(before);
      Remembers(before);
      assert Unsafe(acts, |before|) <==> a == OpenGate && Watch(before).value.cut;
      assert forall i :: 0 <= i < |before| ==> before[..i] == acts[..i] && before[i] == acts[i];
      assert forall i :: 0 <= i < |before| ==> Unsafe(before, i) == Unsafe(acts, i);
    }
  }

  /** The gate opens only when the CLI was never started, or after a model call was proven or a stop
      of the CLI was awaited - or, and this is the only other way, after the attempt was cancelled
      while it awaited that stop. */
  lemma GateOpensSafely(acts: seq<Act>, i: nat)
    requires Watch(acts).Some? && i < |acts| && acts[i] == OpenGate
    ensures Unsafe(acts, i) <==> StopCut in acts[..i]
  {
    ActAllowed(acts, i);
    Remembers(acts[..i]);
  }

  /** A start, and an attestation after it. */
  ghost predicate Attested(ws: seq<Event>) {
    exists j, k :: 0 <= j < k < |ws| && ws[j] == RunStarted && ws[k] == BillingAttested
  }

  /** Each adapter event, completion and quota wait follows a start and then an attestation; nothing
      is written after a closing event or a quota wait. */
  ghost predicate AttestedLog(ws: seq<Event>) {
    && (forall i :: 0 <= i < |ws| && NeedsAttestation(ws[i]) ==> Attested(ws[..i]))
    && (forall i :: 0 <= i < |ws| - 1 ==> !Closing(ws[i]) && ws[i] != WaitingQuota)
  }

  /** The writes so far are what the monitor remembers. */
  ghost predicate LogFits(m: Monitor, ws: seq<Event>) {
    && AttestedLog(ws)
    && (m.started ==> RunStarted in ws)
    && (m.attested ==> Attested(ws))
    && (!m.over ==> forall i :: 0 <= i < |ws| ==> !Closing(ws[i]) && ws[i] != WaitingQuota)
  }

  /** Every attempt's log is in order, whatever the attempt met. */
  lemma {:induction false} WritesAttested(acts: seq<Act>)
    requires Watch(acts).Some?
    ensures AttestedLog(Writes(acts)) && LogFits(Watch(acts).value, Writes(acts))
  {
    if acts != [] {
      var before, a := acts[..|acts| - 1], acts[|acts| - 1];
      WritesAttested(before);
      WritesGrow(before, a);
      assert acts == before + [a];
    }
  }

  lemma WritesGrow(acts: seq<Act>, a: Act)
    requires Watch(acts).Some? && MayDo(Watch(acts).value, a)
    requires LogFits(Watch(acts).value, Writes(acts))
    ensures LogFits(Do(Watch(acts).value, a), Writes(acts) + (if a.Write? then [a.event] else []))
  {
    var ws0 := Writes(acts);
    assert ws0 + [] == ws0;
    if a.Write? {
      var ws := ws0 + [a.event];
      assert ws[..|ws0|] == ws0;
      if Watch(acts).value.attested {
        var j, k :| 0 <= j < k < |ws0| && ws0[j] == RunStarted && ws0[k] == BillingAttested;
        assert ws[j] == RunStarted && ws[k] == BillingAttested;
      } else if a.event == BillingAttested {
        var j :| 0 <= j < |ws0| && ws0[j] == RunStarted;
        assert ws[j] == RunStarted && ws[|ws0|] == BillingAttested;
      }
      assert forall i :: 0 <= i < |ws0| ==> ws[..i] == ws0[..i];
    }
  }

  // ---------------------------------------------------------------- the log of a whole run

  /** An entry of the run's log and the attempt that wrote it. */
  datatype Entry = Entry(attempt: int, event: Event)

  function Of(log: seq<Entry>, attempt: int): seq<Event> {
    if log == [] then []
    else Of(log[..|log| - 1], attempt) + if log[|log| - 1].attempt == attempt then [log[|log| - 1].event] else []
  }

  /** Where the n-th event of an attempt stands in the log. */
  lemma {:induction false} Position(log: seq<Entry>, attempt: int, n: nat) returns (i: nat)
    requires n < |Of(log, attempt)|
    ensures i < |log| && log[i] == Entry(attempt, Of(log, attempt)[n]) && |Of(log[..i], attempt)| == n
  {
    var last := |log| - 1;
    if n < |Of(log[..last], attempt)| {
      i := Position(log[..last], attempt, n);
      assert log[..last][..i] == log[..i];
    } else {
      i := last;
    }
  }

  lemma {:induction false} OfGrows(log: seq<Entry>, attempt: int, i: nat)
    requires i <= |log|
    ensures Of(log[..i], attempt) <= Of(log, attempt)
  {
    if i < |log| {
      assert log[..|log| - 1][..i] == log[..i];
      OfGrows(log[..|log| - 1], attempt, i);
    } else {
      assert log[..i] == log;
    }
  }

  /** Where two events of an attempt stand, in their order. */
  lemma Positions(log: seq<Entry>, attempt: int, m: nat, n: nat) returns (j: nat, k: nat)
    requires m < n < |Of(log, attempt)|
    ensures j < k < |log|
    ensures log[j] == Entry(attempt, Of(log, attempt)[m]) && log[k] == Entry(attempt, Of(log, attempt)[n])
  {
    k := Position(log, attempt, n);
    OfGrows(log, attempt, k);
    j := Position(log[..k], attempt, m);
  }

  lemma EntryAttested(log: seq<Entry>, i: nat)
    requires i < |log| && NeedsAttestation(log[i].event)
    requires AttestedLog(Of(log, log[i].attempt))
    ensures exists j, k ::
      && 0 <= j < k < i
      && log[j] == Entry(log[i].attempt, RunStarted) && log[k] == Entry(log[i].attempt, BillingAttested)
  {
    var a := log[i].attempt;
    var ws, upto := Of(log, a), Of(log[..i], a);
    OfGrows(log, a, i + 1);
    assert log[..i + 1][..i] == log[..i];
    assert Of(log[..i + 1], a) == upto + [log[i].event];
    assert ws[..|upto|] == upto && ws[|upto|] == log[i].event;
    var j', k' :| 0 <= j' < k' < |upto| && upto[j'] == RunStarted && upto[k'] == BillingAttested;
    var j, k := Positions(log[..i], a, j', k');
    assert log[j] == Entry(a, RunStarted) && log[k] == Entry(a, BillingAttested);
  }

  /** In the log of a run, put together from the lawful acts of its attempts in any interleaving: an
      adapter event, a completion or a quota wait is preceded, in the same attempt, by `run.started`
      and then by `billing.attested`. */
  lemma {:induction false} RunLogAttested(log: seq<Entry>, acts: int -> seq<Act>, i: nat)
    requires i < |log| && NeedsAttestation(log[i].event)
    requires forall a :: Watch(acts(a)).Some? && Writes(acts(a)) == Of(log, a)
    ensures exists j, k ::
      && 0 <= j < k < i
      && log[j] == Entry(log[i].attempt, RunStarted) && log[k] == Entry(log[i].attempt, BillingAttested)
  {
    WritesAttested(acts(log[i].attempt));
    EntryAttested(log, i);
  }
}
