/**
 The durable handoff of client tool calls: agent/client_tools.py.

 The worker publishes a call, a client submits its result, the worker takes it; the pending call and
 the history of finished calls live in `result_meta` of the queue row, and each of the four
 transactions runs under that row's lock.  Schema validation is a given verdict per call.
 */
module ToolHandoff {
  import opened Wrappers

  const MAX_CALLS := 16
  const MAX_ARGUMENT_BYTES := 64 * 1024
  const MAX_RESULT_BYTES := 64 * 1024

  type Bytes = seq<int>

  /** What a client submits. */
  datatype Answer = Answer(success: bool, content: Bytes, terminal: bool)

  /** The SHA-256 of the answer, taken as injective: the terminal mark joins only when set. */
  datatype Digest = Plain(success: bool, content: Bytes) | Marked(success: bool, content: Bytes)

  function DigestOf(a: Answer): Digest {
    if a.terminal then Marked(a.success, a.content) else Plain(a.success, a.content)
  }

  datatype CallState = Waiting | Ready(answer: Answer)

  datatype Call = Call(id: string, name: string, deadline: real, state: CallState)

  datatype Past = Past(id: string, digest: Digest)

  /** What the job fixes for its whole life. */
  datatype Job = Job(projectId: int, agent: bool, terminalTools: set<string>, waitS: real)

  datatype Status = Queued | Running | Closed

  datatype Box = Box(status: Status, cancelRequested: bool, pending: Option<Call>, history: seq<Past>)

  /** `validate_result`: fine, broken arguments (the model may retry), or anything else. */
  datatype Verdict = Valid | BadArguments | OutsideContract

  datatype Publication = Publication(id: string, name: string, argumentBytes: nat, verdict: Verdict)

  datatype PublishReply = Published | InvalidArguments | PublishConflict | PublishStale
  datatype SubmitReply = Accepted | Repeated | SubmitConflict | TooLarge | NotFound
  datatype TakeReply = Took(answer: Answer) | NotYet | TakeConflict | TakeCancelled | TakeStale

  ghost predicate InHistory(h: seq<Past>, id: string) {
    exists i :: 0 <= i < |h| && h[i].id == id
  }

  /** `any(item["call_id"] == call_id for item in history)` */
  function Listed(h: seq<Past>, id: string): (b: bool)
    ensures b <==> InHistory(h, id)
  {
    h != [] && (h[|h| - 1].id == id || Listed(h[..|h| - 1], id))
  }

  // ---------------------------------------------------------------- the four transactions

  function Publish(j: Job, b: Box, fencesHold: bool, p: Publication, now: real): (Box, PublishReply) {
    if !(1 <= |p.id| <= 128) || p.argumentBytes > MAX_ARGUMENT_BYTES then (b, PublishConflict)
    else if !fencesHold then (b, PublishStale)
    else if b.status != Running || !j.agent || b.cancelRequested then (b, PublishConflict)
    else if p.verdict == BadArguments then (b, InvalidArguments)
    else if p.verdict == OutsideContract then (b, PublishConflict)
    else if b.pending.Some? || |b.history| >= MAX_CALLS || Listed(b.history, p.id) then (b, PublishConflict)
    else (b.(pending := Some(Call(p.id, p.name, now + j.waitS, Waiting))), Published)
  }

  function Submit(j: Job, b: Box, projectId: int, id: string, a: Answer, now: real): (Box, SubmitReply) {
    if |a.content| > MAX_RESULT_BYTES then (b, TooLarge)
    else if projectId != j.projectId then (b, NotFound)
    else if b.status != Running || !j.agent || b.cancelRequested then (b, SubmitConflict)
    else if Past(id, DigestOf(a)) in b.history then (b, Repeated)
    else if b.pending.None? || b.pending.value.id != id then (b, SubmitConflict)
    else
      var call := b.pending.value;
      match call.state
      case Ready(stored) => (b, if DigestOf(stored) == DigestOf(a) then Repeated else SubmitConflict)
      case Waiting =>
        if now >= call.deadline || (a.terminal && (!a.success || call.name !in j.terminalTools))
        then (b, SubmitConflict)
        else (b.(pending := Some(call.(state := Ready(a)))), Accepted)
  }

  function Take(b: Box, fencesHold: bool, id: string, now: real): (Box, TakeReply) {
    if !fencesHold then (b, TakeStale)
    else if b.status != Running then (b, TakeConflict)
    else if b.cancelRequested then (b, TakeCancelled)
    else if b.pending.None? || b.pending.value.id != id then (b, TakeConflict)
    else
      match b.pending.value.state
      case Waiting => (b, if now >= b.pending.value.deadline then TakeConflict else NotYet)
      case Ready(a) => (b.(pending := None, history := b.history + [Past(id, DigestOf(a))]), Took(a))
  }

  function Clear(b: Box): Box {
    if b.status == Running && b.pending.Some? && b.pending.value.state.Waiting? then b.(pending := None) else b
  }

  /** The queue row with its `result_meta`, updated in place. */
  class Mailbox {
    const job: Job
    var status: Status
    var cancelRequested: bool
    var pending: Option<Call>
    var history: seq<Past>

    function View(): Box
      reads this
    {
      Box(status, cancelRequested, pending, history)
    }

    constructor (job: Job)
      ensures this.job == job && View() == Box(Queued, false, None, [])
    {
      this.job := job;
      status, cancelRequested, pending, history := Queued, false, None, [];
    }

    method PublishCall(fencesHold: bool, p: Publication, now: real) returns (r: PublishReply)
      modifies this
      ensures (View(), r) == Publish(job, old(View()), fencesHold, p, now)
    {
      if |p.id| < 1 || |p.id| > 128 {
        return PublishConflict;
      }
      if p.argumentBytes > MAX_ARGUMENT_BYTES {
        return PublishConflict;
      }
      if !fencesHold {
        return PublishStale;
      }
      if status != Running || !job.agent {
        return PublishConflict;
      }
      if cancelRequested {
        return PublishConflict;
      }
      match p.verdict {
        case Valid =>
        case BadArguments => return InvalidArguments;
        case OutsideContract => return PublishConflict;
      }
      if pending.Some? || |history| >= MAX_CALLS || Listed(history, p.id) {
        return PublishConflict;
      }
      pending := Some(Call(p.id, p.name, now + job.waitS, Waiting));
      r := Published;
    }

    method SubmitResult(projectId: int, id: string, a: Answer, now: real) returns (r: SubmitReply)
      modifies this
      ensures (View(), r) == Submit(job, old(View()), projectId, id, a, now)
    {
      if |a.content| > MAX_RESULT_BYTES {
        return TooLarge;
      }
      var digest := DigestOf(a);
      if projectId != job.projectId {
        return NotFound;
      }
      if status != Running || !job.agent || cancelRequested {
        return SubmitConflict;
      }
      if Past(id, digest) in history {
        return Repeated;
      }
      if pending.None? || pending.value.id != id {
        return SubmitConflict;
      }
      var call := pending.value;
      if call.state.Ready? {
        if DigestOf(call.state.answer) == digest {
          return Repeated;
        }
        return SubmitConflict;
      }
      if now >= call.deadline {
        return SubmitConflict;
      }
      if a.terminal && !a.success {
        return SubmitConflict;
      }
      if a.terminal && call.name !in job.terminalTools {
        return SubmitConflict;
      }
      pending := Some(call.(state := Ready(a)));
      r := Accepted;
    }

    method TakeResult(fencesHold: bool, id: string, now: real) returns (r: TakeReply)
      modifies this
      ensures (View(), r) == Take(old(View()), fencesHold, id, now)
    {
      if !fencesHold {
        return TakeStale;
      }
      if status != Running {
        return TakeConflict;
      }
      if cancelRequested {
        return TakeCancelled;
      }
      if pending.None? || pending.value.id != id {
        return TakeConflict;
      }
      match pending.value.state {
        case Waiting =>
          if now >= pending.value.deadline {
            return TakeConflict;
          }
          r := NotYet;
        case Ready(a) =>
          history := history + [Past(id, DigestOf(a))];
          pending := None;
          r := Took(a);
      }
    }

    method ClearPendingCall()
      modifies this
      ensures View() == Clear(old(View()))
    {
      if status != Running {
        return;
      }
      if pending.Some? && pending.value.state == Waiting {
        pending := None;
      }
    }
  }

  // ---------------------------------------------------------------- every interleaving

  /** An accepted result: the tool it answers, and the answer. */
  datatype Deal = Deal(name: string, answer: Answer)

  /** The box, and a record of every acceptance and every take so far. */
  datatype State = State(box: Box, accepted: map<string, Deal>, taken: map<string, Answer>)

  datatype Step =
    | DoPublish(fencesHold: bool, p: Publication, now: real)
    | DoSubmit(projectId: int, id: string, a: Answer, now: real)
    | DoTake(fencesHold: bool, id: string, now: real)
    | DoClear
    | Claimed       // pending -> running
    | Parked        // back to the queue, result_meta kept
    | CancelAsked
    | Terminal      // the terminal write replaces result_meta, keeping the history only

  const START := State(Box(Queued, false, None, []), map[], map[])

  function Next(j: Job, s: State, step: Step): State {
    var b := s.box;
    match step
    case DoPublish(fencesHold, p, now) => s.(box := Publish(j, b, fencesHold, p, now).0)
    case DoSubmit(projectId, id, a, now) =>
      var (b', r) := Submit(j, b, projectId, id, a, now);
      if r == Accepted && b.pending.Some?
      then s.(box := b', accepted := s.accepted[id := Deal(b.pending.value.name, a)])
      else s.(box := b')
    case DoTake(fencesHold, id, now) =>
      var (b', r) := Take(b, fencesHold, id, now);
      if r.Took? then s.(box := b', taken := s.taken[id := r.answer]) else s.(box := b')
    case DoClear => s.(box := Clear(b))
    case Claimed => if b.status == Queued then s.(box := b.(status := Running)) else s
    case Parked => if b.status == Running then s.(box := b.(status := Queued)) else s
    case CancelAsked => s.(box := b.(cancelRequested := true))
    case Terminal => s.(box := b.(status := Closed, pending := None))
  }

  function Run(j: Job, s: State, steps: seq<Step>): State
    decreases |steps|
  {
    if steps == [] then s else Run(j, Next(j, s, steps[0]), steps[1..])
  }

  ghost predicate Distinct(h: seq<Past>) {
    forall i, k :: 0 <= i < k < |h| ==> h[i].id != h[k].id
  }

  /** Where an accepted, not yet dropped result can be: waiting to be taken, or in the history. */
  ghost predicate Kept(s: State, id: string) {
    && id in s.accepted
    && var a := s.accepted[id].answer;
      || Past(id, DigestOf(a)) in s.box.history
      || (s.box.pending.Some? && s.box.pending.value.id == id && s.box.pending.value.state == Ready(a))
  }

  ghost predicate Sound(j: Job, s: State) {
    var b := s.box;
    && Distinct(b.history)
    && |b.history| + (if b.pending.Some? then 1 else 0) <= MAX_CALLS
    && (b.pending.Some? ==> !InHistory(b.history, b.pending.value.id))
    && (b.pending.Some? && b.pending.value.state.Ready? ==>
          var c := b.pending.value;
          c.id in s.accepted && s.accepted[c.id] == Deal(c.name, c.state.answer))
    && (forall i :: 0 <= i < |b.history| ==>
          var id := b.history[i].id;
          && id in s.accepted && id in s.taken
          && b.history[i].digest == DigestOf(s.accepted[id].answer))
    && (forall id :: id in s.accepted && b.status != Closed ==> Kept(s, id))
    && (forall id :: id in s.accepted ==> Allowed(j, s.accepted[id]))
    && (forall id :: id in s.taken ==>
          id in s.accepted && s.taken[id] == s.accepted[id].answer && InHistory(b.history, id))
    && (b.status == Closed ==> b.pending.None?)
  }

  /** A terminal result is a success of a declared terminal tool; no result exceeds its limit. */
  predicate Allowed(j: Job, d: Deal) {
    && |d.answer.content| <= MAX_RESULT_BYTES
    && (d.answer.terminal ==> d.answer.success && d.name in j.terminalTools)
  }

  lemma {:induction false} HistoryGrows(h: seq<Past>, p: Past)
    ensures forall id :: InHistory(h + [p], id) <==> InHistory(h, id) || id == p.id
    ensures Distinct(h) && !InHistory(h, p.id) ==> Distinct(h + [p])
  {
    forall id
      ensures InHistory(h + [p], id) <==> InHistory(h, id) || id == p.id
    {
      assert (h + [p])[|h|] == p;
      if InHistory(h, id) {
        var i :| 0 <= i < |h| && h[i].id == id;
        assert (h + [p])[i].id == id;
      }
    }
  }

  lemma {:induction false} AcceptsFresh(j: Job, s: State, projectId: int, id: string, a: Answer, now: real)
    requires Sound(j, s)
    ensures Submit(j, s.box, projectId, id, a, now).1 == Accepted ==> id !in s.accepted
  {
    if s.box.status == Running && id in s.accepted {
      assert Kept(s, id);
    }
  }

  lemma {:induction false} SubmitSound(j: Job, s: State, step: Step)
    requires Sound(j, s) && step.DoSubmit?
    ensures Sound(j, Next(j, s, step))
  {
    AcceptsFresh(j, s, step.projectId, step.id, step.a, step.now);
    var s' := Next(j, s, step);
    if Submit(j, s.box, step.projectId, step.id, step.a, step.now).1 == Accepted {
      forall k | k in s'.accepted
        ensures Kept(s', k)
      {
        assert k != step.id ==> Kept(s, k);
      }
    } else {
      assert s' == s;
    }
  }

  lemma {:induction false} TakeSound(j: Job, s: State, step: Step)
    requires Sound(j, s) && step.DoTake?
    ensures Sound(j, Next(j, s, step))
  {
    var s' := Next(j, s, step);
    if s'.box != s.box {
      var p := Past(step.id, DigestOf(s.box.pending.value.state.answer));
      HistoryGrows(s.box.history, p);
      assert p in s'.box.history;
      forall k | k in s'.accepted
        ensures Kept(s', k)
      {
        assert Kept(s, k);
      }
    }
  }

  lemma {:induction false} NextSound(j: Job, s: State, step: Step)
    requires Sound(j, s)
    ensures Sound(j, Next(j, s, step))
  {
    match step
    case DoSubmit(_, _, _, _) => SubmitSound(j, s, step);
    case DoTake(_, _, _) => TakeSound(j, s, step);
    case Terminal =>
    case _ =>
      var s' := Next(j, s, step);
      forall k | k in s'.accepted && s'.box.status != Closed
        ensures Kept(s', k)
      {
        assert Kept(s, k);
      }
  }

  lemma {:induction false} RunSound(j: Job, s: State, steps: seq<Step>)
    requires Sound(j, s)
    ensures Sound(j, Run(j, s, steps))
    decreases |steps|
  {
    if steps != [] {
      NextSound(j, s, steps[0]);
      RunSound(j, Next(j, s, steps[0]), steps[1..]);
    }
  }

  /** At every moment of every interleaving: an acceptance is the first one of its call id, a take
      hands out exactly the accepted result of that id - whatever the time - and is the first one. */
  lemma {:induction false} ExactlyOnce(j: Job, steps: seq<Step>, id: string, projectId: int, a: Answer,
        fencesHold: bool, now: real)
    ensures var s := Run(j, START, steps);
      && (Submit(j, s.box, projectId, id, a, now).1 == Accepted ==> id !in s.accepted)
      && (var r := Take(s.box, fencesHold, id, now).1;
          r.Took? ==> id in s.accepted && r.answer == s.accepted[id].answer && id !in s.taken)
  {
    RunSound(j, START, steps);
    AcceptsFresh(j, Run(j, START, steps), projectId, id, a, now);
  }

  /** A result the client got a yes for is delivered to its worker at any later time, deadline or
      not, until the run stops or is cancelled. */
  lemma {:induction false} AcceptedIsDelivered(j: Job, steps: seq<Step>, id: string, now: real)
    requires var s := Run(j, START, steps);
      id in s.accepted && id !in s.taken && s.box.status == Running && !s.box.cancelRequested
    ensures var s := Run(j, START, steps);
      Take(s.box, true, id, now).1 == Took(s.accepted[id].answer)
  {
    RunSound(j, START, steps);
    var s := Run(j, START, steps);
    assert Kept(s, id);
  }

  /** Retrying an accepted submission: the same result answers False, any other one conflicts, and
      neither changes anything. */
  lemma {:induction false} RetriesAreIdempotent(j: Job, steps: seq<Step>, id: string, a: Answer, now: real)
    requires var s := Run(j, START, steps);
      id in s.accepted && s.box.status == Running && !s.box.cancelRequested
    requires j.agent && |a.content| <= MAX_RESULT_BYTES
    ensures var s := Run(j, START, steps);
      Submit(j, s.box, j.projectId, id, a, now)
        == (s.box, if a == s.accepted[id].answer then Repeated else SubmitConflict)
  {
    RunSound(j, START, steps);
    var s := Run(j, START, steps);
    assert Kept(s, id);
    if Past(id, DigestOf(a)) in s.box.history {
      var i :| 0 <= i < |s.box.history| && s.box.history[i] == Past(id, DigestOf(a));
      assert s.box.history[i].digest == DigestOf(s.accepted[id].answer);
    } else if Past(id, DigestOf(s.accepted[id].answer)) in s.box.history {
      assert InHistory(s.box.history, id);
    }
  }

  /** The history never lists an id twice and never exceeds its cap; whatever was taken as terminal
      output was a success of a declared terminal tool. */
  lemma {:induction false} HistoryTheorem(j: Job, steps: seq<Step>)
    ensures var s := Run(j, START, steps);
      && Distinct(s.box.history) && |s.box.history| <= MAX_CALLS
      && (forall id :: id in s.taken && s.taken[id].terminal ==>
            s.taken[id].success && id in s.accepted && s.accepted[id].name in j.terminalTools)
  {
    RunSound(j, START, steps);
  }

  lemma {:induction false} RunKeeps(j: Job, s: State, steps: seq<Step>, id: string)
    requires Sound(j, s) && id in s.accepted
    ensures id in Run(j, s, steps).accepted && Run(j, s, steps).accepted[id] == s.accepted[id]
    decreases |steps|
  {
    if steps != [] {
      NextSound(j, s, steps[0]);
      if steps[0].DoSubmit? {
        AcceptsFresh(j, s, steps[0].projectId, steps[0].id, steps[0].a, steps[0].now);
      }
      RunKeeps(j, Next(j, s, steps[0]), steps[1..], id);
    }
  }

  /** No later publish, submit, take, clear, park, cancel or close changes an accepted result. */
  lemma {:induction false} AcceptedForever(j: Job, before: seq<Step>, after: seq<Step>, id: string)
    requires id in Run(j, START, before).accepted
    ensures var s := Run(j, START, before);
      id in Run(j, s, after).accepted && Run(j, s, after).accepted[id] == s.accepted[id]
  {
    RunSound(j, START, before);
    RunKeeps(j, Run(j, START, before), after, id);
  }
}
