/**
 The event log and the lifecycle of one agent run (agent/runs.py, the sweeps of agent/worker.py).

 A writer works in two phases.  It reads `last_seq` and `outcome` of the run row, and later commits
 an event under the key `(run_id, last_seq + 1)`.  Any number of writers may be between their two
 phases at the same time; only the primary key of the event table keeps them apart.
 */
module RunLog {
  import opened Wrappers

  datatype Outcome = Completed | Failed | Cancelled | TimedOut

  datatype Event =
    | RunStarted
    | BillingAttested
    | AdapterEvent(name: string)
    | RunWaitingQuota
    | RunCompleted
    | RunFailed
    | RunCancelled
    | RunTimedOut

  datatype Status = Pending | Running | Done | Error | Withdrawn

  predicate Terminal(e: Event) {
    e.RunCompleted? || e.RunFailed? || e.RunCancelled? || e.RunTimedOut?
  }

  /** OUTCOME_BY_TYPE */
  function OutcomeOf(e: Event): Option<Outcome> {
    match e
    case RunCompleted => Some(Completed)
    case RunFailed => Some(Failed)
    case RunCancelled => Some(Cancelled)
    case RunTimedOut => Some(TimedOut)
    case _ => None
  }

  /** The queue status a terminal event leaves behind. */
  function StatusOf(e: Event): Status {
    if e.RunCompleted? then Done else if e.RunCancelled? then Withdrawn else Error
  }

  /** `run.waiting_quota` is written by `park_for_quota` only; no caller appends one. */
  type Appended = e: Event | !e.RunWaitingQuota? witness RunStarted

  /** What a transaction writes.  A client job's `run.completed` becomes `run.failed` when its
      text breaks the declared output format (`invalidOutput`). */
  datatype Write =
    | Append(event: Appended, onlyIfPending: bool, invalidOutput: bool)
    | Park
    | Requeue

  function Written(w: Write): Event
    requires !w.Requeue?
  {
    match w
    case Append(e, _, invalid) => if e.RunCompleted? && invalid then RunFailed else e
    case Park => RunWaitingQuota
  }

  /** Does the commit update the queue row? */
  predicate TouchesQueue(w: Write) {
    !w.Append? || Terminal(w.event)
  }

  /** A transaction between its read and its commit, with the values it read. */
  datatype Txn = Txn(write: Write, readSeq: nat, waits: nat, retries: nat)

  /** The rows of one run: `agent_run_events`, `agent_runs` and `deep_jobs`. */
  datatype Rows = Rows(
    log: map<int, Event>,
    lastSeq: nat,
    outcome: Option<Outcome>,
    status: Status,
    cancelRequested: bool,
    quotaWaits: nat,
    retryCount: nat)

  datatype Reply = Stored(value: nat) | DuplicateKey

  /** The rows after the commit of `t`: unchanged when its key is taken. */
  function CommitRows(r: Rows, t: Txn): Rows {
    match t.write
    case Requeue => r.(status := Pending, retryCount := t.retries + 1)
    case Append(_, _, _) =>
      var e := Written(t.write);
      if t.readSeq + 1 in r.log then r
      else if Terminal(e) then
        r.(log := r.log[t.readSeq + 1 := e], lastSeq := t.readSeq + 1,
           outcome := OutcomeOf(e), status := StatusOf(e))
      else r.(log := r.log[t.readSeq + 1 := e], lastSeq := t.readSeq + 1)
    case Park =>
      if t.readSeq + 1 in r.log then r
      else r.(log := r.log[t.readSeq + 1 := RunWaitingQuota], lastSeq := t.readSeq + 1,
              quotaWaits := t.waits + 1, status := Pending)
  }

  /** The rows as the transactions update them in place. */
  class RunRows {
    var log: map<int, Event>
    var lastSeq: nat
    var outcome: Option<Outcome>
    var status: Status
    var cancelRequested: bool
    var quotaWaits: nat
    var retryCount: nat

    function View(): Rows
      reads this
    {
      Rows(log, lastSeq, outcome, status, cancelRequested, quotaWaits, retryCount)
    }

    constructor ()
      ensures View() == NEW_RUN
    {
      log, lastSeq, outcome, status := map[], 0, None, Pending;
      cancelRequested, quotaWaits, retryCount := false, 0, 0;
    }

    /** First half of `append_event` / `park_for_quota` / `requeue_run`: check and read. */
    method Read(w: Write) returns (t: Option<Txn>)
      ensures t.None? <==> !w.Requeue? && (outcome.Some? || (w.Append? && w.onlyIfPending && status != Pending))
      ensures t.Some? ==> t.value == Txn(w, lastSeq, quotaWaits, retryCount)
    {
      if w.Append? && w.onlyIfPending && status != Pending {
        return None;
      }
      if !w.Requeue? && outcome != None {
        return None;
      }
      t := Some(Txn(w, lastSeq, quotaWaits, retryCount));
    }

    /** Second half: the commit, refused as a whole by the primary key. */
    method Commit(t: Txn) returns (reply: Reply)
      modifies this
      ensures View() == CommitRows(old(View()), t)
      ensures reply == DuplicateKey <==> !t.write.Requeue? && t.readSeq + 1 in old(log)
    {
      if t.write.Requeue? {
        status := Pending;
        retryCount := t.retries + 1;
        return Stored(retryCount);
      }
      var e := Written(t.write);
      if t.readSeq + 1 in log {
        return DuplicateKey;
      }
      lastSeq := t.readSeq + 1;
      log := log[lastSeq := e];
      if t.write.Park? {
        quotaWaits := t.waits + 1;
        status := Pending;
      }
      if Terminal(e) {
        outcome := OutcomeOf(e);
        status := if e == RunCompleted then Done else if e == RunCancelled then Withdrawn else Error;
      }
      reply := Stored(lastSeq);
    }
  }

  const NEW_RUN := Rows(map[], 0, None, Pending, false, 0, 0)

  // ---------------------------------------------------------------- the concurrent system

  /** Open transactions by id, and the holder of the queue row's lock: only an `only_if_pending`
      append takes it at its read and keeps it to its end. */
  datatype State = State(rows: Rows, open: map<int, Txn>, queueLock: Option<int>)

  datatype Step =
    | Begin(tid: int, write: Write)
    | Commit(tid: int)
    | Abort(tid: int)
    | Claim
    | RequestCancel

  function Close(s: State, tid: int): State {
    State(s.rows, s.open - {tid}, if s.queueLock == Some(tid) then None else s.queueLock)
  }

  predicate Locks(w: Write) {
    w.Append? && w.onlyIfPending
  }

  /** A commit that must wait for the queue row's lock. */
  predicate Waits(s: State, tid: int)
    requires tid in s.open
  {
    TouchesQueue(s.open[tid].write) && s.queueLock.Some? && s.queueLock != Some(tid)
  }

  function Next(s: State, step: Step): State {
    match step
    case Begin(tid, w) =>
      if tid in s.open then s
      else if Locks(w) && (s.queueLock.Some? || s.rows.status != Pending) then s
      else if !w.Requeue? && s.rows.outcome.Some? then s
      else State(s.rows,
                 s.open[tid := Txn(w, s.rows.lastSeq, s.rows.quotaWaits, s.rows.retryCount)],
                 if Locks(w) then Some(tid) else s.queueLock)
    case Commit(tid) =>
      if tid !in s.open || Waits(s, tid) then s
      else Close(s.(rows := CommitRows(s.rows, s.open[tid])), tid)
    case Abort(tid) => Close(s, tid)
    case Claim =>
      if s.rows.status == Pending && s.queueLock.None? then s.(rows := s.rows.(status := Running)) else s
    case RequestCancel =>
      if s.rows.outcome.None? && s.rows.status != Pending
      then s.(rows := s.rows.(cancelRequested := true)) else s
  }

  function Run(s: State, steps: seq<Step>): State
    decreases |steps|
  {
    if steps == [] then s else Run(Next(s, steps[0]), steps[1..])
  }

  const START := State(NEW_RUN, map[], None)

  // ---------------------------------------------------------------- what every state keeps

  function Waitings(log: map<int, Event>, n: nat): nat {
    if n == 0 then 0
    else Waitings(log, n - 1) + (if n in log && log[n] == RunWaitingQuota then 1 else 0)
  }

  lemma {:induction false} WaitingsFrame(log: map<int, Event>, log': map<int, Event>, n: nat)
    requires forall k :: 1 <= k <= n ==> k in log && k in log' && log[k] == log'[k]
    ensures Waitings(log, n) == Waitings(log', n)
  {
    if n > 0 {
      WaitingsFrame(log, log', n - 1);
    }
  }

  /** The log is exactly 1..last_seq, a terminal event is only its last one and is the outcome,
      and `quota_waits` counts the waits on record. */
  ghost predicate WellLogged(r: Rows) {
    && (forall k :: k in r.log <==> 1 <= k <= r.lastSeq)
    && (forall k :: k in r.log && Terminal(r.log[k]) ==> k == r.lastSeq)
    && r.outcome == (if r.lastSeq == 0 then None else OutcomeOf(r.log[r.lastSeq]))
    && r.quotaWaits == Waitings(r.log, r.lastSeq)
  }

  /** A snapshot that is still current was taken of an open run. */
  ghost predicate Snapshots(s: State) {
    && (forall t :: t in s.open ==>
          && s.open[t].readSeq <= s.rows.lastSeq
          && (s.open[t].readSeq == s.rows.lastSeq && !s.open[t].write.Requeue? ==>
                s.rows.outcome.None? && s.open[t].waits == s.rows.quotaWaits))
    && (forall t :: t in s.open && Locks(s.open[t].write) ==> s.queueLock == Some(t))
    && (s.queueLock.Some? ==> s.queueLock.value in s.open && s.rows.status == Pending)
  }

  ghost predicate Sound(s: State) {
    WellLogged(s.rows) && Snapshots(s)
  }

  lemma CommitRowsSound(r: Rows, t: Txn)
    requires WellLogged(r) && t.readSeq <= r.lastSeq
    requires t.readSeq == r.lastSeq && !t.write.Requeue? ==> r.outcome.None? && t.waits == r.quotaWaits
    ensures WellLogged(CommitRows(r, t))
    ensures CommitRows(r, t).lastSeq >= r.lastSeq
    ensures CommitRows(r, t).lastSeq == r.lastSeq ==>
      CommitRows(r, t).outcome == r.outcome && CommitRows(r, t).quotaWaits == r.quotaWaits
  {
    if !t.write.Requeue? && t.readSeq + 1 !in r.log {
      assert t.readSeq == r.lastSeq;
      var r' := CommitRows(r, t);
      WaitingsFrame(r.log, r'.log, r.lastSeq);
    }
  }

  lemma NextSound(s: State, step: Step)
    requires Sound(s)
    ensures Sound(Next(s, step))
  {
    if step.Commit? && step.tid in s.open && !Waits(s, step.tid) {
      CommitRowsSound(s.rows, s.open[step.tid]);
    }
  }

  /** Under every interleaving of two-phase writers. */
  lemma {:induction false} RunSound(s: State, steps: seq<Step>)
    requires Sound(s)
    ensures Sound(Run(s, steps))
    decreases |steps|
  {
    if steps != [] {
      NextSound(s, steps[0]);
      RunSound(Next(s, steps[0]), steps[1..]);
    }
  }

  /** The log of a run, whatever its writers did: exactly the numbers 1..last_seq, at most one
      terminal event, nothing after it, and the outcome is that event's. */
  lemma LogTheorem(steps: seq<Step>)
    ensures var r := Run(START, steps).rows;
      && (forall k :: k in r.log <==> 1 <= k <= r.lastSeq)
      && (forall j, k :: j in r.log && k in r.log && Terminal(r.log[j]) && Terminal(r.log[k]) ==> j == k)
      && (forall j, k :: j in r.log && k in r.log && Terminal(r.log[j]) ==> k <= j)
      && (r.outcome.Some? <==> exists k :: k in r.log && Terminal(r.log[k]))
      && (forall k :: k in r.log && Terminal(r.log[k]) ==> r.outcome == OutcomeOf(r.log[k]))
      && r.quotaWaits == Waitings(r.log, r.lastSeq)
  {
    RunSound(START, steps);
    var r := Run(START, steps).rows;
    if r.outcome.Some? {
      assert r.lastSeq in r.log && Terminal(r.log[r.lastSeq]);
    }
  }

  // ---------------------------------------------------------------- the log only grows, a closed one never

  ghost predicate Extends(r: Rows, r': Rows) {
    forall k :: k in r.log ==> k in r'.log && r'.log[k] == r.log[k]
  }

  lemma NextExtends(s: State, step: Step)
    requires Sound(s)
    ensures Extends(s.rows, Next(s, step).rows)
    ensures s.rows.outcome.Some? ==>
      Next(s, step).rows.log == s.rows.log && Next(s, step).rows.outcome == s.rows.outcome
  {
  }

  lemma {:induction false} RunExtends(s: State, steps: seq<Step>)
    requires Sound(s)
    ensures Extends(s.rows, Run(s, steps).rows)
    ensures s.rows.outcome.Some? ==>
      Run(s, steps).rows.log == s.rows.log && Run(s, steps).rows.outcome == s.rows.outcome
    decreases |steps|
  {
    if steps != [] {
      var s' := Next(s, steps[0]);
      NextSound(s, steps[0]);
      NextExtends(s, steps[0]);
      RunExtends(s', steps[1..]);
    }
  }

  /** A stored event is never rewritten, and the first terminal event wins for good: no later
      step changes the log or the outcome. */
  lemma AppendOnly(before: seq<Step>, after: seq<Step>)
    ensures var r, r' := Run(START, before).rows, Run(Run(START, before), after).rows;
      && Extends(r, r')
      && (r.outcome.Some? ==> r'.log == r.log && r'.outcome == r.outcome)
  {
    RunSound(START, before);
    RunExtends(Run(START, before), after);
  }

  /** `only_if_pending` is atomic with "nobody claimed it": from its check to its commit the queue
      row stays pending and no claim gets through. */
  lemma OnlyIfPendingStaysPending(steps: seq<Step>, tid: int)
    requires tid in Run(START, steps).open && Locks(Run(START, steps).open[tid].write)
    ensures Run(START, steps).rows.status == Pending
    ensures Next(Run(START, steps), Claim) == Run(START, steps)
  {
    RunSound(START, steps);
  }

  // ---------------------------------------------------------------- lifecycle

  /** `outcome` is set exactly when the queue status is terminal, and the two agree. */
  predicate Agree(r: Rows) {
    match r.outcome
    case None => r.status == Pending || r.status == Running
    case Some(Completed) => r.status == Done
    case Some(Cancelled) => r.status == Withdrawn
    case Some(_) => r.status == Error
  }

  /** The one thing the code leaves to its callers: a requeue commits on an unfinished run only. */
  predicate Guarded(s: State, step: Step) {
    step.Commit? && step.tid in s.open && s.open[step.tid].write.Requeue? && !Waits(s, step.tid)
    ==> s.rows.outcome.None?
  }

  predicate GuardedRun(s: State, steps: seq<Step>)
    decreases |steps|
  {
    steps != [] ==> Guarded(s, steps[0]) && GuardedRun(Next(s, steps[0]), steps[1..])
  }

  lemma {:induction false} RunAgrees(s: State, steps: seq<Step>)
    requires Sound(s) && Agree(s.rows) && GuardedRun(s, steps)
    ensures Agree(Run(s, steps).rows)
    decreases |steps|
  {
    if steps != [] {
      NextSound(s, steps[0]);
      RunAgrees(Next(s, steps[0]), steps[1..]);
    }
  }

  /** In every reachable state outcome and queue status agree. */
  lemma LifecycleTheorem(steps: seq<Step>)
    requires GuardedRun(START, steps)
    ensures Agree(Run(START, steps).rows)
  {
    RunAgrees(START, steps);
  }

  /** `requeue_run` does not look at `outcome`: from a state that agrees, its commit keeps the
      agreement if and only if the run is unfinished. */
  lemma RequeueKeepsAgreementIff(r: Rows, t: Txn)
    requires Agree(r) && t.write.Requeue?
    ensures Agree(CommitRows(r, t)) <==> r.outcome.None?
  {
  }

  /** A requeue that read the run before it finished really leaves a finished run pending. */
  lemma UnguardedRequeueReopens()
    ensures var r := Run(START, [
        Claim, Begin(0, Requeue), Begin(1, Append(RunFailed, false, false)), Commit(1), Commit(0)]).rows;
      r.outcome == Some(Failed) && r.status == Pending && !Agree(r)
  {
  }
}
