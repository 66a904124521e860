/**
 The lease and the log of one run together (agent/lock.py `check_fence`, agent/runs.py): a leased
 writer locks the lease row, compares its token and keeps the lock until its event is committed.
 Sweeps and cancels write without a lease.
 */
module FencedLog {
  import opened Wrappers
  import Lease
  import RunLog

  /** `leased` is the open transaction that holds the lease row's lock; `origin` remembers the fence
      token each leased event was written under. */
  datatype State = State(lease: Lease.State, log: RunLog.State, leased: Option<Hold>, origin: map<int, nat>)

  datatype Hold = Hold(tid: int, token: Lease.Token)

  predicate Holding(s: State, tid: int) {
    s.leased.Some? && s.leased.value.tid == tid
  }

  datatype Step =
    | Acquire(runId: int, ttl: real, now: real)
    | Renew(lease: Lease.Token, ttl: real, now: real)
    | Release(lease: Lease.Token, now: real)
    | BeginLeased(tid: int, token: Lease.Token, write: RunLog.Write)
    | BeginFree(tid: int, write: RunLog.Write)
    | Commit(tid: int)
    | Abort(tid: int)
    | Claim
    | RequestCancel

  const START := State(Lease.START, RunLog.START, None, map[])

  function OnLease(s: State, step: Lease.Step): State {
    s.(lease := Lease.Next(s.lease, step))
  }

  function OnLog(s: State, step: RunLog.Step): State {
    s.(log := RunLog.Next(s.log, step))
  }

  /** The transaction is over: the lease row is free again. */
  function Unlocked(s: State, how: Lease.Step): State {
    OnLease(s, how).(leased := None)
  }

  function Next(s: State, step: Step): State {
    match step
    case Acquire(runId, ttl, now) => OnLease(s, Lease.Acquire(runId, ttl, now))
    case Renew(lease, ttl, now) => OnLease(s, Lease.Renew(lease, ttl, now))
    case Release(lease, now) => OnLease(s, Lease.Release(lease, now))
    case BeginFree(tid, write) => OnLog(s, RunLog.Begin(tid, write))
    case BeginLeased(tid, token, write) =>
      // a locked row is waited for, a stale token or a finished run ends the transaction
      if s.lease.writer.Some? || !Lease.Holds(s.lease.row, token) || tid in s.log.open then s
      else
        var begun := OnLog(s, RunLog.Begin(tid, write));
        if tid in begun.log.open then OnLease(begun, Lease.CheckFence(token)).(leased := Some(Hold(tid, token))) else s
    case Commit(tid) =>
      var done := OnLog(s, RunLog.Commit(tid));
      if !Holding(s, tid) || tid in done.log.open then done
      else
        var last := done.log.rows.lastSeq;
        var stored := last != s.log.rows.lastSeq;
        Unlocked(done, Lease.CommitWrite).(origin := if stored
            then s.origin[last := s.leased.value.token.fence] else s.origin)
    case Abort(tid) =>
      var done := OnLog(s, RunLog.Abort(tid));
      if Holding(s, tid) then Unlocked(done, Lease.AbortWrite) else done
    case Claim => OnLog(s, RunLog.Claim)
    case RequestCancel => OnLog(s, RunLog.RequestCancel)
  }

  function Run(s: State, steps: seq<Step>): State
    decreases |steps|
  {
    if steps == [] then s else Run(Next(s, steps[0]), steps[1..])
  }

  /** The two systems are sound, the lock is where it should be, and every leased event carries a
      token not newer than the row's, in the order of the log. */
  ghost predicate Sound(s: State) {
    && Lease.Sound(s.lease) && RunLog.Sound(s.log)
    && s.lease.writer == (if s.leased.Some? then Some(s.leased.value.token) else None)
    && (forall k :: k in s.origin ==> k in s.log.rows.log && s.origin[k] <= Lease.FenceOf(s.lease.row))
    && (forall j, k :: j in s.origin && k in s.origin && j <= k ==> s.origin[j] <= s.origin[k])
  }

  lemma LogNext(s: RunLog.State, step: RunLog.Step)
    requires RunLog.Sound(s)
    ensures var s' := RunLog.Next(s, step);
      && RunLog.Sound(s') && RunLog.Extends(s.rows, s'.rows) && s'.rows.lastSeq >= s.rows.lastSeq
      && (forall k :: k in s'.rows.log && k !in s.rows.log ==> k == s'.rows.lastSeq)
      && (s'.rows.lastSeq != s.rows.lastSeq ==> s'.rows.lastSeq in s'.rows.log && s'.rows.lastSeq !in s.rows.log)
      && (!step.Commit? ==> s'.rows.log == s.rows.log)
  {
    RunLog.NextSound(s, step);
    RunLog.NextExtends(s, step);
  }

  /** A step of the log that stores nothing leaves the rest sound. */
  lemma OnLogSound(s: State, step: RunLog.Step)
    requires Sound(s) && !step.Commit?
    ensures Sound(OnLog(s, step))
  {
    LogNext(s.log, step);
  }

  lemma OnLeaseSound(s: State, step: Lease.Step)
    requires Sound(s) && (step.Acquire? || step.Renew? || step.Release?)
    ensures Sound(OnLease(s, step)) && Lease.FenceOf(OnLease(s, step).lease.row) >= Lease.FenceOf(s.lease.row)
  {
    Lease.NextSound(s.lease, step);
  }

  lemma UnlockedSound(s: State, how: Lease.Step)
    requires Sound(s) && s.leased.Some? && (how.CommitWrite? || how.AbortWrite?)
    ensures Sound(Unlocked(s, how)) && Unlocked(s, how).lease.row == s.lease.row
  {
    Lease.NextSound(s.lease, how);
  }

  lemma CommitSound(s: State, tid: int)
    requires Sound(s)
    ensures Sound(Next(s, Commit(tid))) && Next(s, Commit(tid)).lease.row == s.lease.row
  {
    var done := OnLog(s, RunLog.Commit(tid));
    var last := done.log.rows.lastSeq;
    LogNext(s.log, RunLog.Commit(tid));
    assert Sound(done);
    if Holding(s, tid) && tid !in done.log.open {
      UnlockedSound(done, Lease.CommitWrite);
      assert s.leased.value.token.fence == Lease.FenceOf(s.lease.row);
      assert forall k :: k in s.origin ==> k < last || last == s.log.rows.lastSeq;
    }
  }

  lemma NextSound(s: State, step: Step)
    requires Sound(s)
    ensures Sound(Next(s, step)) && Lease.FenceOf(Next(s, step).lease.row) >= Lease.FenceOf(s.lease.row)
  {
    match step
    case Acquire(runId, ttl, now) => OnLeaseSound(s, Lease.Acquire(runId, ttl, now));
    case Renew(lease, ttl, now) => OnLeaseSound(s, Lease.Renew(lease, ttl, now));
    case Release(lease, now) => OnLeaseSound(s, Lease.Release(lease, now));
    case BeginLeased(tid, token, write) =>
      OnLogSound(s, RunLog.Begin(tid, write));
      Lease.NextSound(s.lease, Lease.CheckFence(token));
    case BeginFree(tid, write) => OnLogSound(s, RunLog.Begin(tid, write));
    case Commit(tid) => CommitSound(s, tid);
    case Abort(tid) =>
      OnLogSound(s, RunLog.Abort(tid));
      if Holding(s, tid) {
        UnlockedSound(OnLog(s, RunLog.Abort(tid)), Lease.AbortWrite);
      }
    case Claim => OnLogSound(s, RunLog.Claim);
    case RequestCancel => OnLogSound(s, RunLog.RequestCancel);
  }

  /** An event that one step adds under a lease carries the token in force at that step, and the
      events before it keep theirs. */
  lemma NextOrigin(s: State, step: Step)
    requires Sound(s)
    ensures var s' := Next(s, step);
      && RunLog.Extends(s.log.rows, s'.log.rows)
      && (forall k :: k in s.origin ==> k in s'.origin && s'.origin[k] == s.origin[k])
      && (forall k :: k in s'.origin && k !in s.origin ==>
          k !in s.log.rows.log && s'.origin[k] == Lease.FenceOf(s.lease.row))
  {
    match step
    case BeginLeased(tid, token, write) => LogNext(s.log, RunLog.Begin(tid, write));
    case BeginFree(tid, write) => LogNext(s.log, RunLog.Begin(tid, write));
    case Commit(tid) => LogNext(s.log, RunLog.Commit(tid));
    case Abort(tid) => LogNext(s.log, RunLog.Abort(tid));
    case _ =>
  }

  lemma {:induction false} RunOrigin(s: State, steps: seq<Step>)
    requires Sound(s)
    ensures var s' := Run(s, steps);
      && Sound(s') && Lease.FenceOf(s'.lease.row) >= Lease.FenceOf(s.lease.row)
      && RunLog.Extends(s.log.rows, s'.log.rows)
      && (forall k :: k in s.origin ==> k in s'.origin && s'.origin[k] == s.origin[k])
      && (forall k :: k in s'.origin && k !in s.origin ==>
          k !in s.log.rows.log && s'.origin[k] >= Lease.FenceOf(s.lease.row))
    decreases |steps|
  {
    if steps != [] {
      NextSound(s, steps[0]);
      NextOrigin(s, steps[0]);
      RunOrigin(Next(s, steps[0]), steps[1..]);
    }
  }

  /** After a takeover no event of an earlier holder enters the log: whatever is written under a lease
      once token `f` is in force carries `f` or a later one, in every interleaving. */
  lemma NoEventOfEarlierHolder(before: seq<Step>, after: seq<Step>, k: int)
    requires var s := Run(START, before);
      k in Run(s, after).origin && k !in s.log.rows.log
    ensures var s := Run(START, before);
      Run(s, after).origin[k] >= Lease.FenceOf(s.lease.row)
  {
    RunOrigin(START, before);
    RunOrigin(Run(START, before), after);
  }

  /** So the leased events of a log stand in the order of their holders, and the log itself is what
      `RunLog` says of it, leases or not. */
  lemma HoldersInOrder(steps: seq<Step>, j: int, k: int)
    requires var s := Run(START, steps); j in s.origin && k in s.origin && j <= k
    ensures var s := Run(START, steps);
      && s.origin[j] <= s.origin[k] <= Lease.FenceOf(s.lease.row)
      && j in s.log.rows.log && RunLog.WellLogged(s.log.rows)
  {
    RunOrigin(START, steps);
  }
}
