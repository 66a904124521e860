/**
 What the rows of a run say, told from the steps taken so far: which event a commit stores, what
 outcome and queue status it leaves, and when a run waits for its next claim.
 */
module RunStatus {
  import opened Wrappers
  import opened RunLog

  lemma {:induction false} RunLast(s: State, steps: seq<Step>)
    requires steps != []
    ensures Run(s, steps) == Next(Run(s, steps[..|steps| - 1]), steps[|steps| - 1])
    decreases |steps|
  {
    if |steps| > 1 {
      RunLast(Next(s, steps[0]), steps[1..]);
      assert steps[1..][..|steps| - 2] == steps[..|steps| - 1][1..];
    }
  }

  /** The rows after the first `n` steps. */
  function RowsAt(steps: seq<Step>, n: nat): Rows
    requires n <= |steps|
  {
    Run(START, steps[..n]).rows
  }

  /** Step `n` stores an event, which is then the last one of the log. */
  ghost predicate StoresAt(steps: seq<Step>, n: nat)
    requires n < |steps|
  {
    steps[n].Commit? && RowsAt(steps, n + 1).lastSeq > RowsAt(steps, n).lastSeq
  }

  // ---------------------------------------------------------------- one commit

  /** A commit stores its event if and only if nobody stored one since its read. */
  lemma StoredIff(steps: seq<Step>, tid: int)
    requires var s := Run(START, steps);
      tid in s.open && !s.open[tid].write.Requeue? && !Waits(s, tid)
    ensures var s, s' := Run(START, steps), Next(Run(START, steps), Commit(tid));
      && (s'.rows.lastSeq > s.rows.lastSeq <==> s.open[tid].readSeq == s.rows.lastSeq)
      && (s'.rows.lastSeq > s.rows.lastSeq ==> s'.rows.lastSeq == s.rows.lastSeq + 1)
      && (s'.rows.lastSeq <= s.rows.lastSeq ==> s'.rows == s.rows)
  {
    RunSound(START, steps);
  }

  /** The event a commit leaves last in the log. */
  function LastEvent(r: Rows): Event
    requires r.lastSeq in r.log
  {
    r.log[r.lastSeq]
  }

  /** What an append stores: the event it brings, but `run.failed` for a completion whose text breaks
      the declared format; and what becomes of the run. */
  lemma AppendMeans(steps: seq<Step>, tid: int)
    requires var s := Run(START, steps);
      && tid in s.open && s.open[tid].write.Append?
      && Next(s, Commit(tid)).rows.lastSeq > s.rows.lastSeq
    ensures var s := Run(START, steps);
      var w, r, r' := s.open[tid].write, s.rows, Next(s, Commit(tid)).rows;
      && r'.lastSeq in r'.log
      && LastEvent(r') == (if w.event == RunCompleted && w.invalidOutput then RunFailed else w.event)
      && (LastEvent(r') == RunCompleted ==> r'.outcome == Some(Completed) && r'.status == Done)
      && (LastEvent(r') == RunFailed ==> r'.outcome == Some(Failed) && r'.status == Error)
      && (LastEvent(r') == RunCancelled ==> r'.outcome == Some(Cancelled) && r'.status == Withdrawn)
      && (LastEvent(r') == RunTimedOut ==> r'.outcome == Some(TimedOut) && r'.status == Error)
      && (LastEvent(r') in {RunStarted, BillingAttested} || LastEvent(r').AdapterEvent? ==>
            r'.outcome == None && r'.status == r.status)
      && r'.quotaWaits == r.quotaWaits && r'.retryCount == r.retryCount
  {
    RunSound(START, steps);
  }

  /** What a quota wait and a requeue leave. */
  lemma ParkMeans(steps: seq<Step>, tid: int)
    requires var s := Run(START, steps);
      && tid in s.open && s.open[tid].write.Park?
      && Next(s, Commit(tid)).rows.lastSeq > s.rows.lastSeq
    ensures var r, r' := Run(START, steps).rows, Next(Run(START, steps), Commit(tid)).rows;
      && r'.lastSeq in r'.log && LastEvent(r') == RunWaitingQuota
      && r'.status == Pending && r'.outcome == None
      && r'.quotaWaits == r.quotaWaits + 1 && r'.retryCount == r.retryCount
  {
    RunSound(START, steps);
  }

  lemma RequeueMeans(steps: seq<Step>, tid: int)
    requires var s := Run(START, steps);
      tid in s.open && s.open[tid].write.Requeue? && !Waits(s, tid)
    ensures var s := Run(START, steps);
      var r, r' := s.rows, Next(s, Commit(tid)).rows;
      && r'.status == Pending && r'.retryCount == s.open[tid].retries + 1
      && r'.log == r.log && r'.lastSeq == r.lastSeq && r'.outcome == r.outcome && r'.quotaWaits == r.quotaWaits
  {
  }

  // ---------------------------------------------------------------- waiting for the next claim

  /** A step that takes the run out of the queue. */
  predicate Claims(s: State, step: Step) {
    step == Claim && s.rows.status == Pending && s.queueLock.None?
  }

  /** A step that commits a quota wait that enters the log, or a requeue. */
  predicate PutsBack(s: State, step: Step) {
    && step.Commit? && step.tid in s.open && !Waits(s, step.tid)
    && var t := s.open[step.tid];
      t.write.Requeue? || (t.write.Park? && t.readSeq == s.rows.lastSeq)
  }

  ghost predicate ClaimsAt(steps: seq<Step>, n: nat)
    requires n < |steps|
  {
    Claims(Run(START, steps[..n]), steps[n])
  }

  ghost predicate PutsBackAt(steps: seq<Step>, n: nat)
    requires n < |steps|
  {
    PutsBack(Run(START, steps[..n]), steps[n])
  }

  /** What one step makes of the queue status of a run that is unfinished after it. */
  lemma StatusStep(s: State, step: Step)
    requires Sound(s) && Next(s, step).rows.outcome.None?
    ensures s.rows.outcome.None?
    ensures Next(s, step).rows.status
      == if Claims(s, step) then Running else if PutsBack(s, step) then Pending else s.rows.status
  {
  }

  /** Claimed, and not put back since. */
  ghost predicate ClaimedNow(steps: seq<Step>) {
    exists n :: 0 <= n < |steps| && ClaimsAt(steps, n) && forall m :: n < m < |steps| ==> !PutsBackAt(steps, m)
  }

  lemma PrefixOfPrefix(steps: seq<Step>, n: nat, m: nat)
    requires n <= m <= |steps|
    ensures steps[..m][..n] == steps[..n]
  {
  }

  lemma ClaimedStep(steps: seq<Step>)
    requires steps != []
    ensures var n := |steps| - 1;
      ClaimedNow(steps) <==> ClaimsAt(steps, n) || (ClaimedNow(steps[..n]) && !PutsBackAt(steps, n))
  {
    var last := |steps| - 1;
    forall n | 0 <= n < last
      ensures ClaimsAt(steps, n) <==> ClaimsAt(steps[..last], n)
      ensures PutsBackAt(steps, n) <==> PutsBackAt(steps[..last], n)
    {
      PrefixOfPrefix(steps, n, last);
    }
    if ClaimedNow(steps[..last]) && !PutsBackAt(steps, last) {
      var n :| 0 <= n < last && ClaimsAt(steps[..last], n)
               && forall m :: n < m < last ==> !PutsBackAt(steps[..last], m);
      assert ClaimsAt(steps, n);
    }
  }

  /** An unfinished run is running if and only if a claim took it and no quota wait or requeue put it
      back since; otherwise it is pending. */
  lemma {:induction false} RunningIff(steps: seq<Step>)
    requires Run(START, steps).rows.outcome.None?
    ensures Run(START, steps).rows.status == if ClaimedNow(steps) then Running else Pending
    decreases |steps|
  {
    if steps != [] {
      var n := |steps| - 1;
      var s := Run(START, steps[..n]);
      RunLast(START, steps);
      RunSound(START, steps[..n]);
      StatusStep(s, steps[n]);
      RunningIff(steps[..n]);
      ClaimedStep(steps);
    }
  }

  /** What one step makes of a last event `run.waiting_quota`: stored just now, or kept. */
  lemma WaitStep(s: State, step: Step)
    requires Sound(s)
    requires var r := Next(s, step).rows; r.lastSeq in r.log && LastEvent(r) == RunWaitingQuota
    ensures var r, r' := s.rows, Next(s, step).rows;
      if r'.lastSeq > r.lastSeq then step.Commit? && r'.status == Pending
      else
        && r'.lastSeq == r.lastSeq && r.lastSeq in r.log && LastEvent(r) == RunWaitingQuota
        && (step != Claim && r.status == Pending ==> r'.status == Pending)
  {
  }

  lemma SuffixGrows<T>(s: seq<T>, n: nat)
    requires n < |s|
    ensures s[n..] == s[..|s| - 1][n..] + [s[|s| - 1]]
  {
  }

  /** The commit that stored the last event, with what happened to the queue since. */
  lemma {:induction false} LastStored(steps: seq<Step>) returns (n: nat)
    requires var r := Run(START, steps).rows; r.lastSeq in r.log && LastEvent(r) == RunWaitingQuota
    ensures n < |steps| && StoresAt(steps, n) && RowsAt(steps, n + 1).lastSeq == Run(START, steps).rows.lastSeq
    ensures Claim !in steps[n + 1..] ==> Run(START, steps).rows.status == Pending
    decreases |steps|
  {
    var last := |steps| - 1;
    RunLast(START, steps);
    var s := Run(START, steps[..last]);
    RunSound(START, steps[..last]);
    WaitStep(s, steps[last]);
    assert steps[..last + 1] == steps;
    if Next(s, steps[last]).rows.lastSeq > s.rows.lastSeq {
      n := last;
    } else {
      n := LastStored(steps[..last]);
      PrefixOfPrefix(steps, n, last);
      PrefixOfPrefix(steps, n + 1, last);
      SuffixGrows(steps, n + 1);
    }
  }

  /** A parked run resumes: while `run.waiting_quota` is the last event and nobody claimed the run since
      it was stored, the run is pending, and a claim that meets no lock takes it. */
  lemma ParkedWaitsForItsClaim(steps: seq<Step>)
    requires var r := Run(START, steps).rows;
      && r.lastSeq in r.log && LastEvent(r) == RunWaitingQuota
      && forall n :: 0 <= n < |steps| && StoresAt(steps, n) && RowsAt(steps, n + 1).lastSeq == r.lastSeq ==>
        Claim !in steps[n + 1..]
    ensures var s := Run(START, steps);
      && s.rows.status == Pending && s.rows.outcome.None?
      && (s.queueLock.None? ==> Next(s, Claim).rows.status == Running)
  {
    RunSound(START, steps);
    var n := LastStored(steps);
  }

  // ---------------------------------------------------------------- the cancel flag

  /** Cancellation is requested once somebody asked for it while the run was out of the queue and
      unfinished, and stays so. */
  lemma {:induction false} CancelRequestedIff(steps: seq<Step>)
    ensures Run(START, steps).rows.cancelRequested <==>
      exists n :: 0 <= n < |steps| && steps[n] == RequestCancel
        && RowsAt(steps, n).outcome.None? && RowsAt(steps, n).status != Pending
    decreases |steps|
  {
    if steps != [] {
      var last := |steps| - 1;
      RunLast(START, steps);
      CancelRequestedIff(steps[..last]);
      forall n | 0 <= n < last
        ensures RowsAt(steps, n) == RowsAt(steps[..last], n)
      {
        PrefixOfPrefix(steps, n, last);
      }
      CancelStays(Run(START, steps[..last]), steps[last]);
      assert RowsAt(steps, last) == Run(START, steps[..last]).rows;
    }
  }

  lemma CancelStays(s: State, step: Step)
    ensures Next(s, step).rows.cancelRequested <==>
      s.rows.cancelRequested || (step == RequestCancel && s.rows.outcome.None? && s.rows.status != Pending)
  {
  }
}
