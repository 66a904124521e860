/**
 What a client and a worker meet at the mailbox, told from the steps taken so far: when a call may be
 published, until when a result of it is accepted, what a poll answers.
 */
module HandoffMeaning {
  import opened Wrappers
  import opened ToolHandoff

  /** Where the job is after `steps`: closed for good, claimed and not parked since, or in the queue. */
  predicate IsRunning(steps: seq<Step>, before: bool) {
    if steps == [] then before
    else
      match steps[|steps| - 1]
      case Claimed => true
      case Parked => false
      case _ => IsRunning(steps[..|steps| - 1], before)
  }

  lemma {:induction false} RunLast(j: Job, s: State, steps: seq<Step>)
    requires steps != []
    ensures Run(j, s, steps) == Next(j, Run(j, s, steps[..|steps| - 1]), steps[|steps| - 1])
    decreases |steps|
  {
    if |steps| > 1 {
      RunLast(j, Next(j, s, steps[0]), steps[1..]);
      assert steps[1..][..|steps| - 2] == steps[..|steps| - 1][1..];
    }
  }

  lemma {:induction false} StatusAfter(j: Job, s: State, steps: seq<Step>)
    requires s.box.status != Closed && Terminal !in steps
    ensures Run(j, s, steps).box.status == if IsRunning(steps, s.box.status == Running) then Running else Queued
    decreases |steps|
  {
    if steps != [] {
      RunLast(j, s, steps);
      StatusAfter(j, s, steps[..|steps| - 1]);
    }
  }

  lemma {:induction false} CancelAfter(j: Job, s: State, steps: seq<Step>)
    ensures Run(j, s, steps).box.cancelRequested <==> s.box.cancelRequested || CancelAsked in steps
    decreases |steps|
  {
    if steps != [] {
      CancelAfter(j, Next(j, s, steps[0]), steps[1..]);
    }
  }

  lemma {:induction false} ClosedAfter(j: Job, s: State, steps: seq<Step>)
    ensures Run(j, s, steps).box.status == Closed <==> s.box.status == Closed || Terminal in steps
    decreases |steps|
  {
    if steps != [] {
      ClosedAfter(j, Next(j, s, steps[0]), steps[1..]);
    }
  }

  /** Running: claimed after the last parking, and not closed; cancelled: somebody asked. */
  lemma StatusMeans(j: Job, steps: seq<Step>)
    ensures var b := Run(j, START, steps).box;
      && (b.status == Running <==> IsRunning(steps, false) && Terminal !in steps)
      && (b.cancelRequested <==> CancelAsked in steps)
  {
    ClosedAfter(j, START, steps);
    CancelAfter(j, START, steps);
    if Terminal !in steps {
      StatusAfter(j, START, steps);
    }
  }

  // ---------------------------------------------------------------- publishing

  function Ids(h: seq<Past>): set<string> {
    set p | p in h :: p.id
  }

  lemma {:induction false} DistinctIds(h: seq<Past>)
    requires Distinct(h)
    ensures |Ids(h)| == |h|
    ensures forall id :: id in Ids(h) <==> InHistory(h, id)
  {
    forall id
      ensures id in Ids(h) <==> InHistory(h, id)
    {
      if id in Ids(h) {
        var p :| p in h && p.id == id;
        var i :| 0 <= i < |h| && h[i] == p;
      }
    }
    if h != [] {
      var n := |h| - 1;
      DistinctIds(h[..n]);
      assert h == h[..n] + [h[n]];
      assert Ids(h) == Ids(h[..n]) + {h[n].id};
    }
  }

  lemma PastIsListed(h: seq<Past>, p: Past)
    ensures p in h ==> InHistory(h, p.id)
  {
  }

  /** The history is the takes so far. */
  lemma HistoryIsTaken(j: Job, s: State)
    requires Sound(j, s)
    ensures |s.box.history| == |s.taken|
    ensures forall id :: InHistory(s.box.history, id) <==> id in s.taken
  {
    DistinctIds(s.box.history);
    assert Ids(s.box.history) == s.taken.Keys;
    assert |s.taken| == |s.taken.Keys|;
  }

  /** What every publisher must bring and the job must allow. */
  ghost predicate Publishable(j: Job, b: Box, p: Publication) {
    && 1 <= |p.id| <= 128 && p.argumentBytes <= 65536
    && b.status == Running && j.agent && !b.cancelRequested
  }

  /** The answers to a publisher, at every reachable state. */
  lemma PublishMeans(j: Job, steps: seq<Step>, fencesHold: bool, p: Publication, now: real)
    ensures var s := Run(j, START, steps);
      var (b, r) := Publish(j, s.box, fencesHold, p, now);
      && (r == Published <==>
            && Publishable(j, s.box, p) && fencesHold && p.verdict == Valid
            && s.box.pending.None? && |s.taken| < 16 && p.id !in s.taken)
      && (r == InvalidArguments <==> Publishable(j, s.box, p) && fencesHold && p.verdict == BadArguments)
      && (r == PublishStale <==> 1 <= |p.id| <= 128 && p.argumentBytes <= 65536 && !fencesHold)
      && (r != Published ==> b == s.box)
  {
    RunSound(j, START, steps);
    HistoryIsTaken(j, Run(j, START, steps));
  }

  // ---------------------------------------------------------------- from the publish on

  /** Nothing since the publish withdrew the call or ended the job.  It may have been parked. */
  predicate Undisturbed(since: seq<Step>) {
    DoClear !in since && Terminal !in since && CancelAsked !in since
  }

  /** As long as no result of it was accepted, the call waits as it was published. */
  ghost predicate StillWaits(j: Job, s: State, p: Publication, t: real) {
    p.id !in s.accepted ==> s.box.pending == Some(Call(p.id, p.name, t + j.waitS, Waiting))
  }

  lemma StepKeepsWaiting(j: Job, s: State, step: Step, p: Publication, t: real)
    requires Sound(j, s) && StillWaits(j, s, p, t)
    requires !step.DoClear? && !step.Terminal?
    ensures StillWaits(j, Next(j, s, step), p, t)
  {
    match step
    case DoTake(_, _, _) =>
    case DoSubmit(_, _, _, _) =>
    case _ =>
  }

  lemma {:induction false} RunKeepsWaiting(j: Job, s: State, since: seq<Step>, p: Publication, t: real)
    requires Sound(j, s) && StillWaits(j, s, p, t)
    requires DoClear !in since && Terminal !in since
    ensures StillWaits(j, Run(j, s, since), p, t)
    decreases |since|
  {
    if since != [] {
      NextSound(j, s, since[0]);
      StepKeepsWaiting(j, s, since[0], p, t);
      RunKeepsWaiting(j, Next(j, s, since[0]), since[1..], p, t);
    }
  }

  /** The state after `before`, a publish at `t`, and `since`. */
  function After(j: Job, before: seq<Step>, p: Publication, t: real, since: seq<Step>): State {
    Run(j, Next(j, Run(j, START, before), DoPublish(true, p, t)), since)
  }

  ghost predicate PublishedThen(j: Job, before: seq<Step>, p: Publication, t: real, since: seq<Step>) {
    Publish(j, Run(j, START, before).box, true, p, t).1 == Published && Undisturbed(since) && IsRunning(since, true)
  }

  lemma WaitsAfter(j: Job, before: seq<Step>, p: Publication, t: real, since: seq<Step>)
    requires PublishedThen(j, before, p, t, since)
    ensures var s := After(j, before, p, t, since);
      Sound(j, s) && StillWaits(j, s, p, t) && s.box.status == Running && !s.box.cancelRequested && j.agent
  {
    var s0 := Run(j, START, before);
    var s1 := Next(j, s0, DoPublish(true, p, t));
    RunSound(j, START, before);
    NextSound(j, s0, DoPublish(true, p, t));
    RunSound(j, s1, since);
    RunKeepsWaiting(j, s1, since, p, t);
    StatusAfter(j, s1, since);
    CancelAfter(j, s1, since);
  }

  /** The first result of a published call: who may bring it, until when, and of what kind. */
  lemma AcceptedIff(j: Job, before: seq<Step>, p: Publication, t: real, since: seq<Step>,
                    projectId: int, id: string, a: Answer, now: real)
    requires PublishedThen(j, before, p, t, since) && p.id !in After(j, before, p, t, since).accepted
    ensures var s := After(j, before, p, t, since);
      Submit(j, s.box, projectId, id, a, now).1 == Accepted <==>
        && projectId == j.projectId && id == p.id
        && |a.content| <= 65536
        && now < t + j.waitS
        && (a.terminal ==> a.success && p.name in j.terminalTools)
  {
    WaitsAfter(j, before, p, t, since);
    var s := After(j, before, p, t, since);
    PastIsListed(s.box.history, Past(p.id, DigestOf(a)));
  }

  /** It is recorded as the result of that call and tool, and the next poll of the worker hands it out. */
  lemma AcceptedThenTaken(j: Job, before: seq<Step>, p: Publication, t: real, since: seq<Step>,
                          a: Answer, now: real, later: real)
    requires PublishedThen(j, before, p, t, since) && p.id !in After(j, before, p, t, since).accepted
    requires |a.content| <= 65536 && now < t + j.waitS && (a.terminal ==> a.success && p.name in j.terminalTools)
    ensures var s := After(j, before, p, t, since);
      var s' := Next(j, s, DoSubmit(j.projectId, p.id, a, now));
      var s'' := Next(j, s', DoTake(true, p.id, later));
      && s'.accepted == s.accepted[p.id := Deal(p.name, a)]
      && Take(s'.box, true, p.id, later).1 == Took(a)
      && s''.taken == s.taken[p.id := a] && s''.box.pending.None?
  {
    AcceptedIff(j, before, p, t, since, j.projectId, p.id, a, now);
    WaitsAfter(j, before, p, t, since);
  }

  /** Polls before the first result: not yet, and after the deadline a conflict; a lost lease comes first. */
  lemma PollMeans(j: Job, before: seq<Step>, p: Publication, t: real, since: seq<Step>, fencesHold: bool, now: real)
    requires PublishedThen(j, before, p, t, since) && p.id !in After(j, before, p, t, since).accepted
    ensures var s := After(j, before, p, t, since);
      var (b, r) := Take(s.box, fencesHold, p.id, now);
      && b == s.box
      && (r == TakeStale <==> !fencesHold)
      && (r == NotYet <==> fencesHold && now < t + j.waitS)
      && (r == TakeConflict <==> fencesHold && now >= t + j.waitS)
  {
    WaitsAfter(j, before, p, t, since);
  }

  /** While it waits, nothing else is published. */
  lemma OneAtATime(j: Job, before: seq<Step>, p: Publication, t: real, since: seq<Step>,
                   fencesHold: bool, q: Publication, now: real)
    requires PublishedThen(j, before, p, t, since) && p.id !in After(j, before, p, t, since).accepted
    ensures Publish(j, After(j, before, p, t, since).box, fencesHold, q, now).1 != Published
  {
    WaitsAfter(j, before, p, t, since);
  }

  /** Withdrawing a waiting call: its result comes too late, and the next call may be published. */
  lemma WithdrawnIsClosed(j: Job, before: seq<Step>, p: Publication, t: real, since: seq<Step>,
                          projectId: int, a: Answer, now: real)
    requires PublishedThen(j, before, p, t, since) && p.id !in After(j, before, p, t, since).accepted
    ensures var s := Next(j, After(j, before, p, t, since), DoClear);
      && s.box.pending.None?
      && Submit(j, s.box, projectId, p.id, a, now).1 !in {Accepted, Repeated}
      && Take(s.box, true, p.id, now).1 == TakeConflict
  {
    WaitsAfter(j, before, p, t, since);
    var s := After(j, before, p, t, since);
    PastIsListed(s.box.history, Past(p.id, DigestOf(a)));
  }

  // ---------------------------------------------------------------- the other answers

  /** The answers to a client at every reachable state: too large first, then the project, then the job,
      then whether this very result is already on record. */
  lemma SubmitMeans(j: Job, steps: seq<Step>, projectId: int, id: string, a: Answer, now: real)
    ensures var s := Run(j, START, steps);
      var (b, r) := Submit(j, s.box, projectId, id, a, now);
      && (r == TooLarge <==> |a.content| > 65536)
      && (r == NotFound <==> |a.content| <= 65536 && projectId != j.projectId)
      && (r == Repeated <==>
            && |a.content| <= 65536 && projectId == j.projectId
            && s.box.status == Running && j.agent && !s.box.cancelRequested
            && id in s.accepted && s.accepted[id].answer == a)
      && (r != Accepted ==> b == s.box)
  {
    RunSound(j, START, steps);
    var s := Run(j, START, steps);
    if Past(id, DigestOf(a)) in s.box.history {
      var i :| 0 <= i < |s.box.history| && s.box.history[i] == Past(id, DigestOf(a));
      assert s.box.history[i].digest == DigestOf(s.accepted[id].answer);
    } else if id in s.accepted && s.box.status == Running {
      assert Kept(s, id);
    }
  }

  /** The answers to a worker: the lease, the job, the cancellation, then the result of this very call. */
  lemma TakeMeans(j: Job, steps: seq<Step>, fencesHold: bool, id: string, now: real)
    ensures var s := Run(j, START, steps);
      var r := Take(s.box, fencesHold, id, now).1;
      && (r == TakeStale <==> !fencesHold)
      && (r == TakeCancelled <==> fencesHold && s.box.status == Running && s.box.cancelRequested)
      && (r.Took? <==>
            && fencesHold && s.box.status == Running && !s.box.cancelRequested
            && id in s.accepted && id !in s.taken)
  {
    RunSound(j, START, steps);
    var s := Run(j, START, steps);
    if s.box.status == Running && id in s.accepted && id !in s.taken {
      assert Kept(s, id);
      PastIsListed(s.box.history, Past(id, DigestOf(s.accepted[id].answer)));
    }
  }
}
