/**
 Why attempts end: quota waits and requeues of one run over time (agent/executor.py
 `_wait_for_quota`, `_execute_with_session`, `_held_drive`; the claim rule of agent/worker.py).
 */
module QuotaWait {
  import opened Wrappers

  const RESET_SLACK_S := 5.0

  /** A run's own dates and the worker's settings. */
  datatype Terms = Terms(createdAt: real, deadlineS: real, base: real, cap: real, busyDelay: real, busyMax: nat)

  /** The settings the worker ships with. */
  predicate Shipped(t: Terms) {
    t.base == 60.0 && t.cap == 1800.0 && t.busyDelay == 5.0 && t.busyMax == 60
  }

  function Pow2(n: nat): (p: real)
    ensures p >= 1.0
  {
    if n == 0 then 1.0 else 2.0 * Pow2(n - 1)
  }

  function Min(a: real, b: real): real {
    if a < b then a else b
  }

  /** Until the reported reset and a little longer, else exponential backoff. */
  function Delay(t: Terms, reset: Option<real>, now: real, waits: nat): real {
    if reset.Some? then (if reset.value > now then reset.value - now else 0.0) + RESET_SLACK_S
    else Min(t.base * Pow2(waits), t.cap)
  }

  /** The shortest wait these settings allow: five seconds as shipped. */
  function Gap(t: Terms): real {
    Min(RESET_SLACK_S, Min(t.base, t.cap))
  }

  datatype Phase = Pending(runAfter: Option<real>) | Running | Closed

  /** One run: how often it was claimed, parked and requeued, and the time of its last step. */
  datatype Life = Life(phase: Phase, clock: real, claims: nat, parks: nat, requeues: nat)

  datatype Step =
    | Claim(now: real)
    | QuotaHit(now: real, reset: Option<real>)
    | Busy(now: real)                    // session or auth gate taken
    | Finish(now: real)                  // any terminal event, by whomever

  /** What `_wait_for_quota` does: park until `not_before`, or fail past the deadline. */
  function Waited(t: Terms, l: Life, now: real, reset: Option<real>): Life {
    var notBefore := now + Delay(t, reset, now, l.parks);
    if notBefore >= t.createdAt + t.deadlineS then l.(phase := Closed, clock := now)
    else l.(phase := Pending(Some(notBefore)), clock := now, parks := l.parks + 1)
  }

  /** `requeue_run`, and the failure once the cap is passed. */
  function Requeued(t: Terms, l: Life, now: real): Life {
    var l' := l.(clock := now, requeues := l.requeues + 1);
    if l'.requeues > t.busyMax then l'.(phase := Closed) else l'.(phase := Pending(Some(now + t.busyDelay)))
  }

  /** Steps out of order, or back in time, change nothing. */
  function Next(t: Terms, l: Life, step: Step): Life {
    if step.now < l.clock || l.phase.Closed? then l
    else
      match step
      case Claim(now) =>
        if l.phase.Pending? && (l.phase.runAfter.None? || l.phase.runAfter.value < now)
        then l.(phase := Running, clock := now, claims := l.claims + 1) else l
      case QuotaHit(now, reset) => if l.phase.Running? then Waited(t, l, now, reset) else l
      case Busy(now) => if l.phase.Running? then Requeued(t, l, now) else l
      case Finish(now) => l.(phase := Closed, clock := now)
  }

  function Run(t: Terms, l: Life, steps: seq<Step>): Life
    decreases |steps|
  {
    if steps == [] then l else Run(t, Next(t, l, steps[0]), steps[1..])
  }

  function Born(t: Terms): Life {
    Life(Pending(None), t.createdAt, 0, 0, 0)
  }

  lemma DelayAtLeastGap(t: Terms, reset: Option<real>, now: real, waits: nat)
    requires t.base >= 0.0
    ensures Delay(t, reset, now, waits) >= Gap(t)
  {
    assert t.base * (Pow2(waits) - 1.0) >= 0.0;
  }

  function Horizon(t: Terms, parks: nat): real {
    t.createdAt + Gap(t) * parks as real
  }

  lemma HorizonStep(t: Terms, parks: nat)
    ensures Horizon(t, parks + 1) == Horizon(t, parks) + Gap(t)
  {
    assert (parks + 1) as real == parks as real + 1.0;
  }

  /** Each wait pushes the next claim on by at least one gap and stays inside the deadline. */
  ghost predicate Bounded(t: Terms, l: Life) {
    && (l.parks > 0 ==> Horizon(t, l.parks) < t.createdAt + t.deadlineS)
    && (l.phase.Running? ==> l.clock >= Horizon(t, l.parks))
    && (l.phase.Pending? ==>
          || l.clock >= Horizon(t, l.parks)
          || (l.phase.runAfter.Some? && l.phase.runAfter.value >= Horizon(t, l.parks)))
    && l.requeues <= (if l.phase.Closed? then t.busyMax + 1 else t.busyMax)
    && (l.phase.Pending? ==> l.claims == l.parks + l.requeues)
    && (l.phase.Running? ==> l.claims == l.parks + l.requeues + 1)
    && l.parks + l.requeues <= l.claims <= l.parks + l.requeues + 1
    && l.claims <= l.parks + t.busyMax + 1
  }

  lemma NextBounded(t: Terms, l: Life, step: Step)
    requires t.base >= 0.0
    requires Bounded(t, l)
    ensures Bounded(t, Next(t, l, step))
  {
    if step.QuotaHit? {
      DelayAtLeastGap(t, step.reset, step.now, l.parks);
      HorizonStep(t, l.parks);
    }
  }

  lemma {:induction false} RunBounded(t: Terms, l: Life, steps: seq<Step>)
    requires t.base >= 0.0
    requires Bounded(t, l)
    ensures Bounded(t, Run(t, l, steps))
    decreases |steps|
  {
    if steps != [] {
      NextBounded(t, l, steps[0]);
      RunBounded(t, Next(t, l, steps[0]), steps[1..]);
    }
  }

  /** Whatever happens to a run, in any order and at any pace: quota waits fit the deadline a gap
      apart, requeues stop one past the cap, and so the claims are bounded. As shipped that is fewer
      than deadline/5 waits and at most 61 claims more. */
  lemma AttemptsAreBounded(t: Terms, steps: seq<Step>)
    requires t.base >= 0.0
    ensures var l := Run(t, Born(t), steps);
      && (l.parks > 0 ==> l.parks as real * Gap(t) < t.deadlineS)
      && l.requeues <= t.busyMax + 1
      && l.claims <= l.parks + t.busyMax + 1
    ensures var l := Run(t, Born(t), steps);
      Shipped(t) ==> (l.parks > 0 ==> l.parks as real < t.deadlineS / 5.0) && l.claims <= l.parks + 61
  {
    assert Horizon(t, 0) == t.createdAt;
    RunBounded(t, Born(t), steps);
  }

  /** A wait ends before the deadline, at least a gap from now and after the reported reset; the
      run fails instead only when the wait would reach the deadline. */
  lemma ParkIsWithinDeadline(t: Terms, l: Life, now: real, reset: Option<real>)
    requires t.base >= 0.0
    ensures var l' := Waited(t, l, now, reset);
      if l'.phase.Closed? then now + Delay(t, reset, now, l.parks) >= t.createdAt + t.deadlineS
      else
        && l'.phase.Pending? && l'.phase.runAfter.Some?
        && now + Gap(t) <= l'.phase.runAfter.value < t.createdAt + t.deadlineS
        && (reset.Some? ==> l'.phase.runAfter.value >= reset.value + 5.0)
  {
    DelayAtLeastGap(t, reset, now, l.parks);
  }

  /** How long a run waits: five seconds past a reported reset, five seconds from now when that is over,
      and without one twice as long as the last time, from the base up to the cap. */
  lemma DelayMeans(t: Terms, now: real, waits: nat)
    requires t.base >= 0.0
    ensures forall reset :: now + Delay(t, Some(reset), now, waits) == (if reset > now then reset else now) + 5.0
    ensures Delay(t, None, now, 0) == if t.base < t.cap then t.base else t.cap
    ensures var d := Delay(t, None, now, waits);
      && (d >= t.cap ==> Delay(t, None, now, waits + 1) == t.cap || t.cap < 0.0)
      && (d < t.cap ==> Delay(t, None, now, waits + 1) == if 2.0 * d < t.cap then 2.0 * d else t.cap)
  {
    assert Pow2(waits + 1) == 2.0 * Pow2(waits);
    assert t.base * Pow2(waits + 1) == 2.0 * (t.base * Pow2(waits));
  }

  /** A quota hit of a running run: back to the queue until the wait is over, or closed when that would
      reach the deadline; a busy session: back for a while, or closed once past the cap; and nobody
      claims a run before its time. */
  lemma StepsMean(t: Terms, l: Life, now: real, reset: Option<real>)
    requires now >= l.clock
    ensures l.phase.Running? ==>
      var due := now + Delay(t, reset, now, l.parks);
      Next(t, l, QuotaHit(now, reset)) ==
      if due < t.createdAt + t.deadlineS
      then Life(Pending(Some(due)), now, l.claims, l.parks + 1, l.requeues)
      else Life(Closed, now, l.claims, l.parks, l.requeues)
    ensures l.phase.Running? ==>
      Next(t, l, Busy(now)) ==
      Life(if l.requeues < t.busyMax then Pending(Some(now + t.busyDelay)) else Closed,
           now, l.claims, l.parks, l.requeues + 1)
    ensures Next(t, l, Claim(now)).claims > l.claims <==>
      l.phase == Pending(None) || (l.phase.Pending? && l.phase.runAfter.Some? && l.phase.runAfter.value < now)
  {
  }
}
