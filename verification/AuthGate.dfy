/**
 The Codex start-up gate and the in-process proof that lets runs skip it:
 agent/codex_refresh_proof.py, `refresh_due` and `_codex_auth_gate`.
 */
module AuthGate {
  import opened Wrappers

  /** A login's `last_refresh` on the UTC clock; None: missing or unreadable. */
  type Stamp = Option<real>

  /** The last proven-good timestamp and the monotonic time it was proven. */
  datatype Proof = Proof(lastRefresh: Stamp, provenAt: Option<real>)

  const NO_PROOF := Proof(None, None)

  /** A gated run made a model call between two readings of the timestamp, or the proof is dropped. */
  datatype Op = Record(before: Stamp, after: Stamp, now: real) | Clear

  predicate Kept(o: Op) {
    o.Record? && o.before.Some? && o.after == o.before
  }

  function Apply(p: Proof, o: Op): Proof {
    if Kept(o) then Proof(o.before, Some(o.now)) else if o.Clear? then NO_PROOF else p
  }

  function ApplyAll(ops: seq<Op>): Proof {
    if ops == [] then NO_PROOF else Apply(ApplyAll(ops[..|ops| - 1]), ops[|ops| - 1])
  }

  /** `maxAge` None: no limit. */
  predicate Covers(p: Proof, last: Stamp, window: real, maxAge: Option<real>, now: real, nowUtc: real) {
    && window > 0.0 && last.Some? && p.provenAt.Some? && last == p.lastRefresh
    && (maxAge.Some? ==> nowUtc - last.value < maxAge.value)
    && now - p.provenAt.value <= window
  }

  class RefreshProof {
    var lastRefresh: Stamp
    var provenAt: Option<real>

    function View(): Proof
      reads this
    {
      Proof(lastRefresh, provenAt)
    }

    constructor ()
      ensures View() == NO_PROOF
    {
      lastRefresh, provenAt := None, None;
    }

    method RecordCall(before: Stamp, after: Stamp, now: real) returns (kept: bool)
      modifies this
      ensures View() == Apply(old(View()), Record(before, after, now)) && kept == Kept(Record(before, after, now))
    {
      if before.None? || after != before {
        return false;
      }
      lastRefresh, provenAt := before, Some(now);
      kept := true;
    }

    method CoversStamp(last: Stamp, window: real, maxAge: Option<real>, now: real, nowUtc: real) returns (b: bool)
      ensures b <==> Covers(View(), last, window, maxAge, now, nowUtc)
    {
      if window <= 0.0 || last.None? || provenAt.None? || last != lastRefresh {
        return false;
      }
      if maxAge.Some? && nowUtc - last.value >= maxAge.value {
        return false;
      }
      b := now - provenAt.value <= window;
    }

    method Drop()
      modifies this
      ensures View() == Apply(old(View()), Clear)
    {
      lastRefresh, provenAt := None, None;
    }
  }

  /** Operation `i` is the proof in force: kept, and neither replaced nor cleared since. */
  ghost predicate InForce(ops: seq<Op>, i: int) {
    && 0 <= i < |ops| && ops[i].Record? && ops[i].before.Some? && ops[i].before == ops[i].after
    && forall k :: i < k < |ops| ==> ops[k].Record? && (ops[k].before.None? || ops[k].before != ops[k].after)
  }

  lemma {:induction false} ProofInForce(ops: seq<Op>)
    ensures ApplyAll(ops).provenAt.Some? ==> exists i :: InForce(ops, i)
    ensures forall i :: InForce(ops, i) ==> ApplyAll(ops) == Proof(ops[i].before, Some(ops[i].now))
  {
    if ops != [] {
      var n := |ops| - 1;
      var rest := ops[..n];
      ProofInForce(rest);
      if Kept(ops[n]) {
        assert InForce(ops, n);
      } else if !ops[n].Clear? {
        assert forall i :: InForce(rest, i) ==> InForce(ops, i);
      }
      forall i | InForce(ops, i)
        ensures ApplyAll(ops) == Proof(ops[i].before, Some(ops[i].now))
      {
        if i < n {
          assert InForce(rest, i);
        }
      }
    }
  }

  /** After any history of recordings and clearings, a timestamp is covered exactly when the latest
      recording in force saw this very timestamp unchanged, at most `window` ago, and it is still
      younger than the maximum age. */
  lemma {:induction false} CoversIff(ops: seq<Op>, last: Stamp, window: real, maxAge: Option<real>, now: real,
        nowUtc: real)
    ensures Covers(ApplyAll(ops), last, window, maxAge, now, nowUtc) <==>
      && window > 0.0 && last.Some? && (maxAge.Some? ==> nowUtc - last.value < maxAge.value)
      && exists i :: InForce(ops, i) && ops[i].before == last && ops[i].after == last && now - ops[i].now <= window
  {
    ProofInForce(ops);
  }

  // ---------------------------------------------------------------- the decision

  datatype Limits = Limits(dueAfter: real, window: real, maxAge: real)

  /** A missing timestamp counts as due; one in the future does not. */
  predicate RefreshDue(last: Stamp, nowUtc: real, after: real) {
    last.None? || nowUtc - last.value >= after
  }

  predicate NeedsGate(p: Proof, last: Stamp, l: Limits, now: real, nowUtc: real) {
    RefreshDue(last, nowUtc, l.dueAfter) && !Covers(p, last, l.window, Some(l.maxAge), now, nowUtc)
  }

  /** A start-up skips the gate if and only if the login's timestamp is readable and is younger than the
      due age, or below the maximum age and proved unchanged by a gated run within the window. */
  lemma {:induction false} UngatedIff(ops: seq<Op>, last: Stamp, l: Limits, now: real, nowUtc: real)
    ensures !NeedsGate(ApplyAll(ops), last, l, now, nowUtc) <==>
      && last.Some?
      && (nowUtc - last.value < l.dueAfter
          || (l.window > 0.0 && nowUtc - last.value < l.maxAge
              && exists i :: InForce(ops, i) && ops[i].before == last && now - ops[i].now <= l.window))
  {
    CoversIff(ops, last, l.window, Some(l.maxAge), now, nowUtc);
  }

  /** One try for the lease: was it free, is the run cancelled, what time is it then. */
  datatype Poll = Poll(free: bool, cancelled: bool, now: real)

  datatype Reply = NotNeeded | Held | Cancelled | Busy | StillWaiting

  /** Taken, not cancelled and still in time: the loop tries again. */
  predicate TriesAgain(p: Poll, deadline: real) {
    !p.free && !p.cancelled && p.now < deadline
  }

  /** Poll `n` is the first one that does not lead to another try. */
  ghost predicate Deciding(polls: seq<Poll>, deadline: real, n: int) {
    && 0 <= n < |polls|
    && (forall k :: 0 <= k < n ==> !polls[k].free && !polls[k].cancelled && polls[k].now < deadline)
    && (polls[n].free || polls[n].cancelled || polls[n].now >= deadline)
  }

  lemma OneDecides(polls: seq<Poll>, deadline: real, m: int)
    requires Deciding(polls, deadline, m)
    ensures forall n :: Deciding(polls, deadline, n) ==> n == m
  {
    forall n | Deciding(polls, deadline, n)
      ensures n == m
    {
      assert !TriesAgain(polls[n], deadline) && !TriesAgain(polls[m], deadline);
    }
  }

  /** The retry loop: the first poll that finds the lease free, the run cancelled or the wait over
      decides, in that order. */
  method TakeGate(needed: bool, polls: seq<Poll>, deadline: real) returns (r: Reply)
    ensures r == NotNeeded <==> !needed
    ensures r == StillWaiting <==> needed && forall n :: 0 <= n < |polls| ==> !Deciding(polls, deadline, n)
    ensures r == Held <==> needed && exists n :: Deciding(polls, deadline, n) && polls[n].free
    ensures r == Cancelled <==>
      needed && exists n :: Deciding(polls, deadline, n) && !polls[n].free && polls[n].cancelled
    ensures r == Busy <==>
      needed && exists n :: Deciding(polls, deadline, n) && !polls[n].free && !polls[n].cancelled
  {
    if !needed {
      return NotNeeded;
    }
    var n := 0;
    while n < |polls|
      invariant 0 <= n <= |polls|
      invariant forall k :: 0 <= k < n ==> TriesAgain(polls[k], deadline)
    {
      var p := polls[n];
      if !TriesAgain(p, deadline) {
        OneDecides(polls, deadline, n);
      }
      if p.free {
        return Held;
      }
      if p.cancelled {
        return Cancelled;
      }
      if p.now >= deadline {
        return Busy;
      }
      n := n + 1;
    }
    r := StillWaiting;
  }
}
