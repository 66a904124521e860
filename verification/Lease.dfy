/**
 The fenced lease on one (account, session) row: agent/lock.py.

 Every operation is one atomic statement on the row.  A fenced write is a transaction: it locks the
 row, compares its token, and keeps the lock until it commits, so a takeover waits for it.
 */
module Lease {
  import opened Wrappers

  const RELEASED_S := 86400.0

  datatype Row = Row(runId: int, until: real, fence: nat)

  /** A held lease: who holds it, and the fence token of the acquisition. */
  datatype Token = Token(runId: int, fence: nat)

  /** `check_fence`: same run and same token. */
  predicate Holds(row: Option<Row>, t: Token) {
    row.Some? && row.value.runId == t.runId && row.value.fence == t.fence
  }

  predicate Free(row: Option<Row>, now: real) {
    row.None? || row.value.until < now
  }

  function FenceOf(row: Option<Row>): nat {
    if row.None? then 0 else row.value.fence
  }

  /** INSERT ... ON CONFLICT DO UPDATE ... WHERE lease_until < now */
  function Acquired(row: Option<Row>, runId: int, ttl: real, now: real): Option<Row> {
    if Free(row, now) then Some(Row(runId, now + ttl, FenceOf(row) + 1)) else row
  }

  function Renewed(row: Option<Row>, t: Token, ttl: real, now: real): Option<Row> {
    if Holds(row, t) then Some(row.value.(until := now + ttl)) else row
  }

  /** Expired in place, never deleted: the fence counter survives. */
  function Released(row: Option<Row>, t: Token, now: real): Option<Row> {
    if Holds(row, t) then Some(row.value.(until := now - RELEASED_S)) else row
  }

  class LeaseRow {
    var row: Option<Row>

    constructor ()
      ensures row == None
    {
      row := None;
    }

    method AcquireLease(runId: int, ttl: real, now: real) returns (lease: Option<Token>)
      modifies this
      ensures row == Acquired(old(row), runId, ttl, now)
      ensures lease == if Free(old(row), now) then Some(Token(runId, FenceOf(old(row)) + 1)) else None
      ensures lease.Some? ==> Holds(row, lease.value)
    {
      match row {
        case None =>
          row := Some(Row(runId, now + ttl, 1));
        case Some(r) =>
          if r.until < now {
            row := Some(Row(runId, now + ttl, r.fence + 1));
          } else {
            return None;
          }
      }
      lease := Some(Token(runId, row.value.fence));
    }

    method RenewLease(lease: Token, ttl: real, now: real) returns (ok: bool)
      modifies this
      ensures row == Renewed(old(row), lease, ttl, now)
      ensures ok <==> Holds(old(row), lease)
    {
      ok := Holds(row, lease);
      if ok {
        row := Some(row.value.(until := now + ttl));
      }
    }

    method ReleaseLease(lease: Token, now: real)
      modifies this
      ensures row == Released(old(row), lease, now)
    {
      if Holds(row, lease) {
        row := Some(row.value.(until := now - RELEASED_S));
      }
    }
  }

  // ---------------------------------------------------------------- any number of workers

  datatype Entry = Took(fence: nat) | Wrote(fence: nat)

  /** `writer` is the open fenced transaction: it holds the row's lock. */
  datatype State = State(row: Option<Row>, writer: Option<Token>, log: seq<Entry>)

  datatype Step =
    | Acquire(runId: int, ttl: real, now: real)
    | Renew(lease: Token, ttl: real, now: real)
    | Release(lease: Token, now: real)
    | CheckFence(lease: Token)
    | CommitWrite
    | AbortWrite

  const START := State(None, None, [])

  function Next(s: State, step: Step): State {
    if s.writer.Some? then
      // every other statement on the row waits for the lock
      match step
      case CommitWrite => State(s.row, None, s.log + [Wrote(s.writer.value.fence)])
      case AbortWrite => s.(writer := None)
      case _ => s
    else
      match step
      case Acquire(runId, ttl, now) =>
        State(Acquired(s.row, runId, ttl, now), None,
              if Free(s.row, now) then s.log + [Took(FenceOf(s.row) + 1)] else s.log)
      case Renew(lease, ttl, now) => s.(row := Renewed(s.row, lease, ttl, now))
      case Release(lease, now) => s.(row := Released(s.row, lease, now))
      case CheckFence(lease) => if Holds(s.row, lease) then s.(writer := Some(lease)) else s
      case _ => s
  }

  function Run(s: State, steps: seq<Step>): State
    decreases |steps|
  {
    if steps == [] then s else Run(Next(s, steps[0]), steps[1..])
  }

  /** Acquisitions so far. */
  function Taken(log: seq<Entry>): nat {
    if log == [] then 0
    else Taken(log[..|log| - 1]) + (if log[|log| - 1].Took? then 1 else 0)
  }

  /** Every entry carries the number of acquisitions made up to and including it. */
  ghost predicate Fenced(log: seq<Entry>) {
    forall i :: 0 <= i < |log| ==> log[i].fence > 0 && log[i].fence == Taken(log[..i + 1])
  }

  ghost predicate Sound(s: State) {
    && Fenced(s.log)
    && FenceOf(s.row) == Taken(s.log)
    && (s.writer.Some? ==> Holds(s.row, s.writer.value))
    && (s.row.Some? ==> s.row.value.fence > 0)
  }

  lemma FencedGrows(log: seq<Entry>, e: Entry)
    requires Fenced(log) && e.fence > 0 && e.fence == Taken(log) + (if e.Took? then 1 else 0)
    ensures Fenced(log + [e]) && Taken(log + [e]) == e.fence
  {
    var log' := log + [e];
    assert log'[..|log' | - 1] == log;
    assert log'[..|log'|] == log';
    forall i | 0 <= i < |log'|
      ensures log'[i].fence > 0 && log'[i].fence == Taken(log'[..i + 1])
    {
      if i < |log| {
        assert log'[..i + 1] == log[..i + 1];
      }
    }
  }

  lemma NextSound(s: State, step: Step)
    requires Sound(s)
    ensures Sound(Next(s, step))
    ensures FenceOf(Next(s, step).row) >= FenceOf(s.row)
  {
    var s' := Next(s, step);
    if s'.log != s.log {
      if step.CommitWrite? {
        FencedGrows(s.log, Wrote(s.writer.value.fence));
      } else {
        FencedGrows(s.log, Took(FenceOf(s.row) + 1));
      }
    }
  }

  lemma {:induction false} RunSound(s: State, steps: seq<Step>)
    requires Sound(s)
    ensures Sound(Run(s, steps))
    ensures FenceOf(Run(s, steps).row) >= FenceOf(s.row)
    decreases |steps|
  {
    if steps != [] {
      NextSound(s, steps[0]);
      RunSound(Next(s, steps[0]), steps[1..]);
    }
  }

  lemma {:induction false} TakenGrows(log: seq<Entry>, i: nat, j: nat)
    requires i <= j <= |log|
    ensures Taken(log[..i]) <= Taken(log[..j])
    decreases j - i
  {
    if i < j {
      assert log[..j][..j - 1] == log[..j - 1];
      TakenGrows(log, i, j - 1);
    }
  }

  lemma FencedOrder(log: seq<Entry>, i: nat, j: nat)
    requires Fenced(log) && i < j < |log| && log[i].Took?
    ensures log[j].Took? ==> log[i].fence < log[j].fence
    ensures log[j].Wrote? ==> log[i].fence <= log[j].fence
  {
    TakenGrows(log, i + 1, j);
    assert log[..j + 1][..j] == log[..j];
  }

  /** For every interleaving: tokens are handed out strictly upwards, the row's fence is the last
      one handed out, and after a token was handed out no write carrying an earlier one commits. */
  lemma FenceTheorem(steps: seq<Step>, i: nat, j: nat)
    requires i < j < |Run(START, steps).log|
    requires Run(START, steps).log[i].Took?
    ensures var log := Run(START, steps).log;
      && (log[j].Took? ==> log[i].fence < log[j].fence)
      && (log[j].Wrote? ==> log[i].fence <= log[j].fence)
    ensures FenceOf(Run(START, steps).row) == Taken(Run(START, steps).log)
  {
    RunSound(START, steps);
    FencedOrder(Run(START, steps).log, i, j);
  }

  /** Index of the latest acquisition before `j`, or -1. */
  function LastTook(log: seq<Entry>, j: nat): (i: int)
    requires j <= |log|
    ensures -1 <= i < j
    ensures i >= 0 ==> log[i].Took?
    ensures forall k :: i < k < j ==> log[k].Wrote?
  {
    if j == 0 then -1 else if log[j - 1].Took? then j - 1 else LastTook(log, j - 1)
  }

  lemma {:induction false} TakenIsLast(log: seq<Entry>, j: nat)
    requires j <= |log| && Fenced(log)
    ensures var i := LastTook(log, j);
      Taken(log[..j]) == if i < 0 then 0 else log[i].fence
  {
    if j > 0 {
      assert log[..j][..j - 1] == log[..j - 1];
      TakenIsLast(log, j - 1);
    }
  }

  lemma FencedWrite(log: seq<Entry>, j: nat)
    requires Fenced(log) && j < |log| && log[j].Wrote?
    ensures 0 <= LastTook(log, j) && log[LastTook(log, j)] == Took(log[j].fence)
  {
    TakenIsLast(log, j);
    assert log[..j + 1][..j] == log[..j];
  }

  /** A committed write carries the token of the acquisition in force: some worker was handed that
      very token, and nobody was handed another one before the commit. */
  lemma WriteIsCurrent(steps: seq<Step>, j: nat)
    requires j < |Run(START, steps).log| && Run(START, steps).log[j].Wrote?
    ensures var log := Run(START, steps).log;
      exists i :: 0 <= i < j && log[i] == Took(log[j].fence) && forall k :: i < k < j ==> log[k].Wrote?
  {
    RunSound(START, steps);
    FencedWrite(Run(START, steps).log, j);
  }

  // ---------------------------------------------------------------- until when a session is held

  /** The row as the acquisition of `t` left it, until `until`. */
  predicate HeldUntil(s: State, t: Token, until: real) {
    s.row == Some(Row(t.runId, until, t.fence))
  }

  /** Steps that come too early to take the session over, and none that prolongs or frees it. */
  predicate Idle(steps: seq<Step>, until: real) {
    forall i :: 0 <= i < |steps| ==>
      !steps[i].Renew? && !steps[i].Release? && (steps[i].Acquire? ==> steps[i].now <= until)
  }

  lemma {:induction false} IdleKeeps(s: State, steps: seq<Step>, t: Token, until: real)
    requires HeldUntil(s, t, until) && Idle(steps, until)
    ensures HeldUntil(Run(s, steps), t, until)
    decreases |steps|
  {
    if steps != [] {
      IdleKeeps(Next(s, steps[0]), steps[1..], t, until);
    }
  }

  /** Who asks for a held session gets it exactly when its time is over, with the next token. */
  lemma TakeoverIff(s: State, t: Token, until: real, idle: seq<Step>, runId: int, ttl: real, now: real)
    requires HeldUntil(s, t, until) && Idle(idle, until) && Run(s, idle).writer.None?
    ensures var s1 := Run(s, idle);
      var s2 := Next(s1, Acquire(runId, ttl, now));
      && (now > until ==>
            s2.log == s1.log + [Took(t.fence + 1)] && HeldUntil(s2, Token(runId, t.fence + 1), now + ttl))
      && (now <= until ==> s2 == s1)
  {
    IdleKeeps(s, idle, t, until);
  }

  /** An acquisition holds the session for its time to live, a renewal for another one from then on, and
      nobody but the holder can prolong or free it. */
  lemma HolderMeans(s: State, t: Token, until: real, other: Token, ttl: real, now: real)
    requires HeldUntil(s, t, until) && s.writer.None?
    ensures HeldUntil(Next(s, Renew(t, ttl, now)), t, now + ttl)
    ensures other != t ==> Next(s, Renew(other, ttl, now)) == s && Next(s, Release(other, now)) == s
    ensures Next(s, CheckFence(other)).writer == if other == t then Some(t) else None
  {
  }

  /** A session its holder released is free from then on: the next one to ask gets it, with the next
      token. */
  lemma ReleasedIsFree(s: State, t: Token, until: real, now: real, idle: seq<Step>,
                       runId: int, ttl: real, later: real)
    requires HeldUntil(s, t, until) && s.writer.None? && later >= now
    requires forall i :: 0 <= i < |idle| ==> !idle[i].Renew? && !idle[i].Release? && !idle[i].Acquire?
    requires Run(Next(s, Release(t, now)), idle).writer.None?
    ensures var s1 := Run(Next(s, Release(t, now)), idle);
      var s2 := Next(s1, Acquire(runId, ttl, later));
      s2.log == s1.log + [Took(t.fence + 1)] && HeldUntil(s2, Token(runId, t.fence + 1), later + ttl)
  {
    TakeoverIff(Next(s, Release(t, now)), t, now - RELEASED_S, idle, runId, ttl, later);
  }

  /** The first one to ask gets it too. */
  lemma FirstAcquires(runId: int, ttl: real, now: real)
    ensures var s := Next(START, Acquire(runId, ttl, now));
      s.log == [Took(1)] && HeldUntil(s, Token(runId, 1), now + ttl)
  {
  }
}
