/**
 The heartbeat of a held lease and its local deadline (agent/lock.py, `_heartbeat`).

 One time line: the holder's monotonic clock and the database clock run at the same rate.  A renewal
 request is sent at `started`, the database dates it `dbNow`, and the holder is back at `ended`.
 Between two rounds other workers use the same row as they like.
 */
module Heartbeat {
  import opened Wrappers
  import opened Lease

  /** What another worker does to the row. */
  datatype Other =
    | TryAcquire(runId: int, ttl: real, now: real)
    | TryRenew(lease: Token, ttl: real, now: real)
    | TryRelease(lease: Token, now: real)

  /** `Raised`: the call failed or timed out locally; its statement may still have been applied. */
  datatype Reply = Answered | Raised(applied: bool)

  datatype Round = Round(others: seq<Other>, started: real, dbNow: real, ended: real, reply: Reply)

  /** The holder's view (deadline, whether a renewal succeeded, `lost`), the row, the start of the
      latest request, and the database time at which another worker took the row, if one did. */
  datatype Beat = Beat(
    row: Option<Row>, deadline: real, renewed: bool, lost: bool, asked: real, takenAt: Option<real>)

  function OtherRow(row: Option<Row>, o: Other): Option<Row> {
    match o
    case TryAcquire(runId, ttl, now) => Acquired(row, runId, ttl, now)
    case TryRenew(lease, ttl, now) => Renewed(row, lease, ttl, now)
    case TryRelease(lease, now) => Released(row, lease, now)
  }

  function OthersRow(row: Option<Row>, others: seq<Other>): Option<Row>
    decreases |others|
  {
    if others == [] then row else OthersRow(OtherRow(row, others[0]), others[1..])
  }

  /** Database time of the first acquisition among `others` that succeeds. */
  function FirstTake(row: Option<Row>, others: seq<Other>): Option<real>
    decreases |others|
  {
    if others == [] then None
    else if others[0].TryAcquire? && Free(row, others[0].now) then Some(others[0].now)
    else FirstTake(OtherRow(row, others[0]), others[1..])
  }

  function AfterOthers(b: Beat, others: seq<Other>): Beat {
    b.(row := OthersRow(b.row, others),
       takenAt := if b.takenAt.Some? then b.takenAt else FirstTake(b.row, others))
  }

  /** The holder's half of a round. */
  function AfterRenewal(b: Beat, lease: Token, ttl: real, r: Round): Beat {
    var ok := Holds(b.row, lease);
    var applied := r.reply == Answered || r.reply.applied;
    var row := if applied then Renewed(b.row, lease, ttl, r.dbNow) else b.row;
    if r.reply == Answered && !ok then b.(row := row, asked := r.started, lost := true)
    else
      var deadline := if r.reply == Answered then r.started + ttl else b.deadline;
      b.(row := row, asked := r.started, deadline := deadline,
         renewed := b.renewed || r.reply == Answered, lost := r.ended >= deadline)
  }

  function Beats(b: Beat, lease: Token, ttl: real, rounds: seq<Round>): Beat
    decreases |rounds|
  {
    if rounds == [] || b.lost then b
    else Beats(AfterRenewal(AfterOthers(b, rounds[0].others), lease, ttl, rounds[0]), lease, ttl, rounds[1..])
  }

  method Interfere(cell: LeaseRow, others: seq<Other>)
    modifies cell
    ensures cell.row == OthersRow(old(cell.row), others)
  {
    var i := 0;
    while i < |others|
      invariant 0 <= i <= |others|
      invariant OthersRow(old(cell.row), others) == OthersRow(cell.row, others[i..])
    {
      match others[i] {
        case TryAcquire(runId, ttl, now) => var _ := cell.AcquireLease(runId, ttl, now);
        case TryRenew(lease, ttl, now) => var _ := cell.RenewLease(lease, ttl, now);
        case TryRelease(lease, now) => cell.ReleaseLease(lease, now);
      }
      i := i + 1;
    }
  }

  function Begun(row: Option<Row>, ttl: real, begun: real): Beat {
    Beat(row, begun + ttl, false, false, begun, None)
  }

  /** The loop itself, on the row object. */
  method KeepAlive(cell: LeaseRow, lease: Token, ttl: real, begun: real, rounds: seq<Round>)
    returns (lost: bool, deadline: real)
    modifies cell
    ensures var b := Beats(Begun(old(cell.row), ttl, begun), lease, ttl, rounds);
      cell.row == b.row && lost == b.lost && deadline == b.deadline
  {
    lost := false;
    deadline := begun + ttl;
    ghost var b0 := Begun(cell.row, ttl, begun);
    ghost var b := b0;
    var i := 0;
    while i < |rounds| && !lost
      invariant 0 <= i <= |rounds|
      invariant b.row == cell.row && b.lost == lost && b.deadline == deadline
      invariant Beats(b0, lease, ttl, rounds) == Beats(b, lease, ttl, rounds[i..])
    {
      var r := rounds[i];
      b := AfterRenewal(AfterOthers(b, r.others), lease, ttl, r);
      Interfere(cell, r.others);
      match r.reply {
        case Answered =>
          var ok := cell.RenewLease(lease, ttl, r.dbNow);
          if !ok {
            lost := true;
          } else {
            deadline := r.started + ttl;
          }
        case Raised(applied) =>
          if applied {
            var _ := cell.RenewLease(lease, ttl, r.dbNow);
          }
      }
      if r.ended >= deadline {
        lost := true;
      }
      i := i + 1;
    }
  }

  // ---------------------------------------------------------------- the deadline is safe

  /** The rounds follow one another on the time line; other workers use leases of their own. */
  ghost predicate WellTimed(rounds: seq<Round>, from: real, lease: Token) {
    && (forall i :: 0 <= i < |rounds| ==> rounds[i].started <= rounds[i].dbNow <= rounds[i].ended)
    && (rounds != [] ==> from <= rounds[0].started)
    && (forall i :: 0 < i < |rounds| ==> rounds[i - 1].ended <= rounds[i].started)
    && (forall i, k :: 0 <= i < |rounds| && 0 <= k < |rounds[i].others| ==> Foreign(rounds[i].others[k], lease))
  }

  predicate Foreign(o: Other, lease: Token) {
    match o
    case TryAcquire(_, ttl, _) => true
    case TryRenew(l, _, _) => l != lease
    case TryRelease(l, _) => l != lease
  }

  /** While the row is ours and renewed once, the local deadline is not later than `lease_until`;
      once it was taken, it was taken later than the deadline. */
  ghost predicate Safe(b: Beat, lease: Token, ttl: real) {
    && b.row.Some? && b.row.value.fence >= lease.fence
    && (b.takenAt.None? <==> b.row.value.fence == lease.fence)
    && (b.takenAt.None? ==> Holds(b.row, lease))
    && (b.renewed ==> b.deadline <= b.asked + ttl)
    && (b.renewed && b.takenAt.None? ==> b.deadline <= b.row.value.until)
    && (b.renewed && b.takenAt.Some? ==> b.takenAt.value > b.deadline)
  }

  lemma {:induction false} OthersSafe(b: Beat, lease: Token, ttl: real, others: seq<Other>)
    requires Safe(b, lease, ttl)
    requires forall k :: 0 <= k < |others| ==> Foreign(others[k], lease)
    ensures Safe(AfterOthers(b, others), lease, ttl)
    decreases |others|
  {
    if others != [] {
      var o := others[0];
      var b' := b.(row := OtherRow(b.row, o),
                   takenAt := if b.takenAt.None? && o.TryAcquire? && Free(b.row, o.now)
                              then Some(o.now) else b.takenAt);
      OthersSafe(b', lease, ttl, others[1..]);
      assert AfterOthers(b, others) == AfterOthers(b', others[1..]);
    }
  }

  lemma RenewalSafe(b: Beat, lease: Token, ttl: real, r: Round)
    requires Safe(b, lease, ttl) && b.asked <= r.started <= r.dbNow
    ensures Safe(AfterRenewal(b, lease, ttl, r), lease, ttl)
  {
  }

  lemma {:induction false} BeatsSafe(b: Beat, lease: Token, ttl: real, rounds: seq<Round>, from: real)
    requires Safe(b, lease, ttl) && WellTimed(rounds, from, lease) && b.asked <= from
    ensures Safe(Beats(b, lease, ttl, rounds), lease, ttl)
    decreases |rounds|
  {
    if rounds != [] && !b.lost {
      var r := rounds[0];
      assert from <= r.started <= r.dbNow;
      OthersSafe(b, lease, ttl, r.others);
      var b' := AfterOthers(b, r.others);
      RenewalSafe(b', lease, ttl, r);
      var rest := rounds[1..];
      assert forall i :: 0 <= i < |rest| ==> rest[i] == rounds[i + 1];
      BeatsSafe(AfterRenewal(b', lease, ttl, r), lease, ttl, rest, r.ended);
    }
  }

  /** From the first successful renewal on, whatever the other workers do: the local deadline is
      never later than the row's `lease_until`, and a worker that took the row took it after the
      deadline by the database clock. */
  lemma DeadlineTheorem(row: Row, ttl: real, begun: real, rounds: seq<Round>)
    requires WellTimed(rounds, begun, Token(row.runId, row.fence))
    ensures var b := Beats(Begun(Some(row), ttl, begun), Token(row.runId, row.fence), ttl, rounds);
      b.renewed ==>
        if b.takenAt.None? then b.row.Some? && b.deadline <= b.row.value.until
        else b.takenAt.value > b.deadline
  {
    BeatsSafe(Begun(Some(row), ttl, begun), Token(row.runId, row.fence), ttl, rounds, begun);
  }

  lemma {:induction false} NotLostBeforeDeadline(b: Beat, lease: Token, ttl: real, rounds: seq<Round>)
    requires rounds != [] && !b.lost
    ensures !Beats(b, lease, ttl, rounds).lost ==>
      rounds[|rounds| - 1].ended < Beats(b, lease, ttl, rounds).deadline
    decreases |rounds|
  {
    var b' := AfterRenewal(AfterOthers(b, rounds[0].others), lease, ttl, rounds[0]);
    if |rounds| > 1 && !b'.lost {
      NotLostBeforeDeadline(b', lease, ttl, rounds[1..]);
    }
  }

  /** The point of it: after any round at whose end `lost` is not set, no other worker has taken
      the session at a database time up to that end. */
  lemma {:induction false} ExclusiveUntilLost(row: Row, ttl: real, begun: real, rounds: seq<Round>)
    requires rounds != [] && WellTimed(rounds, begun, Token(row.runId, row.fence))
    ensures var b := Beats(Begun(Some(row), ttl, begun), Token(row.runId, row.fence), ttl, rounds);
      b.renewed && !b.lost && b.takenAt.Some? ==> b.takenAt.value > rounds[|rounds| - 1].ended
  {
    DeadlineTheorem(row, ttl, begun, rounds);
    NotLostBeforeDeadline(Begun(Some(row), ttl, begun), Token(row.runId, row.fence), ttl, rounds);
  }

  /** What the holder meets in round `k`, after the others used the row; the loop is still on. */
  function Meets(b: Beat, lease: Token, ttl: real, rounds: seq<Round>, k: nat): Beat
    requires k < |rounds|
  {
    AfterOthers(Beats(b, lease, ttl, rounds[..k]), rounds[k].others)
  }

  predicate Executed(b: Beat, lease: Token, ttl: real, rounds: seq<Round>, k: nat)
    requires k < |rounds|
  {
    !Beats(b, lease, ttl, rounds[..k]).lost
  }

  /** The database answered that the row is not ours any more. */
  predicate Refused(b: Beat, lease: Token, r: Round) {
    r.reply == Answered && !Holds(b.row, lease)
  }

  /** The round was over only after the deadline it left. */
  predicate TooLate(b: Beat, lease: Token, ttl: real, r: Round) {
    r.ended >= if r.reply == Answered then r.started + ttl else b.deadline
  }

  /** Round `k` took place, and was refused or over too late. */
  predicate Loses(b: Beat, lease: Token, ttl: real, rounds: seq<Round>, k: nat)
    requires k < |rounds|
  {
    && Executed(b, lease, ttl, rounds, k)
    && var met := Meets(b, lease, ttl, rounds, k);
      Refused(met, lease, rounds[k]) || TooLate(met, lease, ttl, rounds[k])
  }

  lemma MeetsNext(b: Beat, lease: Token, ttl: real, rounds: seq<Round>, k: nat)
    requires !b.lost && 0 < k < |rounds|
    ensures var b' := AfterRenewal(AfterOthers(b, rounds[0].others), lease, ttl, rounds[0]);
      && Beats(b, lease, ttl, rounds[..k]) == Beats(b', lease, ttl, rounds[1..][..k - 1])
      && Executed(b, lease, ttl, rounds, k) == Executed(b', lease, ttl, rounds[1..], k - 1)
      && Meets(b, lease, ttl, rounds, k) == Meets(b', lease, ttl, rounds[1..], k - 1)
  {
    assert rounds[..k][1..] == rounds[1..][..k - 1];
  }

  /** `lost` is set at the end exactly when some round that took place was refused or over too late:
      a refused renewal is never forgotten, and nothing else sets it. */
  lemma {:induction false} LostIff(b: Beat, lease: Token, ttl: real, rounds: seq<Round>)
    requires !b.lost
    ensures Beats(b, lease, ttl, rounds).lost <==>
      exists k :: 0 <= k < |rounds| && Loses(b, lease, ttl, rounds, k)
    decreases |rounds|
  {
    if rounds != [] {
      var met := AfterOthers(b, rounds[0].others);
      var b', rest := AfterRenewal(met, lease, ttl, rounds[0]), rounds[1..];
      assert rounds[..0] == [] && Meets(b, lease, ttl, rounds, 0) == met && Executed(b, lease, ttl, rounds, 0);
      forall k | 0 < k < |rounds|
        ensures Loses(b, lease, ttl, rounds, k) == Loses(b', lease, ttl, rest, k - 1)
      {
        MeetsNext(b, lease, ttl, rounds, k);
      }
      assert Loses(b, lease, ttl, rounds, 0) <==> b'.lost;
      if !b'.lost {
        LostIff(b', lease, ttl, rest);
        if k :| 0 <= k < |rest| && Loses(b', lease, ttl, rest, k) {
          assert Loses(b, lease, ttl, rounds, k + 1);
        }
      }
    }
  }

  /** A round that was refused, whenever it took place, leaves `lost` set when the loop is over. */
  lemma RefusedIsLost(b: Beat, lease: Token, ttl: real, rounds: seq<Round>, k: nat)
    requires !b.lost && k < |rounds| && Executed(b, lease, ttl, rounds, k)
    requires Refused(Meets(b, lease, ttl, rounds, k), lease, rounds[k])
    ensures Beats(b, lease, ttl, rounds).lost
  {
    LostIff(b, lease, ttl, rounds);
    assert Loses(b, lease, ttl, rounds, k);
  }

  /** Before the first renewal the bound does not hold: the first deadline starts when
      `acquire_lease` has returned.  It is within `lease_until` exactly when that return is not
      later than the database time of the acquisition. */
  lemma FirstDeadlineWithinIff(row: Option<Row>, runId: int, ttl: real, dbNow: real, begun: real)
    requires Free(row, dbNow)
    ensures var r := Acquired(row, runId, ttl, dbNow);
      Begun(r, ttl, begun).deadline <= r.value.until <==> begun <= dbNow
  {
  }
}
