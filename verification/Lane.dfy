/**
 One worker lane (agent/worker.py): claiming runs from the shared queue into at most `c` slots, some
 of them kept for interactive runs.
 */
module Lane {
  import opened Wrappers

  const INTERACTIVE: nat := 0

  datatype RunId = RunId(value: int)

  datatype Status = Pending | Running | Other

  /** A queue row as the claim sees it; `mine` says capability and account are this lane's. */
  datatype Row = Row(priority: nat, createdAt: int, runAfter: Option<int>, mine: bool, status: Status,
        startedAt: Option<int>)

  type Rows = map<RunId, Row>

  /** What one claim transaction meets: the rows, those other transactions hold locked, the clock. */
  datatype Snapshot = Snapshot(rows: Rows, locked: set<RunId>, now: int)

  predicate Eligible(s: Snapshot, id: RunId, interactiveOnly: bool) {
    && id in s.rows && id !in s.locked
    && var r := s.rows[id];
    && r.mine && r.status == Pending
    && (r.runAfter.None? || r.runAfter.value < s.now)
    && (interactiveOnly ==> r.priority == INTERACTIVE)
  }

  ghost function AllEligible(s: Snapshot, interactiveOnly: bool): set<RunId> {
    set id | id in s.rows && Eligible(s, id, interactiveOnly)
  }

  /** Claim order: interactive first, then oldest. */
  predicate NotAfter(s: Snapshot, a: RunId, b: RunId) {
    && a in s.rows && b in s.rows
    && var x, y := s.rows[a], s.rows[b];
    x.priority < y.priority || (x.priority == y.priority && x.createdAt <= y.createdAt)
  }

  predicate Distinct(ids: seq<RunId>) {
    forall i, j :: 0 <= i < j < |ids| ==> ids[i] != ids[j]
  }

  /** `ids` are the first runs of the eligible ones, in claim order: as many as the limit allows. */
  ghost predicate IsClaim(s: Snapshot, limit: int, interactiveOnly: bool, ids: seq<RunId>) {
    && Distinct(ids)
    && (forall id :: id in ids ==> Eligible(s, id, interactiveOnly))
    && (forall i, j :: 0 <= i < j < |ids| ==> NotAfter(s, ids[i], ids[j]))
    && (forall id, other :: id in ids && other !in ids && Eligible(s, other, interactiveOnly) ==>
        NotAfter(s, id, other))
    && |ids| <= (if limit > 0 then limit else 0)
    && (|ids| < limit ==> forall id :: Eligible(s, id, interactiveOnly) ==> id in ids)
  }

  /** The lane's own pending run, whose time has come and that nobody holds locked. */
  predicate Claimable(s: Snapshot, id: RunId, interactiveOnly: bool) {
    && id in s.rows && id !in s.locked
    && s.rows[id].mine && s.rows[id].status == Pending
    && (s.rows[id].runAfter == None || s.rows[id].runAfter.value < s.now)
    && (interactiveOnly ==> s.rows[id].priority == 0)
  }

  /** A claim takes such runs only, and all of them while the limit allows. */
  lemma ClaimTakes(s: Snapshot, limit: int, interactiveOnly: bool, ids: seq<RunId>, id: RunId)
    requires IsClaim(s, limit, interactiveOnly, ids)
    ensures id in ids ==> Claimable(s, id, interactiveOnly)
    ensures |ids| < limit && Claimable(s, id, interactiveOnly) ==> id in ids
  {
    assert Eligible(s, id, interactiveOnly) <==> Claimable(s, id, interactiveOnly);
  }

  /** It takes them in the order of their priority number, the older one first within a priority, and
      leaves out none that comes before one it takes. */
  lemma ClaimPrefers(s: Snapshot, limit: int, interactiveOnly: bool, ids: seq<RunId>, i: nat, other: RunId)
    requires IsClaim(s, limit, interactiveOnly, ids) && i < |ids|
    requires (exists k :: i < k < |ids| && ids[k] == other) || (other !in ids && Claimable(s, other, interactiveOnly))
    ensures ids[i] in s.rows && other in s.rows
    ensures var x, y := s.rows[ids[i]], s.rows[other];
      x.priority < y.priority || (x.priority == y.priority && x.createdAt <= y.createdAt)
  {
    assert ids[i] in ids && NotAfter(s, ids[i], other);
  }

  /** The claimed rows are running from now on, the others as they were. */
  lemma StartedMeans(rows: Rows, ids: seq<RunId>, now: int, id: RunId)
    requires id in rows
    ensures var r, r' := rows[id], Started(rows, ids, now)[id];
      && (id in ids ==> r' == Row(r.priority, r.createdAt, r.runAfter, r.mine, Running, Some(now)))
      && (id !in ids ==> r' == r)
  {
  }

  function Started(rows: Rows, ids: seq<RunId>, now: int): Rows {
    map id | id in rows :: if id in ids then rows[id].(status := Running, startedAt := Some(now)) else rows[id]
  }

  lemma {:induction false} FirstExists(s: Snapshot, open: set<RunId>) returns (first: RunId)
    requires open != {} && open <= s.rows.Keys
    ensures first in open && forall other :: other in open ==> NotAfter(s, first, other)
    decreases open
  {
    var x :| x in open;
    first := x;
    var rest := open - {x};
    if rest != {} {
      var y := FirstExists(s, rest);
      if NotAfter(s, y, x) {
        first := y;
      }
    }
    assert forall other :: other in open ==> other == x || other in rest;
  }

  /** Slots kept for interactive runs, never all of them. */
  function EffectiveReserve(reserve: int, concurrency: int): (r: nat)
    ensures r <= reserve || r == 0
    ensures concurrency >= 1 ==> r < concurrency
    ensures concurrency <= 1 || reserve <= 0 ==> r == 0
    ensures 0 <= reserve < concurrency ==> r == reserve
  {
    var capped := if reserve < concurrency - 1 then reserve else concurrency - 1;
    if capped > 0 then capped else 0
  }

  class Queue {
    var rows: Rows

    constructor (rows: Rows)
      ensures this.rows == rows
    {
      this.rows := rows;
    }

    method ClaimAgentRuns(limit: int, interactiveOnly: bool, locked: set<RunId>, now: int) returns (ids: seq<RunId>)
      modifies this
      ensures IsClaim(Snapshot(old(rows), locked, now), limit, interactiveOnly, ids)
      ensures rows == Started(old(rows), ids, now)
    {
      ids := [];
      if limit <= 0 {
        assert rows == Started(rows, [], now);
        return;
      }
      ghost var was := rows;
      var s := Snapshot(rows, locked, now);
      var open := set id | id in rows && Eligible(s, id, interactiveOnly);
      while |ids| < limit && open != {}
        invariant rows == was && open <= AllEligible(s, interactiveOnly)
        invariant forall id :: Eligible(s, id, interactiveOnly) <==> id in open || id in ids
        invariant forall id :: id in ids ==> id !in open
        invariant Distinct(ids) && |ids| <= limit
        invariant forall i, j :: 0 <= i < j < |ids| ==> NotAfter(s, ids[i], ids[j])
        invariant forall id, other :: id in ids && other in open ==> NotAfter(s, id, other)
        decreases open
      {
        ghost var witnessed := FirstExists(s, open);
        var id :| id in open && forall other :: other in open ==> NotAfter(s, id, other);
        ids := ids + [id];
        open := open - {id};
      }
      rows := Started(rows, ids, now);
    }

    /** One tick's claims. `between` is what other sessions committed between the two claims. */
    method ClaimForLane(free: int, concurrency: int, reserveSetting: int, locked: set<RunId>, now: int,
                        between: Rows, locked2: set<RunId>, now2: int)
      returns (ids: seq<RunId>, first: nat)
      modifies this
      ensures first <= |ids|
      ensures var a := Snapshot(old(rows), locked, now);
        var b := Snapshot(Started(old(rows), ids[..first], now) + between, locked2, now2);
        && LaneClaim(a, b, free, EffectiveReserve(reserveSetting, concurrency), ids, first)
        && rows == Started(b.rows, ids[first..], now2)
    {
      var reserve := EffectiveReserve(reserveSetting, concurrency);
      ids := ClaimUpTo(free - reserve, false, locked, now);
      first := |ids|;
      rows := rows + between;
      var more := ClaimUpTo(free - first, true, locked2, now2);
      Parts(ids, more);
      ids := ids + more;
    }

    /** A claim is made only when there is something to claim for. */
    method ClaimUpTo(limit: int, interactiveOnly: bool, locked: set<RunId>, now: int) returns (ids: seq<RunId>)
      modifies this
      ensures IsClaim(Snapshot(old(rows), locked, now), limit, interactiveOnly, ids)
      ensures rows == Started(old(rows), ids, now)
    {
      if limit > 0 {
        ids := ClaimAgentRuns(limit, interactiveOnly, locked, now);
      } else {
        ids := [];
        assert rows == Started(rows, [], now);
      }
    }
  }

  lemma Parts<T>(a: seq<T>, b: seq<T>)
    ensures (a + b)[..|a|] == a && (a + b)[|a|..] == b
  {
  }

  // --- One tick ------------------------------------------------------------------------------------------

  /** The first `k` of `ids` were claimed in `a`, any priority, the rest in `b`, interactive only. */
  ghost predicate LaneClaim(a: Snapshot, b: Snapshot, free: int, reserve: nat, ids: seq<RunId>, k: nat) {
    && k <= |ids|
    && IsClaim(a, free - reserve, false, ids[..k])
    && IsClaim(b, free - k, true, ids[k..])
  }

  datatype Task = Task(id: RunId, interactive: bool)

  function BatchCount(ts: seq<Task>): nat {
    if ts == [] then 0 else BatchCount(ts[..|ts| - 1]) + if ts[|ts| - 1].interactive then 0 else 1
  }

  ghost function Tasks(a: Snapshot, b: Snapshot, free: int, reserve: nat, ids: seq<RunId>, k: nat): seq<Task>
    requires LaneClaim(a, b, free, reserve, ids, k)
  {
    ClaimTasks(a, ids[..k]) + ClaimTasks(b, ids[k..])
  }

  ghost function ClaimTasks(s: Snapshot, ids: seq<RunId>): seq<Task>
    requires forall id :: id in ids ==> id in s.rows
  {
    seq(|ids|, i requires 0 <= i < |ids| => Task(ids[i], s.rows[ids[i]].priority == INTERACTIVE))
  }

  lemma {:induction false} BatchConcat(x: seq<Task>, y: seq<Task>)
    ensures BatchCount(x + y) == BatchCount(x) + BatchCount(y)
    ensures BatchCount(x) <= |x|
    decreases |x| + |y|
  {
    if y != [] {
      var last := |y| - 1;
      BatchConcat(x, y[..last]);
      assert (x + y)[..|x| + last] == x + y[..last];
    } else {
      assert x + y == x;
      if x != [] {
        BatchConcat(x[..|x| - 1], []);
      }
    }
  }

  lemma {:induction false} AllInteractive(ts: seq<Task>)
    requires forall t :: t in ts ==> t.interactive
    ensures BatchCount(ts) == 0
  {
    if ts != [] {
      AllInteractive(ts[..|ts| - 1]);
    }
  }

  /** A tick starts at most `free` runs, and no batch run in a reserved slot. */
  lemma TickFits(a: Snapshot, b: Snapshot, free: int, reserve: nat, ids: seq<RunId>, k: nat)
    requires LaneClaim(a, b, free, reserve, ids, k)
    ensures var ts := Tasks(a, b, free, reserve, ids, k);
      && |ts| == |ids| <= (if free > 0 then free else 0)
      && BatchCount(ts) <= (if free > reserve then free - reserve else 0)
  {
    var x, y := ClaimTasks(a, ids[..k]), ClaimTasks(b, ids[k..]);
    BatchConcat(x, y);
    AllInteractive(y);
  }

  /** Interactive runs come first: one that every claim of the tick could have taken - the first claim
      is made only when more slots are free than reserved - is left pending only if every free slot
      went to an interactive run. */
  lemma InteractiveFirst(a: Snapshot, b: Snapshot, free: int, reserve: nat, ids: seq<RunId>, k: nat, waiting: RunId)
    requires LaneClaim(a, b, free, reserve, ids, k)
    requires free > reserve ==> Eligible(a, waiting, true)
    requires Eligible(b, waiting, true) && waiting !in ids
    ensures |ids| == if free > 0 then free else 0
    ensures forall t :: t in Tasks(a, b, free, reserve, ids, k) ==> t.interactive
  {
    assert free > reserve ==> Eligible(a, waiting, false);
    assert ids == ids[..k] + ids[k..];
    assert waiting !in ids[..k] && waiting !in ids[k..];
    forall id | id in ids[..k]
      ensures a.rows[id].priority == INTERACTIVE
    {
      assert NotAfter(a, id, waiting);
    }
    forall id | id in ids[k..]
      ensures b.rows[id].priority == INTERACTIVE
    {
      assert Eligible(b, id, true);
    }
  }

  /** Unreserved slots never idle: while any run could have been claimed and was not, they are full. */
  lemma NoIdleSlot(a: Snapshot, b: Snapshot, free: int, reserve: nat, ids: seq<RunId>, k: nat, waiting: RunId)
    requires LaneClaim(a, b, free, reserve, ids, k)
    requires Eligible(a, waiting, false) && waiting !in ids
    ensures |ids| >= free - reserve
  {
    assert waiting !in ids[..k];
  }

  /** A tick never starts a run twice, as long as nobody puts back what its first claim started. */
  lemma TickDistinct(a: Snapshot, b: Snapshot, free: int, reserve: nat, ids: seq<RunId>, k: nat)
    requires LaneClaim(a, b, free, reserve, ids, k)
    requires forall id :: id in ids[..k] && id in b.rows ==> b.rows[id].status == Running
    ensures Distinct(ids)
  {
    forall i, j | 0 <= i < j < |ids|
      ensures ids[i] != ids[j]
    {
      if i < k <= j {
        assert ids[i] == ids[..k][i] && ids[j] == ids[k..][j - k];
        assert Eligible(b, ids[j], true);
      } else if j < k {
        assert ids[i] == ids[..k][i] && ids[j] == ids[..k][j];
      } else {
        assert ids[i] == ids[k..][i - k] && ids[j] == ids[k..][j - k];
      }
    }
  }

  // --- Any run of the lane ---------------------------------------------------------------------------

  /** The lane looks how many slots are free, claims, and starts what it claimed; tasks end at any
      point, also between the look and the start. */
  datatype LaneState = LaneState(inflight: seq<Task>, free: Option<int>)

  datatype Step =
    | Look
    | Done(i: nat)
    | Start(a: Snapshot, b: Snapshot, ids: seq<RunId>, k: nat)
    | Fail                                  // the claim raised: the tick starts nothing

  function Without(ts: seq<Task>, i: nat): seq<Task>
    requires i < |ts|
  {
    ts[..i] + ts[i + 1..]
  }

  /** A step that cannot happen changes nothing. */
  ghost function Next(c: nat, reserve: int, s: LaneState, step: Step): LaneState {
    match step
    case Look => s.(free := Some(c - |s.inflight|))
    case Done(i) => if i < |s.inflight| then s.(inflight := Without(s.inflight, i)) else s
    case Fail => s.(free := None)
    case Start(a, b, ids, k) =>
      if s.free.Some? && LaneClaim(a, b, s.free.value, EffectiveReserve(reserve, c), ids, k)
      then LaneState(s.inflight + Tasks(a, b, s.free.value, EffectiveReserve(reserve, c), ids, k), None)
      else s
  }

  ghost function Run(c: nat, reserve: int, s: LaneState, steps: seq<Step>): LaneState
    decreases |steps|
  {
    if steps == [] then s else Run(c, reserve, Next(c, reserve, s, steps[0]), steps[1..])
  }

  ghost predicate Fits(c: nat, reserve: int, s: LaneState) {
    && |s.inflight| <= c
    && BatchCount(s.inflight) <= c - EffectiveReserve(reserve, c)
    && (s.free.Some? ==> |s.inflight| + s.free.value <= c)
  }

  lemma RemoveOne(ts: seq<Task>, x: seq<Task>, t: Task, z: seq<Task>)
    requires ts == x + ([t] + z)
    ensures BatchCount(x + z) <= BatchCount(ts)
  {
    BatchConcat(x, [t] + z);
    BatchConcat([t], z);
    BatchConcat(x, z);
  }

  lemma SplitAt<T>(s: seq<T>, i: nat)
    requires i < |s|
    ensures s == s[..i] + ([s[i]] + s[i + 1..])
  {
  }

  lemma DoneFits(ts: seq<Task>, i: nat)
    requires i < |ts|
    ensures BatchCount(Without(ts, i)) <= BatchCount(ts)
  {
    SplitAt(ts, i);
    RemoveOne(ts, ts[..i], ts[i], ts[i + 1..]);
  }

  lemma NextFits(c: nat, reserve: int, s: LaneState, step: Step)
    requires Fits(c, reserve, s)
    ensures Fits(c, reserve, Next(c, reserve, s, step))
  {
    match step
    case Look =>
    case Fail =>
    case Done(i) =>
      if i < |s.inflight| {
        DoneFits(s.inflight, i);
      }
    case Start(a, b, ids, k) =>
      var r := EffectiveReserve(reserve, c);
      if s.free.Some? && LaneClaim(a, b, s.free.value, r, ids, k) {
        TickFits(a, b, s.free.value, r, ids, k);
        BatchConcat(s.inflight, Tasks(a, b, s.free.value, r, ids, k));
      }
  }

  lemma {:induction false} RunFits(c: nat, reserve: int, s: LaneState, steps: seq<Step>)
    requires Fits(c, reserve, s)
    ensures Fits(c, reserve, Run(c, reserve, s, steps))
    decreases |steps|
  {
    if steps != [] {
      NextFits(c, reserve, s, steps[0]);
      RunFits(c, reserve, Next(c, reserve, s, steps[0]), steps[1..]);
    }
  }

  /** Over every sequence of ticks and completions: never more than `c` runs in flight, and never
      more than `c` minus the reserve of them batch. */
  lemma LaneTheorem(c: nat, reserve: int, steps: seq<Step>)
    ensures var s := Run(c, reserve, LaneState([], None), steps);
      && |s.inflight| <= c
      && BatchCount(s.inflight) <= c - EffectiveReserve(reserve, c)
  {
    RunFits(c, reserve, LaneState([], None), steps);
  }
}
