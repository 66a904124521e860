/**
 The newest-first page of client requests: routes/dashboard_requests.py.

 The fast form tries narrow time slices of the window first and trusts a slice when it alone fills
 the page; the simple form aggregates the whole window.  The query is modelled by its meaning on the
 tables: window, group, join, filter, order, page.
 */
module RequestList {
  import opened Wrappers
  import opened Decimal

  const DAY := 86400
  const MARGIN := DAY
  const SLICES := [DAY, 7 * DAY, 30 * DAY]

  /** A row of usage_log: one provider attempt. */
  datatype Attempt = Attempt(
    id: nat, requestId: Option<string>, at: int, projectId: int, workflow: Option<string>,
    capability: string, provider: string, model: string, ok: bool)

  /** A row of deep_jobs, with what agent_runs adds to it. */
  datatype Job = Job(
    id: nat, at: int, projectId: int, capability: string, agent: bool, provider: Option<string>,
    model: Option<string>, examLabel: Option<string>, runLabel: Option<string>, status: string)

  datatype Db = Db(attempts: seq<Attempt>, jobs: seq<Job>)

  datatype Kind = JobKind | DirectKind | AgentKind
  datatype LabelKey = ExamRunId | RunId
  datatype Label = Label(key: Option<LabelKey>, value: string)

  datatype Filter = Filter(
    start: Option<int>, end: Option<int>, projectId: Option<int>, workflow: Option<string>,
    capability: Option<string>, provider: Option<string>, model: Option<string>,
    status: Option<string>, kind: Option<Kind>, tag: Option<Label>)

  /** A client request: its attempts inside the window, and its job. */
  datatype Row = Row(key: string, attempts: seq<Attempt>, job: Option<Job>)

  function JobKey(id: nat): string {
    "job-" + Digits(id)
  }

  /** COALESCE(u.request_id, 'u-' || u.id) */
  function KeyOf(u: Attempt): string {
    if u.requestId.Some? then u.requestId.value else "u-" + Digits(u.id)
  }

  predicate OfJob(u: Attempt) {
    u.requestId.Some? && "job-" <= u.requestId.value
  }

  predicate Matches<T(==)>(wanted: Option<T>, value: T) {
    wanted.None? || wanted.value == value
  }

  // ---------------------------------------------------------------- conditions

  /** `_win`: half-open [lo, end). */
  predicate InWindow(lo: Option<int>, end: Option<int>, at: int) {
    (lo.Some? ==> lo.value <= at) && (end.Some? ==> at < end.value)
  }

  function Later(a: int, b: Option<int>): int {
    if b.Some? && b.value > a then b.value else a
  }

  /** Where the scan of attempts begins: `_MARGIN` before the cut, never before the range. */
  function AttemptsFrom(f: Filter, since: Option<int>): Option<int> {
    if since.None? then f.start else Some(Later(since.value - MARGIN, f.start))
  }

  function JobsFrom(f: Filter, since: Option<int>): Option<int> {
    if since.None? then f.start else Some(Later(since.value, f.start))
  }

  predicate AttemptOk(f: Filter, u: Attempt) {
    && Matches(f.projectId, u.projectId)
    && (f.workflow.None? || f.workflow == u.workflow)
    && Matches(f.capability, u.capability)
    && (f.kind.None? || (f.kind.value == JobKind && OfJob(u)) || (f.kind.value == DirectKind && !OfJob(u)))
    && (f.tag.Some? ==> OfJob(u))
  }

  predicate LabelOk(f: Filter, j: Job) {
    f.tag.Some? ==>
      var l := f.tag.value;
      || (l.key != Some(RunId) && j.examLabel == Some(l.value))
      || (l.key != Some(ExamRunId) && j.runLabel == Some(l.value))
  }

  /** A job without attempts, straight from deep_jobs. */
  predicate BareOk(f: Filter, j: Job) {
    && f.workflow.None? && f.kind != Some(DirectKind)
    && Matches(f.projectId, j.projectId) && Matches(f.capability, j.capability)
    && (f.provider.Some? || f.model.Some? || f.kind == Some(AgentKind) ==> j.agent)
    && (f.provider.None? || f.provider == j.provider)
    && (f.model.None? || f.model == j.model)
    && LabelOk(f, j)
  }

  predicate Hit(f: Filter, u: Attempt) {
    Matches(f.provider, u.provider) && Matches(f.model, u.model)
  }

  function State(r: Row): string {
    var status := if r.job.Some? then r.job.value.status else "";
    if status == "pending" || status == "running" then status
    else if status == "done" then "ok"
    else if status == "error" then "failed"
    else if status == "cancelled" then "cancelled"
    else if exists i :: 0 <= i < |r.attempts| && r.attempts[i].ok then "ok" else "failed"
  }

  predicate RowOk(f: Filter, r: Row) {
    && Matches(f.status, State(r))
    && (r.attempts == [] || exists i :: 0 <= i < |r.attempts| && Hit(f, r.attempts[i]))
    && (f.tag.Some? ==> r.job.Some? && LabelOk(f, r.job.value))
  }

  // ---------------------------------------------------------------- grouping and joining

  function Window(f: Filter, since: Option<int>, us: seq<Attempt>): seq<Attempt> {
    if us == [] then []
    else
      (if AttemptOk(f, us[0]) && InWindow(AttemptsFrom(f, since), f.end, us[0].at) then [us[0]] else [])
        + Window(f, since, us[1..])
  }

  function OfKey(us: seq<Attempt>, key: string): seq<Attempt> {
    if us == [] then []
    else (if KeyOf(us[0]) == key then [us[0]] else []) + OfKey(us[1..], key)
  }

  /** LEFT JOIN deep_jobs ON gk = 'job-' || id */
  function FindJob(jobs: seq<Job>, key: string): Option<Job> {
    if jobs == [] then None
    else if JobKey(jobs[0].id) == key then Some(jobs[0])
    else FindJob(jobs[1..], key)
  }

  /** MIN(created_at) of a group */
  function FirstAt(us: seq<Attempt>): (t: int)
    requires us != []
    ensures forall i :: 0 <= i < |us| ==> t <= us[i].at
    ensures exists i :: 0 <= i < |us| && us[i].at == t
  {
    if |us| == 1 then us[0].at
    else
      var rest := FirstAt(us[1..]);
      if us[0].at < rest then us[0].at else rest
  }

  /** COALESCE(job_created, first_at); a row without either does not occur. */
  function SortTime(r: Row): int {
    if r.job.Some? then r.job.value.at else if r.attempts != [] then FirstAt(r.attempts) else 0
  }

  /** The groups of `us`, one per key, in the order the keys appear in `keys`. */
  function Groups(db: Db, us: seq<Attempt>, keys: seq<Attempt>): seq<Row> {
    if keys == [] then []
    else
      var rest := Groups(db, us, keys[..|keys| - 1]);
      var key := KeyOf(keys[|keys| - 1]);
      var row := Row(key, OfKey(us, key), FindJob(db.jobs, key));
      if row in rest then rest else rest + [row]
  }

  predicate Attempted(us: seq<Attempt>, j: Job) {
    exists i :: 0 <= i < |us| && us[i].requestId == Some(JobKey(j.id))
  }

  function Bares(db: Db, f: Filter, since: Option<int>, jobs: seq<Job>): seq<Row> {
    if jobs == [] then []
    else
      var j := jobs[|jobs| - 1];
      Bares(db, f, since, jobs[..|jobs| - 1])
        + if InWindow(JobsFrom(f, since), f.end, j.at) && BareOk(f, j) && !Attempted(db.attempts, j)
          then [Row(JobKey(j.id), [], Some(j))] else []
  }

  function Kept(f: Filter, since: Option<int>, rows: seq<Row>): seq<Row> {
    if rows == [] then []
    else
      var r := rows[|rows| - 1];
      Kept(f, since, rows[..|rows| - 1])
        + if (since.Some? ==> SortTime(r) >= since.value) && RowOk(f, r) then [r] else []
  }

  function Rows(db: Db, f: Filter, since: Option<int>): seq<Row> {
    var us := Window(f, since, db.attempts);
    Kept(f, since, Groups(db, us, us) + Bares(db, f, since, db.jobs))
  }

  // ---------------------------------------------------------------- ordering and paging

  /** The database's collation of request keys: any strict total order. */
  type Collation = (string, string) -> bool

  ghost predicate TotalOrder(less: Collation) {
    && (forall a :: !less(a, a))
    && (forall a, b :: a == b || less(a, b) || less(b, a))
    && (forall a, b, c :: less(a, b) && less(b, c) ==> less(a, c))
  }

  /** ORDER BY sort_time DESC, gk DESC */
  predicate Before(less: Collation, r: Row, s: Row) {
    SortTime(r) > SortTime(s) || (SortTime(r) == SortTime(s) && less(s.key, r.key))
  }

  function Insert(less: Collation, r: Row, rows: seq<Row>): seq<Row> {
    if rows == [] then [r]
    else if Before(less, r, rows[0]) then [r] + rows
    else [rows[0]] + Insert(less, r, rows[1..])
  }

  function Ordered(less: Collation, rows: seq<Row>): seq<Row> {
    if rows == [] then [] else Insert(less, rows[|rows| - 1], Ordered(less, rows[..|rows| - 1]))
  }

  function Page<T>(s: seq<T>, offset: nat, take: nat): seq<T> {
    if offset >= |s| then [] else if offset + take <= |s| then s[offset..offset + take] else s[offset..]
  }

  function Fetch(db: Db, f: Filter, since: Option<int>, take: nat, offset: nat, less: Collation): seq<Row> {
    Page(Ordered(less, Rows(db, f, since)), offset, take)
  }

  // ---------------------------------------------------------------- what a table must look like

  ghost predicate PrimaryKeys(db: Db) {
    forall i, k :: 0 <= i < k < |db.jobs| ==> db.jobs[i].id != db.jobs[k].id
  }

  predicate Direct(db: Db, u: Attempt) {
    FindJob(db.jobs, KeyOf(u)).None?
  }

  /** A direct request's attempts span at most the margin; a job's attempts do not precede it. */
  ghost predicate WellSpaced(db: Db) {
    && (forall u, v :: u in db.attempts && v in db.attempts && KeyOf(u) == KeyOf(v) && Direct(db, u) ==>
          u.at - v.at <= MARGIN)
    && (forall u :: u in db.attempts && !Direct(db, u) ==> u.at >= FindJob(db.jobs, KeyOf(u)).value.at)
  }

  // ---------------------------------------------------------------- membership of the query result

  predicate Selected(f: Filter, since: Option<int>, u: Attempt) {
    AttemptOk(f, u) && InWindow(AttemptsFrom(f, since), f.end, u.at)
  }

  lemma {:induction false} WindowMembers(f: Filter, since: Option<int>, us: seq<Attempt>, u: Attempt)
    ensures u in Window(f, since, us) <==> u in us && Selected(f, since, u)
  {
    if us != [] {
      WindowMembers(f, since, us[1..], u);
    }
  }

  lemma {:induction false} OfKeyMembers(us: seq<Attempt>, key: string, u: Attempt)
    ensures u in OfKey(us, key) <==> u in us && KeyOf(u) == key
  {
    if us != [] {
      OfKeyMembers(us[1..], key, u);
    }
  }

  function GroupRow(db: Db, us: seq<Attempt>, key: string): Row {
    Row(key, OfKey(us, key), FindJob(db.jobs, key))
  }

  ghost predicate HasKey(us: seq<Attempt>, key: string) {
    exists u :: u in us && KeyOf(u) == key
  }

  lemma {:induction false} GroupsMembers(db: Db, us: seq<Attempt>, keys: seq<Attempt>, r: Row)
    ensures r in Groups(db, us, keys) <==> r == GroupRow(db, us, r.key) && HasKey(keys, r.key)
  {
    if keys != [] {
      var n := |keys| - 1;
      GroupsMembers(db, us, keys[..n], r);
      assert HasKey(keys, r.key) <==> HasKey(keys[..n], r.key) || KeyOf(keys[n]) == r.key by {
        assert keys[n] in keys;
        assert forall u :: u in keys <==> u in keys[..n] || u == keys[n];
      }
    }
  }

  lemma {:induction false} GroupsDistinct(db: Db, us: seq<Attempt>, keys: seq<Attempt>)
    ensures DistinctKeys(Groups(db, us, keys))
  {
    if keys != [] {
      var n := |keys| - 1;
      var rest := Groups(db, us, keys[..n]);
      GroupsDistinct(db, us, keys[..n]);
      var row := GroupRow(db, us, KeyOf(keys[n]));
      forall g | g in rest && g.key == row.key
        ensures row in rest
      {
        GroupsMembers(db, us, keys[..n], g);
      }
    }
  }

  predicate IsBare(db: Db, f: Filter, since: Option<int>, j: Job) {
    InWindow(JobsFrom(f, since), f.end, j.at) && BareOk(f, j) && !Attempted(db.attempts, j)
  }

  lemma {:induction false} BaresMembers(db: Db, f: Filter, since: Option<int>, jobs: seq<Job>, r: Row)
    ensures r in Bares(db, f, since, jobs) <==>
      r.attempts == [] && r.job.Some? && r.job.value in jobs && r.key == JobKey(r.job.value.id)
          && IsBare(db, f, since, r.job.value)
  {
    if jobs != [] {
      var n := |jobs| - 1;
      assert jobs == jobs[..n] + [jobs[n]];
      BaresMembers(db, f, since, jobs[..n], r);
    }
  }

  lemma {:induction false} KeptMembers(f: Filter, since: Option<int>, rows: seq<Row>, r: Row)
    ensures r in Kept(f, since, rows) <==>
      r in rows && (since.Some? ==> SortTime(r) >= since.value) && RowOk(f, r)
  {
    if rows != [] {
      var n := |rows| - 1;
      assert rows == rows[..n] + [rows[n]];
      KeptMembers(f, since, rows[..n], r);
    }
  }

  /** A row of the query: the whole group of a selected attempt, or a job nobody attempted. */
  ghost predicate Member(db: Db, f: Filter, since: Option<int>, r: Row) {
    && (|| (r == GroupRow(db, Window(f, since, db.attempts), r.key) && r.attempts != [])
        || (r.attempts == [] && r.job.Some? && r.job.value in db.jobs && r.key == JobKey(r.job.value.id)
            && IsBare(db, f, since, r.job.value)))
    && (since.Some? ==> SortTime(r) >= since.value)
    && RowOk(f, r)
  }

  lemma RowsMembers(db: Db, f: Filter, since: Option<int>, r: Row)
    ensures r in Rows(db, f, since) <==> Member(db, f, since, r)
  {
    var us := Window(f, since, db.attempts);
    GroupsMembers(db, us, us, r);
    BaresMembers(db, f, since, db.jobs, r);
    KeptMembers(f, since, Groups(db, us, us) + Bares(db, f, since, db.jobs), r);
    if r == GroupRow(db, us, r.key) && r.attempts != [] {
      OfKeyMembers(us, r.key, r.attempts[0]);
    }
    if HasKey(us, r.key) {
      var u :| u in us && KeyOf(u) == r.key;
      OfKeyMembers(us, r.key, u);
    }
  }

  // ---------------------------------------------------------------- a slice is a time suffix of the whole

  lemma {:induction false} SameGroup(f: Filter, since: Option<int>, us: seq<Attempt>, key: string)
    requires forall u :: u in us && KeyOf(u) == key ==> (Selected(f, since, u) <==> Selected(f, None, u))
    ensures OfKey(Window(f, since, us), key) == OfKey(Window(f, None, us), key)
  {
    if us != [] {
      SameGroup(f, since, us[1..], key);
      OfKeyWindow(f, since, us, key);
      OfKeyWindow(f, None, us, key);
    }
  }

  lemma OfKeyWindow(f: Filter, since: Option<int>, us: seq<Attempt>, key: string)
    requires us != []
    ensures OfKey(Window(f, since, us), key) ==
      (if Selected(f, since, us[0]) && KeyOf(us[0]) == key then [us[0]] else []) + OfKey(Window(f, since, us[1..]), key)
  {
    var rest := Window(f, since, us[1..]);
    if Selected(f, since, us[0]) {
      assert Window(f, since, us) == [us[0]] + rest;
      assert ([us[0]] + rest)[1..] == rest;
    } else {
      assert Window(f, since, us) == rest;
    }
  }

  /** Attempts of the key that the whole window selects are all recent enough for the slice. */
  ghost predicate Recent(db: Db, f: Filter, since: int, key: string) {
    forall u :: u in db.attempts && KeyOf(u) == key && Selected(f, None, u) ==> u.at >= since - MARGIN
  }

  function SliceRow(db: Db, f: Filter, since: int, key: string): Row {
    GroupRow(db, Window(f, Some(since), db.attempts), key)
  }

  function WholeRow(db: Db, f: Filter, key: string): Row {
    GroupRow(db, Window(f, None, db.attempts), key)
  }

  /** The slice has the whole group exactly when every attempt of it is recent. */
  lemma SameGroupIff(db: Db, f: Filter, since: int, key: string)
    requires f.start.Some? ==> f.start.value < since
    ensures SliceRow(db, f, since, key) == WholeRow(db, f, key) <==> Recent(db, f, since, key)
  {
    var slice, whole := Window(f, Some(since), db.attempts), Window(f, None, db.attempts);
    if Recent(db, f, since, key) {
      SameGroup(f, Some(since), db.attempts, key);
    } else {
      var u :| u in db.attempts && KeyOf(u) == key && Selected(f, None, u) && u.at < since - MARGIN;
      WindowMembers(f, Some(since), db.attempts, u);
      WindowMembers(f, None, db.attempts, u);
      OfKeyMembers(slice, key, u);
      OfKeyMembers(whole, key, u);
    }
  }

  /** An attempt of the key is too old for the slice, and that shows: the slice lists what is left of
      the group, or should list the whole group. */
  ghost predicate VisiblyCut(db: Db, f: Filter, since: int, key: string) {
    var s, w := SliceRow(db, f, since, key), WholeRow(db, f, key);
    && !Recent(db, f, since, key)
    && (|| (s.attempts != [] && Member(db, f, Some(since), s))
        || (w.attempts != [] && Member(db, f, None, w) && SortTime(w) >= since))
  }

  ghost predicate NoneCut(db: Db, f: Filter, since: int) {
    forall key :: !VisiblyCut(db, f, since, key)
  }

  /** The rows of the slice are the rows of the whole from the cut on. */
  ghost predicate SameFront(db: Db, f: Filter, since: int) {
    forall r :: Member(db, f, Some(since), r) <==> Member(db, f, None, r) && SortTime(r) >= since
  }

  lemma SliceMembers(db: Db, f: Filter, since: int, r: Row)
    requires f.start.Some? ==> f.start.value < since
    requires !VisiblyCut(db, f, since, r.key)
    ensures Member(db, f, Some(since), r) <==> Member(db, f, None, r) && SortTime(r) >= since
  {
    if SortTime(r) >= since {
      SameGroupIff(db, f, since, r.key);
      assert Recent(db, f, since, r.key) || r.attempts == []
             || (r == SliceRow(db, f, since, r.key) ==> !Member(db, f, Some(since), r));
    }
  }

  /** A cut that shows makes the two row sets differ, so the condition is exact. */
  lemma SliceMembersIff(db: Db, f: Filter, since: int)
    requires f.start.Some? ==> f.start.value < since
    ensures SameFront(db, f, since) <==> NoneCut(db, f, since)
  {
    if NoneCut(db, f, since) {
      forall r
        ensures Member(db, f, Some(since), r) <==> Member(db, f, None, r) && SortTime(r) >= since
      {
        SliceMembers(db, f, since, r);
      }
    } else {
      var key :| VisiblyCut(db, f, since, key);
      SameGroupIff(db, f, since, key);
      var s, w := SliceRow(db, f, since, key), WholeRow(db, f, key);
      if s.attempts != [] && Member(db, f, Some(since), s) {
        assert !Member(db, f, None, s);
      } else {
        assert !Member(db, f, Some(since), w);
      }
    }
  }

  /** A group that starts (in either query) at or after the cut lies wholly inside the slice. */
  lemma GroupIsRecent(db: Db, f: Filter, since: int, cut: Option<int>, r: Row)
    requires WellSpaced(db) && (f.start.Some? ==> f.start.value < since)
    requires cut == None || cut == Some(since)
    requires r == GroupRow(db, Window(f, cut, db.attempts), r.key) && r.attempts != []
    requires SortTime(r) >= since
    ensures Recent(db, f, since, r.key)
  {
    var u0 := r.attempts[0];
    OfKeyMembers(Window(f, cut, db.attempts), r.key, u0);
    WindowMembers(f, cut, db.attempts, u0);
    assert r.job.None? ==> u0.at >= since;
    forall u | u in db.attempts && KeyOf(u) == r.key && Selected(f, None, u)
      ensures u.at >= since - MARGIN
    {
      if r.job.None? {
        assert u0.at - u.at <= MARGIN;
      }
    }
  }

  /** Tables as promised cut no group visibly. */
  lemma WellSpacedNoneCut(db: Db, f: Filter, since: int)
    requires WellSpaced(db) && (f.start.Some? ==> f.start.value < since)
    ensures NoneCut(db, f, since)
  {
    forall key
      ensures !VisiblyCut(db, f, since, key)
    {
      if VisiblyCut(db, f, since, key) {
        var s, w := SliceRow(db, f, since, key), WholeRow(db, f, key);
        if s.attempts != [] && Member(db, f, Some(since), s) {
          GroupIsRecent(db, f, since, Some(since), s);
        } else {
          GroupIsRecent(db, f, since, None, w);
        }
      }
    }
  }

  // ---------------------------------------------------------------- sorted sequences

  ghost predicate Sorted(less: Collation, rows: seq<Row>) {
    forall i, k :: 0 <= i < k < |rows| ==> Before(less, rows[i], rows[k])
  }

  ghost predicate DistinctKeys(rows: seq<Row>) {
    forall i, k :: 0 <= i < k < |rows| ==> rows[i].key != rows[k].key
  }

  lemma {:induction false} InsertSorted(less: Collation, r: Row, rows: seq<Row>)
    requires TotalOrder(less) && Sorted(less, rows) && forall s :: s in rows ==> s.key != r.key
    ensures Sorted(less, Insert(less, r, rows))
    ensures forall s :: s in Insert(less, r, rows) <==> s == r || s in rows
  {
    if rows != [] && !Before(less, r, rows[0]) {
      var rest := Insert(less, r, rows[1..]);
      InsertSorted(less, r, rows[1..]);
      forall k | 0 <= k < |rest|
        ensures Before(less, rows[0], rest[k])
      {
        assert rest[k] in rest;
      }
    } else if rows != [] {
      forall k | 0 <= k < |rows|
        ensures Before(less, r, rows[k])
      {
      }
    }
  }

  lemma {:induction false} OrderedSorted(less: Collation, rows: seq<Row>)
    requires TotalOrder(less) && DistinctKeys(rows)
    ensures Sorted(less, Ordered(less, rows))
    ensures forall s :: s in Ordered(less, rows) <==> s in rows
  {
    if rows != [] {
      var n := |rows| - 1;
      OrderedSorted(less, rows[..n]);
      InsertSorted(less, rows[n], Ordered(less, rows[..n]));
      assert rows == rows[..n] + [rows[n]];
    }
  }

  /** Two sorted sequences of the same rows are the same sequence. */
  lemma {:induction false} SortedUnique(less: Collation, a: seq<Row>, b: seq<Row>)
    requires TotalOrder(less) && Sorted(less, a) && Sorted(less, b)
    requires forall r :: r in a <==> r in b
    ensures a == b
  {
    assert a != [] ==> a[0] in a;
    assert b != [] ==> b[0] in b;
    if a != [] && b != [] {
      assert a[0] == b[0];
      forall r
        ensures r in a[1..] <==> r in b[1..]
      {
        assert r in a <==> r == a[0] || r in a[1..];
        assert r in b <==> r == b[0] || r in b[1..];
      }
      SortedUnique(less, a[1..], b[1..]);
    }
  }

  lemma {:induction false} FindJobIn(jobs: seq<Job>, key: string)
    ensures FindJob(jobs, key).Some? ==> FindJob(jobs, key).value in jobs && JobKey(FindJob(jobs, key).value.id) == key
  {
    if jobs != [] {
      FindJobIn(jobs[1..], key);
    }
  }

  lemma JobKeyInjective(i: nat, k: nat)
    requires JobKey(i) == JobKey(k)
    ensures i == k
  {
    assert JobKey(i)[4..] == Digits(i) && JobKey(k)[4..] == Digits(k);
    DigitsInjective(i, k);
  }

  lemma {:induction false} BaresDistinct(db: Db, f: Filter, since: Option<int>, jobs: seq<Job>)
    requires forall i, k :: 0 <= i < k < |jobs| ==> jobs[i].id != jobs[k].id
    ensures DistinctKeys(Bares(db, f, since, jobs))
  {
    if jobs != [] {
      var n := |jobs| - 1;
      BaresDistinct(db, f, since, jobs[..n]);
      forall r | r in Bares(db, f, since, jobs[..n])
        ensures r.key != JobKey(jobs[n].id)
      {
        BaresMembers(db, f, since, jobs[..n], r);
        if r.key == JobKey(jobs[n].id) {
          JobKeyInjective(r.job.value.id, jobs[n].id);
        }
      }
    }
  }

  lemma {:induction false} KeptDistinct(f: Filter, since: Option<int>, rows: seq<Row>)
    requires DistinctKeys(rows)
    ensures DistinctKeys(Kept(f, since, rows))
  {
    if rows != [] {
      var n := |rows| - 1;
      KeptDistinct(f, since, rows[..n]);
      forall r | r in Kept(f, since, rows[..n])
        ensures r.key != rows[n].key
      {
        KeptMembers(f, since, rows[..n], r);
      }
    }
  }

  /** One row per request. */
  lemma RowsDistinct(db: Db, f: Filter, since: Option<int>)
    requires PrimaryKeys(db)
    ensures DistinctKeys(Rows(db, f, since))
  {
    var us := Window(f, since, db.attempts);
    var groups, bares := Groups(db, us, us), Bares(db, f, since, db.jobs);
    BaresDistinct(db, f, since, db.jobs);
    GroupsDistinct(db, us, us);
    forall g, b | g in groups && b in bares
      ensures g.key != b.key
    {
      GroupsMembers(db, us, us, g);
      BaresMembers(db, f, since, db.jobs, b);
      var u :| u in us && KeyOf(u) == g.key;
      WindowMembers(f, since, db.attempts, u);
      assert b.key[0] == 'j';
      if u.requestId.None? {
        assert KeyOf(u)[0] == 'u';
      }
    }
    assert DistinctKeys(groups + bares) by {
      forall i, k | 0 <= i < k < |groups + bares|
        ensures (groups + bares)[i].key != (groups + bares)[k].key
      {
        if i < |groups| <= k {
          assert groups[i] in groups && bares[k - |groups|] in bares;
        }
      }
    }
    KeptDistinct(f, since, groups + bares);
  }

  // ---------------------------------------------------------------- the slice is a prefix

  /** How many rows at the front start at or after the cut. */
  function Front(rows: seq<Row>, since: int): (n: nat)
    ensures n <= |rows|
    ensures forall i :: 0 <= i < n ==> SortTime(rows[i]) >= since
    ensures n < |rows| ==> SortTime(rows[n]) < since
  {
    if rows == [] || SortTime(rows[0]) < since then 0 else 1 + Front(rows[1..], since)
  }

  lemma FrontMembers(less: Collation, rows: seq<Row>, since: int, r: Row)
    requires Sorted(less, rows)
    ensures r in rows[..Front(rows, since)] <==> r in rows && SortTime(r) >= since
  {
    var n := Front(rows, since);
    if r in rows && SortTime(r) >= since {
      var k :| 0 <= k < |rows| && rows[k] == r;
      assert n < k ==> Before(less, rows[n], rows[k]);
      assert rows[..n][k] == r;
    }
  }

  lemma QueryOrdered(db: Db, f: Filter, since: Option<int>, less: Collation)
    requires TotalOrder(less) && PrimaryKeys(db)
    ensures Sorted(less, Ordered(less, Rows(db, f, since)))
    ensures forall r :: r in Ordered(less, Rows(db, f, since)) <==> Member(db, f, since, r)
  {
    RowsDistinct(db, f, since);
    OrderedSorted(less, Rows(db, f, since));
    forall r
      ensures r in Ordered(less, Rows(db, f, since)) <==> Member(db, f, since, r)
    {
      RowsMembers(db, f, since, r);
    }
  }

  /** The ordered slice is the front of the ordered whole, from the cut on, if and only if no group is
      visibly cut. */
  lemma SliceIsFrontIff(db: Db, f: Filter, since: int, less: Collation)
    requires TotalOrder(less) && PrimaryKeys(db)
    requires f.start.Some? ==> f.start.value < since
    ensures var whole := Ordered(less, Rows(db, f, None));
      Ordered(less, Rows(db, f, Some(since))) == whole[..Front(whole, since)] <==> NoneCut(db, f, since)
  {
    var slice, whole := Ordered(less, Rows(db, f, Some(since))), Ordered(less, Rows(db, f, None));
    QueryOrdered(db, f, Some(since), less);
    QueryOrdered(db, f, None, less);
    SliceMembersIff(db, f, since);
    var front := whole[..Front(whole, since)];
    forall r
      ensures r in front <==> Member(db, f, None, r) && SortTime(r) >= since
    {
      FrontMembers(less, whole, since, r);
    }
    if NoneCut(db, f, since) {
      SortedUnique(less, slice, front);
    }
  }

  /** A full page and one row more of a prefix are a full page and one row more of the whole. */
  lemma PagePrefix<T>(slice: seq<T>, all: seq<T>, offset: nat, size: nat)
    requires slice <= all && |Page(slice, offset, size + 1)| > size
    ensures Page(slice, offset, size + 1)[..size] == Page(all, offset, size) && |all| > offset + size
  {
  }

  lemma PageAndMore<T>(all: seq<T>, offset: nat, size: nat)
    ensures var p := Page(all, offset, size + 1);
      && (|p| > size <==> |all| > offset + size)
      && (if |p| > size then p[..size] else p) == Page(all, offset, size)
  {
  }

  /** Slice `i` is tried for this range. */
  predicate Tried(f: Filter, now: int, i: nat)
    requires i < |SLICES|
  {
    f.start.Some? ==> f.start.value < now - SLICES[i]
  }

  /** The rows a fetch cut at `size` gives, and whether it had more. */
  function CutAt<T>(fetched: seq<T>, size: nat): (seq<T>, bool) {
    (if |fetched| > size then fetched[..size] else fetched, |fetched| > size)
  }

  /** The first slice from `i` on that alone fills the page, else the whole window. */
  function FirstFull<T>(fetch: Option<int> -> seq<T>, f: Filter, size: nat, now: int, i: nat): (seq<T>, bool)
    requires i <= |SLICES|
    decreases |SLICES| - i
  {
    if i == |SLICES| || !Tried(f, now, i) then CutAt(fetch(None), size)
    else
      var fetched := fetch(Some(now - SLICES[i]));
      if |fetched| > size then CutAt(fetched, size) else FirstFull(fetch, f, size, now, i + 1)
  }

  function Fetching(db: Db, f: Filter, take: nat, offset: nat, less: Collation): Option<int> -> seq<Row> {
    since => Fetch(db, f, since, take, offset, less)
  }

  function Newest(db: Db, f: Filter, offset: nat, size: nat, now: int, less: Collation): (seq<Row>, bool) {
    FirstFull(Fetching(db, f, size + 1, offset, less), f, size, now, 0)
  }

  function Offset(page: nat, size: nat): nat {
    page * size
  }

  /** What the page should be. */
  ghost predicate RightPage(db: Db, f: Filter, offset: nat, size: nat, less: Collation, page: (seq<Row>, bool)) {
    var all := Ordered(less, Rows(db, f, None));
    page == (Page(all, offset, size), |all| > offset + size)
  }

  /** A slice that cuts nothing and fills the page gives the right one. */
  lemma FilledSliceIsRight(db: Db, f: Filter, since: int, offset: nat, size: nat, less: Collation)
    requires TotalOrder(less) && PrimaryKeys(db) && (f.start.Some? ==> f.start.value < since)
    requires NoneCut(db, f, since)
    ensures var fetched := Fetch(db, f, Some(since), size + 1, offset, less);
      |fetched| > size ==> RightPage(db, f, offset, size, less, (fetched[..size], true))
  {
    var slice, all := Ordered(less, Rows(db, f, Some(since))), Ordered(less, Rows(db, f, None));
    SliceIsFrontIff(db, f, since, less);
    if |Page(slice, offset, size + 1)| > size {
      PagePrefix(slice, all, offset, size);
    }
  }

  /** No slice that is tried cuts a group visibly. */
  ghost predicate Unspoilt(db: Db, f: Filter, now: int) {
    forall k :: 0 <= k < |SLICES| && Tried(f, now, k) ==> NoneCut(db, f, now - SLICES[k])
  }

  lemma {:induction false} FirstFullRight<T>(
      fetch: Option<int> -> seq<T>, f: Filter, size: nat, now: int, i: nat, page: (seq<T>, bool))
    requires i <= |SLICES| && CutAt(fetch(None), size) == page
    requires forall k :: i <= k < |SLICES| && Tried(f, now, k) ==>
      var fetched := fetch(Some(now - SLICES[k])); |fetched| > size ==> CutAt(fetched, size) == page
    ensures FirstFull(fetch, f, size, now, i) == page
    decreases |SLICES| - i
  {
    if i < |SLICES| && Tried(f, now, i) {
      FirstFullRight(fetch, f, size, now, i + 1, page);
    }
  }

  lemma WholeIsRight(db: Db, f: Filter, offset: nat, size: nat, less: Collation)
    ensures RightPage(db, f, offset, size, less, CutAt(Fetch(db, f, None, size + 1, offset, less), size))
  {
    PageAndMore(Ordered(less, Rows(db, f, None)), offset, size);
  }

  lemma FilledSliceSame(db: Db, f: Filter, since: int, offset: nat, size: nat, less: Collation)
    requires TotalOrder(less) && PrimaryKeys(db) && (f.start.Some? ==> f.start.value < since)
    requires NoneCut(db, f, since)
    ensures var fetched := Fetch(db, f, Some(since), size + 1, offset, less);
      |fetched| > size ==> CutAt(fetched, size) == CutAt(Fetch(db, f, None, size + 1, offset, less), size)
  {
    FilledSliceIsRight(db, f, since, offset, size, less);
    WholeIsRight(db, f, offset, size, less);
  }

  lemma SliceFetchSame(db: Db, f: Filter, offset: nat, size: nat, now: int, less: Collation, k: nat)
    requires k < |SLICES| && Tried(f, now, k) && NoneCut(db, f, now - SLICES[k])
    requires TotalOrder(less) && PrimaryKeys(db)
    ensures var fetch := Fetching(db, f, size + 1, offset, less);
      var fetched := fetch(Some(now - SLICES[k])); |fetched| > size ==> CutAt(fetched, size) == CutAt(fetch(None), size)
  {
    FilledSliceSame(db, f, now - SLICES[k], offset, size, less);
  }

  lemma {:induction false} NewestIsWhole(db: Db, f: Filter, offset: nat, size: nat, now: int, less: Collation)
    requires TotalOrder(less) && PrimaryKeys(db) && Unspoilt(db, f, now)
    ensures Newest(db, f, offset, size, now, less) == CutAt(Fetching(db, f, size + 1, offset, less)(None), size)
  {
    var fetch := Fetching(db, f, size + 1, offset, less);
    forall k | 0 <= k < |SLICES| && Tried(f, now, k)
      ensures var fetched := fetch(Some(now - SLICES[k])); |fetched| > size ==>
        CutAt(fetched, size) == CutAt(fetch(None), size)
    {
      SliceFetchSame(db, f, offset, size, now, less, k);
    }
    FirstFullRight(fetch, f, size, now, 0, CutAt(fetch(None), size));
  }

  lemma NewestIsRight(db: Db, f: Filter, offset: nat, size: nat, now: int, less: Collation)
    requires TotalOrder(less) && PrimaryKeys(db) && Unspoilt(db, f, now)
    ensures RightPage(db, f, offset, size, less, Newest(db, f, offset, size, now, less))
  {
    NewestIsWhole(db, f, offset, size, now, less);
    WholeIsRight(db, f, offset, size, less);
  }

  /** Tables as promised spoil nothing, whatever is asked. */
  lemma WellSpacedUnspoilt(db: Db, f: Filter, now: int)
    requires WellSpaced(db)
    ensures Unspoilt(db, f, now)
  {
    forall k | 0 <= k < |SLICES| && Tried(f, now, k)
      ensures NoneCut(db, f, now - SLICES[k])
    {
      WellSpacedNoneCut(db, f, now - SLICES[k]);
    }
  }

  lemma {:induction false} NewestTheorem(db: Db, f: Filter, offset: nat, size: nat, now: int, less: Collation)
    requires TotalOrder(less) && PrimaryKeys(db) && (WellSpaced(db) || Unspoilt(db, f, now))
    ensures RightPage(db, f, offset, size, less, Newest(db, f, offset, size, now, less))
  {
    if WellSpaced(db) {
      WellSpacedUnspoilt(db, f, now);
    }
    NewestIsRight(db, f, offset, size, now, less);
  }

  /** Slices first, the whole window last. */
  method FetchFirstFull<T>(fetch: Option<int> -> seq<T>, f: Filter, size: nat, now: int)
    returns (rows: seq<T>, more: bool)
    ensures (rows, more) == FirstFull(fetch, f, size, now, 0)
  {
    for i := 0 to |SLICES|
      invariant FirstFull(fetch, f, size, now, 0) == FirstFull(fetch, f, size, now, i)
    {
      var since := now - SLICES[i];
      if f.start.Some? && since <= f.start.value {
        break;
      }
      var fetched := fetch(Some(since));
      if |fetched| > size {
        return fetched[..size], true;
      }
    }
    var fetched := fetch(None);
    rows := if |fetched| > size then fetched[..size] else fetched;
    more := |fetched| > size;
  }

  /** One page and whether there is another.  It is the one the whole window gives when no slice that
      is tried cuts a group visibly, as in every table whose requests are spaced as promised. */
  method QueryNewest(db: Db, f: Filter, page: nat, pageSize: nat, now: int, less: Collation)
    returns (rows: seq<Row>, more: bool)
    ensures (rows, more) == Newest(db, f, Offset(page, pageSize), pageSize, now, less)
    ensures TotalOrder(less) && PrimaryKeys(db) && (WellSpaced(db) || Unspoilt(db, f, now)) ==>
      RightPage(db, f, Offset(page, pageSize), pageSize, less, (rows, more))
  {
    var offset := Offset(page, pageSize);
    if TotalOrder(less) && PrimaryKeys(db) && (WellSpaced(db) || Unspoilt(db, f, now)) {
      NewestTheorem(db, f, offset, pageSize, now, less);
    }
    rows, more := FetchFirstFull(Fetching(db, f, pageSize + 1, offset, less), f, pageSize, now);
  }

  // ---------------------------------------------------------------- both promises are needed

  const NO_FILTER := Filter(None, None, None, None, None, None, None, None, None, None)

  const DAY_AGO := -DAY
  const DAYS_AGO := -3 * DAY

  /** A request with an attempt three days ago and one a minute ago, and another request an hour ago. */
  ghost predicate Spread(db: Db, early: Attempt, late: Attempt, other: Attempt) {
    && db.attempts == [early, late, other]
    && KeyOf(early) == KeyOf(late) != KeyOf(other)
    && early.at == DAYS_AGO && late.at == -60 && other.at == -3600
    && FindJob(db.jobs, KeyOf(other)).None?
    && forall j :: j in db.jobs ==> early.requestId == Some(JobKey(j.id)) && j.at == -60 && db.jobs == [j]
  }

  /** Which attempts the last day's slice has of the two requests. */
  lemma SpreadGroups(db: Db, early: Attempt, late: Attempt, other: Attempt, u: Attempt, key: string)
    requires Spread(db, early, late, other)
    ensures u in SliceRow(db, NO_FILTER, DAY_AGO, key).attempts <==> KeyOf(u) == key && (u == late || u == other)
    ensures u in WholeRow(db, NO_FILTER, key).attempts <==> KeyOf(u) == key && (u == early || u == late || u == other)
  {
    WindowMembers(NO_FILTER, Some(DAY_AGO), db.attempts, u);
    WindowMembers(NO_FILTER, None, db.attempts, u);
    OfKeyMembers(Window(NO_FILTER, Some(DAY_AGO), db.attempts), key, u);
    OfKeyMembers(Window(NO_FILTER, None, db.attempts), key, u);
  }

  lemma OnlyAttempt(r: Row, u: Attempt)
    requires u in r.attempts && forall v :: v in r.attempts ==> v == u
    requires r.job.Some? ==> r.job.value.at == u.at
    ensures SortTime(r) == u.at && RowOk(NO_FILTER, r)
  {
    var i :| 0 <= i < |r.attempts| && r.attempts[i] == u;
    assert Hit(NO_FILTER, r.attempts[i]);
    assert forall k :: 0 <= k < |r.attempts| ==> r.attempts[k] in r.attempts;
  }

  /** The slice lists two rows, what is left of the request first. */
  lemma SpreadMembers(db: Db, early: Attempt, late: Attempt, other: Attempt)
    requires Spread(db, early, late, other)
    ensures var s, o := SliceRow(db, NO_FILTER, DAY_AGO, KeyOf(late)), SliceRow(db, NO_FILTER, DAY_AGO, KeyOf(other));
      && Member(db, NO_FILTER, Some(DAY_AGO), s) && SortTime(s) == -60 && late in s.attempts && early !in s.attempts
      && Member(db, NO_FILTER, Some(DAY_AGO), o) && SortTime(o) == -3600
  {
    var s, o := SliceRow(db, NO_FILTER, DAY_AGO, KeyOf(late)), SliceRow(db, NO_FILTER, DAY_AGO, KeyOf(other));
    forall u: Attempt
      ensures u in s.attempts <==> u == late
      ensures u in o.attempts <==> u == other
    {
      SpreadGroups(db, early, late, other, u, KeyOf(late));
      SpreadGroups(db, early, late, other, u, KeyOf(other));
    }
    FindJobIn(db.jobs, KeyOf(late));
    OnlyAttempt(s, late);
    OnlyAttempt(o, other);
  }

  lemma SpreadOnly(db: Db, early: Attempt, late: Attempt, other: Attempt, r: Row)
    requires Spread(db, early, late, other) && Member(db, NO_FILTER, Some(DAY_AGO), r)
    ensures r == SliceRow(db, NO_FILTER, DAY_AGO, KeyOf(late)) || r == SliceRow(db, NO_FILTER, DAY_AGO, KeyOf(other))
  {
    if r.attempts != [] {
      SpreadGroups(db, early, late, other, r.attempts[0], r.key);
    }
  }

  /** The whole query never lists the request that way. */
  lemma SpreadNotWhole(db: Db, early: Attempt, late: Attempt, other: Attempt)
    requires Spread(db, early, late, other)
    ensures !Member(db, NO_FILTER, None, SliceRow(db, NO_FILTER, DAY_AGO, KeyOf(late)))
  {
    SpreadGroups(db, early, late, other, early, KeyOf(late));
    SpreadGroups(db, early, late, other, late, KeyOf(late));
  }

  /** A page of one row then differs: the list shows half a request, which the whole query never does. */
  lemma SpreadPageIsWrong(db: Db, early: Attempt, late: Attempt, other: Attempt, less: Collation)
    requires Spread(db, early, late, other) && TotalOrder(less) && PrimaryKeys(db)
    ensures var s := SliceRow(db, NO_FILTER, DAY_AGO, KeyOf(late));
      && Newest(db, NO_FILTER, 0, 1, 0, less) == ([s], true)
      && !RightPage(db, NO_FILTER, 0, 1, less, ([s], true))
  {
    var s, o := SliceRow(db, NO_FILTER, DAY_AGO, KeyOf(late)), SliceRow(db, NO_FILTER, DAY_AGO, KeyOf(other));
    SpreadMembers(db, early, late, other);
    SpreadNotWhole(db, early, late, other);
    QueryOrdered(db, NO_FILTER, Some(DAY_AGO), less);
    QueryOrdered(db, NO_FILTER, None, less);
    var slice, all := Ordered(less, Rows(db, NO_FILTER, Some(DAY_AGO))), Ordered(less, Rows(db, NO_FILTER, None));
    assert s in slice && o in slice;
    assert slice[0] in slice;
    SpreadOnly(db, early, late, other, slice[0]);
    NewestHead(less, slice, s, o);
    assert s !in all;
    FirstSliceAnswers(db, less, slice);
  }

  /** The newer of the only two rows comes first. */
  lemma NewestHead(less: Collation, rows: seq<Row>, s: Row, o: Row)
    requires Sorted(less, rows) && s in rows && o in rows && SortTime(s) > SortTime(o)
    requires rows[0] == s || rows[0] == o
    ensures |rows| >= 2 && rows[0] == s
  {
    var k :| 0 <= k < |rows| && rows[k] == s;
    assert k > 0 ==> Before(less, rows[0], rows[k]);
  }

  lemma FirstFilled(fetch: Option<int> -> seq<Row>, fetched: seq<Row>)
    requires fetch(Some(DAY_AGO)) == fetched && |fetched| == 2
    ensures FirstFull(fetch, NO_FILTER, 1, 0, 0) == ([fetched[0]], true)
  {
    assert 0 - SLICES[0] == DAY_AGO && fetched[..1] == [fetched[0]];
  }

  lemma FirstSliceAnswers(db: Db, less: Collation, slice: seq<Row>)
    requires slice == Ordered(less, Rows(db, NO_FILTER, Some(DAY_AGO))) && |slice| >= 2
    ensures Newest(db, NO_FILTER, 0, 1, 0, less) == ([slice[0]], true)
  {
    var fetch := Fetching(db, NO_FILTER, 2, 0, less);
    assert 0 - SLICES[0] == DAY_AGO && Tried(NO_FILTER, 0, 0);
    assert fetch(Some(DAY_AGO)) == slice[0..2];
    FirstFilled(fetch, slice[0..2]);
  }

  function Try(id: nat, request: string, at: int): Attempt {
    Attempt(id, Some(request), at, 0, None, "", "", "", true)
  }

  /** Attempts three days ago and a minute ago for `request`, one an hour ago for another one. */
  function SpreadDb(request: string, jobs: seq<Job>): Db {
    Db([Try(1, request, DAYS_AGO), Try(2, request, -60), Try(3, "b", -3600)], jobs)
  }

  /** A direct request wider than the margin is enough. */
  lemma WideRequestIsCut(less: Collation)
    requires TotalOrder(less)
    ensures var db := SpreadDb("a", []);
      && PrimaryKeys(db)
      && (forall u :: u in db.attempts ==> Direct(db, u))
      && !RightPage(db, NO_FILTER, 0, 1, less, Newest(db, NO_FILTER, 0, 1, 0, less))
  {
    SpreadPageIsWrong(SpreadDb("a", []), Try(1, "a", DAYS_AGO), Try(2, "a", -60), Try(3, "b", -3600), less);
  }

  lemma JobSpread(job: Job)
    requires job.at == -60
    ensures var key := JobKey(job.id);
      && Spread(SpreadDb(key, [job]), Try(1, key, DAYS_AGO), Try(2, key, -60), Try(3, "b", -3600))
      && !Direct(SpreadDb(key, [job]), Try(1, key, DAYS_AGO)) && !Direct(SpreadDb(key, [job]), Try(2, key, -60))
  {
    assert JobKey(job.id)[0] == 'j';
  }

  /** And so is an attempt long before its job was created, while every direct request is narrow. */
  lemma EarlyAttemptIsCut(less: Collation, job: Job)
    requires TotalOrder(less) && job.at == -60
    ensures var db := SpreadDb(JobKey(job.id), [job]);
      && PrimaryKeys(db)
      && (forall u :: u in db.attempts && Direct(db, u) ==> u == Try(3, "b", -3600))
      && !RightPage(db, NO_FILTER, 0, 1, less, Newest(db, NO_FILTER, 0, 1, 0, less))
  {
    var key := JobKey(job.id);
    JobSpread(job);
    SpreadPageIsWrong(SpreadDb(key, [job]), Try(1, key, DAYS_AGO), Try(2, key, -60), Try(3, "b", -3600), less);
  }
}
