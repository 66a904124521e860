/**
 What the request list shows, told by the columns: which rows each filter keeps, which attempts and
 which job a row holds, and where on the list it stands.
 */
module RequestMeaning {
  import opened Wrappers
  import opened Decimal
  import opened RequestList

  predicate JobIs(r: Row, status: string) {
    r.job.Some? && r.job.value.status == status
  }

  /** No job, or a job in none of the five states. */
  predicate NoJobState(r: Row) {
    !JobIs(r, "pending") && !JobIs(r, "running") && !JobIs(r, "done") && !JobIs(r, "error") && !JobIs(r, "cancelled")
  }

  predicate SomeAttemptOk(r: Row) {
    exists i :: 0 <= i < |r.attempts| && r.attempts[i].ok
  }

  // ---------------------------------------------------------------- filters that select alike

  /** Two filters that select the same attempts of a key leave the same group. */
  lemma {:induction false} GroupAlike(f: Filter, g: Filter, since: Option<int>, us: seq<Attempt>, key: string)
    requires forall u :: u in us && KeyOf(u) == key ==> (Selected(f, since, u) <==> Selected(g, since, u))
    ensures OfKey(Window(f, since, us), key) == OfKey(Window(g, since, us), key)
  {
    if us != [] {
      GroupAlike(f, g, since, us[1..], key);
      OfKeyWindow(f, since, us, key);
      OfKeyWindow(g, since, us, key);
    }
  }

  lemma AllAlike(db: Db, f: Filter, g: Filter, since: Option<int>, key: string)
    requires forall u :: Selected(f, since, u) <==> Selected(g, since, u)
    ensures GroupRow(db, Window(f, since, db.attempts), key) == GroupRow(db, Window(g, since, db.attempts), key)
  {
    GroupAlike(f, g, since, db.attempts, key);
  }

  /** An attempt of a row is a selected attempt of its key. */
  lemma AttemptOfRow(db: Db, f: Filter, since: Option<int>, r: Row, u: Attempt)
    requires r == GroupRow(db, Window(f, since, db.attempts), r.key)
    ensures u in r.attempts <==> u in db.attempts && KeyOf(u) == r.key && Selected(f, since, u)
  {
    OfKeyMembers(Window(f, since, db.attempts), r.key, u);
    WindowMembers(f, since, db.attempts, u);
  }

  predicate SomeHit(f: Filter, r: Row) {
    exists i :: 0 <= i < |r.attempts| && Hit(f, r.attempts[i])
  }

  /** Since when, in which state, under which label. */
  predicate Outer(f: Filter, since: Option<int>, r: Row) {
    && (since.Some? ==> SortTime(r) >= since.value)
    && Matches(f.status, State(r))
    && (f.tag.Some? ==> r.job.Some? && LabelOk(f, r.job.value))
  }

  lemma Grouped(db: Db, f: Filter, since: Option<int>, r: Row)
    requires r.attempts != []
    ensures r in Rows(db, f, since) <==>
      r == GroupRow(db, Window(f, since, db.attempts), r.key) && SomeHit(f, r) && Outer(f, since, r)
  {
    RowsMembers(db, f, since, r);
  }

  lemma Bare(db: Db, f: Filter, since: Option<int>, r: Row)
    requires r.attempts == []
    ensures r in Rows(db, f, since) <==>
      && r.job.Some? && r.job.value in db.jobs && r.key == JobKey(r.job.value.id)
      && IsBare(db, f, since, r.job.value) && Outer(f, since, r)
  {
    RowsMembers(db, f, since, r);
  }

  lemma NoHitAsked(f: Filter, r: Row)
    requires f.provider.None? && f.model.None? && r.attempts != []
    ensures SomeHit(f, r)
  {
    assert Hit(f, r.attempts[0]);
  }

  lemma SameHit(f: Filter, g: Filter, r: Row)
    requires f.provider == g.provider && f.model == g.model
    ensures SomeHit(f, r) <==> SomeHit(g, r)
  {
    assert forall i :: 0 <= i < |r.attempts| ==> (Hit(f, r.attempts[i]) <==> Hit(g, r.attempts[i]));
  }

  /** Whichever way a row is listed, it is listed the same by a filter that differs outside. */
  lemma SameInner(db: Db, f: Filter, g: Filter, since: Option<int>, r: Row)
    requires g == f.(status := g.status)
    ensures Outer(f, since, r) && Outer(g, since, r) ==> (r in Rows(db, f, since) <==> r in Rows(db, g, since))
    ensures r in Rows(db, f, since) ==> Outer(f, since, r)
  {
    AllAlike(db, f, g, since, r.key);
    SameHit(f, g, r);
    if r.attempts == [] {
      Bare(db, f, since, r);
      Bare(db, g, since, r);
    } else {
      Grouped(db, f, since, r);
      Grouped(db, g, since, r);
    }
  }

  // ---------------------------------------------------------------- the status filter

  lemma StatusOnly(db: Db, f: Filter, since: Option<int>, r: Row, status: string)
    requires f.status.None?
    ensures r in Rows(db, f.(status := Some(status)), since) <==> r in Rows(db, f, since) && State(r) == status
  {
    var g := f.(status := Some(status));
    SameInner(db, f, g, since, r);
    SameInner(db, g, f, since, r);
  }

  /** What each status of the filter selects from the rows listed without it. */
  lemma StatusMeans(db: Db, f: Filter, since: Option<int>, r: Row)
    requires f.status.None? && r in Rows(db, f, since)
    ensures r in Rows(db, f.(status := Some("failed")), since) <==>
      JobIs(r, "error") || (NoJobState(r) && !SomeAttemptOk(r))
    ensures r in Rows(db, f.(status := Some("ok")), since) <==>
      JobIs(r, "done") || (NoJobState(r) && SomeAttemptOk(r))
    ensures r in Rows(db, f.(status := Some("cancelled")), since) <==> JobIs(r, "cancelled")
    ensures r in Rows(db, f.(status := Some("pending")), since) <==> JobIs(r, "pending")
    ensures r in Rows(db, f.(status := Some("running")), since) <==> JobIs(r, "running")
  {
    StatusOnly(db, f, since, r, "failed");
    StatusOnly(db, f, since, r, "ok");
    StatusOnly(db, f, since, r, "cancelled");
    StatusOnly(db, f, since, r, "pending");
    StatusOnly(db, f, since, r, "running");
  }

  const STATUSES := ["ok", "failed", "pending", "running", "cancelled"]

  /** Every row is listed under exactly one status, and under a status nothing but such rows. */
  lemma OneStatus(db: Db, f: Filter, since: Option<int>, r: Row)
    requires f.status.None?
    ensures r in Rows(db, f, since) <==>
      exists k :: 0 <= k < |STATUSES| && r in Rows(db, f.(status := Some(STATUSES[k])), since)
    ensures forall i, k :: 0 <= i < k < |STATUSES| && r in Rows(db, f.(status := Some(STATUSES[i])), since) ==>
      r !in Rows(db, f.(status := Some(STATUSES[k])), since)
  {
    var listed := r in Rows(db, f, since);
    forall k | 0 <= k < |STATUSES|
      ensures r in Rows(db, f.(status := Some(STATUSES[k])), since) <==> listed && State(r) == STATUSES[k]
    {
      StatusOnly(db, f, since, r, STATUSES[k]);
    }
    var at := StatusNumber(r);
  }

  lemma StatusNumber(r: Row) returns (k: nat)
    ensures k < |STATUSES| && STATUSES[k] == State(r)
    ensures forall i, k :: 0 <= i < k < |STATUSES| ==> STATUSES[i] != STATUSES[k]
  {
    assert STATUSES[0] == "ok" && STATUSES[1] == "failed" && STATUSES[2] == "pending";
    assert STATUSES[3] == "running" && STATUSES[4] == "cancelled";
    k := if State(r) == "ok" then 0 else if State(r) == "failed" then 1
         else if State(r) == "pending" then 2 else if State(r) == "running" then 3 else 4;
    assert |STATUSES[0]| == 2 && |STATUSES[1]| == 6 && |STATUSES[2]| == 7 && |STATUSES[3]| == 7 && |STATUSES[4]| == 9;
    assert STATUSES[2][0] == 'p' && STATUSES[3][0] == 'r';
  }

  // ---------------------------------------------------------------- provider and model

  /** A request answers to a provider by one of its attempts, an agent run by its own report. */
  lemma ProviderMeans(db: Db, f: Filter, since: Option<int>, r: Row, provider: string)
    requires f.provider.None? && f.model.None?
    ensures r in Rows(db, f.(provider := Some(provider)), since) <==>
      && r in Rows(db, f, since)
      && if r.attempts == [] then r.job.Some? && r.job.value.agent && r.job.value.provider == Some(provider)
         else exists i :: 0 <= i < |r.attempts| && r.attempts[i].provider == provider
  {
    var g := f.(provider := Some(provider));
    if r.attempts == [] {
      Bare(db, f, since, r);
      Bare(db, g, since, r);
    } else {
      AllAlike(db, f, g, since, r.key);
      Grouped(db, f, since, r);
      Grouped(db, g, since, r);
      NoHitAsked(f, r);
      assert forall i :: 0 <= i < |r.attempts| ==> (Hit(g, r.attempts[i]) <==> r.attempts[i].provider == provider);
    }
  }

  /** Provider and model together ask for one attempt that has both. */
  predicate BothHit(f: Filter, r: Row, model: string) {
    exists i ::
      && 0 <= i < |r.attempts| && r.attempts[i].model == model
      && (f.provider.Some? ==> r.attempts[i].provider == f.provider.value)
  }

  lemma ModelMeans(db: Db, f: Filter, since: Option<int>, r: Row, model: string)
    requires f.model.None?
    ensures r in Rows(db, f.(model := Some(model)), since) <==>
      && r in Rows(db, f, since)
      && if r.attempts == [] then r.job.Some? && r.job.value.agent && r.job.value.model == Some(model)
         else BothHit(f, r, model)
  {
    if r.attempts == [] {
      BareModel(db, f, since, r, model);
    } else {
      var g := f.(model := Some(model));
      AllAlike(db, f, g, since, r.key);
      Grouped(db, f, since, r);
      Grouped(db, g, since, r);
      ModelHit(f, r, model);
    }
  }

  lemma BareModel(db: Db, f: Filter, since: Option<int>, r: Row, model: string)
    requires f.model.None? && r.attempts == []
    ensures r in Rows(db, f.(model := Some(model)), since) <==>
      r in Rows(db, f, since) && r.job.Some? && r.job.value.agent && r.job.value.model == Some(model)
  {
    Bare(db, f, since, r);
    Bare(db, f.(model := Some(model)), since, r);
  }

  lemma ModelHit(f: Filter, r: Row, model: string)
    requires f.model.None?
    ensures var g := f.(model := Some(model));
      && (SomeHit(g, r) ==> SomeHit(f, r))
      && (SomeHit(g, r) <==> BothHit(f, r, model))
  {
    var g := f.(model := Some(model));
    assert forall i :: 0 <= i < |r.attempts| ==>
      (Hit(g, r.attempts[i]) <==>
       Hit(f, r.attempts[i]) && r.attempts[i].model == model);
    assert forall i :: 0 <= i < |r.attempts| ==>
      (Hit(f, r.attempts[i]) <==>
       (f.provider.Some? ==> r.attempts[i].provider == f.provider.value));
  }

  // ---------------------------------------------------------------- kind and label

  /** The keys of job attempts are those that begin with "job-". */
  lemma KeyOfJob(u: Attempt)
    ensures OfJob(u) <==> "job-" <= KeyOf(u)
  {
    if u.requestId.None? {
      assert KeyOf(u)[0] == 'u' && "job-"[0] == 'j';
    }
  }

  lemma RowOfJob(db: Db, r: Row)
    requires r.job == FindJob(db.jobs, r.key) && r.job.Some?
    ensures "job-" <= r.key
  {
    FindJobIn(db.jobs, r.key);
  }

  /** Selecting by kind keeps or drops whole groups. */
  lemma KindGroup(db: Db, f: Filter, since: Option<int>, r: Row, kind: Kind)
    requires f.kind.None? && kind != AgentKind
    ensures var w, w' := Window(f, since, db.attempts), Window(f.(kind := Some(kind)), since, db.attempts);
      OfKey(w', r.key) == if "job-" <= r.key <==> kind == JobKind then OfKey(w, r.key) else []
  {
    var g := f.(kind := Some(kind));
    forall u | u in db.attempts && KeyOf(u) == r.key
      ensures Selected(g, since, u) <==> Selected(f, since, u) && ("job-" <= r.key <==> kind == JobKind)
    {
      KeyOfJob(u);
    }
    if "job-" <= r.key <==> kind == JobKind {
      GroupAlike(f, g, since, db.attempts, r.key);
    } else {
      EmptyGroup(db, g, since, r.key);
    }
  }

  lemma EmptyGroup(db: Db, f: Filter, since: Option<int>, key: string)
    requires forall u :: u in db.attempts && KeyOf(u) == key ==> !Selected(f, since, u)
    ensures OfKey(Window(f, since, db.attempts), key) == []
  {
    var us := OfKey(Window(f, since, db.attempts), key);
    if us != [] {
      OfKeyMembers(Window(f, since, db.attempts), key, us[0]);
      WindowMembers(f, since, db.attempts, us[0]);
    }
  }

  /** "job" and "direct" part the list by the request key; "agent" keeps the agent runs without attempts. */
  lemma KindMeans(db: Db, f: Filter, since: Option<int>, r: Row)
    requires f.kind.None? && r in Rows(db, f, since)
    ensures r in Rows(db, f.(kind := Some(JobKind)), since) <==> "job-" <= r.key
    ensures r in Rows(db, f.(kind := Some(DirectKind)), since) <==> !("job-" <= r.key)
    ensures r in Rows(db, f.(kind := Some(AgentKind)), since) <==>
      r.attempts == [] && r.job.Some? && r.job.value.agent
  {
    KindOnly(db, f, since, r, JobKind);
    KindOnly(db, f, since, r, DirectKind);
    var g := f.(kind := Some(AgentKind));
    if r.attempts == [] {
      Bare(db, f, since, r);
      Bare(db, g, since, r);
    } else {
      Grouped(db, g, since, r);
      EmptyGroup(db, g, since, r.key);
    }
  }

  lemma KindOnly(db: Db, f: Filter, since: Option<int>, r: Row, kind: Kind)
    requires f.kind.None? && kind != AgentKind && r in Rows(db, f, since)
    ensures r in Rows(db, f.(kind := Some(kind)), since) <==> ("job-" <= r.key <==> kind == JobKind)
  {
    var g := f.(kind := Some(kind));
    if r.attempts == [] {
      Bare(db, f, since, r);
      Bare(db, g, since, r);
    } else {
      Grouped(db, f, since, r);
      Grouped(db, g, since, r);
      KindGroup(db, f, since, r, kind);
      SameHit(f, g, r);
    }
  }

  /** A label selects the rows of the jobs that carry it, under the key asked for or under either. */
  lemma LabelMeans(db: Db, f: Filter, since: Option<int>, r: Row, value: string)
    requires f.tag.None? && r in Rows(db, f, since)
    ensures r in Rows(db, f.(tag := Some(Label(Some(ExamRunId), value))), since) <==>
      r.job.Some? && r.job.value.examLabel == Some(value)
    ensures r in Rows(db, f.(tag := Some(Label(Some(RunId), value))), since) <==>
      r.job.Some? && r.job.value.runLabel == Some(value)
    ensures r in Rows(db, f.(tag := Some(Label(None, value))), since) <==>
      r.job.Some? && (r.job.value.examLabel == Some(value) || r.job.value.runLabel == Some(value))
  {
    LabelOnly(db, f, since, r, Label(Some(ExamRunId), value));
    LabelOnly(db, f, since, r, Label(Some(RunId), value));
    LabelOnly(db, f, since, r, Label(None, value));
  }

  lemma LabelOnly(db: Db, f: Filter, since: Option<int>, r: Row, l: Label)
    requires f.tag.None? && r in Rows(db, f, since)
    ensures r in Rows(db, f.(tag := Some(l)), since) <==> r.job.Some? && LabelOk(f.(tag := Some(l)), r.job.value)
  {
    var g := f.(tag := Some(l));
    if r.attempts == [] {
      Bare(db, f, since, r);
      Bare(db, g, since, r);
    } else {
      Grouped(db, f, since, r);
      Grouped(db, g, since, r);
      if r.job.Some? {
        LabelGroup(db, f, since, r, l);
        SameHit(f, g, r);
      }
    }
  }

  lemma LabelGroup(db: Db, f: Filter, since: Option<int>, r: Row, l: Label)
    requires f.tag.None? && r.job == FindJob(db.jobs, r.key) && r.job.Some?
    ensures OfKey(Window(f.(tag := Some(l)), since, db.attempts), r.key) == OfKey(Window(f, since, db.attempts), r.key)
  {
    RowOfJob(db, r);
    forall u | u in db.attempts && KeyOf(u) == r.key
      ensures Selected(f.(tag := Some(l)), since, u) <==> Selected(f, since, u)
    {
      KeyOfJob(u);
    }
    GroupAlike(f.(tag := Some(l)), f, since, db.attempts, r.key);
  }

  // ---------------------------------------------------------------- what is listed at all

  /** What the attempt filters ask of one attempt. */
  predicate Wanted(f: Filter, at: int, projectId: int, capability: string) {
    && (f.start.Some? ==> f.start.value <= at)
    && (f.end.Some? ==> at < f.end.value)
    && (f.projectId.Some? ==> projectId == f.projectId.value)
    && (f.capability.Some? ==> capability == f.capability.value)
  }

  /** A filter of window, project, workflow and capability alone. */
  predicate Simple(f: Filter) {
    f.provider.None? && f.model.None? && f.status.None? && f.kind.None? && f.tag.None?
  }

  /** An attempt stands in the list, in the row of its request, if and only if it is in the window and
      of the project, the workflow and the capability asked for. */
  lemma AttemptListedIff(db: Db, f: Filter, u: Attempt)
    requires Simple(f)
    ensures (exists r :: r in Rows(db, f, None) && u in r.attempts) <==>
      u in db.attempts && Wanted(f, u.at, u.projectId, u.capability) && (f.workflow.Some? ==> u.workflow == f.workflow)
  {
    var wanted := u in db.attempts && Wanted(f, u.at, u.projectId, u.capability)
                  && (f.workflow.Some? ==> u.workflow == f.workflow);
    assert wanted <==> u in db.attempts && Selected(f, None, u);
    var row := GroupRow(db, Window(f, None, db.attempts), KeyOf(u));
    AttemptOfRow(db, f, None, row, u);
    RowsMembers(db, f, None, row);
    if wanted {
      assert u in row.attempts;
      assert Hit(f, row.attempts[0]);
    }
    forall r | r in Rows(db, f, None) && u in r.attempts
      ensures wanted
    {
      RowsMembers(db, f, None, r);
      AttemptOfRow(db, f, None, r, u);
    }
  }

  /** A job stands in the list without attempts if and only if it has none at all, is in the window and
      of the project and the capability asked for, and no workflow is. */
  lemma JobListedIff(db: Db, f: Filter, j: Job)
    requires Simple(f)
    ensures Row("job-" + Digits(j.id), [], Some(j)) in Rows(db, f, None) <==>
      && j in db.jobs && Wanted(f, j.at, j.projectId, j.capability) && f.workflow.None?
      && forall i :: 0 <= i < |db.attempts| ==> db.attempts[i].requestId != Some("job-" + Digits(j.id))
  {
    RowsMembers(db, f, None, Row("job-" + Digits(j.id), [], Some(j)));
  }

  /** A row is one request: its attempts carry its key, or are without one and alone, and its job is the
      one the key names. */
  lemma RowMeans(db: Db, f: Filter, since: Option<int>, r: Row, i: nat)
    requires PrimaryKeys(db) && r in Rows(db, f, since)
    ensures i < |r.attempts| ==>
      var u := r.attempts[i];
      u.requestId == Some(r.key) || (u.requestId.None? && r.key == "u-" + Digits(u.id))
    ensures r.attempts == [] ==> r.job.Some?
    ensures r.job.Some? <==> exists j :: j in db.jobs && r.key == "job-" + Digits(j.id)
    ensures forall j :: j in db.jobs && r.key == "job-" + Digits(j.id) ==> r.job == Some(j)
  {
    RowsMembers(db, f, since, r);
    if i < |r.attempts| {
      AttemptOfRow(db, f, since, r, r.attempts[i]);
    }
    FindJobIn(db.jobs, r.key);
    forall j | j in db.jobs && r.key == JobKey(j.id)
      ensures r.job == Some(j)
    {
      JobFound(db.jobs, j);
      if r.attempts == [] {
        JobKeyInjective(j.id, r.job.value.id);
      }
    }
  }

  lemma {:induction false} JobFound(jobs: seq<Job>, j: Job)
    requires j in jobs && forall i, k :: 0 <= i < k < |jobs| ==> jobs[i].id != jobs[k].id
    ensures FindJob(jobs, JobKey(j.id)) == Some(j)
  {
    if jobs[0] != j {
      if JobKey(jobs[0].id) == JobKey(j.id) {
        JobKeyInjective(jobs[0].id, j.id);
      }
      JobFound(jobs[1..], j);
    }
  }

  // ---------------------------------------------------------------- where a row stands

  /** A job's request starts with the job, any other with its earliest attempt. */
  ghost predicate StartsAt(r: Row, at: int) {
    if r.job.Some? then at == r.job.value.at
    else
      && (exists i :: 0 <= i < |r.attempts| && r.attempts[i].at == at)
      && (forall i :: 0 <= i < |r.attempts| ==> at <= r.attempts[i].at)
  }

  /** `all` lists exactly the rows of the whole window, newest first, equal times by falling key. */
  ghost predicate NewestFirst(db: Db, f: Filter, less: Collation, all: seq<Row>) {
    && (forall r :: r in all <==> r in Rows(db, f, None))
    && (forall i, k, s, t :: 0 <= i < k < |all| && StartsAt(all[i], s) && StartsAt(all[k], t) ==>
          s > t || (s == t && less(all[k].key, all[i].key)))
  }

  /** Page `page` holds the rows from number `page * size` on, `size` of them while they last, and
      another page is announced exactly when rows are left. */
  ghost predicate PageOf(all: seq<Row>, page: nat, size: nat, rows: seq<Row>, more: bool) {
    && (more <==> |all| > page * size + size)
    && (more ==> |rows| == size)
    && (!more ==> |rows| == if |all| > page * size then |all| - page * size else 0)
    && (forall i :: 0 <= i < |rows| ==> rows[i] == all[page * size + i])
  }

  lemma StartTime(db: Db, f: Filter, since: Option<int>, r: Row, at: int)
    requires Member(db, f, since, r)
    ensures StartsAt(r, at) <==> at == SortTime(r)
  {
  }

  /** The page that is shown, in a table that no tried slice spoils. */
  lemma NewestMeans(db: Db, f: Filter, page: nat, size: nat, now: int, less: Collation)
    requires TotalOrder(less) && PrimaryKeys(db) && (WellSpaced(db) || Unspoilt(db, f, now))
    ensures var (rows, more) := Newest(db, f, Offset(page, size), size, now, less);
      exists all :: NewestFirst(db, f, less, all) && PageOf(all, page, size, rows, more)
  {
    NewestTheorem(db, f, Offset(page, size), size, now, less);
    var all := Ordered(less, Rows(db, f, None));
    QueryOrdered(db, f, None, less);
    forall r
      ensures r in all <==> r in Rows(db, f, None)
    {
      RowsMembers(db, f, None, r);
    }
    forall i, k, s, t | 0 <= i < k < |all| && StartsAt(all[i], s) && StartsAt(all[k], t)
      ensures s > t || (s == t && less(all[k].key, all[i].key))
    {
      StartTime(db, f, None, all[i], s);
      StartTime(db, f, None, all[k], t);
      assert Before(less, all[i], all[k]);
    }
    var (rows, more) := Newest(db, f, Offset(page, size), size, now, less);
    assert NewestFirst(db, f, less, all) && PageOf(all, page, size, rows, more);
  }
}
