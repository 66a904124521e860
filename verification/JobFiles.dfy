/**
 Result files of an agent job: agent/job_files.py.  The base64 of an image can be moved out of
 `result_meta` into rows of deep_job_files; serving must not show the difference.
 */
module JobFiles {
  import opened Wrappers
  import opened Json
  import opened Base64

  type File = Message

  /** FileRef.model_dump: these two fields are text or null. */
  predicate WellTyped(f: File) {
    && (Get(f, "content_b64").Null? || Get(f, "content_b64").Str?)
    && (Get(f, "expires_at").Null? || Get(f, "expires_at").Str?)
  }

  /** Python's `<` on text. */
  predicate TextLess(a: string, b: string) {
    b != "" && (a == "" || a[0] < b[0] || (a[0] == b[0] && TextLess(a[1..], b[1..])))
  }

  predicate Expired(f: File, now: string)
    requires WellTyped(f)
  {
    Truthy(Get(f, "expires_at")) && TextLess(Get(f, "expires_at").s, now)
  }

  function Public(f: File): File {
    f - {"content_ref"}
  }

  // ---------------------------------------------------------------- storing

  /** The extension table, SHA-256, and the reading of an ISO time as naive UTC. */
  datatype Rules = Rules(mime: Json -> string, sha256: seq<Byte> -> string, naiveUtc: Json -> Option<string>)

  const OCTETS := "application/octet-stream"

  /** A row of deep_job_files. */
  datatype FileRow = FileRow(sha256: string, mime: string, size: nat, expiresAt: Option<string>, data: seq<Byte>)

  function RowFor(rules: Rules, f: File, data: seq<Byte>): FileRow {
    FileRow(rules.sha256(data), rules.mime(Get(f, "path")), |data|, rules.naiveUtc(Get(f, "expires_at")), data)
  }

  /** The bytes that move to a row; None: the file stays inline. */
  function Moved(rules: Rules, f: File): Option<seq<Byte>>
    requires WellTyped(f)
  {
    if Truthy(Get(f, "content_b64")) && rules.mime(Get(f, "path")) != OCTETS
        then DecodeExact(Get(f, "content_b64").s) else None
  }

  function Stored(rules: Rules, f: File, idx: nat): File
    requires WellTyped(f)
  {
    if Moved(rules, f).None? then f else f["content_b64" := Null]["content_ref" := Num(idx)]
  }

  /** The bytes of a file move exactly when its content is the non-empty base64 of them and its name has
      a known image type; the row then has its digest, type, size, expiry and bytes, and the entry refers
      to it instead. */
  lemma MovesIff(rules: Rules, f: File, idx: nat, data: seq<Byte>)
    requires WellTyped(f)
    ensures Moved(rules, f) == Some(data) <==>
      && Get(f, "content_b64") == Str(Encode(data)) && Encode(data) != ""
      && rules.mime(Get(f, "path")) != "application/octet-stream"
    ensures Moved(rules, f) == Some(data) ==>
      && Get(Stored(rules, f, idx), "content_b64") == Null && Get(Stored(rules, f, idx), "content_ref") == Num(idx)
      && RowFor(rules, f, data) == FileRow(rules.sha256(data), rules.mime(Get(f, "path")), |data|,
                                           rules.naiveUtc(Get(f, "expires_at")), data)
    ensures Moved(rules, f).None? ==> Stored(rules, f, idx) == f
    ensures forall key :: key != "content_b64" && key != "content_ref" ==>
      Get(Stored(rules, f, idx), key) == Get(f, key)
  {
    if Get(f, "content_b64").Str? {
      ExactIff(Get(f, "content_b64").s, data);
    }
  }

  /** deep_job_files: (job_id, idx) -> row */
  type Table = map<(int, int), FileRow>

  /** The rows a job has after its first `n` files were stored; other jobs' rows are untouched. */
  ghost predicate TableAfter(before: Table, after: Table, jobId: int, rules: Rules, files: seq<File>, n: nat)
    requires n <= |files| && forall i :: 0 <= i < |files| ==> WellTyped(files[i])
  {
    forall j, i :: (
      if j != jobId then
        ((j, i) in after <==> (j, i) in before) && ((j, i) in before ==> after[(j, i)] == before[(j, i)])
      else if 0 <= i < n && Moved(rules, files[i]).Some?
          then (j, i) in after && after[(j, i)] == RowFor(rules, files[i], Moved(rules, files[i]).value)
      else (j, i) !in after)
  }

  lemma RowAdded(before: Table, rows: Table, jobId: int, rules: Rules, files: seq<File>, n: nat)
    requires n < |files| && forall i :: 0 <= i < |files| ==> WellTyped(files[i])
    requires TableAfter(before, rows, jobId, rules, files, n) && Moved(rules, files[n]).Some?
    ensures TableAfter(before, rows[(jobId, n) := RowFor(rules, files[n], Moved(rules, files[n]).value)],
                       jobId, rules, files, n + 1)
  {
  }

  lemma NoRowAdded(before: Table, rows: Table, jobId: int, rules: Rules, files: seq<File>, n: nat)
    requires n < |files| && forall i :: 0 <= i < |files| ==> WellTyped(files[i])
    requires TableAfter(before, rows, jobId, rules, files, n) && Moved(rules, files[n]).None?
    ensures TableAfter(before, rows, jobId, rules, files, n + 1)
  {
  }

  // ---------------------------------------------------------------- serving

  /** `live_files_inline`: what the API returns while the bytes are inline. */
  function Inline(f: File, now: string): File
    requires WellTyped(f)
  {
    if Expired(f, now) then Public(f)["content_b64" := Null]["expired" := Bool(true)] else Public(f)
  }

  class FileTable {
    var rows: Table

    constructor ()
      ensures rows == map[]
    {
      rows := map[];
    }

    method StoreFiles(jobId: int, files: seq<File>, enabled: bool, rules: Rules) returns (out: seq<File>)
      requires forall i :: 0 <= i < |files| ==> WellTyped(files[i])
      modifies this
      ensures |out| == |files|
      ensures !enabled ==> out == files && rows == old(rows)
      ensures enabled ==> TableAfter(old(rows), rows, jobId, rules, files, |files|)
      ensures enabled ==> forall i :: 0 <= i < |files| ==> out[i] == Stored(rules, files[i], i)
    {
      if !enabled {
        return files;
      }
      rows := map k | k in rows && k.0 != jobId :: rows[k];
      out := [];
      for idx := 0 to |files|
        invariant |out| == idx
        invariant TableAfter(old(rows), rows, jobId, rules, files, idx)
        invariant forall i :: 0 <= i < idx ==> out[i] == Stored(rules, files[i], i)
      {
        var f := files[idx];
        var content := Get(f, "content_b64");
        var data: Option<seq<Byte>> := None;
        var mime := rules.mime(Get(f, "path"));
        if Truthy(content) && mime != OCTETS {
          data := DecodeExact(content.s);
        }
        if data.None? {
          NoRowAdded(old(rows), rows, jobId, rules, files, idx);
          out := out + [f];
        } else {
          RowAdded(old(rows), rows, jobId, rules, files, idx);
          var digest := rules.sha256(data.value);
          rows := rows[(jobId, idx) := FileRow(digest, mime, |data.value|, rules.naiveUtc(Get(f, "expires_at")),
              data.value)];
          out := out + [f["content_b64" := Null]["content_ref" := Num(idx)]];
        }
      }
    }

    /** The rows a list refers to are read first; every file is then shown with its bytes. */
    method LiveFiles(jobId: int, files: seq<File>, now: string) returns (out: seq<File>)
      requires forall i :: 0 <= i < |files| ==> WellTyped(files[i])
      ensures |out| == |files|
      ensures forall i :: 0 <= i < |files| ==> out[i] == Live(rows, jobId, files[i], now)
    {
      var blobs: map<int, seq<Byte>> := map[];
      for i := 0 to |files|
        invariant forall k :: 0 <= k < i && Get(files[k], "content_ref").Num? && !Expired(files[k], now) ==>
          Blob(blobs, Get(files[k], "content_ref").n) == Row(rows, jobId, Get(files[k], "content_ref").n)
        invariant forall n :: n in blobs ==> (jobId, n) in rows && blobs[n] == rows[(jobId, n)].data
      {
        var ref := Get(files[i], "content_ref");
        if ref.Num? && !Expired(files[i], now) && (jobId, ref.n) in rows {
          blobs := blobs[ref.n := rows[(jobId, ref.n)].data];
        }
      }
      out := [];
      for i := 0 to |files|
        invariant |out| == i
        invariant forall k :: 0 <= k < i ==> out[k] == Live(rows, jobId, files[k], now)
      {
        var f := files[i];
        if Expired(f, now) {
          out := out + [Public(f)["content_b64" := Null]["expired" := Bool(true)]];
        } else if Get(f, "content_ref") != Null {
          var ref := Get(f, "content_ref");
          if ref.Num? && ref.n in blobs {
            out := out + [Public(f)["content_b64" := Str(Encode(blobs[ref.n]))]];
          } else {
            out := out + [Public(f)["content_b64" := Null]];
          }
        } else {
          out := out + [Public(f)];
        }
      }
    }
  }

  function Blob(blobs: map<int, seq<Byte>>, n: int): Option<seq<Byte>> {
    if n in blobs then Some(blobs[n]) else None
  }

  function Row(rows: Table, jobId: int, n: int): Option<seq<Byte>> {
    if (jobId, n) in rows then Some(rows[(jobId, n)].data) else None
  }

  /** One file as `live_files` shows it. */
  function Live(rows: Table, jobId: int, f: File, now: string): File
    requires WellTyped(f)
  {
    var ref := Get(f, "content_ref");
    if Expired(f, now) then Public(f)["content_b64" := Null]["expired" := Bool(true)]
    else if ref == Null then Public(f)
    else
      var data := if ref.Num? then Row(rows, jobId, ref.n) else None;
      Public(f)["content_b64" := if data.Some? then Str(Encode(data.value)) else Null]
  }

  /** An entry that refers to a row, before its time of expiry: it is shown with the base64 of the bytes
      of that row of the job, or with none when there is no such row. */
  lemma LiveMeans(rows: Table, jobId: int, f: File, now: string, key: string)
    requires WellTyped(f) && Get(f, "content_ref").Num?
    requires Get(f, "expires_at").Str? ==> Get(f, "expires_at").s == "" || !Precedes(Get(f, "expires_at").s, now)
    ensures var shown, n := Live(rows, jobId, f, now), Get(f, "content_ref").n;
      && ((jobId, n) in rows ==> Get(shown, "content_b64") == Str(Encode(rows[(jobId, n)].data)))
      && ((jobId, n) !in rows ==> Get(shown, "content_b64") == Null)
      && "content_ref" !in shown
      && (key != "content_b64" && key != "content_ref" ==> Get(shown, key) == Get(f, key))
  {
    if Get(f, "expires_at").Str? {
      TextLessIff(Get(f, "expires_at").s, now);
    }
  }

  /** Moving the bytes does not show: for every list of files without a reference of their own and
      every time, what is served after storing is what was served inline. */
  lemma ServedAlike(before: Table, after: Table, jobId: int, rules: Rules, files: seq<File>, i: nat, now: string)
    requires forall k :: 0 <= k < |files| ==> WellTyped(files[k])
    requires i < |files| && Get(files[i], "content_ref") == Null
    requires TableAfter(before, after, jobId, rules, files, |files|)
    ensures Live(after, jobId, Stored(rules, files[i], i), now) == Inline(files[i], now)
  {
    var f := files[i];
    var g := Stored(rules, f, i);
    if Moved(rules, f).Some? {
      ExactIff(f["content_b64"].s, Moved(rules, f).value);
      assert Get(g, "expires_at") == Get(f, "expires_at");
      assert Row(after, jobId, i) == Moved(rules, f);
      assert Public(g)["content_b64" := f["content_b64"]] == Public(f);
      assert Public(g)["content_b64" := Null]["expired" := Bool(true)]
          == Public(f)["content_b64" := Null]["expired" := Bool(true)];
    }
  }

  /** `a` comes before `b`: they agree up to a place where `a` ends or has the smaller character. */
  ghost predicate Precedes(a: string, b: string) {
    exists n :: 0 <= n <= |a| && n < |b| && a[..n] == b[..n] && (n == |a| || a[n] < b[n])
  }

  lemma {:induction false} TextLessIff(a: string, b: string)
    ensures TextLess(a, b) <==> Precedes(a, b)
  {
    if b == [] || a == [] || a[0] != b[0] {
      if TextLess(a, b) {
        assert a[..0] == b[..0];
        assert Precedes(a, b);
      }
    } else {
      TextLessIff(a[1..], b[1..]);
      if Precedes(a[1..], b[1..]) {
        var n :| 0 <= n <= |a[1..]| && n < |b[1..]| && a[1..][..n] == b[1..][..n]
                 && (n == |a[1..]| || a[1..][n] < b[1..][n]);
        assert a[..n + 1] == [a[0]] + a[1..][..n] && b[..n + 1] == [b[0]] + b[1..][..n];
      }
      if Precedes(a, b) {
        var n :| 0 <= n <= |a| && n < |b| && a[..n] == b[..n] && (n == |a| || a[n] < b[n]);
        assert a[1..][..n - 1] == a[..n][1..] && b[1..][..n - 1] == b[..n][1..];
      }
    }
  }

  /** What is served of one file whose bytes are inline: at its time of expiry, if it has one, still
      everything; after it the bytes are gone and the entry says so; nothing else ever changes. */
  lemma InlineMeans(f: File, now: string, key: string)
    requires WellTyped(f)
    ensures var gone := "expires_at" in f && f["expires_at"].Str? && f["expires_at"].s != ""
                        && Precedes(f["expires_at"].s, now);
      if gone then
        && Get(Inline(f, now), "content_b64") == Null && Get(Inline(f, now), "expired") == Bool(true)
        && (key !in {"content_b64", "expired", "content_ref"} ==> Get(Inline(f, now), key) == Get(f, key))
      else
        && "content_ref" !in Inline(f, now)
        && (key != "content_ref" ==> (key in Inline(f, now) <==> key in f) && Get(Inline(f, now), key) == Get(f, key))
  {
    if "expires_at" in f && f["expires_at"].Str? {
      TextLessIff(f["expires_at"].s, now);
    }
  }

  /** Storing a job's files leaves every other job's files as they are served. */
  lemma OthersServedAlike(before: Table, after: Table, jobId: int, rules: Rules, files: seq<File>,
                          otherJob: int, f: File, now: string)
    requires forall k :: 0 <= k < |files| ==> WellTyped(files[k])
    requires TableAfter(before, after, jobId, rules, files, |files|)
    requires otherJob != jobId && WellTyped(f)
    ensures Live(after, otherJob, f, now) == Live(before, otherJob, f, now)
  {
    var ref := Get(f, "content_ref");
    if ref.Num? {
      assert Row(after, otherJob, ref.n) == Row(before, otherJob, ref.n);
    }
  }

  /** The whole path on the table object: store, then serve, at any time, with or without rows. */
  method StoreThenServe(table: FileTable, jobId: int, files: seq<File>, enabled: bool, rules: Rules, now: string)
    returns (served: seq<File>)
    requires forall k :: 0 <= k < |files| ==> WellTyped(files[k]) && Get(files[k], "content_ref") == Null
    modifies table
    ensures |served| == |files| && forall i :: 0 <= i < |files| ==> served[i] == Inline(files[i], now)
  {
    ghost var before := table.rows;
    var stored := table.StoreFiles(jobId, files, enabled, rules);
    served := table.LiveFiles(jobId, stored, now);
    if enabled {
      forall i | 0 <= i < |files|
        ensures served[i] == Inline(files[i], now)
      {
        ServedAlike(before, table.rows, jobId, rules, files, i, now);
      }
    }
  }
}
