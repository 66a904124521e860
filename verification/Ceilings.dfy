/**
 Learned prompt ceilings (providers/observations.py): one upserted row per provider, against the
 log of all rejections it stands for. Times are in seconds.
 */
module Ceilings {
  import opened Wrappers

  const TTL := 14 * 24 * 3600
  const MIN_LEARNABLE := 4000

  /** The nullable columns of `provider_observations`. */
  datatype Row = Row(ceiling: Option<int>, learnedAt: Option<int>, samples: nat)

  type Rows = map<string, Row>

  /** One "too large" answer: the stamp written, the later clock reading the cutoff is made from,
      and whether the write went through (a failed write is only logged). */
  datatype Rejection = Rejection(provider: string, tokens: int, at: int, checkedAt: int, written: bool)

  function Upserted(row: Option<Row>, r: Rejection): Row {
    if row.None? then Row(Some(r.tokens), Some(r.at), 1)
    else
      var o := row.value;
      var replaced := o.ceiling.None? || o.learnedAt.None? || o.learnedAt.value < r.checkedAt - TTL
          || r.tokens < o.ceiling.value;
      Row(if replaced then Some(r.tokens) else o.ceiling, Some(r.at), o.samples + 1)
  }

  function Find(rows: Rows, p: string): Option<Row> {
    if p in rows then Some(rows[p]) else None
  }

  function Recorded(rows: Rows, r: Rejection): Rows {
    if r.tokens < MIN_LEARNABLE || !r.written then rows
    else rows[r.provider := Upserted(Find(rows, r.provider), r)]
  }

  function RunLog(log: seq<Rejection>): Rows {
    if log == [] then map[] else Recorded(RunLog(log[..|log| - 1]), log[|log| - 1])
  }

  predicate Fresh(row: Row, now: int) {
    row.ceiling.Some? && row.learnedAt.Some? && row.learnedAt.value >= now - TTL
  }

  class ObservationTable {
    var rows: Rows

    constructor ()
      ensures rows == map[]
    {
      rows := map[];
    }

    method RecordTooLarge(r: Rejection)
      modifies this
      ensures rows == Recorded(old(rows), r)
    {
      if r.tokens < MIN_LEARNABLE { return; }
      if !r.written { return; }
      if r.provider !in rows {
        rows := rows[r.provider := Row(Some(r.tokens), Some(r.at), 1)];
        return;
      }
      var row := rows[r.provider];
      var kept := row.ceiling;
      if row.ceiling.None? || row.learnedAt.None? || row.learnedAt.value < r.checkedAt - TTL
          || r.tokens < row.ceiling.value {
        kept := Some(r.tokens);
      }
      rows := rows[r.provider := Row(kept, Some(r.at), row.samples + 1)];
    }

    method LearnedCeilings(now: int) returns (found: map<string, int>)
      ensures forall p :: p in found <==> p in rows && Fresh(rows[p], now)
      ensures forall p :: p in found ==> rows[p].ceiling == Some(found[p])
    {
      found := map p | p in rows && Fresh(rows[p], now) :: rows[p].ceiling.value;
    }
  }

  // --- The log as the reference --------------------------------------------------------------

  /** The rejections of `p` that count: large enough to learn from, and written. */
  function Accepted(log: seq<Rejection>, p: string): (acc: seq<Rejection>)
    ensures forall i :: 0 <= i < |acc| ==> acc[i].tokens >= 4000
  {
    if log == [] then []
    else
      var r := log[|log| - 1];
      var before := Accepted(log[..|log| - 1], p);
      if r.provider == p && r.tokens >= 4000 && r.written then before + [r] else before
  }

  /** The rejection at `i` came longer than the TTL after the one before it. */
  predicate GapBefore(acc: seq<Rejection>, i: int)
    requires 0 < i < |acc|
  {
    acc[i - 1].at < acc[i].checkedAt - 1209600
  }

  /** `k` is where the rejections since the last such gap begin. */
  predicate StreakStart(acc: seq<Rejection>, k: nat) {
    && k < |acc|
    && (k == 0 || GapBefore(acc, k))
    && forall j :: k < j < |acc| ==> !GapBefore(acc, j)
  }

  predicate IsMinimum(m: int, acc: seq<Rejection>) {
    && (exists i :: 0 <= i < |acc| && acc[i].tokens == m)
    && forall i :: 0 <= i < |acc| ==> m <= acc[i].tokens
  }

  /** The row holds what the log says: the least rejection since the last gap, the newest stamp and
      the number of rejections that counted. */
  ghost predicate Stands(row: Row, acc: seq<Rejection>) {
    && acc != []
    && row.learnedAt == Some(acc[|acc| - 1].at)
    && row.samples == |acc|
    && row.ceiling.Some?
    && exists k: nat :: StreakStart(acc, k) && IsMinimum(row.ceiling.value, acc[k..])
  }

  lemma UpsertStands(row: Row, acc: seq<Rejection>, r: Rejection)
    requires Stands(row, acc)
    ensures Stands(Upserted(Some(row), r), acc + [r])
  {
    var k: nat :| StreakStart(acc, k) && IsMinimum(row.ceiling.value, acc[k..]);
    var all := acc + [r];
    var row' := Upserted(Some(row), r);
    assert forall j :: 0 < j < |acc| ==> GapBefore(all, j) == GapBefore(acc, j);
    if GapBefore(all, |acc|) {
      assert all[|acc|..] == [r];
      assert IsMinimum(row'.ceiling.value, [r]) by { assert [r][0] == r; }
      assert StreakStart(all, |acc|);
    } else {
      assert StreakStart(all, k);
      MinimumStep(row.ceiling.value, acc[k..], r);
      assert all[k..] == acc[k..] + [r];
    }
  }

  lemma FirstStands(r: Rejection)
    ensures Stands(Upserted(None, r), [r])
  {
    var acc := [r];
    assert acc[0..] == acc && acc[0] == r;
    assert StreakStart(acc, 0) && IsMinimum(r.tokens, acc[0..]);
  }

  lemma MinimumStep(m: int, acc: seq<Rejection>, r: Rejection)
    requires IsMinimum(m, acc)
    ensures IsMinimum(if r.tokens < m then r.tokens else m, acc + [r])
  {
    var i :| 0 <= i < |acc| && acc[i].tokens == m;
    assert (acc + [r])[i] == acc[i] && (acc + [r])[|acc|] == r;
  }

  lemma {:induction false} RowsStandForLog(log: seq<Rejection>, p: string)
    ensures p in RunLog(log) <==> Accepted(log, p) != []
    ensures p in RunLog(log) ==> Stands(RunLog(log)[p], Accepted(log, p))
  {
    if log != [] {
      var before, r := log[..|log| - 1], log[|log| - 1];
      RowsStandForLog(before, p);
      if r.provider == p && r.tokens >= 4000 && r.written {
        if p in RunLog(before) {
          UpsertStands(RunLog(before)[p], Accepted(before, p), r);
        } else {
          FirstStands(r);
          assert Accepted(log, p) == [r];
        }
      }
    }
  }

  lemma StreakStartUnique(acc: seq<Rejection>, k: nat, k': nat)
    requires StreakStart(acc, k) && StreakStart(acc, k')
    ensures k == k'
  {
  }

  lemma StandsMeans(row: Row, acc: seq<Rejection>, k: nat, now: int)
    requires Stands(row, acc) && StreakStart(acc, k)
    requires forall i :: 0 <= i < |acc| ==> acc[i].tokens >= 4000
    ensures Means(row, acc, k, now)
  {
    var j: nat :| StreakStart(acc, j) && IsMinimum(row.ceiling.value, acc[j..]);
    StreakStartUnique(acc, j, k);
    var i :| 0 <= i < |acc[k..]| && acc[k..][i].tokens == row.ceiling.value;
    assert acc[k..][i] == acc[k + i];
  }

  /** The ceiling is the least rejection since the streak began at `k`, never under the floor; all
      rejections are counted; it is reported exactly while the newest one is fresh. */
  predicate Means(row: Row, acc: seq<Rejection>, k: nat, now: int)
    requires k < |acc|
  {
    && row.ceiling.Some? && IsMinimum(row.ceiling.value, acc[k..])
    && row.ceiling.value >= 4000
    && row.samples == |acc|
    && (Fresh(row, now) <==> now - acc[|acc| - 1].at <= 1209600)
  }

  /** After any log of rejections, of any providers, with any clocks: a provider has a ceiling
      exactly when a rejection of it counted, and it means what `Means` says since the last gap
      longer than the TTL. */
  lemma {:induction false} CeilingTheorem(log: seq<Rejection>, p: string, now: int, k: nat)
    ensures p in RunLog(log) <==> Accepted(log, p) != []
    ensures StreakStart(Accepted(log, p), k) ==> p in RunLog(log) && Means(RunLog(log)[p], Accepted(log, p), k, now)
  {
    RowsStandForLog(log, p);
    var acc := Accepted(log, p);
    if StreakStart(acc, k) {
      var row := RunLog(log)[p];
      StandsMeans(row, acc, k, now);
    }
  }

  /** Every log with a counted rejection has such a start, so the theorem always applies. */
  lemma {:induction false} StreakExists(acc: seq<Rejection>) returns (k: nat)
    requires acc != []
    ensures StreakStart(acc, k)
  {
    var last := |acc| - 1;
    if last == 0 || GapBefore(acc, last) {
      k := last;
    } else {
      k := StreakExists(acc[..last]);
      assert forall j :: 0 < j < last ==> GapBefore(acc, j) == GapBefore(acc[..last], j);
    }
  }
}
