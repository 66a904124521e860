/**
 Which model served a run: the capped evidence list of agent/runs.py (`_fold_observation`,
 `served_model_meta`), folded over the whole stream of `model.observed` events of a run.
 */
module Evidence {
  import opened Wrappers

  const MAX_OBSERVATIONS := 10

  datatype Kind = Response | ThreadConfig | SessionInit

  datatype Obs = Obs(model: string, kind: Kind, source: string)

  function Rank(k: Kind): nat {
    match k
    case Response => 3
    case ThreadConfig => 2
    case SessionInit => 1
  }

  predicate Same(a: Obs, b: Obs) {
    a.kind == b.kind && a.model == b.model
  }

  predicate Listed(items: seq<Obs>, o: Obs) {
    exists i :: 0 <= i < |items| && Same(items[i], o)
  }

  /** Index of the first entry of the lowest rank. */
  function Weakest(items: seq<Obs>): (w: nat)
    requires items != []
    ensures w < |items|
    ensures forall i :: 0 <= i < |items| ==> Rank(items[w].kind) <= Rank(items[i].kind)
    ensures forall i :: 0 <= i < w ==> Rank(items[w].kind) < Rank(items[i].kind)
  {
    var n := |items| - 1;
    if n == 0 then 0
    else
      var w := Weakest(items[..n]);
      if Rank(items[n].kind) < Rank(items[w].kind) then n else w
  }

  /** One observation folded in, and whether anything was dropped. */
  function Fold(items: seq<Obs>, o: Obs): (seq<Obs>, bool) {
    if Listed(items, o) then (items, false)
    else if |items| < MAX_OBSERVATIONS then (items + [o], false)
    else
      var w := Weakest(items);
      (if Rank(o.kind) > Rank(items[w].kind) then items[w := o] else items, true)
  }

  method FoldObservation(existing: seq<Obs>, o: Obs) returns (items: seq<Obs>, cut: bool)
    ensures (items, cut) == Fold(existing, o)
  {
    items := existing;
    var i := 0;
    while i < |items|
      invariant 0 <= i <= |items|
      invariant forall k :: 0 <= k < i ==> !Same(items[k], o)
    {
      if Same(items[i], o) {
        return items, false;
      }
      i := i + 1;
    }
    if |items| < MAX_OBSERVATIONS {
      return items + [o], false;
    }
    var w := 0;
    i := 1;
    while i < |items|
      invariant 1 <= i <= |items| && 0 <= w < i
      invariant forall k :: 0 <= k < i ==> Rank(items[w].kind) <= Rank(items[k].kind)
      invariant forall k :: 0 <= k < w ==> Rank(items[w].kind) < Rank(items[k].kind)
    {
      if Rank(items[i].kind) < Rank(items[w].kind) {
        w := i;
      }
      i := i + 1;
    }
    assert w == Weakest(items);
    if Rank(o.kind) > Rank(items[w].kind) {
      items := items[w := o];
    }
    cut := true;
  }

  /** The list and the sticky `observations_truncated` mark after a stream of observations. */
  datatype Log = Log(items: seq<Obs>, truncated: bool)

  function FoldAll(stream: seq<Obs>): Log {
    if stream == [] then Log([], false)
    else
      var l := FoldAll(stream[..|stream| - 1]);
      var (items, cut) := Fold(l.items, stream[|stream| - 1]);
      Log(items, l.truncated || cut)
  }

  // ---------------------------------------------------------------- the served model

  /** `max(items, key=rank)`: the first entry of the highest rank. */
  function Best(items: seq<Obs>): (b: Option<Obs>)
    ensures b.None? <==> items == []
    ensures b.Some? ==> b.value in items && forall i :: 0 <= i < |items| ==> Rank(items[i].kind) <= Rank(b.value.kind)
  {
    if items == [] then None
    else
      var b := Best(items[..|items| - 1]);
      var o := items[|items| - 1];
      if b.None? || Rank(o.kind) > Rank(b.value.kind) then Some(o) else b
  }

  function ResponseModels(items: seq<Obs>): set<string> {
    set i | 0 <= i < |items| && items[i].kind == Response :: items[i].model
  }

  /** Top-level `model_served`: strict, and closed when a dropped observation could change it. */
  function ModelServed(l: Log): Option<string> {
    var best := Best(l.items);
    if best.Some? && best.value.kind == Response && !(l.truncated && |ResponseModels(l.items)| > 1)
    then Some(best.value.model) else None
  }

  // ---------------------------------------------------------------- what the fold keeps

  /** The whole stream, one entry per (kind, model), in first-seen order. */
  function Dedup(stream: seq<Obs>): seq<Obs> {
    if stream == [] then []
    else
      var d := Dedup(stream[..|stream| - 1]);
      var o := stream[|stream| - 1];
      if Listed(d, o) then d else d + [o]
  }

  function FirstResponse(s: seq<Obs>): Option<Obs> {
    if s == [] then None
    else
      var f := FirstResponse(s[..|s| - 1]);
      if f.Some? then f else if s[|s| - 1].kind == Response then Some(s[|s| - 1]) else None
  }

  /** The highest rank seen, 0 for nothing. */
  function Strongest(s: seq<Obs>): (r: nat)
    ensures forall i :: 0 <= i < |s| ==> Rank(s[i].kind) <= r
    ensures r > 0 ==> exists i :: 0 <= i < |s| && Rank(s[i].kind) == r
    ensures s == [] ==> r == 0
  {
    if s == [] then 0
    else
      var r := Strongest(s[..|s| - 1]);
      if Rank(s[|s| - 1].kind) > r then Rank(s[|s| - 1].kind) else r
  }

  ghost predicate DistinctPairs(items: seq<Obs>) {
    forall i, k :: 0 <= i < k < |items| ==> !Same(items[i], items[k])
  }

  lemma {:induction false} NoResponse(s: seq<Obs>)
    ensures FirstResponse(s).None? <==> forall i :: 0 <= i < |s| ==> s[i].kind != Response
    ensures FirstResponse(s).Some? ==> FirstResponse(s).value in s && FirstResponse(s).value.kind == Response
  {
    if s != [] {
      NoResponse(s[..|s| - 1]);
    }
  }

  lemma StrongestIs(s: seq<Obs>, r: nat)
    requires forall i :: 0 <= i < |s| ==> Rank(s[i].kind) <= r
    requires exists i :: 0 <= i < |s| && Rank(s[i].kind) == r
    ensures Strongest(s) == r
  {
  }

  /** A listed response is never evicted: nothing outranks it. */
  lemma EvictionKeeps(items: seq<Obs>, o: Obs, r: Obs)
    requires items != [] && Listed(items, r) && r.kind == Response
    requires Rank(o.kind) > Rank(items[Weakest(items)].kind)
    ensures Listed(items[Weakest(items) := o], r)
  {
    var w := Weakest(items);
    var i :| 0 <= i < |items| && Same(items[i], r);
    assert i != w;
    assert Same(items[w := o][i], r);
  }

  lemma EvictionStrongest(items: seq<Obs>, o: Obs)
    requires items != [] && Rank(o.kind) > Rank(items[Weakest(items)].kind)
    ensures Strongest(items[Weakest(items) := o]) ==
      if Rank(o.kind) > Strongest(items) then Rank(o.kind) else Strongest(items)
  {
    var w, top := Weakest(items), Strongest(items);
    var items' := items[w := o];
    assert items'[w] == o;
    if Rank(o.kind) >= top {
      StrongestIs(items', Rank(o.kind));
    } else {
      var i :| 0 <= i < |items| && Rank(items[i].kind) == top;
      assert items'[i] == items[i];
      StrongestIs(items', top);
    }
  }

  /** A list whose every entry is a response comes from a stream with a response. */
  lemma ResponseWasSeen(stream: seq<Obs>, items: seq<Obs>)
    requires items != [] && Strongest(items) == Strongest(stream) && items[Weakest(items)].kind == Response
    ensures FirstResponse(stream).Some?
  {
    assert Strongest(stream) >= 3;
    var i :| 0 <= i < |stream| && Rank(stream[i].kind) == Strongest(stream);
    NoResponse(stream);
  }

  /** The first response stays listed when an observation meets a full list. */
  lemma FullKeepsFirst(stream: seq<Obs>, items: seq<Obs>, o: Obs, first: Obs)
    requires items != [] && Strongest(items) == Strongest(stream)
    requires FirstResponse(stream).Some? ==> Listed(items, FirstResponse(stream).value)
    requires first.kind == Response
    requires if FirstResponse(stream).Some? then first == FirstResponse(stream).value else first == o
    ensures Listed(if Rank(o.kind) > Rank(items[Weakest(items)].kind) then items[Weakest(items) := o] else items, first)
  {
    var w := Weakest(items);
    if Rank(o.kind) <= Rank(items[w].kind) {
      if FirstResponse(stream).None? {
        ResponseWasSeen(stream, items);
      }
    } else if FirstResponse(stream).Some? {
      EvictionKeeps(items, o, first);
    } else {
      assert Same(items[w := o][w], first);
    }
  }

  lemma FoldOneShape(items: seq<Obs>, o: Obs)
    requires |items| <= MAX_OBSERVATIONS && DistinctPairs(items)
    ensures |Fold(items, o).0| <= MAX_OBSERVATIONS && DistinctPairs(Fold(items, o).0)
  {
  }

  lemma {:induction false} FoldShape(stream: seq<Obs>)
    ensures |FoldAll(stream).items| <= MAX_OBSERVATIONS && DistinctPairs(FoldAll(stream).items)
  {
    if stream != [] {
      FoldShape(stream[..|stream| - 1]);
      FoldOneShape(FoldAll(stream[..|stream| - 1]).items, stream[|stream| - 1]);
    }
  }

  lemma {:induction false} FoldUncut(stream: seq<Obs>)
    ensures !FoldAll(stream).truncated ==> FoldAll(stream).items == Dedup(stream)
  {
    if stream != [] {
      FoldUncut(stream[..|stream| - 1]);
    }
  }

  lemma StrongestGrows(s: seq<Obs>, o: Obs)
    ensures Strongest(s + [o]) == if Rank(o.kind) > Strongest(s) then Rank(o.kind) else Strongest(s)
  {
    assert (s + [o])[..|s|] == s;
  }

  lemma FoldOneStrongest(items: seq<Obs>, o: Obs)
    ensures Strongest(Fold(items, o).0) == if Rank(o.kind) > Strongest(items) then Rank(o.kind) else Strongest(items)
  {
    if Listed(items, o) {
      var i :| 0 <= i < |items| && Same(items[i], o);
    } else if |items| < MAX_OBSERVATIONS {
      StrongestGrows(items, o);
    } else if Rank(o.kind) > Rank(items[Weakest(items)].kind) {
      EvictionStrongest(items, o);
    } else {
      assert Rank(items[Weakest(items)].kind) <= Strongest(items);
    }
  }

  lemma {:induction false} FoldStrongest(stream: seq<Obs>)
    ensures Strongest(FoldAll(stream).items) == Strongest(stream)
  {
    if stream != [] {
      var n := |stream| - 1;
      FoldStrongest(stream[..n]);
      FoldOneStrongest(FoldAll(stream[..n]).items, stream[n]);
    }
  }

  lemma FoldOneKeepsFirst(stream: seq<Obs>, items: seq<Obs>, o: Obs, first: Obs)
    requires Strongest(items) == Strongest(stream)
    requires FirstResponse(stream).Some? ==> Listed(items, FirstResponse(stream).value)
    requires first.kind == Response
    requires if FirstResponse(stream).Some? then first == FirstResponse(stream).value else first == o
    ensures Listed(Fold(items, o).0, first)
  {
    if Listed(items, o) {
    } else if |items| < MAX_OBSERVATIONS {
      var items' := items + [o];
      assert Same(items'[|items|], o);
      if FirstResponse(stream).Some? {
        var i :| 0 <= i < |items| && Same(items[i], first);
        assert Same(items'[i], first);
      }
    } else {
      FullKeepsFirst(stream, items, o, first);
    }
  }

  /** The first response observation of the run is listed for good. */
  lemma {:induction false} FoldKeepsFirst(stream: seq<Obs>)
    requires FirstResponse(stream).Some?
    ensures Listed(FoldAll(stream).items, FirstResponse(stream).value)
  {
    var n := |stream| - 1;
    if FirstResponse(stream[..n]).Some? {
      FoldKeepsFirst(stream[..n]);
    }
    FoldStrongest(stream[..n]);
    NoResponse(stream);
    FoldOneKeepsFirst(stream[..n], FoldAll(stream[..n]).items, stream[n], FirstResponse(stream).value);
  }

  lemma {:induction false} DedupFirst(stream: seq<Obs>)
    ensures FirstResponse(Dedup(stream)) == FirstResponse(stream)
  {
    if stream != [] {
      var n := |stream| - 1;
      var d, o := Dedup(stream[..n]), stream[n];
      DedupFirst(stream[..n]);
      NoResponse(d);
      if Listed(d, o) {
        var i :| 0 <= i < |d| && Same(d[i], o);
      } else {
        assert (d + [o])[..|d|] == d;
      }
    }
  }

  /** For every stream of observations: at most ten entries, one per (kind, model), the strongest
      kind ever seen among them; and when nothing was dropped, the whole stream without repeats. */
  lemma {:induction false} EvidenceTheorem(stream: seq<Obs>)
    ensures var l := FoldAll(stream);
      && |l.items| <= MAX_OBSERVATIONS && DistinctPairs(l.items)
      && Strongest(l.items) == Strongest(stream)
      && (!l.truncated ==> l.items == Dedup(stream))
  {
    FoldShape(stream);
    FoldStrongest(stream);
    FoldUncut(stream);
  }

  lemma {:induction false} BestIsFirstResponse(items: seq<Obs>)
    ensures Best(items).Some? && Best(items).value.kind == Response ==> FirstResponse(items) == Best(items)
  {
    if items != [] {
      BestIsFirstResponse(items[..|items| - 1]);
      NoResponse(items[..|items| - 1]);
    }
  }

  lemma OneElement(s: set<string>, a: string, b: string)
    requires |s| <= 1 && a in s && b in s
    ensures a == b
  {
    if a != b {
      assert {a, b} <= s;
      SubsetSize({a, b}, s);
    }
  }

  lemma {:induction false} SubsetSize(a: set<string>, b: set<string>)
    requires a <= b
    ensures |a| <= |b|
  {
    if x :| x in a {
      SubsetSize(a - {x}, b - {x});
    }
  }

  /** A reported `model_served` is the model of the very first response observation of the run,
      whatever was dropped or evicted since. */
  lemma ServedIsFirstResponse(stream: seq<Obs>)
    ensures var served := ModelServed(FoldAll(stream));
      served.Some? ==> FirstResponse(stream).Some? && served.value == FirstResponse(stream).value.model
  {
    var l := FoldAll(stream);
    if ModelServed(l).Some? {
      BestIsFirstResponse(l.items);
      FoldUncut(stream);
      DedupFirst(stream);
      if l.truncated {
        FoldStrongest(stream);
        ServedOnceCut(stream, l);
      }
    }
  }

  lemma {:induction false} ServedOnceCut(stream: seq<Obs>, l: Log)
    requires l == FoldAll(stream) && Strongest(l.items) == Strongest(stream)
    requires Best(l.items).Some? && Best(l.items).value.kind == Response && |ResponseModels(l.items)| <= 1
    ensures FirstResponse(stream).Some? && FirstResponse(stream).value.model == Best(l.items).value.model
  {
    var k :| 0 <= k < |l.items| && l.items[k] == Best(l.items).value;
    NoResponse(stream);
    assert Strongest(stream) >= 3;
    FoldKeepsFirst(stream);
    var i :| 0 <= i < |l.items| && Same(l.items[i], FirstResponse(stream).value);
    assert l.items[i].model in ResponseModels(l.items) && l.items[k].model in ResponseModels(l.items);
    OneElement(ResponseModels(l.items), l.items[i].model, l.items[k].model);
  }

  lemma {:induction false} DedupDistinct(stream: seq<Obs>)
    ensures DistinctPairs(Dedup(stream))
    ensures forall i :: 0 <= i < |stream| ==> Listed(Dedup(stream), stream[i])
  {
    if stream != [] {
      var n := |stream| - 1;
      DedupDistinct(stream[..n]);
      assert forall o :: Listed(Dedup(stream[..n]), o) ==> Listed(Dedup(stream), o) by {
        forall o | Listed(Dedup(stream[..n]), o)
          ensures Listed(Dedup(stream), o)
        {
          var i :| 0 <= i < |Dedup(stream[..n])| && Same(Dedup(stream[..n])[i], o);
          assert Same(Dedup(stream)[i], o);
        }
      }
      assert Listed(Dedup(stream), stream[n]) by {
        if !Listed(Dedup(stream[..n]), stream[n]) {
          assert Same(Dedup(stream)[|Dedup(stream[..n])|], stream[n]);
        }
      }
    }
  }

  /** The list is cut exactly when an eleventh pair of kind and model was observed. */
  lemma {:induction false} CutIff(stream: seq<Obs>)
    ensures FoldAll(stream).truncated <==> |Dedup(stream)| > 10
  {
    FoldUncut(stream);
    FoldShape(stream);
    if stream != [] {
      CutIff(stream[..|stream| - 1]);
      FoldUncut(stream[..|stream| - 1]);
    }
  }

  lemma {:induction false} BestKind(items: seq<Obs>)
    ensures Best(items).Some? && Best(items).value.kind == Response <==>
      exists i :: 0 <= i < |items| && items[i].kind == Response
  {
    if i :| 0 <= i < |items| && items[i].kind == Response {
      assert Rank(Best(items).value.kind) >= Rank(items[i].kind);
    }
  }

  lemma TwoModels(items: seq<Obs>)
    ensures |ResponseModels(items)| > 1 <==>
      exists i, k ::
        0 <= i < k < |items| && items[i].kind == items[k].kind == Response && items[i].model != items[k].model
  {
    var models := ResponseModels(items);
    if i, k :| 0 <= i < k < |items| && items[i].kind == items[k].kind == Response && items[i].model != items[k].model {
      assert items[i].model in models && items[k].model in models;
      SubsetSize({items[i].model, items[k].model}, models);
    }
    if |models| > 1 {
      var a :| a in models;
      assert models - {a} != {};
      var b :| b in models - {a};
      var i :| 0 <= i < |items| && items[i].kind == Response && items[i].model == a;
      var k :| 0 <= k < |items| && items[k].kind == Response && items[k].model == b;
      assert i < k || k < i;
    }
  }

  /** The first response of the run is reported if and only if nothing was cut, or every response
      listed at the end names its model; without any response nothing is reported. */
  lemma {:induction false} ServedIff(stream: seq<Obs>)
    ensures var served, first, items := ModelServed(FoldAll(stream)), FirstResponse(stream), FoldAll(stream).items;
      && (first.None? ==> served == None)
      && (first.Some? ==>
            served ==
            if |Dedup(stream)| <= 10 || AllSay(items, first.value.model) then Some(first.value.model) else None)
  {
    var l := FoldAll(stream);
    var first := FirstResponse(stream);
    ServedIsFirstResponse(stream);
    CutIff(stream);
    BestKind(l.items);
    TwoModels(l.items);
    if first.Some? {
      FoldKeepsFirst(stream);
      var i :| 0 <= i < |l.items| && Same(l.items[i], first.value);
      NoResponse(stream);
      if |ResponseModels(l.items)| > 1 {
        var a, b :| 0 <= a < b < |l.items| && l.items[a].kind == l.items[b].kind == Response
                    && l.items[a].model != l.items[b].model;
        assert !AllSay(l.items, first.value.model);
      }
    }
  }

  /** Every response on the list names `model`. */
  ghost predicate AllSay(items: seq<Obs>, model: string) {
    forall i :: 0 <= i < |items| && items[i].kind == Response ==> items[i].model == model
  }

  // ---------------------------------------------------------------- the best entry

  /** `b` is where the first entry of the highest rank stands. */
  predicate BestAt(items: seq<Obs>, b: nat) {
    && b < |items|
    && (forall i :: 0 <= i < |items| ==> Rank(items[i].kind) <= Rank(items[b].kind))
    && forall i :: 0 <= i < b ==> Rank(items[i].kind) < Rank(items[b].kind)
  }

  lemma {:induction false} BestIsAt(items: seq<Obs>, b: nat)
    requires BestAt(items, b)
    ensures Best(items) == Some(items[b])
  {
    var n := |items| - 1;
    if b < n {
      BestIsAt(items[..n], b);
    }
  }

  lemma {:induction false} BestExists(items: seq<Obs>) returns (b: nat)
    requires items != []
    ensures BestAt(items, b)
  {
    var n := |items| - 1;
    b := n;
    if n > 0 {
      b := BestExists(items[..n]);
      if Rank(items[n].kind) > Rank(items[b].kind) {
        b := n;
      }
    }
  }

  /** The branch that breaks "first seen within a kind": the list is full, and a new model of the
      strongest kind takes the place of a weaker entry that stands before the best one. */
  predicate Displaces(items: seq<Obs>, o: Obs) {
    && |items| >= MAX_OBSERVATIONS && !Listed(items, o)
    && Rank(o.kind) == Rank(Best(items).value.kind)
    && forall i :: 0 <= i <= Weakest(items) ==> Rank(items[i].kind) < Rank(o.kind)
  }

  /** What one observation does to the best entry, exactly. */
  lemma BestStep(items: seq<Obs>, o: Obs)
    requires items != []
    ensures var best := Best(items).value;
      Best(Fold(items, o).0) == Some(if Rank(o.kind) > Rank(best.kind) || Displaces(items, o) then o else best)
  {
    var b := BestExists(items);
    BestIsAt(items, b);
    var items' := Fold(items, o).0;
    if Listed(items, o) {
      BestIsAt(items', b);
    } else if |items| < MAX_OBSERVATIONS {
      BestIsAt(items', if Rank(o.kind) > Rank(items[b].kind) then |items| else b);
    } else {
      var w := Weakest(items);
      BestIsAt(items', if Rank(o.kind) > Rank(items[b].kind) || Displaces(items, o) then w else b);
    }
  }

  /** The first observation of rank `r`. */
  function FirstOf(s: seq<Obs>, r: nat): (f: Option<Obs>)
    ensures f.Some? ==> Rank(f.value.kind) == r
  {
    if s == [] then None
    else
      var f := FirstOf(s[..|s| - 1], r);
      if f.Some? then f else if Rank(s[|s| - 1].kind) == r then Some(s[|s| - 1]) else None
  }

  lemma {:induction false} NoneAbove(s: seq<Obs>, r: nat)
    requires r > Strongest(s)
    ensures FirstOf(s, r) == None
  {
    if s != [] {
      NoneAbove(s[..|s| - 1], r);
    }
  }

  /** What the source promises of `model_observed_best`: the strongest kind, first seen within it. */
  predicate BestIsFirst(stream: seq<Obs>) {
    Best(FoldAll(stream).items) == FirstOf(stream, Strongest(stream))
  }

  /** Since the strongest kind of the stream was first seen, a new model of it displaced the best. */
  predicate Displaced(stream: seq<Obs>) {
    && stream != []
    && var before, o := stream[..|stream| - 1], stream[|stream| - 1];
      && Rank(o.kind) <= Strongest(before)
      && (Displaced(before) || Displaces(FoldAll(before).items, o))
  }

  lemma FoldFirst(stream: seq<Obs>)
    requires |stream| == 1
    ensures FoldAll(stream) == Log(stream, false)
  {
    assert stream == stream[..0] + [stream[0]] && FoldAll(stream[..0]) == Log([], false);
  }

  /** The first observation of the strongest kind is listed for good. */
  lemma {:induction false} FirstStays(stream: seq<Obs>)
    requires stream != []
    ensures var f := FirstOf(stream, Strongest(stream)); f.Some? && f.value in FoldAll(stream).items
    ensures FoldAll(stream).items != [] && Rank(Best(FoldAll(stream).items).value.kind) == Strongest(stream)
  {
    var before, o := stream[..|stream| - 1], stream[|stream| - 1];
    var items := FoldAll(before).items;
    if before == [] {
      FoldFirst(stream);
    } else {
      FirstStays(before);
      BestStep(items, o);
      if Rank(o.kind) > Strongest(before) {
        NoneAbove(before, Rank(o.kind));
        NewStrongest(items, o);
      } else {
        var f := FirstOf(before, Strongest(before)).value;
        StrongStays(items, o, f);
      }
    }
  }

  lemma NewStrongest(items: seq<Obs>, o: Obs)
    requires items != [] && Rank(o.kind) > Rank(Best(items).value.kind)
    ensures o in Fold(items, o).0
  {
    if |items| >= MAX_OBSERVATIONS {
      var w := Weakest(items);
      assert items[w := o][w] == o;
    } else {
      assert (items + [o])[|items|] == o;
    }
  }

  lemma StrongStays(items: seq<Obs>, o: Obs, f: Obs)
    requires f in items && Rank(f.kind) == Rank(Best(items).value.kind) && Rank(o.kind) <= Rank(f.kind)
    ensures f in Fold(items, o).0
  {
    var i :| 0 <= i < |items| && items[i] == f;
    if !Listed(items, o) && |items| >= MAX_OBSERVATIONS && Rank(o.kind) > Rank(items[Weakest(items)].kind) {
      assert items[Weakest(items) := o][i] == f;
    }
  }

  /** For every stream: `model_observed_best` is the first seen of the strongest kind if and only if
      no later model of that kind displaced it. */
  lemma {:induction false} BestIsFirstIff(stream: seq<Obs>)
    requires stream != []
    ensures BestIsFirst(stream) <==> !Displaced(stream)
  {
    var before, o := stream[..|stream| - 1], stream[|stream| - 1];
    var items := FoldAll(before).items;
    if before == [] {
      FoldFirst(stream);
      BestIsAt(stream, 0);
      FirstIs(stream, 0);
    } else {
      BestIsFirstIff(before);
      FirstStays(before);
      BestStep(items, o);
      if Rank(o.kind) > Strongest(before) {
        NoneAbove(before, Rank(o.kind));
      } else if Displaces(items, o) {
        var f := FirstOf(before, Strongest(before)).value;
        assert f in items && !Listed(items, o);
        var i :| 0 <= i < |items| && items[i] == f;
        assert !Same(items[i], o);
      }
    }
  }

  lemma {:induction false} UncutNotDisplaced(stream: seq<Obs>)
    requires !FoldAll(stream).truncated
    ensures !Displaced(stream)
  {
    if stream != [] {
      UncutNotDisplaced(stream[..|stream| - 1]);
    }
  }

  /** As long as nothing was dropped or evicted the promise holds. */
  lemma UncutBestIsFirst(stream: seq<Obs>)
    requires stream != [] && !FoldAll(stream).truncated
    ensures BestIsFirst(stream)
  {
    BestIsFirstIff(stream);
    UncutNotDisplaced(stream);
  }

  lemma {:induction false} FoldDistinct(items: seq<Obs>)
    requires DistinctPairs(items) && |items| <= MAX_OBSERVATIONS
    ensures FoldAll(items) == Log(items, false)
  {
    if items != [] {
      var before, o := items[..|items| - 1], items[|items| - 1];
      assert items == before + [o];
      LastIsNew(before, o);
      FoldDistinct(before);
    }
  }

  lemma LastIsNew(before: seq<Obs>, o: Obs)
    requires DistinctPairs(before + [o])
    ensures DistinctPairs(before) && !Listed(before, o)
  {
    assert (before + [o])[|before|] == o;
    assert forall i :: 0 <= i < |before| ==> before[i] == (before + [o])[i];
  }

  /** Ten different models fill the list, a session_init first and a thread_config second, none of
      them a response; then comes a new thread_config. */
  predicate Crowded(ten: seq<Obs>, o: Obs) {
    && |ten| == MAX_OBSERVATIONS && (forall i, k :: 0 <= i < k < |ten| ==> !Same(ten[i], ten[k]))
    && !Listed(ten, o) && o.kind == ThreadConfig
    && ten[0].kind == SessionInit && ten[1].kind == ThreadConfig
    && forall i :: 0 <= i < |ten| ==> ten[i].kind != Response
  }

  lemma CrowdedDisplaces(ten: seq<Obs>, o: Obs)
    requires Crowded(ten, o)
    ensures Displaces(ten, o) && Best(ten) == Some(ten[1])
  {
    BestIsAt(ten, 1);
  }

  /** So the promise does fail: the best entry is then the last one seen, not the first. */
  lemma BestNeedNotBeFirstSeen(ten: seq<Obs>, o: Obs)
    requires Crowded(ten, o)
    ensures Best(FoldAll(ten + [o]).items) == Some(o)
    ensures FirstOf(ten + [o], Strongest(ten + [o])) == Some(ten[1]) && ten[1] != o
  {
    var stream := ten + [o];
    assert stream[..|stream| - 1] == ten;
    FoldDistinct(ten);
    CrowdedDisplaces(ten, o);
    BestStep(ten, o);
    assert BestAt(stream, 1);
    FirstIs(stream, 1);
    assert !Same(ten[1], o);
  }

  /** Model `n` of an example stream. */
  function Example(n: nat): (o: Obs)
    requires n < 26
    ensures |o.model| == 1 && o.model[0] == ('a' as int + n) as char
  {
    Obs([('a' as int + n) as char], if n == 1 || n == 10 then ThreadConfig else SessionInit, "cli")
  }

  function Examples(n: nat): (os: seq<Obs>)
    requires n < 26
    ensures |os| == n && forall i :: 0 <= i < n ==> os[i] == Example(i)
  {
    if n == 0 then [] else Examples(n - 1) + [Example(n - 1)]
  }

  /** Such a stream exists: models "a" to "k". */
  lemma ElevenModels()
    ensures Crowded(Examples(10), Example(10)) && !BestIsFirst(Examples(10) + [Example(10)])
  {
    var ten := Examples(10);
    forall i, k | 0 <= i < k <= 10
      ensures !Same(Example(i), Example(k))
    {
      assert Example(i).model[0] != Example(k).model[0];
    }
    assert Crowded(ten, Example(10));
    BestNeedNotBeFirstSeen(ten, Example(10));
  }

  lemma {:induction false} FirstIs(s: seq<Obs>, i: nat)
    requires BestAt(s, i)
    ensures Strongest(s) == Rank(s[i].kind) && FirstOf(s, Strongest(s)) == Some(s[i])
  {
    var n := |s| - 1;
    if i < n {
      FirstIs(s[..n], i);
    } else {
      StrongestBelow(s[..n], Rank(s[n].kind));
      NoneAbove(s[..n], Rank(s[n].kind));
    }
  }

  lemma StrongestBelow(s: seq<Obs>, r: nat)
    requires r > 0 && forall i :: 0 <= i < |s| ==> Rank(s[i].kind) < r
    ensures Strongest(s) < r
  {
  }
}
