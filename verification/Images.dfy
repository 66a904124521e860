/**
 The two image collectors of a finished run (agent/images.py) and how the executor gives them one
 byte budget (agent/executor.py). Files are given as what the worker finds when it looks at them.
 */
module Images {
  import opened Wrappers

  type Bytes = seq<bv8>

  const MAX_OUT_SKIPPED := 20

  datatype Reason = TooLarge | TotalBudget | UnsafePath | Empty | NotAnImage

  /** SHA-256, the image decoder, the name given to an exported copy and path normalisation. */
  datatype Foreign = Foreign(
    digest: Bytes -> string,
    decodes: (Bytes, string) -> bool,
    copyName: (nat, string) -> string,
    norm: string -> string)

  datatype Limits = Limits(maxBytes: nat, maxCount: int, total: Option<int>)

  datatype Ref =
    | Delivered(path: string, size: nat, sha: string, content: Bytes)
    | Skipped(path: string, size: nat, reason: Reason)

  /** What looking at one candidate found. */
  datatype Look = Ignored | Rejected(size: nat, reason: Reason) | Image(data: Bytes)

  datatype Item = Item(path: string, look: Look)

  /** At most `n` bytes, as one bounded read returns. */
  function ReadUpTo(b: Bytes, n: nat): Bytes {
    if |b| <= n then b else b[..n]
  }

  // --- Looking at candidates ----------------------------------------------------------------------

  /** A PNG of the thread's directory: its call id when the file name is one, `lstat` result and
      contents, if they could be had. */
  datatype Generated = Generated(callId: Option<string>, inBaseline: bool, stat: Option<Stat>, inside: bool,
        bytes: Option<Bytes>)
  datatype Stat = Stat(regular: bool, size: nat, recent: bool)

  function LookGenerated(f: Foreign, maxBytes: nat, c: Generated): (look: Look)
    ensures look.Image? ==> |look.data| <= maxBytes
    ensures look.Rejected? ==> look.reason == TooLarge && look.size > maxBytes
  {
    if c.inBaseline || c.stat.None? then Ignored
    else if !c.stat.value.regular || c.stat.value.size == 0 || !c.stat.value.recent then Ignored
    else if c.stat.value.size > maxBytes then
      if c.inside then Rejected(c.stat.value.size, TooLarge) else Ignored
    else if !c.inside || c.bytes.None? then Ignored
    else
      var data := ReadUpTo(c.bytes.value, maxBytes + 1);
      if |data| > maxBytes then Rejected(|data|, TooLarge)
      else if !f.decodes(data, "PNG") then Ignored
      else Image(data)
  }

  /** A file under out/: its size when the path is safe, and what the checked open then reads. */
  datatype OutFile = OutFile(path: string, format: string, stat: Option<nat>, bytes: Option<Bytes>)

  function LookOut(f: Foreign, maxBytes: nat, c: OutFile): (look: Look)
    ensures !look.Ignored?
    ensures look.Image? ==> |look.data| <= maxBytes
    ensures look.Rejected? ==> look.reason != TotalBudget
  {
    if c.stat.None? then Rejected(0, UnsafePath)
    else if c.stat.value == 0 then Rejected(0, Empty)
    else if c.stat.value > maxBytes then Rejected(c.stat.value, TooLarge)
    else if c.bytes.None? then Rejected(c.stat.value, UnsafePath)
    else
      var data := ReadUpTo(c.bytes.value, maxBytes + 1);
      if |data| > maxBytes then Rejected(|data|, TooLarge)
      else if !f.decodes(data, c.format) then Rejected(|data|, NotAnImage)
      else Image(data)
  }

  /** A generated image that is turned down is named by its call id only, never by its path. */
  function RefusedName(callId: Option<string>): string {
    "out/" + (if callId.Some? then callId.value else "generated") + ".png"
  }

  function GeneratedItem(f: Foreign, maxBytes: nat, c: Generated): Item {
    Item(RefusedName(c.callId), LookGenerated(f, maxBytes, c))
  }

  /** A path that was already reported is not looked at. */
  function OutItem(f: Foreign, maxBytes: nat, skip: set<string>, c: OutFile): Item {
    Item(c.path, if c.path in skip then Ignored else LookOut(f, maxBytes, c))
  }

  function GeneratedItems(f: Foreign, maxBytes: nat, cs: seq<Generated>): seq<Item> {
    seq(|cs|, i requires 0 <= i < |cs| => GeneratedItem(f, maxBytes, cs[i]))
  }

  function OutItems(f: Foreign, maxBytes: nat, skip: set<string>, cs: seq<OutFile>): seq<Item> {
    seq(|cs|, i requires 0 <= i < |cs| => OutItem(f, maxBytes, skip, cs[i]))
  }

  // --- What a list of references says --------------------------------------------------------------

  function Spent(refs: seq<Ref>): nat {
    if refs == [] then 0
    else
      var r := refs[|refs| - 1];
      Spent(refs[..|refs| - 1]) + if r.Delivered? then r.size else 0
  }

  function Listed(refs: seq<Ref>): nat {
    if refs == [] then 0
    else Listed(refs[..|refs| - 1]) + if refs[|refs| - 1].Skipped? then 1 else 0
  }

  function Shas(refs: seq<Ref>): set<string> {
    set r | r in refs && r.Delivered? :: r.sha
  }

  lemma Append(refs: seq<Ref>, r: Ref)
    ensures Spent(refs + [r]) == Spent(refs) + if r.Delivered? then r.size else 0
    ensures Listed(refs + [r]) == Listed(refs) + if r.Skipped? then 1 else 0
    ensures Shas(refs + [r]) == Shas(refs) + if r.Delivered? then {r.sha} else {}
  {
    assert (refs + [r])[..|refs|] == refs;
  }

  lemma {:induction false} SpentConcat(a: seq<Ref>, b: seq<Ref>)
    ensures Spent(a + b) == Spent(a) + Spent(b)
  {
    if b == [] {
      assert a + b == a;
    } else {
      var last := |b| - 1;
      assert a + b == (a + b[..last]) + [b[last]] && b == b[..last] + [b[last]];
      Append(a + b[..last], b[last]);
      SpentConcat(a, b[..last]);
    }
  }

  /** No two delivered images have the same digest. */
  predicate DistinctShas(refs: seq<Ref>) {
    forall i, j :: 0 <= i < j < |refs| && refs[i].Delivered? && refs[j].Delivered? ==> refs[i].sha != refs[j].sha
  }

  /** The budget holds, and an image was turned down for it only if it really does not fit. */
  predicate InBudget(total: Option<int>, refs: seq<Ref>) {
    && (total.Some? ==> Spent(refs) <= if total.value > 0 then total.value else 0)
    && forall r :: r in refs && r.Skipped? && r.reason == TotalBudget ==>
        total.Some? && Spent(refs) + r.size > total.value
  }

  /** How a collector names the images it delivers: as found, or copied under a new name. */
  datatype Naming = AsFound | Copied

  /** `r` reports `item` truthfully. */
  predicate Reports(f: Foreign, naming: Naming, maxBytes: nat, r: Ref, item: Item) {
    match r
    case Delivered(path, size, sha, content) =>
      && (naming == AsFound ==> path == item.path)
      && item.look == Image(content) && size == |content| <= maxBytes && sha == f.digest(content)
    case Skipped(path, size, reason) =>
      && path == item.path
      && (item.look == Rejected(size, reason)
          || (reason == TotalBudget && item.look.Image? && |item.look.data| == size))
  }

  ghost predicate Truthful(f: Foreign, naming: Naming, maxBytes: nat, refs: seq<Ref>, items: seq<Item>) {
    forall r :: r in refs ==> exists item :: item in items && Reports(f, naming, maxBytes, r, item)
  }

  /** `item` is not lost: delivered, a duplicate, or listed with the reason. */
  predicate Accounted(f: Foreign, item: Item, refs: seq<Ref>, known: set<string>) {
    match item.look
    case Ignored => true
    case Rejected(size, reason) => Skipped(item.path, size, reason) in refs
    case Image(data) => f.digest(data) in known + Shas(refs) || Skipped(item.path, |data|, TotalBudget) in refs
  }

  ghost predicate Complete(f: Foreign, refs: seq<Ref>, items: seq<Item>, known: set<string>) {
    forall item :: item in items ==> Accounted(f, item, refs, known)
  }

  // --- The collectors --------------------------------------------------------------------------------

  /** What both collectors promise of their references. */
  ghost predicate Sound(f: Foreign, naming: Naming, lim: Limits, refs: seq<Ref>, items: seq<Item>, known: set<string>) {
    && DistinctShas(refs)
    && Shas(refs) !! known
    && InBudget(lim.total, refs)
    && Truthful(f, naming, lim.maxBytes, refs, items)
  }

  /** `r` may be the report of `item` after the digests `seen` and the bytes `used`. */
  predicate MayFollow(f: Foreign, naming: Naming, lim: Limits, seen: set<string>, used: nat, r: Ref, item: Item) {
    && Reports(f, naming, lim.maxBytes, r, item)
    && (r.Delivered? ==> r.sha !in seen && (lim.total.None? || used + r.size <= lim.total.value))
    && (r.Skipped? && r.reason == TotalBudget ==> lim.total.Some? && used + r.size > lim.total.value)
  }

  /** The checks both loops make on one candidate: nothing to say, or a reference. */
  method Judge(f: Foreign, naming: Naming, lim: Limits, seen: set<string>, used: nat, position: nat, item: Item)
    returns (r: Option<Ref>)
    requires item.look.Image? ==> |item.look.data| <= lim.maxBytes
    requires item.look.Rejected? ==> item.look.reason != TotalBudget
    ensures r.None? <==> item.look.Ignored? || (item.look.Image? && f.digest(item.look.data) in seen)
    ensures r.Some? ==> MayFollow(f, naming, lim, seen, used, r.value, item)
    ensures r.Some? && r.value.Delivered? && naming == Copied ==> r.value.path == f.copyName(position, r.value.sha)
  {
    match item.look
    case Ignored =>
      r := None;
    case Rejected(size, reason) =>
      r := Some(Skipped(item.path, size, reason));
    case Image(data) =>
      var sha := f.digest(data);
      if sha in seen {
        r := None;
      } else if lim.total.Some? && used + |data| > lim.total.value {
        r := Some(Skipped(item.path, |data|, TotalBudget));
      } else {
        r := Some(Delivered(if naming == Copied then f.copyName(position, sha) else item.path, |data|, sha, data));
      }
  }

  lemma SoundStep(f: Foreign, naming: Naming, lim: Limits, refs: seq<Ref>, items: seq<Item>, known: set<string>,
        r: Ref, item: Item)
    requires Sound(f, naming, lim, refs, items, known)
    requires item in items && MayFollow(f, naming, lim, known + Shas(refs), Spent(refs), r, item)
    ensures Sound(f, naming, lim, refs + [r], items, known)
  {
    Append(refs, r);
  }

  /** `refs` was built one lawful reference at a time. */
  ghost predicate Built(f: Foreign, naming: Naming, lim: Limits, refs: seq<Ref>, items: seq<Item>, known: set<string>) {
    if refs == [] then true
    else
      var before, r := refs[..|refs| - 1], refs[|refs| - 1];
      && Built(f, naming, lim, before, items, known)
      && exists item :: item in items && MayFollow(f, naming, lim, known + Shas(before), Spent(before), r, item)
  }

  lemma {:induction false} BuiltIsSound(f: Foreign, naming: Naming, lim: Limits, refs: seq<Ref>, items: seq<Item>,
        known: set<string>)
    requires Built(f, naming, lim, refs, items, known)
    ensures Sound(f, naming, lim, refs, items, known)
  {
    if refs != [] {
      var before, r := refs[..|refs| - 1], refs[|refs| - 1];
      BuiltIsSound(f, naming, lim, before, items, known);
      var item :| item in items && MayFollow(f, naming, lim, known + Shas(before), Spent(before), r, item);
      SoundStep(f, naming, lim, before, items, known, r, item);
      assert refs == before + [r];
    }
  }

  lemma BuiltStep(f: Foreign, naming: Naming, lim: Limits, refs: seq<Ref>, items: seq<Item>, known: set<string>,
        r: Ref, item: Item)
    requires Built(f, naming, lim, refs, items, known)
    requires item in items && MayFollow(f, naming, lim, known + Shas(refs), Spent(refs), r, item)
    ensures Built(f, naming, lim, refs + [r], items, known)
  {
    assert (refs + [r])[..|refs|] == refs;
  }

  /** A reference to the next candidate completes the list that far. */
  lemma CompleteStep(f: Foreign, naming: Naming, maxBytes: nat, refs: seq<Ref>, items: seq<Item>, i: nat,
        known: set<string>, r: Ref)
    requires i < |items| && Complete(f, refs, items[..i], known)
    requires Reports(f, naming, maxBytes, r, items[i])
    ensures Complete(f, refs + [r], items[..i + 1], known)
  {
    Append(refs, r);
    assert items[..i + 1] == items[..i] + [items[i]];
  }

  lemma CompleteSkip(f: Foreign, refs: seq<Ref>, items: seq<Item>, i: nat, known: set<string>)
    requires i < |items| && Complete(f, refs, items[..i], known)
    requires Accounted(f, items[i], refs, known)
    ensures Complete(f, refs, items[..i + 1], known)
  {
    assert items[..i + 1] == items[..i] + [items[i]];
  }

  /** `export_generated_pngs`: at most `maxCount` references, counting the images it turned down. */
  method ExportGenerated(f: Foreign, lim: Limits, cs: seq<Generated>) returns (refs: seq<Ref>)
    ensures Sound(f, Copied, lim, refs, GeneratedItems(f, lim.maxBytes, cs), {})
    ensures |refs| <= if lim.maxCount > 0 then lim.maxCount else 0
    ensures forall j :: 0 <= j < |refs| && refs[j].Delivered? ==> refs[j].path == f.copyName(j + 1, refs[j].sha)
    ensures |refs| < lim.maxCount ==> Complete(f, refs, GeneratedItems(f, lim.maxBytes, cs), {})
  {
    refs := [];
    var seen: set<string>, used := {}, 0;
    ghost var items := GeneratedItems(f, lim.maxBytes, cs);
    var i := 0;
    while i < |cs|
      invariant 0 <= i <= |cs|
      invariant Sound(f, Copied, lim, refs, items, {})
      invariant Complete(f, refs, items[..i], {})
      invariant seen == Shas(refs) && used == Spent(refs)
      invariant |refs| <= if lim.maxCount > 0 then lim.maxCount else 0
      invariant forall j :: 0 <= j < |refs| && refs[j].Delivered? ==> refs[j].path == f.copyName(j + 1, refs[j].sha)
    {
      if |refs| >= lim.maxCount {
        break;
      }
      var item := GeneratedItem(f, lim.maxBytes, cs[i]);
      assert item == items[i];
      var r := Judge(f, Copied, lim, seen, used, |refs| + 1, item);
      if r.Some? {
        seen, used := Tally(seen, used, r.value);
        assert {} + Shas(refs) == Shas(refs);
        SoundStep(f, Copied, lim, refs, items, {}, r.value, item);
        CompleteStep(f, Copied, lim.maxBytes, refs, items, i, {}, r.value);
        Append(refs, r.value);
        refs := refs + [r.value];
      } else {
        CompleteSkip(f, refs, items, i, {});
      }
      i := i + 1;
    }
    assert i == |cs| ==> items[..i] == items;
  }

  /** A delivered image's digest is seen and its bytes are used. */
  method Tally(seen: set<string>, used: nat, r: Ref) returns (seen': set<string>, used': nat)
    ensures seen' == seen + if r.Delivered? then {r.sha} else {}
    ensures used' == used + if r.Delivered? then r.size else 0
  {
    seen', used' := seen, used;
    if r.Delivered? {
      seen', used' := seen + {r.sha}, used + r.size;
    }
  }

  /** The counters of the out/ loop say what its references are. */
  datatype Tallies = Tallies(seen: set<string>, used: nat, delivered: int, rejected: nat)

  ghost predicate OutProgress(f: Foreign, lim: Limits, refs: seq<Ref>, items: seq<Item>, i: nat,
        known: set<string>, t: Tallies) {
    && i <= |items|
    && Built(f, AsFound, lim, refs, items, known)
    && t.seen == known + Shas(refs) && t.used == Spent(refs)
    && t.rejected == Listed(refs) <= MAX_OUT_SKIPPED && t.delivered == |refs| - Listed(refs)
    && t.delivered <= (if lim.maxCount > 0 then lim.maxCount else 0)
    && (t.rejected < MAX_OUT_SKIPPED ==> Complete(f, refs, items[..i], known))
  }

  function Told(t: Tallies, r: Ref): Tallies {
    if r.Delivered? then Tallies(t.seen + {r.sha}, t.used + r.size, t.delivered + 1, t.rejected)
    else t.(rejected := t.rejected + 1)
  }

  lemma OutStep(f: Foreign, lim: Limits, refs: seq<Ref>, items: seq<Item>, i: nat, known: set<string>, t: Tallies,
        r: Ref)
    requires OutProgress(f, lim, refs, items, i, known, t) && i < |items|
    requires MayFollow(f, AsFound, lim, t.seen, t.used, r, items[i])
    requires if r.Delivered? then t.delivered < lim.maxCount else t.rejected < MAX_OUT_SKIPPED
    ensures OutProgress(f, lim, refs + [r], items, i + 1, known, Told(t, r))
  {
    Append(refs, r);
    BuiltStep(f, AsFound, lim, refs, items, known, r, items[i]);
    if t.rejected < MAX_OUT_SKIPPED {
      CompleteStep(f, AsFound, lim.maxBytes, refs, items, i, known, r);
    }
  }

  lemma OutSkip(f: Foreign, lim: Limits, refs: seq<Ref>, items: seq<Item>, i: nat, known: set<string>, t: Tallies)
    requires OutProgress(f, lim, refs, items, i, known, t) && i < |items|
    requires t.rejected < MAX_OUT_SKIPPED ==> Accounted(f, items[i], refs, known)
    ensures OutProgress(f, lim, refs, items, i + 1, known, t)
  {
    if t.rejected < MAX_OUT_SKIPPED {
      CompleteSkip(f, refs, items, i, known);
    }
  }

  /** One candidate: passed over, listed as rejected while there is room, or delivered. */
  method CollectOne(f: Foreign, lim: Limits, refs0: seq<Ref>, ghost items: seq<Item>, i: nat,
        ghost known: set<string>, t0: Tallies, item: Item)
    returns (refs: seq<Ref>, t: Tallies)
    requires OutProgress(f, lim, refs0, items, i, known, t0) && i < |items| && items[i] == item
    requires item.look.Image? ==> |item.look.data| <= lim.maxBytes
    requires item.look.Rejected? ==> item.look.reason != TotalBudget
    requires !item.look.Ignored? ==> t0.delivered < lim.maxCount
    ensures OutProgress(f, lim, refs, items, i + 1, known, t)
  {
    refs, t := refs0, t0;
    var r := Judge(f, AsFound, lim, t.seen, t.used, 0, item);
    if r.Some? && (r.value.Delivered? || t.rejected < MAX_OUT_SKIPPED) {
      OutStep(f, lim, refs, items, i, known, t, r.value);
      refs, t := refs + [r.value], Told(t, r.value);
    } else {
      OutSkip(f, lim, refs, items, i, known, t);
    }
  }

  /** `collect_out_images`: at most `maxCount` deliveries and 20 listed rejections, and nothing whose
      path or digest was already reported. */
  method CollectOut(f: Foreign, lim: Limits, knownShas: set<string>, skip: set<string>, cs: seq<OutFile>)
    returns (refs: seq<Ref>)
    ensures Sound(f, AsFound, lim, refs, OutItems(f, lim.maxBytes, skip, cs), knownShas)
    ensures forall r :: r in refs ==> r.path !in skip
    ensures |refs| - Listed(refs) <= (if lim.maxCount > 0 then lim.maxCount else 0) && Listed(refs) <= MAX_OUT_SKIPPED
    ensures |refs| - Listed(refs) < lim.maxCount && Listed(refs) < MAX_OUT_SKIPPED ==>
      Complete(f, refs, OutItems(f, lim.maxBytes, skip, cs), knownShas)
  {
    ghost var items := OutItems(f, lim.maxBytes, skip, cs);
    refs := [];
    var t := Tallies(knownShas, 0, 0, 0);
    var i := 0;
    while i < |cs|
      invariant 0 <= i <= |cs|
      invariant OutProgress(f, lim, refs, items, i, knownShas, t)
    {
      if cs[i].path !in skip && t.delivered >= lim.maxCount {
        break;
      }
      refs, t := CollectOne(f, lim, refs, items, i, knownShas, t, OutItem(f, lim.maxBytes, skip, cs[i]));
      i := i + 1;
    }
    assert i == |cs| ==> items[..i] == items;
    BuiltIsSound(f, AsFound, lim, refs, items, knownShas);
    OutPathsAreNew(f, lim, refs, skip, cs);
  }

  lemma OutPathsAreNew(f: Foreign, lim: Limits, refs: seq<Ref>, skip: set<string>, cs: seq<OutFile>)
    requires Truthful(f, AsFound, lim.maxBytes, refs, OutItems(f, lim.maxBytes, skip, cs))
    ensures forall r :: r in refs ==> r.path !in skip
  {
  }

  // --- What is delivered, and what becomes of the rest -----------------------------------------------

  /** A PNG of this run's thread, new, regular, inside the directory, within the limit and decodable. */
  predicate GoodPng(f: Foreign, maxBytes: nat, c: Generated, data: Bytes) {
    && !c.inBaseline && c.inside
    && c.stat.Some? && c.stat.value.regular && c.stat.value.recent && 0 < c.stat.value.size <= maxBytes
    && c.bytes == Some(data) && |data| <= maxBytes
    && f.decodes(data, "PNG")
  }

  /** A file that can be opened safely, within the limit, and decodable as what its extension claims. */
  predicate GoodOut(f: Foreign, maxBytes: nat, c: OutFile, data: Bytes) {
    && c.stat.Some? && 0 < c.stat.value <= maxBytes
    && c.bytes == Some(data) && |data| <= maxBytes
    && f.decodes(data, c.format)
  }

  lemma LookGeneratedIff(f: Foreign, maxBytes: nat, c: Generated, data: Bytes)
    ensures LookGenerated(f, maxBytes, c) == Image(data) <==> GoodPng(f, maxBytes, c, data)
  {
  }

  lemma LookOutIff(f: Foreign, maxBytes: nat, c: OutFile, data: Bytes)
    ensures LookOut(f, maxBytes, c) == Image(data) <==> GoodOut(f, maxBytes, c, data)
  {
  }

  /** Whatever the export delivers is the content of such a PNG, and nothing else is. */
  lemma ExportDelivers(f: Foreign, maxBytes: nat, refs: seq<Ref>, cs: seq<Generated>, r: Ref)
    requires Truthful(f, Copied, maxBytes, refs, GeneratedItems(f, maxBytes, cs)) && r in refs && r.Delivered?
    ensures r.size == |r.content| && r.sha == f.digest(r.content)
    ensures exists c :: c in cs && GoodPng(f, maxBytes, c, r.content)
  {
    var items := GeneratedItems(f, maxBytes, cs);
    var item :| item in items && Reports(f, Copied, maxBytes, r, item);
    var i :| 0 <= i < |items| && items[i] == item;
    LookGeneratedIff(f, maxBytes, cs[i], r.content);
    assert cs[i] in cs;
  }

  lemma OutDelivers(f: Foreign, maxBytes: nat, refs: seq<Ref>, skip: set<string>, cs: seq<OutFile>, r: Ref)
    requires Truthful(f, AsFound, maxBytes, refs, OutItems(f, maxBytes, skip, cs)) && r in refs && r.Delivered?
    ensures r.size == |r.content| && r.sha == f.digest(r.content)
    ensures exists c :: c in cs && c.path == r.path && c.path !in skip && GoodOut(f, maxBytes, c, r.content)
  {
    var items := OutItems(f, maxBytes, skip, cs);
    var item :| item in items && Reports(f, AsFound, maxBytes, r, item);
    var i :| 0 <= i < |items| && items[i] == item;
    LookOutIff(f, maxBytes, cs[i], r.content);
    assert cs[i] in cs;
  }

  /** While there is room, every good PNG is delivered, a duplicate, or listed for the budget, and one
      that is too large is listed with its size - as read one byte past the limit when it grew. */
  lemma ExportLosesNothing(f: Foreign, maxBytes: nat, refs: seq<Ref>, cs: seq<Generated>, c: Generated)
    requires Complete(f, refs, GeneratedItems(f, maxBytes, cs), {}) && c in cs
    ensures c.bytes.Some? && GoodPng(f, maxBytes, c, c.bytes.value) ==>
      f.digest(c.bytes.value) in Shas(refs) || Skipped(RefusedName(c.callId), |c.bytes.value|, TotalBudget) in refs
    ensures !c.inBaseline && c.inside && c.stat.Some? && c.stat.value.regular && c.stat.value.recent ==>
      && (c.stat.value.size > maxBytes ==> Skipped(RefusedName(c.callId), c.stat.value.size, TooLarge) in refs)
      && (0 < c.stat.value.size <= maxBytes && c.bytes.Some? && |c.bytes.value| > maxBytes ==>
            Skipped(RefusedName(c.callId), maxBytes + 1, TooLarge) in refs)
  {
    var items := GeneratedItems(f, maxBytes, cs);
    var i :| 0 <= i < |cs| && cs[i] == c;
    assert items[i] == GeneratedItem(f, maxBytes, c) && items[i] in items;
    assert {} + Shas(refs) == Shas(refs);
  }

  /** While there is room, every file under out/ that was not reported before is delivered, a duplicate,
      or listed with its size and the reason. */
  lemma OutLosesNothing(f: Foreign, maxBytes: nat, refs: seq<Ref>, skip: set<string>, cs: seq<OutFile>,
                        known: set<string>, c: OutFile)
    requires Complete(f, refs, OutItems(f, maxBytes, skip, cs), known) && c in cs && c.path !in skip
    ensures match (c.stat, c.bytes)
      case (None, _) => Skipped(c.path, 0, UnsafePath) in refs
      case (Some(n), None) =>
        Skipped(c.path, n, if n == 0 then Empty else if n > maxBytes then TooLarge else UnsafePath) in refs
      case (Some(n), Some(b)) =>
        if n == 0 then Skipped(c.path, 0, Empty) in refs
        else if n > maxBytes then Skipped(c.path, n, TooLarge) in refs
        else if |b| > maxBytes then Skipped(c.path, maxBytes + 1, TooLarge) in refs
        else if !f.decodes(b, c.format) then Skipped(c.path, |b|, NotAnImage) in refs
        else f.digest(b) in known + Shas(refs) || Skipped(c.path, |b|, TotalBudget) in refs
  {
    var items := OutItems(f, maxBytes, skip, cs);
    var i :| 0 <= i < |cs| && cs[i] == c;
    assert items[i] == OutItem(f, maxBytes, skip, c) && items[i] in items;
  }

  // --- One budget for both ---------------------------------------------------------------------------

  /** An ordinary file of the run: its path and, when it carries decodable content, the bytes. */
  datatype Reported = Reported(path: string, content: Option<Bytes>)

  function ReportedShas(f: Foreign, files: seq<Reported>): set<string> {
    set x | x in files && x.content.Some? :: f.digest(x.content.value)
  }

  function ReportedPaths(f: Foreign, files: seq<Reported>, images: seq<Ref>): set<string> {
    (set x | x in files :: f.norm(x.path)) + (set r | r in images :: f.norm(r.path))
  }

  /** The executor: what it exports, then what it finds under out/. Either collector may fail, which
      only loses its own images. Together they stay within the budget and never deliver the same
      bytes twice, nor bytes already among `files`. */
  method CollectRunImages(f: Foreign, maxBytes: nat, maxCount: int, total: int, files: seq<Reported>,
                          generated: seq<Generated>, onDisk: seq<OutFile>, exportFails: bool, outFails: bool)
    returns (images: seq<Ref>, outs: seq<Ref>)
    ensures Spent(images + outs) <= if total > 0 then total else 0
    ensures DistinctShas(images + outs)
    ensures forall r :: r in images + outs && r.Delivered? ==>
      r.size == |r.content| <= maxBytes && r.sha == f.digest(r.content)
    ensures forall r :: r in outs ==> r.path !in ReportedPaths(f, files, images)
    ensures forall r :: r in outs && r.Delivered? ==> r.sha !in ReportedShas(f, files)
    ensures Truthful(f, Copied, maxBytes, images, GeneratedItems(f, maxBytes, generated))
    ensures Truthful(f, AsFound, maxBytes, outs,
                     OutItems(f, maxBytes, ReportedPaths(f, files, images), onDisk))
    ensures exportFails ==> images == []
    ensures outFails ==> outs == []
    ensures !exportFails && |images| < maxCount ==> Complete(f, images, GeneratedItems(f, maxBytes, generated), {})
    ensures !outFails && |outs| - Listed(outs) < maxCount && Listed(outs) < MAX_OUT_SKIPPED ==>
      Complete(f, outs, OutItems(f, maxBytes, ReportedPaths(f, files, images), onDisk),
               ReportedShas(f, files) + Shas(images))
  {
    images, outs := [], [];
    if !exportFails {
      images := ExportGenerated(f, Limits(maxBytes, maxCount, Some(total)), generated);
    }
    var left := if total - Spent(images) > 0 then total - Spent(images) else 0;
    if !outFails {
      outs := CollectOut(f, Limits(maxBytes, maxCount, Some(left)), ReportedShas(f, files) + Shas(images),
                         ReportedPaths(f, files, images), onDisk);
    }
    SpentConcat(images, outs);
    DistinctConcat(images, outs);
  }

  lemma DistinctConcat(a: seq<Ref>, b: seq<Ref>)
    requires DistinctShas(a) && DistinctShas(b) && Shas(a) !! Shas(b)
    ensures DistinctShas(a + b)
  {
    var all := a + b;
    forall i, j | 0 <= i < j < |all| && all[i].Delivered? && all[j].Delivered?
      ensures all[i].sha != all[j].sha
    {
      if i < |a| <= j {
        assert all[i] in a && all[j] in b;
        assert all[i].sha in Shas(a) && all[j].sha in Shas(b);
      }
    }
  }
}
