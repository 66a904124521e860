/**
 The circuit breaker's pruned rings (routing/circuit.py) against the full history of notes.
 Times are readings of one monotone clock, in seconds.
 */
module Circuit {
  import opened Wrappers

  const TIMEOUT_MEMORY_S := 120.0
  const EMPTY_MEMORY_S := 600.0

  /** Last time per key. */
  type Ring = map<int, real>

  datatype Bucket = Bucket(provider: string, scope: Option<string>)

  datatype State = State(keyTimeouts: Ring, timeouts: map<Bucket, Ring>, empties: map<string, Ring>)

  function Pruned(ring: Ring, now: real, w: real): Ring {
    map k | k in ring && now - ring[k] < w :: ring[k]
  }

  /** Every ring pruned, and the ones left empty dropped. */
  function PrunedAll<B>(rings: map<B, Ring>, now: real, w: real): map<B, Ring> {
    map b | b in rings && Pruned(rings[b], now, w) != map[] :: Pruned(rings[b], now, w)
  }

  function RingOf<B>(rings: map<B, Ring>, b: B): Ring {
    if b in rings then rings[b] else map[]
  }

  // --- The module's dictionaries ----------------------------------------------------------------------

  class Breaker {
    var keyTimeouts: Ring
    var timeouts: map<Bucket, Ring>
    var empties: map<string, Ring>

    ghost function Abs(): State
      reads this
    {
      State(keyTimeouts, timeouts, empties)
    }

    constructor ()
      ensures Abs() == State(map[], map[], map[])
    {
      keyTimeouts, timeouts, empties := map[], map[], map[];
    }

    method NoteTimeout(provider: string, key: int, scope: Option<string>, now: real)
      modifies this
      ensures Abs() == Next(old(Abs()), Timeout(provider, key, scope, now))
    {
      keyTimeouts := keyTimeouts[key := now];
      var b := Bucket(provider, scope);
      if b !in timeouts {
        timeouts := timeouts[b := map[]];
      }
      timeouts := timeouts[b := timeouts[b][key := now]];
    }

    method NoteEmptyBody(provider: string, key: int, now: real)
      modifies this
      ensures Abs() == Next(old(Abs()), EmptyBody(provider, key, now))
    {
      if provider !in empties {
        empties := empties[provider := map[]];
      }
      empties := empties[provider := empties[provider][key := now]];
    }

    method RecentTimeoutKeyIds(now: real) returns (ids: set<int>)
      modifies this
      ensures Abs() == Next(old(Abs()), AskKeys(now))
      ensures ids == KeysAnswer(old(Abs()), now)
    {
      var stale := Listing(set k | k in keyTimeouts && now - keyTimeouts[k] >= TIMEOUT_MEMORY_S);
      for i := 0 to |stale|
        invariant keyTimeouts == old(keyTimeouts) - (set k | k in stale[..i])
        invariant timeouts == old(timeouts) && empties == old(empties)
      {
        keyTimeouts := keyTimeouts - {stale[i]};
      }
      assert stale[..|stale|] == stale;
      assert keyTimeouts == Pruned(old(keyTimeouts), now, TIMEOUT_MEMORY_S);
      ids := keyTimeouts.Keys;
    }

    method ProvidersInTimeoutStorm(minKeys: int, scope: Option<string>, now: real) returns (storm: set<string>)
      modifies this
      ensures Abs() == Next(old(Abs()), AskTimeoutStorm(minKeys, scope, now))
      ensures storm == TimeoutStormAnswer(old(Abs()), minKeys, scope, now)
    {
      var todo := Listing(timeouts.Keys);
      ghost var was := timeouts;
      storm := {};
      for i := 0 to |todo|
        invariant timeouts == Swept(was, todo[..i], now, TIMEOUT_MEMORY_S)
        invariant storm == TimeoutStorm(was, todo[..i], minKeys, scope, now)
        invariant keyTimeouts == old(keyTimeouts) && empties == old(empties)
      {
        var b := todo[i];
        SweptStep(was, todo, i, now, TIMEOUT_MEMORY_S);
        TimeoutStormStep(was, todo, i, minKeys, scope, now);
        var left := Pruned(timeouts[b], now, TIMEOUT_MEMORY_S);
        if left == map[] {
          timeouts := timeouts - {b};
          continue;
        }
        timeouts := timeouts[b := left];
        if b.scope == scope && |left| >= minKeys {
          storm := storm + {b.provider};
        }
      }
      assert todo[..|todo|] == todo;
      SweptAll(was, todo, now, TIMEOUT_MEMORY_S);
      TimeoutStormAll(old(Abs()), todo, minKeys, scope, now);
    }

    method ProvidersInEmptyStorm(minKeys: int, now: real) returns (storm: set<string>)
      modifies this
      ensures Abs() == Next(old(Abs()), AskEmptyStorm(minKeys, now))
      ensures storm == EmptyStormAnswer(old(Abs()), minKeys, now)
    {
      var todo := Listing(empties.Keys);
      ghost var was := empties;
      storm := {};
      for i := 0 to |todo|
        invariant empties == Swept(was, todo[..i], now, EMPTY_MEMORY_S)
        invariant storm == EmptyStorm(was, todo[..i], minKeys, now)
        invariant keyTimeouts == old(keyTimeouts) && timeouts == old(timeouts)
      {
        var p := todo[i];
        SweptStep(was, todo, i, now, EMPTY_MEMORY_S);
        EmptyStormStep(was, todo, i, minKeys, now);
        var left := Pruned(empties[p], now, EMPTY_MEMORY_S);
        if left != map[] {
          empties := empties[p := left];
          if |left| >= minKeys {
            storm := storm + {p};
          }
        } else {
          empties := empties - {p};
        }
      }
      assert todo[..|todo|] == todo;
      SweptAll(was, todo, now, EMPTY_MEMORY_S);
    }
  }

  // --- The sweeps -----------------------------------------------------------------------------------------

  predicate Distinct<T(==)>(q: seq<T>) {
    forall i, j :: 0 <= i < j < |q| ==> q[i] != q[j]
  }

  /** The members of a set in some order, each once. */
  method Listing<T(==)>(s: set<T>) returns (q: seq<T>)
    ensures Distinct(q) && forall x :: x in q <==> x in s
  {
    q := [];
    var rest := s;
    while rest != {}
      invariant rest <= s
      invariant Distinct(q)
      invariant forall x :: x in q <==> x in s - rest
      decreases rest
    {
      var x :| x in rest;
      assert x !in q;
      q := q + [x];
      rest := rest - {x};
    }
  }

  /** `rings` after the sweep has gone through the buckets in `done`. */
  ghost function Swept<B>(rings: map<B, Ring>, done: seq<B>, now: real, w: real): map<B, Ring> {
    map b | b in rings && (b in done ==> Pruned(rings[b], now, w) != map[]) ::
      if b in done then Pruned(rings[b], now, w) else rings[b]
  }

  lemma SweptStep<B>(rings: map<B, Ring>, todo: seq<B>, i: nat, now: real, w: real)
    requires Distinct(todo) && i < |todo| && todo[i] in rings
    ensures var b, before := todo[i], Swept(rings, todo[..i], now, w);
      && b in before && before[b] == rings[b]
      && Swept(rings, todo[..i + 1], now, w) ==
         var left := Pruned(rings[b], now, w);
         if left == map[] then before - {b} else before[b := left]
  {
    assert todo[..i + 1] == todo[..i] + [todo[i]];
    assert forall j :: 0 <= j < i ==> todo[j] != todo[i];
  }

  lemma SweptAll<B>(rings: map<B, Ring>, todo: seq<B>, now: real, w: real)
    requires forall b :: b in todo <==> b in rings
    ensures Swept(rings, todo, now, w) == PrunedAll(rings, now, w)
  {
  }

  ghost function TimeoutStorm(rings: map<Bucket, Ring>, done: seq<Bucket>, minKeys: int, scope: Option<string>,
        now: real): set<string> {
    var kept := PrunedAll(rings, now, TIMEOUT_MEMORY_S);
    set b | b in done && b in kept && b.scope == scope && |kept[b]| >= minKeys :: b.provider
  }

  lemma TimeoutStormStep(rings: map<Bucket, Ring>, todo: seq<Bucket>, i: nat, minKeys: int, scope: Option<string>,
        now: real)
    requires i < |todo| && todo[i] in rings
    ensures var b := todo[i];
      var left := Pruned(rings[b], now, TIMEOUT_MEMORY_S);
      TimeoutStorm(rings, todo[..i + 1], minKeys, scope, now) ==
      TimeoutStorm(rings, todo[..i], minKeys, scope, now) +
      if left != map[] && b.scope == scope && |left| >= minKeys then {b.provider} else {}
  {
    assert todo[..i + 1] == todo[..i] + [todo[i]];
  }

  lemma TimeoutStormAll(s: State, todo: seq<Bucket>, minKeys: int, scope: Option<string>, now: real)
    requires forall b :: b in todo <==> b in s.timeouts
    ensures TimeoutStorm(s.timeouts, todo, minKeys, scope, now) == TimeoutStormAnswer(s, minKeys, scope, now)
  {
  }

  ghost function EmptyStorm(rings: map<string, Ring>, done: seq<string>, minKeys: int, now: real): set<string> {
    var kept := PrunedAll(rings, now, EMPTY_MEMORY_S);
    set p | p in done && p in kept && |kept[p]| >= minKeys
  }

  lemma EmptyStormStep(rings: map<string, Ring>, todo: seq<string>, i: nat, minKeys: int, now: real)
    requires i < |todo| && todo[i] in rings
    ensures var p := todo[i];
      var left := Pruned(rings[p], now, EMPTY_MEMORY_S);
      EmptyStorm(rings, todo[..i + 1], minKeys, now) ==
      EmptyStorm(rings, todo[..i], minKeys, now) + if left != map[] && |left| >= minKeys then {p} else {}
  {
    assert todo[..i + 1] == todo[..i] + [todo[i]];
  }

  // --- Histories ----------------------------------------------------------------------------------------

  datatype Event =
    | Timeout(provider: string, key: int, scope: Option<string>, at: real)
    | EmptyBody(provider: string, key: int, at: real)
    | AskKeys(at: real)
    | AskTimeoutStorm(minKeys: int, scope: Option<string>, at: real)
    | AskEmptyStorm(minKeys: int, at: real)

  predicate IsNote(e: Event) {
    e.Timeout? || e.EmptyBody?
  }

  function Noted<B>(rings: map<B, Ring>, b: B, key: int, at: real): map<B, Ring> {
    rings[b := RingOf(rings, b)[key := at]]
  }

  function Next(s: State, e: Event): State {
    match e
    case Timeout(p, key, scope, at) =>
      s.(keyTimeouts := s.keyTimeouts[key := at], timeouts := Noted(s.timeouts, Bucket(p, scope), key, at))
    case EmptyBody(p, key, at) => s.(empties := Noted(s.empties, p, key, at))
    case AskKeys(at) => s.(keyTimeouts := Pruned(s.keyTimeouts, at, TIMEOUT_MEMORY_S))
    case AskTimeoutStorm(_, _, at) => s.(timeouts := PrunedAll(s.timeouts, at, TIMEOUT_MEMORY_S))
    case AskEmptyStorm(_, at) => s.(empties := PrunedAll(s.empties, at, EMPTY_MEMORY_S))
  }

  function Run(events: seq<Event>): State {
    if events == [] then State(map[], map[], map[]) else Next(Run(events[..|events| - 1]), events[|events| - 1])
  }

  function KeysAnswer(s: State, now: real): set<int> {
    Pruned(s.keyTimeouts, now, TIMEOUT_MEMORY_S).Keys
  }

  function TimeoutStormAnswer(s: State, minKeys: int, scope: Option<string>, now: real): set<string> {
    var rings := PrunedAll(s.timeouts, now, TIMEOUT_MEMORY_S);
    set b | b in rings && b.scope == scope && |rings[b]| >= minKeys :: b.provider
  }

  function EmptyStormAnswer(s: State, minKeys: int, now: real): set<string> {
    var rings := PrunedAll(s.empties, now, EMPTY_MEMORY_S);
    set p | p in rings && |rings[p]| >= minKeys
  }

  // --- The full log as the reference -------------------------------------------------------------------

  /** Keys of the timeouts of the last 120 s, of any provider. */
  function LoggedKeys(events: seq<Event>, now: real): set<int> {
    set e | e in events && e.Timeout? && now - e.at < 120.0 :: e.key
  }

  function LoggedTimeouts(events: seq<Event>, b: Bucket, now: real): set<int> {
    set e | e in events && e.Timeout? && e.provider == b.provider && e.scope == b.scope
        && now - e.at < 120.0 :: e.key
  }

  function LoggedEmpties(events: seq<Event>, p: string, now: real): set<int> {
    set e | e in events && e.EmptyBody? && e.provider == p && now - e.at < 600.0 :: e.key
  }

  /** The clock does not go back, and stands at `clock` or earlier. */
  predicate Monotone(events: seq<Event>, clock: real) {
    && (forall i, j :: 0 <= i < j < |events| ==> events[i].at <= events[j].at)
    && forall i :: 0 <= i < |events| ==> events[i].at <= clock
  }

  /** Nothing in the ring is from the future. */
  predicate Past(ring: Ring, clock: real) {
    forall k :: k in ring ==> ring[k] <= clock
  }

  /** From `clock` on, the rings are fresh exactly where the log is. */
  ghost predicate KeysAgree(ring: Ring, events: seq<Event>, clock: real) {
    && Past(ring, clock)
    && forall now | now >= clock :: Pruned(ring, now, TIMEOUT_MEMORY_S).Keys == LoggedKeys(events, now)
  }

  ghost predicate TimeoutsAgree(rings: map<Bucket, Ring>, events: seq<Event>, clock: real) {
    forall b ::
      && Past(RingOf(rings, b), clock)
      && forall now | now >= clock ::
           Pruned(RingOf(rings, b), now, TIMEOUT_MEMORY_S).Keys == LoggedTimeouts(events, b, now)
  }

  ghost predicate EmptiesAgree(rings: map<string, Ring>, events: seq<Event>, clock: real) {
    forall p ::
      && Past(RingOf(rings, p), clock)
      && forall now | now >= clock ::
           Pruned(RingOf(rings, p), now, EMPTY_MEMORY_S).Keys == LoggedEmpties(events, p, now)
  }

  ghost predicate Agrees(s: State, events: seq<Event>, clock: real) {
    && KeysAgree(s.keyTimeouts, events, clock)
    && TimeoutsAgree(s.timeouts, events, clock)
    && EmptiesAgree(s.empties, events, clock)
  }

  /** A note makes its key fresh and leaves the others as they were. */
  lemma NoteRing(ring: Ring, key: int, at: real, now: real, w: real)
    requires Past(ring, at) && at <= now
    ensures Pruned(ring[key := at], now, w).Keys == Pruned(ring, now, w).Keys + if now - at < w then {key} else {}
  {
  }

  lemma PruneRing(ring: Ring, at: real, now: real, w: real)
    requires at <= now
    ensures Pruned(Pruned(ring, at, w), now, w) == Pruned(ring, now, w)
  {
  }

  lemma PrunedRingOf<B>(rings: map<B, Ring>, b: B, at: real, w: real)
    ensures RingOf(PrunedAll(rings, at, w), b) == Pruned(RingOf(rings, b), at, w)
  {
  }

  lemma KeysStep(ring: Ring, events: seq<Event>, e: Event, clock: real)
    requires KeysAgree(ring, events, clock) && clock <= e.at
    ensures KeysAgree(Next(State(ring, map[], map[]), e).keyTimeouts, events + [e], e.at)
  {
    var ring' := Next(State(ring, map[], map[]), e).keyTimeouts;
    forall now | now >= e.at
      ensures Pruned(ring', now, TIMEOUT_MEMORY_S).Keys == LoggedKeys(events + [e], now)
    {
      if e.Timeout? { NoteRing(ring, e.key, e.at, now, TIMEOUT_MEMORY_S); }
      if e.AskKeys? { PruneRing(ring, e.at, now, TIMEOUT_MEMORY_S); }
    }
  }

  lemma TimeoutsStep(rings: map<Bucket, Ring>, events: seq<Event>, e: Event, clock: real)
    requires TimeoutsAgree(rings, events, clock) && clock <= e.at
    ensures TimeoutsAgree(Next(State(map[], rings, map[]), e).timeouts, events + [e], e.at)
  {
    var rings' := Next(State(map[], rings, map[]), e).timeouts;
    forall b
      ensures Past(RingOf(rings', b), e.at)
      ensures forall now | now >= e.at ::
        Pruned(RingOf(rings', b), now, TIMEOUT_MEMORY_S).Keys == LoggedTimeouts(events + [e], b, now)
    {
      var ring := RingOf(rings, b);
      assert Past(ring, clock);
      PrunedRingOf(rings, b, e.at, TIMEOUT_MEMORY_S);
      forall now | now >= e.at
        ensures Pruned(RingOf(rings', b), now, TIMEOUT_MEMORY_S).Keys == LoggedTimeouts(events + [e], b, now)
      {
        if e.Timeout? { NoteRing(ring, e.key, e.at, now, TIMEOUT_MEMORY_S); }
        if e.AskTimeoutStorm? { PruneRing(ring, e.at, now, TIMEOUT_MEMORY_S); }
      }
    }
  }

  lemma EmptiesStep(rings: map<string, Ring>, events: seq<Event>, e: Event, clock: real)
    requires EmptiesAgree(rings, events, clock) && clock <= e.at
    ensures EmptiesAgree(Next(State(map[], map[], rings), e).empties, events + [e], e.at)
  {
    var rings' := Next(State(map[], map[], rings), e).empties;
    forall p
      ensures Past(RingOf(rings', p), e.at)
      ensures forall now | now >= e.at ::
        Pruned(RingOf(rings', p), now, EMPTY_MEMORY_S).Keys == LoggedEmpties(events + [e], p, now)
    {
      var ring := RingOf(rings, p);
      assert Past(ring, clock);
      PrunedRingOf(rings, p, e.at, EMPTY_MEMORY_S);
      forall now | now >= e.at
        ensures Pruned(RingOf(rings', p), now, EMPTY_MEMORY_S).Keys == LoggedEmpties(events + [e], p, now)
      {
        if e.EmptyBody? { NoteRing(ring, e.key, e.at, now, EMPTY_MEMORY_S); }
        if e.AskEmptyStorm? { PruneRing(ring, e.at, now, EMPTY_MEMORY_S); }
      }
    }
  }

  lemma {:induction false} RunAgrees(events: seq<Event>, clock: real)
    requires Monotone(events, clock)
    ensures Agrees(Run(events), events, clock)
  {
    if events != [] {
      var before, e := events[..|events| - 1], events[|events| - 1];
      var s := Run(before);
      RunAgrees(before, e.at);
      KeysStep(s.keyTimeouts, before, e, e.at);
      TimeoutsStep(s.timeouts, before, e, e.at);
      EmptiesStep(s.empties, before, e, e.at);
      assert events == before + [e];
    }
  }

  /** For every history under a monotone clock, whatever was pruned on the way: the answers are
      those of the full log. A provider storms when it has `minKeys` distinct fresh keys, but never
      with none. */
  lemma AnswersAreTheLogs(events: seq<Event>, now: real, minKeys: int, scope: Option<string>)
    requires Monotone(events, now)
    ensures KeysAnswer(Run(events), now) == LoggedKeys(events, now)
    ensures forall p :: p in TimeoutStormAnswer(Run(events), minKeys, scope, now) <==>
      |LoggedTimeouts(events, Bucket(p, scope), now)| >= (if minKeys >= 1 then minKeys else 1)
    ensures forall p :: p in EmptyStormAnswer(Run(events), minKeys, now) <==>
      |LoggedEmpties(events, p, now)| >= (if minKeys >= 1 then minKeys else 1)
  {
    var s := Run(events);
    RunAgrees(events, now);
    forall p
      ensures p in TimeoutStormAnswer(s, minKeys, scope, now) <==>
        |LoggedTimeouts(events, Bucket(p, scope), now)| >= (if minKeys >= 1 then minKeys else 1)
    {
      StormIff(s.timeouts, Bucket(p, scope), now, TIMEOUT_MEMORY_S, minKeys);
    }
    forall p
      ensures p in EmptyStormAnswer(s, minKeys, now) <==>
        |LoggedEmpties(events, p, now)| >= (if minKeys >= 1 then minKeys else 1)
    {
      StormIff(s.empties, p, now, EMPTY_MEMORY_S, minKeys);
    }
  }

  lemma StormIff<B>(rings: map<B, Ring>, b: B, now: real, w: real, minKeys: int)
    ensures var kept := PrunedAll(rings, now, w);
      b in kept && |kept[b]| >= minKeys <==>
      |Pruned(RingOf(rings, b), now, w).Keys| >= (if minKeys >= 1 then minKeys else 1)
  {
    var ring := Pruned(RingOf(rings, b), now, w);
    assert |ring| == |ring.Keys|;
    assert ring == map[] <==> ring.Keys == {};
  }

  function NotesOf(events: seq<Event>): seq<Event> {
    if events == [] then []
    else
      var e := events[|events| - 1];
      NotesOf(events[..|events| - 1]) + if IsNote(e) then [e] else []
  }

  lemma {:induction false} NotesMonotone(events: seq<Event>, now: real)
    requires Monotone(events, now)
    ensures Monotone(NotesOf(events), now)
    ensures forall e :: e in NotesOf(events) <==> e in events && IsNote(e)
  {
    if events != [] {
      var before, e := events[..|events| - 1], events[|events| - 1];
      NotesMonotone(before, e.at);
      assert events == before + [e];
    }
  }

  /** Asking changes no later answer: a history answers as its notes alone would. */
  lemma QueriesAreInvisible(events: seq<Event>, now: real, minKeys: int, scope: Option<string>)
    requires Monotone(events, now)
    ensures var s, quiet := Run(events), Run(NotesOf(events));
      && KeysAnswer(s, now) == KeysAnswer(quiet, now)
      && TimeoutStormAnswer(s, minKeys, scope, now) == TimeoutStormAnswer(quiet, minKeys, scope, now)
      && EmptyStormAnswer(s, minKeys, now) == EmptyStormAnswer(quiet, minKeys, now)
  {
    var notes := NotesOf(events);
    NotesMonotone(events, now);
    AnswersAreTheLogs(events, now, minKeys, scope);
    AnswersAreTheLogs(notes, now, minKeys, scope);
    assert LoggedKeys(events, now) == LoggedKeys(notes, now);
    forall b: Bucket
      ensures LoggedTimeouts(events, b, now) == LoggedTimeouts(notes, b, now)
    {
    }
    forall p: string
      ensures LoggedEmpties(events, p, now) == LoggedEmpties(notes, p, now)
    {
    }
  }

  /** With a threshold below one the answer is not "at least `minKeys` keys": a provider whose keys
      have all gone stale is left out. */
  lemma ZeroThresholdForgets()
    ensures var events := [Timeout("a", 1, None, 0.0)];
      && Monotone(events, 120.0)
      && |LoggedTimeouts(events, Bucket("a", None), 120.0)| >= 0
      && "a" !in TimeoutStormAnswer(Run(events), 0, None, 120.0)
  {
    var events := [Timeout("a", 1, None, 0.0)];
    AnswersAreTheLogs(events, 120.0, 0, None);
    assert LoggedTimeouts(events, Bucket("a", None), 120.0) == {};
  }
}
