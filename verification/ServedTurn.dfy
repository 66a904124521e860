/**
 A tool turn against the real handoff: the loops of CodexTurn and ClaudeTurn, with the replies of
 `publish_call` and `take_result` that the queue row gives while clients and others use it.
 */
module ServedTurn {
  import opened Wrappers
  import opened TurnLaw
  import Handoff = ToolHandoff
  import CodexTurn
  import ClaudeTurn

  /** A message loop with variables `S`: what it does, and where it talks to the handoff. */
  datatype Loop<!S, !I> = Loop(
    fate: (S, I) -> Fate<S>,
    write: (S, I) -> seq<Act>,
    last: S -> seq<Act>,
    asks: (S, I) -> Option<Request>,
    publish: I -> Offered,
    take: I -> Wait)

  /** The loop publishes and answers only the call it asks for, as the replies say. */
  ghost predicate Honest<S(!new), I(!new)>(l: Loop<S, I>) {
    && (forall st, i :: l.asks(st, i).None? ==> Silent(l.write(st, i)))
    && (forall st, i :: l.asks(st, i).Some? ==> Faithful(l.write(st, i), l.asks(st, i).value, l.publish(i), l.take(i)))
    && (forall st :: Silent(l.last(st)))
  }

  // ---------------------------------------------------------------- one conversation with the row

  /** One poll of `take_result`, and what others did to the row before it. */
  datatype Poll = Poll(between: seq<Handoff.Step>, fencesHold: bool, now: real)

  /** Offering one call: what others did before it, the offer, the polls for its result. */
  datatype Talk = Talk(before: seq<Handoff.Step>, fencesHold: bool, offer: Handoff.Publication, now: real,
        polls: seq<Poll>)

  function Polled(j: Handoff.Job, s: Handoff.State, polls: seq<Poll>, id: string): (Handoff.State, Wait)
    decreases |polls|
  {
    if polls == [] then (s, Exited)
    else
      var p := polls[0];
      var s1 := Handoff.Run(j, s, p.between);
      var s2 := Handoff.Next(j, s1, Handoff.DoTake(p.fencesHold, id, p.now));
      match Handoff.Take(s1.box, p.fencesHold, id, p.now).1
      case Took(a) => (s2, Got(a))
      case NotYet => Polled(j, s2, polls[1..], id)
      case TakeConflict => (s2, WaitConflict)
      case TakeCancelled => (s2, WaitCancelled)
      case TakeStale => (s2, WaitStale)
  }

  /** The loop gives the call's id and its tool; what else is offered, and when, is free. */
  function Talked(j: Handoff.Job, s: Handoff.State, talk: Talk, id: string, tool: string)
    : (Handoff.State, Handoff.PublishReply, Wait)
  {
    var s1 := Handoff.Run(j, s, talk.before);
    var offer := talk.offer.(id := id, name := tool);
    var s2 := Handoff.Next(j, s1, Handoff.DoPublish(talk.fencesHold, offer, talk.now));
    var r := Handoff.Publish(j, s1.box, talk.fencesHold, offer, talk.now).1;
    var (s3, wait) := Polled(j, s2, talk.polls, id);
    if r == Handoff.Published then (s3, r, wait) else (s2, r, Exited)
  }

  /** Nobody else publishes a call of that id while the worker polls for it. */
  predicate OwnId(polls: seq<Poll>, id: string) {
    forall p, step :: p in polls && step in p.between && step.DoPublish? ==> step.p.id != id
  }

  /** The row after input `i`, which talks to it only when the loop asks. */
  function After<S, I>(l: Loop<S, I>, j: Handoff.Job, name: CallId -> string, s: Handoff.State, st: S, i: I,
        talk: Talk): Handoff.State {
    match l.asks(st, i)
    case None => s
    case Some(r) => Talked(j, s, talk, name(r.id), r.tool).0
  }

  /** The replies in `i` are the row's, unless the database failed. */
  predicate FromRow<S, I>(l: Loop<S, I>, j: Handoff.Job, name: CallId -> string, s: Handoff.State, st: S, i: I,
        talk: Talk, own: bool) {
    match l.asks(st, i)
    case None => true
    case Some(q) =>
      var (_, r, wait) := Talked(j, s, talk, name(q.id), q.tool);
      && (own ==> OwnId(talk.polls, name(q.id)))
      && (l.publish(i) == Replied(r) || l.publish(i) == OfferRaised) && (l.take(i) == wait || l.take(i) == WaitRaised)
  }

  /** So is every reply of the turn; `own`: and no one else publishes a call of the same id meanwhile. */
  predicate Served<S, I>(l: Loop<S, I>, j: Handoff.Job, name: CallId -> string, s: Handoff.State, st: S,
        inputs: seq<I>, talks: seq<Talk>, own: bool)
    decreases |inputs|
  {
    && |talks| == |inputs|
    && (inputs != [] ==>
          && FromRow(l, j, name, s, st, inputs[0], talks[0], own)
          && var f := l.fate(st, inputs[0]);
            f.GoesOn? ==> Served(l, j, name, After(l, j, name, s, st, inputs[0], talks[0]), f.next, inputs[1..],
                talks[1..], own))
  }

  /** The row when the turn is over. */
  function AtEnd<S, I>(l: Loop<S, I>, j: Handoff.Job, name: CallId -> string, s: Handoff.State, st: S,
        inputs: seq<I>, talks: seq<Talk>): Handoff.State
    requires |talks| == |inputs|
    decreases |inputs|
  {
    if inputs == [] then s
    else
      var s' := After(l, j, name, s, st, inputs[0], talks[0]);
      match l.fate(st, inputs[0])
      case Ends(_) => s'
      case GoesOn(next) => AtEnd(l, j, name, s', next, inputs[1..], talks[1..])
  }

  // ---------------------------------------------------------------- what the row remembers

  /** The result `a` was accepted for `id`, handed out, and is in the history; `own`: it was accepted
      as a result of `tool`. */
  ghost predicate Delivered(s: Handoff.State, id: string, tool: string, a: Handoff.Answer, own: bool) {
    && id in s.taken && s.taken[id] == a
    && id in s.accepted && s.accepted[id].answer == a && (own ==> s.accepted[id].name == tool)
    && Handoff.InHistory(s.box.history, id)
  }

  /** Whatever else happens to the row from `s` to `s'`, acceptances and deliveries stay. */
  ghost predicate Later(j: Handoff.Job, s: Handoff.State, s': Handoff.State) {
    && Handoff.Sound(j, s')
    && (forall id :: id in s.taken ==> id in s'.taken && s'.taken[id] == s.taken[id])
    && forall id :: id in s.accepted ==> id in s'.accepted && s'.accepted[id] == s.accepted[id]
  }

  /** The pending call, if it is `id`, is for `tool`. */
  predicate Offers(s: Handoff.State, id: string, tool: string) {
    s.box.pending.Some? && s.box.pending.value.id == id ==> s.box.pending.value.name == tool
  }

  lemma StepLater(j: Handoff.Job, s: Handoff.State, step: Handoff.Step)
    requires Handoff.Sound(j, s)
    ensures Later(j, s, Handoff.Next(j, s, step))
  {
    Handoff.NextSound(j, s, step);
    if step.DoTake? && s.box.pending.Some? && step.id in s.taken {
      assert Handoff.InHistory(s.box.history, step.id);
    }
    if step.DoSubmit? {
      Handoff.AcceptsFresh(j, s, step.projectId, step.id, step.a, step.now);
    }
  }

  lemma {:induction false} RunOffers(j: Handoff.Job, s: Handoff.State, steps: seq<Handoff.Step>, id: string,
                                     tool: string)
    requires Offers(s, id, tool) && forall step :: step in steps && step.DoPublish? ==> step.p.id != id
    ensures Offers(Handoff.Run(j, s, steps), id, tool)
    decreases |steps|
  {
    if steps != [] {
      RunOffers(j, Handoff.Next(j, s, steps[0]), steps[1..], id, tool);
    }
  }

  lemma {:induction false} RunLater(j: Handoff.Job, s: Handoff.State, steps: seq<Handoff.Step>)
    requires Handoff.Sound(j, s)
    ensures Later(j, s, Handoff.Run(j, s, steps))
    decreases |steps|
  {
    if steps != [] {
      StepLater(j, s, steps[0]);
      RunLater(j, Handoff.Next(j, s, steps[0]), steps[1..]);
    }
  }

  lemma DeliveredLater(j: Handoff.Job, s: Handoff.State, s': Handoff.State, id: string, tool: string,
                       a: Handoff.Answer, own: bool)
    requires Delivered(s, id, tool, a, own) && Later(j, s, s')
    ensures Delivered(s', id, tool, a, own)
  {
  }

  lemma TakenDelivered(j: Handoff.Job, s: Handoff.State, fencesHold: bool, id: string, tool: string, now: real,
                       own: bool)
    requires Handoff.Sound(j, s) && (own ==> Offers(s, id, tool)) && Handoff.Take(s.box, fencesHold, id, now).1.Took?
    ensures Delivered(Handoff.Next(j, s, Handoff.DoTake(fencesHold, id, now)), id, tool,
                      Handoff.Take(s.box, fencesHold, id, now).1.answer, own)
  {
    StepLater(j, s, Handoff.DoTake(fencesHold, id, now));
  }

  lemma {:induction false} PolledDelivers(j: Handoff.Job, s: Handoff.State, polls: seq<Poll>, id: string, tool: string,
                                          own: bool)
    requires Handoff.Sound(j, s) && (own ==> Offers(s, id, tool) && OwnId(polls, id))
    ensures var (s', wait) := Polled(j, s, polls, id);
      Later(j, s, s') && (wait.Got? ==> Delivered(s', id, tool, wait.answer, own))
    decreases |polls|
  {
    if polls != [] {
      var p := polls[0];
      var s1 := Handoff.Run(j, s, p.between);
      var s2 := Handoff.Next(j, s1, Handoff.DoTake(p.fencesHold, id, p.now));
      assert p in polls;
      RunLater(j, s, p.between);
      if own {
        RunOffers(j, s, p.between, id, tool);
      }
      StepLater(j, s1, Handoff.DoTake(p.fencesHold, id, p.now));
      var r := Handoff.Take(s1.box, p.fencesHold, id, p.now).1;
      if r.Took? {
        TakenDelivered(j, s1, p.fencesHold, id, tool, p.now, own);
      } else if r == Handoff.NotYet {
        PolledDelivers(j, s2, polls[1..], id, tool, own);
      }
    }
  }

  lemma TalkDelivers(j: Handoff.Job, s: Handoff.State, talk: Talk, id: string, tool: string, own: bool)
    requires Handoff.Sound(j, s) && (own ==> OwnId(talk.polls, id))
    ensures var (s', r, wait) := Talked(j, s, talk, id, tool);
      Later(j, s, s') && (wait.Got? ==> Delivered(s', id, tool, wait.answer, own))
  {
    var s1 := Handoff.Run(j, s, talk.before);
    var publish := Handoff.DoPublish(talk.fencesHold, talk.offer.(id := id, name := tool), talk.now);
    RunLater(j, s, talk.before);
    StepLater(j, s1, publish);
    if Handoff.Publish(j, s1.box, talk.fencesHold, publish.p, talk.now).1 == Handoff.Published {
      PolledDelivers(j, Handoff.Next(j, s1, publish), talk.polls, id, tool, own);
    }
  }

  // ---------------------------------------------------------------- the turn

  /** Every answer in `acts` was delivered by the row, for the tool its call was published with. */
  ghost predicate AllDelivered(name: CallId -> string, s: Handoff.State, acts: seq<Act>, own: bool) {
    forall a :: a in acts && a.Answer? ==>
      exists tool :: Publish(a.id, tool) in acts && Delivered(s, name(a.id), tool, a.answer, own)
  }

  lemma AllDeliveredLater(j: Handoff.Job, name: CallId -> string, s: Handoff.State, s': Handoff.State,
                          acts: seq<Act>, more: seq<Act>, own: bool)
    requires Later(j, s, s') && AllDelivered(name, s, acts, own) && AllDelivered(name, s', more, own)
    ensures AllDelivered(name, s', acts + more, own)
  {
    forall a | a in acts + more && a.Answer?
      ensures exists tool :: Publish(a.id, tool) in acts + more && Delivered(s', name(a.id), tool, a.answer, own)
    {
      if a in acts {
        var tool :| Publish(a.id, tool) in acts && Delivered(s, name(a.id), tool, a.answer, own);
        DeliveredLater(j, s, s', name(a.id), tool, a.answer, own);
        assert Publish(a.id, tool) in acts + more;
      } else {
        var tool :| Publish(a.id, tool) in more && Delivered(s', name(a.id), tool, a.answer, own);
        assert Publish(a.id, tool) in acts + more;
      }
    }
  }

  lemma InputDelivers<S(!new), I(!new)>(
      l: Loop<S, I>, j: Handoff.Job, name: CallId -> string, s: Handoff.State, st: S, i: I, talk: Talk, own: bool)
    requires Honest(l) && Handoff.Sound(j, s) && FromRow(l, j, name, s, st, i, talk, own)
    ensures var s' := After(l, j, name, s, st, i, talk);
      Later(j, s, s') && AllDelivered(name, s', l.write(st, i), own)
  {
    match l.asks(st, i)
    case None =>
    case Some(r) =>
      TalkDelivers(j, s, talk, name(r.id), r.tool, own);
      var acts, s' := l.write(st, i), After(l, j, name, s, st, i, talk);
      forall a | a in acts && a.Answer?
        ensures exists tool :: Publish(a.id, tool) in acts && Delivered(s', name(a.id), tool, a.answer, own)
      {
        assert Publish(a.id, r.tool) in acts && Delivered(s', name(a.id), r.tool, a.answer, own);
      }
  }

  /** For every stream, and every interleaving of clients, retries, deadlines, cancels and others
      with the turn: each answer the model is given is the result accepted for that very call and
      tool, and it is in the history when the turn is over. */
  lemma {:induction false} TurnDelivers<S(!new), I(!new)>(
      l: Loop<S, I>, j: Handoff.Job, name: CallId -> string, s: Handoff.State, st: S, inputs: seq<I>, talks: seq<Talk>,
      own: bool)
    requires Honest(l) && Handoff.Sound(j, s) && Served(l, j, name, s, st, inputs, talks, own)
    ensures var s' := AtEnd(l, j, name, s, st, inputs, talks);
      Later(j, s, s') && AllDelivered(name, s', ActsOf(l.fate, l.write, l.last, st, inputs), own)
    decreases |inputs|
  {
    if inputs != [] {
      InputDelivers(l, j, name, s, st, inputs[0], talks[0], own);
      var f, s1 := l.fate(st, inputs[0]), After(l, j, name, s, st, inputs[0], talks[0]);
      if f.GoesOn? {
        TurnDelivers(l, j, name, s1, f.next, inputs[1..], talks[1..], own);
        AllDeliveredLater(j, name, s1, AtEnd(l, j, name, s1, f.next, inputs[1..], talks[1..]), l.write(st, inputs[0]),
                          ActsOf(l.fate, l.write, l.last, f.next, inputs[1..]), own);
      } else {
        assert l.write(st, inputs[0]) + [] == l.write(st, inputs[0]);
      }
    }
  }

  /** A completed turn leaves nothing behind: each call it published was answered, with the result
      accepted for its tool, and is in the history. */
  lemma CompletedTurnServed(t: Terms, name: CallId -> string, s: Handoff.State, acts: seq<Act>, i: nat, own: bool)
    requires Watch(t, acts).Some? && AllDelivered(name, s, acts, own)
    requires acts != [] && acts[|acts| - 1].Yield? && acts[|acts| - 1].event.RunCompleted?
    requires i < |acts| && acts[i].Publish?
    ensures exists a :: Answer(acts[i].id, a) in acts && Delivered(s, name(acts[i].id), acts[i].tool, a, own)
  {
    ActAllowed(t, acts, |acts| - 1);
    PublishedAnswered(t, acts, i);
    var k :| i < k < |acts| && acts[k].Answer? && acts[k].id == acts[i].id;
    assert acts[k] in acts && acts[k] == Answer(acts[i].id, acts[k].answer);
    var tool :| Publish(acts[k].id, tool) in acts && Delivered(s, name(acts[k].id), tool, acts[k].answer, own);
    var n :| 0 <= n < |acts| && acts[n] == Publish(acts[k].id, tool);
    if n != i {
      NoCallAfterTerminalResult(t, acts, if n < i then n else i, if n < i then i else n);
    }
  }

  // ---------------------------------------------------------------- the two loops

  function CodexLoop(c: CodexTurn.Config): Loop<CodexTurn.Turn, CodexTurn.Input> {
    Loop(CodexTurn.Reading(c), CodexTurn.Writing(c), CodexTurn.DriedUp(c), CodexTurn.AsksNow(c),
         (i: CodexTurn.Input) => i.publish, (i: CodexTurn.Input) => i.take)
  }

  function ClaudeLoop(t: Terms): Loop<ClaudeTurn.Turn, ClaudeTurn.Input> {
    Loop(ClaudeTurn.Reading(t), ClaudeTurn.Writing(t), ClaudeTurn.DriedUp(t), ClaudeTurn.AsksNow(t),
         (i: ClaudeTurn.Input) => i.publish, (i: ClaudeTurn.Input) => i.take)
  }

  /** A Codex turn with an honest row: what the model is told is what the client was told is accepted. */
  lemma CodexTurnServed(c: CodexTurn.Config, j: Handoff.Job, name: CallId -> string, s: Handoff.State,
                        inputs: seq<CodexTurn.Input>, talks: seq<Talk>, own: bool)
    requires Handoff.Sound(j, s) && Served(CodexLoop(c), j, name, s, CodexTurn.Opening(c), inputs, talks, own)
    ensures AllDelivered(name, AtEnd(CodexLoop(c), j, name, s, CodexTurn.Opening(c), inputs, talks),
                         CodexTurn.TurnActs(c, CodexTurn.Opening(c), inputs), own)
  {
    forall st, i
      ensures CodexTurn.AsksNow(c)(st, i).None? ==> Silent(CodexTurn.Writing(c)(st, i))
      ensures CodexTurn.AsksNow(c)(st, i).Some? ==>
        Faithful(CodexTurn.Writing(c)(st, i), CodexTurn.AsksNow(c)(st, i).value, i.publish, i.take)
    {
      CodexTurn.InputAnswers(c, st, i);
    }
    TurnDelivers(CodexLoop(c), j, name, s, CodexTurn.Opening(c), inputs, talks, own);
  }

  lemma ClaudeTurnServed(t: Terms, j: Handoff.Job, name: CallId -> string, s: Handoff.State,
                         inputs: seq<ClaudeTurn.Input>, talks: seq<Talk>, own: bool)
    requires Handoff.Sound(j, s) && Served(ClaudeLoop(t), j, name, s, ClaudeTurn.Opening(t), inputs, talks, own)
    ensures AllDelivered(name, AtEnd(ClaudeLoop(t), j, name, s, ClaudeTurn.Opening(t), inputs, talks),
                         ClaudeTurn.TurnActs(t, ClaudeTurn.Opening(t), inputs), own)
  {
    forall st, i
      ensures ClaudeTurn.AsksNow(t)(st, i).None? ==> Silent(ClaudeTurn.Writing(t)(st, i))
      ensures ClaudeTurn.AsksNow(t)(st, i).Some? ==>
        Faithful(ClaudeTurn.Writing(t)(st, i), ClaudeTurn.AsksNow(t)(st, i).value, i.publish, i.take)
    {
      ClaudeTurn.InputAnswers(t, st, i);
    }
    TurnDelivers(ClaudeLoop(t), j, name, s, ClaudeTurn.Opening(t), inputs, talks, own);
  }
}
