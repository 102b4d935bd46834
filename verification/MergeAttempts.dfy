/**
 * What a run says about one call of the owner merge: what other actors appended
 * since it began, which of its own updates missed, and what its reads saw.
 */
module MergeAttempts {
  import opened CompactionTypes
  import opened JobCommands
  import opened Protocol
  import opened ProtocolInvariant
  import opened ProtocolTheorems
  import opened ServiceSteps

  // ------------------------------------------------------------ appending turns

  predicate AllAppends(actions: seq<Action>) {
    forall i :: 0 <= i < |actions| ==> actions[i].Append?
  }

  /** At the awaits time passes and other writers append, and nothing else happens. */
  predicate AppendTurns(turns: seq<Turn>) {
    forall i :: 0 <= i < |turns| ==> turns[i].fault.None? && AllAppends(turns[i].actions)
  }

  predicate AppendsTo(actions: seq<Action>, o: OwnerKey) {
    exists a <- actions :: a.Append? && a.owner == o
  }

  /** How many of the turns append to the context. */
  function Appending(turns: seq<Turn>, o: OwnerKey): nat {
    if turns == [] then 0 else (if AppendsTo(turns[0].actions, o) then 1 else 0) + Appending(turns[1..], o)
  }

  /** Everything the actions append to the context, in order. */
  function AppendedBy(actions: seq<Action>, o: OwnerKey): seq<Message> {
    if actions == [] then []
    else
      var a := actions[|actions| - 1];
      AppendedBy(actions[..|actions| - 1], o) + if a.Append? && a.owner == o then a.messages else []
  }

  lemma {:induction false} AppendedSplits(xs: seq<Action>, ys: seq<Action>, o: OwnerKey)
    ensures AppendedBy(xs + ys, o) == AppendedBy(xs, o) + AppendedBy(ys, o)
    decreases |ys|
  {
    if ys == [] {
      assert xs + ys == xs;
    } else {
      var front := ys[..|ys| - 1];
      assert (xs + ys)[..|xs + ys| - 1] == xs + front;
      AppendedSplits(xs, front, o);
    }
  }

  /** The context `e` is `d` with more messages at its end. */
  predicate Grown(d: ContextDoc, e: ContextDoc, more: seq<Message>) {
    && e.Active() == d.Active() + more && e.fence == d.fence && e.lastApplied == d.lastApplied
    && e.revision >= d.revision
  }

  /** The contexts before and after `actions` were appended; the revision moves exactly with an append. */
  predicate GrownBy(docs: map<OwnerKey, ContextDoc>, more: map<OwnerKey, ContextDoc>, o: OwnerKey,
                    actions: seq<Action>)
  {
    && (o in more <==> o in docs)
    && (o in docs ==>
          && Grown(docs[o], more[o], AppendedBy(actions, o))
          && if AppendsTo(actions, o) then more[o].revision > docs[o].revision else more[o] == docs[o])
  }

  lemma GrownChain(a: ContextDoc, b: ContextDoc, c: ContextDoc, xs: seq<Message>, ys: seq<Message>)
    requires Grown(a, b, xs) && Grown(b, c, ys)
    ensures Grown(a, c, xs + ys)
  {
    assert a.Active() + (xs + ys) == (a.Active() + xs) + ys;
  }

  lemma AppendGrows(s: Sys, a: Action, o: OwnerKey)
    requires a.Append?
    ensures var s' := Next(s, a);
      && s'.jobs == s.jobs && s'.runtimes == s.runtimes && s'.workers == s.workers && s'.history == s.history
      && GrownBy(s.docs, s'.docs, o, [a])
  {
    assert AppendedBy([a], o) == if a.owner == o then a.messages else [] by {
      assert [a][..0] == [];
    }
    assert AppendsTo([a], o) <==> a.owner == o by {
      assert [a][0] == a;
    }
  }

  lemma GrownTwice(docs: map<OwnerKey, ContextDoc>, mid: map<OwnerKey, ContextDoc>, more: map<OwnerKey, ContextDoc>,
                   o: OwnerKey, xs: seq<Action>, ys: seq<Action>)
    requires GrownBy(docs, mid, o, xs) && GrownBy(mid, more, o, ys)
    ensures GrownBy(docs, more, o, xs + ys)
  {
    AppendedSplits(xs, ys, o);
    if o in docs {
      GrownChain(docs[o], mid[o], more[o], AppendedBy(xs, o), AppendedBy(ys, o));
    }
    assert AppendsTo(xs, o) || AppendsTo(ys, o) ==> AppendsTo(xs + ys, o);
    hide Grown, AppendedBy;
  }

  lemma {:induction false} AppendsGrow(s: Sys, actions: seq<Action>, o: OwnerKey)
    requires AllAppends(actions)
    ensures var s' := Run(s, actions);
      && s'.jobs == s.jobs && s'.runtimes == s.runtimes && s'.workers == s.workers && s'.history == s.history
      && GrownBy(s.docs, s'.docs, o, actions)
    decreases |actions|
  {
    hide Next, GrownBy;
    if actions == [] {
      NothingGrows(s.docs, o);
    } else {
      var front, a := actions[..|actions| - 1], actions[|actions| - 1];
      AppendsGrow(s, front, o);
      AppendGrows(Run(s, front), a, o);
      GrownTwice(s.docs, Run(s, front).docs, Run(s, actions).docs, o, front, [a]);
      assert actions == front + [a];
    }
  }

  lemma NothingGrows(docs: map<OwnerKey, ContextDoc>, o: OwnerKey)
    ensures GrownBy(docs, docs, o, [])
  {
  }

  // -------------------------------------------------------------- updates missed

  /** Action `i` is an owner update of claim `t` that took no effect. */
  ghost predicate MissesAt(origin: Sys, trace: seq<Action>, i: nat, t: Token, id: JobId) {
    && i < |trace| && trace[i].Do? && trace[i].token == t && trace[i].move.ApplySwap?
    && !EffectAt(origin, trace, i, t, id, ApplySwap)
  }

  /** How many owner updates of the claim took no effect from a point of the trace on. */
  ghost function Missed(origin: Sys, trace: seq<Action>, since: nat, t: Token, id: JobId): nat
    decreases |trace|
  {
    if |trace| <= since then 0
    else
      Missed(origin, trace[..|trace| - 1], since, t, id)
      + if MissesAt(origin, trace, |trace| - 1, t, id) then 1 else 0
  }

  /** Nothing but an owner update of the claim itself counts. */
  lemma {:induction false} MissedSame(origin: Sys, before: seq<Action>, trace: seq<Action>, since: nat,
                                      t: Token, id: JobId)
    requires before <= trace && since <= |before|
    requires forall i :: |before| <= i < |trace| ==>
               !(trace[i].Do? && trace[i].token == t && trace[i].move.ApplySwap?)
    ensures Missed(origin, trace, since, t, id) == Missed(origin, before, since, t, id)
    decreases |trace|
  {
    hide EffectAt;
    if |before| == |trace| {
      assert before == trace;
    } else {
      MissedSame(origin, before, trace[..|trace| - 1], since, t, id);
    }
  }

  lemma ForeignMissesNothing(origin: Sys, before: seq<Action>, trace: seq<Action>, since: nat, t: Token, id: JobId)
    requires before <= trace && since <= |before|
    requires forall i :: |before| <= i < |trace| ==> Foreign(trace[i], t)
    ensures Missed(origin, trace, since, t, id) == Missed(origin, before, since, t, id)
  {
    forall i | |before| <= i < |trace| ensures !(trace[i].Do? && trace[i].token == t && trace[i].move.ApplySwap?) {
      assert Foreign(trace[i], t);
    }
    MissedSame(origin, before, trace, since, t, id);
  }

  lemma MissedOneMore(origin: Sys, before: seq<Action>, a: Action, since: nat, t: Token, id: JobId)
    requires since <= |before| && a.Do? && a.token == t && a.move.ApplySwap?
    ensures Missed(origin, before + [a], since, t, id)
         == Missed(origin, before, since, t, id) + if EffectAt(origin, before + [a], |before|, t, id, ApplySwap) then 0 else 1
  {
    hide EffectAt;
    assert (before + [a])[..|before|] == before;
  }

  // ------------------------------------------------------------------ what was seen

  /** What a read of the merge can see that makes it give up. */
  datatype Sight = LeaseGone | ContextGone | OtherPrefix

  /** The claim's own read `a` in state `s` saw it. */
  predicate SeesNow(s: Sys, a: Action, t: Token, id: JobId, sight: Sight) {
    && a.Do? && a.token == t && id in s.jobs
    && match sight
       case LeaseGone => a.move.ApplyRead? && !(LiveLease(s.jobs[id], t, a.now) && s.jobs[id].status.MergePrepared?)
       case ContextGone => a.move.ApplySnapshot? && id.owner !in s.docs
       case OtherPrefix =>
         a.move.ApplySnapshot? && id.owner in s.docs && !(s.jobs[id].frozen.messages <= s.docs[id.owner].Active())
  }

  /** A read of the claim saw it at or after a point of the trace. */
  ghost predicate Saw(origin: Sys, trace: seq<Action>, since: nat, t: Token, id: JobId, sight: Sight) {
    exists i: nat :: since <= i < |trace| && SeesNow(At(origin, trace, i), trace[i], t, id, sight)
  }

  lemma SawStays(origin: Sys, before: seq<Action>, trace: seq<Action>, since: nat, t: Token, id: JobId, sight: Sight)
    requires before <= trace && Saw(origin, before, since, t, id, sight)
    ensures Saw(origin, trace, since, t, id, sight)
  {
    hide SeesNow, Run;
    var i: nat :| since <= i < |before| && SeesNow(At(origin, before, i), before[i], t, id, sight);
    assert trace[..i] == before[..i];
    assert SeesNow(At(origin, trace, i), trace[i], t, id, sight);
  }

  lemma SawEarlier(origin: Sys, trace: seq<Action>, since: nat, later: nat, t: Token, id: JobId, sight: Sight)
    requires since <= later && Saw(origin, trace, later, t, id, sight)
    ensures Saw(origin, trace, since, t, id, sight)
  {
    hide SeesNow, At;
  }

  lemma SeenHere(origin: Sys, before: seq<Action>, a: Action, since: nat, t: Token, id: JobId, sight: Sight)
    requires since <= |before| && SeesNow(Run(origin, before), a, t, id, sight)
    ensures Saw(origin, before + [a], since, t, id, sight)
  {
    hide SeesNow, Run;
    var trace := before + [a];
    assert trace[..|before|] == before && trace[|before|] == a;
    assert SeesNow(At(origin, trace, |before|), trace[|before|], t, id, sight);
  }

  /** Why a merge gave up without finding its job applied. */
  ghost predicate Explained(outcome: Outcome, origin: Sys, trace: seq<Action>, since: nat, t: Token, id: JobId) {
    match outcome
    case LostLease => Saw(origin, trace, since, t, id, LeaseGone)
    case OwnerMissing => Saw(origin, trace, since, t, id, ContextGone)
    case Conflict => Saw(origin, trace, since, t, id, OtherPrefix) || Missed(origin, trace, since, t, id) == 8
    case _ => true
  }

  // ---------------------------------------------------------- stretches of a trace

  function OfTurn(turns: seq<Turn>): seq<Action> {
    if turns == [] then [] else turns[0].actions
  }

  function AfterTurn(turns: seq<Turn>): seq<Turn> {
    if turns == [] then [] else turns[1..]
  }

  lemma TurnPasses(turns: seq<Turn>, o: OwnerKey)
    requires AppendTurns(turns)
    ensures AllAppends(OfTurn(turns)) && AppendTurns(AfterTurn(turns))
    ensures turns == [] || turns[0].fault.None?
    ensures Appending(AfterTurn(turns), o) <= Appending(turns, o)
    ensures AppendsTo(OfTurn(turns), o) ==> Appending(AfterTurn(turns), o) < Appending(turns, o)
  {
  }

  lemma StretchSplits(start: seq<Action>, middle: seq<Action>, trace: seq<Action>)
    requires start <= middle <= trace
    ensures trace[|start|..] == middle[|start|..] + trace[|middle|..]
  {
  }

  /** One stretch after another. */
  lemma GrownOver(a: map<OwnerKey, ContextDoc>, b: map<OwnerKey, ContextDoc>, c: map<OwnerKey, ContextDoc>, o: OwnerKey,
                  start: seq<Action>, middle: seq<Action>, trace: seq<Action>)
    requires start <= middle <= trace
    requires GrownBy(a, b, o, middle[|start|..]) && GrownBy(b, c, o, trace[|middle|..])
    ensures GrownBy(a, c, o, trace[|start|..])
  {
    StretchSplits(start, middle, trace);
    hide GrownBy;
    GrownTwice(a, b, c, o, middle[|start|..], trace[|middle|..]);
  }

  /** An own access appends nothing. */
  lemma OwnAppendsNothing(start: seq<Action>, trace: seq<Action>, t: Token, move: Move, now: Time, o: OwnerKey)
    requires start <= trace
    ensures var more := trace + [Do(t, move, now)];
      && AppendedBy(more[|start|..], o) == AppendedBy(trace[|start|..], o)
      && (AppendsTo(more[|start|..], o) <==> AppendsTo(trace[|start|..], o))
  {
    var a := Do(t, move, now);
    assert (trace + [a])[|start|..] == trace[|start|..] + [a];
    AppendedSplits(trace[|start|..], [a], o);
    assert [a][..0] == [];
  }

  /** A stretch that appended nothing can be left out. */
  lemma NothingBefore(past: seq<Action>, until: seq<Action>, trace: seq<Action>, o: OwnerKey)
    requires past <= until <= trace && AppendedBy(until[|past|..], o) == []
    ensures AppendedBy(trace[|past|..], o) == AppendedBy(trace[|until|..], o)
  {
    hide AppendedBy;
    StretchSplits(past, until, trace);
    AppendedSplits(until[|past|..], trace[|until|..], o);
  }

  /** What is appended after a write stands behind what was written. */
  lemma TailAfter(written: map<OwnerKey, ContextDoc>, docs: map<OwnerKey, ContextDoc>, o: OwnerKey, next: seq<Message>,
                  past: seq<Action>, until: seq<Action>, trace: seq<Action>)
    requires past <= until <= trace && next != [] && AppendedBy(until[|past|..], o) == []
    requires GrownBy(written, docs, o, trace[|until|..]) && o in written && written[o].compacted == next
    ensures o in docs && docs[o].lastApplied == written[o].lastApplied
    ensures docs[o].Active() == next + AppendedBy(trace[|past|..], o)
  {
    hide AppendedBy, AppendsTo;
    NothingBefore(past, until, trace, o);
  }

  /** The tail behind the replacement: what there was behind the prefix, and all that was appended since. */
  predicate TailKept(d: ContextDoc, e: ContextDoc, n: nat, replacement: Message, more: seq<Message>) {
    n <= |d.Active()| && e.Active() == [replacement] + d.Active()[n..] + more
  }

  lemma TailOver(a: ContextDoc, b: ContextDoc, c: ContextDoc, n: nat, replacement: Message, o: OwnerKey,
                 start: seq<Action>, middle: seq<Action>, trace: seq<Action>)
    requires start <= middle <= trace && n <= |a.Active()|
    requires Grown(a, b, AppendedBy(middle[|start|..], o))
    requires TailKept(b, c, n, replacement, AppendedBy(trace[|middle|..], o))
    ensures TailKept(a, c, n, replacement, AppendedBy(trace[|start|..], o))
  {
    var xs, ys := AppendedBy(middle[|start|..], o), AppendedBy(trace[|middle|..], o);
    StretchSplits(start, middle, trace);
    AppendedSplits(middle[|start|..], trace[|middle|..], o);
    hide AppendedBy;
    assert b.Active()[n..] == a.Active()[n..] + xs;
    assert [replacement] + (a.Active()[n..] + xs) + ys == [replacement] + a.Active()[n..] + (xs + ys);
  }

  lemma PrefixStaysIn(d: ContextDoc, e: ContextDoc, prefix: seq<Message>, more: seq<Message>)
    requires prefix <= d.Active() && Grown(d, e, more)
    ensures prefix <= e.Active()
  {
  }

  lemma NothingMissed(origin: Sys, trace: seq<Action>, t: Token, id: JobId)
    ensures Missed(origin, trace, |trace|, t, id) == 0
  {
  }

  lemma MissedChain(origin: Sys, middle: seq<Action>, trace: seq<Action>, since: nat, t: Token, id: JobId)
    requires middle <= trace && since <= |middle|
    ensures Missed(origin, trace, since, t, id)
         == Missed(origin, middle, since, t, id) + Missed(origin, trace, |middle|, t, id)
    decreases |trace|
  {
    hide MissesAt;
    if |trace| == |middle| {
      assert trace == middle;
    } else {
      MissedChain(origin, middle, trace[..|trace| - 1], since, t, id);
    }
  }
}
