/**
 * Conservation of the conversation: while other writers only append, every
 * message ever written to a context is still there verbatim, in order, or lies
 * in the frozen prefix of exactly one applied job.
 */
module ContextHistory {
  import opened CompactionTypes
  import opened Protocol
  import opened ProtocolInvariant
  import opened ProtocolSteps
  import opened ProtocolTheorems

  /**
   * Everything written to the context, how many of those messages applied
   * jobs have covered, and the replacement that stands for them.
   */
  datatype View = View(transcript: seq<Message>, covered: nat, head: seq<Message>)

  function Observe(v: View, s: Sys, a: Action, o: OwnerKey): View {
    if a.Append? && a.owner == o && o in s.docs then v.(transcript := v.transcript + a.messages)
    else if a.Do? && a.move.ApplySwap? && SwapEnabled(s, a.token, a.now) && s.workers[a.token].job.owner == o then
      var c := s.workers[a.token].main.current;
      View(v.transcript, v.covered + Max(0, |c.frozen.messages| - |v.head|), [c.replacement.value])
    else v
  }

  function ViewOf(s0: Sys, actions: seq<Action>, o: OwnerKey): View
    requires o in s0.docs
    decreases |actions|
  {
    if actions == [] then View(s0.docs[o].Active(), 0, [])
    else
      var front := actions[..|actions| - 1];
      Observe(ViewOf(s0, front, o), Run(s0, front), actions[|actions| - 1], o)
  }

  predicate AppendOnly(actions: seq<Action>, o: OwnerKey) {
    forall i :: 0 <= i < |actions| ==> !(actions[i].Rewrite? && actions[i].owner == o)
  }

  /** The context is the standing replacement followed by every uncovered message. */
  ghost predicate Holds(v: View, d: ContextDoc) {
    && |v.head| <= 1 && v.covered <= |v.transcript|
    && d.Active() == v.head + v.transcript[v.covered..]
  }

  lemma NextDoc(s: Sys, a: Action, o: OwnerKey)
    requires o in Next(s, a).docs
    ensures o in s.docs
    ensures var d, e := s.docs[o], Next(s, a).docs[o];
      || (e.Active() == d.Active())
      || (a.Append? && a.owner == o && e == Appended(d, a.messages))
      || (a.Rewrite? && a.owner == o)
      || (exists id: JobId :: id.owner == o && Swaps(s, a, id))
  {
    if a.Do? {
      MovedDoc(s, a.token, a.move, a.now, o);
      hide Moved;
    } else {
      hide JobCommands.Command, Insertable, KeyFree;
    }
  }

  lemma MovedDoc(s: Sys, t: Token, move: Move, now: Time, o: OwnerKey)
    requires o in Moved(s, t, move, now).docs
    ensures o in s.docs
    ensures Moved(s, t, move, now).docs[o].Active() == s.docs[o].Active()
         || (exists id: JobId :: id.owner == o && Swaps(s, Do(t, move, now), id))
  {
    hide Read, FenceReusable, SettleEnabled, Permitted, JobCommands.Leased;
    if move.ApplySwap? && SwapEnabled(s, t, now) && s.workers[t].job in s.jobs && s.workers[t].job.owner == o {
      assert Swaps(s, Do(t, move, now), s.workers[t].job);
    }
  }

  lemma SwapHolds(v: View, s: Sys, a: Action, o: OwnerKey, id: JobId)
    requires Inv(s) && Swaps(s, a, id) && id.owner == o && o in s.docs && Holds(v, s.docs[o])
    ensures o in Next(s, a).docs && Holds(Observe(v, s, a, o), Next(s, a).docs[o])
    ensures s.jobs[id].frozen.messages
         == v.head + v.transcript[v.covered..Observe(v, s, a, o).covered]
    ensures s.jobs[id].replacement.Some? && Observe(v, s, a, o).head == [s.jobs[id].replacement.value]
  {
    hide Inv, WorkerOk, JobCommands.JobOk, JobCommands.Evolves;
    Extract(s, a.token);
    SnapshotFields(s, a.token);
    SwapReplacesPrefixOnly(s, a, id);
    var frozen := s.jobs[id].frozen.messages;
    var d, e := s.docs[o], Next(s, a).docs[o];
    hide Next;
    var tail :| d.Active() == frozen + tail && e.Active() == [s.jobs[id].replacement.value] + tail;
    assert tail == d.Active()[|frozen|..];
    var covered := v.covered + (|frozen| - |v.head|);
    assert tail == v.transcript[covered..];
    assert frozen == d.Active()[..|frozen|];
  }

  lemma ObserveElsewhere(v: View, s: Sys, a: Action, o: OwnerKey)
    requires Inv(s) && !(a.Append? && a.owner == o)
    requires forall id: JobId :: !(id.owner == o && Swaps(s, a, id))
    ensures Observe(v, s, a, o) == v
  {
    if a.Do? && a.move.ApplySwap? && SwapEnabled(s, a.token, a.now) {
      hide Inv, WorkerOk, JobCommands.JobOk;
      Extract(s, a.token);
      assert Swaps(s, a, s.workers[a.token].job);
    }
  }

  /** No appended message is ever lost, repeated or reordered. */
  lemma {:induction false} NoMessageLost(s0: Sys, actions: seq<Action>, o: OwnerKey)
    requires Initial(s0) && o in s0.docs && o in Run(s0, actions).docs && AppendOnly(actions, o)
    ensures Holds(ViewOf(s0, actions, o), Run(s0, actions).docs[o])
    decreases |actions|
  {
    hide Inv, Initial, Next, Observe, Swaps;
    if actions == [] {
      assert Holds(ViewOf(s0, actions, o), s0.docs[o]);
    } else {
      var front, a := actions[..|actions| - 1], actions[|actions| - 1];
      var s := Run(s0, front);
      NextDoc(s, a, o);
      NoMessageLost(s0, front, o);
      RunKeeps(s0, front);
      HoldsStep(ViewOf(s0, front, o), s, a, o);
    }
  }

  lemma HoldsStep(v: View, s: Sys, a: Action, o: OwnerKey)
    requires Inv(s) && o in Next(s, a).docs && o in s.docs && Holds(v, s.docs[o])
    requires !(a.Rewrite? && a.owner == o)
    ensures Holds(Observe(v, s, a, o), Next(s, a).docs[o])
  {
    hide Inv, Swaps, Next;
    NextDoc(s, a, o);
    if id: JobId :| id.owner == o && Swaps(s, a, id) {
      SwapHolds(v, s, a, o, id);
    } else if a.Append? && a.owner == o {
      AppendedDoc(s, o, a.messages);
    } else {
      ObserveElsewhere(v, s, a, o);
    }
  }

  lemma AppendedDoc(s: Sys, o: OwnerKey, m: seq<Message>)
    requires o in s.docs
    ensures Next(s, Append(o, m)).docs[o].Active() == s.docs[o].Active() + m
  {
  }
}
