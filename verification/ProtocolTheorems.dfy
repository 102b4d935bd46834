/** What every run of the protocol guarantees, however its actors interleave. */
module ProtocolTheorems {
  import opened CompactionTypes
  import opened JobCommands
  import opened Protocol
  import opened ProtocolInvariant
  import opened ProtocolSteps

  // --------------------------------------------------------- write-once fields

  lemma LeasedEvolves(s: Sys, t: Token, c: LeaseCommand, now: Time)
    requires Inv(s) && t in s.workers && s.workers[t].job in s.jobs
    requires Permitted(s, s.workers[t], c) || c.Extend?
    requires Leased(s.jobs[s.workers[t].job], t, now, c).Some?
    ensures var k := Leased(s.jobs[s.workers[t].job], t, now, c).value;
      k.id == s.workers[t].job && Evolves(s.jobs[k.id], k)
  {
    hide JobsOk, OneBarrier, KeysDisjoint, TokensLinked, SwapsOk, SettlesOk, ReleasesOk, WorkerOk, JobOk;
    hide Evolves, SoundWrite, Undisturbed, Leased, Permitted;
    Extract(s, t);
    LeaseWriteIsSound(s, t, c, now);
    SoundWriteParts(s, t, Leased(s.jobs[s.workers[t].job], t, now, c).value);
  }

  lemma MovedJobs(s: Sys, t: Token, move: Move, now: Time)
    requires !move.Write? && !move.BeatLease?
    ensures Moved(s, t, move, now).jobs == s.jobs
  {
    hide Read, SwapEnabled, SettleEnabled, FenceReusable;
  }

  lemma MovedEvolves(s: Sys, t: Token, move: Move, now: Time, id: JobId)
    requires Inv(s) && id in s.jobs
    ensures id in Moved(s, t, move, now).jobs && Evolves(s.jobs[id], Moved(s, t, move, now).jobs[id])
  {
    hide Inv, Evolves, Permitted, Leased;
    EvolvesRefl(s.jobs[id]);
    if !move.Write? && !move.BeatLease? {
      MovedJobs(s, t, move, now);
    } else if t in s.workers && s.workers[t].job in s.jobs {
      var w := s.workers[t];
      if move.Write? && Permitted(s, w, move.c) && Leased(s.jobs[w.job], t, now, move.c).Some? {
        LeasedEvolves(s, t, move.c, now);
      } else if move.BeatLease? && Leased(s.jobs[w.job], t, now, Extend(now + w.leaseMs)).Some? {
        LeasedEvolves(s, t, Extend(now + w.leaseMs), now);
      }
    }
  }

  lemma CommandEvolves(s: Sys, i: JobId, c: JobCommand, id: JobId)
    requires Inv(s) && id in s.jobs
    ensures id in CommandJob(s, i, c).jobs && Evolves(s.jobs[id], CommandJob(s, i, c).jobs[id])
  {
    hide JobsOk, OneBarrier, KeysDisjoint, TokensLinked, SwapsOk, SettlesOk, ReleasesOk, WorkersOk;
    hide Evolves, KeyFree, Command, SoundWrite, Undisturbed;
    EvolvesRefl(s.jobs[id]);
    if && i in s.jobs && !(c.Join? && c.key !in s.jobs[i].keys && !KeyFree(s, i.owner, c.key))
       && Command(s.jobs[i], c).Some?
    {
      CommandIsSound(s, i, c);
      SoundWriteParts(s, 0, Command(s.jobs[i], c).value);
    }
  }

  lemma ClaimEvolves(s: Sys, i: JobId, t: Token, leaseMs: Time, now: Time, id: JobId)
    requires Inv(s) && id in s.jobs
    ensures id in ClaimJob(s, i, t, leaseMs, now).jobs
    ensures Evolves(s.jobs[id], ClaimJob(s, i, t, leaseMs, now).jobs[id])
  {
    hide Inv, Evolves, Claimable;
    EvolvesRefl(s.jobs[id]);
    if i in s.jobs && Claimable(s.jobs[i], now) {
      ClaimedEvolves(s, i, t, now + leaseMs, now);
    }
  }

  /** No action takes back or rewrites what a job has persisted. */
  lemma NextEvolves(s: Sys, a: Action, id: JobId)
    requires Inv(s) && id in s.jobs
    ensures id in Next(s, a).jobs && Evolves(s.jobs[id], Next(s, a).jobs[id])
  {
    hide Inv, Moved, ClaimJob, CommandJob, Evolves, Insertable;
    EvolvesRefl(s.jobs[id]);
    match a
    case OnJob(i, c) => CommandEvolves(s, i, c, id);
    case Claim(i, t, leaseMs, now) => ClaimEvolves(s, i, t, leaseMs, now, id);
    case Do(t, move, now) => MovedEvolves(s, t, move, now, id);
    case Create(i, sourceRunId, frozen, context, projection, availableAt, createdAt) =>
      assert Insertable(s, i) ==> i != id by { NewJobIsNew(s, i); }
    case _ =>
  }

  lemma NewJobIsNew(s: Sys, i: JobId)
    ensures Insertable(s, i) ==> i !in s.jobs
  {
  }

  lemma EvolvesRefl(j: Job)
    ensures Evolves(j, j)
  {
  }

  lemma ClaimedEvolves(s: Sys, i: JobId, t: Token, expiresAt: Time, now: Time)
    requires Inv(s) && i in s.jobs && Claimable(s.jobs[i], now)
    ensures s.jobs[i].id == i && Evolves(s.jobs[i], Claimed(s.jobs[i], t, expiresAt))
  {
    assert JobOk(s.jobs[i]);
    ClaimKeeps(s.jobs[i], t, expiresAt);
  }

  lemma {:induction false} RunSplit(s: Sys, xs: seq<Action>, ys: seq<Action>)
    ensures Run(s, xs + ys) == Run(Run(s, xs), ys)
    decreases |ys|
  {
    if ys == [] {
      assert xs + ys == xs;
    } else {
      var front := ys[..|ys| - 1];
      assert (xs + ys)[..|xs + ys| - 1] == xs + front;
      RunSplit(s, xs, front);
    }
  }

  lemma RunSnoc(s: Sys, actions: seq<Action>, a: Action)
    ensures Run(s, actions + [a]) == Next(Run(s, actions), a)
  {
    assert (actions + [a])[..|actions + [a]| - 1] == actions;
  }

  lemma NamedById(s: Sys, id: JobId)
    requires Inv(s) && id in s.jobs
    ensures s.jobs[id].id == id
  {
    assert JobsOk(s);
    hide OneBarrier, KeysDisjoint, TokensLinked, SwapsOk, SettlesOk, ReleasesOk, WorkersOk, JobOk;
  }

  /**
   * Over any run a job's summary, merge freeze, replacement and settlement mark
   * are each written at most once, its trigger keys and its status log only
   * grow, and a terminal status is left only from `failed` to `superseded`.
   */
  lemma {:induction false} JobsEvolve(s: Sys, actions: seq<Action>, id: JobId)
    requires Inv(s) && id in s.jobs
    ensures id in Run(s, actions).jobs && Evolves(s.jobs[id], Run(s, actions).jobs[id])
    decreases |actions|
  {
    hide Inv, Next, Evolves;
    if actions == [] {
      EvolvesRefl(s.jobs[id]);
    } else {
      var front := actions[..|actions| - 1];
      JobsEvolve(s, front, id);
      RunKeeps(s, front);
      NextEvolves(Run(s, front), actions[|actions| - 1], id);
      EvolvesTransitive(s.jobs[id], Run(s, front).jobs[id], Run(s, actions).jobs[id]);
    }
  }

  // --------------------------------------------------------- owner swaps

  /** The state before action `i` of a run. */
  function At(s0: Sys, actions: seq<Action>, i: nat): Sys
    requires i <= |actions|
  {
    Run(s0, actions[..i])
  }

  lemma AtNext(s0: Sys, actions: seq<Action>, i: nat)
    requires i < |actions|
    ensures At(s0, actions, i + 1) == Next(At(s0, actions, i), actions[i])
  {
    assert actions[..i + 1][..i] == actions[..i];
  }

  /** The action is an owner swap of job `id` that passes its filters. */
  predicate Swaps(s: Sys, a: Action, id: JobId) {
    && a.Do? && a.move.ApplySwap? && SwapEnabled(s, a.token, a.now)
    && s.workers[a.token].job == id && id in s.jobs
  }

  /** The action is a runtime settlement of job `id` that takes effect. */
  predicate Settles(s: Sys, a: Action, id: JobId) {
    && a.Do? && a.move.SettleRuntime? && SettleEnabled(s, a.token)
    && s.workers[a.token].job == id && id in s.jobs
  }

  /** The action observes that the Conversation of job `id` has no runtime. */
  predicate FindsNoRuntime(s: Sys, a: Action, id: JobId) {
    && a.Do? && a.move.SettleAbsent? && a.token in s.workers && s.workers[a.token].job == id
    && s.workers[a.token].main.SettlingRuntime?
    && id in s.jobs && id.owner.ConversationKey? && id.owner !in s.runtimes
  }

  lemma MovedHistory(s: Sys, t: Token, move: Move, now: Time)
    requires !move.ApplySwap? && !move.SettleRuntime? && !move.SettleAbsent?
    ensures var h, h' := s.history, Moved(s, t, move, now).history;
      h'.swapped == h.swapped && h'.settled == h.settled && h'.absent == h.absent
  {
    hide Read, FenceReusable, Leased, Permitted;
  }

  lemma OtherHistory(s: Sys, a: Action)
    requires !a.Do?
    ensures Next(s, a).history == s.history
  {
    hide Claimable, Insertable, Command, KeyFree;
  }

  /** The recorded history is exactly what the actions did. */
  lemma NextHistory(s: Sys, a: Action, id: JobId)
    ensures var h, h' := s.history, Next(s, a).history;
      && (id in h'.swapped <==> id in h.swapped || Swaps(s, a, id))
      && (id in h'.settled <==> id in h.settled || Settles(s, a, id))
      && (id in h'.absent <==> id in h.absent || FindsNoRuntime(s, a, id))
  {
    if !a.Do? {
      OtherHistory(s, a);
    } else if !a.move.ApplySwap? && !a.move.SettleRuntime? && !a.move.SettleAbsent? {
      MovedHistory(s, a.token, a.move, a.now);
    } else {
      hide SwappedDoc, SettledRuntime, Read;
    }
  }

  datatype Milestone = Swap | Settlement | Absence

  predicate Occurs(m: Milestone, s: Sys, a: Action, id: JobId) {
    match m
    case Swap => Swaps(s, a, id)
    case Settlement => Settles(s, a, id)
    case Absence => FindsNoRuntime(s, a, id)
  }

  function Record(m: Milestone, h: History): set<JobId> {
    match m
    case Swap => h.swapped
    case Settlement => h.settled
    case Absence => h.absent
  }

  predicate OccursAt(m: Milestone, s0: Sys, actions: seq<Action>, i: nat, id: JobId) {
    i < |actions| && Occurs(m, At(s0, actions, i), actions[i], id)
  }

  lemma RecordStep(m: Milestone, s: Sys, a: Action, id: JobId)
    ensures id in Record(m, Next(s, a).history) <==> id in Record(m, s.history) || Occurs(m, s, a, id)
  {
    hide Swaps, Settles, FindsNoRuntime, Next;
    NextHistory(s, a, id);
  }

  lemma {:induction false} RecordGrows(m: Milestone, s0: Sys, actions: seq<Action>, i: nat, k: nat, id: JobId)
    requires i <= k <= |actions| && id in Record(m, At(s0, actions, i).history)
    ensures id in Record(m, At(s0, actions, k).history)
    decreases k - i
  {
    hide Next, Occurs, At, Record;
    if i < k {
      AtNext(s0, actions, i);
      RecordStep(m, At(s0, actions, i), actions[i], id);
      RecordGrows(m, s0, actions, i + 1, k, id);
    }
  }

  /** What is recorded at a point of a run is what some earlier action did. */
  lemma {:induction false} RecordedByAction(m: Milestone, s0: Sys, actions: seq<Action>, n: nat, id: JobId)
    returns (i: nat)
    requires Initial(s0) && n <= |actions| && id in Record(m, At(s0, actions, n).history)
    ensures i < n && OccursAt(m, s0, actions, i, id)
    decreases n
  {
    hide Next, Occurs;
    assert actions[..0] == [];
    if n == 0 {
      assert false;
    } else {
      AtNext(s0, actions, n - 1);
      RecordStep(m, At(s0, actions, n - 1), actions[n - 1], id);
      if Occurs(m, At(s0, actions, n - 1), actions[n - 1], id) {
        i := n - 1;
      } else {
        i := RecordedByAction(m, s0, actions, n - 1, id);
      }
    }
  }

  lemma AtInv(s0: Sys, actions: seq<Action>, i: nat)
    requires Initial(s0) && i <= |actions|
    ensures Inv(At(s0, actions, i))
  {
    hide Inv, Initial, Next;
    RunKeeps(s0, actions[..i]);
  }

  /** What an action did is on record at every later point. */
  lemma RecordedLater(m: Milestone, s0: Sys, actions: seq<Action>, i: nat, k: nat, id: JobId)
    requires i < k <= |actions| && OccursAt(m, s0, actions, i, id)
    ensures id in Record(m, At(s0, actions, k).history)
  {
    hide Next, Occurs, At, Record;
    AtNext(s0, actions, i);
    RecordStep(m, At(s0, actions, i), actions[i], id);
    RecordGrows(m, s0, actions, i + 1, k, id);
  }

  lemma SwapWasNotRecorded(s: Sys, a: Action, id: JobId)
    requires Inv(s) && Swaps(s, a, id)
    ensures id !in s.history.swapped
  {
    hide Inv, WorkerOk, JobOk;
    Extract(s, a.token);
    SwapIsFirst(s, a.token, a.now);
  }

  /** Over any run a job's replacement is applied to its context at most once. */
  lemma AppliedAtMostOnce(s0: Sys, actions: seq<Action>, i: nat, k: nat, id: JobId)
    requires Initial(s0)
    requires OccursAt(Swap, s0, actions, i, id) && OccursAt(Swap, s0, actions, k, id)
    ensures i == k
  {
    hide Inv, Initial, Swaps, At;
    if i != k {
      var first, last := if i < k then i else k, if i < k then k else i;
      AtInv(s0, actions, last);
      SwapWasNotRecorded(At(s0, actions, last), actions[last], id);
      RecordedLater(Swap, s0, actions, first, last, id);
    }
  }

  /**
   * A swap acts on what the context holds at that moment: its messages begin
   * with the frozen prefix, and exactly that prefix gives way to the replacement.
   */
  lemma SwapReplacesPrefixOnly(s: Sys, a: Action, id: JobId)
    requires Inv(s) && Swaps(s, a, id)
    ensures id.owner in s.docs && id.owner in Next(s, a).docs
    ensures var j, d, e := s.jobs[id], s.docs[id.owner], Next(s, a).docs[id.owner];
      && j.frozen.messages != [] && j.replacement.Some?
      && (exists tail :: d.Active() == j.frozen.messages + tail && e.Active() == [j.replacement.value] + tail)
      && e == d.(compacted := e.Active(), revision := d.revision + 1, lastApplied := Some(id), fence := None)
  {
    hide Inv, WorkerOk, JobOk, Evolves, Next, Swaps, SwapEnabled;
    SwapEffect(s, a, id);
    Extract(s, a.token);
    SwapIsFirst(s, a.token, a.now);
    SnapshotFields(s, a.token);
    var j := s.jobs[id];
    var d, e := s.docs[id.owner], Next(s, a).docs[id.owner];
    var tail := d.Active()[|j.frozen.messages|..];
    assert d.Active() == j.frozen.messages + tail && e.Active() == [j.replacement.value] + tail;
  }

  lemma SwapEffect(s: Sys, a: Action, id: JobId)
    requires Swaps(s, a, id)
    ensures a.Do? && a.token in s.workers && SwapEnabled(s, a.token, a.now)
    ensures s.workers[a.token].job == id && id in s.jobs
    ensures var m := s.workers[a.token].main;
      && id.owner in s.docs && id.owner in Next(s, a).docs
      && m.Swapping? && m.current.replacement.Some? && |m.current.frozen.messages| <= |m.seen|
      && Next(s, a).docs[id.owner]
         == SwappedDoc(s.docs[id.owner], m.current, m.seen, m.current.replacement.value)
  {
    hide SwappedDoc;
  }

  /** The job a worker read before its swap still says what it said then. */
  lemma SnapshotFields(s: Sys, t: Token)
    requires t in s.workers && WorkerOk(s, t) && s.workers[t].main.Swapping?
    requires JobOk(s.jobs[s.workers[t].job]) && s.jobs[s.workers[t].job].id == s.workers[t].job
    ensures var c, j := s.workers[t].main.current, s.jobs[s.workers[t].job];
      c.id == j.id && c.frozen == j.frozen && c.replacement == j.replacement && c.replacement.Some?
      && j.frozen.messages != []
  {
    hide Unsurpassed, SnapshotCurrent, OutboxFaithful, PhaseOk, BarrierOk;
  }

  // ---------------------------------------------------------- settlement

  /** The marker of an AgentSession lives beside its last merge, so no settlement repeats. */
  lemma SessionSettlementWasNotRecorded(s: Sys, a: Action, id: JobId)
    requires Inv(s) && Settles(s, a, id) && id.owner.AgentSessionKey?
    ensures id !in s.history.settled
  {
    assert SettlesOk(s);
    hide JobsOk, OneBarrier, KeysDisjoint, TokensLinked, SwapsOk, ReleasesOk, WorkersOk;
  }

  /** Over any run an AgentSession's runtime is settled for a job at most once. */
  lemma SessionSettledAtMostOnce(s0: Sys, actions: seq<Action>, i: nat, k: nat, id: JobId)
    requires Initial(s0) && id.owner.AgentSessionKey?
    requires OccursAt(Settlement, s0, actions, i, id) && OccursAt(Settlement, s0, actions, k, id)
    ensures i == k
  {
    hide Inv, Initial, Settles, At;
    if i != k {
      var first, last := if i < k then i else k, if i < k then k else i;
      AtInv(s0, actions, last);
      SessionSettlementWasNotRecorded(At(s0, actions, last), actions[last], id);
      RecordedLater(Settlement, s0, actions, first, last, id);
    }
  }

  lemma SettlementFollowsSwap(s: Sys, m: Milestone, a: Action, id: JobId)
    requires Inv(s) && !m.Swap? && Occurs(m, s, a, id)
    ensures id in s.history.swapped
  {
    hide Inv, JobOk, Evolves;
    Extract(s, a.token);
  }

  lemma MergedIsRecorded(s: Sys, id: JobId)
    requires Inv(s) && id in s.jobs && s.jobs[id].status.Merged?
    ensures id in s.history.swapped && (id in s.history.settled || id in s.history.absent)
    ensures id.owner.AgentSessionKey? ==> id in s.history.settled
  {
    assert JobOk(s.jobs[id]) && SettlesOk(s);
    hide OneBarrier, KeysDisjoint, TokensLinked, SwapsOk, ReleasesOk, WorkersOk, OutboxFaithful;
  }

  /**
   * A job that is merged at some point of a run was swapped exactly once before
   * it, and after that swap its runtime was settled, or a Conversation was seen
   * to have no runtime.
   */
  lemma MergedWasAppliedAndSettled(s0: Sys, actions: seq<Action>, n: nat, id: JobId)
    returns (swap: nat, settle: nat)
    requires Initial(s0) && n <= |actions|
    requires id in At(s0, actions, n).jobs && At(s0, actions, n).jobs[id].status.Merged?
    ensures swap < settle < n
    ensures OccursAt(Swap, s0, actions, swap, id)
    ensures forall i: nat :: OccursAt(Swap, s0, actions, i, id) ==> i == swap
    ensures if OccursAt(Settlement, s0, actions, settle, id) then true
            else id.owner.ConversationKey? && OccursAt(Absence, s0, actions, settle, id)
  {
    hide Inv, Initial, Occurs, At;
    AtInv(s0, actions, n);
    MergedIsRecorded(At(s0, actions, n), id);
    var m := if id in At(s0, actions, n).history.settled then Settlement else Absence;
    settle := RecordedByAction(m, s0, actions, n, id);
    AtInv(s0, actions, settle);
    SettlementFollowsSwap(At(s0, actions, settle), m, actions[settle], id);
    swap := RecordedByAction(Swap, s0, actions, settle, id);
    forall i: nat | OccursAt(Swap, s0, actions, i, id) ensures i == swap {
      AppliedAtMostOnce(s0, actions, i, swap, id);
    }
  }

  // -------------------------------------------------------- the merge context

  /** The context that succeeds two others: the newer one's content, the runtime's on a tie, under a higher epoch. */
  predicate Succeeds(frozen: Option<ProjectContext>, runtime: Option<ProjectContext>, projection: Option<string>,
                     merged: Option<ProjectContext>)
  {
    && (merged.Some? <==> frozen.Some? || runtime.Some?)
    && (merged.Some? ==>
          var newer := if runtime.Some? && Epoch(runtime) >= Epoch(frozen) then runtime.value else frozen.value;
          && merged.value.epoch == Max(Epoch(frozen), Epoch(runtime)) + 1
          && merged.value.guide == newer.guide
          && merged.value.projection == if projection.Some? then projection.value else newer.projection)
  }

  lemma MergeSucceeds(frozen: Option<ProjectContext>, runtime: Option<ProjectContext>, projection: Option<string>)
    ensures var f := MergeFreezeOf(frozen, runtime, projection);
      f.projection == projection && Succeeds(frozen, runtime, projection, f.context)
  {
  }

  /** A job that was ever applied still has the replacement it was applied with. */
  lemma SwappedHasReplacement(s0: Sys, actions: seq<Action>, id: JobId)
    requires Initial(s0) && id in Run(s0, actions).history.swapped
    ensures id in Run(s0, actions).jobs && Run(s0, actions).jobs[id].replacement.Some?
  {
    hide Inv, Initial, Next, Evolves, Swaps, SwapEnabled, WorkerOk, JobOk;
    AtTheEnd(s0, actions);
    var i := RecordedByAction(Swap, s0, actions, |actions|, id);
    var s := At(s0, actions, i);
    AtInv(s0, actions, i);
    SwapEffect(s, actions[i], id);
    Extract(s, actions[i].token);
    SnapshotFields(s, actions[i].token);
    assert actions == actions[..i] + actions[i..];
    RunSplit(s0, actions[..i], actions[i..]);
    JobsEvolve(s, actions[i..], id);
    ReplacementStays(s.jobs[id], Run(s0, actions).jobs[id]);
  }

  lemma AtTheEnd(s0: Sys, actions: seq<Action>)
    ensures At(s0, actions, |actions|) == Run(s0, actions)
  {
    hide Run;
    assert actions[..|actions|] == actions;
  }

  lemma ReplacementStays(j: Job, k: Job)
    requires Evolves(j, k) && j.replacement.Some?
    ensures k.replacement == j.replacement
  {
  }
}
