/**
 * The protocol's accesses as the service's methods see them: what each one
 * reads or writes, when it takes effect, and what an undisturbed run leaves.
 */
module ServiceSteps {
  import opened CompactionTypes
  import opened JobCommands
  import opened Protocol
  import opened ProtocolInvariant
  import opened ProtocolSteps
  import opened ProtocolTheorems


  datatype Fault = LeaseLost | Fatal | Ordinary

  datatype Attempt<+T> = Ok(value: T) | Thrown(fault: Fault)
  {
    predicate IsFailure() { Thrown? }
    function PropagateFailure<U>(): Attempt<U> requires Thrown? { Thrown(fault) }
    function Extract(): T requires Ok? { value }
  }

  /** How an await ends. */
  datatype Pause = Resumed | Interrupted(fault: Fault)
  {
    predicate IsFailure() { Interrupted? }
    function PropagateFailure<U>(): Attempt<U> requires Interrupted? { Thrown(fault) }
  }

  datatype Outcome =
    | MergedOutcome(contextRevision: nat)
    | AlreadyMerged(revision: Option<nat>)
    | Conflict
    | LostLease
    | OwnerMissing

  /** What the last reads before the merge is recorded tell the finalizer to do. */
  datatype Closing = Stopped(outcome: Outcome) | Ready(revision: nat)

  /** What a read of the context tells the merge to do. */
  datatype Reading = Decided(outcome: Outcome) | Fits(revision: nat, next: seq<Message>)

  /** What happens during one await. */
  datatype Turn = Turn(elapsed: Time, fault: Option<Fault>, actions: seq<Action>)

  /** An action of any actor but the main thread of claim `t`; its own heartbeats may run. */
  predicate Foreign(a: Action, t: Token) {
    a.Do? && a.token == t ==> a.move.BeatLease? || a.move.BeatFence?
  }

  predicate AllForeign(turns: seq<Turn>, t: Token) {
    forall i, k :: 0 <= i < |turns| && 0 <= k < |turns[i].actions| ==> Foreign(turns[i].actions[k], t)
  }

  /** Time passes at the awaits, and nothing else happens. */
  predicate CalmTurns(turns: seq<Turn>) {
    forall i :: 0 <= i < |turns| ==> turns[i].fault.None? && turns[i].actions == []
  }

  function Elapse(turns: seq<Turn>): Time {
    if turns == [] then 0 else turns[0].elapsed + Elapse(turns[1..])
  }

  /** The clock `n` awaits later. */
  function ClockAfter(clock: Time, turns: seq<Turn>, n: nat): Time
    decreases n
  {
    if n == 0 || turns == [] then clock else ClockAfter(clock + turns[0].elapsed, turns[1..], n - 1)
  }

  lemma {:induction false} ClockBounds(clock: Time, turns: seq<Turn>, n: nat)
    ensures clock <= ClockAfter(clock, turns, n) <= clock + Elapse(turns)
    decreases n
  {
    if n > 0 && turns != [] {
      ClockBounds(clock + turns[0].elapsed, turns[1..], n - 1);
    }
  }

  lemma ClockAfterTwo(clock: Time, turns: seq<Turn>)
    ensures var rest := if turns == [] then [] else turns[1..];
      ClockAfter(clock, turns, 2) == ClockAfter(ClockAfter(clock, turns, 1), rest, 1)
  {
  }

  lemma OtherSparesMain(s: Sys, u: Token, move: Move, now: Time, t: Token)
    requires t in s.workers && u != t
    ensures t in Moved(s, u, move, now).workers && Moved(s, u, move, now).workers[t] == s.workers[t]
  {
    hide Read, SwapEnabled, SettleEnabled, Leased, FenceReusable, Permitted, SettledRuntime, SwappedDoc, ErrorReleases;
    if IsRead(move) && u in s.workers && s.workers[u].job in s.jobs {
      MovedRead(s, u, move, now);
      hide Moved;
    }
  }

  lemma BeatSparesMain(s: Sys, t: Token, move: Move, now: Time)
    requires t in s.workers && (move.BeatLease? || move.BeatFence?)
    ensures t in Moved(s, t, move, now).workers
    ensures var w, v := s.workers[t], Moved(s, t, move, now).workers[t];
      v.job == w.job && v.main == w.main && v.known == w.known
  {
    hide Leased;
  }

  lemma ForeignSparesMain(s: Sys, a: Action, t: Token)
    requires t in s.workers && Foreign(a, t)
    ensures t in Next(s, a).workers
    ensures var w, v := s.workers[t], Next(s, a).workers[t];
      v.job == w.job && v.main == w.main && v.known == w.known
  {
    if a.Do? {
      if a.token == t {
        BeatSparesMain(s, t, a.move, a.now);
      } else {
        OtherSparesMain(s, a.token, a.move, a.now, t);
      }
      hide Moved;
    } else {
      hide Insertable, Command, KeyFree;
    }
  }

  /** The access `move` of claim `t` passes its filter. */
  ghost predicate Effective(s: Sys, t: Token, id: JobId, move: Move, now: Time) {
    && t in s.workers && s.workers[t].job == id && id in s.jobs
    && match move
       case Write(c) => Permitted(s, s.workers[t], c) && Leased(s.jobs[id], t, now, c).Some?
       case ApplySwap => SwapEnabled(s, t, now)
       case _ => false
  }

  /** Action `i` of a run is that access, and it took effect. */
  ghost predicate EffectAt(origin: Sys, trace: seq<Action>, i: nat, t: Token, id: JobId, move: Move) {
    && i < |trace| && trace[i].Do? && trace[i].token == t && trace[i].move == move
    && Effective(At(origin, trace, i), t, id, move, trace[i].now)
  }

  /** That access of claim `t` took effect at or after a point of the trace. */
  ghost predicate TookEffect(origin: Sys, trace: seq<Action>, since: nat, t: Token, id: JobId, move: Move) {
    exists i :: since <= i < |trace| && EffectAt(origin, trace, i, t, id, move)
  }

  lemma PrefixEffects(origin: Sys, before: seq<Action>, trace: seq<Action>, t: Token, id: JobId, move: Move)
    requires before <= trace
    ensures forall i: nat :: i < |before| ==>
              (EffectAt(origin, trace, i, t, id, move) <==> EffectAt(origin, before, i, t, id, move))
  {
    forall i: nat | i <= |before| ensures At(origin, trace, i) == At(origin, before, i) {
      assert trace[..i] == before[..i];
    }
    hide At, Effective;
  }

  lemma ForeignHasNoEffect(origin: Sys, before: seq<Action>, trace: seq<Action>, since: nat,
                           t: Token, id: JobId, move: Move)
    requires before <= trace && forall i :: |before| <= i < |trace| ==> Foreign(trace[i], t)
    ensures TookEffect(origin, trace, since, t, id, move) <==> TookEffect(origin, before, since, t, id, move)
  {
    PrefixEffects(origin, before, trace, t, id, move);
    forall i: nat | |before| <= i < |trace| ensures !EffectAt(origin, trace, i, t, id, move) {
      assert Foreign(trace[i], t);
      hide At;
    }
    hide EffectAt;
  }

  lemma OneMoreAction(origin: Sys, before: seq<Action>, trace: seq<Action>, since: nat,
                      t: Token, id: JobId, move: Move)
    requires before <= trace && |trace| == |before| + 1 && since <= |before|
    ensures TookEffect(origin, trace, since, t, id, move) <==>
              TookEffect(origin, before, since, t, id, move) || EffectAt(origin, trace, |before|, t, id, move)
  {
    PrefixEffects(origin, before, trace, t, id, move);
    hide EffectAt;
  }

  lemma PermittedSame(s: Sys, s': Sys, w: Worker, w': Worker, c: LeaseCommand)
    requires Permitted(s, w, c) && s'.maxAttempts == s.maxAttempts && w'.main == w.main && w'.known == w.known
    ensures Permitted(s', w', c)
  {
  }

  lemma NothingYet(origin: Sys, trace: seq<Action>, t: Token, id: JobId, move: Move)
    ensures !TookEffect(origin, trace, |trace|, t, id, move)
  {
  }

  lemma OtherHasNoEffect(origin: Sys, trace: seq<Action>, i: nat, t: Token, id: JobId, move: Move)
    requires i < |trace| && trace[i].Do? && trace[i].move != move
    ensures !EffectAt(origin, trace, i, t, id, move)
  {
  }

  lemma LookParts(s: Sys, t: Token, move: Move, now: Time)
    requires t in s.workers && s.workers[t].job in s.jobs && IsRead(move)
    requires Starts(move) ==> s.workers[t].main.Idle?
    ensures Next(s, Do(t, move, now)) == PutWorker(s, t, s.workers[t].(main := Read(s, t, move, now)))
  {
    hide Read, Moved;
    MovedRead(s, t, move, now);
  }

  function AfterBegin(j: Job): Job {
    if j.status.Summarizing? then j else Transition(j, Summarizing)
  }

  /** Whether a job takes this replacement: as its first, or as the one it was retried with. */
  predicate Accepts(j: Job, message: Message) {
    j.replacement.None? || (j.replacement == Some(message) && j.status.Retryable?)
  }

  predicate Mergeable(status: Status) {
    status.SummaryReady? || status.Retryable?
  }

  /** The job with its merge-time context frozen, unless an earlier attempt froze one. */
  function WithMergeContext(j: Job, o: OwnerKey, runtimes: map<OwnerKey, Runtime>, projection: Option<string>): Job {
    if j.mergeFreeze.Some? then j
    else
      var runtime := if o in runtimes then runtimes[o] else EMPTY_RUNTIME;
      j.(mergeFreeze := Some(MergeFreezeOf(j.projectContext, runtime.context, projection)))
  }

  /** A context frozen now has the content of the newer of the job's and the runtime's. */
  lemma FrozenNowSucceeds(j: Job, o: OwnerKey, runtimes: map<OwnerKey, Runtime>, projection: Option<string>)
    requires j.mergeFreeze.None?
    ensures var k := WithMergeContext(j, o, runtimes, projection);
      && k.mergeFreeze.Some? && k.mergeFreeze.value.projection == projection
      && Succeeds(j.projectContext, ContextOf(runtimes, o), projection, k.mergeFreeze.value.context)
  {
    MergeSucceeds(j.projectContext, ContextOf(runtimes, o), projection);
    hide Succeeds, MergeFreezeOf;
  }

  /** The context of a runtime, if there is one. */
  function ContextOf(runtimes: map<OwnerKey, Runtime>, o: OwnerKey): Option<ProjectContext> {
    if o in runtimes then runtimes[o].context else None
  }

  lemma FreezeReads(s: Sys, t: Token, now: Time, projection: Option<string>)
    requires t in s.workers && s.workers[t].job in s.jobs
    ensures var j := s.jobs[s.workers[t].job];
      && (Read(s, t, FreezeStart, now)
          == if && LiveLease(j, t, now) && (Mergeable(j.status) || j.status.MergePrepared?)
                && j.replacement.None? && j.mergeFreeze.None?
             then Freezing(j) else Idle)
      && (j.mergeFreeze.Some? ==> WithMergeContext(j, s.workers[t].job.owner, s.runtimes, projection) == j)
  {
  }

  lemma FreezeReadsInputs(s: Sys, t: Token, projection: Option<string>, now: Time)
    requires t in s.workers && s.workers[t].job in s.jobs && s.workers[t].main.Freezing?
    ensures var j, id, m := s.jobs[s.workers[t].job], s.workers[t].job, Read(s, t, FreezeRead(projection), now);
      && m.FreezeReady?
      && (s.workers[t].main.current == j && j.mergeFreeze.None? ==>
            WithMergeContext(j, id.owner, s.runtimes, projection) == j.(mergeFreeze := Some(m.freeze)))
  {
  }

  lemma FreezeWrites(s: Sys, t: Token, now: Time, freeze: MergeFreeze)
    requires t in s.workers && s.workers[t].job in s.jobs && s.workers[t].main == FreezeReady(freeze)
    ensures Permitted(s, s.workers[t], FreezeMerge(freeze))
    ensures var j := s.jobs[s.workers[t].job];
      Leased(j, t, now, FreezeMerge(freeze))
         == if && LiveLease(j, t, now) && Mergeable(j.status) && j.replacement.None? && j.mergeFreeze.None?
            then Some(j.(mergeFreeze := Some(freeze))) else None
  {
  }

  lemma PrepareReads(s: Sys, t: Token, now: Time, message: Message)
    requires t in s.workers && s.workers[t].job in s.jobs
    ensures var j := s.jobs[s.workers[t].job];
      Read(s, t, PrepareRead(message), now)
      == if && LiveLease(j, t, now) && Mergeable(j.status) && j.summary.Some?
            && (j.replacement.None? || j.replacement == Some(message))
         then Preparing(j, message) else Idle
  {
  }

  lemma PrepareWrites(s: Sys, t: Token, now: Time, message: Message)
    requires t in s.workers && s.workers[t].job in s.jobs && s.workers[t].main.Preparing?
    requires s.workers[t].main.message == message
    ensures var c := s.workers[t].main.current;
      if c.replacement.Some? then Permitted(s, s.workers[t], Restore) else Permitted(s, s.workers[t], Prepare(message))
    ensures var j := s.jobs[s.workers[t].job];
      && Leased(j, t, now, Prepare(message))
         == (if LiveLease(j, t, now) && Mergeable(j.status)
             then Some(Transition(j.(replacement := Some(message)), MergePrepared)) else None)
      && Leased(j, t, now, Restore)
         == (if LiveLease(j, t, now) && j.status.Retryable? then Some(Transition(j, MergePrepared)) else None)
      && (j.replacement == Some(message) ==> j.(replacement := Some(message)) == j)
  {
  }

  lemma AppliedWasSwapped(s: Sys, id: JobId)
    requires Inv(s) && id.owner in s.docs && s.docs[id.owner].lastApplied == Some(id)
    ensures id in s.history.swapped
  {
    assert SwapsOk(s);
    hide JobsOk, OneBarrier, KeysDisjoint, TokensLinked, SettlesOk, ReleasesOk, WorkersOk;
  }

  /** The context carries this claim's fence, unexpired. */
  predicate FencedUntil(d: ContextDoc, id: JobId, t: Token, now: Time) {
    d.fence.Some? && d.fence.value.job == id && d.fence.value.token == t && d.fence.value.expiresAt > now
  }

  /** The context can take the job's replacement, or has taken it already. */
  predicate Appliable(d: ContextDoc, j: Job) {
    d.lastApplied == Some(j.id) || j.frozen.messages <= d.Active()
  }

  function SwapOutcome(docs: map<OwnerKey, ContextDoc>, j: Job): Outcome {
    var o := j.id.owner;
    if o !in docs then OwnerMissing
    else if docs[o].lastApplied == Some(j.id) then AlreadyMerged(Some(docs[o].revision))
    else if j.frozen.messages <= docs[o].Active() then MergedOutcome(docs[o].revision + 1)
    else Conflict
  }

  function AfterSwap(docs: map<OwnerKey, ContextDoc>, j: Job): map<OwnerKey, ContextDoc>
    requires j.replacement.Some?
  {
    var o := j.id.owner;
    if o in docs && docs[o].lastApplied != Some(j.id) && j.frozen.messages <= docs[o].Active()
    then docs[o := SwappedDoc(docs[o], j, docs[o].Active(), j.replacement.value)]
    else docs
  }

  /** What the merge does about the context it read. */
  function Decide(snapshot: Option<ContextDoc>, j: Job): Reading
    requires j.replacement.Some?
  {
    if snapshot.None? then Decided(OwnerMissing)
    else
      var d, n := snapshot.value, |j.frozen.messages|;
      var active := d.Active();
      if d.lastApplied == Some(j.id) then Decided(AlreadyMerged(Some(d.revision)))
      else if |active| < n then Decided(Conflict)
      else if active[..n] != j.frozen.messages then Decided(Conflict)
      else Fits(d.revision, [j.replacement.value] + active[n..])
  }

  function DocOf(docs: map<OwnerKey, ContextDoc>, o: OwnerKey): Option<ContextDoc> {
    if o in docs then Some(docs[o]) else None
  }

  lemma DecideMeans(snapshot: Option<ContextDoc>, j: Job)
    requires j.replacement.Some?
    ensures var r := Decide(snapshot, j);
      && (r.Fits? <==> snapshot.Some? && snapshot.value.lastApplied != Some(j.id)
                       && j.frozen.messages <= snapshot.value.Active())
      && (r.Fits? ==> r.revision == snapshot.value.revision
                      && r.next == [j.replacement.value] + snapshot.value.Active()[|j.frozen.messages|..])
      && (r.Decided? ==> !r.outcome.MergedOutcome?
                         && (r.outcome.AlreadyMerged? <==> snapshot.Some? && snapshot.value.lastApplied == Some(j.id)))
  {
  }

  lemma ReadingDecides(docs: map<OwnerKey, ContextDoc>, j: Job)
    requires j.replacement.Some?
    ensures var o, r := j.id.owner, Decide(DocOf(docs, j.id.owner), j);
      if r.Decided? then SwapOutcome(docs, j) == r.outcome && AfterSwap(docs, j) == docs
      else
        && o in docs && r.revision == docs[o].revision
        && SwapOutcome(docs, j) == MergedOutcome(r.revision + 1)
        && AfterSwap(docs, j) == docs[o := docs[o].(
             compacted := r.next, revision := r.revision + 1, lastApplied := Some(j.id), fence := None)]
  {
  }

  /** Effects of two stretches of a run, one after the other. */
  lemma EffectsChain(origin: Sys, start: seq<Action>, middle: seq<Action>, trace: seq<Action>,
                     t: Token, id: JobId, move: Move)
    requires start <= middle <= trace
    ensures TookEffect(origin, trace, |start|, t, id, move) <==>
              TookEffect(origin, middle, |start|, t, id, move) || TookEffect(origin, trace, |middle|, t, id, move)
  {
    PrefixEffects(origin, middle, trace, t, id, move);
    hide EffectAt;
  }

  lemma ApplyReads(s: Sys, t: Token, now: Time)
    requires t in s.workers && s.workers[t].job in s.jobs
    ensures var j := s.jobs[s.workers[t].job];
      Read(s, t, ApplyRead, now)
      == if LiveLease(j, t, now) && j.status.MergePrepared? && j.replacement.Some? then Applying(j) else Idle
  {
  }

  lemma ContextReads(s: Sys, t: Token, now: Time)
    requires t in s.workers && s.workers[t].job in s.jobs && s.workers[t].main.Applying?
    ensures var c, o := s.workers[t].main.current, s.workers[t].job.owner;
      Read(s, t, ApplySnapshot, now)
      == if o in s.docs && s.docs[o].lastApplied != Some(s.workers[t].job) && c.frozen.messages <= s.docs[o].Active()
         then Swapping(c, s.docs[o].revision, s.docs[o].Active()) else Idle
  {
  }

  lemma SwapParts(s: Sys, t: Token, now: Time)
    requires t in s.workers && s.workers[t].job in s.jobs && s.workers[t].main.Swapping?
    requires s.workers[t].main.current.id == s.workers[t].job && s.workers[t].main.current.replacement.Some?
    requires s.workers[t].main.current.frozen.messages <= s.workers[t].main.seen
    ensures var s', id, m := Next(s, Do(t, ApplySwap, now)), s.workers[t].job, s.workers[t].main;
      && s'.jobs == s.jobs && s'.runtimes == s.runtimes
      && s'.workers == s.workers[t := s.workers[t].(main := Idle)]
      && (var o := id.owner;
          var matched := o in s.docs && s.docs[o].revision == m.revision && FencedUntil(s.docs[o], id, t, now);
          && matched == Effective(s, t, id, ApplySwap, now)
          && s'.docs == if matched then s.docs[o := s.docs[o].(
               compacted := [m.current.replacement.value] + m.seen[|m.current.frozen.messages|..],
               revision := m.revision + 1, lastApplied := Some(id), fence := None)]
             else s.docs)
  {
  }

  predicate Pinned(docs: map<OwnerKey, ContextDoc>, id: JobId) {
    id.owner in docs && docs[id.owner].lastApplied == Some(id)
  }

  /** The runtimes after a settlement of `j`: once per marker, and never creating a Conversation's. */
  function AfterSettlement(runtimes: map<OwnerKey, Runtime>, j: Job): map<OwnerKey, Runtime> {
    var o := j.id.owner;
    var current := if o in runtimes then runtimes[o] else EMPTY_RUNTIME;
    if (o.ConversationKey? && o !in runtimes) || current.lastSettled == Some(j.id) then runtimes
    else runtimes[o := SettledRuntime(current, j)]
  }

  function WithoutFence(docs: map<OwnerKey, ContextDoc>, id: JobId, t: Token): map<OwnerKey, ContextDoc> {
    var o := id.owner;
    if o in docs && docs[o].fence.Some? && docs[o].fence.value.job == id && docs[o].fence.value.token == t
    then docs[o := docs[o].(fence := None)] else docs
  }

  lemma AppliableDecides(docs: map<OwnerKey, ContextDoc>, j: Job)
    requires j.replacement.Some?
    ensures var o, r := j.id.owner, SwapOutcome(docs, j);
      && ((o in docs && Appliable(docs[o], j)) <==> r.MergedOutcome? || r.AlreadyMerged?)
      && (r.MergedOutcome? || r.AlreadyMerged? ==> Pinned(AfterSwap(docs, j), j.id))
      && (!(r.MergedOutcome? || r.AlreadyMerged?) ==>
            AfterSwap(docs, j) == docs && r == if o in docs then Conflict else OwnerMissing)
  {
  }

  function MergedJob(j: Job, revision: nat): Job {
    Finish(j.(runtimeSettled := true, mergedContextRevision := Some(revision)), Merged)
  }

  function ReleasedJob(j: Job, availableAt: Time): Job {
    Transition(j.(lease := None, guard := None, availableAt := availableAt), Retryable)
  }

  /** While the lease is live a command does not depend on the clock, but for the delay of a release. */
  lemma WhileHeld(j: Job, t: Token, start: Time, at: Time, until: Time, c: LeaseCommand)
    ensures start <= at <= until && LiveLease(j, t, until) ==>
      && LiveLease(j, t, at)
      && Leased(j, t, at, c) == if c.Release? then Some(ReleasedJob(j, at + c.delay)) else Leased(j, t, start, c)
    ensures c.FailOrphan? ==> Leased(j, t, at, c) == Leased(j, t, start, c)
  {
  }

  function AfterSummary(j: Job, summary: string): Job {
    if j.summary.Some? then j else Transition(AfterBegin(j).(summary := Some(summary)), SummaryReady)
  }

  function AfterReplacement(j: Job, o: OwnerKey, runtimes: map<OwnerKey, Runtime>, projection: Option<string>,
                            build: Job -> Message): Job
  {
    if j.replacement.None? then
      var c := WithMergeContext(j, o, runtimes, projection);
      Transition(c.(replacement := Some(build(c))), MergePrepared)
    else if j.status.Retryable? then Transition(j, MergePrepared)
    else j
  }

  /** The job an undisturbed run brings to the owner swap. */
  function ReadyToMerge(j: Job, o: OwnerKey, runtimes: map<OwnerKey, Runtime>, summary: string,
                        projection: Option<string>, build: Job -> Message): Job
  {
    AfterReplacement(AfterSummary(j, summary), o, runtimes, projection, build)
  }

  lemma MergeContextKeeps(j: Job, o: OwnerKey, runtimes: map<OwnerKey, Runtime>, projection: Option<string>)
    ensures var c := WithMergeContext(j, o, runtimes, projection);
      c.id == j.id && c.summary == j.summary && c.status == j.status && c.replacement == j.replacement
      && c.lease == j.lease && c.frozen == j.frozen && c.runtimeSettled == j.runtimeSettled
  {
  }

  lemma SummaryKeeps(j: Job, summary: string)
    ensures var c := AfterSummary(j, summary);
      c.id == j.id && c.summary.Some? && c.lease == j.lease && c.frozen == j.frozen && c.replacement == j.replacement
      && c.runtimeSettled == j.runtimeSettled && (j.status.Active() ==> c.status.Active())
  {
  }

  lemma ReplacementKeeps(j: Job, o: OwnerKey, runtimes: map<OwnerKey, Runtime>, projection: Option<string>,
                         build: Job -> Message)
    ensures var c := AfterReplacement(j, o, runtimes, projection, build);
      c.id == j.id && c.summary == j.summary && c.lease == j.lease && c.frozen == j.frozen
      && c.replacement.Some? && (j.replacement.Some? ==> c.replacement == j.replacement)
      && c.runtimeSettled == j.runtimeSettled && (j.replacement.None? || j.status.Retryable? ==> c.status.MergePrepared?)
      && (!(j.replacement.None? || j.status.Retryable?) ==> c == j)
  {
    MergeContextKeeps(j, o, runtimes, projection);
    hide WithMergeContext;
  }

  lemma NothingToClear(docs: map<OwnerKey, ContextDoc>, id: JobId, t: Token)
    ensures id.owner !in docs ==> WithoutFence(docs, id, t) == docs
  {
  }

  lemma IdleMay(s: Sys, t: Token)
    requires t in s.workers && s.workers[t].main.Idle?
    ensures Permitted(s, s.workers[t], Fail)
  {
  }

  lemma RefreshParts(s: Sys, t: Token, now: Time)
    requires t in s.workers && s.workers[t].job in s.jobs && s.workers[t].main.Idle?
    ensures Next(s, Do(t, Move.Refresh, now)) == PutWorker(s, t, s.workers[t].(known := s.jobs[s.workers[t].job]))
  {
  }

  /** What the error handler leaves of a job. */
  function GivenUp(j: Job, maxAttempts: nat, availableAt: Time): Job {
    if j.attempt >= maxAttempts then Finish(j, Failed) else ReleasedJob(j, availableAt)
  }

  predicate ReleasedAt(j: Job, k: Job, at: Time, delay: Time) {
    k == ReleasedJob(j, at + delay)
  }

  predicate GivenUpAt(j: Job, k: Job, maxAttempts: nat, at: Time, delay: Time) {
    k == GivenUp(j, maxAttempts, at + delay)
  }

  lemma ReleasedIsGivenUp(j: Job, maxAttempts: nat, delay: Time)
    requires j.attempt < maxAttempts
    ensures forall k: Job, at: Time :: ReleasedAt(j, k, at, delay) ==> GivenUpAt(j, k, maxAttempts, at, delay)
  {
  }

  lemma BegunKeeps(j: Job)
    ensures AfterBegin(j).lease == j.lease && AfterBegin(j).attempt == j.attempt
  {
  }

  lemma ErrorReads(s: Sys, t: Token, now: Time)
    requires t in s.workers && s.workers[t].job in s.jobs
    ensures Read(s, t, Abort, now) == Idle
    ensures Read(s, t, ErrorRead, now) == Failing(s.jobs[s.workers[t].job].attempt)
  {
  }

  lemma ErrorWrites(s: Sys, t: Token, delay: Time)
    requires t in s.workers && s.workers[t].main.Failing?
    ensures Permitted(s, s.workers[t], Fail)
    ensures s.workers[t].main.attempt < s.maxAttempts ==> Permitted(s, s.workers[t], Release(delay))
  {
  }

  lemma OrphanReads(s: Sys, t: Token, now: Time)
    requires t in s.workers && s.workers[t].job in s.jobs
    ensures var j := s.jobs[s.workers[t].job];
      Read(s, t, OrphanRead, now)
      == if j.LeasedBy(t) && j.status.Active() && s.workers[t].job.owner !in s.docs then Orphaning else Idle
  {
  }

  lemma OrphanWrites(s: Sys, t: Token, now: Time)
    requires t in s.workers && s.workers[t].job in s.jobs && s.workers[t].main.Orphaning?
    ensures Permitted(s, s.workers[t], FailOrphan)
    ensures var j := s.jobs[s.workers[t].job];
      Leased(j, t, now, FailOrphan) == if j.LeasedBy(t) && j.status.Active() then Some(Finish(j, Failed)) else None
  {
  }

  lemma AbsenceParts(s: Sys, t: Token, now: Time)
    requires t in s.workers && s.workers[t].job in s.jobs && s.workers[t].main.SettlingRuntime?
    requires s.workers[t].job.owner.ConversationKey? && s.workers[t].job.owner !in s.runtimes
    ensures var s', c := Next(s, Do(t, SettleAbsent, now)), s.workers[t].main.current;
      && s'.jobs == s.jobs && s'.docs == s.docs && s'.runtimes == s.runtimes
      && s'.workers == s.workers[t := s.workers[t].(main := SettleMarking(c))]
      && (c.id == s.workers[t].job ==> AfterSettlement(s.runtimes, c) == s.runtimes)
  {
    hide SettledRuntime;
  }

  lemma SettlementParts(s: Sys, t: Token, now: Time)
    requires t in s.workers && s.workers[t].job in s.jobs && s.workers[t].main.SettlingRuntime?
    ensures var s', id, c := Next(s, Do(t, SettleRuntime, now)), s.workers[t].job, s.workers[t].main.current;
      var o := id.owner;
      var current := if o in s.runtimes then s.runtimes[o] else EMPTY_RUNTIME;
      && s'.jobs == s.jobs && s'.docs == s.docs
      && s'.workers == s.workers[t := s.workers[t].(main := SettleVerifying(c))]
      && s'.runtimes == (if && current.lastSettled != Some(id)
                            && (if o.ConversationKey? then o in s.runtimes else Pinned(s.docs, id))
                         then s.runtimes[o := SettledRuntime(current, c)] else s.runtimes)
      && SettledRuntime(current, c).lastSettled == Some(c.id)
  {
  }

  lemma VerifyReads(s: Sys, t: Token, now: Time)
    requires t in s.workers && s.workers[t].job in s.jobs && s.workers[t].main.SettleVerifying?
    ensures var id, o := s.workers[t].job, s.workers[t].job.owner;
      Read(s, t, SettleVerify, now)
      == if && o in s.runtimes && s.runtimes[o].lastSettled == Some(id)
            && (o.AgentSessionKey? ==> Pinned(s.docs, id))
         then SettleMarking(s.workers[t].main.current) else Idle
  {
  }

  lemma SettleReads(s: Sys, t: Token, now: Time)
    requires t in s.workers && s.workers[t].job in s.jobs
    ensures var j := s.jobs[s.workers[t].job];
      Read(s, t, SettleRead, now)
      == if LiveLease(j, t, now) && j.status.MergePrepared? && j.replacement.Some? && !j.runtimeSettled
         then Settling(j) else Idle
  {
  }

  lemma OwnerReads(s: Sys, t: Token, now: Time)
    requires t in s.workers && s.workers[t].job in s.jobs && s.workers[t].main.Settling?
    ensures Read(s, t, SettleOwner, now)
         == if Pinned(s.docs, s.workers[t].job) then SettlingRuntime(s.workers[t].main.current) else Idle
  {
  }

  lemma MarkWrites(s: Sys, t: Token, now: Time)
    requires t in s.workers && s.workers[t].job in s.jobs && s.workers[t].main.SettleMarking?
    ensures Permitted(s, s.workers[t], MarkSettled)
    ensures var j := s.jobs[s.workers[t].job];
      Leased(j, t, now, MarkSettled)
         == if LiveLease(j, t, now) && j.status.MergePrepared? && !j.runtimeSettled
            then Some(j.(runtimeSettled := true)) else None
  {
  }

  lemma FinalReads(s: Sys, t: Token, now: Time)
    requires t in s.workers && s.workers[t].job in s.jobs
    ensures var j := s.jobs[s.workers[t].job];
      Read(s, t, FinalRead, now) == if LiveLease(j, t, now) && j.status.MergePrepared? then Finalizing(j) else Idle
  {
  }

  lemma FinalContextReads(s: Sys, t: Token, now: Time)
    requires t in s.workers && s.workers[t].job in s.jobs && s.workers[t].main.Finalizing?
    ensures var id := s.workers[t].job;
      Read(s, t, FinalSnapshot, now)
      == if Pinned(s.docs, id) && s.workers[t].main.current.runtimeSettled
         then Finishing(s.docs[id.owner].revision) else Idle
    ensures Read(s, t, Abort, now) == Idle
  {
  }

  lemma MergeWrites(s: Sys, t: Token, now: Time, revision: nat)
    requires t in s.workers && s.workers[t].job in s.jobs && s.workers[t].main == Finishing(revision)
    ensures Permitted(s, s.workers[t], MarkMerged(revision))
    ensures var j := s.jobs[s.workers[t].job];
      Leased(j, t, now, MarkMerged(revision))
         == if LiveLease(j, t, now) && j.status.MergePrepared? && j.runtimeSettled
            then Some(Finish(j.(mergedContextRevision := Some(revision)), Merged)) else None
  {
  }

  lemma LookHasNoEffect(origin: Sys, before: seq<Action>, trace: seq<Action>, since: nat,
                        t: Token, id: JobId, move: Move)
    requires before <= trace && |trace| == |before| + 1 && since <= |before|
    requires trace[|before|].Do? && trace[|before|].move != move
    ensures TookEffect(origin, trace, since, t, id, move) <==> TookEffect(origin, before, since, t, id, move)
  {
    hide TookEffect, EffectAt;
    OneMoreAction(origin, before, trace, since, t, id, move);
    OtherHasNoEffect(origin, trace, |before|, t, id, move);
  }

  lemma EvolvedFields(j: Job, k: Job)
    requires Evolves(j, k)
    ensures j.summary.Some? ==> k.summary == j.summary
    ensures j.replacement.Some? ==> k.replacement == j.replacement
    ensures j.runtimeSettled ==> k.runtimeSettled
    ensures j.status.Merged? ==> k.status.Merged?
  {
  }

  /** What a lease-filtered write stored is still there at the end of the run. */
  lemma EffectLasts(origin: Sys, trace: seq<Action>, since: nat, t: Token, id: JobId, c: LeaseCommand)
    returns (j: Job, now: Time)
    requires Initial(origin) && TookEffect(origin, trace, since, t, id, Write(c))
    ensures id in Run(origin, trace).jobs && Leased(j, t, now, c).Some?
    ensures Evolves(Leased(j, t, now, c).value, Run(origin, trace).jobs[id])
  {
    hide Inv, Initial, Run, Evolves, Leased, Permitted, Next, JobOk, WorkerOk;
    var i :| since <= i < |trace| && EffectAt(origin, trace, i, t, id, Write(c));
    var s := At(origin, trace, i);
    j, now := s.jobs[id], trace[i].now;
    AtInv(origin, trace, i);
    Extract(s, t);
    AtNext(origin, trace, i);
    LeaseWriteParts(s, t, c, now);
    AtInv(origin, trace, i + 1);
    assert trace == trace[..i + 1] + trace[i + 1..];
    RunSplit(origin, trace[..i + 1], trace[i + 1..]);
    JobsEvolve(At(origin, trace, i + 1), trace[i + 1..], id);
  }

  lemma EstablishReads(s: Sys, t: Token, now: Time)
    requires t in s.workers && s.workers[t].job in s.jobs
    ensures var j := s.jobs[s.workers[t].job];
      Read(s, t, EstablishRead, now) == if LiveLease(j, t, now) then Establishing(j.lease.value.expiresAt) else Idle
  {
  }

  lemma EstablishParts(s: Sys, t: Token, now: Time)
    requires t in s.workers && s.workers[t].job in s.jobs && s.workers[t].main.Establishing?
    ensures var s', id, o := Next(s, Do(t, EstablishWrite, now)), s.workers[t].job, s.workers[t].job.owner;
      && s'.jobs == s.jobs && s'.runtimes == s.runtimes && s'.history == s.history
      && s'.workers == s.workers[t := s.workers[t].(main := Idle)]
      && s'.docs == (if o in s.docs && FenceReusable(s.docs[o], id, t, now)
                     then s.docs[o := s.docs[o].(fence := Some(Fence(id, t, s.workers[t].main.expiresAt)))]
                     else s.docs)
  {
    hide FenceReusable;
  }

  lemma AbortSparesDocuments(s: Sys, t: Token, now: Time)
    requires t in s.workers && s.workers[t].job in s.jobs
    ensures var s' := Next(s, Do(t, Abort, now));
      && s' == s.(workers := s.workers[t := s.workers[t].(main := Idle)])
  {
  }

  /** What a lease write of the machine leaves in the documents. */
  lemma LeaseWriteParts(s: Sys, t: Token, c: LeaseCommand, now: Time)
    requires t in s.workers && s.workers[t].job in s.jobs && s.jobs[s.workers[t].job].id == s.workers[t].job
    requires Permitted(s, s.workers[t], c)
    ensures var s', id := Next(s, Do(t, Write(c), now)), s.workers[t].job;
      && s'.docs == s.docs && s'.runtimes == s.runtimes
      && s'.workers == s.workers[t := s.workers[t].(main := Idle)]
      && s'.jobs == (if Leased(s.jobs[id], t, now, c).Some?
                     then s.jobs[id := Leased(s.jobs[id], t, now, c).value] else s.jobs)
  {
    LeasedId(s.jobs[s.workers[t].job], t, now, c);
    hide Leased, Permitted, ErrorReleases;
  }

  lemma LeasedId(j: Job, t: Token, now: Time, c: LeaseCommand)
    ensures Leased(j, t, now, c).Some? ==> Leased(j, t, now, c).value.id == j.id
  {
  }

  lemma NextKeepsMax(s: Sys, a: Action)
    ensures Next(s, a).maxAttempts == s.maxAttempts
  {
    if a.Do? {
      hide Read, SwapEnabled, SettleEnabled, Leased, FenceReusable, Permitted;
    } else {
      hide Insertable, Command, KeyFree, Claimable;
    }
  }

  lemma MoveKeepsShape(s: Sys, t: Token, move: Move, now: Time)
    requires t in s.workers
    ensures var s' := Next(s, Do(t, move, now));
      && s'.maxAttempts == s.maxAttempts && t in s'.workers && s'.workers[t].job == s.workers[t].job
  {
    hide Read, SwapEnabled, SettleEnabled, Leased, FenceReusable, Permitted;
  }
}
