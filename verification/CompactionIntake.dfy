/**
 * How a job comes to be: the enqueue that creates it or joins the standing
 * one, the handoff that accepts only its own intent, and the barrier that
 * keeps Runs off a context while a job holds it.
 *
 * Other actors move between the accesses of a call: `first`, `second` and
 * `third` are whatever they do at each await.
 */
module CompactionIntake {
  import opened CompactionTypes
  import opened JobCommands
  import opened Protocol
  import opened ProtocolInvariant
  import opened ProtocolSteps
  import opened ProtocolTheorems
  import JobGuarantees

  datatype EnqueueInput = EnqueueInput(
    owner: OwnerKey,
    key: string,
    sourceRunId: Option<string>,
    prefix: Option<seq<Message>>,
    context: Option<ProjectContext>,
    projection: Option<string>,
    availableAt: Time,
    now: Time
  )

  datatype Enqueued =
    | Accepted(job: Job)
    | OwnerNotFound
    | PrefixConflict
    | DuplicateKey

  predicate Attached(s: Sys, id: JobId, key: string) {
    id in s.jobs && key in s.jobs[id].keys
  }

  /** The first read: a job that this trigger key already names. */
  predicate IsPrior(s: Sys, id: JobId, input: EnqueueInput) {
    id in s.jobs && id.owner == input.owner
    && (id == JobId(input.owner, input.key) || input.key in s.jobs[id].keys)
  }

  /** The document that made the insert fail, by its ID or by the owner's barrier key. */
  predicate IsWinner(s: Sys, id: JobId, input: EnqueueInput) {
    id in s.jobs && (id == JobId(input.owner, input.key) || s.jobs[id].activeKey == Some(input.owner))
  }

  function FrozenFrom(d: ContextDoc, input: EnqueueInput): FrozenPrefix {
    FrozenPrefix(d.revision, if input.prefix.Some? then input.prefix.value else d.Active())
  }

  /** A projection that is not given is the context's. */
  function ProjectionOf(input: EnqueueInput): Option<string> {
    if input.projection.None? && input.context.Some? then Some(input.context.value.projection) else input.projection
  }

  /** The requested prefix is a non-empty prefix of what the context holds. */
  predicate Freezes(d: ContextDoc, input: EnqueueInput) {
    var prefix := FrozenFrom(d, input).messages;
    prefix != [] && prefix <= d.Active()
  }

  /** What is asked to be compacted: the requested prefix, or all that is active. */
  function Wanted(d: ContextDoc, input: EnqueueInput): seq<Message> {
    if input.prefix.Some? then input.prefix.value else d.Active()
  }

  /** No job of the context stands in the way of the insert. */
  predicate Vacant(s: Sys, owner: OwnerKey, key: string) {
    && JobId(owner, key) !in s.jobs
    && forall k <- s.jobs :: k.owner == owner ==> !s.jobs[k].status.Active() && key !in s.jobs[k].keys
  }

  /** A new job that holds exactly what was asked for and read. */
  predicate Fresh(j: Job, input: EnqueueInput, d: ContextDoc) {
    && j.id == JobId(input.owner, input.key) && j.keys == {input.key} && j.sourceRunId == input.sourceRunId
    && j.frozen.messages == Wanted(d, input) && j.frozen.contextRevision == d.revision
    && j.projectContext == input.context
    && j.workspaceProjection == (if input.projection.Some? then input.projection
                                 else if input.context.Some? then Some(input.context.value.projection) else None)
    && j.availableAt == input.availableAt && j.createdAt == input.now
    && j.status.Queued? && j.attempt == 0 && j.lease.None? && j.guard.None?
    && j.summary.None? && j.mergeFreeze.None? && j.replacement.None? && !j.runtimeSettled
  }

  lemma CreatedIsFresh(input: EnqueueInput, d: ContextDoc)
    ensures Fresh(Created(JobId(input.owner, input.key), input.sourceRunId, FrozenFrom(d, input), input.context,
                          ProjectionOf(input), input.availableAt, input.now), input, d)
  {
  }

  lemma VacantIsInsertable(s: Sys, owner: OwnerKey, key: string)
    requires Inv(s)
    ensures Insertable(s, JobId(owner, key)) <==> Vacant(s, owner, key)
  {
    BarrierKeys(s);
    hide Inv;
  }

  /**
   * An enqueue succeeds only with the one job its trigger key belongs to from then on.  If nothing stands in the way
   * when the insert is tried, it creates exactly the job that was asked for, with the prefix and the revision read
   * before; if something does, it joins the job that stands there, or fails.
   */
  method Enqueue(ghost origin: Sys, ghost past: seq<Action>, s: Sys, input: EnqueueInput,
                 first: seq<Action>, second: seq<Action>, third: seq<Action>)
    returns (r: Enqueued, s': Sys, ghost more: seq<Action>)
    requires Initial(origin) && s == Run(origin, past)
    ensures s' == Run(s, more)
    ensures r.Accepted? ==>
      && r.job.id.owner == input.owner && Attached(s', r.job.id, input.key)
      && s'.jobs[r.job.id] == r.job
      && (forall k <- s'.jobs :: k.owner == input.owner && Attached(s', k, input.key) ==> k == r.job.id)
    ensures (exists k <- s.jobs :: IsPrior(s, k, input)) ==> r.Accepted? && s' == s
    ensures !(exists k <- s.jobs :: IsPrior(s, k, input)) ==>
      var docs := Run(s, first).docs;
      && (r.OwnerNotFound? <==> input.owner !in docs)
      && (r.PrefixConflict? <==> input.owner in docs && !Freezes(docs[input.owner], input))
      && (input.owner in docs && Freezes(docs[input.owner], input) ==>
            var tried := Run(Run(s, first), second);
            && (Vacant(tried, input.owner, input.key) ==>
                  && r.Accepted? && Fresh(r.job, input, docs[input.owner])
                  && s' == tried.(jobs := tried.jobs[r.job.id := r.job]))
            && (!Vacant(tried, input.owner, input.key) ==> Joins(r, s', Run(tried, third), input)))
  {
    hide Next, Inv, Initial, Evolves, Insertable, KeyFree;
    s' := s;
    more := [];
    RunKeeps(origin, past);
    assert s == Run(s, []);
    if exists id <- s.jobs :: IsPrior(s, id, input) {
      var id :| id in s.jobs && IsPrior(s, id, input);
      PriorAttached(s, id, input);
      return Accepted(s.jobs[id]), s, [];
    }
    s' := Advance(s, first);
    more := first;
    if input.owner !in s'.docs {
      return OwnerNotFound, s', more;
    }
    var active := s'.docs[input.owner].Active();
    var frozen := FrozenFrom(s'.docs[input.owner], input);
    var prefix := frozen.messages;
    if |prefix| == 0 || |prefix| > |active| || active[..|prefix|] != prefix {
      return PrefixConflict, s', more;
    }
    s' := Advance(s', second);
    RunSplit(s, more, second);
    more := more + second;
    RunSplit(origin, past, more);
    RunKeeps(origin, past + more);
    var id := JobId(input.owner, input.key);
    var projection := ProjectionOf(input);
    var j := Created(id, input.sourceRunId, frozen, input.context, projection, input.availableAt, input.now);
    ghost var creation := Create(id, input.sourceRunId, frozen, input.context, projection, input.availableAt, input.now);
    CreatesExactly(s', input, frozen);
    VacantIsInsertable(s', input.owner, input.key);
    CreatedIsFresh(input, Run(s, first).docs[input.owner]);
    if Insertable(s', id) {
      RunSnoc(s, more, creation);
      NextKeeps(s', creation);
      s', more := s'.(jobs := s'.jobs[id := j]), more + [creation];
      KeyIsUnique(s', id, input);
      return Accepted(j), s', more;
    }
    r, s', more := JoinWinner(origin, past, s, s', more, input, third);
  }

  /** The key is attached to this job, or to no job of the context yet. */
  predicate Joinable(s: Sys, id: JobId, input: EnqueueInput) {
    id in s.jobs && (input.key in s.jobs[id].keys || KeyFree(s, input.owner, input.key))
  }

  /**
   * A key that found the place taken joins a job that stands there in state `t`, and fails only if no job does, or one
   * does while the key belongs to another.
   */
  ghost predicate Joins(r: Enqueued, s': Sys, t: Sys, input: EnqueueInput) {
    && (r.Accepted? ==>
          var id := r.job.id;
          && IsWinner(t, id, input) && r.job == t.jobs[id].(keys := t.jobs[id].keys + {input.key})
          && s' == t.(jobs := t.jobs[id := r.job]))
    && (!r.Accepted? ==>
          && r.DuplicateKey? && s' == t
          && ((forall k <- t.jobs :: !IsWinner(t, k, input))
              || exists k <- t.jobs :: IsWinner(t, k, input) && !Joinable(t, k, input)))
  }

  /** The insert hit a unique index: add the trigger key to whichever job stands there. */
  method JoinWinner(ghost origin: Sys, ghost past: seq<Action>, ghost s: Sys, now: Sys, ghost done: seq<Action>,
                    input: EnqueueInput, third: seq<Action>)
    returns (r: Enqueued, s': Sys, ghost more: seq<Action>)
    requires Initial(origin) && s == Run(origin, past) && now == Run(s, done)
    ensures s' == Run(s, more)
    ensures r.Accepted? ==>
      && r.job.id.owner == input.owner && Attached(s', r.job.id, input.key)
      && s'.jobs[r.job.id] == r.job
      && (forall k <- s'.jobs :: k.owner == input.owner && Attached(s', k, input.key) ==> k == r.job.id)
    ensures Joins(r, s', Run(now, third), input)
  {
    hide Next, Inv, Initial, Evolves, KeyFree, Command;
    s' := Advance(now, third);
    RunSplit(s, done, third);
    more := done + third;
    RunSplit(origin, past, more);
    RunKeeps(origin, past + more);
    if exists id <- s'.jobs :: IsWinner(s', id, input) {
      var id :| id in s'.jobs && IsWinner(s', id, input);
      WinnerIsOwned(s', id, input);
      if input.key in s'.jobs[id].keys || KeyFree(s', input.owner, input.key) {
        var joining := OnJob(id, Join(input.key));
        JoinAdds(s', id, input.key);
        RunSnoc(s, more, joining);
        NextKeeps(s', joining);
        var joined := s'.jobs[id].(keys := s'.jobs[id].keys + {input.key});
        s', more := s'.(jobs := s'.jobs[id := joined]), more + [joining];
        KeyIsUnique(s', id, input);
        return Accepted(joined), s', more;
      }
    }
    return DuplicateKey, s', more;
  }

  /** What other actors do at an await. */
  method Advance(s: Sys, actions: seq<Action>) returns (s': Sys)
    ensures s' == Run(s, actions)
  {
    s' := s;
    var i := 0;
    assert actions[..0] == [];
    while i < |actions|
      invariant i <= |actions| && s' == Run(s, actions[..i])
    {
      s' := Next(s', actions[i]);
      assert actions[..i + 1][..i] == actions[..i];
      i := i + 1;
      hide Next;
    }
    assert actions[..|actions|] == actions;
  }

  lemma PriorAttached(s: Sys, id: JobId, input: EnqueueInput)
    requires Inv(s) && IsPrior(s, id, input)
    ensures Attached(s, id, input.key) && s.jobs[id].id == id
    ensures forall k <- s.jobs :: k.owner == input.owner && Attached(s, k, input.key) ==> k == id
  {
    assert JobsOk(s) && KeysDisjoint(s) && JobOk(s.jobs[id]);
    hide OneBarrier, TokensLinked, SwapsOk, SettlesOk, ReleasesOk, WorkersOk, OutboxFaithful, PhaseOk;
  }

  lemma KeyIsUnique(s: Sys, id: JobId, input: EnqueueInput)
    requires Inv(s) && id.owner == input.owner && Attached(s, id, input.key)
    ensures forall k <- s.jobs :: k.owner == input.owner && Attached(s, k, input.key) ==> k == id
  {
    assert KeysDisjoint(s);
    hide JobsOk, OneBarrier, TokensLinked, SwapsOk, SettlesOk, ReleasesOk, WorkersOk;
  }

  lemma WinnerIsOwned(s: Sys, id: JobId, input: EnqueueInput)
    requires Inv(s) && IsWinner(s, id, input)
    ensures id.owner == input.owner && s.jobs[id].id == id
  {
    assert JobsOk(s) && JobOk(s.jobs[id]);
    hide OneBarrier, KeysDisjoint, TokensLinked, SwapsOk, SettlesOk, ReleasesOk, WorkersOk, OutboxFaithful, PhaseOk;
  }

  lemma CreatesExactly(s: Sys, input: EnqueueInput, frozen: FrozenPrefix)
    requires frozen.messages != []
    ensures var id := JobId(input.owner, input.key);
      Insertable(s, id) ==>
        Next(s, Create(id, input.sourceRunId, frozen, input.context, ProjectionOf(input), input.availableAt, input.now))
        == s.(jobs := s.jobs[id := Created(id, input.sourceRunId, frozen, input.context, ProjectionOf(input),
                                           input.availableAt, input.now)])
  {
    hide Insertable;
  }

  lemma JoinAdds(s: Sys, id: JobId, key: string)
    requires id in s.jobs && s.jobs[id].id == id && (key in s.jobs[id].keys || KeyFree(s, id.owner, key))
    ensures Next(s, OnJob(id, Join(key)))
         == s.(jobs := s.jobs[id := s.jobs[id].(keys := s.jobs[id].keys + {key})])
  {
    hide KeyFree;
  }

  /** Once attached, a trigger key names the same job of its owner in every later state. */
  lemma KeyIsStable(origin: Sys, past: seq<Action>, more: seq<Action>, id: JobId, other: JobId, key: string)
    requires Initial(origin) && Attached(Run(origin, past), id, key) && id.owner == other.owner
    requires Attached(Run(origin, past + more), other, key)
    ensures other == id
  {
    hide Inv, Initial, Evolves;
    RunSplit(origin, past, more);
    RunKeeps(origin, past);
    RunKeeps(origin, past + more);
    JobsEvolve(Run(origin, past), more, id);
    KeysGrow(Run(origin, past).jobs[id], Run(origin, past + more).jobs[id]);
    OneJobPerKey(Run(origin, past + more), id, other, key);
  }

  lemma KeysGrow(j: Job, k: Job)
    requires Evolves(j, k)
    ensures j.keys <= k.keys
  {
  }

  lemma OneJobPerKey(s: Sys, id: JobId, other: JobId, key: string)
    requires Inv(s) && Attached(s, id, key) && Attached(s, other, key) && id.owner == other.owner
    ensures id == other
  {
    assert KeysDisjoint(s);
    hide JobsOk, OneBarrier, TokensLinked, SwapsOk, SettlesOk, ReleasesOk, WorkersOk;
  }

  // ------------------------------------------------------------------ handoff

  /** What a live executor hands over: its own Run, trigger key, prefix and Project Context. */
  datatype Intent = Intent(owner: OwnerKey, sourceRunId: string, key: string, prefix: seq<Message>,
                           context: ProjectContext)

  predicate ExactIntent(j: Job, intent: Intent) {
    && j.id == JobId(intent.owner, intent.key) && j.sourceRunId == Some(intent.sourceRunId) && intent.key in j.keys
    && j.frozen.messages == intent.prefix
    && j.projectContext == Some(intent.context) && j.workspaceProjection == Some(intent.context.projection)
  }

  predicate Takes(j: Job, intent: Intent) {
    ExactIntent(j, intent) && !j.status.Failed? && !j.status.Cancelled? && !j.status.Superseded?
  }

  /** A delayed handoff wants a job that nobody claimed and that starts exactly then. */
  predicate DelayedShadow(j: Job, notBefore: Option<Time>) {
    notBefore.Some? ==> j.status.Queued? && j.lease.None? && j.availableAt == notBefore.value
  }

  /** The job created for this intent stands, and has not failed or been given up. */
  predicate HandedTo(s: Sys, intent: Intent) {
    var id := JobId(intent.owner, intent.key);
    id in s.jobs && Takes(s.jobs[id], intent)
  }

  function InputOf(intent: Intent, notBefore: Option<Time>, now: Time): EnqueueInput {
    EnqueueInput(intent.owner, intent.key, Some(intent.sourceRunId), Some(intent.prefix), Some(intent.context),
                 Some(intent.context.projection), if notBefore.Some? then notBefore.value else now, now)
  }

  predicate Acceptable(s: Sys, intent: Intent, notBefore: Option<Time>) {
    HandedTo(s, intent) && DelayedShadow(s.jobs[JobId(intent.owner, intent.key)], notBefore)
  }

  lemma FreshIsAcceptable(j: Job, intent: Intent, notBefore: Option<Time>, now: Time, d: ContextDoc)
    requires Fresh(j, InputOf(intent, notBefore, now), d)
    ensures Takes(j, intent) && DelayedShadow(j, notBefore)
  {
  }

  /**
   * A handoff is accepted only by the job created for exactly this intent.  While
   * another job holds the context's barrier, that can only be one already merged;
   * a delayed handoff is accepted only by a job that waits unclaimed for its time.
   * A first handoff of a prefix the context has is accepted whenever nothing
   * stands in the way of its job, and a repeated one exactly if the job takes it.
   */
  method Handoff(ghost origin: Sys, ghost past: seq<Action>, s: Sys, intent: Intent, notBefore: Option<Time>, now: Time,
                 first: seq<Action>, second: seq<Action>, third: seq<Action>)
    returns (r: Option<JobId>, s': Sys, ghost more: seq<Action>)
    requires Initial(origin) && s == Run(origin, past)
    ensures s' == Run(s, more)
    ensures r.Some? ==>
      && r.value == JobId(intent.owner, intent.key) && HandedTo(s', intent)
      && intent.prefix != [] && s'.jobs[r.value].frozen.messages == intent.prefix
      && s'.jobs[r.value].sourceRunId == Some(intent.sourceRunId)
      && DelayedShadow(s'.jobs[r.value], notBefore)
    ensures !Blank(intent.sourceRunId) && intent.prefix != [] ==>
      var input := InputOf(intent, notBefore, now);
      if exists k <- s.jobs :: IsPrior(s, k, input) then s' == s && (r.Some? <==> Acceptable(s, intent, notBefore))
      else
        var docs, tried := Run(s, first).docs, Run(Run(s, first), second);
        && (r.Some? ==> intent.owner in docs && intent.prefix <= docs[intent.owner].Active())
        && (intent.owner in docs && intent.prefix <= docs[intent.owner].Active() ==>
              Vacant(tried, intent.owner, intent.key) ==> r.Some?)
    ensures forall k <- s'.jobs ::
      r.Some? && k.owner == intent.owner && k != r.value && s'.jobs[k].status.Active() ==>
        s'.jobs[r.value].status.Merged?
  {
    hide Next, Inv, Initial, Evolves, Run;
    if Blank(intent.sourceRunId) || intent.prefix == [] {
      EmptyRun(s);
      return None, s, [];
    }
    var input := InputOf(intent, notBefore, now);
    var enqueued;
    enqueued, s', more := Enqueue(origin, past, s, input, first, second, third);
    ghost var docs := Run(s, first).docs;
    if enqueued.Accepted? && intent.owner in docs && Fresh(enqueued.job, input, docs[intent.owner]) {
      FreshIsAcceptable(enqueued.job, intent, notBefore, now, docs[intent.owner]);
    }
    if !enqueued.Accepted? || !Takes(enqueued.job, intent) || !DelayedShadow(enqueued.job, notBefore) {
      return None, s', more;
    }
    r := Some(enqueued.job.id);
    RunSplit(origin, past, more);
    RunKeeps(origin, past + more);
    OneBarrierHolder(s', r.value);
  }

  /**
   * Of two handoffs of one context accepted at two points of one run, only one can hold the barrier: while the first
   * one's job does, the second was accepted by a job already merged, hence not as a delayed one.
   */
  lemma OneHandoffHolds(origin: Sys, past: seq<Action>, more: seq<Action>, a: Intent, b: Intent,
                        notBefore: Option<Time>)
    requires Initial(origin) && a.owner == b.owner && a.key != b.key
    requires HandedTo(Run(origin, past), a) && HandedTo(Run(origin, past + more), b)
    requires DelayedShadow(Run(origin, past + more).jobs[JobId(b.owner, b.key)], notBefore)
    ensures var later := Run(origin, past + more);
      var i, k := JobId(a.owner, a.key), JobId(b.owner, b.key);
      && i in later.jobs && later.jobs[i].frozen.messages == a.prefix
      && (later.jobs[i].status.Active() ==> later.jobs[k].status.Merged? && notBefore.None?)
  {
    hide Inv, Initial, Evolves;
    var i := JobId(a.owner, a.key);
    RunSplit(origin, past, more);
    RunKeeps(origin, past);
    RunKeeps(origin, past + more);
    JobsEvolve(Run(origin, past), more, i);
    PrefixStays(Run(origin, past).jobs[i], Run(origin, past + more).jobs[i]);
    OneBarrierHolder(Run(origin, past + more), i);
  }

  /** A job accepted as delayed is not claimed before its time, unless it was activated, offered a summary or released. */
  lemma DelayedWaits(origin: Sys, actions: seq<Action>, i: nat, k: nat, intent: Intent, due: Time)
    requires Initial(origin) && i <= k < |actions| && Acceptable(At(origin, actions, i), intent, Some(due))
    requires var id := JobId(intent.owner, intent.key);
      && JobGuarantees.Claims(At(origin, actions, k), actions[k], id)
      && forall j: nat :: i <= j < k ==> !JobGuarantees.Reschedules(At(origin, actions, j), actions[j], id)
    ensures due <= actions[k].now
  {
    hide Initial, At;
    JobGuarantees.ClaimWaits(origin, actions, i, k, JobId(intent.owner, intent.key));
  }

  lemma PrefixStays(j: Job, k: Job)
    requires Evolves(j, k)
    ensures k.frozen == j.frozen
  {
  }

  lemma OneBarrierHolder(s: Sys, id: JobId)
    requires Inv(s) && id in s.jobs
    ensures forall k <- s.jobs ::
      k.owner == id.owner && k != id && s.jobs[k].status.Active() ==> !s.jobs[id].status.Active()
  {
    assert OneBarrier(s);
    hide JobsOk, KeysDisjoint, TokensLinked, SwapsOk, SettlesOk, ReleasesOk, WorkersOk;
  }

  lemma EmptyRun(s: Sys)
    ensures Run(s, []) == s
  {
  }

  // ------------------------------------------------------------------ barrier

  datatype Decision =
    | Open(terminal: Option<Job>, repairRequired: bool)
    | Defer(job: Job)

  function Classify(job: Option<Job>): Decision {
    if job.None? then Open(None, false)
    else if job.value.status.Active() then Defer(job.value)
    else Open(job, job.value.status.Failed?)
  }

  /** The newest job of an owner. */
  predicate IsLatest(s: Sys, id: JobId) {
    && id in s.jobs
    && forall k <- s.jobs :: k.owner == id.owner ==> s.jobs[k].createdAt <= s.jobs[id].createdAt
  }

  /**
   * The barrier of a Run's context, read as two lookups with other actors in
   * between.  A Run is let through only if no job held the barrier at the first
   * lookup; it is sent to repair only by a failed newest job at the second.
   */
  method Inspect(ghost origin: Sys, ghost past: seq<Action>, s: Sys, owner: OwnerKey, between: seq<Action>)
    returns (r: Decision, s': Sys)
    requires Initial(origin) && s == Run(origin, past)
    ensures s' == s || s' == Run(s, between)
    ensures forall id <- s.jobs :: id.owner == owner && s.jobs[id].status.Active() ==> r == Defer(s.jobs[id])
    ensures r.Defer? ==> r.job.id.owner == owner && r.job.id in s'.jobs && s'.jobs[r.job.id] == r.job && r.job.status.Active()
    ensures r.Open? ==>
      && (r.repairRequired <==> r.terminal.Some? && r.terminal.value.status.Failed?)
      && (r.terminal.None? <==> forall id <- s'.jobs :: id.owner != owner)
    ensures r.Open? && r.terminal.Some? ==>
      var id := r.terminal.value.id;
      id.owner == owner && IsLatest(s', id) && s'.jobs[id] == r.terminal.value && !r.terminal.value.status.Active()
  {
    hide Next, Inv, Initial, Run;
    s' := s;
    RunKeeps(origin, past);
    BarrierKeys(s);
    if exists id <- s.jobs :: s.jobs[id].activeKey == Some(owner) {
      var id :| id in s.jobs && s.jobs[id].activeKey == Some(owner);
      OneBarrierHolder(s, id);
      return Classify(Some(s.jobs[id])), s;
    }
    s' := Advance(s, between);
    RunSplit(origin, past, between);
    RunKeeps(origin, past + between);
    BarrierKeys(s');
    if forall id <- s'.jobs :: id.owner != owner {
      return Classify(None), s';
    }
    NewestExists(s', owner);
    var id :| id in s'.jobs && id.owner == owner && IsLatest(s', id);
    r := Classify(Some(s'.jobs[id]));
  }

  lemma BarrierKeys(s: Sys)
    requires Inv(s)
    ensures forall id <- s.jobs :: s.jobs[id].id == id
              && s.jobs[id].activeKey == (if s.jobs[id].status.Active() then Some(id.owner) else None)
  {
    forall id <- s.jobs
      ensures s.jobs[id].id == id && s.jobs[id].activeKey == (if s.jobs[id].status.Active() then Some(id.owner) else None)
    {
      assert JobsOk(s) && JobOk(s.jobs[id]);
      hide OneBarrier, KeysDisjoint, TokensLinked, SwapsOk, SettlesOk, ReleasesOk, WorkersOk, OutboxFaithful, PhaseOk;
    }
  }

  lemma NewestExists(s: Sys, owner: OwnerKey)
    requires exists id <- s.jobs :: id.owner == owner
    ensures exists id <- s.jobs :: id.owner == owner && IsLatest(s, id)
  {
    var own := set id <- s.jobs | id.owner == owner;
    var one :| one in s.jobs && one.owner == owner;
    assert one in own;
    var id := NewestOf(s, own);
    forall k <- s.jobs | k.owner == owner ensures s.jobs[k].createdAt <= s.jobs[id].createdAt {
      assert k in own;
    }
    assert IsLatest(s, id);
  }

  lemma {:induction false} NewestOf(s: Sys, ids: set<JobId>) returns (id: JobId)
    requires ids != {} && ids <= s.jobs.Keys
    ensures id in ids && forall k <- ids :: s.jobs[k].createdAt <= s.jobs[id].createdAt
    decreases |ids|
  {
    var one :| one in ids;
    var rest := ids - {one};
    id := one;
    if rest != {} {
      var best := NewestOf(s, rest);
      id := if s.jobs[best].createdAt >= s.jobs[one].createdAt then best else one;
    }
    forall k <- ids ensures s.jobs[k].createdAt <= s.jobs[id].createdAt {
      assert k == one || k in rest;
    }
  }
}
