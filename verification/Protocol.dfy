/**
 * The compaction protocol as a state machine.  One action is one atomic read
 * or write of one document, so every interleaving of paused, crashed and
 * taken-over workers, of other commands and of other writers is a sequence of
 * actions.  A worker that crashes simply takes no further action.
 *
 * `now` is whatever clock value the actor's filter carries.  Nothing relates it
 * to any other action's clock unless a theorem says so: a value read long
 * before the write arrives, or on a machine whose clock is wrong, is covered.
 */
module Protocol {
  import opened CompactionTypes
  import opened JobCommands

  /** Where a worker's main thread stands inside a repository call, with what it has read. */
  datatype Main =
    | Idle
    | Establishing(expiresAt: Time)
    | Freezing(current: Job)
    | FreezeReady(freeze: MergeFreeze)
    | Preparing(current: Job, message: Message)
    | Applying(current: Job)
    | Swapping(current: Job, revision: nat, seen: seq<Message>)
    | Settling(current: Job)
    | SettlingRuntime(current: Job)
    | SettleVerifying(current: Job)
    | SettleMarking(current: Job)
    | Finalizing(current: Job)
    | Finishing(revision: nat)
    | Failing(attempt: nat)
    | Orphaning

  /** The heartbeat timer runs beside the main thread; its calls do not overlap. */
  datatype Beat = Resting | LeaseExtended(expiresAt: Time)

  /** One claim: `known` is the service's `claim.job`. */
  datatype Worker = Worker(job: JobId, leaseMs: Time, known: Job, main: Main, beat: Beat)

  /** What the documents do not record but the theorems speak of. */
  datatype History = History(
    swapped: set<JobId>,
    settled: set<JobId>,
    absent: set<JobId>,
    errorReleases: map<JobId, seq<nat>>
  )

  datatype Sys = Sys(
    maxAttempts: nat,
    jobs: map<JobId, Job>,
    docs: map<OwnerKey, ContextDoc>,
    runtimes: map<OwnerKey, Runtime>,
    workers: map<Token, Worker>,
    history: History
  )

  datatype Move =
    | Refresh
    | EstablishRead
    | EstablishWrite
    | FreezeStart
    | FreezeRead(projection: Option<string>)
    | PrepareRead(replacement: Message)
    | ApplyRead
    | ApplySnapshot
    | ApplySwap
    | SettleRead
    | SettleOwner
    | SettleAbsent
    | SettleRuntime
    | SettleVerify
    | FinalRead
    | FinalSnapshot
    | ErrorRead
    | OrphanRead
    | Abort
    | Write(c: LeaseCommand)
    | BeatLease
    | BeatFence

  datatype Action =
    | Create(id: JobId, sourceRunId: Option<string>, frozen: FrozenPrefix, context: Option<ProjectContext>,
             projection: Option<string>, availableAt: Time, createdAt: Time)
    | OnJob(id: JobId, command: JobCommand)
    | Claim(id: JobId, token: Token, leaseMs: Time, now: Time)
    | Do(token: Token, move: Move, now: Time)
    | ClearFence(owner: OwnerKey, id: JobId, token: Token)
    | ReapFence(owner: OwnerKey, now: Time)
    | Append(owner: OwnerKey, messages: seq<Message>)
    | Rewrite(owner: OwnerKey, messages: seq<Message>, compacted: seq<Message>)
    | Delete(owner: OwnerKey)
    | TouchRuntime(owner: OwnerKey, runtime: Runtime)

  // ------------------------------------------------------------ small writes

  function PutJob(s: Sys, j: Job): Sys {
    s.(jobs := s.jobs[j.id := j])
  }

  function PutDoc(s: Sys, o: OwnerKey, d: ContextDoc): Sys {
    s.(docs := s.docs[o := d])
  }

  function PutWorker(s: Sys, t: Token, w: Worker): Sys {
    s.(workers := s.workers[t := w])
  }

  // ------------------------------------------------------- commands of others

  /** The unique indexes on job ID, on active key and on (owner, trigger key). */
  predicate Insertable(s: Sys, id: JobId) {
    && id !in s.jobs
    && (forall k <- s.jobs :: s.jobs[k].activeKey != Some(id.owner))
    && KeyFree(s, id.owner, id.idempotencyKey)
  }

  predicate KeyFree(s: Sys, o: OwnerKey, key: string) {
    forall k <- s.jobs :: k.owner == o ==> key !in s.jobs[k].keys
  }

  function CreateJob(s: Sys, j: Job): Sys {
    if Insertable(s, j.id) && j.frozen.messages != [] then PutJob(s, j) else s
  }

  function CommandJob(s: Sys, id: JobId, c: JobCommand): Sys {
    if id !in s.jobs then s
    else if c.Join? && c.key !in s.jobs[id].keys && !KeyFree(s, id.owner, c.key) then s
    else
      var k := Command(s.jobs[id], c);
      if k.Some? then PutJob(s, k.value) else s
  }

  function ClaimJob(s: Sys, id: JobId, t: Token, leaseMs: Time, now: Time): Sys {
    if id in s.jobs && t !in s.workers && Claimable(s.jobs[id], now) then
      var j := Claimed(s.jobs[id], t, now + leaseMs);
      PutWorker(PutJob(s, j), t, Worker(id, leaseMs, j, Idle, Resting))
    else s
  }

  function ClearedFence(s: Sys, o: OwnerKey, id: JobId, t: Token): Sys {
    if o in s.docs && s.docs[o].fence.Some? && s.docs[o].fence.value.job == id && s.docs[o].fence.value.token == t
    then PutDoc(s, o, s.docs[o].(fence := None))
    else s
  }

  function ReapedFence(s: Sys, o: OwnerKey, now: Time): Sys {
    if o in s.docs && s.docs[o].fence.Some? && s.docs[o].fence.value.expiresAt <= now
    then PutDoc(s, o, s.docs[o].(fence := None))
    else s
  }

  function Appended(d: ContextDoc, m: seq<Message>): ContextDoc {
    d.(messages := d.messages + m,
       compacted := if |d.compacted| > 0 then d.compacted + m else d.compacted,
       revision := d.revision + 1)
  }

  // --------------------------------------------------------- a worker's moves

  /** Whether a lease-filtered write is the one this call makes next. */
  predicate Permitted(s: Sys, w: Worker, c: LeaseCommand) {
    match c
    case Begin => w.main.Idle? && w.known.summary.None?
    case Save(_) => w.main.Idle?
    case FreezeMerge(f) => w.main == FreezeReady(f)
    case Prepare(m) => w.main.Preparing? && w.main.message == m && w.main.current.replacement.None?
    case Restore => w.main.Preparing? && w.main.current.replacement.Some?
    case MarkSettled => w.main.SettleMarking?
    case MarkMerged(r) => w.main == Finishing(r)
    case Release(_) => w.main.Idle? || (w.main.Failing? && w.main.attempt < s.maxAttempts)
    case Fail => w.main.Idle? || w.main.Failing?
    case FailOrphan => w.main.Orphaning?
    case Extend(_) => false
  }

  function ErrorReleases(s: Sys, id: JobId): seq<nat> {
    if id in s.history.errorReleases then s.history.errorReleases[id] else []
  }

  /** The service's error path is the release that follows an `ErrorRead`. */
  function LogRelease(s: Sys, w: Worker, c: LeaseCommand): Sys {
    if c.Release? && w.main.Failing? then
      s.(history := s.history.(errorReleases :=
           s.history.errorReleases[w.job := ErrorReleases(s, w.job) + [w.main.attempt]]))
    else s
  }

  function LeaseWrite(s: Sys, t: Token, c: LeaseCommand, now: Time): Sys
    requires t in s.workers && s.workers[t].job in s.jobs
  {
    var w := s.workers[t];
    if !Permitted(s, w, c) then s
    else
      var k := Leased(s.jobs[w.job], t, now, c);
      var s' := PutWorker(s, t, w.(main := Idle));
      if k.Some? then LogRelease(PutJob(s', k.value), w, c) else s'
  }

  /** The merge-time context: the newer of both epochs, under a fresh epoch. */
  function MergeFreezeOf(frozen: Option<ProjectContext>, runtime: Option<ProjectContext>,
                         projection: Option<string>): MergeFreeze
  {
    var base := if Epoch(runtime) >= Epoch(frozen) then runtime else frozen;
    var epoch: nat := Max(0, Max(Epoch(runtime), Epoch(frozen))) + 1;
    MergeFreeze(projection,
      if base.None? then None
      else if projection.Some? then Some(base.value.(epoch := epoch, projection := projection.value))
      else Some(base.value.(epoch := epoch)))
  }

  function SwappedDoc(d: ContextDoc, j: Job, seen: seq<Message>, replacement: Message): ContextDoc
    requires |j.frozen.messages| <= |seen|
  {
    d.(compacted := [replacement] + seen[|j.frozen.messages|..],
       revision := d.revision + 1, lastApplied := Some(j.id), fence := None)
  }

  /** The replacement of history never rolls a newer project context back. */
  function SettledRuntime(r: Runtime, j: Job): Runtime {
    var snapshot := j.SettlementContext();
    Runtime(Some(j.id), 0, 0, r.snapshotVersion + 1,
      if snapshot.Some? && Epoch(r.context) <= snapshot.value.epoch then snapshot else r.context)
  }

  predicate SwapEnabled(s: Sys, t: Token, now: Time) {
    && t in s.workers && s.workers[t].main.Swapping?
    && var w := s.workers[t];
    && w.job.owner in s.docs
    && var d := s.docs[w.job.owner];
    && d.revision == w.main.revision
    && d.fence.Some? && d.fence.value.job == w.job && d.fence.value.token == t && d.fence.value.expiresAt > now
    && |w.main.current.frozen.messages| <= |w.main.seen|
    && w.main.current.replacement.Some?
  }

  function OwnerSwap(s: Sys, t: Token, now: Time): Sys
    requires t in s.workers
  {
    var w := s.workers[t];
    var s' := PutWorker(s, t, w.(main := Idle));
    if SwapEnabled(s, t, now) then
      var m := w.main;
      PutDoc(s', w.job.owner, SwappedDoc(s.docs[w.job.owner], m.current, m.seen, m.current.replacement.value))
        .(history := s.history.(swapped := s.history.swapped + {w.job}))
    else s'
  }

  /** An AgentSession settles in the document that names its last merge; a Conversation does not. */
  predicate SettleEnabled(s: Sys, t: Token) {
    && t in s.workers && s.workers[t].main.SettlingRuntime?
    && var w := s.workers[t];
    && (w.job.owner.ConversationKey? ==> w.job.owner in s.runtimes)
    && (w.job.owner.AgentSessionKey? ==>
          w.job.owner in s.docs && s.docs[w.job.owner].lastApplied == Some(w.job))
    && RuntimeOf(s, w.job.owner).lastSettled != Some(w.job)
  }

  function RuntimeOf(s: Sys, o: OwnerKey): Runtime {
    if o in s.runtimes then s.runtimes[o] else EMPTY_RUNTIME
  }

  function RuntimeSettlement(s: Sys, t: Token): Sys
    requires t in s.workers && s.workers[t].main.SettlingRuntime?
  {
    var w := s.workers[t];
    var s' := PutWorker(s, t, w.(main := SettleVerifying(w.main.current)));
    if SettleEnabled(s, t) then
      s'.(runtimes := s.runtimes[w.job.owner := SettledRuntime(RuntimeOf(s, w.job.owner), w.main.current)],
          history := s.history.(settled := s.history.settled + {w.job}))
    else s'
  }

  /** What a read leaves the main thread with; `Idle` is the call returning, or throwing. */
  function Read(s: Sys, t: Token, move: Move, now: Time): Main
    requires t in s.workers && s.workers[t].job in s.jobs
  {
    var w := s.workers[t];
    var j := s.jobs[w.job];
    var o := w.job.owner;
    match move
    case EstablishRead =>
      if LiveLease(j, t, now) then Establishing(j.lease.value.expiresAt) else Idle
    case FreezeStart =>
      if && LiveLease(j, t, now) && (j.status.SummaryReady? || j.status.MergePrepared? || j.status.Retryable?)
         && j.replacement.None? && j.mergeFreeze.None?
      then Freezing(j) else Idle
    case FreezeRead(projection) =>
      if w.main.Freezing?
      then FreezeReady(MergeFreezeOf(w.main.current.projectContext, RuntimeOf(s, o).context, projection))
      else w.main
    case PrepareRead(m) =>
      if && LiveLease(j, t, now) && (j.status.SummaryReady? || j.status.Retryable?) && j.summary.Some?
         && (j.replacement.None? || j.replacement == Some(m))
      then Preparing(j, m) else Idle
    case ApplyRead =>
      if LiveLease(j, t, now) && j.status.MergePrepared? && j.replacement.Some? then Applying(j) else Idle
    case ApplySnapshot =>
      if !w.main.Applying? then w.main
      else if && o in s.docs && s.docs[o].lastApplied != Some(w.job)
              && w.main.current.frozen.messages <= s.docs[o].Active()
      then Swapping(w.main.current, s.docs[o].revision, s.docs[o].Active()) else Idle
    case SettleRead =>
      if LiveLease(j, t, now) && j.status.MergePrepared? && j.replacement.Some? && !j.runtimeSettled
      then Settling(j) else Idle
    case SettleOwner =>
      if !w.main.Settling? then w.main
      else if o in s.docs && s.docs[o].lastApplied == Some(w.job) then SettlingRuntime(w.main.current) else Idle
    case SettleVerify =>
      if !w.main.SettleVerifying? then w.main
      else if RuntimeOf(s, o).lastSettled == Some(w.job) &&
              (o.AgentSessionKey? ==> o in s.docs && s.docs[o].lastApplied == Some(w.job))
      then SettleMarking(w.main.current) else Idle
    case FinalRead =>
      if LiveLease(j, t, now) && j.status.MergePrepared? then Finalizing(j) else Idle
    case FinalSnapshot =>
      if !w.main.Finalizing? then w.main
      else if o in s.docs && s.docs[o].lastApplied == Some(w.job) && w.main.current.runtimeSettled
      then Finishing(s.docs[o].revision) else Idle
    case ErrorRead => Failing(j.attempt)
    case Abort => Idle
    case OrphanRead => if j.LeasedBy(t) && j.status.Active() && o !in s.docs then Orphaning else Idle
    case _ => w.main
  }

  /** A call starts only when the previous one has returned. */
  predicate Starts(move: Move) {
    move.Refresh? || move.EstablishRead? || move.FreezeStart? || move.PrepareRead? || move.ApplyRead?
    || move.SettleRead? || move.FinalRead? || move.ErrorRead? || move.OrphanRead?
  }

  function Moved(s: Sys, t: Token, move: Move, now: Time): Sys {
    if t !in s.workers || s.workers[t].job !in s.jobs then s
    else
      var w := s.workers[t];
      var j := s.jobs[w.job];
      var o := w.job.owner;
      if Starts(move) && !w.main.Idle? then s
      else
        match move
        case Refresh => PutWorker(s, t, w.(known := j))
        case EstablishWrite =>
          if !w.main.Establishing? then s
          else
            var s' := PutWorker(s, t, w.(main := Idle));
            if o in s.docs && FenceReusable(s.docs[o], w.job, t, now)
            then PutDoc(s', o, s.docs[o].(fence := Some(Fence(w.job, t, w.main.expiresAt))))
            else s'
        case ApplySwap => if w.main.Swapping? then OwnerSwap(s, t, now) else s
        case SettleAbsent =>
          if w.main.SettlingRuntime? && o.ConversationKey? && o !in s.runtimes
          then PutWorker(s, t, w.(main := SettleMarking(w.main.current)))
               .(history := s.history.(absent := s.history.absent + {w.job}))
          else s
        case SettleRuntime => if w.main.SettlingRuntime? then RuntimeSettlement(s, t) else s
        case Write(c) => LeaseWrite(s, t, c, now)
        case BeatLease =>
          if w.beat.Resting? && Leased(j, t, now, Extend(now + w.leaseMs)).Some?
          then PutWorker(PutJob(s, Leased(j, t, now, Extend(now + w.leaseMs)).value),
                         t, w.(beat := LeaseExtended(now + w.leaseMs)))
          else s
        case BeatFence =>
          if !w.beat.LeaseExtended? then s
          else
            var s' := PutWorker(s, t, w.(beat := Resting));
            if o in s.docs && s.docs[o].fence.Some? && s.docs[o].fence.value.job == w.job
               && s.docs[o].fence.value.token == t
            then PutDoc(s', o, s.docs[o].(fence := Some(Fence(w.job, t, w.beat.expiresAt))))
            else s'
        case _ => PutWorker(s, t, w.(main := Read(s, t, move, now)))
  }

  predicate FenceReusable(d: ContextDoc, id: JobId, t: Token, now: Time) {
    || d.fence.None?
    || d.fence.value.expiresAt <= now
    || (d.fence.value.job == id && d.fence.value.token == t)
  }

  // -------------------------------------------------------------- the machine

  function Next(s: Sys, a: Action): Sys {
    match a
    case Create(id, sourceRunId, frozen, context, projection, availableAt, createdAt) =>
      CreateJob(s, Created(id, sourceRunId, frozen, context, projection, availableAt, createdAt))
    case OnJob(id, c) => CommandJob(s, id, c)
    case Claim(id, t, leaseMs, now) => ClaimJob(s, id, t, leaseMs, now)
    case Do(t, move, now) => Moved(s, t, move, now)
    case ClearFence(o, id, t) => ClearedFence(s, o, id, t)
    case ReapFence(o, now) => ReapedFence(s, o, now)
    case Append(o, m) => if o in s.docs then PutDoc(s, o, Appended(s.docs[o], m)) else s
    case Rewrite(o, m, c) =>
      if o in s.docs
      then PutDoc(s, o, s.docs[o].(messages := m, compacted := c, revision := s.docs[o].revision + 1))
      else s
    case Delete(o) => s.(docs := s.docs - {o})
    case TouchRuntime(o, r) =>
      if r.lastSettled == RuntimeOf(s, o).lastSettled then s.(runtimes := s.runtimes[o := r]) else s
  }

  function Run(s: Sys, actions: seq<Action>): Sys
    decreases |actions|
  {
    if actions == [] then s else Next(Run(s, actions[..|actions| - 1]), actions[|actions| - 1])
  }

  /** Any owners and runtimes; no job, no claim and no compaction yet. */
  predicate Initial(s: Sys) {
    && s.maxAttempts >= 1
    && s.jobs == map[] && s.workers == map[] && s.history == History({}, {}, {}, map[])
    && (forall o <- s.docs :: s.docs[o].lastApplied.None? && s.docs[o].fence.None?)
    && (forall o <- s.runtimes :: s.runtimes[o].lastSettled.None?)
  }
}
