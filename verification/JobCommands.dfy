/**
 * Every compare-and-set the repository performs on one `CompactionJob`
 * document, and what each of them keeps.  A command returns the updated
 * document, or `None` when its filter does not match.
 */
module JobCommands {
  import opened CompactionTypes

  predicate Blank(s: string) {
    forall c <- s :: c in " \n\t\r"
  }

  // ---------------------------------------------------------------- filters

  predicate LiveLease(j: Job, t: Token, now: Time) {
    j.LeasedBy(t) && j.lease.value.expiresAt > now
  }

  predicate NoLiveGuard(j: Job, now: Time) {
    j.guard.None? || j.guard.value.expiresAt <= now
  }

  /** A live guard yields only to its exact token. */
  predicate GuardPermits(j: Job, now: Time, token: Option<Token>) {
    NoLiveGuard(j, now) || (token.Some? && j.guard.value.token == token.value)
  }

  predicate PrepareSafe(s: Status) {
    s.Queued? || s.Summarizing? || s.SummaryReady? || s.Retryable?
  }

  predicate Claimable(j: Job, now: Time) {
    && j.activeKey.Some?
    && j.status.Active()
    && j.availableAt <= now
    && (j.lease.None? || j.lease.value.expiresAt <= now)
    && NoLiveGuard(j, now)
  }

  // ---------------------------------------------------------------- updates

  /** One status change and its delivery intent, in the same document write. */
  function Transition(j: Job, to: Status): Job {
    j.(status := to,
       statusRevision := j.statusRevision + 1,
       outbox := j.outbox + [OutboxEntry(j.statusRevision + 1, to)])
  }

  function Finish(j: Job, to: Status): Job {
    Transition(j.(lease := None, activeKey := None, guard := None), to)
  }

  function Claimed(j: Job, t: Token, expiresAt: Time): Job {
    j.(lease := Some(Lease(t, expiresAt)), guard := None, attempt := j.attempt + 1)
  }

  function Created(id: JobId, sourceRunId: Option<string>, frozen: FrozenPrefix,
                   context: Option<ProjectContext>, projection: Option<string>,
                   availableAt: Time, createdAt: Time): Job
  {
    Job(id, sourceRunId, {id.idempotencyKey}, Queued, 1, [OutboxEntry(1, Queued)], Some(id.owner),
        frozen, context, projection, None, None, None, false, None, 0, None, None, availableAt, createdAt)
  }

  // ------------------------------------------------- commands without a lease

  datatype JobCommand =
    | AcquireGuard(key: string, run: string, ownerId: string, token: Token, deadline: Time, now: Time)
    | HeartbeatGuard(key: string, run: string, ownerId: string, token: Token, deadline: Time, now: Time)
    | ReleaseGuard(key: string, run: string, ownerId: string, token: Token)
    | Activate(key: string, now: Time)
    | ActivateUnclaimed(key: string, now: Time)
    | ActivatePrepared(now: Time)
    | Offer(key: string, prefix: seq<Message>, summary: string, guardToken: Option<Token>, now: Time)
    | Cancel(key: string, guardToken: Option<Token>, now: Time)
    | Supersede(key: string, guardToken: Option<Token>, now: Time)
    | CancelUnclaimed(key: string, now: Time)
    | CancelLegacy(now: Time)
    | CloseFailed(key: string)
    | Join(key: string)

  /** Only the primary trigger key and its source Run own the local summarizer. */
  predicate SourceTurnIdentity(j: Job, key: string, run: string) {
    key in j.keys && key == j.id.idempotencyKey && j.sourceRunId == Some(run)
  }

  predicate GuardIs(j: Job, token: Token, ownerId: string, run: string) {
    && j.guard.Some?
    && j.guard.value.token == token && j.guard.value.ownerId == ownerId && j.guard.value.sourceRunId == run
  }

  function Command(j: Job, c: JobCommand): Option<Job> {
    match c
    case AcquireGuard(key, run, ownerId, token, deadline, now) =>
      if && SourceTurnIdentity(j, key, run) && j.activeKey == Some(j.id.owner) && j.status.Queued?
         && j.availableAt > now && j.lease.None? && NoLiveGuard(j, now)
      then Some(j.(guard := Some(Guard(token, ownerId, run, deadline))))
      else None
    case HeartbeatGuard(key, run, ownerId, token, deadline, now) =>
      if && SourceTurnIdentity(j, key, run) && j.activeKey == Some(j.id.owner) && j.status.Queued?
         && j.lease.None? && GuardIs(j, token, ownerId, run) && j.guard.value.expiresAt > now
      then Some(j.(guard := Some(j.guard.value.(expiresAt := deadline))))
      else None
    case ReleaseGuard(key, run, ownerId, token) =>
      if SourceTurnIdentity(j, key, run) && GuardIs(j, token, ownerId, run) then Some(j.(guard := None)) else None
    case Activate(key, now) =>
      if key in j.keys && j.activeKey.Some? && j.status.Active() && j.availableAt > now && NoLiveGuard(j, now)
      then Some(j.(availableAt := now, guard := None))
      else None
    case ActivateUnclaimed(key, now) =>
      if && key in j.keys && j.activeKey == Some(j.id.owner) && j.status.Queued? && j.lease.None?
         && j.availableAt > now && NoLiveGuard(j, now)
      then Some(j.(availableAt := now, guard := None))
      else None
    case ActivatePrepared(now) =>
      if j.activeKey.Some? && j.status.Active() && NoLiveGuard(j, now)
      then Some(j.(availableAt := now, guard := None))
      else None
    case Offer(key, prefix, summary, guardToken, now) =>
      if && key in j.keys && j.activeKey.Some? && j.status.Queued? && j.lease.None? && !Blank(summary)
         && j.frozen.messages == prefix && GuardPermits(j, now, guardToken)
      then Some(Transition(j.(summary := Some(summary), availableAt := now, guard := None), SummaryReady))
      else None
    case Cancel(key, guardToken, now) =>
      if key in j.keys && j.activeKey.Some? && PrepareSafe(j.status) && GuardPermits(j, now, guardToken)
      then Some(Finish(j, Cancelled))
      else None
    case Supersede(key, guardToken, now) =>
      if && key in j.keys && j.activeKey.Some? && j.status.Queued? && j.lease.None?
         && GuardPermits(j, now, guardToken)
      then Some(Finish(j, Superseded))
      else None
    case CancelUnclaimed(key, now) =>
      if && key in j.keys && j.activeKey == Some(j.id.owner) && j.status.Queued? && j.lease.None?
         && NoLiveGuard(j, now)
      then Some(Finish(j, Cancelled))
      else None
    case CancelLegacy(now) =>
      if j.activeKey.Some? && PrepareSafe(j.status) && NoLiveGuard(j, now)
      then Some(Finish(j, Cancelled))
      else None
    case CloseFailed(key) =>
      if key in j.keys && j.status.Failed? && j.activeKey.None?
      then Some(Transition(j.(lease := None), Superseded))
      else None
    case Join(key) =>
      Some(j.(keys := j.keys + {key}))
  }

  // ------------------------------------------------ commands of a lease holder

  datatype LeaseCommand =
    | Begin
    | Save(summary: string)
    | FreezeMerge(freeze: MergeFreeze)
    | Prepare(replacement: Message)
    | Restore
    | MarkSettled
    | MarkMerged(contextRevision: nat)
    | Release(delay: Time)
    | Fail
    | FailOrphan
    | Extend(expiresAt: Time)

  /** `FailOrphan` is the one command that accepts an expired lease. */
  function Leased(j: Job, t: Token, now: Time, c: LeaseCommand): Option<Job> {
    if !(if c.FailOrphan? then j.LeasedBy(t) && j.status.Active() else LiveLease(j, t, now)) then None
    else
      match c
      case Begin =>
        if j.status.Queued? || j.status.Retryable? then Some(Transition(j, Summarizing)) else None
      case Save(summary) =>
        if j.status.Summarizing? && !Blank(summary)
        then Some(Transition(j.(summary := Some(summary)), SummaryReady))
        else None
      case FreezeMerge(freeze) =>
        if && (j.status.SummaryReady? || j.status.Retryable?)
           && j.replacement.None? && j.mergeFreeze.None?
        then Some(j.(mergeFreeze := Some(freeze)))
        else None
      case Prepare(replacement) =>
        if j.status.SummaryReady? || j.status.Retryable?
        then Some(Transition(j.(replacement := Some(replacement)), MergePrepared))
        else None
      case Restore =>
        if j.status.Retryable? then Some(Transition(j, MergePrepared)) else None
      case MarkSettled =>
        if j.status.MergePrepared? && !j.runtimeSettled then Some(j.(runtimeSettled := true)) else None
      case MarkMerged(contextRevision) =>
        if j.status.MergePrepared? && j.runtimeSettled
        then Some(Finish(j.(mergedContextRevision := Some(contextRevision)), Merged))
        else None
      case Release(delay) =>
        Some(Transition(j.(lease := None, guard := None, availableAt := now + delay), Retryable))
      case Fail =>
        Some(Finish(j, Failed))
      case FailOrphan =>
        Some(Finish(j, Failed))
      case Extend(expiresAt) =>
        Some(j.(lease := Some(Lease(t, expiresAt))))
  }

  // ---------------------------------------------------------- what is kept

  /** The legal edges of the status graph. */
  predicate Edge(from: Status, to: Status) {
    match to
    case Queued => false
    case Summarizing => from.Queued? || from.Retryable?
    case SummaryReady => from.Queued? || from.Summarizing?
    case MergePrepared => from.SummaryReady? || from.Retryable?
    case Retryable => from.Active()
    case Merged => from.MergePrepared?
    case Failed => from.Active()
    case Cancelled => PrepareSafe(from)
    case Superseded => from.Queued? || from.Failed?
  }

  /** The outbox is exactly the job's status history. */
  predicate OutboxFaithful(j: Job) {
    && |j.outbox| == j.statusRevision > 0
    && j.outbox[0].status.Queued?
    && j.outbox[|j.outbox| - 1].status == j.status
    && (forall i :: 0 <= i < |j.outbox| ==> j.outbox[i].revision == i + 1)
    && (forall i :: 0 < i < |j.outbox| ==> Edge(j.outbox[i - 1].status, j.outbox[i].status))
  }

  /** What a status says about the rest of the document. */
  predicate PhaseOk(j: Job) {
    && (j.status.Queued? || j.status.Summarizing? ==> j.summary.None?)
    && (j.status.SummaryReady? ==> j.summary.Some? && j.replacement.None?)
    && (j.status.MergePrepared? || j.status.Merged? ==> j.replacement.Some?)
    && (j.status.Merged? ==> j.runtimeSettled)
    && (j.runtimeSettled || j.replacement.Some? ==> j.summary.Some?)
    && (j.summary.Some? ==> !Blank(j.summary.value))
  }

  /** The barrier key, the lease and the guard against the status. */
  predicate BarrierOk(j: Job) {
    && j.activeKey == (if j.status.Active() then Some(j.id.owner) else None)
    && (!j.status.Active() ==> j.lease.None? && j.guard.None?)
    && (j.guard.Some? ==> j.status.Queued? && j.lease.None?)
    && (j.lease.Some? ==> j.attempt >= 1)
  }

  predicate JobOk(j: Job) {
    && j.id.idempotencyKey in j.keys
    && j.frozen.messages != []
    && BarrierOk(j)
    && PhaseOk(j)
    && OutboxFaithful(j)
  }

  /** What no command ever takes back or rewrites. */
  predicate Evolves(j: Job, k: Job) {
    && k.id == j.id && k.frozen == j.frozen && k.projectContext == j.projectContext
    && k.sourceRunId == j.sourceRunId && k.createdAt == j.createdAt
    && j.keys <= k.keys
    && j.outbox <= k.outbox
    && j.attempt <= k.attempt
    && (j.summary.Some? ==> k.summary == j.summary)
    && (j.mergeFreeze.Some? ==> k.mergeFreeze == j.mergeFreeze)
    && (j.replacement.Some? ==> k.replacement == j.replacement && k.mergeFreeze == j.mergeFreeze)
    && (j.runtimeSettled ==> k.runtimeSettled)
    && (!j.status.Active() ==> k.status == j.status || (j.status.Failed? && k.status.Superseded?))
  }

  /** A document write either leaves the status alone or logs one legal edge. */
  predicate OutboxStep(j: Job, k: Job) {
    || (k.status == j.status && k.outbox == j.outbox && k.statusRevision == j.statusRevision)
    || (&& Edge(j.status, k.status)
        && k.statusRevision == j.statusRevision + 1
        && k.outbox == j.outbox + [OutboxEntry(k.statusRevision, k.status)])
  }

  lemma OutboxStepKeeps(j: Job, k: Job)
    requires OutboxFaithful(j) && OutboxStep(j, k)
    ensures OutboxFaithful(k) && j.outbox <= k.outbox
  {
    forall i | 0 < i < |k.outbox| ensures Edge(k.outbox[i - 1].status, k.outbox[i].status) {
      if i == |j.outbox| {
        assert k.outbox[i - 1] == j.outbox[i - 1];
      }
    }
  }

  lemma CommandLogs(j: Job, c: JobCommand)
    requires BarrierOk(j) && Command(j, c).Some?
    ensures OutboxStep(j, Command(j, c).value)
  {
  }

  lemma LeasedLogs(j: Job, t: Token, now: Time, c: LeaseCommand)
    requires BarrierOk(j) && Leased(j, t, now, c).Some?
    ensures OutboxStep(j, Leased(j, t, now, c).value)
  {
  }

  lemma CreatedOk(id: JobId, sourceRunId: Option<string>, frozen: FrozenPrefix,
                  context: Option<ProjectContext>, projection: Option<string>, availableAt: Time, createdAt: Time)
    requires frozen.messages != []
    ensures JobOk(Created(id, sourceRunId, frozen, context, projection, availableAt, createdAt))
  {
  }

  lemma ClaimKeeps(j: Job, t: Token, expiresAt: Time)
    requires JobOk(j) && j.status.Active()
    ensures JobOk(Claimed(j, t, expiresAt)) && Evolves(j, Claimed(j, t, expiresAt))
  {
  }

  /** No command of any other actor breaks a job, nor touches a lease without ending the job. */
  lemma CommandKeeps(j: Job, c: JobCommand)
    requires JobOk(j) && Command(j, c).Some?
    ensures var k := Command(j, c).value;
      && JobOk(k) && Evolves(j, k)
      && (k.lease == j.lease || (k.lease.None? && !k.status.Active()))
      && (k.status.Active() ==> j.status.Active())
      && (j.lease.Some? && k.lease.Some? ==> k.status == j.status && k.summary == j.summary)
      && k.replacement == j.replacement && k.runtimeSettled == j.runtimeSettled && k.attempt == j.attempt
      && (j.status.MergePrepared? ==> k.status.MergePrepared?)
  {
    CommandLogs(j, c);
    OutboxStepKeeps(j, Command(j, c).value);
  }

  /**
   * What a lease holder must already know for its command to keep the job
   * well-formed; the repository and the service check it on an earlier read.
   */
  predicate Informed(j: Job, c: LeaseCommand) {
    match c
    case Begin => j.summary.None?
    case Prepare(_) => j.summary.Some? && j.replacement.None?
    case Restore => j.replacement.Some?
    case _ => true
  }

  lemma LeasedKeeps(j: Job, t: Token, now: Time, c: LeaseCommand)
    requires JobOk(j) && Leased(j, t, now, c).Some? && Informed(j, c)
    ensures var k := Leased(j, t, now, c).value;
      && JobOk(k) && Evolves(j, k)
      && (k.lease.None? || k.LeasedBy(t))
      && (c.MarkMerged? || c.Fail? || c.FailOrphan? || c.Release? ==> k.lease.None?)
      && j.status.Active() && k.attempt == j.attempt && k.keys == j.keys
  {
    LeasedLogs(j, t, now, c);
    OutboxStepKeeps(j, Leased(j, t, now, c).value);
  }
}
