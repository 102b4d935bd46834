/**
 * The persisted records of durable context compaction: the `CompactionJob`
 * document, the context document it compacts (a Conversation or an
 * AgentSession) and the runtime document settled after a merge.
 *
 * SHA-256 is injective here: a prefix hash is the prefix itself, and a job ID is
 * the pair the source digests.  Dates are natural numbers.
 */
module CompactionTypes {

  datatype Option<+T> = None | Some(value: T)

  type Time = nat

  /** Fence tokens and guard tokens; `randomUUID` never repeats. */
  type Token = nat

  datatype OwnerKey =
    | ConversationKey(conversationId: string)
    | AgentSessionKey(sessionId: string)

  datatype JobId = JobId(owner: OwnerKey, idempotencyKey: string)

  datatype Message = Message(messageId: Option<string>, body: string)

  datatype Status =
    | Queued | Summarizing | SummaryReady | MergePrepared | Retryable
    | Merged | Failed | Cancelled | Superseded
  {
    /** The five statuses in which a job holds the barrier of its context. */
    predicate Active() {
      Queued? || Summarizing? || SummaryReady? || MergePrepared? || Retryable?
    }
  }

  datatype Lease = Lease(token: Token, expiresAt: Time)

  datatype Guard = Guard(token: Token, ownerId: string, sourceRunId: string, expiresAt: Time)

  datatype OutboxEntry = OutboxEntry(revision: nat, status: Status)

  datatype FrozenPrefix = FrozenPrefix(contextRevision: nat, messages: seq<Message>)

  datatype ProjectContext = ProjectContext(epoch: nat, guide: string, projection: string)

  /** The merge-time prompt epoch, frozen once before the replacement is built. */
  datatype MergeFreeze = MergeFreeze(projection: Option<string>, context: Option<ProjectContext>)

  datatype Job = Job(
    id: JobId,
    sourceRunId: Option<string>,
    keys: set<string>,
    status: Status,
    statusRevision: nat,
    outbox: seq<OutboxEntry>,
    activeKey: Option<OwnerKey>,
    frozen: FrozenPrefix,
    projectContext: Option<ProjectContext>,
    workspaceProjection: Option<string>,
    mergeFreeze: Option<MergeFreeze>,
    summary: Option<string>,
    replacement: Option<Message>,
    runtimeSettled: bool,
    mergedContextRevision: Option<nat>,
    attempt: nat,
    lease: Option<Lease>,
    guard: Option<Guard>,
    availableAt: Time,
    createdAt: Time
  )
  {
    predicate LeasedBy(t: Token) {
      lease.Some? && lease.value.token == t
    }

    /** The context epoch a settlement installs unless the runtime is newer. */
    function SettlementContext(): Option<ProjectContext> {
      if mergeFreeze.Some? && mergeFreeze.value.context.Some? then mergeFreeze.value.context
      else projectContext
    }
  }

  datatype Fence = Fence(job: JobId, token: Token, expiresAt: Time)

  datatype ContextDoc = ContextDoc(
    messages: seq<Message>,
    compacted: seq<Message>,
    revision: nat,
    lastApplied: Option<JobId>,
    fence: Option<Fence>
  )
  {
    /** The messages a model request is built from. */
    function Active(): seq<Message> {
      if |compacted| > 0 then compacted else messages
    }

    predicate FencedBy(t: Token) {
      fence.Some? && fence.value.token == t
    }
  }

  /** The `hippocampus` part of a runtime document and its project context. */
  datatype Runtime = Runtime(
    lastSettled: Option<JobId>,
    turnsSinceMerge: nat,
    rapidRefills: nat,
    snapshotVersion: nat,
    context: Option<ProjectContext>
  )

  const EMPTY_RUNTIME := Runtime(None, 0, 0, 0, None)

  /** An absent snapshot compares as epoch -1. */
  function Epoch(c: Option<ProjectContext>): int {
    if c.Some? then c.value.epoch else -1
  }

  function Max(a: int, b: int): int {
    if a > b then a else b
  }
}
