/**
 * The inductive invariant of the compaction protocol.  No part of it mentions
 * a clock: fence tokens, the context revision, the unique barrier key and the
 * lease filters carry all of it.
 */
module ProtocolInvariant {
  import opened CompactionTypes
  import opened JobCommands
  import opened Protocol

  // ------------------------------------------------------------- the parts

  ghost predicate JobsOk(s: Sys) {
    forall id <- s.jobs :: s.jobs[id].id == id && JobOk(s.jobs[id])
  }

  /** At most one job of an owner holds its barrier. */
  ghost predicate OneBarrier(s: Sys) {
    forall i <- s.jobs, k <- s.jobs ::
      s.jobs[i].status.Active() && s.jobs[k].status.Active() && i.owner == k.owner ==> i == k
  }

  /** A trigger key is attached to at most one job of its owner. */
  ghost predicate KeysDisjoint(s: Sys) {
    forall i <- s.jobs, k <- s.jobs, key: string ::
      i.owner == k.owner && key in s.jobs[i].keys && key in s.jobs[k].keys ==> i == k
  }

  /** Every lease and every fence was installed by the claim that minted its token. */
  ghost predicate TokensLinked(s: Sys) {
    && (forall id <- s.jobs :: s.jobs[id].lease.Some? ==>
          var t := s.jobs[id].lease.value.token; t in s.workers && s.workers[t].job == id)
    && (forall o <- s.docs :: s.docs[o].fence.Some? ==>
          var f := s.docs[o].fence.value;
          f.token in s.workers && s.workers[f.token].job == f.job && f.job.owner == o)
  }

  /**
   * While a job is active, nothing was applied to its context after it: if it
   * was swapped at all, it is still the context's last applied job.
   */
  ghost predicate SwapsOk(s: Sys) {
    && s.history.swapped <= s.jobs.Keys
    && (forall id <- s.jobs :: s.jobs[id].status.Active() && id in s.history.swapped && id.owner in s.docs ==>
          s.docs[id.owner].lastApplied == Some(id))
    && (forall o <- s.docs :: s.docs[o].lastApplied.Some? ==>
          s.docs[o].lastApplied.value in s.history.swapped && s.docs[o].lastApplied.value.owner == o)
  }

  /** Settlement follows the swap; an AgentSession's marker stands while its merge is the last. */
  ghost predicate SettlesOk(s: Sys) {
    && s.history.settled <= s.history.swapped && s.history.absent <= s.history.swapped
    && (forall id <- s.history.absent :: id.owner.ConversationKey?)
    && (forall o <- s.runtimes :: s.runtimes[o].lastSettled.Some? ==>
          s.runtimes[o].lastSettled.value in s.history.settled)
    && (forall id <- s.history.settled ::
          id.owner.AgentSessionKey? && id.owner in s.docs && s.docs[id.owner].lastApplied == Some(id) ==>
            RuntimeOf(s, id.owner).lastSettled == Some(id))
    && (forall id <- s.jobs :: s.jobs[id].runtimeSettled ==>
          id in s.history.swapped && (id in s.history.settled || id in s.history.absent))
  }

  /** Error-path releases carry strictly rising attempts below the maximum. */
  ghost predicate ReleasesOk(s: Sys) {
    && s.maxAttempts >= 1
    && s.history.errorReleases.Keys <= s.jobs.Keys
    && (forall id <- s.jobs :: RisingWithin(ErrorReleases(s, id), s.maxAttempts)
          && (forall a <- ErrorReleases(s, id) ::
                a <= s.jobs[id].attempt && (s.jobs[id].lease.Some? ==> a < s.jobs[id].attempt)))
  }

  predicate RisingWithin(attempts: seq<nat>, max: nat) {
    && (forall i :: 0 <= i < |attempts| ==> 1 <= attempts[i] < max)
    && (forall i, k :: 0 <= i < k < |attempts| ==> attempts[i] < attempts[k])
  }

  /**
   * No fenced swap of worker `t` can come after another job's: while its token
   * is still in the fence, its own job was last applied if ever, and no other
   * active job was applied at all.
   */
  ghost predicate Unsurpassed(s: Sys, t: Token)
    requires t in s.workers
  {
    var id := s.workers[t].job;
    id.owner in s.docs && s.docs[id.owner].FencedBy(t) ==>
      && (id in s.history.swapped ==> s.docs[id.owner].lastApplied == Some(id))
      && (forall k <- s.jobs :: k.owner == id.owner && k != id && s.jobs[k].status.Active() ==>
            k !in s.history.swapped)
  }

  /** What the worker read is still what the context holds, unless its revision moved. */
  predicate SnapshotCurrent(s: Sys, id: JobId, revision: nat, seen: seq<Message>) {
    id.owner in s.docs ==>
      var d := s.docs[id.owner];
      d.revision >= revision && (d.revision == revision ==> d.Active() == seen && d.lastApplied != Some(id))
  }

  ghost predicate MainOk(s: Sys, t: Token)
    requires t in s.workers && s.workers[t].job in s.jobs
  {
    var w := s.workers[t];
    var j := s.jobs[w.job];
    match w.main
    case Freezing(c) => Evolves(c, j)
    case Preparing(c, m) =>
      && Evolves(c, j) && c.summary.Some?
      && (c.replacement.None? && j.LeasedBy(t) ==> j.replacement.None?)
    case Applying(c) => Evolves(c, j) && c.replacement.Some? && Unsurpassed(s, t)
    case Swapping(c, revision, seen) =>
      && Evolves(c, j) && c.replacement.Some? && Unsurpassed(s, t)
      && c.frozen.messages <= seen && SnapshotCurrent(s, w.job, revision, seen)
    case Settling(c) => Evolves(c, j) && c.replacement.Some?
    case SettlingRuntime(c) => Evolves(c, j) && c.replacement.Some? && w.job in s.history.swapped
    case SettleVerifying(c) => Evolves(c, j) && w.job in s.history.swapped
    case SettleMarking(c) =>
      w.job in s.history.swapped && (w.job in s.history.settled || w.job in s.history.absent)
    case Finalizing(c) => Evolves(c, j)
    case Failing(a) => j.LeasedBy(t) ==> a == j.attempt
    case _ => true
  }

  ghost predicate WorkerOk(s: Sys, t: Token)
    requires t in s.workers
  {
    var w := s.workers[t];
    && w.job in s.jobs
    && Evolves(w.known, s.jobs[w.job])
    && (s.jobs[w.job].LeasedBy(t) && s.jobs[w.job].status.Retryable? && w.known.summary.None? ==>
          s.jobs[w.job].summary.None?)
    && MainOk(s, t)
  }

  ghost predicate WorkersOk(s: Sys) {
    forall t <- s.workers :: WorkerOk(s, t)
  }

  ghost predicate Inv(s: Sys) {
    JobsOk(s) && OneBarrier(s) && KeysDisjoint(s) && TokensLinked(s) && SwapsOk(s) && SettlesOk(s)
    && ReleasesOk(s) && WorkersOk(s)
  }

  // -------------------------------------------------------------- framing

  /** A write to a job by someone other than the claim `t`. */
  predicate Undisturbed(j: Job, k: Job, t: Token) {
    && Evolves(j, k)
    && (k.LeasedBy(t) ==>
          j.LeasedBy(t) && k.status == j.status && k.summary == j.summary
          && k.replacement == j.replacement && k.attempt == j.attempt)
  }

  /** A context write that either keeps what a snapshot saw or moves the revision. */
  predicate DocMoves(d: ContextDoc, e: ContextDoc) {
    && e.revision >= d.revision
    && (e.revision == d.revision ==> e.Active() == d.Active() && e.lastApplied == d.lastApplied)
  }

  /** What the rest of the system may do beside a worker that takes no step. */
  ghost predicate Beside(s: Sys, s': Sys, t: Token)
    requires t in s.workers && s.workers[t].job in s.jobs
  {
    var id := s.workers[t].job;
    && t in s'.workers && s'.workers[t].job == id && s'.workers[t].known == s.workers[t].known
    && s'.workers[t].main == s.workers[t].main
    && id in s'.jobs && Undisturbed(s.jobs[id], s'.jobs[id], t)
    && (id.owner in s'.docs ==> id.owner in s.docs && DocMoves(s.docs[id.owner], s'.docs[id.owner]))
    && s.history.swapped <= s'.history.swapped && s.history.settled <= s'.history.settled
    && s.history.absent <= s'.history.absent
    && (Unsurpassed(s, t) ==> Unsurpassed(s', t))
  }

  lemma EvolvesTransitive(a: Job, b: Job, c: Job)
    requires Evolves(a, b) && Evolves(b, c)
    ensures Evolves(a, c)
  {
  }

  lemma WorkerBeside(s: Sys, s': Sys, t: Token)
    requires t in s.workers && WorkerOk(s, t) && Beside(s, s', t)
    ensures WorkerOk(s', t)
  {
  }
}
