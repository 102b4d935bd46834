/** What every run guarantees about the barrier, the guard, retries and settlement. */
module JobGuarantees {
  import opened CompactionTypes
  import opened JobCommands
  import opened Protocol
  import opened ProtocolInvariant
  import opened ProtocolSteps
  import opened ProtocolTheorems

  // ------------------------------------------------------ reachable documents

  /**
   * In every reachable state: one barrier per owner, one job per trigger key,
   * a barrier key exactly on the active jobs, no lease or guard on a terminal
   * one, a guard only on a queued job without a lease, and a status log that is
   * the job's history along legal edges with revisions 1, 2, 3 and so on.
   */
  lemma ReachableJobs(s0: Sys, actions: seq<Action>, id: JobId, other: JobId)
    requires Initial(s0) && id in Run(s0, actions).jobs && other in Run(s0, actions).jobs
    ensures var j, k := Run(s0, actions).jobs[id], Run(s0, actions).jobs[other];
      && j.id == id
      && (id.owner == other.owner && id != other ==> !(j.status.Active() && k.status.Active()) && j.keys !! k.keys)
      && (j.activeKey == if j.status.Active() then Some(id.owner) else None)
      && (!j.status.Active() ==> j.lease.None? && j.guard.None?)
      && (j.guard.Some? ==> j.status.Queued? && j.lease.None?)
      && |j.outbox| == j.statusRevision && j.outbox != [] && j.outbox[0].status.Queued?
      && j.outbox[|j.outbox| - 1].status == j.status
      && (forall i :: 0 <= i < |j.outbox| ==> j.outbox[i].revision == i + 1)
      && (forall i :: 0 < i < |j.outbox| ==> Edge(j.outbox[i - 1].status, j.outbox[i].status))
  {
    RunKeeps(s0, actions);
    ReachableJob(Run(s0, actions), id);
    hide JobOk, TokensLinked, SwapsOk, SettlesOk, ReleasesOk, WorkersOk;
  }

  lemma ReachableJob(s: Sys, id: JobId)
    requires Inv(s) && id in s.jobs
    ensures s.jobs[id].id == id && BarrierOk(s.jobs[id]) && OutboxFaithful(s.jobs[id])
  {
    assert JobsOk(s);
    hide OneBarrier, KeysDisjoint, TokensLinked, SwapsOk, SettlesOk, ReleasesOk, WorkersOk, PhaseOk;
  }

  /** Commands that filter on the lease alone can never move a terminal job. */
  lemma TerminalRefusesLeases(s: Sys, id: JobId, t: Token, now: Time, c: LeaseCommand)
    requires Inv(s) && id in s.jobs && !s.jobs[id].status.Active()
    ensures Leased(s.jobs[id], t, now, c).None?
  {
    ReachableJob(s, id);
    hide Inv;
  }

  // ------------------------------------------------------ written at most once

  datatype Field = Summary | MergeContext | Replacement

  predicate Has(j: Job, f: Field) {
    match f
    case Summary => j.summary.Some?
    case MergeContext => j.mergeFreeze.Some?
    case Replacement => j.replacement.Some?
  }

  /** The action stores the field, in a job that did not have it. */
  predicate Writes(f: Field, s: Sys, a: Action, id: JobId) {
    id in s.jobs && !Has(s.jobs[id], f) && id in Next(s, a).jobs && Has(Next(s, a).jobs[id], f)
  }

  lemma EvolvedHas(j: Job, k: Job, f: Field)
    requires Evolves(j, k) && Has(j, f)
    ensures Has(k, f)
  {
  }

  /**
   * Whoever races for it -- the local turn offering, any worker saving -- a
   * job's summary is written by one action of the whole run; so are its merge
   * context and its replacement.
   */
  lemma WrittenAtMostOnce(f: Field, s0: Sys, actions: seq<Action>, i: nat, k: nat, id: JobId)
    requires Initial(s0) && i < |actions| && k < |actions|
    requires Writes(f, At(s0, actions, i), actions[i], id) && Writes(f, At(s0, actions, k), actions[k], id)
    ensures i == k
  {
    hide Inv, Initial, Next, Evolves, Has, Run;
    if i != k {
      var first, last := if i < k then i else k, if i < k then k else i;
      AtInv(s0, actions, first + 1);
      AtNext(s0, actions, first);
      assert actions[..last] == actions[..first + 1] + actions[first + 1..last];
      RunSplit(s0, actions[..first + 1], actions[first + 1..last]);
      JobsEvolve(At(s0, actions, first + 1), actions[first + 1..last], id);
      EvolvedHas(At(s0, actions, first + 1).jobs[id], At(s0, actions, last).jobs[id], f);
    }
  }

  /** An accepted offer, like a worker's save, is that one action. */
  lemma OfferWritesSummary(s: Sys, id: JobId, key: string, prefix: seq<Message>, summary: string,
                           guardToken: Option<Token>, now: Time)
    requires Inv(s) && id in s.jobs && Command(s.jobs[id], Offer(key, prefix, summary, guardToken, now)).Some?
    ensures var a := OnJob(id, Offer(key, prefix, summary, guardToken, now));
      && Writes(Field.Summary, s, a, id) && Next(s, a).jobs[id].summary == Some(summary)
      && s.jobs[id].frozen.messages == prefix && s.jobs[id].lease.None?
  {
    hide Inv, Command, Next;
    QueuedHasNoSummary(s, id);
    OfferFields(s.jobs[id], key, prefix, summary, guardToken, now);
    OfferGives(s, id, Offer(key, prefix, summary, guardToken, now));
  }

  lemma OfferGives(s: Sys, id: JobId, c: JobCommand)
    requires c.Offer? && id in s.jobs && Command(s.jobs[id], c).Some?
    ensures Next(s, OnJob(id, c)) == PutJob(s, Command(s.jobs[id], c).value)
  {
    hide Command;
  }

  lemma OfferFields(j: Job, key: string, prefix: seq<Message>, summary: string, guardToken: Option<Token>, now: Time)
    requires Command(j, Offer(key, prefix, summary, guardToken, now)).Some?
    ensures var k := Command(j, Offer(key, prefix, summary, guardToken, now)).value;
      j.status.Queued? && k.id == j.id && k.summary == Some(summary) && j.frozen.messages == prefix && j.lease.None?
  {
    hide Blank, GuardPermits;
  }

  lemma QueuedHasNoSummary(s: Sys, id: JobId)
    requires Inv(s) && id in s.jobs
    ensures s.jobs[id].id == id && (s.jobs[id].status.Queued? ==> s.jobs[id].summary.None?)
  {
    assert JobsOk(s) && JobOk(s.jobs[id]);
    hide OneBarrier, KeysDisjoint, TokensLinked, SwapsOk, SettlesOk, ReleasesOk, WorkersOk, OutboxFaithful;
  }

  // ------------------------------------------------------------ the guard

  /** Holding exactly this guard token, or only joining a trigger key. */
  predicate GuardHolderCommand(c: JobCommand, token: Token) {
    match c
    case HeartbeatGuard(_, _, _, t, _, _) => t == token
    case ReleaseGuard(_, _, _, t) => t == token
    case Offer(_, _, _, t, _) => t == Some(token)
    case Cancel(_, t, _) => t == Some(token)
    case Supersede(_, t, _) => t == Some(token)
    case Join(_) => true
    case _ => false
  }

  /** The clock an action's filters carry, for the actions whose filters read one. */
  function CommandClock(c: JobCommand): Option<Time> {
    match c
    case AcquireGuard(_, _, _, _, _, now) => Some(now)
    case HeartbeatGuard(_, _, _, _, _, now) => Some(now)
    case Activate(_, now) => Some(now)
    case ActivateUnclaimed(_, now) => Some(now)
    case ActivatePrepared(now) => Some(now)
    case Offer(_, _, _, _, now) => Some(now)
    case Cancel(_, _, now) => Some(now)
    case Supersede(_, _, now) => Some(now)
    case CancelUnclaimed(_, now) => Some(now)
    case CancelLegacy(now) => Some(now)
    case _ => None
  }

  predicate SeesGuardLive(j: Job, a: Action) {
    j.guard.Some? &&
    match a
    case OnJob(_, c) => CommandClock(c).None? || CommandClock(c).value < j.guard.value.expiresAt
    case Claim(_, _, _, now) => now < j.guard.value.expiresAt
    case _ => true
  }

  lemma GuardStopsCommands(j: Job, c: JobCommand)
    requires BarrierOk(j) && j.guard.Some?
    requires CommandClock(c).None? || CommandClock(c).value < j.guard.value.expiresAt
    requires Command(j, c).Some? && Command(j, c).value != j
    ensures GuardHolderCommand(c, j.guard.value.token)
  {
  }

  /**
   * While an actor sees the source-turn guard live, no claim, activation, offer
   * or termination changes the job except through the guard's own token.
   */
  lemma OnlyTheGuardHolderMoves(s: Sys, a: Action, id: JobId)
    requires Inv(s) && id in s.jobs && SeesGuardLive(s.jobs[id], a)
    requires id in Next(s, a).jobs && Next(s, a).jobs[id] != s.jobs[id]
    ensures a.OnJob? && a.id == id && GuardHolderCommand(a.command, s.jobs[id].guard.value.token)
  {
    hide Inv, Moved, ClaimJob, CommandJob, Command, Claimable, OutboxFaithful, BarrierOk, Insertable;
    ReachableJob(s, id);
    if a.OnJob? {
      if a.id in s.jobs {
        CommandChangesOnly(s, a.id, a.command, id);
        GuardStopsCommands(s.jobs[id], a.command);
      } else {
        UnknownJob(s, a.id, a.command);
      }
    } else if a.Do? {
      GuardedIsUnleased(s.jobs[id]);
      MoveSparesUnleased(s, a.token, a.move, a.now, id);
    } else if a.Claim? {
      LiveGuardUnclaimable(s.jobs[id], a.now);
      ClaimChangesOnly(s, a.id, a.token, a.leaseMs, a.now, id);
    } else {
      ContextSparesJobs(s, a, id);
    }
  }

  /**
   * Once claimed, a job is durably owned: of the commands without a lease only
   * a cancellation before merge preparation changes more than its trigger keys
   * or the time from which it is available.
   */
  lemma ClaimedIsDurablyOwned(j: Job, c: JobCommand)
    requires BarrierOk(j) && j.lease.Some? && Command(j, c).Some?
    ensures var k := Command(j, c).value;
      || k == j.(keys := k.keys)
      || k == j.(availableAt := k.availableAt)
      || (k.status.Cancelled? && PrepareSafe(j.status) && (c.Cancel? || c.CancelLegacy?))
  {
  }

  /** An activation makes an unleased job claimable at once, guard or not. */
  lemma ActivationMakesClaimable(j: Job, c: JobCommand)
    requires BarrierOk(j) && (c.Activate? || c.ActivateUnclaimed? || c.ActivatePrepared?) && Command(j, c).Some?
    requires j.lease.None? || j.lease.value.expiresAt <= c.now
    ensures Claimable(Command(j, c).value, c.now) && Command(j, c).value.guard.None?
  {
  }

  lemma GuardedIsUnleased(j: Job)
    requires BarrierOk(j) && j.guard.Some?
    ensures j.lease.None?
  {
  }

  lemma ContextSparesJobs(s: Sys, a: Action, id: JobId)
    requires !a.OnJob? && !a.Do? && !a.Claim? && id in s.jobs
    ensures id in Next(s, a).jobs && Next(s, a).jobs[id] == s.jobs[id]
  {
    hide KeyFree;
  }

  lemma UnknownJob(s: Sys, i: JobId, c: JobCommand)
    requires i !in s.jobs
    ensures CommandJob(s, i, c) == s
  {
  }

  lemma LiveGuardUnclaimable(j: Job, now: Time)
    requires j.guard.Some? && now < j.guard.value.expiresAt
    ensures !Claimable(j, now)
  {
  }

  lemma CommandChangesOnly(s: Sys, i: JobId, c: JobCommand, id: JobId)
    requires Inv(s) && i in s.jobs && id in s.jobs
    ensures id in CommandJob(s, i, c).jobs
    ensures CommandJob(s, i, c).jobs[id] != s.jobs[id] ==>
              i == id && Command(s.jobs[id], c).Some? && CommandJob(s, i, c).jobs[id] == Command(s.jobs[id], c).value
  {
    hide JobsOk, OneBarrier, KeysDisjoint, TokensLinked, SwapsOk, SettlesOk, ReleasesOk, WorkersOk;
    hide Command, KeyFree, SoundWrite, Undisturbed;
    if && !(c.Join? && c.key !in s.jobs[i].keys && !KeyFree(s, i.owner, c.key)) && Command(s.jobs[i], c).Some?
    {
      CommandIsSound(s, i, c);
    }
  }

  lemma ClaimChangesOnly(s: Sys, i: JobId, t: Token, leaseMs: Time, now: Time, id: JobId)
    requires Inv(s) && id in s.jobs
    ensures id in ClaimJob(s, i, t, leaseMs, now).jobs
    ensures ClaimJob(s, i, t, leaseMs, now).jobs[id] != s.jobs[id] ==> i == id && Claimable(s.jobs[id], now)
  {
    hide Inv, Claimable;
    if i in s.jobs {
      NamedById(s, i);
    }
  }

  lemma MoveSparesUnleased(s: Sys, t: Token, move: Move, now: Time, id: JobId)
    requires Inv(s) && id in s.jobs && s.jobs[id].lease.None?
    ensures id in Moved(s, t, move, now).jobs && Moved(s, t, move, now).jobs[id] == s.jobs[id]
  {
    hide Inv, Permitted, Leased;
    if !move.Write? && !move.BeatLease? {
      hide Moved;
      MovedJobs(s, t, move, now);
    } else if t in s.workers && s.workers[t].job in s.jobs {
      if s.workers[t].job == id {
        assert !s.jobs[id].LeasedBy(t);
        NotLeased(s.jobs[id], t, now);
      } else {
        hide Moved;
        MoveWritesOwnJob(s, t, move, now, id);
      }
    }
  }

  lemma NotLeased(j: Job, t: Token, now: Time)
    requires !j.LeasedBy(t)
    ensures forall c: LeaseCommand :: Leased(j, t, now, c).None?
  {
  }

  lemma MoveWritesOwnJob(s: Sys, t: Token, move: Move, now: Time, id: JobId)
    requires Inv(s) && t in s.workers && s.workers[t].job in s.jobs && s.workers[t].job != id && id in s.jobs
    requires move.Write? || move.BeatLease?
    ensures id in Moved(s, t, move, now).jobs && Moved(s, t, move, now).jobs[id] == s.jobs[id]
  {
    hide Inv, Evolves, Permitted, Leased;
    var w := s.workers[t];
    if move.Write? && Permitted(s, w, move.c) && Leased(s.jobs[w.job], t, now, move.c).Some? {
      LeasedEvolves(s, t, move.c, now);
    } else if move.BeatLease? && Leased(s.jobs[w.job], t, now, Extend(now + w.leaseMs)).Some? {
      LeasedEvolves(s, t, Extend(now + w.leaseMs), now);
    }
  }

  // ------------------------------------------------------------ availability

  /** A claim of the job succeeds. */
  predicate Claims(s: Sys, a: Action, id: JobId) {
    a.Claim? && a.id == id && a.token !in s.workers && a.token in Next(s, a).workers
  }

  /** A lease holder releases the job for a retry. */
  predicate Releases(s: Sys, a: Action, id: JobId) {
    && a.Do? && a.move.Write? && a.move.c.Release? && a.token in s.workers && s.workers[a.token].job == id
    && id in s.jobs && Permitted(s, s.workers[a.token], a.move.c)
    && Leased(s.jobs[id], a.token, a.now, a.move.c).Some?
  }

  /** An activation or an accepted offer makes the job available, or a release delays it. */
  predicate Reschedules(s: Sys, a: Action, id: JobId) {
    || (&& a.OnJob? && a.id == id && id in s.jobs && Command(s.jobs[id], a.command).Some?
        && (a.command.Activate? || a.command.ActivateUnclaimed? || a.command.ActivatePrepared? || a.command.Offer?))
    || Releases(s, a, id)
  }

  lemma CommandKeepsAvailability(j: Job, c: JobCommand)
    requires !c.Activate? && !c.ActivateUnclaimed? && !c.ActivatePrepared? && !c.Offer? && Command(j, c).Some?
    ensures Command(j, c).value.availableAt == j.availableAt
  {
  }

  lemma LeasedKeepsAvailability(j: Job, t: Token, now: Time, c: LeaseCommand)
    requires Leased(j, t, now, c).Some?
    ensures var k := Leased(j, t, now, c).value;
      k.id == j.id && k.availableAt == if c.Release? then now + c.delay else j.availableAt
  {
  }

  lemma MoveKeepsAvailability(s: Sys, t: Token, move: Move, now: Time, id: JobId)
    requires Inv(s) && id in s.jobs && !Releases(s, Do(t, move, now), id)
    ensures id in Moved(s, t, move, now).jobs && Moved(s, t, move, now).jobs[id].availableAt == s.jobs[id].availableAt
  {
    hide Inv, Permitted, Leased;
    if !move.Write? && !move.BeatLease? {
      hide Moved;
      MovedJobs(s, t, move, now);
    } else if t in s.workers && s.workers[t].job in s.jobs {
      var w := s.workers[t];
      NamedById(s, w.job);
      var c := if move.Write? then move.c else Extend(now + w.leaseMs);
      if Leased(s.jobs[w.job], t, now, c).Some? {
        LeasedKeepsAvailability(s.jobs[w.job], t, now, c);
      }
    }
  }

  lemma ClaimKeepsAvailability(s: Sys, i: JobId, t: Token, leaseMs: Time, now: Time, id: JobId)
    requires Inv(s) && id in s.jobs
    ensures var s' := ClaimJob(s, i, t, leaseMs, now);
      id in s'.jobs && s'.jobs[id].availableAt == s.jobs[id].availableAt
  {
    hide Inv, Claimable;
    if i in s.jobs {
      NamedById(s, i);
    }
  }

  lemma AvailabilityStays(s: Sys, a: Action, id: JobId)
    requires Inv(s) && id in s.jobs && !Reschedules(s, a, id)
    ensures id in Next(s, a).jobs && Next(s, a).jobs[id].availableAt == s.jobs[id].availableAt
  {
    hide Inv, Moved, ClaimJob, CommandJob, Command, Releases;
    if a.OnJob? {
      if a.id in s.jobs {
        CommandChangesOnly(s, a.id, a.command, id);
        if a.id == id && Command(s.jobs[id], a.command).Some? {
          CommandKeepsAvailability(s.jobs[id], a.command);
        }
      } else {
        UnknownJob(s, a.id, a.command);
      }
    } else if a.Do? {
      MoveKeepsAvailability(s, a.token, a.move, a.now, id);
    } else if a.Claim? {
      ClaimKeepsAvailability(s, a.id, a.token, a.leaseMs, a.now, id);
    } else {
      ContextSparesJobs(s, a, id);
    }
  }

  /** What a claim that succeeds found: a due job, with no live lease and no live guard. */
  lemma ClaimFinds(s: Sys, a: Action, id: JobId)
    requires Claims(s, a, id)
    ensures id in s.jobs && s.jobs[id].status.Active() && s.jobs[id].availableAt <= a.now
    ensures s.jobs[id].lease.Some? ==> s.jobs[id].lease.value.expiresAt <= a.now
    ensures s.jobs[id].guard.Some? ==> s.jobs[id].guard.value.expiresAt <= a.now
  {
  }

  /**
   * Over any run a job is not claimed with a clock below the time from which it was once available, unless an
   * activation or an accepted offer, or a later release, came between.
   */
  lemma {:induction false} ClaimWaits(s0: Sys, actions: seq<Action>, i: nat, k: nat, id: JobId)
    requires Initial(s0) && i <= k < |actions| && id in At(s0, actions, i).jobs
    requires forall j: nat :: i <= j < k ==> !Reschedules(At(s0, actions, j), actions[j], id)
    requires Claims(At(s0, actions, k), actions[k], id)
    ensures At(s0, actions, i).jobs[id].availableAt <= actions[k].now
  {
    hide Inv, Initial, Next, At, Claims, Reschedules;
    AvailabilityOver(s0, actions, i, k, id);
    ClaimFinds(At(s0, actions, k), actions[k], id);
  }

  lemma {:induction false} AvailabilityOver(s0: Sys, actions: seq<Action>, i: nat, k: nat, id: JobId)
    requires Initial(s0) && i <= k <= |actions| && id in At(s0, actions, i).jobs
    requires forall j: nat :: i <= j < k ==> !Reschedules(At(s0, actions, j), actions[j], id)
    ensures id in At(s0, actions, k).jobs
    ensures At(s0, actions, k).jobs[id].availableAt == At(s0, actions, i).jobs[id].availableAt
    decreases k
  {
    hide Inv, Initial, Next, At, Reschedules;
    if i < k {
      AvailabilityOver(s0, actions, i, k - 1, id);
      AtInv(s0, actions, k - 1);
      AtNext(s0, actions, k - 1);
      AvailabilityStays(At(s0, actions, k - 1), actions[k - 1], id);
    }
  }

  /** A job released with a delay is not claimed before the delay has passed on the releasing clock. */
  lemma ReleasedWaits(s0: Sys, actions: seq<Action>, i: nat, k: nat, id: JobId)
    requires Initial(s0) && i < k < |actions| && Releases(At(s0, actions, i), actions[i], id)
    requires forall j: nat :: i < j < k ==> !Reschedules(At(s0, actions, j), actions[j], id)
    requires Claims(At(s0, actions, k), actions[k], id)
    ensures actions[i].now + actions[i].move.c.delay <= actions[k].now
  {
    AtInv(s0, actions, i);
    AtNext(s0, actions, i);
    ReleaseDelays(At(s0, actions, i), actions[i], id);
    hide Inv, Initial, Next, At, Claims, Reschedules, Releases;
    ClaimWaits(s0, actions, i + 1, k, id);
  }

  lemma ReleaseDelays(s: Sys, a: Action, id: JobId)
    requires Inv(s) && Releases(s, a, id)
    ensures id in Next(s, a).jobs && Next(s, a).jobs[id].status.Retryable?
    ensures Next(s, a).jobs[id].availableAt == a.now + a.move.c.delay
  {
    hide Inv, Permitted, Leased;
    NamedById(s, id);
    LeasedKeepsAvailability(s.jobs[id], a.token, a.now, a.move.c);
    ReleaseRetries(s.jobs[id], a.token, a.now, a.move.c);
    hide ErrorReleases;
  }

  lemma ReleaseRetries(j: Job, t: Token, now: Time, c: LeaseCommand)
    requires c.Release? && Leased(j, t, now, c).Some?
    ensures Leased(j, t, now, c).value.status.Retryable?
  {
  }

  // ---------------------------------------------------------- bounded retries

  /** The service's error path releases job `id` for a retry. */
  predicate ErrorReleaseAt(s: Sys, a: Action, id: JobId) {
    Releases(s, a, id) && s.workers[a.token].main.Failing?
  }

  function ErrorReleaseCount(s0: Sys, actions: seq<Action>, id: JobId): nat
    decreases |actions|
  {
    if actions == [] then 0
    else
      var front := actions[..|actions| - 1];
      ErrorReleaseCount(s0, front, id)
      + if ErrorReleaseAt(Run(s0, front), actions[|actions| - 1], id) then 1 else 0
  }

  lemma ReleaseRecorded(s: Sys, a: Action, id: JobId)
    ensures ErrorReleases(Next(s, a), id)
         == if ErrorReleaseAt(s, a, id) then ErrorReleases(s, id) + [s.workers[a.token].main.attempt]
            else ErrorReleases(s, id)
  {
    if a.Do? && !a.move.Write? {
      hide Read, FenceReusable, Leased, SwapEnabled, SettleEnabled;
    } else if a.Do? {
      hide Leased, Permitted;
    } else {
      OtherHistory(s, a);
      hide Next;
    }
  }

  lemma {:induction false} RisingLength(xs: seq<nat>, max: nat, n: nat)
    requires RisingWithin(xs, max) && n < |xs|
    ensures xs[n] >= n + 1
  {
    if n > 0 {
      RisingLength(xs, max, n - 1);
    }
  }

  lemma {:induction false} ReleasesCounted(s0: Sys, actions: seq<Action>, id: JobId)
    requires Initial(s0)
    ensures |ErrorReleases(Run(s0, actions), id)| == ErrorReleaseCount(s0, actions, id)
    decreases |actions|
  {
    hide Next, ErrorReleaseAt;
    if actions != [] {
      ReleasesCounted(s0, actions[..|actions| - 1], id);
      ReleaseRecorded(Run(s0, actions[..|actions| - 1]), actions[|actions| - 1], id);
    }
  }

  /**
   * However often a job is claimed, crashed and taken over, the service's error
   * path makes it retryable fewer than `maxAttempts` times.
   */
  lemma RetriesBounded(s0: Sys, actions: seq<Action>, id: JobId)
    requires Initial(s0)
    ensures ErrorReleaseCount(s0, actions, id) < Run(s0, actions).maxAttempts
  {
    ReleasesCounted(s0, actions, id);
    RunKeeps(s0, actions);
    ReleasesRising(Run(s0, actions), id);
    hide Inv, Initial;
    var xs := ErrorReleases(Run(s0, actions), id);
    if xs != [] {
      RisingLength(xs, Run(s0, actions).maxAttempts, |xs| - 1);
    }
  }

  lemma ReleasesRising(s: Sys, id: JobId)
    requires Inv(s)
    ensures RisingWithin(ErrorReleases(s, id), s.maxAttempts) && s.maxAttempts >= 1
  {
    assert ReleasesOk(s);
    hide JobsOk, OneBarrier, KeysDisjoint, TokensLinked, SwapsOk, SettlesOk, WorkersOk;
  }

  // ----------------------------------------------------------- context epochs

  /** A settlement raises the epoch to the merge's, or keeps a newer one; it never lowers it. */
  lemma SettlementTakesNewerEpoch(s: Sys, a: Action, id: JobId)
    requires Inv(s) && Settles(s, a, id)
    ensures var r, r' := RuntimeOf(s, id.owner), RuntimeOf(Next(s, a), id.owner);
      var merge := s.jobs[id].SettlementContext();
      && Epoch(r'.context) == Max(Epoch(r.context), Epoch(merge))
      && (r'.context == r.context || r'.context == merge)
      && r'.lastSettled == Some(id) && r'.turnsSinceMerge == 0 && r'.rapidRefills == 0
      && r'.snapshotVersion == r.snapshotVersion + 1
  {
    hide Inv, WorkerOk, JobOk;
    Extract(s, a.token);
    SettlingIdentity(s, a.token);
  }

  lemma SettlingIdentity(s: Sys, t: Token)
    requires t in s.workers && WorkerOk(s, t) && s.workers[t].main.SettlingRuntime?
    requires s.jobs[s.workers[t].job].id == s.workers[t].job
    ensures var c := s.workers[t].main.current;
      c.id == s.workers[t].job && c.SettlementContext() == s.jobs[s.workers[t].job].SettlementContext()
  {
  }

  /** The merge context has the newer context's content under an epoch above both. */
  lemma MergeEpochIsFresh(frozen: Option<ProjectContext>, runtime: Option<ProjectContext>, projection: Option<string>)
    ensures var merged := MergeFreezeOf(frozen, runtime, projection).context;
      && (merged.Some? <==> frozen.Some? || runtime.Some?)
      && (merged.Some? ==> merged.value.epoch > Epoch(frozen) && merged.value.epoch > Epoch(runtime))
      && (merged.Some? && projection.Some? ==> merged.value.projection == projection.value)
      && Succeeds(frozen, runtime, projection, merged)
  {
    MergeSucceeds(frozen, runtime, projection);
    hide MergeFreezeOf;
  }

  /** Another writer replaces the runtime document by one with an older context; such writers compare no epochs. */
  predicate RollsBack(s: Sys, a: Action, o: OwnerKey) {
    && a.TouchRuntime? && a.owner == o && a.runtime.lastSettled == RuntimeOf(s, o).lastSettled
    && Epoch(a.runtime.context) < Epoch(RuntimeOf(s, o).context)
  }

  /** No action of the compaction protocol lowers a runtime's context epoch: only such a writer does. */
  lemma EpochNeverFalls(s: Sys, a: Action, o: OwnerKey)
    ensures Epoch(RuntimeOf(Next(s, a), o).context) < Epoch(RuntimeOf(s, o).context) <==> RollsBack(s, a, o)
  {
    if a.Do? {
      hide Read, FenceReusable, Leased, Permitted, SwapEnabled, SettleEnabled;
    } else {
      hide Claimable, Insertable, Command, KeyFree;
    }
  }

  // --------------------------------------------- settlement of Conversations

  /** The settlement acts while its job is still the last one applied to the context. */
  predicate Pinned(s: Sys, id: JobId) {
    id.owner in s.docs && s.docs[id.owner].lastApplied == Some(id)
  }

  ghost predicate PinnedRun(s0: Sys, actions: seq<Action>, o: OwnerKey) {
    forall i: nat, id: JobId :: OccursAt(Settlement, s0, actions, i, id) && id.owner == o ==>
      Pinned(At(s0, actions, i), id)
  }

  predicate MarkerStands(s: Sys, o: OwnerKey) {
    forall id <- s.history.settled :: id.owner == o && Pinned(s, id) ==> RuntimeOf(s, o).lastSettled == Some(id)
  }

  lemma PinnedKeepsMarker(s: Sys, a: Action, o: OwnerKey)
    requires Inv(s) && MarkerStands(s, o)
    requires forall id: JobId :: id.owner == o && Settles(s, a, id) ==> Pinned(s, id)
    ensures MarkerStands(Next(s, a), o)
  {
    var s' := Next(s, a);
    forall id <- s'.history.settled | id.owner == o && Pinned(s', id)
      ensures RuntimeOf(s', o).lastSettled == Some(id)
    {
      NextHistory(s, a, id);
      hide Inv, Next, Settles, Swaps;
      if Settles(s, a, id) {
        SettlementTakesNewerEpoch(s, a, id);
      } else {
        if !Pinned(s, id) {
          NewlyPinned(s, a, id);
        }
        MarkerMoves(s, a, o, id);
      }
    }
  }

  /** Only its own swap makes a job the last applied one, and that swap is its first. */
  lemma NewlyPinned(s: Sys, a: Action, id: JobId)
    requires Inv(s) && id in s.history.settled && Pinned(Next(s, a), id)
    ensures Pinned(s, id)
  {
    assert s.history.settled <= s.history.swapped by {
      assert SettlesOk(s);
      hide JobsOk, OneBarrier, KeysDisjoint, TokensLinked, SwapsOk, ReleasesOk, WorkersOk;
    }
    hide Inv, Swaps, Next;
    LastAppliedMoves(s, a, id);
    if Swaps(s, a, id) {
      SwapWasNotRecorded(s, a, id);
    }
  }

  lemma LastAppliedMoves(s: Sys, a: Action, id: JobId)
    requires Inv(s) && Pinned(Next(s, a), id)
    ensures Pinned(s, id) || Swaps(s, a, id)
  {
    hide Inv, WorkerOk, JobOk;
    if a.Do? && a.token in s.workers {
      Extract(s, a.token);
      SwapNames(s, a);
      LastAppliedMovesBy(s, a.token, a.move, a.now, id);
      hide Moved;
    } else {
      hide Insertable, Command, KeyFree, Claimable;
    }
  }

  lemma LastAppliedMovesBy(s: Sys, t: Token, move: Move, now: Time, id: JobId)
    requires Pinned(Moved(s, t, move, now), id) && t in s.workers && s.workers[t].job in s.jobs
    requires s.workers[t].main.Swapping? ==> s.workers[t].main.current.id == s.workers[t].job
    ensures Pinned(s, id) || Swaps(s, Do(t, move, now), id)
  {
    hide Read, FenceReusable, SettleEnabled, Leased, Permitted;
  }

  lemma SwapNames(s: Sys, a: Action)
    requires a.Do? && a.token in s.workers && WorkerOk(s, a.token)
    requires s.jobs[s.workers[a.token].job].id == s.workers[a.token].job
    ensures s.workers[a.token].main.Swapping? ==> s.workers[a.token].main.current.id == s.workers[a.token].job
  {
  }

  lemma MarkerMoves(s: Sys, a: Action, o: OwnerKey, id: JobId)
    requires Inv(s) && id.owner == o && Pinned(s, id) && RuntimeOf(s, o).lastSettled == Some(id)
    requires forall k: JobId :: k.owner == o && Settles(s, a, k) ==> Pinned(s, k)
    ensures RuntimeOf(Next(s, a), o).lastSettled == Some(id)
  {
    hide Inv, Pinned;
    if a.Do? && a.move.SettleRuntime? && a.token in s.workers && s.workers[a.token].job in s.jobs {
      hide WorkerOk, JobOk;
      Extract(s, a.token);
      var k := s.workers[a.token].job;
      SettlesWhen(s, a);
      if SettleEnabled(s, a.token) && k.owner == o {
        assert Pinned(s, k);
        PinnedSame(s, k, id);
        assert false;
      }
      hide SettleEnabled;
    } else if a.Do? {
      hide Read, FenceReusable, Leased, Permitted, SwapEnabled;
    } else {
      hide Insertable, Command, KeyFree, Claimable;
    }
  }

  lemma SettlesWhen(s: Sys, a: Action)
    requires a.Do? && a.move.SettleRuntime? && a.token in s.workers && s.workers[a.token].job in s.jobs
    ensures SettleEnabled(s, a.token) ==> Settles(s, a, s.workers[a.token].job)
  {
  }

  lemma PinnedSame(s: Sys, k: JobId, id: JobId)
    requires Pinned(s, k) && Pinned(s, id) && k.owner == id.owner
    ensures k == id
  {
  }

  lemma InitialMarker(s0: Sys, actions: seq<Action>, o: OwnerKey)
    requires Initial(s0)
    ensures MarkerStands(At(s0, actions, 0), o)
  {
    assert actions[..0] == [];
  }

  lemma {:induction false} PinnedMarker(s0: Sys, actions: seq<Action>, n: nat, o: OwnerKey)
    requires Initial(s0) && PinnedRun(s0, actions, o) && n <= |actions|
    ensures MarkerStands(At(s0, actions, n), o)
    decreases n
  {
    hide Inv, Initial, Next, MarkerStands, At, Settles, Run;
    if n == 0 {
      InitialMarker(s0, actions, o);
    } else {
      PinnedMarker(s0, actions, n - 1, o);
      AtInv(s0, actions, n - 1);
      AtNext(s0, actions, n - 1);
      forall id: JobId | id.owner == o && Settles(At(s0, actions, n - 1), actions[n - 1], id)
        ensures Pinned(At(s0, actions, n - 1), id)
      {
        assert OccursAt(Settlement, s0, actions, n - 1, id);
      }
      PinnedKeepsMarker(At(s0, actions, n - 1), actions[n - 1], o);
    }
  }

  /**
   * Nothing in the filter of a Conversation's settlement pins it to the last
   * applied job.  In every run where it happens to act on the last applied
   * one, it too takes effect at most once per job.
   */
  lemma PinnedSettledAtMostOnce(s0: Sys, actions: seq<Action>, i: nat, k: nat, id: JobId)
    requires Initial(s0) && PinnedRun(s0, actions, id.owner)
    requires OccursAt(Settlement, s0, actions, i, id) && OccursAt(Settlement, s0, actions, k, id)
    ensures i == k
  {
    hide Inv, Initial, At;
    if i != k {
      var first, last := if i < k then i else k, if i < k then k else i;
      PinnedMarker(s0, actions, last, id.owner);
      RecordedLater(Settlement, s0, actions, first, last, id);
      PinnedIsFirst(At(s0, actions, last), actions[last], id);
    }
  }

  lemma PinnedIsFirst(s: Sys, a: Action, id: JobId)
    requires MarkerStands(s, id.owner) && Pinned(s, id) && Settles(s, a, id)
    ensures id !in s.history.settled
  {
  }

  // ---------------------------------------------- when a settlement repeats

  /** A worker of job `id` sends the settlement of its runtime, whether or not it takes effect. */
  predicate TriesToSettle(s: Sys, a: Action, id: JobId) {
    && a.Do? && a.move.SettleRuntime? && a.token in s.workers
    && s.workers[a.token].job == id && s.workers[a.token].main.SettlingRuntime?
  }

  /** Between the two actions another job of the same context was settled. */
  ghost predicate OtherSettled(s0: Sys, actions: seq<Action>, i: nat, k: nat, id: JobId) {
    exists j: nat, x: JobId ::
      i < j < k && x != id && x.owner == id.owner && OccursAt(Settlement, s0, actions, j, x)
  }

  /** A runtime is never removed, and its marker names the last job settled in it. */
  lemma MarkerNamesLast(s: Sys, a: Action, o: OwnerKey)
    requires Inv(s) && o in s.runtimes
    ensures o in Next(s, a).runtimes
    ensures forall x: JobId :: x.owner == o && Settles(s, a, x) ==> RuntimeOf(Next(s, a), o).lastSettled == Some(x)
    ensures (forall x: JobId :: x.owner == o ==> !Settles(s, a, x)) ==>
              RuntimeOf(Next(s, a), o).lastSettled == RuntimeOf(s, o).lastSettled
  {
    hide Inv;
    RuntimeStays(s, a, o);
    forall x: JobId | x.owner == o && Settles(s, a, x)
      ensures RuntimeOf(Next(s, a), o).lastSettled == Some(x)
    {
      hide Settles, Next;
      SettlementTakesNewerEpoch(s, a, x);
    }
    if forall x: JobId :: x.owner == o ==> !Settles(s, a, x) {
      hide Next;
      UnsettledKeepsMarker(s, a, o);
    }
  }

  lemma RuntimeStays(s: Sys, a: Action, o: OwnerKey)
    requires o in s.runtimes
    ensures o in Next(s, a).runtimes
  {
    if a.Do? {
      hide Read, FenceReusable, Leased, Permitted, SwapEnabled, SettleEnabled;
    } else {
      hide Claimable, Insertable, Command, KeyFree;
    }
  }

  lemma UnsettledKeepsMarker(s: Sys, a: Action, o: OwnerKey)
    requires forall x: JobId :: x.owner == o ==> !Settles(s, a, x)
    ensures RuntimeOf(Next(s, a), o).lastSettled == RuntimeOf(s, o).lastSettled
  {
    if a.Do? && a.move.SettleRuntime? && a.token in s.workers && s.workers[a.token].job in s.jobs {
      SettlesWhen(s, a);
      hide SettleEnabled, Settles;
      assert s.workers[a.token].job.owner == o ==> !Settles(s, a, s.workers[a.token].job);
    } else if a.Do? {
      hide Next, Settles;
      OtherMovesSpareRuntimes(s, a);
    } else {
      hide Claimable, Insertable, Command, KeyFree, Settles;
    }
  }

  lemma OtherMovesSpareRuntimes(s: Sys, a: Action)
    requires a.Do? && !(a.move.SettleRuntime? && a.token in s.workers && s.workers[a.token].job in s.jobs)
    ensures Next(s, a).runtimes == s.runtimes
  {
    hide Read, FenceReusable, Leased, Permitted, SwapEnabled, SettleEnabled;
  }

  /** After `id` was settled the marker names it exactly until another job of the context is settled. */
  lemma {:induction false} MarkerSince(s0: Sys, actions: seq<Action>, i: nat, n: nat, id: JobId)
    requires Initial(s0) && i < n <= |actions| && OccursAt(Settlement, s0, actions, i, id)
    requires id.owner in At(s0, actions, i).runtimes
    requires forall j: nat :: i < j < n ==> !OccursAt(Settlement, s0, actions, j, id)
    ensures id.owner in At(s0, actions, n).runtimes
    ensures RuntimeOf(At(s0, actions, n), id.owner).lastSettled != Some(id) <==> OtherSettled(s0, actions, i, n, id)
    decreases n
  {
    var o := id.owner;
    hide Inv, Initial, Next, At, Settles, RuntimeOf;
    AtInv(s0, actions, n - 1);
    AtNext(s0, actions, n - 1);
    if n > i + 1 {
      MarkerSince(s0, actions, i, n - 1, id);
    }
    MarkerNamesLast(At(s0, actions, n - 1), actions[n - 1], o);
    if x: JobId :| x.owner == o && Settles(At(s0, actions, n - 1), actions[n - 1], x) {
      assert OccursAt(Settlement, s0, actions, n - 1, x);
      assert RuntimeOf(At(s0, actions, n), o).lastSettled == Some(x);
    } else {
      forall j: nat, x: JobId | i < j < n && x.owner == o && OccursAt(Settlement, s0, actions, j, x)
        ensures j < n - 1
      {
      }
    }
  }

  /**
   * Nothing in the filter of a Conversation's settlement pins it to the last applied job.  A job already settled is
   * settled again exactly when another job of its Conversation was settled in between.
   */
  lemma SettledAgainExactlyWhen(s0: Sys, actions: seq<Action>, i: nat, k: nat, id: JobId)
    requires Initial(s0) && id.owner.ConversationKey? && i < k < |actions|
    requires OccursAt(Settlement, s0, actions, i, id) && TriesToSettle(At(s0, actions, k), actions[k], id)
    requires forall j: nat :: i < j < k ==> !OccursAt(Settlement, s0, actions, j, id)
    ensures OccursAt(Settlement, s0, actions, k, id) <==> OtherSettled(s0, actions, i, k, id)
  {
    AtInv(s0, actions, k);
    WorkerHasJob(At(s0, actions, k), actions[k].token);
    hide Inv, Initial, At;
    MarkerSince(s0, actions, i, k, id);
  }

  lemma WorkerHasJob(s: Sys, t: Token)
    requires Inv(s) && t in s.workers
    ensures s.workers[t].job in s.jobs
  {
    hide JobsOk, OneBarrier, KeysDisjoint, TokensLinked, SwapsOk, SettlesOk, ReleasesOk, MainOk, Evolves;
    assert WorkersOk(s);
  }
}
