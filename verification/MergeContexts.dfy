/**
 * Where a job's merge context comes from: over every run it has the content of
 * the newer of the two contexts that one worker read for it.
 */
module MergeContexts {
  import opened CompactionTypes
  import opened JobCommands
  import opened Protocol
  import opened ProtocolInvariant
  import opened ProtocolSteps
  import opened ProtocolTheorems
  import opened JobGuarantees
  import opened ServiceSteps
  import opened FenceLease

  /** Action `i` read what the merge context `f` of job `id` succeeds: the job's own context and the runtime's. */
  predicate ReadFor(s0: Sys, actions: seq<Action>, i: nat, id: JobId, f: MergeFreeze) {
    && i < |actions| && actions[i].Do? && actions[i].move == FreezeRead(f.projection)
    && var s := At(s0, actions, i);
    && actions[i].token in s.workers && s.workers[actions[i].token].job == id && id in s.jobs
    && Succeeds(s.jobs[id].projectContext, RuntimeOf(s, id.owner).context, f.projection, f.context)
  }

  /** A worker has its freeze ready only from its own read. */
  lemma FreezeComesFromRead(s: Sys, a: Action, t: Token, f: MergeFreeze)
    requires Inv(s) && t in Next(s, a).workers && Next(s, a).workers[t].main == FreezeReady(f)
    ensures t in s.workers && s.workers[t].job in s.jobs && Next(s, a).workers[t].job == s.workers[t].job
    ensures s.workers[t].main == FreezeReady(f)
         || (a.Do? && a.token == t && a.move == FreezeRead(f.projection)
             && Succeeds(s.jobs[s.workers[t].job].projectContext, RuntimeOf(s, s.workers[t].job.owner).context,
                         f.projection, f.context))
  {
    hide Inv, WorkerOk, JobOk;
    if a.Do? {
      NoNewWorkerMoved(s, a.token, a.move, a.now);
      assert t in s.workers;
      Extract(s, t);
      if a.token == t {
        OwnFreeze(s, t, a.move, a.now, f);
      } else {
        OtherSparesMain(s, a.token, a.move, a.now, t);
      }
      hide Moved;
    } else {
      if t in s.workers {
        Extract(s, t);
      }
      hide Insertable, Command, KeyFree, Claimable;
    }
  }

  lemma OwnFreeze(s: Sys, t: Token, move: Move, now: Time, f: MergeFreeze)
    requires t in s.workers && WorkerOk(s, t) && t in Moved(s, t, move, now).workers
    requires Moved(s, t, move, now).workers[t].main == FreezeReady(f)
    ensures s.workers[t].job in s.jobs && Moved(s, t, move, now).workers[t].job == s.workers[t].job
    ensures s.workers[t].main == FreezeReady(f)
         || (move == FreezeRead(f.projection)
             && Succeeds(s.jobs[s.workers[t].job].projectContext, RuntimeOf(s, s.workers[t].job.owner).context,
                         f.projection, f.context))
  {
    assert s.workers[t].job in s.jobs;
    if IsRead(move) {
      MovedRead(s, t, move, now);
      FreezeIsRead(s, t, move, now);
      hide Moved, Read, WorkerOk, Succeeds;
    } else {
      OtherMoveNoFreeze(s, t, move, now);
      hide Moved, Succeeds, WorkerOk;
    }
  }

  lemma OtherMoveNoFreeze(s: Sys, t: Token, move: Move, now: Time)
    requires t in s.workers && s.workers[t].job in s.jobs && !IsRead(move) && t in Moved(s, t, move, now).workers
    ensures var w := Moved(s, t, move, now).workers[t];
      w.job == s.workers[t].job && (w.main.FreezeReady? ==> w.main == s.workers[t].main)
  {
    hide Read, SwapEnabled, SettleEnabled, Leased, FenceReusable, Permitted, ErrorReleases, SettledRuntime;
  }

  lemma FreezeIsRead(s: Sys, t: Token, move: Move, now: Time)
    requires t in s.workers && WorkerOk(s, t)
    ensures var m := Read(s, t, move, now);
      m.FreezeReady? && m != s.workers[t].main ==>
        move == FreezeRead(m.freeze.projection)
        && Succeeds(s.jobs[s.workers[t].job].projectContext, RuntimeOf(s, s.workers[t].job.owner).context,
                    m.freeze.projection, m.freeze.context)
  {
    if move.FreezeRead? {
      MergeSucceeds(s.jobs[s.workers[t].job].projectContext, RuntimeOf(s, s.workers[t].job.owner).context,
                    move.projection);
    }
    hide MergeFreezeOf, Succeeds;
  }

  /** A job's merge context is written only by a worker that has it ready. */
  lemma FreezeIsWrittenReady(s: Sys, a: Action, id: JobId)
    requires Inv(s) && id in s.jobs && id in Next(s, a).jobs
    requires s.jobs[id].mergeFreeze.None? && Next(s, a).jobs[id].mergeFreeze.Some?
    ensures a.Do? && a.token in s.workers && s.workers[a.token].job == id
    ensures s.workers[a.token].main == FreezeReady(Next(s, a).jobs[id].mergeFreeze.value)
  {
    hide Inv, Command, KeyFree, Claimable, Insertable, Moved, CommandJob, ClaimJob;
    match a
    case OnJob(i, c) =>
      if i in s.jobs {
        CommandChangesOnly(s, i, c, id);
        if Command(s.jobs[id], c).Some? {
          CommandKeepsFreeze(s.jobs[id], c);
        }
      } else {
        UnknownJob(s, i, c);
      }
    case Claim(i, t, leaseMs, now) => ClaimKeepsFreeze(s, i, t, leaseMs, now, id);
    case Do(t, move, now) => MoveFreezes(s, t, move, now, id);
    case _ => ContextSparesJobs(s, a, id);
  }

  lemma CommandKeepsFreeze(j: Job, c: JobCommand)
    requires Command(j, c).Some?
    ensures Command(j, c).value.mergeFreeze == j.mergeFreeze
  {
  }

  lemma ClaimKeepsFreeze(s: Sys, i: JobId, t: Token, leaseMs: Time, now: Time, id: JobId)
    requires Inv(s) && id in s.jobs
    ensures var s' := ClaimJob(s, i, t, leaseMs, now);
      id in s'.jobs && s'.jobs[id].mergeFreeze == s.jobs[id].mergeFreeze
  {
    hide Inv, Claimable;
    if i in s.jobs {
      NamedById(s, i);
    }
  }

  lemma LeasedFreezes(j: Job, t: Token, now: Time, c: LeaseCommand)
    requires Leased(j, t, now, c).Some?
    ensures var k := Leased(j, t, now, c).value;
      k.id == j.id && k.mergeFreeze == if c.FreezeMerge? then Some(c.freeze) else j.mergeFreeze
  {
  }

  lemma MoveFreezes(s: Sys, t: Token, move: Move, now: Time, id: JobId)
    requires Inv(s) && id in s.jobs && id in Moved(s, t, move, now).jobs
    requires s.jobs[id].mergeFreeze.None? && Moved(s, t, move, now).jobs[id].mergeFreeze.Some?
    ensures t in s.workers && s.workers[t].job == id
    ensures s.workers[t].main == FreezeReady(Moved(s, t, move, now).jobs[id].mergeFreeze.value)
  {
    hide Inv, Leased;
    if !move.Write? && !move.BeatLease? {
      hide Moved;
      MovedJobs(s, t, move, now);
    } else if t in s.workers && s.workers[t].job in s.jobs {
      var w := s.workers[t];
      NamedById(s, w.job);
      var c := if move.Write? then move.c else Extend(now + w.leaseMs);
      if Leased(s.jobs[w.job], t, now, c).Some? {
        LeasedFreezes(s.jobs[w.job], t, now, c);
      }
    }
  }

  lemma {:induction false} ReadyFreezeWasRead(s0: Sys, actions: seq<Action>, n: nat, t: Token, f: MergeFreeze)
    returns (i: nat)
    requires Initial(s0) && n <= |actions| && t in At(s0, actions, n).workers
    requires At(s0, actions, n).workers[t].main == FreezeReady(f)
    ensures i < n && ReadFor(s0, actions, i, At(s0, actions, n).workers[t].job, f)
    decreases n
  {
    hide Inv, Next, Succeeds, Run;
    if n == 0 {
      NothingAtFirst(s0, actions);
      assert false;
    } else {
      AtInv(s0, actions, n - 1);
      AtNext(s0, actions, n - 1);
      hide Initial, At;
      var s, a := At(s0, actions, n - 1), actions[n - 1];
      FreezeComesFromRead(s, a, t, f);
      if s.workers[t].main == FreezeReady(f) {
        i := ReadyFreezeWasRead(s0, actions, n - 1, t, f);
      } else {
        i := n - 1;
      }
    }
  }

  lemma NothingAtFirst(s0: Sys, actions: seq<Action>)
    requires Initial(s0)
    ensures At(s0, actions, 0).workers == map[] && At(s0, actions, 0).jobs == map[]
  {
    assert actions[..0] == [];
  }

  /**
   * At every point of every run, a job's merge context was computed from one read of the runtime before it: it has the
   * content of whichever of the job's and the runtime's context was newer then, under an epoch above both.
   */
  lemma {:induction false} MergeContextSucceeds(s0: Sys, actions: seq<Action>, n: nat, id: JobId) returns (i: nat)
    requires Initial(s0) && n <= |actions| && id in At(s0, actions, n).jobs
    requires At(s0, actions, n).jobs[id].mergeFreeze.Some?
    ensures i < n && ReadFor(s0, actions, i, id, At(s0, actions, n).jobs[id].mergeFreeze.value)
    decreases n
  {
    hide Inv, Next, ReadFor, Run, Evolves;
    if n == 0 {
      NothingAtFirst(s0, actions);
      assert false;
    } else {
      AtInv(s0, actions, n - 1);
      AtNext(s0, actions, n - 1);
      hide Initial, At;
      var s, a := At(s0, actions, n - 1), actions[n - 1];
      if id !in s.jobs {
        NewJobHasNoFreeze(s, a, id);
        assert false;
      } else if s.jobs[id].mergeFreeze.None? {
        FreezeIsWrittenReady(s, a, id);
        i := ReadyFreezeWasRead(s0, actions, n - 1, a.token, Next(s, a).jobs[id].mergeFreeze.value);
      } else {
        NextEvolves(s, a, id);
        FreezeStays(s.jobs[id], Next(s, a).jobs[id]);
        i := MergeContextSucceeds(s0, actions, n - 1, id);
      }
    }
  }

  lemma FreezeStays(j: Job, k: Job)
    requires Evolves(j, k) && j.mergeFreeze.Some?
    ensures k.mergeFreeze == j.mergeFreeze
  {
  }

  lemma NewJobHasNoFreeze(s: Sys, a: Action, id: JobId)
    requires Inv(s) && id !in s.jobs && id in Next(s, a).jobs
    ensures Next(s, a).jobs[id].mergeFreeze.None?
  {
    hide Inv, Insertable, KeyFree, Command, Claimable, Leased, Permitted;
    if a.Do? {
      if !a.move.Write? && !a.move.BeatLease? {
        MovedJobs(s, a.token, a.move, a.now);
        hide Moved;
      } else if a.token in s.workers && s.workers[a.token].job in s.jobs {
        OnlyOwnJob(s, a.token, a.move, a.now);
        hide Moved;
      }
    } else if a.OnJob? && a.id in s.jobs {
      CommandKeepsJobs(s, a.id, a.command);
    } else if a.Claim? && a.id in s.jobs {
      NamedById(s, a.id);
    }
  }

  lemma OnlyOwnJob(s: Sys, t: Token, move: Move, now: Time)
    requires Inv(s) && t in s.workers && s.workers[t].job in s.jobs && (move.Write? || move.BeatLease?)
    ensures Moved(s, t, move, now).jobs.Keys == s.jobs.Keys
  {
    hide Inv, Leased, Permitted;
    var w := s.workers[t];
    NamedById(s, w.job);
    var c := if move.Write? then move.c else Extend(now + w.leaseMs);
    if Leased(s.jobs[w.job], t, now, c).Some? {
      LeasedFreezes(s.jobs[w.job], t, now, c);
    }
  }

  lemma CommandKeepsJobs(s: Sys, i: JobId, c: JobCommand)
    requires Inv(s) && i in s.jobs
    ensures CommandJob(s, i, c).jobs.Keys == s.jobs.Keys
  {
    NamedById(s, i);
    CommandKeepsId(s.jobs[i], c);
    hide Inv, Command, KeyFree;
  }

  lemma CommandKeepsId(j: Job, c: JobCommand)
    ensures Command(j, c).Some? ==> Command(j, c).value.id == j.id
  {
  }
}
