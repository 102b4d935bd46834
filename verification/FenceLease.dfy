/**
 * What clocks add.  A swap that passes its fence test is made by the job's
 * lease holder unless another claim took the job over, and then that claim's
 * clock was at or past the fence's deadline, hence ahead of the swap's.  Only
 * the order of the swapper's own claim and heartbeats is assumed.
 */
module FenceLease {
  import opened CompactionTypes
  import opened JobCommands
  import opened Protocol
  import opened ProtocolInvariant
  import opened ProtocolSteps
  import opened ProtocolTheorems

  /**
   * The clock an action's filter carries: of every claim and worker, or only of the claim and the heartbeats that
   * set the lease deadline of one token.
   */
  function Clock(a: Action, who: Option<Token>): Option<Time> {
    match a
    case Claim(_, t, _, now) => if who.None? || who == Some(t) then Some(now) else None
    case Do(t, move, now) => if who.None? || (who == Some(t) && move.BeatLease?) then Some(now) else None
    case _ => None
  }

  predicate Timely(actions: seq<Action>, who: Option<Token>) {
    forall i, k :: 0 <= i < k < |actions| && Clock(actions[i], who).Some? && Clock(actions[k], who).Some? ==>
      Clock(actions[i], who).value <= Clock(actions[k], who).value
  }

  /** The latest of those clocks so far. */
  function Elapsed(actions: seq<Action>, who: Option<Token>): Time
    decreases |actions|
  {
    if actions == [] then 0
    else if Clock(actions[|actions| - 1], who).Some? then Clock(actions[|actions| - 1], who).value
    else Elapsed(actions[..|actions| - 1], who)
  }

  /** Another worker claims the job that token `t` was given. */
  predicate TakesOver(s: Sys, a: Action, t: Token) {
    && t in s.workers && a.Claim? && a.id == s.workers[t].job
    && a.id in s.jobs && a.token !in s.workers && Claimable(s.jobs[a.id], a.now)
  }

  predicate TakesOverAt(s0: Sys, actions: seq<Action>, i: nat, t: Token) {
    i < |actions| && TakesOver(At(s0, actions, i), actions[i], t)
  }

  /** Every deadline worker `t` has put into a fence, or is about to, is within the bound. */
  predicate DeadlinesWithin(s: Sys, t: Token, bound: Time)
    requires t in s.workers
  {
    var w := s.workers[t];
    && (w.job.owner in s.docs && s.docs[w.job.owner].FencedBy(t) ==>
          s.docs[w.job.owner].fence.value.expiresAt <= bound)
    && (w.main.Establishing? ==> w.main.expiresAt <= bound)
    && (w.beat.LeaseExtended? ==> w.beat.expiresAt <= bound)
  }

  predicate Merging(w: Worker) {
    w.main.Applying? || w.main.Swapping?
  }

  /**
   * A merging worker still holds its lease on a prepared job, or the job was taken over.  When `own` bounds the clock
   * of the worker's claim and heartbeats, its deadlines are within its lease, or out of time for the claim that took
   * the job over.
   */
  predicate TimelyWorker(s: Sys, t: Token, own: Option<Time>, ended: Option<Time>)
    requires t in s.workers
  {
    var w := s.workers[t];
    && w.job in s.jobs
    && var j := s.jobs[w.job];
    if j.LeasedBy(t) then
      && (own.Some? ==> j.lease.value.expiresAt <= own.value + w.leaseMs
                        && DeadlinesWithin(s, t, j.lease.value.expiresAt))
      && (Merging(w) ==> j.status.MergePrepared?)
    else Merging(w) ==> ended.Some? && (own.Some? ==> DeadlinesWithin(s, t, ended.value))
  }

  /** What is known of a bound on clocks at one point is known of a later one. */
  predicate NoEarlier(a: Option<Time>, b: Option<Time>) {
    a.Some? ==> b.Some? && a.value <= b.value
  }

  /** What another actor may do to worker `t` between two of its steps. */
  predicate TimelyBeside(s: Sys, s': Sys, t: Token, ended: Option<Time>)
    requires t in s.workers && s.workers[t].job in s.jobs
  {
    var w := s.workers[t];
    var o := w.job.owner;
    && t in s'.workers && s'.workers[t] == w && w.job in s'.jobs
    && var j, k := s.jobs[w.job], s'.jobs[w.job];
    && (k.LeasedBy(t) ==> k.lease == j.lease && k.status == j.status)
    && (!k.LeasedBy(t) && j.LeasedBy(t) ==>
          (ended.Some? && j.lease.value.expiresAt <= ended.value) || !j.status.MergePrepared?)
    && (o in s'.docs && s'.docs[o].FencedBy(t) ==> o in s.docs && s'.docs[o].fence == s.docs[o].fence)
  }

  lemma TimelyFrame(s: Sys, s': Sys, t: Token, own: Option<Time>, ended: Option<Time>, ended': Option<Time>)
    requires t in s.workers && TimelyWorker(s, t, own, ended) && NoEarlier(ended, ended')
    requires TimelyBeside(s, s', t, ended')
    ensures t in s'.workers && TimelyWorker(s', t, own, ended')
  {
  }

  lemma LaterIsTimely(s: Sys, t: Token, own: Option<Time>, ended: Option<Time>, own': Option<Time>, ended': Option<Time>)
    requires t in s.workers && TimelyWorker(s, t, own, ended)
    requires NoEarlier(ended, ended') && (own'.Some? ==> own.Some? && own.value <= own'.value)
    ensures TimelyWorker(s, t, own', ended')
  {
  }

  lemma CommandTimely(s: Sys, i: JobId, c: JobCommand, u: Token, ended: Option<Time>)
    requires Inv(s) && i in s.jobs && u in s.workers && s.workers[u].job in s.jobs
    ensures TimelyBeside(s, CommandJob(s, i, c), u, ended)
  {
    var s' := CommandJob(s, i, c);
    hide JobsOk, OneBarrier, KeysDisjoint, TokensLinked, SwapsOk, SettlesOk, ReleasesOk, WorkersOk;
    hide Command, KeyFree, SoundWrite, Undisturbed, JobOk;
    if && !(c.Join? && c.key !in s.jobs[i].keys && !KeyFree(s, i.owner, c.key)) && Command(s.jobs[i], c).Some?
    {
      CommandIsSound(s, i, c);
      JobIsOk(s, i);
      CommandKeeps(s.jobs[i], c);
    }
  }

  lemma JobIsOk(s: Sys, i: JobId)
    requires Inv(s) && i in s.jobs
    ensures s.jobs[i].id == i && JobOk(s.jobs[i])
  {
    assert JobsOk(s);
    hide OneBarrier, KeysDisjoint, TokensLinked, SwapsOk, SettlesOk, ReleasesOk, WorkersOk, JobOk;
  }

  /** A claim ends another claim's lease only when that lease has expired by the claim's clock. */
  lemma ClaimTimely(s: Sys, i: JobId, t: Token, leaseMs: Time, now: Time, u: Token, ended: Option<Time>)
    requires Inv(s) && u in s.workers && s.workers[u].job in s.jobs
    requires TakesOver(s, Claim(i, t, leaseMs, now), u) ==> ended.Some? && now <= ended.value
    ensures TimelyBeside(s, ClaimJob(s, i, t, leaseMs, now), u, ended)
  {
    hide Inv, JobOk;
    if i in s.jobs {
      JobIsOk(s, i);
    }
  }

  lemma ContextTimely(s: Sys, a: Action, u: Token, ended: Option<Time>)
    requires !a.OnJob? && !a.Claim? && !a.Do? && u in s.workers && s.workers[u].job in s.jobs
    ensures TimelyBeside(s, Next(s, a), u, ended)
  {
    hide KeyFree;
  }

  /** What a lease write touches: the job, the worker's own record, and nothing of the context. */
  lemma LeaseWriteShape(s: Sys, t: Token, c: LeaseCommand, now: Time)
    requires t in s.workers && s.workers[t].job in s.jobs
    ensures var w, s' := s.workers[t], LeaseWrite(s, t, c, now);
      && s'.docs == s.docs
      && s'.workers == (if Permitted(s, w, c) then s.workers[t := w.(main := Idle)] else s.workers)
      && s'.jobs == (if Permitted(s, w, c) && Leased(s.jobs[w.job], t, now, c).Some?
                     then var k := Leased(s.jobs[w.job], t, now, c).value; s.jobs[k.id := k] else s.jobs)
  {
    hide Leased, Permitted, ErrorReleases;
  }

  /** A write to a job leased by `t` concerns no other claim. */
  lemma ForeignWriteTimely(s: Sys, s': Sys, t: Token, k: Job, u: Token, ended: Option<Time>)
    requires u in s.workers && u != t && s.workers[u].job in s.jobs && k.id in s.jobs
    requires s'.docs == s.docs && u in s'.workers && s'.workers[u] == s.workers[u]
    requires s'.jobs == s.jobs[k.id := k] && s.jobs[k.id].LeasedBy(t) && (k.lease.None? || k.LeasedBy(t))
    ensures TimelyBeside(s, s', u, ended)
  {
  }

  lemma WriteTimely(s: Sys, t: Token, c: LeaseCommand, now: Time, u: Token, ended: Option<Time>)
    requires t in s.workers && s.workers[t].job in s.jobs && s.jobs[s.workers[t].job].id == s.workers[t].job
    requires u in s.workers && u != t && s.workers[u].job in s.jobs
    ensures TimelyBeside(s, LeaseWrite(s, t, c, now), u, ended)
  {
    var w := s.workers[t];
    hide Permitted, Leased, LeaseWrite;
    LeaseWriteShape(s, t, c, now);
    if Permitted(s, w, c) && Leased(s.jobs[w.job], t, now, c).Some? {
      LeaseStaysOwn(s.jobs[w.job], t, now, c);
      ForeignWriteTimely(s, LeaseWrite(s, t, c, now), t, Leased(s.jobs[w.job], t, now, c).value, u, ended);
    }
  }

  lemma LeaseStaysOwn(j: Job, t: Token, now: Time, c: LeaseCommand)
    requires Leased(j, t, now, c).Some?
    ensures j.LeasedBy(t)
    ensures var k := Leased(j, t, now, c).value; k.id == j.id && (k.lease.None? || k.LeasedBy(t))
  {
  }

  /** A read moves the main thread only; a merge starts from a live lease on a prepared job. */
  lemma OwnReadTimely(s: Sys, t: Token, move: Move, now: Time, own: Option<Time>, ended: Option<Time>)
    requires t in s.workers && TimelyWorker(s, t, own, ended)
    ensures TimelyWorker(PutWorker(s, t, s.workers[t].(main := Read(s, t, move, now))), t, own, ended)
  {
    hide MergeFreezeOf;
  }

  lemma OwnEstablishTimely(s: Sys, t: Token, now: Time, own: Option<Time>, ended: Option<Time>)
    requires t in s.workers && TimelyWorker(s, t, own, ended) && s.jobs[s.workers[t].job].id == s.workers[t].job
    ensures TimelyWorker(Moved(s, t, EstablishWrite, now), t, own, ended)
  {
    hide FenceReusable, Read;
  }

  lemma OwnSwapTimely(s: Sys, t: Token, now: Time, own: Option<Time>, ended: Option<Time>)
    requires t in s.workers && TimelyWorker(s, t, own, ended)
    ensures TimelyWorker(Moved(s, t, ApplySwap, now), t, own, ended)
  {
    hide SwapEnabled, Read;
  }

  lemma OwnSettlementTimely(s: Sys, t: Token, move: Move, now: Time, own: Option<Time>, ended: Option<Time>)
    requires t in s.workers && TimelyWorker(s, t, own, ended)
    requires move.SettleAbsent? || move.SettleRuntime? || move.Refresh?
    ensures TimelyWorker(Moved(s, t, move, now), t, own, ended)
  {
    hide SettleEnabled, Read, SettledRuntime;
  }

  lemma OwnBeatLeaseTimely(s: Sys, t: Token, now: Time, own: Option<Time>, ended: Option<Time>)
    requires t in s.workers && TimelyWorker(s, t, own, ended) && s.jobs[s.workers[t].job].id == s.workers[t].job
    requires own.Some? ==> own.value <= now
    ensures TimelyWorker(Moved(s, t, BeatLease, now), t, if own.Some? then Some(now) else own, ended)
  {
    var w := s.workers[t];
    ExtendGives(s.jobs[w.job], t, now, now + w.leaseMs);
    hide Leased;
  }

  lemma OwnBeatFenceTimely(s: Sys, t: Token, now: Time, own: Option<Time>, ended: Option<Time>)
    requires t in s.workers && TimelyWorker(s, t, own, ended)
    ensures TimelyWorker(Moved(s, t, BeatFence, now), t, own, ended)
  {
    hide Leased;
  }

  lemma ExtendGives(j: Job, t: Token, now: Time, expiresAt: Time)
    ensures Leased(j, t, now, Extend(expiresAt))
         == if LiveLease(j, t, now) then Some(j.(lease := Some(Lease(t, expiresAt)))) else None
  {
  }

  lemma OtherContextMoveTimely(s: Sys, t: Token, move: Move, now: Time, u: Token, ended: Option<Time>)
    requires u in s.workers && u != t && s.workers[u].job in s.jobs && t in s.workers && s.workers[t].job in s.jobs
    requires !move.Write? && !move.BeatLease? && !IsRead(move)
    ensures TimelyBeside(s, Moved(s, t, move, now), u, ended)
  {
    hide Read, SwapEnabled, SettleEnabled, FenceReusable, SettledRuntime;
  }

  lemma OtherBeatTimely(s: Sys, t: Token, now: Time, u: Token, ended: Option<Time>)
    requires u in s.workers && u != t && s.workers[u].job in s.jobs && t in s.workers && s.workers[t].job in s.jobs
    requires s.jobs[s.workers[t].job].id == s.workers[t].job
    ensures TimelyBeside(s, Moved(s, t, BeatLease, now), u, ended)
  {
    var w := s.workers[t];
    hide Leased;
    if Leased(s.jobs[w.job], t, now, Extend(now + w.leaseMs)).Some? {
      LeaseStaysOwn(s.jobs[w.job], t, now, Extend(now + w.leaseMs));
    }
  }

  lemma OtherMoveTimely(s: Sys, t: Token, move: Move, now: Time, u: Token, ended: Option<Time>)
    requires u in s.workers && u != t && s.workers[u].job in s.jobs
    requires t in s.workers && s.workers[t].job in s.jobs ==> s.jobs[s.workers[t].job].id == s.workers[t].job
    ensures TimelyBeside(s, Moved(s, t, move, now), u, ended)
  {
    if t in s.workers && s.workers[t].job in s.jobs {
      hide Moved, Read, LeaseWrite;
      if move.Write? {
        MovedWrite(s, t, move.c, now);
        WriteTimely(s, t, move.c, now, u, ended);
      } else if IsRead(move) {
        MovedRead(s, t, move, now);
      } else if move.BeatLease? {
        OtherBeatTimely(s, t, now, u, ended);
      } else {
        OtherContextMoveTimely(s, t, move, now, u, ended);
      }
    }
  }

  lemma OwnWriteTimely(s: Sys, t: Token, c: LeaseCommand, now: Time, own: Option<Time>, ended: Option<Time>)
    requires t in s.workers && TimelyWorker(s, t, own, ended)
    requires s.jobs[s.workers[t].job].id == s.workers[t].job
    ensures TimelyWorker(LeaseWrite(s, t, c, now), t, own, ended)
  {
    var w := s.workers[t];
    hide Leased, Permitted, LeaseWrite;
    LeaseWriteShape(s, t, c, now);
    if Permitted(s, w, c) && Leased(s.jobs[w.job], t, now, c).Some? {
      LeaseStaysOwn(s.jobs[w.job], t, now, c);
      UnextendedLease(s.jobs[w.job], t, now, c, s, w);
    }
  }

  lemma UnextendedLease(j: Job, t: Token, now: Time, c: LeaseCommand, s: Sys, w: Worker)
    requires Leased(j, t, now, c).Some? && Permitted(s, w, c)
    ensures j.LeasedBy(t) && !Merging(w)
    ensures var k := Leased(j, t, now, c).value; k.lease.None? || k.lease == j.lease
  {
  }

  /** The actor's own step keeps its deadlines within its lease, if its heartbeats read a clock in order. */
  lemma OwnMoveTimely(s: Sys, t: Token, move: Move, now: Time, own: Option<Time>, ended: Option<Time>)
    requires t in s.workers && TimelyWorker(s, t, own, ended)
    requires s.jobs[s.workers[t].job].id == s.workers[t].job
    requires move.BeatLease? && own.Some? ==> own.value <= now
    ensures t in Moved(s, t, move, now).workers
    ensures TimelyWorker(Moved(s, t, move, now), t, if own.Some? && move.BeatLease? then Some(now) else own, ended)
  {
    NoNewWorkerMoved(s, t, move, now);
    TimelyHasJob(s, t, own, ended);
    hide Moved, TimelyWorker, Read, LeaseWrite;
    if move.Write? {
      MovedWrite(s, t, move.c, now);
      OwnWriteTimely(s, t, move.c, now, own, ended);
    } else if IsRead(move) {
      MovedRead(s, t, move, now);
      if Starts(move) && !s.workers[t].main.Idle? {
      } else {
        OwnReadTimely(s, t, move, now, own, ended);
      }
    } else if move.BeatLease? {
      OwnBeatLeaseTimely(s, t, now, own, ended);
    } else if move.BeatFence? {
      OwnBeatFenceTimely(s, t, now, own, ended);
    } else if move.EstablishWrite? {
      OwnEstablishTimely(s, t, now, own, ended);
    } else if move.ApplySwap? {
      OwnSwapTimely(s, t, now, own, ended);
    } else {
      OwnSettlementTimely(s, t, move, now, own, ended);
    }
  }

  lemma TimelyHasJob(s: Sys, t: Token, own: Option<Time>, ended: Option<Time>)
    requires t in s.workers && TimelyWorker(s, t, own, ended)
    ensures s.workers[t].job in s.jobs
  {
  }

  lemma NewClaimTimely(s: Sys, id: JobId, t: Token, leaseMs: Time, now: Time, own: Option<Time>)
    requires Inv(s) && t in ClaimJob(s, id, t, leaseMs, now).workers && t !in s.workers
    requires id in s.jobs ==> s.jobs[id].id == id
    requires own.Some? ==> own.value == now
    ensures TimelyWorker(ClaimJob(s, id, t, leaseMs, now), t, own, None)
  {
    NewTokenFences(s, t);
    hide Inv, Claimable;
  }

  lemma NewTokenFences(s: Sys, u: Token)
    requires Inv(s) && u !in s.workers
    ensures forall o <- s.docs :: !s.docs[o].FencedBy(u)
  {
    assert TokensLinked(s);
    hide JobsOk, OneBarrier, KeysDisjoint, SwapsOk, SettlesOk, ReleasesOk, WorkersOk;
  }

  lemma NewWorkerTimely(s: Sys, a: Action, u: Token, own: Option<Time>)
    requires Inv(s) && u in Next(s, a).workers && u !in s.workers
    requires own.Some? ==> Clock(a, Some(u)).Some? ==> Clock(a, Some(u)).value == own.value
    ensures TimelyWorker(Next(s, a), u, own, None)
  {
    if a.Claim? {
      hide Inv, JobOk, Claimable, TimelyWorker;
      if a.id in s.jobs {
        JobIsOk(s, a.id);
      }
      NewClaimTimely(s, a.id, a.token, a.leaseMs, a.now, own);
    } else {
      hide Inv;
      NoNewWorker(s, a);
    }
  }

  lemma NoNewWorker(s: Sys, a: Action)
    requires !a.Claim?
    ensures Next(s, a).workers.Keys == s.workers.Keys
  {
    if a.Do? {
      NoNewWorkerMoved(s, a.token, a.move, a.now);
      hide Moved;
    } else {
      hide Insertable, Command, KeyFree;
    }
  }

  lemma NoNewWorkerMoved(s: Sys, t: Token, move: Move, now: Time)
    ensures Moved(s, t, move, now).workers.Keys == s.workers.Keys
  {
    hide Read, SwapEnabled, SettleEnabled, Leased, FenceReusable, Permitted;
  }

  lemma UnknownJobUntouched(s: Sys, i: JobId, c: JobCommand)
    requires i !in s.jobs
    ensures CommandJob(s, i, c) == s
  {
  }

  lemma MovedWrite(s: Sys, t: Token, c: LeaseCommand, now: Time)
    ensures Moved(s, t, Write(c), now)
         == if t in s.workers && s.workers[t].job in s.jobs then LeaseWrite(s, t, c, now) else s
  {
    hide LeaseWrite;
  }

  /** What any action but the worker's own moves does to it. */
  lemma OthersAreTimely(s: Sys, a: Action, u: Token, ended: Option<Time>)
    requires Inv(s) && u in s.workers && (a.Do? ==> a.token != u)
    requires TakesOver(s, a, u) ==> ended.Some? && a.now <= ended.value
    requires a.OnJob? ==> a.id in s.jobs
    ensures s.workers[u].job in s.jobs && TimelyBeside(s, Next(s, a), u, ended)
  {
    hide Inv, TimelyBeside, Moved, ClaimJob, CommandJob, WorkerOk, JobOk, TakesOver;
    Extract(s, u);
    match a
    case OnJob(i, c) => CommandTimely(s, i, c, u, ended);
    case Claim(i, t, leaseMs, n) => ClaimTimely(s, i, t, leaseMs, n, u, ended);
    case Do(t, move, n) =>
      if t in s.workers && s.workers[t].job in s.jobs {
        JobIsOk(s, s.workers[t].job);
      }
      OtherMoveTimely(s, t, move, n, u, ended);
    case _ => ContextTimely(s, a, u, ended);
  }

  lemma WorkerNextTimely(s: Sys, a: Action, u: Token, own: Option<Time>, ended: Option<Time>,
                         own': Option<Time>, ended': Option<Time>)
    requires Inv(s) && u in s.workers && TimelyWorker(s, u, own, ended)
    requires NoEarlier(ended, ended') && (TakesOver(s, a, u) ==> ended'.Some? && a.now <= ended'.value)
    requires own'.Some? ==> own.Some? && own.value <= own'.value
    requires own'.Some? && Clock(a, Some(u)).Some? ==> Clock(a, Some(u)).value == own'.value
    ensures u in Next(s, a).workers && TimelyWorker(Next(s, a), u, own', ended')
  {
    hide Inv, TimelyWorker, TimelyBeside, Moved, ClaimJob, CommandJob, TakesOver, NoEarlier;
    if a.OnJob? && a.id !in s.jobs {
      UnknownJobUntouched(s, a.id, a.command);
      LaterIsTimely(s, u, own, ended, own', ended');
    } else if a.Do? && a.token == u {
      LaterIsTimely(s, u, own, ended, if own'.Some? then own else None, ended');
      TimelyHasJob(s, u, own, ended);
      JobIsOk(s, s.workers[u].job);
      OwnMoveTimely(s, u, a.move, a.now, if own'.Some? then own else None, ended');
      LaterIsTimely(Next(s, a), u, if own'.Some? && a.move.BeatLease? then Some(a.now)
                                   else if own'.Some? then own else None, ended', own', ended');
    } else {
      OthersAreTimely(s, a, u, ended');
      TimelyFrame(s, Next(s, a), u, own, ended, ended');
      LaterIsTimely(Next(s, a), u, own, ended', own', ended');
    }
  }

  // ------------------------------------------------------------------ over runs

  /** The latest own clock, if they come in order. */
  function Own(actions: seq<Action>, t: Token): Option<Time> {
    if Timely(actions, Some(t)) then Some(Elapsed(actions, Some(t))) else None
  }

  lemma {:induction false} ElapsedWasRead(actions: seq<Action>, who: Option<Token>)
    ensures Elapsed(actions, who) == 0
         || exists i :: 0 <= i < |actions| && Clock(actions[i], who) == Some(Elapsed(actions, who))
    decreases |actions|
  {
    if actions != [] && Clock(actions[|actions| - 1], who).None? {
      var front := actions[..|actions| - 1];
      ElapsedWasRead(front, who);
      if i :| 0 <= i < |front| && Clock(front[i], who) == Some(Elapsed(front, who)) {
        assert actions[i] == front[i];
      }
    }
  }

  lemma OwnIsLater(actions: seq<Action>, t: Token)
    requires actions != []
    ensures var front, a := actions[..|actions| - 1], actions[|actions| - 1];
      Own(actions, t).Some? ==>
        && Own(front, t).Some? && Own(front, t).value <= Own(actions, t).value
        && (Clock(a, Some(t)).Some? ==> Clock(a, Some(t)).value == Own(actions, t).value)
  {
    var front := actions[..|actions| - 1];
    if Timely(actions, Some(t)) {
      assert Timely(front, Some(t)) by {
        assert forall i :: 0 <= i < |front| ==> front[i] == actions[i];
      }
      ElapsedWasRead(front, Some(t));
      if i :| 0 <= i < |front| && Clock(front[i], Some(t)) == Some(Elapsed(front, Some(t))) {
        assert actions[i] == front[i];
      }
    }
  }

  lemma TakeoverStays(s0: Sys, actions: seq<Action>, i: nat, t: Token)
    requires actions != [] && TakesOverAt(s0, actions[..|actions| - 1], i, t)
    ensures TakesOverAt(s0, actions, i, t) && actions[i] == actions[..|actions| - 1][i]
  {
    assert actions[..|actions| - 1][..i] == actions[..i];
    hide TakesOver;
  }

  function Later(ended: Option<Time>, now: Time): Option<Time> {
    if ended.Some? && now <= ended.value then ended else Some(now)
  }

  /**
   * At every point of every run, every worker: merging, it holds its lease on a prepared job or was taken over.  If
   * its own clocks come in order, its deadlines are within its lease, or past for a claim that took over.
   */
  lemma {:induction false} RunTimely(s0: Sys, actions: seq<Action>, t: Token) returns (ended: Option<Time>)
    requires Initial(s0) && t in Run(s0, actions).workers
    ensures TimelyWorker(Run(s0, actions), t, Own(actions, t), ended)
    ensures ended.Some? ==> exists i: nat :: TakesOverAt(s0, actions, i, t) && actions[i].now == ended.value
    decreases |actions|
  {
    hide Next, TimelyWorker, Claimable, Own, Inv;
    if actions == [] {
      ended := None;
      NoWorkersYet(s0);
    } else {
      hide Initial;
      var front, a := actions[..|actions| - 1], actions[|actions| - 1];
      var s := Run(s0, front);
      RunKeeps(s0, front);
      OwnIsLater(actions, t);
      if t in s.workers {
        var before := RunTimely(s0, front, t);
        ended := if TakesOver(s, a, t) then Later(before, a.now) else before;
        WorkerNextTimely(s, a, t, Own(front, t), before, Own(actions, t), ended);
        if ended.Some? {
          if before.Some? && ended == before {
            var i: nat :| TakesOverAt(s0, front, i, t) && front[i].now == before.value;
            TakeoverStays(s0, actions, i, t);
          } else {
            assert TakesOverAt(s0, actions, |front|, t);
          }
        }
      } else {
        ended := None;
        NewWorkerTimely(s, a, t, Own(actions, t));
      }
    }
  }

  lemma NoWorkersYet(s0: Sys)
    requires Initial(s0)
    ensures Run(s0, []).workers == map[]
  {
  }

  /** A token whose lease was taken over never gets it back. */
  lemma LeaseNotRegained(s: Sys, a: Action, t: Token)
    requires Inv(s) && t in s.workers
    ensures t in Next(s, a).workers && Next(s, a).workers[t].job == s.workers[t].job
    ensures s.workers[t].job in s.jobs && s.workers[t].job in Next(s, a).jobs
    ensures Next(s, a).jobs[s.workers[t].job].LeasedBy(t) ==> s.jobs[s.workers[t].job].LeasedBy(t)
    ensures TakesOver(s, a, t) ==> !Next(s, a).jobs[s.workers[t].job].LeasedBy(t)
  {
    hide Inv, WorkerOk, JobOk;
    Extract(s, t);
    JobIsOk(s, s.workers[t].job);
    if a.OnJob? && a.id !in s.jobs {
      UnknownJobUntouched(s, a.id, a.command);
      hide CommandJob;
    } else if a.Do? && a.token == t {
      OwnMoveRegainsNothing(s, t, a.move, a.now);
      hide Moved;
    } else {
      if TakesOver(s, a, t) {
        TakeoverIssuesToken(s, a, t);
      }
      hide Next, TakesOver;
      OthersAreTimely(s, a, t, if a.Claim? then Some(a.now) else None);
    }
  }

  lemma OwnMoveRegainsNothing(s: Sys, t: Token, move: Move, now: Time)
    requires t in s.workers && s.workers[t].job in s.jobs && s.jobs[s.workers[t].job].id == s.workers[t].job
    ensures var s', id := Moved(s, t, move, now), s.workers[t].job;
      && t in s'.workers && s'.workers[t].job == id && id in s'.jobs
      && (s'.jobs[id].LeasedBy(t) ==> s.jobs[id].LeasedBy(t))
  {
    var w := s.workers[t];
    if move.Write? {
      hide LeaseWrite, Leased, Permitted, Moved;
      MovedWrite(s, t, move.c, now);
      LeaseWriteShape(s, t, move.c, now);
      if Leased(s.jobs[w.job], t, now, move.c).Some? {
        LeaseStaysOwn(s.jobs[w.job], t, now, move.c);
      }
    } else if move.BeatLease? {
      hide Leased;
      if Leased(s.jobs[w.job], t, now, Extend(now + w.leaseMs)).Some? {
        LeaseStaysOwn(s.jobs[w.job], t, now, Extend(now + w.leaseMs));
      }
    } else {
      MovedJobs(s, t, move, now);
      hide Read, SwapEnabled, SettleEnabled, FenceReusable;
    }
  }

  lemma TakeoverIssuesToken(s: Sys, a: Action, t: Token)
    requires Inv(s) && TakesOver(s, a, t) && s.jobs[a.id].id == a.id
    ensures !Next(s, a).jobs[s.workers[t].job].LeasedBy(t)
  {
    hide Inv, Claimable;
  }

  lemma {:induction false} NeverRegained(s0: Sys, actions: seq<Action>, i: nat, n: nat, t: Token)
    requires Initial(s0) && i < n <= |actions| && TakesOverAt(s0, actions, i, t)
    ensures var s := At(s0, actions, n);
      t in s.workers && s.workers[t].job in s.jobs && !s.jobs[s.workers[t].job].LeasedBy(t)
    decreases n
  {
    hide Inv, Initial, Next, At, TakesOver, Run;
    AtInv(s0, actions, n - 1);
    AtNext(s0, actions, n - 1);
    if i < n - 1 {
      NeverRegained(s0, actions, i, n - 1, t);
    } else {
      TakenIsKnown(At(s0, actions, i), actions[i], t);
    }
    LeaseNotRegained(At(s0, actions, n - 1), actions[n - 1], t);
  }

  lemma TakenIsKnown(s: Sys, a: Action, t: Token)
    requires TakesOver(s, a, t)
    ensures t in s.workers
  {
  }

  /** A fence's deadline is within the lease its token holds, if that worker's own clocks come in order. */
  lemma FenceWithinLease(s0: Sys, actions: seq<Action>, o: OwnerKey)
    requires Initial(s0) && o in Run(s0, actions).docs && Run(s0, actions).docs[o].fence.Some?
    requires Timely(actions, Some(Run(s0, actions).docs[o].fence.value.token))
    ensures var s := Run(s0, actions);
      var f := s.docs[o].fence.value;
      f.job in s.jobs && (s.jobs[f.job].LeasedBy(f.token) ==> f.expiresAt <= s.jobs[f.job].lease.value.expiresAt)
  {
    var s := Run(s0, actions);
    RunKeeps(s0, actions);
    FenceIsLinked(s, o);
    hide Inv, Initial, Timely;
    var ended := RunTimely(s0, actions, s.docs[o].fence.value.token);
  }

  lemma FenceIsLinked(s: Sys, o: OwnerKey)
    requires Inv(s) && o in s.docs && s.docs[o].fence.Some?
    ensures var f := s.docs[o].fence.value;
      f.token in s.workers && s.workers[f.token].job == f.job && f.job.owner == o
  {
    assert TokensLinked(s);
    hide JobsOk, OneBarrier, KeysDisjoint, SwapsOk, SettlesOk, ReleasesOk, WorkersOk;
  }

  /**
   * When a swap that takes effect comes late: its worker no longer holds the job's lease exactly when another claim
   * took the job over.  If the worker's own clocks come in order, such a claim read a clock at or past the deadline of
   * the fence, hence later than the swap's; and otherwise the lease is live.
   */
  lemma SwapIsLateExactlyWhen(s0: Sys, actions: seq<Action>, a: Action, id: JobId)
    requires Initial(s0) && Swaps(Run(s0, actions), a, id)
    ensures id.owner in Run(s0, actions).docs && Run(s0, actions).docs[id.owner].fence.Some?
    ensures var s := Run(s0, actions);
      var j, deadline := s.jobs[id], s.docs[id.owner].fence.value.expiresAt;
      var holds := j.status.MergePrepared? && j.LeasedBy(a.token);
      && deadline > a.now
      && (!holds <==> exists i: nat :: TakesOverAt(s0, actions, i, a.token))
      && (Timely(actions, Some(a.token)) ==>
            && (!holds <==> exists i: nat :: TakesOverAt(s0, actions, i, a.token) && actions[i].now >= deadline)
            && (holds ==> LiveLease(j, a.token, a.now)))
  {
    var s := Run(s0, actions);
    var t := a.token;
    SwapperParts(s, a, id);
    hide Inv, Initial, TakesOver, Timely, Swaps;
    var ended := RunTimely(s0, actions, t);
    SwapperTimely(s, a, id, Own(actions, t), ended);
    assert At(s0, actions, |actions|) == s by { assert actions[..|actions|] == actions; }
    if i: nat :| TakesOverAt(s0, actions, i, t) {
      NeverRegained(s0, actions, i, |actions|, t);
    }
    hide At, Run, LiveLease;
  }

  lemma SwapperParts(s: Sys, a: Action, id: JobId)
    requires Swaps(s, a, id)
    ensures a.Do? && a.token in s.workers && s.workers[a.token].job == id && id in s.jobs
    ensures id.owner in s.docs && s.docs[id.owner].fence.Some? && s.docs[id.owner].fence.value.expiresAt > a.now
  {
  }

  lemma SwapperTimely(s: Sys, a: Action, id: JobId, own: Option<Time>, ended: Option<Time>)
    requires Swaps(s, a, id) && TimelyWorker(s, a.token, own, ended)
    ensures var j, deadline := s.jobs[id], s.docs[id.owner].fence.value.expiresAt;
      if j.LeasedBy(a.token) then j.status.MergePrepared? && (own.Some? ==> LiveLease(j, a.token, a.now))
      else ended.Some? && (own.Some? ==> ended.value >= deadline)
  {
  }

  /** On one clock for all, whoever swaps a context still holds a live lease on a prepared job. */
  lemma SwapperHoldsLease(s0: Sys, actions: seq<Action>, a: Action, id: JobId)
    requires Initial(s0) && Timely(actions + [a], None) && Swaps(Run(s0, actions), a, id)
    ensures var j := Run(s0, actions).jobs[id];
      j.status.MergePrepared? && LiveLease(j, a.token, a.now)
  {
    assert a.Do?;
    OneClock(actions, a);
    SwapperParts(Run(s0, actions), a, id);
    SwapIsLateExactlyWhen(s0, actions, a, id);
    hide Initial, Run, LiveLease, Timely, Swaps, Claimable, At;
  }

  /** On one clock for all, a worker's own clocks come in order, and no earlier claim's is past its last. */
  lemma OneClock(actions: seq<Action>, a: Action)
    requires Timely(actions + [a], None) && a.Do?
    ensures Timely(actions, Some(a.token))
    ensures forall i :: 0 <= i < |actions| && actions[i].Claim? ==> actions[i].now <= a.now
  {
    var all := actions + [a];
    assert all[|actions|] == a && Clock(a, None).Some?;
    assert forall i :: 0 <= i < |actions| ==> actions[i] == all[i];
  }

  /**
   * A heartbeat of a live claim moves the lease deadline and then, if the context still carries the claim's fence, the
   * fence deadline to one lease period after its clock.
   */
  lemma HeartbeatExtends(s: Sys, t: Token, now: Time, later: Time)
    requires Inv(s) && t in s.workers && s.workers[t].beat.Resting?
    requires s.workers[t].job in s.jobs && LiveLease(s.jobs[s.workers[t].job], t, now)
    ensures var w := s.workers[t];
      var extended := Next(s, Do(t, BeatLease, now));
      var beaten := Next(extended, Do(t, BeatFence, later));
      && w.job in beaten.jobs && beaten.jobs[w.job] == s.jobs[w.job].(lease := Some(Lease(t, now + w.leaseMs)))
      && (w.job.owner in s.docs && s.docs[w.job.owner].FencedBy(t) ==>
            w.job.owner in beaten.docs
            && beaten.docs[w.job.owner] == s.docs[w.job.owner].(fence := Some(Fence(w.job, t, now + w.leaseMs))))
  {
    hide Inv, JobOk, LiveLease, Next;
    var w := s.workers[t];
    JobIsOk(s, w.job);
    if w.job.owner in s.docs && s.docs[w.job.owner].fence.Some? {
      FenceIsLinked(s, w.job.owner);
    }
    BeatLeaseGives(s, t, now);
    var mid := Next(s, Do(t, BeatLease, now));
    assert mid.docs == s.docs && mid.workers[t].job == w.job && mid.workers[t].beat == LeaseExtended(now + w.leaseMs);
    assert mid.jobs[w.job] == s.jobs[w.job].(lease := Some(Lease(t, now + w.leaseMs)));
    hide PutJob, PutWorker;
    BeatFenceGives(mid, t, later);
  }

  lemma BeatLeaseGives(s: Sys, t: Token, now: Time)
    requires t in s.workers && s.workers[t].beat.Resting? && s.workers[t].job in s.jobs
    requires s.jobs[s.workers[t].job].id == s.workers[t].job && LiveLease(s.jobs[s.workers[t].job], t, now)
    ensures var w := s.workers[t];
      var k := s.jobs[w.job].(lease := Some(Lease(t, now + w.leaseMs)));
      Next(s, Do(t, BeatLease, now)) == PutWorker(PutJob(s, k), t, w.(beat := LeaseExtended(now + w.leaseMs)))
  {
    ExtendGives(s.jobs[s.workers[t].job], t, now, now + s.workers[t].leaseMs);
    hide Leased, LiveLease;
  }

  lemma BeatFenceGives(s: Sys, t: Token, now: Time)
    requires t in s.workers && s.workers[t].job in s.jobs && s.workers[t].beat.LeaseExtended?
    ensures var w, s' := s.workers[t], Next(s, Do(t, BeatFence, now));
      && s'.jobs == s.jobs && s'.workers == s.workers[t := w.(beat := Resting)]
      && (w.job.owner in s.docs && s.docs[w.job.owner].FencedBy(t) && s.docs[w.job.owner].fence.value.job == w.job ==>
            s'.docs == s.docs[w.job.owner := s.docs[w.job.owner].(fence := Some(Fence(w.job, t, w.beat.expiresAt)))])
  {
  }
}
