/**
 * The repository's commands on a job that need no lease, in the form callers
 * run them: reads, compare-and-set writes and re-reads of one collection, with
 * other actors moving at every await.
 */
module JobCommandCalls {
  import opened CompactionTypes
  import opened JobCommands
  import opened Protocol
  import opened ProtocolInvariant
  import opened ProtocolSteps
  import opened ProtocolTheorems
  import opened JobGuarantees

  const MAX_STATUS_CAS_ATTEMPTS := 4

  datatype Turn = Turn(elapsed: Time, actions: seq<Action>)

  datatype Offered = Accepted(job: Job) | AlreadyOffered(job: Job) | DurableOwned(job: Job) | PrefixConflict | Rejected

  datatype Acquired = Guarded(token: Token, expiresAt: Time, changed: bool) | NotUnclaimedQueued | CommandRejected

  /** Action `i` of a run is this command, and its filter matched. */
  predicate EffectiveAt(origin: Sys, trace: seq<Action>, i: nat, id: JobId, c: JobCommand) {
    && i < |trace| && trace[i] == OnJob(id, c)
    && id in At(origin, trace, i).jobs && Command(At(origin, trace, i).jobs[id], c).Some?
  }

  class CompactionJobs {
    var state: Sys
    var clock: Time
    var schedule: seq<Turn>
    ghost const origin: Sys
    ghost var trace: seq<Action>
    /** The positions in the trace of this caller's own effective writes. */
    ghost var own: seq<nat>

    ghost predicate Valid()
      reads this
    {
      Initial(origin) && state == Run(origin, trace)
    }

    /** What one call may do: let others act, and make its own writes after everything before. */
    twostate predicate Continues()
      reads this
    {
      Valid() && old(trace) <= trace && clock >= old(clock)
    }

    /** Time may pass at the awaits, but nobody else acts. */
    predicate Quiet()
      reads this`schedule
    {
      forall i :: 0 <= i < |schedule| ==> schedule[i].actions == []
    }

    method Await()
      requires Valid()
      modifies this`state, this`clock, this`schedule, this`trace
      ensures Continues()
      ensures old(Quiet()) ==> Quiet() && state == old(state)
    {
      if schedule == [] {
        return;
      }
      var turn := schedule[0];
      RunSplit(origin, trace, turn.actions);
      state := Run(state, turn.actions);
      trace := trace + turn.actions;
      clock, schedule := clock + turn.elapsed, schedule[1..];
      hide Initial, Run;
    }

    /** One compare-and-set on the job's document. */
    method Send(id: JobId, c: JobCommand) returns (changed: bool)
      requires Valid() && !c.Join?
      modifies this`state, this`trace, this`own
      ensures Continues() && trace == old(trace) + [OnJob(id, c)]
      ensures changed <==> id in old(state).jobs && Command(old(state).jobs[id], c).Some?
      ensures changed ==>
        && own == old(own) + [|old(trace)|] && EffectiveAt(origin, trace, |old(trace)|, id, c)
        && id in state.jobs && state.jobs[id] == Command(old(state).jobs[id], c).value
      ensures !changed ==> own == old(own) && state == old(state)
    {
      hide Initial, Run, Command, Next, At;
      changed := id in state.jobs && Command(state.jobs[id], c).Some?;
      ghost var before := state;
      JobNamed(id);
      CommandKeepsId(state, id, c);
      SentIs(before, id, c);
      RunSnoc(origin, trace, OnJob(id, c));
      AtEnd(origin, trace, OnJob(id, c));
      if changed {
        var updated := Command(state.jobs[id], c).value;
        state := state.(jobs := state.jobs[id := updated]);
        own := own + [|trace|];
      }
      trace := trace + [OnJob(id, c)];
    }

    lemma JobNamed(id: JobId)
      requires Valid()
      ensures id in state.jobs ==> state.jobs[id].id == id
    {
      hide Inv, Initial, Run;
      RunKeeps(origin, trace);
      if id in state.jobs {
        NamedById(state, id);
      }
    }

    /** Nothing persisted in the job before is taken back later. */
    twostate lemma Progress(id: JobId)
      requires old(Valid()) && Valid() && old(trace) <= trace && id in old(state).jobs
      ensures id in state.jobs && Evolves(old(state).jobs[id], state.jobs[id])
    {
      hide Inv, Initial, Run, Evolves;
      ghost var before, rest := old(trace), trace[|old(trace)|..];
      RunKeeps(origin, before);
      assert trace == before + rest;
      RunSplit(origin, before, rest);
      JobsEvolve(Run(origin, before), rest, id);
    }

    /** A status transition: a read, then a compare-and-set on its revision, and both again when that fails. */
    method TransitionStatus(id: JobId, c: JobCommand) returns (changed: bool)
      requires Valid() && !c.Join?
      modifies this
      ensures Continues()
      ensures old(Quiet()) ==>
        && Quiet() && (changed <==> id in old(state).jobs && Command(old(state).jobs[id], c).Some?)
        && (changed ==> id in state.jobs && state.jobs[id] == Command(old(state).jobs[id], c).value)
        && (!changed ==> state == old(state))
      ensures if changed
              then |own| == |old(own)| + 1 && own[..|old(own)|] == old(own) && own[|old(own)|] >= |old(trace)|
                   && EffectiveAt(origin, trace, own[|old(own)|], id, c)
              else own == old(own)
    {
      hide Initial, Run, Command, At, EffectiveAt;
      var attempt := 0;
      while attempt < MAX_STATUS_CAS_ATTEMPTS
        invariant Continues() && own == old(own)
        invariant old(Quiet()) ==> attempt == 0 && Quiet() && state == old(state)
      {
        Await();
        if id !in state.jobs || Command(state.jobs[id], c).None? {
          return false;
        }
        var revision := state.jobs[id].statusRevision;
        Await();
        if id in state.jobs && state.jobs[id].statusRevision == revision {
          changed := Send(id, c);
          if changed {
            return;
          }
        }
        attempt := attempt + 1;
      }
      changed := false;
    }

    /**
     * `offerPreparedCompactionSummary`: the local turn's summary is accepted only
     * if it becomes the job's one summary; every other answer leaves the job alone.
     */
    method OfferSummary(id: JobId, key: string, prefix: seq<Message>, summary: string, guardToken: Option<Token>)
      returns (r: Offered)
      requires Valid()
      modifies this
      ensures Continues()
      ensures r.Accepted? <==> |own| == |old(own)| + 1
      ensures !r.Accepted? <==> own == old(own)
      ensures r.Accepted? ==>
        exists now: Time :: EffectiveAt(origin, trace, own[|old(own)|], id, Offer(key, prefix, summary, guardToken, now))
      ensures r.Accepted? || r.AlreadyOffered? ==> id in state.jobs && state.jobs[id].summary == Some(summary)
      ensures old(Quiet()) ==> Answered(r, old(state), id, key, prefix, summary, guardToken, old(clock))
    {
      hide Initial, Run, Command, At, Evolves, Blank;
      if Blank(summary) {
        return Rejected;
      }
      Await();
      if id !in state.jobs || key !in state.jobs[id].keys {
        return Rejected;
      }
      var current := state.jobs[id];
      if current.frozen.messages != prefix {
        return PrefixConflict;
      }
      if current.status.SummaryReady? && current.summary == Some(summary) {
        return AlreadyOffered(current);
      }
      if !current.status.Queued? || current.lease.Some? {
        return DurableOwned(current);
      }
      var c := Offer(key, prefix, summary, guardToken, clock);
      OfferMatches(current, c, old(clock));
      label Sending:
      var transitioned := TransitionStatus(id, c);
      if transitioned {
        OfferIsKept(id, c, own[|old(own)|]);
        return Accepted(state.jobs[id]);
      }
      Await();
      Progress@Sending(id);
      var winner := state.jobs[id];
      if winner.frozen.messages != prefix {
        return PrefixConflict;
      }
      if winner.status.SummaryReady? && winner.summary == Some(summary) {
        return AlreadyOffered(winner);
      }
      r := DurableOwned(winner);
    }

    lemma OfferIsKept(id: JobId, c: JobCommand, i: nat)
      requires Valid() && c.Offer? && EffectiveAt(origin, trace, i, id, c)
      ensures id in state.jobs && state.jobs[id].summary == Some(c.summary)
    {
      hide Inv, Initial, Next, Evolves, Run, Command, Writes;
      AtInv(origin, trace, i);
      AtInv(origin, trace, i + 1);
      AtNext(origin, trace, i);
      OfferWritesSummary(At(origin, trace, i), id, c.key, c.prefix, c.summary, c.guardToken, c.now);
      WrittenStays(At(origin, trace, i), trace[i], id);
      assert trace == trace[..i + 1] + trace[i + 1..];
      RunSplit(origin, trace[..i + 1], trace[i + 1..]);
      JobsEvolve(At(origin, trace, i + 1), trace[i + 1..], id);
      EvolvedSummary(At(origin, trace, i + 1).jobs[id], state.jobs[id]);
    }

    /** `cancelDurableCompactionJob` and `supersede...`: a terminated job keeps neither lease nor guard. */
    method Terminate(id: JobId, c: JobCommand) returns (changed: bool)
      requires Valid() && (c.Cancel? || c.Supersede?)
      modifies this
      ensures Continues()
      ensures changed <==> |own| == |old(own)| + 1
      ensures !changed <==> own == old(own)
      ensures old(Quiet()) ==> (changed <==> id in old(state).jobs && Command(old(state).jobs[id], c).Some?)
      ensures changed ==>
        && EffectiveAt(origin, trace, own[|old(own)|], id, c) && id in state.jobs && !state.jobs[id].status.Active()
        && state.jobs[id].lease.None? && state.jobs[id].guard.None? && state.jobs[id].activeKey.None?
    {
      hide Initial, Run, Command, At;
      changed := TransitionStatus(id, c);
      if changed {
        TerminationIsKept(id, c, own[|old(own)|]);
      }
    }

    lemma TerminationIsKept(id: JobId, c: JobCommand, i: nat)
      requires Valid() && (c.Cancel? || c.Supersede?) && EffectiveAt(origin, trace, i, id, c)
      ensures id in state.jobs && !state.jobs[id].status.Active()
      ensures state.jobs[id].lease.None? && state.jobs[id].guard.None? && state.jobs[id].activeKey.None?
    {
      hide Inv, Initial, Next, Evolves, Run, Command, BarrierOk, OutboxFaithful;
      AtInv(origin, trace, i);
      AtInv(origin, trace, i + 1);
      AtNext(origin, trace, i);
      ReachableJob(At(origin, trace, i), id);
      TerminatedIs(At(origin, trace, i), id, c);
      assert trace == trace[..i + 1] + trace[i + 1..];
      RunSplit(origin, trace[..i + 1], trace[i + 1..]);
      JobsEvolve(At(origin, trace, i + 1), trace[i + 1..], id);
      RunKeeps(origin, trace);
      ReachableJob(state, id);
      StaysTerminal(At(origin, trace, i + 1).jobs[id], state.jobs[id]);
    }

    /** `acquireSourceTurnCompactionGuard`: a replay by the same turn gets its own live guard back. */
    method AcquireGuard(id: JobId, key: string, run: string, ownerId: string, token: Token, ttl: Time) returns (r: Acquired)
      requires Valid()
      modifies this
      ensures Continues()
      ensures r.Guarded? ==>
        && id in state.jobs && state.jobs[id].guard == Some(Guard(r.token, ownerId, run, r.expiresAt))
        && state.jobs[id].status.Queued? && state.jobs[id].lease.None? && (!r.changed ==> r.expiresAt > old(clock))
      ensures if r.Guarded? && r.changed then |own| == |old(own)| + 1 && r.token == token else own == old(own)
      ensures old(Quiet()) ==> Guards(r, old(state), id, key, run, ownerId, token, ttl, old(clock))
    {
      hide Initial, Run, At, EffectiveAt, Command, Valid;
      var asked := clock;
      Await();
      JobNamed(id);
      GuardedIsQueued(id);
      if id !in state.jobs || key !in state.jobs[id].keys || key != id.idempotencyKey || state.jobs[id].sourceRunId != Some(run) {
        return CommandRejected;
      }
      var current := state.jobs[id];
      if current.activeKey != Some(id.owner) || !current.status.Queued? || current.lease.Some? {
        return NotUnclaimedQueued;
      }
      if current.guard.Some? && current.guard.value.expiresAt > asked {
        if current.guard.value.ownerId == ownerId && current.guard.value.sourceRunId == run {
          return Guarded(current.guard.value.token, current.guard.value.expiresAt, false);
        }
        return NotUnclaimedQueued;
      }
      if current.availableAt <= asked {
        return NotUnclaimedQueued;
      }
      var deadline := asked + if ttl < 5_000 then 5_000 else ttl;
      Await();
      JobNamed(id);
      AcquiredGuard(state, id, key, run, ownerId, token, deadline, asked);
      var guarded := Send(id, JobCommand.AcquireGuard(key, run, ownerId, token, deadline, asked));
      if guarded {
        return Guarded(token, deadline, true);
      }
      Await();
      GuardedIsQueued(id);
      if id !in state.jobs || key !in state.jobs[id].keys {
        return CommandRejected;
      }
      var winner := state.jobs[id];
      if && key == id.idempotencyKey && winner.sourceRunId == Some(run)
         && winner.guard.Some? && winner.guard.value.expiresAt > clock
         && winner.guard.value.ownerId == ownerId && winner.guard.value.sourceRunId == run
      {
        return Guarded(winner.guard.value.token, winner.guard.value.expiresAt, false);
      }
      r := NotUnclaimedQueued;
    }

    lemma GuardedIsQueued(id: JobId)
      requires Valid()
      ensures id in state.jobs && state.jobs[id].guard.Some? ==> state.jobs[id].status.Queued? && state.jobs[id].lease.None?
    {
      hide Inv, Initial, Run, OutboxFaithful;
      RunKeeps(origin, trace);
      if id in state.jobs {
        ReachableJob(state, id);
      }
    }
  }

  /** The answer to an offer that nobody disturbs. */
  predicate Answered(r: Offered, s: Sys, id: JobId, key: string, prefix: seq<Message>, summary: string,
                     guardToken: Option<Token>, now: Time)
  {
    if Blank(summary) || id !in s.jobs || key !in s.jobs[id].keys then r.Rejected?
    else
      var j := s.jobs[id];
      if j.frozen.messages != prefix then r.PrefixConflict?
      else if j.status.SummaryReady? && j.summary == Some(summary) then r == AlreadyOffered(j)
      else if j.status.Queued? && j.lease.None? && j.activeKey.Some? && GuardPermits(j, now, guardToken) then
        r.Accepted? && r.job.status.SummaryReady? && r.job.summary == Some(summary)
      else r.Accepted? || r == DurableOwned(j)
  }

  /** The answer to a guard request that nobody disturbs: the source turn of a delayed, free job gets it. */
  predicate Guards(r: Acquired, s: Sys, id: JobId, key: string, run: string, ownerId: string, token: Token, ttl: Time,
                   now: Time)
  {
    if id !in s.jobs || !SourceTurnIdentity(s.jobs[id], key, run) || key != id.idempotencyKey then r.CommandRejected?
    else
      var j := s.jobs[id];
      if j.activeKey != Some(id.owner) || !j.status.Queued? || j.lease.Some? then r.NotUnclaimedQueued?
      else if !NoLiveGuard(j, now) then
        r == if j.guard.value.ownerId == ownerId && j.guard.value.sourceRunId == run
             then Guarded(j.guard.value.token, j.guard.value.expiresAt, false) else NotUnclaimedQueued
      else if j.availableAt > now then r == Guarded(token, now + Max(5_000, ttl), true)
      else r.NotUnclaimedQueued?
  }

  lemma OfferMatches(j: Job, c: JobCommand, asked: Time)
    requires c.Offer? && asked <= c.now
    ensures c.key in j.keys && !Blank(c.summary) && j.frozen.messages == c.prefix && j.status.Queued? && j.lease.None?
            && j.activeKey.Some? && GuardPermits(j, asked, c.guardToken) ==>
      && Command(j, c).Some?
      && Command(j, c).value.status.SummaryReady? && Command(j, c).value.summary == Some(c.summary)
  {
    hide Blank;
  }

  lemma AtEnd(s: Sys, actions: seq<Action>, a: Action)
    ensures At(s, actions + [a], |actions|) == Run(s, actions)
  {
    assert (actions + [a])[..|actions|] == actions;
  }

  lemma CommandKeepsId(s: Sys, id: JobId, c: JobCommand)
    ensures id in s.jobs && Command(s.jobs[id], c).Some? ==> Command(s.jobs[id], c).value.id == s.jobs[id].id
  {
    hide Blank;
  }

  lemma SentIs(s: Sys, id: JobId, c: JobCommand)
    requires !c.Join? && (id in s.jobs ==> s.jobs[id].id == id)
    requires id in s.jobs && Command(s.jobs[id], c).Some? ==> Command(s.jobs[id], c).value.id == id
    ensures Next(s, OnJob(id, c))
         == if id in s.jobs && Command(s.jobs[id], c).Some?
            then s.(jobs := s.jobs[id := Command(s.jobs[id], c).value]) else s
  {
    hide Command;
  }

  lemma AcquiredGuard(s: Sys, id: JobId, key: string, run: string, ownerId: string, token: Token, deadline: Time, now: Time)
    ensures var c := JobCommand.AcquireGuard(key, run, ownerId, token, deadline, now);
      id in s.jobs && Command(s.jobs[id], c).Some? ==>
        var k := Command(s.jobs[id], c).value;
        k.guard == Some(Guard(token, ownerId, run, deadline)) && k.status.Queued? && k.lease.None?
    ensures id in s.jobs && s.jobs[id].id == id && SourceTurnIdentity(s.jobs[id], key, run)
            && s.jobs[id].activeKey == Some(id.owner) && s.jobs[id].status.Queued? && s.jobs[id].lease.None?
            && NoLiveGuard(s.jobs[id], now) && s.jobs[id].availableAt > now ==>
      Command(s.jobs[id], JobCommand.AcquireGuard(key, run, ownerId, token, deadline, now)).Some?
  {
  }

  lemma WrittenStays(s: Sys, a: Action, id: JobId)
    requires Writes(Field.Summary, s, a, id)
    ensures id in Next(s, a).jobs
  {
    hide Next;
  }

  lemma EvolvedSummary(j: Job, k: Job)
    requires Evolves(j, k) && j.summary.Some?
    ensures k.summary == j.summary
  {
  }

  lemma TerminatedIs(s: Sys, id: JobId, c: JobCommand)
    requires id in s.jobs && s.jobs[id].id == id && (c.Cancel? || c.Supersede?) && Command(s.jobs[id], c).Some?
    ensures var s' := Next(s, OnJob(id, c));
      id in s'.jobs && (s'.jobs[id].status.Cancelled? || s'.jobs[id].status.Superseded?)
  {
  }

  lemma StaysTerminal(j: Job, k: Job)
    requires Evolves(j, k) && BarrierOk(k) && (j.status.Cancelled? || j.status.Superseded?)
    ensures !k.status.Active() && k.lease.None? && k.guard.None? && k.activeKey.None?
  {
  }
}
