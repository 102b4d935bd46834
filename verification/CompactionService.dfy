/**
 * The repository calls and the phase driver of one claimed job, in the form
 * the service runs them: reads and compare-and-set writes on shared documents,
 * with other actors moving at every await.
 *
 * `schedule` says what those actors do, and whether the await throws; every
 * method is proved for every schedule.  Each database access is recorded in
 * `trace` as one action of the protocol, so the theorems about its runs hold of
 * these methods.  In a calm run time passes at the awaits and nothing else happens;
 * what is said of one needs the lease to be live until its schedule runs out.
 */
module CompactionService {
  import opened CompactionTypes
  import opened JobCommands
  import opened Protocol
  import opened ProtocolInvariant
  import opened ProtocolSteps
  import opened ProtocolTheorems
  import opened ServiceSteps
  import opened MergeAttempts

  const MAX_MERGE_CAS_ATTEMPTS := 8
  const MAX_STATUS_CAS_ATTEMPTS := 4

  class ClaimedCompaction {
    const token: Token
    const id: JobId
    const maxAttempts: nat
    var jobs: map<JobId, Job>
    var docs: map<OwnerKey, ContextDoc>
    var runtimes: map<OwnerKey, Runtime>
    var workers: map<Token, Worker>
    var history: History
    var clock: Time
    var schedule: seq<Turn>
    ghost const origin: Sys
    ghost var trace: seq<Action>

    function Snapshot(): Sys
      reads this
    {
      Sys(maxAttempts, jobs, docs, runtimes, workers, history)
    }

    ghost predicate Valid()
      reads this
    {
      && Initial(origin) && Snapshot() == Run(origin, trace)
      && token in workers && workers[token].job == id
      && AllForeign(schedule, token)
    }

    function Main(): Main
      reads this
      requires token in workers
    {
      workers[token].main
    }

    predicate Calm()
      reads this`schedule
    {
      CalmTurns(schedule)
    }

    /** The clock when the schedule has run out. */
    function Horizon(): Time
      reads this`schedule, this`clock
    {
      clock + Elapse(schedule)
    }

    /** This claim's lease on the job is live, and will be until then. */
    predicate Held()
      reads this`jobs, this`schedule, this`clock
    {
      id in jobs && LiveLease(jobs[id], token, Horizon())
    }

    twostate predicate StaysCalm()
      reads this
    {
      Calm() && Horizon() == old(Horizon())
    }

    /** Nothing but the call's own steps has happened, and it has changed no document. */
    twostate predicate Unmoved()
      reads this
    {
      && jobs == old(jobs) && docs == old(docs) && runtimes == old(runtimes) && history == old(history)
      && StaysCalm()
    }

    lemma Facts()
      requires Valid()
      ensures Inv(Snapshot()) && id in jobs && jobs[id].id == id && JobOk(jobs[id]) && WorkerOk(Snapshot(), token)
    {
      hide Inv, Initial, JobOk, WorkerOk;
      RunKeeps(origin, trace);
      Extract(Snapshot(), token);
    }

    // ------------------------------------------------------------ one access

    /** Record an own access whose document effect has just been made. */
    method Record(before: Sys, move: Move)
      requires Initial(origin) && before == Run(origin, trace) && before.maxAttempts == maxAttempts
      requires token in before.workers && before.workers[token].job == id && AllForeign(schedule, token)
      requires var after := Next(before, Do(token, move, clock));
        jobs == after.jobs && docs == after.docs && runtimes == after.runtimes
      modifies this`workers, this`history, this`trace
      ensures Valid() && Snapshot() == Next(before, Do(token, move, clock))
      ensures trace == old(trace) + [Do(token, move, clock)]
    {
      var a := Do(token, move, clock);
      var after := Next(before, a);
      MoveKeepsShape(before, token, move, clock);
      workers, history := after.workers, after.history;
      trace := trace + [a];
      assert trace[..|trace| - 1] == old(trace);
      hide Next, Initial;
    }

    /** An own access that only reads, or whose filter matches nothing. */
    method Step(move: Move)
      requires Valid()
      requires var after := Next(Snapshot(), Do(token, move, clock));
        after.jobs == jobs && after.docs == docs && after.runtimes == runtimes
      modifies this`workers, this`history, this`trace
      ensures Valid() && Snapshot() == Next(old(Snapshot()), Do(token, move, clock))
      ensures trace == old(trace) + [Do(token, move, clock)]
    {
      Record(Snapshot(), move);
    }

    /** Let the other actors move; nothing they do is an access of this claim's main thread. */
    method Suspend() returns (r: Pause)
      requires Valid()
      modifies this
      ensures Valid() && old(trace) <= trace && clock >= old(clock)
      ensures Main() == old(Main()) && workers[token].known == old(workers[token].known)
      ensures forall i :: |old(trace)| <= i < |trace| ==> Foreign(trace[i], token)
      ensures schedule == AfterTurn(old(schedule)) && trace == old(trace) + OfTurn(old(schedule))
      ensures clock == old(ClockAfter(clock, schedule, 1)) && Horizon() == old(Horizon())
      ensures r.Resumed? <==> old(schedule) == [] || old(schedule)[0].fault.None?
      ensures old(Calm()) ==> r.Resumed? && Unmoved() && workers == old(workers) && trace == old(trace)
    {
      if schedule == [] {
        return Resumed;
      }
      var turn := schedule[0];
      assert forall k :: 0 <= k < |turn.actions| ==> Foreign(turn.actions[k], token);
      clock := clock + turn.elapsed;
      AdoptAll(turn.actions);
      schedule := schedule[1..];
      r := if turn.fault.Some? then Interrupted(turn.fault.value) else Resumed;
    }

    /** What other actors do during one await. */
    method AdoptAll(actions: seq<Action>)
      requires Valid() && forall k :: 0 <= k < |actions| ==> Foreign(actions[k], token)
      modifies this`jobs, this`docs, this`runtimes, this`workers, this`history, this`trace
      ensures Valid() && trace == old(trace) + actions
      ensures Main() == old(Main()) && workers[token].known == old(workers[token].known)
      ensures actions == [] ==> unchanged(this)
    {
      var i := 0;
      while i < |actions|
        invariant Valid() && i <= |actions| && trace == old(trace) + actions[..i]
        invariant Main() == old(Main()) && workers[token].known == old(workers[token].known)
        invariant i == 0 ==> unchanged(this)
      {
        Adopt(actions[i]);
        i := i + 1;
        hide Valid, Foreign;
      }
    }

    /** Another actor's access. */
    method Adopt(a: Action)
      requires Valid() && Foreign(a, token)
      modifies this`jobs, this`docs, this`runtimes, this`workers, this`history, this`trace
      ensures Valid() && Snapshot() == Next(old(Snapshot()), a) && trace == old(trace) + [a]
      ensures Main() == old(Main()) && workers[token].known == old(workers[token].known)
    {
      var after := Next(Snapshot(), a);
      ForeignSparesMain(Snapshot(), a, token);
      NextKeepsMax(Snapshot(), a);
      jobs, docs, runtimes, workers, history := after.jobs, after.docs, after.runtimes, after.workers, after.history;
      trace := trace + [a];
      assert trace[..|trace| - 1] == old(trace);
      hide Next, Initial;
    }

    // ----------------------------------------------------- lease-filtered writes

    /** One `updateOne` under the lease filter. */
    method Update(c: LeaseCommand) returns (ok: bool)
      requires Valid() && Permitted(Snapshot(), workers[token], c) && id in jobs && jobs[id].id == id
      modifies this`jobs, this`workers, this`history, this`trace
      ensures Valid() && Main().Idle? && workers[token].known == old(workers[token].known)
      ensures trace == old(trace) + [Do(token, Write(c), clock)]
      ensures ok == Leased(old(jobs[id]), token, clock, c).Some?
      ensures ok <==> EffectAt(origin, trace, |old(trace)|, token, id, Write(c))
      ensures jobs == if ok then old(jobs)[id := Leased(old(jobs[id]), token, clock, c).value] else old(jobs)
    {
      var before := Snapshot();
      var updated := Leased(jobs[id], token, clock, c);
      ok := updated.Some?;
      LeaseWriteParts(before, token, c, clock);
      if ok {
        jobs := jobs[id := updated.value];
      }
      hide Leased, Permitted, LeaseWrite, Run, Initial;
      Record(before, Write(c));
      assert At(origin, trace, |old(trace)|) == before by {
        assert trace[..|old(trace)|] == old(trace);
      }
      assert ok <==> EffectAt(origin, trace, |old(trace)|, token, id, Write(c));
    }

    /**
     * One attempt of a status transition: a read of the job under the filter with
     * the clock it was built with, then a compare-and-set on the revision that was
     * read, with a fresh clock.  `None` is a compare-and-set that failed; `at` is
     * the clock of the filter that decided.
     */
    method TryTransition(c: LeaseCommand, asked: Time, ghost since: nat)
      returns (r: Attempt<Option<bool>>, ghost at: Time)
      requires Valid() && Permitted(Snapshot(), workers[token], c) && since <= |trace| && asked <= clock
      modifies this
      ensures Valid() && old(trace) <= trace && clock >= old(clock) && asked <= at <= clock
      ensures workers[token].known == old(workers[token].known)
      ensures r == Ok(Some(true)) ==> Main().Idle? && TookEffect(origin, trace, since, token, id, Write(c))
      ensures r != Ok(Some(true)) ==>
        && Main() == old(Main())
        && TookEffect(origin, trace, since, token, id, Write(c))
           == old(TookEffect(origin, trace, since, token, id, Write(c)))
      ensures r.Ok? && r.value != Some(true) ==> Permitted(Snapshot(), workers[token], c)
      ensures old(Calm()) ==>
        && r.Ok? && StaysCalm() && docs == old(docs) && runtimes == old(runtimes) && old(id in jobs)
        && (r.value == Some(true) <==> Leased(old(jobs[id]), token, at, c).Some?)
        && jobs == (if r.value == Some(true) then old(jobs)[id := Leased(old(jobs[id]), token, at, c).value]
                    else old(jobs))
        && (r.value != Some(true) ==> workers == old(workers))
    {
      hide Valid, Leased, Permitted, Next, EffectAt, TookEffect, CalmTurns, Elapse, ClockAfter, Calm, Horizon;
      JobHere();
      at := asked;
      :- AwaitUntil(Write(c), since);
      PermittedSame(old(Snapshot()), Snapshot(), old(workers[token]), workers[token], c);
      if Leased(jobs[id], token, asked, c).None? {
        return Ok(Some(false)), at;
      }
      var revision := jobs[id].statusRevision;
      var sent;
      sent, at := CompareAndSet(c, revision, since);
      var written :- sent;
      r := Ok(if written then Some(true) else None);
    }

    method CompareAndSet(c: LeaseCommand, revision: nat, ghost since: nat) returns (r: Attempt<bool>, ghost at: Time)
      requires Valid() && Permitted(Snapshot(), workers[token], c) && since <= |trace|
      modifies this
      ensures Valid() && old(trace) <= trace && old(clock) <= at <= clock
      ensures token in workers && workers[token].known == old(workers[token].known)
      ensures r == Ok(true) ==> Main().Idle? && TookEffect(origin, trace, since, token, id, Write(c))
      ensures r != Ok(true) ==>
        && Main() == old(Main())
        && TookEffect(origin, trace, since, token, id, Write(c))
           == old(TookEffect(origin, trace, since, token, id, Write(c)))
      ensures r == Ok(false) ==> Permitted(Snapshot(), workers[token], c)
      ensures old(Calm()) ==>
        && r.Ok? && StaysCalm() && docs == old(docs) && runtimes == old(runtimes) && old(id in jobs)
        && (r.value ==> Leased(old(jobs[id]), token, at, c).Some?) && (!r.value ==> workers == old(workers))
        && (old(jobs[id]).statusRevision == revision ==> r.value == Leased(old(jobs[id]), token, at, c).Some?)
        && jobs == (if r.value then old(jobs)[id := Leased(old(jobs[id]), token, at, c).value] else old(jobs))
    {
      hide Valid, Leased, Permitted, Next, EffectAt, TookEffect, CalmTurns, Elapse, ClockAfter, Calm, Horizon;
      JobHere();
      at := clock;
      :- AwaitUntil(Write(c), since);
      at := clock;
      PermittedSame(old(Snapshot()), Snapshot(), old(workers[token]), workers[token], c);
      if jobs[id].statusRevision != revision || Leased(jobs[id], token, clock, c).None? {
        return Ok(false), at;
      }
      ghost var before := trace;
      var ok := Update(c);
      JobHere();
      OneMoreAction(origin, before, trace, since, token, id, Write(c));
      r := Ok(true);
    }

    /**
     * Advance the job's status by compare-and-set on its status revision, reading
     * it again when that failed.
     */
    method Transition(c: LeaseCommand) returns (r: Attempt<bool>, ghost at: Time)
      requires Valid() && Permitted(Snapshot(), workers[token], c)
      modifies this
      ensures Valid() && old(trace) <= trace && old(clock) <= at <= clock
      ensures r.Ok? ==> Main().Idle? && workers[token].known == old(workers[token].known)
      ensures r.Ok? && r.value ==> TookEffect(origin, trace, |old(trace)|, token, id, Write(c))
      ensures r != Ok(true) ==> !TookEffect(origin, trace, |old(trace)|, token, id, Write(c))
      ensures old(Calm()) ==>
        && r.Ok? && StaysCalm() && docs == old(docs) && runtimes == old(runtimes)
        && old(id in jobs && jobs[id].id == id)
        && r.value == Leased(old(jobs[id]), token, at, c).Some?
        && jobs == if r.value then old(jobs)[id := Leased(old(jobs[id]), token, at, c).value] else old(jobs)
    {
      hide Valid, Leased, Permitted, Next, EffectAt, TookEffect, CalmTurns, Elapse, Calm, Horizon;
      JobHere();
      var attempt, asked := 0, clock;
      ghost var start := |trace|;
      at := clock;
      NothingYet(origin, trace, token, id, Write(c));
      while attempt < MAX_STATUS_CAS_ATTEMPTS
        invariant Valid() && old(trace) <= trace && !TookEffect(origin, trace, start, token, id, Write(c))
        invariant token in workers && workers[token].known == old(workers[token].known)
        invariant Permitted(Snapshot(), workers[token], c) && asked <= at <= clock
        invariant old(Calm()) ==>
          && StaysCalm() && docs == old(docs) && runtimes == old(runtimes) && jobs == old(jobs) && id in jobs
          && (attempt > 0 ==> Leased(jobs[id], token, at, c).None?)
      {
        var tried;
        tried, at := TryTransition(c, asked, start);
        JobHere();
        var written :- tried;
        if written == Some(true) {
          return Ok(true), at;
        } else if written == Some(false) {
          break;
        }
        attempt := attempt + 1;
      }
      ghost var before := trace;
      Abandon();
      LookHasNoEffect(origin, before, trace, start, token, id, Write(c));
      r := Ok(false);
    }

    lemma HeldIsLive()
      ensures clock <= Horizon() && (Held() ==> LiveHere())
    {
      hide Elapse;
    }

    lemma JobHere()
      requires Valid()
      ensures id in jobs && jobs[id].id == id && token in workers && workers[token].job == id
    {
      hide Inv, Initial, JobOk, WorkerOk, AllForeign, Run;
      Facts();
    }

    /** An await: the other actors move, and the call may be interrupted. */
    method Await() returns (r: Pause)
      requires Valid()
      modifies this
      ensures Valid() && old(trace) <= trace && clock >= old(clock)
      ensures token in workers && workers[token].job == id && id in jobs && jobs[id].id == id
      ensures Main() == old(Main()) && workers[token].known == old(workers[token].known)
      ensures schedule == AfterTurn(old(schedule)) && clock == old(ClockAfter(clock, schedule, 1))
      ensures old(Calm()) ==> r.Resumed? && Unmoved() && workers == old(workers) && trace == old(trace)
    {
      hide Initial, Run, AllForeign, Foreign, CalmTurns, Elapse, ClockAfter;
      r := Suspend();
      JobHere();
    }

    /** An await inside a call whose own access `move` is being watched for. */
    method AwaitUntil(move: Move, ghost since: nat) returns (r: Pause)
      requires Valid() && since <= |trace|
      modifies this
      ensures Valid() && old(trace) <= trace && clock >= old(clock)
      ensures token in workers && workers[token].job == id && id in jobs && jobs[id].id == id
      ensures Main() == old(Main()) && workers[token].known == old(workers[token].known)
      ensures TookEffect(origin, trace, since, token, id, move)
           == old(TookEffect(origin, trace, since, token, id, move))
      ensures old(Calm()) ==> r.Resumed? && Unmoved() && workers == old(workers) && trace == old(trace)
    {
      hide Initial, Run, AllForeign, Foreign, TookEffect, CalmTurns, Elapse, ClockAfter;
      r := Suspend();
      JobHere();
      ForeignHasNoEffect(origin, old(trace), trace, since, token, id, move);
    }

    predicate OnlyAppends()
      reads this`schedule
    {
      AppendTurns(schedule)
    }

    /** The turns still to come that append to this claim's context. */
    function Appends(): nat
      reads this`schedule
    {
      Appending(schedule, id.owner)
    }

    /** Other actors have done nothing but append to contexts, and this claim has written nothing. */
    twostate predicate OnlyGrown()
      reads this
    {
      && OnlyAppends() && Appends() <= old(Appends()) && Horizon() == old(Horizon())
      && jobs == old(jobs) && runtimes == old(runtimes) && old(trace) <= trace
      && GrownBy(old(docs), docs, id.owner, trace[|old(trace)|..])
    }

    /** An await of the owner merge. */
    method AwaitMerging(ghost since: nat) returns (r: Pause)
      requires Valid() && since <= |trace|
      modifies this
      ensures Valid() && old(trace) <= trace && clock >= old(clock)
      ensures token in workers && workers[token].job == id && id in jobs && jobs[id].id == id
      ensures Main() == old(Main()) && workers[token].known == old(workers[token].known)
      ensures TookEffect(origin, trace, since, token, id, ApplySwap)
           == old(TookEffect(origin, trace, since, token, id, ApplySwap))
      ensures Missed(origin, trace, since, token, id) == old(Missed(origin, trace, since, token, id))
      ensures old(Calm()) ==> r.Resumed? && Unmoved() && workers == old(workers) && trace == old(trace)
      ensures old(OnlyAppends()) ==>
        && r.Resumed? && OnlyGrown()
        && (AppendsTo(trace[|old(trace)|..], id.owner) ==> Appends() < old(Appends()))
    {
      hide AllForeign, Foreign, TookEffect, CalmTurns, Elapse, ClockAfter, MissesAt, GrownBy, AppendsTo;
      ghost var before := Snapshot();
      r := Suspend();
      JobHere();
      ForeignHasNoEffect(origin, old(trace), trace, since, token, id, ApplySwap);
      ForeignMissesNothing(origin, old(trace), trace, since, token, id);
      if old(OnlyAppends()) {
        TurnPasses(old(schedule), id.owner);
        assert trace[|old(trace)|..] == OfTurn(old(schedule));
        RunSplit(origin, old(trace), OfTurn(old(schedule)));
        AppendsGrow(before, OfTurn(old(schedule)), id.owner);
      }
      hide Run, Initial, AllAppends, AppendTurns, Appending;
    }

    /** Nothing persisted in the job before is taken back later. */
    twostate lemma Progress()
      requires old(Valid()) && Valid() && old(trace) <= trace
      ensures old(id in jobs) && id in jobs && Evolves(old(jobs[id]), jobs[id])
    {
      hide Inv, Initial, JobOk, WorkerOk, AllForeign, Run, Evolves;
      ghost var before, rest := old(trace), trace[|old(trace)|..];
      RunKeeps(origin, before);
      assert trace == before + rest;
      RunSplit(origin, before, rest);
      Extract(Run(origin, before), token);
      JobsEvolve(Run(origin, before), rest, id);
    }

    lemma ReplacementStored(since: nat, message: Message)
      requires Valid() && TookEffect(origin, trace, since, token, id, Write(Prepare(message)))
      ensures id in jobs && jobs[id].replacement == Some(message)
    {
      hide Initial, TookEffect, Run, AllForeign;
      ghost var j, now := EffectLasts(origin, trace, since, token, id, Prepare(message));
      EvolvedFields(Leased(j, token, now, Prepare(message)).value, jobs[id]);
    }

    // ------------------------------------------------------ repository calls

    /** A read, or a decision on what was read: only where the claim stands changes. */
    method Look(move: Move)
      requires Valid() && IsRead(move) && (Starts(move) ==> Main().Idle?) && id in jobs
      modifies this`workers, this`trace
      ensures Valid() && token in workers && workers[token].job == id && trace == old(trace) + [Do(token, move, clock)]
      ensures Main() == old(Read(Snapshot(), token, move, clock))
      ensures workers[token].known == old(workers[token].known)
    {
      var before := Snapshot();
      LookParts(before, token, move, clock);
      workers := workers[token := workers[token].(main := Read(before, token, move, clock))];
      trace := trace + [Do(token, move, clock)];
      assert trace[..|trace| - 1] == old(trace);
      hide Read, Initial, Next;
    }

    predicate LiveHere()
      reads this`jobs, this`clock
    {
      id in jobs && LiveLease(jobs[id], token, clock)
    }

    /** `clearOwnerFence`: drop this claim's fence if the context still carries it. */
    method ClearOwnerFence() returns (r: Pause)
      requires Valid() && Main().Idle?
      modifies this
      ensures Valid() && old(trace) <= trace && clock >= old(clock) && (r.Resumed? ==> Main().Idle?)
      ensures old(Calm()) ==>
        && r.Resumed? && StaysCalm() && jobs == old(jobs) && runtimes == old(runtimes)
        && docs == WithoutFence(old(docs), id, token)
    {
      hide Initial, Run, AllForeign, CalmTurns, Elapse, ClockAfter;
      r := Await();
      if r.Resumed? {
        Adopt(ClearFence(id.owner, id, token));
      }
    }

    /** Install the lease token as the context's fence. */
    method Establish() returns (r: Attempt<bool>)
      requires Valid() && Main().Idle?
      modifies this
      ensures Valid() && old(trace) <= trace && clock >= old(clock) && (r.Ok? ==> Main().Idle?)
      ensures r.Ok? ==> workers[token].known == old(workers[token].known)
      ensures old(Calm()) ==>
        && r.Ok? && StaysCalm() && jobs == old(jobs) && runtimes == old(runtimes)
        && old(id in jobs)
        && r.value == (LiveLease(old(jobs[id]), token, old(ClockAfter(clock, schedule, 1))) && id.owner in old(docs)
                       && FenceReusable(old(docs)[id.owner], id, token, old(ClockAfter(clock, schedule, 2))))
        && docs == if r.value
                   then old(docs)[id.owner := old(docs)[id.owner].(
                          fence := Some(Fence(id, token, old(jobs[id]).lease.value.expiresAt)))]
                   else old(docs)
    {
      hide Initial, Run, AllForeign, Foreign, Next, CalmTurns, Elapse, ClockAfter;
      ClockAfterTwo(clock, schedule);
      :- Await();
      EstablishReads(Snapshot(), token, clock);
      Look(EstablishRead);
      if Main().Idle? {
        return Ok(false);
      }
      r := WriteFence();
    }

    /** The write that takes the context's fence, if none is live. */
    method WriteFence() returns (r: Attempt<bool>)
      requires Valid() && Main().Establishing?
      modifies this
      ensures Valid() && old(trace) <= trace && clock >= old(clock) && (r.Ok? ==> Main().Idle?)
      ensures r.Ok? ==> workers[token].known == old(workers[token].known)
      ensures old(Calm()) ==>
        && r.Ok? && StaysCalm() && jobs == old(jobs) && runtimes == old(runtimes)
        && r.value == (id.owner in old(docs)
                       && FenceReusable(old(docs)[id.owner], id, token, old(ClockAfter(clock, schedule, 1))))
        && docs == if r.value
                   then old(docs)[id.owner := old(docs)[id.owner].(
                          fence := Some(Fence(id, token, old(Main().expiresAt))))]
                   else old(docs)
    {
      hide Initial, Run, AllForeign, Foreign, Next, CalmTurns, Elapse, ClockAfter, FenceReusable;
      var expiresAt := Main().expiresAt;
      :- Await();
      var before, o := Snapshot(), id.owner;
      EstablishParts(before, token, clock);
      var matched := o in docs && FenceReusable(docs[o], id, token, clock);
      if matched {
        docs := docs[o := docs[o].(fence := Some(Fence(id, token, expiresAt)))];
      }
      Record(before, EstablishWrite);
      r := Ok(matched);
    }

    // --------------------------------------------------------- summary phase

    /** `beginCompactionSummary`: a replay that finds the job summarizing is a no-op. */
    method BeginSummary() returns (r: Attempt<bool>)
      requires Valid() && Main().Idle? && workers[token].known.summary.None?
      modifies this
      ensures Valid() && old(trace) <= trace && clock >= old(clock) && (r.Ok? ==> Main().Idle?)
      ensures old(Calm()) && old(Held() && jobs[id].id == id && jobs[id].summary.None?) ==>
        && r == Ok(old(jobs[id]).status.Queued? || old(jobs[id]).status.Retryable? || old(jobs[id]).status.Summarizing?)
        && StaysCalm() && docs == old(docs) && runtimes == old(runtimes)
        && (r.value ==> id in jobs && jobs[id] == AfterBegin(old(jobs[id])))
    {
      hide Initial, Run, AllForeign, Foreign, Next, TookEffect, EffectAt, CalmTurns, Elapse, ClockAfter;
      JobHere();
      ghost var job, start, until := jobs[id], clock, Horizon();
      var sent, at := Transition(Begin);
      WhileHeld(job, token, start, at, until, Begin);
      var begun :- sent;
      if begun {
        return Ok(true);
      }
      :- Await();
      r := Ok(LiveHere() && jobs[id].status.Summarizing?);
    }

    /** `saveCompactionSummary`. */
    method SaveSummary(summary: string) returns (r: Attempt<bool>)
      requires Valid() && Main().Idle?
      modifies this
      ensures Valid() && old(trace) <= trace && clock >= old(clock) && (r.Ok? ==> Main().Idle?)
      ensures Blank(summary) ==> r == Thrown(Ordinary) && unchanged(this)
      ensures old(Calm()) && !Blank(summary) && old(Held() && jobs[id].id == id && jobs[id].status.Summarizing?) ==>
        && r == Ok(true) && StaysCalm() && docs == old(docs) && runtimes == old(runtimes)
        && id in jobs && jobs[id] == JobCommands.Transition(old(jobs[id]).(summary := Some(summary)), SummaryReady)
    {
      hide Initial, Run, AllForeign, Foreign, Next, TookEffect, EffectAt, Blank, CalmTurns, Elapse, ClockAfter;
      if Blank(summary) {
        return Thrown(Ordinary);
      }
      JobHere();
      ghost var job, start, until := jobs[id], clock, Horizon();
      var sent, at := Transition(Save(summary));
      WhileHeld(job, token, start, at, until, Save(summary));
      var saved :- sent;
      if saved {
        return Ok(true);
      }
      :- Await();
      r := Ok(LiveHere() && jobs[id].status.SummaryReady?);
    }

    // ----------------------------------------------------- replacement phase

    /** `prepareDurableMergeContext`: freeze the merge-time projection and context once. */
    method PrepareContext(projection: Option<string>) returns (r: Attempt<Option<Job>>)
      requires Valid() && Main().Idle?
      modifies this
      ensures Valid() && old(trace) <= trace && clock >= old(clock) && (r.Ok? ==> Main().Idle?)
      ensures r.Ok? && r.value.Some? ==> id in jobs && Evolves(r.value.value, jobs[id])
      ensures old(Calm()) && old(Held() && jobs[id].replacement.None? && Mergeable(jobs[id].status)) ==>
        && StaysCalm() && docs == old(docs) && runtimes == old(runtimes)
        && id in jobs && jobs[id] == old(WithMergeContext(jobs[id], id.owner, runtimes, projection))
        && r == Ok(Some(jobs[id]))
        && (old(jobs[id]).mergeFreeze.None? ==>
              && jobs[id].mergeFreeze.Some? && jobs[id].mergeFreeze.value.projection == projection
              && Succeeds(old(jobs[id]).projectContext, ContextOf(old(runtimes), id.owner), projection,
                          jobs[id].mergeFreeze.value.context))
    {
      hide Valid, Evolves, WithMergeContext, Succeeds, ContextOf, CalmTurns, Elapse, ClockAfter, Calm, Horizon;
      JobHere();
      if jobs[id].mergeFreeze.None? {
        FrozenNowSucceeds(jobs[id], id.owner, runtimes, projection);
      }
      r := ReadOrFreeze(projection);
    }

    /** A context frozen before stands; otherwise the reads and the write of a new one follow. */
    method ReadOrFreeze(projection: Option<string>) returns (r: Attempt<Option<Job>>)
      requires Valid() && Main().Idle?
      modifies this
      ensures Valid() && old(trace) <= trace && clock >= old(clock) && (r.Ok? ==> Main().Idle?)
      ensures r.Ok? && r.value.Some? ==> id in jobs && Evolves(r.value.value, jobs[id])
      ensures old(Calm()) && old(Held() && jobs[id].replacement.None? && Mergeable(jobs[id].status)) ==>
        && StaysCalm() && docs == old(docs) && runtimes == old(runtimes)
        && id in jobs && jobs[id] == old(WithMergeContext(jobs[id], id.owner, runtimes, projection))
        && r == Ok(Some(jobs[id]))
    {
      hide Valid, Next, Evolves, Read, WithMergeContext, Leased, CalmTurns, Elapse, ClockAfter;
      :- Await();
      EvolvesRefl(jobs[id]);
      FreezeReads(Snapshot(), token, clock, projection);
      var j := jobs[id];
      var readable := LiveHere() && (Mergeable(j.status) || j.status.MergePrepared?);
      Look(FreezeStart);
      if !readable {
        return Ok(None);
      }
      if j.replacement.Some? || j.mergeFreeze.Some? {
        return Ok(Some(j));
      }
      r := FreezeContext(projection);
    }

    /** The reads of workspace and runtime, and the write that freezes what they found. */
    method FreezeContext(projection: Option<string>) returns (r: Attempt<Option<Job>>)
      requires Valid() && Main().Freezing?
      modifies this
      ensures Valid() && old(trace) <= trace && clock >= old(clock) && (r.Ok? ==> Main().Idle?)
      ensures r.Ok? && r.value.Some? ==> id in jobs && Evolves(r.value.value, jobs[id])
      ensures old(Calm()) && old(Held() && Main() == Freezing(jobs[id])
                && jobs[id].replacement.None? && jobs[id].mergeFreeze.None? && Mergeable(jobs[id].status)) ==>
        && StaysCalm() && docs == old(docs) && runtimes == old(runtimes)
        && id in jobs && jobs[id] == old(WithMergeContext(jobs[id], id.owner, runtimes, projection))
        && r == Ok(Some(jobs[id]))
    {
      hide Valid, Next, Evolves, Read, WithMergeContext, MergeFreezeOf, RuntimeOf, LiveLease;
      hide CalmTurns, Elapse, ClockAfter;
      :- Await();
      FreezeReadsInputs(Snapshot(), token, projection, clock);
      Look(FreezeRead(projection));
      r := WriteFreeze(Main().freeze);
    }

    /** The first freeze to be written stands; a loser reads the winner's. */
    method WriteFreeze(freeze: MergeFreeze) returns (r: Attempt<Option<Job>>)
      requires Valid() && Main() == FreezeReady(freeze)
      modifies this
      ensures Valid() && old(trace) <= trace && clock >= old(clock) && (r.Ok? ==> Main().Idle?)
      ensures r.Ok? && r.value.Some? ==> id in jobs && Evolves(r.value.value, jobs[id])
      ensures old(Calm()) && old(Held()
                && jobs[id].replacement.None? && jobs[id].mergeFreeze.None? && Mergeable(jobs[id].status)) ==>
        && StaysCalm() && docs == old(docs) && runtimes == old(runtimes)
        && id in jobs && jobs[id] == old(jobs[id]).(mergeFreeze := Some(freeze)) && r == Ok(Some(jobs[id]))
    {
      hide Valid, Next, Evolves, Leased, EffectAt, Permitted, CalmTurns, Elapse, ClockAfter;
      :- Await();
      FreezeWrites(Snapshot(), token, clock, freeze);
      var frozen := Update(FreezeMerge(freeze));
      JobHere();
      EvolvesRefl(jobs[id]);
      if frozen {
        return Ok(Some(jobs[id]));
      }
      :- Await();
      EvolvesRefl(jobs[id]);
      r := Ok(if LiveHere() && Mergeable(jobs[id].status) then Some(jobs[id]) else None);
    }

    /** `prepareCompactionMerge`: store the replacement, or restore a stored equal one. */
    method PrepareMerge(message: Message) returns (r: Attempt<bool>)
      requires Valid() && Main().Idle?
      modifies this
      ensures Valid() && old(trace) <= trace && clock >= old(clock) && (r.Ok? ==> Main().Idle?)
      ensures r == Ok(true) ==> id in jobs && jobs[id].replacement == Some(message)
      ensures old(Calm()) && old(Held() && jobs[id].summary.Some? && Mergeable(jobs[id].status)) ==>
        && StaysCalm() && docs == old(docs) && runtimes == old(runtimes) && id in jobs
        && r == Ok(jobs[id].status.MergePrepared?)
        && jobs[id].status.MergePrepared? == Accepts(old(jobs[id]), message)
        && (r.value ==> jobs[id] == JobCommands.Transition(old(jobs[id]).(replacement := Some(message)), MergePrepared))
    {
      hide Valid, Next, TookEffect, EffectAt, Evolves, Leased, Read, Permitted, CalmTurns, Elapse, ClockAfter;
      :- Await();
      var j := jobs[id];
      PrepareReads(Snapshot(), token, clock, message);
      var readable := LiveHere() && (Mergeable(j.status) || j.status.MergePrepared?) && j.summary.Some?;
      Look(PrepareRead(message));
      if !readable {
        return Ok(false);
      }
      if j.status.MergePrepared? {
        return Ok(j.replacement == Some(message));
      }
      if j.replacement.Some? && j.replacement != Some(message) {
        return Ok(false);
      }
      r := StoreReplacement(j, message);
    }

    /** The write that stores a first replacement, or restores the status of a stored one. */
    method StoreReplacement(j: Job, message: Message) returns (r: Attempt<bool>)
      requires Valid() && Main() == Preparing(j, message) && id in jobs && jobs[id] == j
      requires j.replacement.None? || j.replacement == Some(message)
      modifies this
      ensures Valid() && old(trace) <= trace && clock >= old(clock) && (r.Ok? ==> Main().Idle?)
      ensures r == Ok(true) ==> id in jobs && jobs[id].replacement == Some(message)
      ensures old(Calm()) && old(Held()) && Mergeable(j.status) ==>
        && StaysCalm() && docs == old(docs) && runtimes == old(runtimes) && id in jobs
        && r == Ok(Accepts(j, message))
        && jobs[id] == if r.value then JobCommands.Transition(j.(replacement := Some(message)), MergePrepared) else j
    {
      hide Valid, Next, TookEffect, EffectAt, Evolves, Leased, Read, Permitted, CalmTurns, Elapse, ClockAfter;
      JobHere();
      PrepareWrites(Snapshot(), token, clock, message);
      HeldIsLive();
      ghost var start, asked, until := |trace|, clock, Horizon();
      ghost var at;
      hide LiveLease;
      if j.replacement.Some? {
        r, at := Transition(Restore);
        WhileHeld(j, token, asked, at, until, Restore);
        JobHere();
        Progress();
        EvolvedFields(j, jobs[id]);
      } else {
        r, at := Transition(Prepare(message));
        WhileHeld(j, token, asked, at, until, Prepare(message));
        JobHere();
        if r == Ok(true) {
          ReplacementStored(start, message);
        }
      }
    }

    // ----------------------------------------------------------- merge phase

    lemma RunHere()
      requires Valid()
      ensures Snapshot() == Run(origin, trace)
    {
    }

    /** An own access has been recorded: it appends nothing. */
    lemma StillGrown(before: seq<Action>, move: Move, now: Time, start: seq<Action>, from: map<OwnerKey, ContextDoc>)
      requires trace == before + [Do(token, move, now)] && start <= before
      ensures AppendedBy(trace[|start|..], id.owner) == AppendedBy(before[|start|..], id.owner)
      ensures GrownBy(from, docs, id.owner, before[|start|..]) ==> GrownBy(from, docs, id.owner, trace[|start|..])
    {
      OwnAppendsNothing(start, before, token, move, now, id.owner);
    }

    /** A read of the owner merge: it updates nothing, misses nothing and appends nothing. */
    method LookMerging(move: Move, ghost since: nat, ghost past: seq<Action>, ghost from: map<OwnerKey, ContextDoc>)
      requires Valid() && IsRead(move) && !move.ApplySwap? && (Starts(move) ==> Main().Idle?) && id in jobs
      requires since <= |trace| && past <= trace
      modifies this`workers, this`trace
      ensures Valid() && token in workers && workers[token].job == id && trace == old(trace) + [Do(token, move, clock)]
      ensures Main() == old(Read(Snapshot(), token, move, clock)) && old(Snapshot()) == Run(origin, old(trace))
      ensures TookEffect(origin, trace, since, token, id, ApplySwap)
           == old(TookEffect(origin, trace, since, token, id, ApplySwap))
      ensures Missed(origin, trace, since, token, id) == old(Missed(origin, trace, since, token, id))
      ensures GrownBy(from, docs, id.owner, old(trace)[|past|..]) ==> GrownBy(from, docs, id.owner, trace[|past|..])
    {
      hide Valid, Read, TookEffect, EffectAt, Missed, GrownBy, AppendedBy, Run, Next;
      ghost var before := trace;
      RunHere();
      Look(move);
      LookHasNoEffect(origin, before, trace, since, token, id, ApplySwap);
      MissedSame(origin, before, trace, since, token, id);
      StillGrown(before, move, clock, past, from);
    }

    lemma LeaseSeenGone(before: Sys, past: seq<Action>, since: nat)
      requires Valid() && trace == past + [Do(token, ApplyRead, clock)] && before == Run(origin, past)
      requires id in before.jobs && since <= |past|
      requires !(LiveLease(before.jobs[id], token, clock) && before.jobs[id].status.MergePrepared?)
      ensures Saw(origin, trace, since, token, id, LeaseGone)
    {
      hide Run, Initial, Saw;
      SeenHere(origin, past, Do(token, ApplyRead, clock), since, token, id, LeaseGone);
    }

    lemma PreparedJob()
      requires Valid() && id in jobs && jobs[id].status.MergePrepared?
      ensures jobs[id].replacement.Some? && jobs[id].frozen.messages != []
    {
      hide Inv, Initial, WorkerOk, AllForeign, Run, OutboxFaithful;
      Facts();
    }

    lemma AppliedIsRecorded()
      requires Valid() && id.owner in docs && docs[id.owner].lastApplied == Some(id)
      ensures id in history.swapped
    {
      hide Initial, AllForeign, Run;
      RunKeeps(origin, trace);
      AppliedWasSwapped(Snapshot(), id);
    }

    /** What the last recorded access did. */
    lemma EffectHere(before: Sys, past: seq<Action>, move: Move, now: Time)
      requires Valid() && trace == past + [Do(token, move, now)] && before == Run(origin, past)
      ensures EffectAt(origin, trace, |past|, token, id, move) <==> Effective(before, token, id, move, now)
    {
      assert trace[..|past|] == past;
      hide Run, Effective, Initial;
    }

    /** The job waits for its merge, the claim holds lease and fence to the end, and the context takes it. */
    predicate Takes()
      reads this`jobs, this`docs, this`schedule, this`clock
    {
      && Held() && jobs[id].id == id && jobs[id].status.MergePrepared? && jobs[id].replacement.Some?
      && id.owner in docs && FencedUntil(docs[id.owner], id, token, Horizon())
      && docs[id.owner].lastApplied != Some(id) && jobs[id].frozen.messages <= docs[id.owner].Active()
    }

    /** The prepared job, while this claim's lease on it is live. */
    method ReadPrepared() returns (r: Attempt<Option<Job>>)
      requires Valid() && Main().Idle?
      modifies this
      ensures Valid() && old(trace) <= trace && clock >= old(clock)
      ensures !TookEffect(origin, trace, |old(trace)|, token, id, ApplySwap)
      ensures Missed(origin, trace, |old(trace)|, token, id) == 0
      ensures r.Ok? ==> Main() == (if r.value.Some? then Applying(r.value.value) else Idle)
      ensures r.Ok? && r.value.Some? ==> r.value.value.id == id && r.value.value.replacement.Some?
      ensures r == Ok(None) ==> Saw(origin, trace, |old(trace)|, token, id, LeaseGone)
      ensures old(Calm()) && old(Held() && jobs[id].status.MergePrepared?) ==>
        && StaysCalm() && jobs == old(jobs) && runtimes == old(runtimes)
        && docs == old(docs) && r == Ok(Some(old(jobs[id])))
      ensures old(OnlyAppends()) && old(Held() && jobs[id].status.MergePrepared?) ==>
        OnlyGrown() && r == Ok(Some(old(jobs[id])))
    {
      hide Valid, Next, Read, TookEffect, EffectAt, Foreign, CalmTurns, Elapse, ClockAfter, LiveLease, Calm, Horizon;
      hide GrownBy, AppendsTo, AppendedBy, Missed, Saw, OnlyAppends, Appends;
      ghost var start := |trace|;
      NothingYet(origin, trace, token, id, ApplySwap);
      NothingMissed(origin, trace, token, id);
      :- AwaitMerging(start);
      HeldIsLive();
      var j := jobs[id];
      var live := LiveHere() && j.status.MergePrepared?;
      if live {
        PreparedJob();
      }
      ApplyReads(Snapshot(), token, clock);
      ghost var t0, before := trace, Snapshot();
      LookMerging(ApplyRead, start, old(trace), old(docs));
      if !live {
        LeaseSeenGone(before, t0, start);
      }
      r := Ok(if live then Some(j) else None);
    }
    /** What the context holds: the outcome it already decides, or the update to make. */
    method ReadContext(j: Job) returns (r: Attempt<Reading>)
      requires Valid() && Main() == Applying(j) && j.id == id && j.replacement.Some?
      modifies this
      ensures Valid() && old(trace) <= trace && clock >= old(clock)
      ensures !TookEffect(origin, trace, |old(trace)|, token, id, ApplySwap)
      ensures Missed(origin, trace, |old(trace)|, token, id) == 0
      ensures r.Ok? && r.value.Decided? ==>
        && Main().Idle? && !r.value.outcome.MergedOutcome? && !r.value.outcome.LostLease?
        && (r.value.outcome.AlreadyMerged? ==> id in history.swapped)
        && Explained(r.value.outcome, origin, trace, |old(trace)|, token, id)
      ensures r.Ok? && r.value.Fits? ==>
        && Main().Swapping? && Main().current == j && Main().revision == r.value.revision
        && j.frozen.messages <= Main().seen
        && r.value.next == [j.replacement.value] + Main().seen[|j.frozen.messages|..]
      ensures old(Calm()) ==>
        && StaysCalm() && jobs == old(jobs) && runtimes == old(runtimes)
        && docs == old(docs) && r == Ok(Decide(DocOf(docs, id.owner), j))
      ensures old(OnlyAppends()) && old(id.owner in docs && docs[id.owner].lastApplied != Some(id)
                && j.frozen.messages <= docs[id.owner].Active()) ==>
        && OnlyGrown() && r.Ok? && r.value.Fits? && docs[id.owner].revision == r.value.revision
        && Main().seen == docs[id.owner].Active()
    {
      hide Valid, Next, Read, TookEffect, EffectAt, Decide, CalmTurns, Elapse, ClockAfter, Calm, Horizon;
      hide GrownBy, AppendsTo, AppendedBy, Missed, Saw, OnlyAppends, Appends;
      ghost var start, from := |trace|, docs;
      NothingYet(origin, trace, token, id, ApplySwap);
      NothingMissed(origin, trace, token, id);
      :- AwaitMerging(start);
      ContextReads(Snapshot(), token, clock);
      FrozenAsRead(j);
      var snapshot := DocOf(docs, id.owner);
      DecideMeans(snapshot, j);
      StillFits(from, j, trace[start..]);
      if snapshot.Some? && snapshot.value.lastApplied == Some(id) {
        AppliedIsRecorded();
      }
      ghost var t0, before := trace, Snapshot();
      LookMerging(ApplySnapshot, start, old(trace), from);
      ContextSeen(before, t0, start, j);
      r := Ok(Decide(snapshot, j));
    }

    /** The prefix of the job that a merge has read is still the stored one's. */
    lemma FrozenAsRead(j: Job)
      requires Valid() && Main() == Applying(j)
      ensures id in jobs && jobs[id].frozen == j.frozen
    {
      hide Inv, Initial, AllForeign, Run, Unsurpassed, JobOk;
      Facts();
    }

    /** A context that took the job still does when it has only grown. */
    lemma StillFits(from: map<OwnerKey, ContextDoc>, j: Job, actions: seq<Action>)
      ensures GrownBy(from, docs, id.owner, actions) && id.owner in from && from[id.owner].lastApplied != Some(id)
              && j.frozen.messages <= from[id.owner].Active() ==>
        && id.owner in docs && docs[id.owner].lastApplied != Some(id) && docs[id.owner].fence == from[id.owner].fence
        && j.frozen.messages <= docs[id.owner].Active()
    {
      if GrownBy(from, docs, id.owner, actions) && id.owner in from && j.frozen.messages <= from[id.owner].Active() {
        PrefixStaysIn(from[id.owner], docs[id.owner], j.frozen.messages, AppendedBy(actions, id.owner));
      }
    }

    lemma ContextSeen(before: Sys, past: seq<Action>, since: nat, j: Job)
      requires Valid() && trace == past + [Do(token, ApplySnapshot, clock)] && before == Run(origin, past)
      requires id in before.jobs && before.jobs[id].frozen == j.frozen && since <= |past|
      requires before.docs == docs && j.replacement.Some? && j.id == id
      ensures var reading := Decide(DocOf(docs, id.owner), j);
        reading.Decided? ==> !reading.outcome.LostLease? && Explained(reading.outcome, origin, trace, since, token, id)
    {
      hide Run, Initial, Saw, Missed;
      if id.owner !in docs {
        SeenHere(origin, past, Do(token, ApplySnapshot, clock), since, token, id, ContextGone);
      } else if !(j.frozen.messages <= docs[id.owner].Active()) {
        SeenHere(origin, past, Do(token, ApplySnapshot, clock), since, token, id, OtherPrefix);
      }
    }

    /** One stretch in which other actors only appended, after another. */
    lemma GrownOn(from: map<OwnerKey, ContextDoc>, middle: map<OwnerKey, ContextDoc>, start: seq<Action>, until: seq<Action>)
      requires start <= until <= trace
      ensures GrownBy(from, middle, id.owner, until[|start|..]) && GrownBy(middle, docs, id.owner, trace[|until|..]) ==>
        GrownBy(from, docs, id.owner, trace[|start|..])
    {
      hide GrownBy;
      if GrownBy(from, middle, id.owner, until[|start|..]) && GrownBy(middle, docs, id.owner, trace[|until|..]) {
        GrownOver(from, middle, docs, id.owner, start, until, trace);
      }
    }

    lemma ExplainedEarlier(outcome: Outcome, since: nat, later: nat)
      requires since <= later && Missed(origin, trace, later, token, id) == 0
      requires Explained(outcome, origin, trace, later, token, id)
      ensures Explained(outcome, origin, trace, since, token, id)
    {
      hide Saw, Missed;
      match outcome
      case LostLease => SawEarlier(origin, trace, since, later, token, id, LeaseGone);
      case OwnerMissing => SawEarlier(origin, trace, since, later, token, id, ContextGone);
      case Conflict => SawEarlier(origin, trace, since, later, token, id, OtherPrefix);
      case _ =>
    }

    /**
     * The context as it was in `from`, with exactly the frozen prefix replaced and everything appended since `past` at
     * its end.
     */
    ghost predicate Replaced(from: map<OwnerKey, ContextDoc>, past: seq<Action>)
      reads this`jobs, this`docs, this`trace
    {
      && id.owner in from && id.owner in docs && docs[id.owner].lastApplied == Some(id) && past <= trace
      && id in jobs && jobs[id].replacement.Some?
      && TailKept(from[id.owner], docs[id.owner], |jobs[id].frozen.messages|, jobs[id].replacement.value,
                  AppendedBy(trace[|past|..], id.owner))
    }

    lemma ReplacedOver(from: map<OwnerKey, ContextDoc>, middle: map<OwnerKey, ContextDoc>, start: seq<Action>,
                       until: seq<Action>)
      requires start <= until <= trace
      ensures GrownBy(from, middle, id.owner, until[|start|..]) && Replaced(middle, until) && id in jobs
              && id.owner in from && jobs[id].frozen.messages <= from[id.owner].Active() ==>
        Replaced(from, start)
    {
      if GrownBy(from, middle, id.owner, until[|start|..]) && Replaced(middle, until) && id.owner in from
         && jobs[id].frozen.messages <= from[id.owner].Active()
      {
        TailOver(from[id.owner], middle[id.owner], docs[id.owner], |jobs[id].frozen.messages|, jobs[id].replacement.value,
                 id.owner, start, until, trace);
      }
      hide TailKept, AppendedBy;
    }

    /** One attempt of the owner swap; `None` is a compare-and-set that lost its race. */
    method TrySwap() returns (r: Attempt<Option<Outcome>>)
      requires Valid() && Main().Idle?
      modifies this
      ensures Valid() && old(trace) <= trace && clock >= old(clock) && (r.Ok? ==> Main().Idle?)
      ensures r.Ok? ==> ((r.value.Some? && r.value.value.MergedOutcome?)
                           == TookEffect(origin, trace, |old(trace)|, token, id, ApplySwap))
      ensures r.Ok? && r.value.Some? && r.value.value.AlreadyMerged? ==> id in history.swapped
      ensures r.Ok? && r.value.Some? ==> Explained(r.value.value, origin, trace, |old(trace)|, token, id)
      ensures r.Ok? ==> Missed(origin, trace, |old(trace)|, token, id) == if r.value.None? then 1 else 0
      ensures old(Calm()) && old(Held() && jobs[id].id == id && jobs[id].status.MergePrepared?
                && jobs[id].replacement.Some?
                && (id.owner in docs ==> FencedUntil(docs[id.owner], id, token, Horizon()))) ==>
        && StaysCalm() && jobs == old(jobs) && runtimes == old(runtimes)
        && r == Ok(Some(SwapOutcome(old(docs), old(jobs[id]))))
        && docs == AfterSwap(old(docs), old(jobs[id]))
      ensures old(OnlyAppends()) && old(Takes()) ==>
        && r.Ok? && OnlyAppends() && Horizon() == old(Horizon()) && jobs == old(jobs) && runtimes == old(runtimes)
        && if r.value.None? then OnlyGrown() && Appends() < old(Appends())
           else r.value.value.MergedOutcome? && Replaced(old(docs), old(trace))
    {
      hide Valid, TookEffect, EffectAt, SwapOutcome, AfterSwap, Decide, CalmTurns, Elapse, ClockAfter, Calm, Horizon;
      hide GrownBy, AppendsTo, AppendedBy, Missed, Saw, OnlyAppends, Appends;
      ghost var start, from := trace, docs;
      var prepared :- ReadPrepared();
      JobHere();
      if prepared.None? {
        return Ok(Some(LostLease));
      }
      var j := prepared.value;
      ghost var t1, middle := trace, docs;
      StillFits(from, j, trace[|start|..]);
      ReadingDecides(docs, j);
      var reading :- ReadContext(j);
      JobHere();
      EffectsChain(origin, start, t1, trace, token, id, ApplySwap);
      MissedChain(origin, t1, trace, |start|, token, id);
      GrownOn(from, middle, start, t1);
      StillFits(middle, j, trace[|t1|..]);
      if reading.Decided? {
        ExplainedEarlier(reading.outcome, |start|, |t1|);
        return Ok(Some(reading.outcome));
      }
      ghost var t2, latest := trace, docs;
      r := Swap(reading.revision, reading.next);
      EffectsChain(origin, start, t2, trace, token, id, ApplySwap);
      MissedChain(origin, t2, trace, |start|, token, id);
      GrownOn(from, latest, start, t2);
      ReplacedOver(from, latest, start, t2);
    }

    /** An update that misses although only appends happened has lost to one of them. */
    lemma HeldFence(from: map<OwnerKey, ContextDoc>, past: seq<Action>, revision: nat)
      requires past <= trace
      ensures GrownBy(from, docs, id.owner, trace[|past|..]) && id.owner in from && from[id.owner].revision == revision
              && FencedUntil(from[id.owner], id, token, Horizon()) ==>
        && id.owner in docs && FencedUntil(docs[id.owner], id, token, clock)
        && (docs[id.owner].revision != revision ==> AppendsTo(trace[|past|..], id.owner))
        && (docs[id.owner].revision == revision ==> AppendedBy(trace[|past|..], id.owner) == [])
    {
      hide AppendsTo, AppendedBy;
    }

    /** What was appended after the update stands behind what it wrote. */
    lemma GrownAfter(written: map<OwnerKey, ContextDoc>, next: seq<Message>, past: seq<Action>, until: seq<Action>)
      requires past <= until <= trace && next != []
      ensures AppendedBy(until[|past|..], id.owner) == [] && GrownBy(written, docs, id.owner, trace[|until|..])
              && id.owner in written && written[id.owner].compacted == next ==>
        && id.owner in docs && docs[id.owner].lastApplied == written[id.owner].lastApplied
        && docs[id.owner].Active() == next + AppendedBy(trace[|past|..], id.owner)
    {
      hide GrownBy, AppendedBy;
      if && AppendedBy(until[|past|..], id.owner) == [] && GrownBy(written, docs, id.owner, trace[|until|..])
         && id.owner in written && written[id.owner].compacted == next
      {
        TailAfter(written, docs, id.owner, next, past, until, trace);
      }
    }

    /** The one `updateOne` of the merge. */
    method WriteSwap(revision: nat, next: seq<Message>, ghost since: nat, ghost past: seq<Action>,
                     ghost from: map<OwnerKey, ContextDoc>)
      returns (matched: bool)
      requires Valid() && Main().Swapping? && Main().revision == revision && Main().current.id == id
      requires Main().current.replacement.Some? && Main().current.frozen.messages <= Main().seen
      requires next == [Main().current.replacement.value] + Main().seen[|Main().current.frozen.messages|..]
      requires since <= |trace| && past <= trace && id in jobs && !TookEffect(origin, trace, since, token, id, ApplySwap)
      modifies this`docs, this`workers, this`history, this`trace
      ensures Valid() && Main().Idle? && trace == old(trace) + [Do(token, ApplySwap, clock)]
      ensures matched == (id.owner in old(docs) && old(docs)[id.owner].revision == revision
                          && FencedUntil(old(docs)[id.owner], id, token, clock))
      ensures docs == if matched then old(docs)[id.owner := old(docs)[id.owner].(
                        compacted := next, revision := revision + 1, lastApplied := Some(id), fence := None)]
                      else old(docs)
      ensures TookEffect(origin, trace, since, token, id, ApplySwap) == matched
      ensures Missed(origin, trace, since, token, id)
           == old(Missed(origin, trace, since, token, id)) + if matched then 0 else 1
      ensures AppendedBy(trace[|past|..], id.owner) == old(AppendedBy(trace[|past|..], id.owner))
      ensures GrownBy(from, old(docs), id.owner, old(trace)[|past|..]) && !matched ==>
        GrownBy(from, docs, id.owner, trace[|past|..])
    {
      hide Next, TookEffect, EffectAt, Initial, Run, AllForeign, GrownBy, AppendedBy, Missed;
      var before, o := Snapshot(), id.owner;
      SwapParts(before, token, clock);
      matched := o in docs && docs[o].revision == revision && FencedUntil(docs[o], id, token, clock);
      if matched {
        docs := docs[o := docs[o].(compacted := next, revision := revision + 1, lastApplied := Some(id), fence := None)];
      }
      ghost var t0 := trace;
      Record(before, ApplySwap);
      EffectHere(before, t0, ApplySwap, clock);
      OneMoreAction(origin, t0, trace, since, token, id, ApplySwap);
      MissedOneMore(origin, t0, Do(token, ApplySwap, clock), since, token, id);
      StillGrown(t0, ApplySwap, clock, past, from);
    }

    /** The owner update: revision, job and live fence token must all still match. */
    method Swap(revision: nat, next: seq<Message>) returns (r: Attempt<Option<Outcome>>)
      requires Valid() && Main().Swapping? && Main().revision == revision && Main().current.id == id
      requires Main().current.replacement.Some? && Main().current.frozen.messages <= Main().seen
      requires next == [Main().current.replacement.value] + Main().seen[|Main().current.frozen.messages|..]
      modifies this
      ensures Valid() && old(trace) <= trace && clock >= old(clock) && (r.Ok? ==> Main().Idle?)
      ensures r.Ok? ==> (r.value.Some? == TookEffect(origin, trace, |old(trace)|, token, id, ApplySwap))
      ensures r.Ok? ==> Missed(origin, trace, |old(trace)|, token, id) == if r.value.None? then 1 else 0
      ensures r.Ok? && r.value.Some? ==> r.value == Some(MergedOutcome(revision + 1))
      ensures old(Calm()) && old(id.owner in docs && docs[id.owner].revision == revision
                && FencedUntil(docs[id.owner], id, token, Horizon())) ==>
        && StaysCalm() && jobs == old(jobs) && runtimes == old(runtimes)
        && r == Ok(Some(MergedOutcome(revision + 1)))
        && docs == old(docs)[id.owner := old(docs)[id.owner].(
             compacted := next, revision := revision + 1, lastApplied := Some(id), fence := None)]
      ensures old(OnlyAppends()) && old(id.owner in docs && docs[id.owner].revision == revision
                && FencedUntil(docs[id.owner], id, token, Horizon())) ==>
        && r.Ok? && OnlyAppends() && Horizon() == old(Horizon()) && jobs == old(jobs) && runtimes == old(runtimes)
        && if r.value.None? then OnlyGrown() && Appends() < old(Appends())
           else
             && id.owner in docs && docs[id.owner].lastApplied == Some(id)
             && docs[id.owner].Active() == next + AppendedBy(trace[|old(trace)|..], id.owner)
    {
      hide Valid, Next, TookEffect, EffectAt, Foreign, CalmTurns, Elapse, ClockAfter;
      hide GrownBy, AppendsTo, AppendedBy, Missed, OnlyAppends, Appends, Calm, Horizon;
      ghost var start, from, past := |trace|, docs, trace;
      NothingYet(origin, trace, token, id, ApplySwap);
      NothingMissed(origin, trace, token, id);
      :- AwaitMerging(start);
      HeldIsLive();
      HeldFence(from, past, revision);
      var matched := WriteSwap(revision, next, start, past, from);
      if !matched {
        return Ok(None);
      }
      ghost var written := docs;
      ghost var t1 := trace;
      :- AwaitMerging(start);
      GrownAfter(written, next, past, t1);
      r := Ok(Some(MergedOutcome(revision + 1)));
    }

    /**
     * `applyPreparedMergeToOwner`: re-read and retry while appends win the race.
     * It reports `merged` exactly when its own update replaced the prefix; it gives
     * up only for what one of its reads saw, or after eight updates that missed.
     * Against appends alone, in up to seven of its awaits, it always merges, and
     * keeps everything they appended.
     */
    method ApplyToOwner() returns (r: Attempt<Outcome>)
      requires Valid() && Main().Idle?
      modifies this
      ensures Valid() && old(trace) <= trace && clock >= old(clock) && (r.Ok? ==> Main().Idle?)
      ensures r.Ok? ==> (r.value.MergedOutcome? == TookEffect(origin, trace, |old(trace)|, token, id, ApplySwap))
      ensures r.Ok? && r.value.AlreadyMerged? ==> id in history.swapped
      ensures r.Ok? ==> Explained(r.value, origin, trace, |old(trace)|, token, id)
      ensures old(Calm()) && old(Held() && jobs[id].id == id && jobs[id].status.MergePrepared?
                && jobs[id].replacement.Some?
                && (id.owner in docs ==> FencedUntil(docs[id.owner], id, token, Horizon()))) ==>
        && StaysCalm() && jobs == old(jobs) && runtimes == old(runtimes)
        && r == Ok(SwapOutcome(old(docs), old(jobs[id]))) && docs == AfterSwap(old(docs), old(jobs[id]))
      ensures old(OnlyAppends()) && old(Takes()) && old(Appends()) <= 7 ==>
        && r.Ok? && r.value.MergedOutcome? && Replaced(old(docs), old(trace))
        && OnlyAppends() && Horizon() == old(Horizon()) && jobs == old(jobs) && runtimes == old(runtimes)
    {
      hide Valid, TookEffect, EffectAt, SwapOutcome, AfterSwap, CalmTurns, Elapse, ClockAfter, Calm, Horizon, Saw;
      hide GrownBy, AppendsTo, AppendedBy, Missed, OnlyAppends, Appends, Replaced;
      ghost var start, from := trace, docs;
      NothingYet(origin, trace, token, id, ApplySwap);
      NothingMissed(origin, trace, token, id);
      NothingGrown();
      JobHere();
      var attempt := 0;
      while attempt < MAX_MERGE_CAS_ATTEMPTS
        invariant Valid() && token in workers && Main().Idle? && start <= trace && clock >= old(clock)
        invariant !TookEffect(origin, trace, |start|, token, id, ApplySwap)
        invariant Missed(origin, trace, |start|, token, id) == attempt <= MAX_MERGE_CAS_ATTEMPTS
        invariant attempt > 0 ==> !old(Calm() && Held() && jobs[id].id == id && jobs[id].status.MergePrepared?
                && jobs[id].replacement.Some?
                && (id.owner in docs ==> FencedUntil(docs[id.owner], id, token, Horizon())))
        invariant attempt == 0 ==> trace == start && unchanged(this)
        invariant old(OnlyAppends()) && old(Takes()) && old(Appends()) <= 7 ==>
          OnlyGrown() && Takes() && attempt + Appends() <= 7
      {
        ghost var before, middle := trace, docs;
        var tried :- TrySwap();
        JobHere();
        EffectsChain(origin, start, before, trace, token, id, ApplySwap);
        MissedChain(origin, before, trace, |start|, token, id);
        if tried.Some? {
          ExplainedEarlier(tried.value, |start|, |before|);
          ReplacedOver(from, middle, start, before);
          return Ok(tried.value);
        }
        GrownOn(from, middle, start, before);
        StillFits(middle, jobs[id], trace[|before|..]);
        attempt := attempt + 1;
      }
      :- AwaitMerging(|start|);
      :- AwaitMerging(|start|);
      JobHere();
      if id.owner in docs && docs[id.owner].lastApplied == Some(id) {
        AppliedIsRecorded();
        r := Ok(AlreadyMerged(Some(docs[id.owner].revision)));
      } else {
        r := Ok(Conflict);
      }
    }

    lemma NothingGrown()
      ensures GrownBy(docs, docs, id.owner, trace[|trace|..])
    {
    }

    // ------------------------------------------------------------ settlement

    /** The write that settles the runtime document, and the read that confirms it. */
    method SettleRuntimeDocument() returns (r: Attempt<bool>)
      requires Valid() && Main().SettlingRuntime? && Main().current.id == id
      modifies this
      ensures Valid() && old(trace) <= trace && clock >= old(clock)
      ensures r.Ok? ==> (if r.value then Main().SettleMarking? else Main().Idle?)
      ensures old(Calm()) && old(Pinned(docs, id)) ==>
        && StaysCalm() && jobs == old(jobs) && docs == old(docs) && r == Ok(true)
        && runtimes == AfterSettlement(old(runtimes), old(Main().current))
    {
      hide Valid, Next, Read, SettledRuntime, AfterSettlement, CalmTurns, Elapse, ClockAfter;
      var o := id.owner;
      if o.ConversationKey? {
        :- Await();
        if o !in runtimes {
          AbsenceParts(Snapshot(), token, clock);
          Step(SettleAbsent);
          return Ok(true);
        }
      }
      r := WriteSettlement();
    }

    method WriteSettlement() returns (r: Attempt<bool>)
      requires Valid() && Main().SettlingRuntime? && Main().current.id == id
      modifies this
      ensures Valid() && old(trace) <= trace && clock >= old(clock)
      ensures r.Ok? ==> (if r.value then Main().SettleMarking? else Main().Idle?)
      ensures old(Calm()) && old(Pinned(docs, id)) && old(id.owner.ConversationKey? ==> id.owner in runtimes) ==>
        && StaysCalm() && jobs == old(jobs) && docs == old(docs) && r == Ok(true)
        && runtimes == AfterSettlement(old(runtimes), old(Main().current))
    {
      hide Next, Read, SettledRuntime, Initial, Run, AllForeign, Foreign, CalmTurns, Elapse, ClockAfter;
      var o, j := id.owner, Main().current;
      :- Await();
      var before := Snapshot();
      SettlementParts(before, token, clock);
      var current := if o in runtimes then runtimes[o] else EMPTY_RUNTIME;
      var matched := current.lastSettled != Some(id) && if o.ConversationKey? then o in runtimes else Pinned(docs, id);
      if matched {
        runtimes := runtimes[o := SettledRuntime(current, j)];
      }
      Record(before, SettleRuntime);
      r := ConfirmSettlement();
    }

    /** The marker must name this job, whoever wrote it. */
    method ConfirmSettlement() returns (r: Attempt<bool>)
      requires Valid() && Main().SettleVerifying?
      modifies this
      ensures Valid() && old(trace) <= trace && clock >= old(clock)
      ensures r.Ok? ==> (if r.value then Main().SettleMarking? else Main().Idle?)
      ensures old(Calm()) ==>
        && StaysCalm() && jobs == old(jobs) && docs == old(docs) && runtimes == old(runtimes)
        && r == Ok(id.owner in runtimes && runtimes[id.owner].lastSettled == Some(id)
                   && (id.owner.AgentSessionKey? ==> Pinned(docs, id)))
    {
      hide Valid, Next, Read, CalmTurns, Elapse, ClockAfter;
      :- Await();
      VerifyReads(Snapshot(), token, clock);
      var o := id.owner;
      var settled := o in runtimes && runtimes[o].lastSettled == Some(id) && (o.AgentSessionKey? ==> Pinned(docs, id));
      Look(SettleVerify);
      r := Ok(settled);
    }

    /**
     * `settleAppliedCompactionRuntime`: settle the runtime once the owner swap is
     * seen, then mark the job.  `true` is never reported for an unmarked job.
     */
    method Settle() returns (r: Attempt<bool>)
      requires Valid() && Main().Idle?
      modifies this
      ensures Valid() && old(trace) <= trace && clock >= old(clock) && (r.Ok? ==> Main().Idle?)
      ensures r == Ok(true) ==> id in jobs && jobs[id].runtimeSettled
      ensures old(Calm())
              && old(Held() && jobs[id].id == id && jobs[id].status.MergePrepared? && Pinned(docs, id)) ==>
        && StaysCalm() && docs == old(docs) && r == Ok(true)
        && id in jobs && jobs[id] == old(jobs[id]).(runtimeSettled := true)
        && runtimes == (if old(jobs[id]).runtimeSettled then old(runtimes) else AfterSettlement(old(runtimes), old(jobs[id])))
    {
      hide Valid, Next, Read, AfterSettlement, Leased, EffectAt, Permitted, LiveLease, CalmTurns, Elapse, ClockAfter;
      :- Await();
      HeldIsLive();
      var j := jobs[id];
      var live := LiveHere() && j.status.MergePrepared?;
      if live {
        PreparedJob();
      }
      SettleReads(Snapshot(), token, clock);
      Look(SettleRead);
      if !live {
        return Ok(false);
      }
      if j.runtimeSettled {
        return Ok(true);
      }
      r := SettleFor(j);
    }

    method SettleFor(j: Job) returns (r: Attempt<bool>)
      requires Valid() && Main() == Settling(j) && j.id == id
      modifies this
      ensures Valid() && old(trace) <= trace && clock >= old(clock) && (r.Ok? ==> Main().Idle?)
      ensures r == Ok(true) ==> id in jobs && jobs[id].runtimeSettled
      ensures old(Calm())
              && old(Held() && jobs[id] == j && j.status.MergePrepared? && !j.runtimeSettled && Pinned(docs, id)) ==>
        && StaysCalm() && docs == old(docs) && r == Ok(true)
        && id in jobs && jobs[id] == j.(runtimeSettled := true) && runtimes == AfterSettlement(old(runtimes), j)
    {
      hide Valid, Next, Read, AfterSettlement, Leased, EffectAt, Permitted, LiveLease, CalmTurns, Elapse, ClockAfter;
      hide Calm, Horizon, Moved;
      :- Await();
      OwnerReads(Snapshot(), token, clock);
      var applied := Pinned(docs, id);
      Look(SettleOwner);
      if !applied {
        return Ok(false);
      }
      var written :- SettleRuntimeDocument();
      if !written {
        return Ok(false);
      }
      r := MarkSettledJob();
    }

    method MarkSettledJob() returns (r: Attempt<bool>)
      requires Valid() && Main().SettleMarking?
      modifies this
      ensures Valid() && old(trace) <= trace && clock >= old(clock) && (r.Ok? ==> Main().Idle?)
      ensures r == Ok(true) ==> id in jobs && jobs[id].runtimeSettled
      ensures old(Calm()) && old(Held() && jobs[id].status.MergePrepared? && !jobs[id].runtimeSettled) ==>
        && StaysCalm() && docs == old(docs) && runtimes == old(runtimes) && r == Ok(true)
        && id in jobs && jobs[id] == old(jobs[id]).(runtimeSettled := true)
    {
      hide Valid, Next, Leased, EffectAt, Permitted, CalmTurns, Elapse, ClockAfter;
      :- Await();
      MarkWrites(Snapshot(), token, clock);
      var marked := Update(MarkSettled);
      JobHere();
      if marked {
        return Ok(true);
      }
      :- Await();
      r := Ok(jobs[id].runtimeSettled);
    }

    // ---------------------------------------------------------- finalization

    /** `finalizeAppliedCompactionJob`: it reports a merge only of a merged job. */
    method Finalize() returns (r: Attempt<Outcome>)
      requires Valid() && Main().Idle?
      modifies this
      ensures Valid() && old(trace) <= trace && clock >= old(clock) && (r.Ok? ==> Main().Idle?)
      ensures r.Ok? && (r.value.MergedOutcome? || r.value.AlreadyMerged?) ==> id in jobs && jobs[id].status.Merged?
      ensures old(Calm()) && old(Held() && jobs[id].id == id && jobs[id].status.MergePrepared?
                && jobs[id].runtimeSettled && Pinned(docs, id)) ==>
        && StaysCalm() && runtimes == old(runtimes)
        && r == Ok(MergedOutcome(old(docs)[id.owner].revision))
        && id in jobs && jobs[id] == Finish(old(jobs[id]).(mergedContextRevision := Some(old(docs)[id.owner].revision)), Merged)
        && docs == WithoutFence(old(docs), id, token)
    {
      hide Valid, Next, Read, Leased, EffectAt, TookEffect, Permitted, Evolves, WithoutFence;
      hide CalmTurns, Elapse, ClockAfter;
      :- Await();
      var j := jobs[id];
      if j.status.Merged? {
        return Ok(AlreadyMerged(j.mergedContextRevision));
      }
      r := FinalizeLive(j);
    }

    method FinalizeLive(j: Job) returns (r: Attempt<Outcome>)
      requires Valid() && Main().Idle? && id in jobs && jobs[id] == j
      modifies this
      ensures Valid() && old(trace) <= trace && clock >= old(clock) && (r.Ok? ==> Main().Idle?)
      ensures r.Ok? && (r.value.MergedOutcome? || r.value.AlreadyMerged?) ==> id in jobs && jobs[id].status.Merged?
      ensures old(Calm()) && old(Held() && j.status.MergePrepared? && j.runtimeSettled && Pinned(docs, id)) ==>
        && StaysCalm() && runtimes == old(runtimes)
        && r == Ok(MergedOutcome(old(docs)[id.owner].revision))
        && id in jobs && jobs[id] == Finish(j.(mergedContextRevision := Some(old(docs)[id.owner].revision)), Merged)
        && docs == WithoutFence(old(docs), id, token)
    {
      hide Valid, Next, Read, Leased, EffectAt, TookEffect, Permitted, Evolves, WithoutFence;
      hide CalmTurns, Elapse, ClockAfter;
      :- Await();
      Progress();
      EvolvedFields(j, jobs[id]);
      FinalReads(Snapshot(), token, clock);
      var live := LiveHere() && jobs[id].status.MergePrepared?;
      Look(FinalRead);
      if !live {
        return Ok(LostLease);
      }
      r := FinalizeApplied(j);
    }

    method FinalizeApplied(j: Job) returns (r: Attempt<Outcome>)
      requires Valid() && Main().Finalizing? && (j.runtimeSettled ==> Main().current.runtimeSettled)
      modifies this
      ensures Valid() && old(trace) <= trace && clock >= old(clock) && (r.Ok? ==> Main().Idle?)
      ensures r.Ok? && (r.value.MergedOutcome? || r.value.AlreadyMerged?) ==> id in jobs && jobs[id].status.Merged?
      ensures old(Calm()) && j.runtimeSettled
              && old(Held() && jobs[id] == j && j.status.MergePrepared? && Pinned(docs, id)) ==>
        && StaysCalm() && runtimes == old(runtimes)
        && r == Ok(MergedOutcome(old(docs)[id.owner].revision))
        && id in jobs && jobs[id] == Finish(j.(mergedContextRevision := Some(old(docs)[id.owner].revision)), Merged)
        && docs == WithoutFence(old(docs), id, token)
    {
      hide Valid, Next, Read, WithoutFence, Finish, LiveLease, CalmTurns, Elapse, ClockAfter;
      var closing :- ReadClosing(j);
      JobHere();
      if closing.Stopped? {
        return Ok(closing.outcome);
      }
      r := MarkMergedJob(closing.revision);
    }

    /** The context must have this job applied, and the job its runtime settled. */
    method ReadClosing(j: Job) returns (r: Attempt<Closing>)
      requires Valid() && Main().Finalizing? && (j.runtimeSettled ==> Main().current.runtimeSettled)
      modifies this
      ensures Valid() && old(trace) <= trace && clock >= old(clock)
      ensures r.Ok? && r.value.Stopped? ==>
        Main().Idle? && !r.value.outcome.MergedOutcome? && !r.value.outcome.AlreadyMerged?
      ensures r.Ok? && r.value.Ready? ==> Main() == Finishing(r.value.revision)
      ensures old(Calm()) && j.runtimeSettled && old(Pinned(docs, id)) ==>
        && StaysCalm() && jobs == old(jobs) && docs == old(docs) && runtimes == old(runtimes)
        && r == Ok(Ready(old(docs)[id.owner].revision))
    {
      hide Valid, Next, Read, CalmTurns, Elapse, ClockAfter, Calm, Horizon, Moved;
      :- Await();
      FinalContextReads(Snapshot(), token, clock);
      var snapshot := DocOf(docs, id.owner);
      if snapshot.Some? && snapshot.value.lastApplied == Some(id) && !j.runtimeSettled {
        Look(Abort);
        return Ok(Stopped(Conflict));
      }
      Look(FinalSnapshot);
      if snapshot.None? {
        return Ok(Stopped(OwnerMissing));
      }
      if snapshot.value.lastApplied != Some(id) {
        return Ok(Stopped(Conflict));
      }
      r := Ok(Ready(snapshot.value.revision));
    }

    /** `markMergedWithFence`, then the removal of a fence a takeover reinstalled. */
    method MarkMergedJob(revision: nat) returns (r: Attempt<Outcome>)
      requires Valid() && Main() == Finishing(revision)
      modifies this
      ensures Valid() && old(trace) <= trace && clock >= old(clock) && (r.Ok? ==> Main().Idle?)
      ensures r.Ok? ==> r.value == LostLease || (r.value == MergedOutcome(revision) && id in jobs && jobs[id].status.Merged?)
      ensures old(Calm()) && old(Held() && jobs[id].status.MergePrepared? && jobs[id].runtimeSettled) ==>
        && StaysCalm() && runtimes == old(runtimes) && r == Ok(MergedOutcome(revision))
        && id in jobs && jobs[id] == Finish(old(jobs[id]).(mergedContextRevision := Some(revision)), Merged)
        && docs == WithoutFence(old(docs), id, token)
    {
      hide Valid, Next, Leased, EffectAt, TookEffect, Permitted, Evolves, CalmTurns, Elapse, ClockAfter;
      JobHere();
      MergeWrites(Snapshot(), token, clock, revision);
      ghost var start := |trace|;
      ghost var job, begun, until := jobs[id], clock, Horizon();
      var sent, at := Transition(MarkMerged(revision));
      WhileHeld(job, token, begun, at, until, MarkMerged(revision));
      var merged :- sent;
      JobHere();
      if !merged {
        return Ok(LostLease);
      }
      MergeStored(start, revision);
      label Stored:
      :- ClearOwnerFence();
      JobHere();
      Progress@Stored();
      EvolvedFields(old@Stored(jobs[id]), jobs[id]);
      r := Ok(MergedOutcome(revision));
    }

    lemma MergeStored(since: nat, revision: nat)
      requires Valid() && TookEffect(origin, trace, since, token, id, Write(MarkMerged(revision)))
      ensures id in jobs && jobs[id].status.Merged?
    {
      hide Initial, TookEffect, Run, AllForeign;
      ghost var j, now := EffectLasts(origin, trace, since, token, id, MarkMerged(revision));
      EvolvedFields(Leased(j, token, now, MarkMerged(revision)).value, jobs[id]);
    }

    /** `applyPreparedCompaction`: swap, settle, finalize. */
    method ApplyPrepared() returns (r: Attempt<Outcome>)
      requires Valid() && Main().Idle?
      modifies this
      ensures Valid() && old(trace) <= trace && clock >= old(clock) && (r.Ok? ==> Main().Idle?)
      ensures r.Ok? && (r.value.MergedOutcome? || r.value.AlreadyMerged?) ==> id in jobs && jobs[id].status.Merged?
      ensures old(Calm()) && old(Held() && jobs[id].id == id && jobs[id].status.MergePrepared?
                && jobs[id].replacement.Some?
                && (id.owner in docs ==> FencedUntil(docs[id.owner], id, token, Horizon()))) ==>
        && StaysCalm() && id in jobs
        && var j := old(jobs[id]);
        if id.owner in old(docs) && Appliable(old(docs)[id.owner], j) then
          && r.Ok? && r.value.MergedOutcome? && jobs[id] == MergedJob(j, r.value.contextRevision)
          && docs == WithoutFence(AfterSwap(old(docs), j), id, token)
          && runtimes == (if j.runtimeSettled then old(runtimes) else AfterSettlement(old(runtimes), j))
        else
          r == Ok(SwapOutcome(old(docs), j)) && jobs == old(jobs) && docs == old(docs) && runtimes == old(runtimes)
    {
      hide Valid, TookEffect, EffectAt, SwapOutcome, AfterSwap, AfterSettlement, WithoutFence;
      hide CalmTurns, Elapse, ClockAfter;
      JobHere();
      if jobs[id].replacement.Some? {
        AppliableDecides(docs, jobs[id]);
      }
      var applied :- ApplyToOwner();
      if !applied.MergedOutcome? && !applied.AlreadyMerged? {
        JobHere();
        return Ok(applied);
      }
      var settled :- Settle();
      if !settled {
        return Ok(LostLease);
      }
      r := Finalize();
    }

    // ---------------------------------------------------------- giving it up

    /** The job waits for a retry from a time during the call on, and the delay. */
    twostate predicate Released(j: Job, delay: Time)
      reads this
      requires id in jobs
    {
      exists at: Time :: old(clock) <= at <= clock && ReleasedAt(j, jobs[id], at, delay)
    }

    /** The job was failed after its last attempt, or waits for a retry. */
    twostate predicate Abandoned(j: Job, delay: Time)
      reads this
      requires id in jobs
    {
      exists at: Time :: old(clock) <= at <= clock && GivenUpAt(j, jobs[id], maxAttempts, at, delay)
    }

    /** `releaseCompactionForRetry`. */
    method ReleaseForRetry(delay: Time) returns (r: Attempt<bool>)
      requires Valid() && Permitted(Snapshot(), workers[token], Release(delay))
      modifies this
      ensures Valid() && old(trace) <= trace && clock >= old(clock) && (r.Ok? ==> Main().Idle?)
      ensures r == Ok(true) ==> TookEffect(origin, trace, |old(trace)|, token, id, Write(Release(delay)))
      ensures old(Calm()) && old(Held()) ==>
        && StaysCalm() && runtimes == old(runtimes) && r == Ok(true)
        && id in jobs && Released(old(jobs[id]), delay)
        && docs == WithoutFence(old(docs), id, token)
    {
      hide Valid, EffectAt, Permitted, WithoutFence, Leased, CalmTurns, Elapse, ClockAfter;
      JobHere();
      ghost var job, start, until := jobs[id], clock, Horizon();
      ghost var at;
      r, at := Transition(Release(delay));
      WhileHeld(job, token, start, at, until, Release(delay));
      JobHere();
      assert old(Calm()) && old(Held()) ==> ReleasedAt(job, jobs[id], at, delay);
      if r == Ok(true) {
        r := EndClaim(Release(delay), |old(trace)|);
      }
    }

    /** `failCompactionJob`. */
    method FailJob() returns (r: Attempt<bool>)
      requires Valid() && Permitted(Snapshot(), workers[token], Fail)
      modifies this
      ensures Valid() && old(trace) <= trace && clock >= old(clock) && (r.Ok? ==> Main().Idle?)
      ensures r == Ok(true) ==> TookEffect(origin, trace, |old(trace)|, token, id, Write(Fail))
      ensures old(Calm()) && old(Held()) ==>
        && StaysCalm() && runtimes == old(runtimes) && r == Ok(true)
        && id in jobs && jobs[id] == Finish(old(jobs[id]), Failed)
        && docs == WithoutFence(old(docs), id, token)
    {
      hide Valid, EffectAt, Permitted, WithoutFence, CalmTurns, Elapse, ClockAfter;
      JobHere();
      ghost var job, start, until := jobs[id], clock, Horizon();
      ghost var at;
      r, at := Transition(Fail);
      WhileHeld(job, token, start, at, until, Fail);
      JobHere();
      if r == Ok(true) {
        r := EndClaim(Fail, |old(trace)|);
      }
    }

    /** A released or ended job leaves no fence of this claim behind. */
    method EndClaim(c: LeaseCommand, ghost since: nat) returns (r: Attempt<bool>)
      requires Valid() && Main().Idle? && since <= |trace| && TookEffect(origin, trace, since, token, id, Write(c))
      modifies this
      ensures Valid() && old(trace) <= trace && clock >= old(clock) && (r.Ok? ==> r.value && Main().Idle?)
      ensures TookEffect(origin, trace, since, token, id, Write(c))
      ensures old(Calm()) ==>
        && StaysCalm() && jobs == old(jobs) && runtimes == old(runtimes) && r == Ok(true)
        && docs == WithoutFence(old(docs), id, token)
    {
      hide Valid, EffectAt, WithoutFence, CalmTurns, Elapse, ClockAfter;
      ghost var before := trace;
      var pause := ClearOwnerFence();
      JobHere();
      EffectsChain(origin, before[..since], before, trace, token, id, Write(c));
      :- pause;
      r := Ok(true);
    }

    /**
     * `failCompactionJobForMissingOwner`: it ends an orphaned job even after the
     * lease expired, but never one whose context still exists at the read.
     */
    method FailForMissingOwner() returns (r: Attempt<bool>)
      requires Valid() && Main().Idle?
      modifies this
      ensures Valid() && old(trace) <= trace && clock >= old(clock) && (r.Ok? ==> Main().Idle?)
      ensures r == Ok(true) ==> TookEffect(origin, trace, |old(trace)|, token, id, Write(FailOrphan))
      ensures old(Calm()) && old(id in jobs && jobs[id].LeasedBy(token) && jobs[id].status.Active()) ==>
        && StaysCalm() && runtimes == old(runtimes) && docs == old(docs) && id in jobs
        && r == Ok(id.owner !in docs)
        && if id.owner in docs then jobs == old(jobs) else jobs[id] == Finish(old(jobs[id]), Failed)
    {
      hide Valid, EffectAt, TookEffect, Next, Read, Finish, WithoutFence, LiveLease, CalmTurns, Elapse, ClockAfter;
      hide Calm, Horizon;
      :- Await();
      if !(jobs[id].LeasedBy(token) && jobs[id].status.Active()) {
        return Ok(false);
      }
      ghost var start := trace;
      r := EndIfOrphaned();
      EffectsChain(origin, old(trace), start, trace, token, id, Write(FailOrphan));
    }

    /** The read of the context, and the end of a job that has none. */
    method EndIfOrphaned() returns (r: Attempt<bool>)
      requires Valid() && Main().Idle?
      modifies this
      ensures Valid() && old(trace) <= trace && clock >= old(clock) && (r.Ok? ==> Main().Idle?)
      ensures r == Ok(true) ==> TookEffect(origin, trace, |old(trace)|, token, id, Write(FailOrphan))
      ensures old(Calm()) && old(id in jobs && jobs[id].LeasedBy(token) && jobs[id].status.Active()) ==>
        && StaysCalm() && runtimes == old(runtimes) && docs == old(docs) && id in jobs
        && r == Ok(id.owner !in docs)
        && if id.owner in docs then jobs == old(jobs) else jobs[id] == Finish(old(jobs[id]), Failed)
    {
      hide Valid, EffectAt, TookEffect, Next, Read, Finish, WithoutFence, LiveLease, CalmTurns, Elapse, ClockAfter;
      hide Calm, Horizon;
      NothingToClear(docs, id, token);
      ghost var start := trace;
      :- Await();
      OrphanReads(Snapshot(), token, clock);
      Look(OrphanRead);
      if id.owner in docs || Main().Idle? {
        return Ok(false);
      }
      ghost var before := trace;
      r := EndOrphan();
      EffectsChain(origin, start, before, trace, token, id, Write(FailOrphan));
    }

    method EndOrphan() returns (r: Attempt<bool>)
      requires Valid() && Main().Orphaning?
      modifies this
      ensures Valid() && old(trace) <= trace && clock >= old(clock) && (r.Ok? ==> Main().Idle?)
      ensures r == Ok(true) ==> TookEffect(origin, trace, |old(trace)|, token, id, Write(FailOrphan))
      ensures old(Calm()) && old(id in jobs && jobs[id].LeasedBy(token) && jobs[id].status.Active()) ==>
        && StaysCalm() && runtimes == old(runtimes) && id in jobs
        && r == Ok(true) && jobs[id] == Finish(old(jobs[id]), Failed) && docs == WithoutFence(old(docs), id, token)
    {
      hide Valid, EffectAt, TookEffect, Permitted, Next, Leased, WithoutFence, Finish, CalmTurns, Elapse, ClockAfter;
      JobHere();
      OrphanWrites(Snapshot(), token, clock);
      JobHere();
      ghost var job, start, until := jobs[id], clock, Horizon();
      ghost var at;
      r, at := Transition(FailOrphan);
      WhileHeld(job, token, start, at, until, FailOrphan);
      JobHere();
      if r == Ok(true) {
        r := EndClaim(FailOrphan, |old(trace)|);
      }
    }

    // ------------------------------------------------------------ the driver

    /** `refreshClaimJob`. */
    method Refresh() returns (r: Attempt<Job>)
      requires Valid() && Main().Idle?
      modifies this
      ensures Valid() && old(trace) <= trace && clock >= old(clock)
      ensures r.Ok? ==> Main().Idle? && workers[token].known == r.value && id in jobs && jobs[id] == r.value
      ensures old(Calm()) ==>
        StaysCalm() && jobs == old(jobs) && docs == old(docs) && runtimes == old(runtimes) && r.Ok?
    {
      hide Next, Initial, Run, AllForeign, Foreign, CalmTurns, Elapse, ClockAfter;
      :- Await();
      RefreshParts(Snapshot(), token, clock);
      Step(Move.Refresh);
      r := Ok(jobs[id]);
    }

    /** A saved summary is reused; otherwise the summarizer runs and its result is saved. */
    method EnsureSummary(job: Job, summary: string) returns (r: Attempt<Job>)
      requires Valid() && Main().Idle? && workers[token].known == job
      modifies this
      ensures Valid() && old(trace) <= trace && clock >= old(clock) && (r.Ok? ==> Main().Idle?)
      ensures old(Calm()) && old(Held() && jobs[id] == job && job.status.Active()) ==>
        && StaysCalm() && docs == old(docs) && runtimes == old(runtimes) && id in jobs
        && if job.summary.None? && Blank(summary) then r == Thrown(Ordinary) && jobs[id] == AfterBegin(job)
           else r == Ok(jobs[id]) && jobs[id] == AfterSummary(job, summary)
    {
      hide Valid, Blank, OutboxFaithful, CalmTurns, Elapse, ClockAfter, Horizon;
      JobHere();
      if job.summary.Some? {
        return Ok(job);
      }
      if jobs[id].summary.None? && jobs[id].status.Active() {
        UnsummarizedJob();
      }
      var begun :- BeginSummary();
      if !begun {
        return Thrown(LeaseLost);
      }
      var _ :- Refresh();
      JobHere();
      :- Await();
      if Blank(summary) {
        return Thrown(Ordinary);
      }
      var saved :- SaveSummary(summary);
      if !saved {
        return Thrown(LeaseLost);
      }
      JobHere();
      r := Refresh();
      JobHere();
    }

    lemma UnsummarizedJob()
      requires Valid() && id in jobs && jobs[id].summary.None? && jobs[id].status.Active()
      ensures jobs[id].id == id && jobs[id].replacement.None? && !jobs[id].runtimeSettled
      ensures jobs[id].status.Queued? || jobs[id].status.Summarizing? || jobs[id].status.Retryable?
    {
      hide Inv, Initial, WorkerOk, AllForeign, Run, OutboxFaithful;
      Facts();
    }

    lemma SummarizedJob()
      requires Valid() && id in jobs && jobs[id].summary.Some? && jobs[id].status.Active()
      ensures jobs[id].status.SummaryReady? ==> jobs[id].replacement.None?
      ensures jobs[id].status.MergePrepared? ==> jobs[id].replacement.Some?
      ensures Mergeable(jobs[id].status) || jobs[id].status.MergePrepared?
    {
      hide Inv, Initial, WorkerOk, AllForeign, Run, OutboxFaithful;
      Facts();
    }

    /** A saved replacement is reused; otherwise it is built from the frozen merge context. */
    method EnsureReplacement(job: Job, projection: Option<string>, build: Job -> Message) returns (r: Attempt<Job>)
      requires Valid() && Main().Idle?
      modifies this
      ensures Valid() && old(trace) <= trace && clock >= old(clock) && (r.Ok? ==> Main().Idle?)
      ensures old(Calm()) && old(Held() && jobs[id] == job && job.summary.Some? && job.status.Active()) ==>
        && StaysCalm() && docs == old(docs) && runtimes == old(runtimes) && id in jobs
        && r == Ok(jobs[id]) && jobs[id] == AfterReplacement(job, id.owner, runtimes, projection, build)
        && jobs[id].status.MergePrepared? && Held()
    {
      hide Valid, WithMergeContext, CalmTurns, Elapse, ClockAfter;
      JobHere();
      if jobs[id].summary.Some? && jobs[id].status.Active() {
        SummarizedJob();
      }
      if job.replacement.None? {
        r := BuildReplacement(job, projection, build);
        return;
      }
      if job.status.Retryable? {
        var restored :- PrepareMerge(job.replacement.value);
        JobHere();
        if !restored {
          return Thrown(LeaseLost);
        }
        r := Refresh();
        JobHere();
        return;
      }
      r := Ok(job);
    }

    method BuildReplacement(job: Job, projection: Option<string>, build: Job -> Message) returns (r: Attempt<Job>)
      requires Valid() && Main().Idle? && job.replacement.None?
      modifies this
      ensures Valid() && old(trace) <= trace && clock >= old(clock) && (r.Ok? ==> Main().Idle?)
      ensures old(Calm()) && old(Held() && jobs[id] == job && job.summary.Some? && Mergeable(job.status)) ==>
        && StaysCalm() && docs == old(docs) && runtimes == old(runtimes) && id in jobs
        && r == Ok(jobs[id]) && jobs[id] == AfterReplacement(job, id.owner, runtimes, projection, build)
        && jobs[id].status.MergePrepared? && Held()
    {
      hide Valid, WithMergeContext, CalmTurns, Elapse, ClockAfter;
      MergeContextKeeps(job, id.owner, runtimes, projection);
      var context :- PrepareContext(projection);
      JobHere();
      if context.None? {
        return Thrown(LeaseLost);
      }
      :- Await();
      var replacement := build(context.value);
      var prepared :- PrepareMerge(replacement);
      JobHere();
      if !prepared {
        return Thrown(LeaseLost);
      }
      r := Refresh();
      JobHere();
    }

    /** The phases of one claimed job, inside the error handler. */
    method Phases(summary: string, projection: Option<string>, build: Job -> Message) returns (r: Attempt<Outcome>)
      requires Valid() && Main().Idle?
      modifies this
      ensures Valid() && old(trace) <= trace && clock >= old(clock) && (r.Ok? ==> Main().Idle?)
      ensures r.Ok? && (r.value.MergedOutcome? || r.value.AlreadyMerged?) ==> id in jobs && jobs[id].status.Merged?
      ensures old(Calm()) && old(Held() && jobs[id].status.Active()
                && (id.owner in docs ==> FencedUntil(docs[id.owner], id, token, Horizon()))) ==>
        && StaysCalm() && id in jobs
        && var j := old(jobs[id]);
        if j.summary.None? && Blank(summary) then
          r == Thrown(Ordinary) && jobs[id] == AfterBegin(j) && docs == old(docs) && runtimes == old(runtimes)
        else
          var k := ReadyToMerge(j, id.owner, old(runtimes), summary, projection, build);
          if id.owner in old(docs) && Appliable(old(docs)[id.owner], k) then
            && k.replacement.Some? && r.Ok? && r.value.MergedOutcome? && jobs[id] == MergedJob(k, r.value.contextRevision)
            && docs == WithoutFence(AfterSwap(old(docs), k), id, token)
            && runtimes == (if k.runtimeSettled then old(runtimes) else AfterSettlement(old(runtimes), k))
          else
            && r == Ok(if id.owner in old(docs) then Conflict else OwnerMissing)
            && jobs[id] == Finish(k, Failed) && docs == WithoutFence(old(docs), id, token) && runtimes == old(runtimes)
    {
      hide Valid, Blank, AfterSummary, AfterReplacement, AfterSwap, AfterSettlement, WithoutFence, MergedJob;
      hide CalmTurns, Elapse, ClockAfter;
      hide Finish, Appliable, FencedUntil;
      var job :- Refresh();
      JobHere();
      if job.status.Merged? {
        return Ok(AlreadyMerged(job.mergedContextRevision));
      }
      SummaryKeeps(job, summary);
      job :- EnsureSummary(job, summary);
      JobHere();
      ReplacementKeeps(job, id.owner, runtimes, projection, build);
      var _ :- EnsureReplacement(job, projection, build);
      JobHere();
      r := MergeOrEnd();
    }

    /** Merge; a context that no longer takes the replacement, or is gone, ends the job. */
    method MergeOrEnd() returns (r: Attempt<Outcome>)
      requires Valid() && Main().Idle?
      modifies this
      ensures Valid() && old(trace) <= trace && clock >= old(clock) && (r.Ok? ==> Main().Idle?)
      ensures r.Ok? && (r.value.MergedOutcome? || r.value.AlreadyMerged?) ==> id in jobs && jobs[id].status.Merged?
      ensures old(Calm()) && old(Held() && jobs[id].status.MergePrepared? && jobs[id].replacement.Some?
                && (id.owner in docs ==> FencedUntil(docs[id.owner], id, token, Horizon()))) ==>
        && StaysCalm() && id in jobs
        && var k := old(jobs[id]);
        if id.owner in old(docs) && Appliable(old(docs)[id.owner], k) then
          && r.Ok? && r.value.MergedOutcome? && jobs[id] == MergedJob(k, r.value.contextRevision)
          && docs == WithoutFence(AfterSwap(old(docs), k), id, token)
          && runtimes == (if k.runtimeSettled then old(runtimes) else AfterSettlement(old(runtimes), k))
        else
          && r == Ok(if id.owner in old(docs) then Conflict else OwnerMissing)
          && jobs[id] == Finish(k, Failed) && docs == WithoutFence(old(docs), id, token) && runtimes == old(runtimes)
    {
      hide Valid, AfterSwap, AfterSettlement, WithoutFence, SwapOutcome, MergedJob, CalmTurns, Elapse, ClockAfter;
      hide Finish, Appliable, FencedUntil, EffectAt, TookEffect;
      JobHere();
      if jobs[id].replacement.Some? {
        AppliableDecides(docs, jobs[id]);
        NothingToClear(docs, id, token);
      }
      var merged :- ApplyPrepared();
      JobHere();
      label Applied:
      if merged.Conflict? {
        IdleMay(Snapshot(), token);
        var _ :- FailJob();
      } else if merged.OwnerMissing? {
        var _ :- FailForMissingOwner();
      }
      r := Ok(merged);
    }

    /**
     * `processClaimedCompactionJob`.  Whatever other actors do, it reports a
     * merge only of a job that is merged.  Undisturbed, it brings any active job
     * to the end its context allows, reusing what earlier attempts persisted.
     */
    method Process(summary: string, projection: Option<string>, build: Job -> Message, retryDelay: nat -> Time)
      returns (r: Attempt<Outcome>)
      requires Valid() && Main().Idle?
      modifies this
      ensures Valid() && old(trace) <= trace && clock >= old(clock)
      ensures r.Ok? && (r.value.MergedOutcome? || r.value.AlreadyMerged?) ==> id in jobs && jobs[id].status.Merged?
      ensures old(Calm()) && old(Held() && jobs[id].status.Active()) ==>
        && StaysCalm() && id in jobs
        && var j, o := old(jobs[id]), id.owner;
        if o !in old(docs) then
          r == Ok(OwnerMissing) && jobs[id] == Finish(j, Failed) && docs == old(docs) && runtimes == old(runtimes)
        else if !FenceReusable(old(docs)[o], id, token, old(ClockAfter(clock, schedule, 2))) then
          r == Ok(LostLease) && jobs == old(jobs) && docs == old(docs) && runtimes == old(runtimes)
        else
        var fenced := old(docs)[o := old(docs)[o].(fence := Some(Fence(id, token, j.lease.value.expiresAt)))];
        if j.summary.None? && Blank(summary) then
          && r == Ok(Conflict) && runtimes == old(runtimes) && docs == WithoutFence(fenced, id, token)
          && Abandoned(AfterBegin(j), retryDelay(j.attempt))
        else
          var k := ReadyToMerge(j, o, old(runtimes), summary, projection, build);
          if Appliable(old(docs)[o], k) then
            && k.replacement.Some? && r.Ok? && r.value.MergedOutcome? && jobs[id] == MergedJob(k, r.value.contextRevision)
            && docs == WithoutFence(AfterSwap(fenced, k), id, token)
            && runtimes == (if k.runtimeSettled then old(runtimes) else AfterSettlement(old(runtimes), k))
          else
            && r == Ok(Conflict) && jobs[id] == Finish(k, Failed)
            && docs == WithoutFence(fenced, id, token) && runtimes == old(runtimes)
    {
      hide Valid, Blank, ReadyToMerge, AfterSwap, AfterSettlement, WithoutFence, MergedJob, AfterBegin;
      hide CalmTurns, Elapse, ClockAfter;
      hide Finish, GivenUp, FenceReusable, EffectAt, TookEffect;
      JobHere();
      ClockBounds(clock, schedule, 1);
      var established :- Establish();
      JobHere();
      if !established {
        var orphaned :- FailForMissingOwner();
        JobHere();
        return Ok(if orphaned then OwnerMissing else LostLease);
      }
      r := ProcessFenced(summary, projection, build, retryDelay);
    }

    method ProcessFenced(summary: string, projection: Option<string>, build: Job -> Message, retryDelay: nat -> Time)
      returns (r: Attempt<Outcome>)
      requires Valid() && Main().Idle?
      modifies this
      ensures Valid() && old(trace) <= trace && clock >= old(clock)
      ensures r.Ok? && (r.value.MergedOutcome? || r.value.AlreadyMerged?) ==> id in jobs && jobs[id].status.Merged?
      ensures old(Calm()) && old(Held() && jobs[id].status.Active() && id.owner in docs
                && FencedUntil(docs[id.owner], id, token, Horizon())) ==>
        && StaysCalm() && id in jobs
        && var j := old(jobs[id]);
        if j.summary.None? && Blank(summary) then
          && r == Ok(Conflict) && runtimes == old(runtimes) && docs == WithoutFence(old(docs), id, token)
          && Abandoned(AfterBegin(j), retryDelay(j.attempt))
        else
          var k := ReadyToMerge(j, id.owner, old(runtimes), summary, projection, build);
          if Appliable(old(docs)[id.owner], k) then
            && k.replacement.Some? && r.Ok? && r.value.MergedOutcome? && jobs[id] == MergedJob(k, r.value.contextRevision)
            && docs == WithoutFence(AfterSwap(old(docs), k), id, token)
            && runtimes == (if k.runtimeSettled then old(runtimes) else AfterSettlement(old(runtimes), k))
          else
            && r == Ok(Conflict) && jobs[id] == Finish(k, Failed)
            && docs == WithoutFence(old(docs), id, token) && runtimes == old(runtimes)
    {
      hide Valid, Blank, ReadyToMerge, AfterSwap, AfterSettlement, WithoutFence, MergedJob, AfterBegin;
      hide CalmTurns, Elapse, ClockAfter;
      hide Finish, GivenUp, Appliable, FencedUntil;
      JobHere();
      var done := Phases(summary, projection, build);
      JobHere();
      if done.Ok? {
        return done;
      }
      if done.fault.LeaseLost? {
        return Ok(LostLease);
      }
      BegunKeeps(old(jobs[id]));
      r := GiveUp(done.fault.Fatal?, retryDelay);
    }

    /** The error handler: another attempt, unless the error is fatal or this was the last. */
    method GiveUp(fatal: bool, retryDelay: nat -> Time) returns (r: Attempt<Outcome>)
      requires Valid()
      modifies this
      ensures Valid() && old(trace) <= trace && clock >= old(clock) && (r.Ok? ==> r.value == Conflict)
      ensures old(Calm()) && !fatal && old(Held()) ==>
        && StaysCalm() && runtimes == old(runtimes) && r == Ok(Conflict) && id in jobs
        && Abandoned(old(jobs[id]), retryDelay(old(jobs[id]).attempt))
        && docs == WithoutFence(old(docs), id, token)
    {
      hide Valid, Next, Read, WithoutFence, GivenUp, LiveLease, CalmTurns, Elapse, ClockAfter;
      Abandon();
      :- Await();
      ErrorReads(Snapshot(), token, clock);
      var attempt := jobs[id].attempt;
      Look(ErrorRead);
      r := RetryOrFail(fatal, attempt, retryDelay(attempt));
    }

    /** The interrupted call is gone, whatever it had read. */
    method Abandon()
      requires Valid()
      modifies this`workers, this`trace
      ensures Valid() && trace == old(trace) + [Do(token, Abort, clock)] && Main().Idle?
      ensures workers[token].known == old(workers[token].known)
    {
      hide Valid, Next, Read, CalmTurns, Elapse, ClockAfter;
      JobHere();
      ErrorReads(Snapshot(), token, clock);
      Look(Abort);
    }

    method RetryOrFail(fatal: bool, attempt: nat, delay: Time) returns (r: Attempt<Outcome>)
      requires Valid() && Main() == Failing(attempt)
      modifies this
      ensures Valid() && old(trace) <= trace && clock >= old(clock) && (r.Ok? ==> r.value == Conflict)
      ensures old(Calm()) && !fatal && old(Held() && jobs[id].attempt == attempt) ==>
        && StaysCalm() && runtimes == old(runtimes) && r == Ok(Conflict) && id in jobs
        && Abandoned(old(jobs[id]), delay) && docs == WithoutFence(old(docs), id, token)
    {
      hide Valid, WithoutFence, Permitted, TookEffect, EffectAt, Finish, ReleasedJob, CalmTurns, Elapse, ClockAfter;
      JobHere();
      ErrorWrites(Snapshot(), token, delay);
      if fatal || attempt >= maxAttempts {
        var _ :- FailJob();
        assert !fatal && old(jobs[id]).attempt == attempt ==>
            GivenUpAt(old(jobs[id]), Finish(old(jobs[id]), Failed), maxAttempts, clock, delay);
      } else {
        var _ :- ReleaseForRetry(delay);
        if old(jobs[id]).attempt == attempt {
          ReleasedIsGivenUp(old(jobs[id]), maxAttempts, delay);
        }
      }
      r := Ok(Conflict);
    }

    /** Take up a claim at any point of any run. */
    constructor (ghost start: Sys, ghost past: seq<Action>, s: Sys, t: Token, now: Time, turns: seq<Turn>)
      requires Initial(start) && s == Run(start, past) && t in s.workers && AllForeign(turns, t)
      ensures Valid() && Snapshot() == s && token == t && id == s.workers[t].job && clock == now && schedule == turns
      ensures origin == start && trace == past
    {
      origin, trace := start, past;
      token, id, maxAttempts := t, s.workers[t].job, s.maxAttempts;
      jobs, docs, runtimes, workers, history := s.jobs, s.docs, s.runtimes, s.workers, s.history;
      clock, schedule := now, turns;
      new;
      hide Initial, Run;
    }
  }

  // ---------------------------------------------------- crash-replay convergence

  /** What an undisturbed claim needs: no other fence live by then, some summary, and a context that takes the job. */
  predicate CanMerge(s: Sys, id: JobId, t: Token, now: Time, summary: string)
    requires id in s.jobs
  {
    var j, o := s.jobs[id], id.owner;
    && o in s.docs && FenceReusable(s.docs[o], id, t, now)
    && (j.summary.Some? || !Blank(summary))
    && (s.docs[o].lastApplied == Some(id) || j.frozen.messages <= s.docs[o].Active())
  }

  /** The merged job against what earlier attempts had left. */
  predicate MergedFrom(j: Job, k: Job, summary: string) {
    && k.status.Merged? && k.runtimeSettled && k.replacement.Some?
    && k.summary == (if j.summary.Some? then j.summary else Some(summary))
    && (j.replacement.Some? ==> k.replacement == j.replacement)
    && (j.mergeFreeze.Some? ==> k.mergeFreeze == j.mergeFreeze)
    && k.lease.None? && k.activeKey.None? && k.frozen == j.frozen && k.projectContext == j.projectContext
  }

  /** The job the replacement was built from: it had its summary, and its merge context frozen. */
  predicate BuiltFrom(b: Job, k: Job) {
    && b.id == k.id && b.frozen == k.frozen && b.projectContext == k.projectContext
    && b.summary.Some? && b.summary == k.summary && b.mergeFreeze.Some? && b.mergeFreeze == k.mergeFreeze
  }

  /** What a claim that cannot merge leaves, and reports: of the job, and of its own fence. */
  predicate EndsUnmerged(s: Sys, s': Sys, outcome: Outcome, id: JobId, t: Token, fencing: Time, now: Time,
                         summary: string, delay: Time)
    requires id in s.jobs && id in s'.jobs
  {
    var j, k, o := s.jobs[id], s'.jobs[id], id.owner;
    if o !in s.docs then outcome.OwnerMissing? && k.status.Failed? && s'.docs == s.docs
    else if !FenceReusable(s.docs[o], id, t, fencing) then
      outcome.LostLease? && k.status == j.status && k.LeasedBy(t) && s'.docs == s.docs
    else
      && outcome.Conflict? && k.lease.None? && s'.docs == s.docs[o := s.docs[o].(fence := None)]
      && if j.summary.None? && Blank(summary) && j.attempt + 1 < s.maxAttempts
         then k.status.Retryable? && k.activeKey == j.activeKey && k.availableAt >= now + delay
         else k.status.Failed?
  }

  /** The context against what it held: the frozen prefix gave way exactly once. */
  predicate CompactedFrom(d: ContextDoc, e: ContextDoc, k: Job) {
    && e.lastApplied == Some(k.id) && e.fence.None? && k.replacement.Some?
    && if d.lastApplied == Some(k.id) then e.Active() == d.Active()
       else k.frozen.messages <= d.Active()
            && e.Active() == [k.replacement.value] + d.Active()[|k.frozen.messages|..]
  }

  lemma ReadyKeeps(j: Job, o: OwnerKey, runtimes: map<OwnerKey, Runtime>, summary: string,
                   projection: Option<string>, build: Job -> Message)
    ensures var k := ReadyToMerge(j, o, runtimes, summary, projection, build);
      && k.id == j.id && k.frozen == j.frozen && k.replacement.Some?
      && k.summary == (if j.summary.Some? then j.summary else Some(summary))
      && (j.replacement.Some? ==> k.replacement == j.replacement)
      && k.projectContext == j.projectContext && (j.mergeFreeze.Some? ==> k.mergeFreeze == j.mergeFreeze)
  {
    SummaryKeeps(j, summary);
    SummaryKeepsFreeze(j, summary);
    ReplacementKeeps(AfterSummary(j, summary), o, runtimes, projection, build);
    ReplacementKeepsFreeze(AfterSummary(j, summary), o, runtimes, projection, build);
    hide AfterReplacement, AfterSummary;
  }

  lemma MergedDocs(docs: map<OwnerKey, ContextDoc>, d: ContextDoc, f: Fence, k: Job, revision: nat, t: Token)
    requires var o := k.id.owner; o in docs && docs[o] == d.(fence := Some(f))
    requires k.replacement.Some? && Appliable(d, k) && f.job == k.id && f.token == t
    ensures var o, e := k.id.owner, WithoutFence(AfterSwap(docs, k), k.id, t);
      o in e && CompactedFrom(d, e[o], MergedJob(k, revision))
  {
  }

  lemma ClaimGives(s: Sys, id: JobId, t: Token, leaseMs: Time, now: Time)
    requires Inv(s) && id in s.jobs && t !in s.workers && Claimable(s.jobs[id], now) && leaseMs > 0
    ensures var s', j := Next(s, Claim(id, t, leaseMs, now)), s.jobs[id];
      && s'.docs == s.docs && s'.runtimes == s.runtimes && t in s'.workers && id in s'.jobs
      && s'.workers[t].job == id && s'.workers[t].main.Idle?
      && j.id == id && s'.jobs[id] == Claimed(j, t, now + leaseMs) && s'.maxAttempts == s.maxAttempts
      && s'.jobs[id].id == id && s'.jobs[id].attempt == j.attempt + 1 && s'.jobs[id].status == j.status && s'.jobs[id].LeasedBy(t)
      && s'.jobs[id].summary == j.summary && s'.jobs[id].frozen == j.frozen && s'.jobs[id].activeKey == j.activeKey
      && s'.jobs[id].replacement == j.replacement && s'.jobs[id].mergeFreeze == j.mergeFreeze
      && s'.jobs[id].projectContext == j.projectContext && s'.jobs[id].runtimeSettled == j.runtimeSettled
      && s'.jobs[id].lease == Some(Lease(t, now + leaseMs)) && s'.jobs[id].status.Active()
  {
    hide Inv, JobOk;
    NamedById(s, id);
  }

  /**
   * Crash replay converges.  From every state that any run reaches, in whatever
   * phase earlier claims left the job, one claim that takes less time than its
   * lease, and that nothing disturbs, merges the job if and only if its context
   * takes the fence and the replacement; saved work is reused, and the context
   * ends as if a single attempt had applied the job.
   */
  method ReplayToMerge(ghost origin: Sys, ghost past: seq<Action>, s: Sys, id: JobId, t: Token, leaseMs: Time,
                       now: Time, turns: seq<Turn>, summary: string, projection: Option<string>, build: Job -> Message,
                       retryDelay: nat -> Time)
    returns (r: Attempt<Outcome>, s': Sys)
    requires Initial(origin) && s == Run(origin, past) && id in s.jobs && t !in s.workers
    requires Claimable(s.jobs[id], now) && CalmTurns(turns) && Elapse(turns) < leaseMs
    ensures id in s'.jobs && r.Ok?
    ensures s'.jobs[id].status.Merged? <==> CanMerge(s, id, t, ClockAfter(now, turns, 2), summary)
    ensures r.value.MergedOutcome? <==> s'.jobs[id].status.Merged?
    ensures CanMerge(s, id, t, ClockAfter(now, turns, 2), summary) ==>
      && id.owner in s'.docs && MergedFrom(s.jobs[id], s'.jobs[id], summary)
      && CompactedFrom(s.docs[id.owner], s'.docs[id.owner], s'.jobs[id])
    ensures CanMerge(s, id, t, ClockAfter(now, turns, 2), summary) && s.jobs[id].replacement.None? ==>
      && (exists b :: BuiltFrom(b, s'.jobs[id]) && s'.jobs[id].replacement == Some(build(b)))
      && (s.jobs[id].mergeFreeze.None? && (id.owner.ConversationKey? ==> id.owner in s.runtimes) ==>
            && id.owner in s'.runtimes && s'.runtimes[id.owner].lastSettled == Some(id)
            && Succeeds(s.jobs[id].projectContext, ContextOf(s.runtimes, id.owner), projection,
                        s'.runtimes[id.owner].context))
    ensures !CanMerge(s, id, t, ClockAfter(now, turns, 2), summary) ==>
      EndsUnmerged(s, s', r.value, id, t, ClockAfter(now, turns, 2), now, summary, retryDelay(s.jobs[id].attempt + 1))
  {
    hide Initial, Run, Next, Inv, Finish, GivenUp, ReadyToMerge, AfterSwap, AfterSettlement, WithoutFence, MergedJob;
    hide AfterBegin, FenceReusable, Blank, Claimable, CompactedFrom, Elapse, ClockAfter, AllForeign, Succeeds, ContextOf;
    hide BuiltFrom, Claimed;
    var claim := Claim(id, t, leaseMs, now);
    RunKeeps(origin, past);
    ClaimGives(s, id, t, leaseMs, now);
    RunSnoc(origin, past, claim);
    CalmIsForeign(turns, t);
    var claimed := Next(s, claim);
    var c := new ClaimedCompaction(origin, past + [claim], claimed, t, now, turns);
    ghost var j, o := claimed.jobs[id], id.owner;
    ghost var k := ReadyToMerge(j, o, s.runtimes, summary, projection, build);
    ghost var fence := Fence(id, t, j.lease.value.expiresAt);
    ReadyKeeps(j, o, s.runtimes, summary, projection, build);
    r := c.Process(summary, projection, build, retryDelay);
    s' := c.Snapshot();
    if CanMerge(s, id, t, ClockAfter(now, turns, 2), summary) {
      hide EndsUnmerged;
      MergedFields(s.jobs[id], k, r.value.contextRevision, summary);
      MergedDocs(s.docs[o := s.docs[o].(fence := Some(fence))], s.docs[o], fence, k, r.value.contextRevision, t);
      if s.jobs[id].replacement.None? {
        MergesAfresh(origin, past, j, summary, projection, build, r.value.contextRevision);
      }
    } else {
      GivesUpUnmerged(s, s', r.value, j, k, t, ClockAfter(now, turns, 2), now, summary, retryDelay(j.attempt), fence);
    }
  }

  /** What a claimed job and its context are left as when the claim does not merge it. */
  lemma GivesUpUnmerged(s: Sys, s': Sys, outcome: Outcome, j: Job, k: Job, t: Token, fencing: Time, now: Time,
                        summary: string, delay: Time, fence: Fence)
    requires j.id in s.jobs && j.id in s'.jobs && fence.job == j.id && fence.token == t
    requires var i := s.jobs[j.id];
      j.attempt == i.attempt + 1 && j.status == i.status && j.summary == i.summary && j.activeKey == i.activeKey
      && j.LeasedBy(t)
    requires var o, end := j.id.owner, s'.jobs[j.id];
      if o !in s.docs then outcome == OwnerMissing && end == Finish(j, Failed) && s'.docs == s.docs
      else if !FenceReusable(s.docs[o], j.id, t, fencing) then outcome == LostLease && end == j && s'.docs == s.docs
      else
        && outcome == Conflict && s'.docs == WithoutFence(s.docs[o := s.docs[o].(fence := Some(fence))], j.id, t)
        && if j.summary.None? && Blank(summary)
           then exists at: Time :: now <= at && GivenUpAt(AfterBegin(j), end, s.maxAttempts, at, delay)
           else end == Finish(k, Failed)
    ensures EndsUnmerged(s, s', outcome, j.id, t, fencing, now, summary, delay)
    ensures !s'.jobs[j.id].status.Merged? || (j.status.Merged? && s'.jobs[j.id] == j)
  {
    Endings(j, k, s.maxAttempts, s'.jobs[j.id], delay);
    hide Finish, GivenUpAt, AfterBegin, Blank, FenceReusable;
    if j.id.owner in s.docs {
      FenceGoes(s.docs, j.id.owner, fence, j.id, t);
    }
    hide WithoutFence;
  }

  /** A first merge: what its replacement is built from, and what its settlement installs. */
  lemma MergesAfresh(origin: Sys, past: seq<Action>, j: Job, summary: string, projection: Option<string>,
                     build: Job -> Message, revision: nat)
    requires Initial(origin) && j.id in Run(origin, past).jobs && j.replacement.None?
    requires var i := Run(origin, past).jobs[j.id];
      i.replacement.None? && i.runtimeSettled == j.runtimeSettled
    ensures var o, runtimes := j.id.owner, Run(origin, past).runtimes;
      var k := ReadyToMerge(j, o, runtimes, summary, projection, build);
      var after := if k.runtimeSettled then runtimes else AfterSettlement(runtimes, k);
      && (exists b :: BuiltFrom(b, MergedJob(k, revision)) && MergedJob(k, revision).replacement == Some(build(b)))
      && (j.mergeFreeze.None? && (o.ConversationKey? ==> o in runtimes) ==>
            && o in after && after[o].lastSettled == Some(j.id)
            && Succeeds(j.projectContext, ContextOf(runtimes, o), projection, after[o].context))
  {
    hide Initial, Run, ReadyToMerge, AfterSettlement, MergedJob, BuiltFrom, Succeeds, ContextOf;
    var o, runtimes := j.id.owner, Run(origin, past).runtimes;
    ReadyIsBuilt(j, o, runtimes, summary, projection, build, revision);
    NeverSettled(origin, past, j.id);
    if j.mergeFreeze.None? && (o.ConversationKey? ==> o in runtimes) {
      SettlesNewer(j, o, runtimes, summary, projection, build);
    }
  }

  /** The replacement is built from the job as it stands once its merge context is frozen. */
  lemma ReadyIsBuilt(j: Job, o: OwnerKey, runtimes: map<OwnerKey, Runtime>, summary: string,
                     projection: Option<string>, build: Job -> Message, revision: nat)
    requires j.replacement.None?
    ensures var k := MergedJob(ReadyToMerge(j, o, runtimes, summary, projection, build), revision);
      exists b :: BuiltFrom(b, k) && k.replacement == Some(build(b))
  {
    var a := AfterSummary(j, summary);
    var b := WithMergeContext(a, o, runtimes, projection);
    var k := MergedJob(ReadyToMerge(j, o, runtimes, summary, projection, build), revision);
    SummaryKeeps(j, summary);
    assert BuiltFrom(b, k) && k.replacement == Some(build(b)) by {
      hide AfterSummary;
    }
  }

  lemma NeverSettled(origin: Sys, past: seq<Action>, id: JobId)
    requires Initial(origin) && id in Run(origin, past).jobs && Run(origin, past).jobs[id].replacement.None?
    ensures var s := Run(origin, past);
      && !s.jobs[id].runtimeSettled && (id.owner in s.runtimes ==> s.runtimes[id.owner].lastSettled != Some(id))
  {
    RunKeeps(origin, past);
    SettledWasSwapped(Run(origin, past), id);
    hide Inv, Initial, Run;
    if id in Run(origin, past).history.swapped {
      SwappedHasReplacement(origin, past, id);
    }
  }

  lemma SettledWasSwapped(s: Sys, id: JobId)
    requires Inv(s) && id in s.jobs
    ensures s.jobs[id].runtimeSettled ==> id in s.history.swapped
    ensures id.owner in s.runtimes && s.runtimes[id.owner].lastSettled == Some(id) ==> id in s.history.swapped
  {
    assert SettlesOk(s);
    hide JobsOk, OneBarrier, KeysDisjoint, TokensLinked, SwapsOk, ReleasesOk, WorkersOk;
  }

  /** A settlement right after the freeze installs what was frozen. */
  lemma SettlesNewer(j: Job, o: OwnerKey, runtimes: map<OwnerKey, Runtime>, summary: string,
                     projection: Option<string>, build: Job -> Message)
    requires j.replacement.None? && j.mergeFreeze.None? && j.id.owner == o
    requires (o.ConversationKey? ==> o in runtimes) && (o in runtimes ==> runtimes[o].lastSettled != Some(j.id))
    ensures var k := ReadyToMerge(j, o, runtimes, summary, projection, build);
      var after := AfterSettlement(runtimes, k);
      && k.runtimeSettled == j.runtimeSettled && o in after && after[o].lastSettled == Some(j.id)
      && Succeeds(j.projectContext, ContextOf(runtimes, o), projection, after[o].context)
  {
    var a := AfterSummary(j, summary);
    SummaryKeeps(j, summary);
    SummaryKeepsFreeze(j, summary);
    hide AfterSummary, MergeFreezeOf;
    FrozenNowSucceeds(a, o, runtimes, projection);
  }

  lemma ReplacementKeepsFreeze(j: Job, o: OwnerKey, runtimes: map<OwnerKey, Runtime>, projection: Option<string>,
                               build: Job -> Message)
    ensures var c := AfterReplacement(j, o, runtimes, projection, build);
      c.projectContext == j.projectContext && (j.mergeFreeze.Some? ==> c.mergeFreeze == j.mergeFreeze)
  {
    hide MergeFreezeOf;
  }

  lemma SummaryKeepsFreeze(j: Job, summary: string)
    ensures var c := AfterSummary(j, summary);
      && c.mergeFreeze == j.mergeFreeze && c.projectContext == j.projectContext
      && c.summary == (if j.summary.Some? then j.summary else Some(summary))
  {
  }

  lemma FenceGoes(docs: map<OwnerKey, ContextDoc>, o: OwnerKey, fence: Fence, id: JobId, t: Token)
    requires o in docs && o == id.owner && fence.job == id && fence.token == t
    ensures WithoutFence(docs[o := docs[o].(fence := Some(fence))], id, t) == docs[o := docs[o].(fence := None)]
  {
  }

  lemma CalmIsForeign(turns: seq<Turn>, t: Token)
    requires CalmTurns(turns)
    ensures AllForeign(turns, t)
  {
  }

  lemma Endings(j: Job, k: Job, maxAttempts: nat, end: Job, delay: Time)
    ensures Finish(j, Failed).status.Failed? && Finish(k, Failed).status.Failed?
    ensures Finish(k, Failed).lease.None?
    ensures forall at: Time :: GivenUpAt(AfterBegin(j), end, maxAttempts, at, delay) ==>
      && end.lease.None?
      && if j.attempt < maxAttempts
         then end.status.Retryable? && end.availableAt == at + delay && end.activeKey == j.activeKey
         else end.status.Failed?
    ensures forall revision: nat :: MergedJob(k, revision).status.Merged?
  {
  }

  lemma MergedFields(j: Job, k: Job, revision: nat, summary: string)
    requires k.frozen == j.frozen && k.replacement.Some?
    requires k.summary == (if j.summary.Some? then j.summary else Some(summary))
    requires j.replacement.Some? ==> k.replacement == j.replacement
    requires k.projectContext == j.projectContext && (j.mergeFreeze.Some? ==> k.mergeFreeze == j.mergeFreeze)
    ensures MergedFrom(j, MergedJob(k, revision), summary) && MergedJob(k, revision).id == k.id
  {
  }
}
