/**
 * Two runs that leave a fence behind: one after which a merged job's context
 * still carries it, one after which no fresh claim can merge until it expires.
 */
module FenceWitnesses {
  import opened CompactionTypes
  import opened JobCommands
  import opened Protocol
  import opened ProtocolTheorems
  import opened Counterexamples
  import opened FenceResidue
  import CompactionService
  import ProtocolSteps
  import ServiceSteps
  import SettlementTwice

  const REFENCED := SettlementTwice.ONCE.(fence := Some(Fence(FIRST, 2, 20)))
  const MARKED := TAKEN.(runtimeSettled := true)
  const DONE := Finish(MARKED.(mergedContextRevision := Some(1)), Merged)

  /**
   * The first worker swaps and crashes.  The claim that takes over fences the context again, settles, records the
   * merge, and crashes before it clears the fence.
   */
  const TO_THE_MERGE: seq<Action> := TO_THE_SWAP + [
    Do(1, ApplySwap, 0),
    Claim(FIRST, 2, 10, 10),
    Do(2, EstablishRead, 10),
    Do(2, EstablishWrite, 10),
    Do(2, SettleRead, 10),
    Do(2, SettleOwner, 10),
    Do(2, SettleRuntime, 10),
    Do(2, SettleVerify, 10),
    Do(2, Write(MarkSettled), 10),
    Do(2, FinalRead, 10),
    Do(2, FinalSnapshot, 10),
    Do(2, Write(MarkMerged(1)), 10)
  ]

  function Over(j: Job, d: ContextDoc, r: Runtime, main: Main, settled: set<JobId>): Sys {
    Sys(5, map[FIRST := j], map[OWNER := d], map[OWNER := r],
        map[1 := Worker(FIRST, 10, CLAIMED, Idle, Resting), 2 := Worker(FIRST, 10, TAKEN, main, Resting)],
        History({FIRST}, settled, {}, map[]))
  }

  /** The state before action `k` of the run, from the swap on. */
  function Point(k: nat): Sys {
    if k <= 11 then SettlementTwice.Scene(k)
    else if k == 12 then Over(TAKEN, SettlementTwice.ONCE, EMPTY_RUNTIME, Idle, {})
    else if k == 13 then Over(TAKEN, SettlementTwice.ONCE, EMPTY_RUNTIME, Establishing(20), {})
    else if k == 14 then Over(TAKEN, REFENCED, EMPTY_RUNTIME, Idle, {})
    else if k == 15 then Over(TAKEN, REFENCED, EMPTY_RUNTIME, Settling(TAKEN), {})
    else if k == 16 then Over(TAKEN, REFENCED, EMPTY_RUNTIME, SettlingRuntime(TAKEN), {})
    else if k == 17 then Over(TAKEN, REFENCED, SettlementTwice.SETTLED, SettleVerifying(TAKEN), {FIRST})
    else if k == 18 then Over(TAKEN, REFENCED, SettlementTwice.SETTLED, SettleMarking(TAKEN), {FIRST})
    else if k == 19 then Over(MARKED, REFENCED, SettlementTwice.SETTLED, Idle, {FIRST})
    else if k == 20 then Over(MARKED, REFENCED, SettlementTwice.SETTLED, Finalizing(MARKED), {FIRST})
    else if k == 21 then Over(MARKED, REFENCED, SettlementTwice.SETTLED, Finishing(1), {FIRST})
    else Over(DONE, REFENCED, SettlementTwice.SETTLED, Idle, {FIRST})
  }

  predicate Leads(k: nat)
    requires k < 22
  {
    Next(Point(k), TO_THE_MERGE[k]) == Point(k + 1)
  }

  lemma OverParts(j: Job, d: ContextDoc, r: Runtime, m: Main, settled: set<JobId>)
    ensures var s := Over(j, d, r, m, settled);
      && s.maxAttempts == 5 && s.history == History({FIRST}, settled, {}, map[])
      && FIRST in s.jobs && s.jobs[FIRST] == j && OWNER in s.docs && s.docs[OWNER] == d
      && OWNER in s.runtimes && s.runtimes[OWNER] == r
      && 2 in s.workers && s.workers[2] == Worker(FIRST, 10, TAKEN, m, Resting)
  {
  }

  lemma OverUpdates(j: Job, d: ContextDoc, r: Runtime, m: Main, settled: set<JobId>,
                    k: Job, e: ContextDoc, q: Runtime, n: Main, settled': set<JobId>)
    ensures var s, s' := Over(j, d, r, m, settled), Over(k, e, q, n, settled');
      && s'.jobs == s.jobs[FIRST := k] && s'.docs == s.docs[OWNER := e] && s'.runtimes == s.runtimes[OWNER := q]
      && s'.workers == s.workers[2 := Worker(FIRST, 10, TAKEN, n, Resting)]
      && s.jobs == s.jobs[FIRST := j] && s.docs == s.docs[OWNER := d] && s.runtimes == s.runtimes[OWNER := r]
  {
    hide CLAIMED, TAKEN;
  }

  /** A read of the second worker changes only where it stands. */
  lemma Looks(j: Job, d: ContextDoc, r: Runtime, m: Main, settled: set<JobId>, move: Move)
    requires ProtocolSteps.IsRead(move) && (Starts(move) ==> m.Idle?)
    ensures var s := Over(j, d, r, m, settled);
      && 2 in s.workers && s.workers[2].job in s.jobs
      && Next(s, Do(2, move, 10)) == Over(j, d, r, Read(s, 2, move, 10), settled)
  {
    hide Next, Read, CLAIMED, TAKEN;
    var s := Over(j, d, r, m, settled);
    ServiceSteps.LookParts(s, 2, move, 10);
  }

  /** A lease-filtered write of the second worker changes the job, and brings it back to rest. */
  lemma Stores(j: Job, d: ContextDoc, r: Runtime, m: Main, settled: set<JobId>, c: LeaseCommand, k: Job)
    requires Permitted(Over(j, d, r, m, settled), Worker(FIRST, 10, TAKEN, m, Resting), c) && !c.Release?
    requires Leased(j, 2, 10, c) == Some(k) && k.id == FIRST
    ensures Next(Over(j, d, r, m, settled), Do(2, Write(c), 10)) == Over(k, d, r, Idle, settled)
  {
    hide Leased, Permitted, Next, CLAIMED, TAKEN, Over;
    OverParts(j, d, r, m, settled);
    OverUpdates(j, d, r, m, settled, k, d, r, Idle, settled);
    OverParts(k, d, r, Idle, settled);
    WriteGives(Over(j, d, r, m, settled), 2, c, 10, k);
  }

  lemma TakenFields()
    ensures TAKEN.id == FIRST && TAKEN.status.MergePrepared? && TAKEN.replacement.Some? && !TAKEN.runtimeSettled
    ensures TAKEN.lease == Some(Lease(2, 20)) && TAKEN.SettlementContext() == None
    ensures Claimable(PREPARED, 10) && Claimed(PREPARED, 2, 20) == TAKEN && PREPARED.id == FIRST
    ensures Leased(TAKEN, 2, 10, MarkSettled) == Some(MARKED) && MARKED.id == FIRST && MARKED.runtimeSettled
    ensures MARKED.status.MergePrepared? && LiveLease(MARKED, 2, 10) && LiveLease(TAKEN, 2, 10)
    ensures Leased(MARKED, 2, 10, MarkMerged(1)) == Some(DONE) && DONE.id == FIRST && DONE.status.Merged?
  {
  }

  lemma Swaps()
    ensures Leads(10)
  {
    hide Next, SettlementTwice.Scene;
    SettlementTwice.FirstSwaps();
  }

  lemma Claims()
    ensures Leads(11)
  {
    TakenFields();
    hide PREPARED, TAKEN, CLAIMED, MARKED, DONE, Claimable, Claimed, Stage;
  }

  lemma ReadsLease()
    ensures Leads(12)
  {
    TakenFields();
    hide PREPARED, TAKEN, CLAIMED, MARKED, DONE, Next, Read, LiveLease, Over;
    OverParts(TAKEN, SettlementTwice.ONCE, EMPTY_RUNTIME, Idle, {});
    Looks(TAKEN, SettlementTwice.ONCE, EMPTY_RUNTIME, Idle, {}, EstablishRead);
    ServiceSteps.EstablishReads(Point(12), 2, 10);
  }

  lemma Fences()
    ensures Leads(13)
  {
    TakenFields();
    hide PREPARED, TAKEN, CLAIMED, MARKED, DONE, Next, Over;
    OverParts(TAKEN, SettlementTwice.ONCE, EMPTY_RUNTIME, Establishing(20), {});
    OverParts(TAKEN, REFENCED, EMPTY_RUNTIME, Idle, {});
    OverUpdates(TAKEN, SettlementTwice.ONCE, EMPTY_RUNTIME, Establishing(20), {},
                TAKEN, REFENCED, EMPTY_RUNTIME, Idle, {});
    ServiceSteps.EstablishParts(Point(13), 2, 10);
    SettlementTwice.EstablishHistory(Point(13), 2, 10);
  }

  lemma ReadsJob()
    ensures Leads(14)
  {
    TakenFields();
    hide PREPARED, TAKEN, CLAIMED, MARKED, DONE, Next, Read, LiveLease, Over;
    OverParts(TAKEN, REFENCED, EMPTY_RUNTIME, Idle, {});
    Looks(TAKEN, REFENCED, EMPTY_RUNTIME, Idle, {}, SettleRead);
    ServiceSteps.SettleReads(Point(14), 2, 10);
  }

  lemma ReadsContext()
    ensures Leads(15)
  {
    TakenFields();
    hide PREPARED, TAKEN, CLAIMED, MARKED, DONE, Next, Read, LiveLease, Over;
    OverParts(TAKEN, REFENCED, EMPTY_RUNTIME, Settling(TAKEN), {});
    Looks(TAKEN, REFENCED, EMPTY_RUNTIME, Settling(TAKEN), {}, SettleOwner);
    ServiceSteps.OwnerReads(Point(15), 2, 10);
  }

  lemma Settlement()
    ensures Leads(16)
  {
    TakenFields();
    assert SettledRuntime(EMPTY_RUNTIME, TAKEN) == SettlementTwice.SETTLED;
    hide SettledRuntime;
    hide PREPARED, TAKEN, CLAIMED, MARKED, DONE, Next, Over;
    OverParts(TAKEN, REFENCED, EMPTY_RUNTIME, SettlingRuntime(TAKEN), {});
    OverParts(TAKEN, REFENCED, SettlementTwice.SETTLED, SettleVerifying(TAKEN), {FIRST});
    OverUpdates(TAKEN, REFENCED, EMPTY_RUNTIME, SettlingRuntime(TAKEN), {},
                TAKEN, REFENCED, SettlementTwice.SETTLED, SettleVerifying(TAKEN), {FIRST});
    ServiceSteps.SettlementParts(Point(16), 2, 10);
    SettlementTwice.SettlementHistory(Point(16), 2, 10);
  }

  lemma Verifies()
    ensures Leads(17)
  {
    TakenFields();
    hide PREPARED, TAKEN, CLAIMED, MARKED, DONE, Next, Read, LiveLease, Over;
    OverParts(TAKEN, REFENCED, SettlementTwice.SETTLED, SettleVerifying(TAKEN), {FIRST});
    Looks(TAKEN, REFENCED, SettlementTwice.SETTLED, SettleVerifying(TAKEN), {FIRST}, SettleVerify);
    ServiceSteps.VerifyReads(Point(17), 2, 10);
  }

  lemma Marks()
    ensures Leads(18)
  {
    TakenFields();
    hide PREPARED, TAKEN, CLAIMED, MARKED, DONE, Next, Leased, Over;
    Stores(TAKEN, REFENCED, SettlementTwice.SETTLED, SettleMarking(TAKEN), {FIRST}, MarkSettled, MARKED);
  }

  lemma ReadsMarked()
    ensures Leads(19)
  {
    TakenFields();
    hide PREPARED, TAKEN, CLAIMED, MARKED, DONE, Next, Read, LiveLease, Over;
    OverParts(MARKED, REFENCED, SettlementTwice.SETTLED, Idle, {FIRST});
    Looks(MARKED, REFENCED, SettlementTwice.SETTLED, Idle, {FIRST}, FinalRead);
    ServiceSteps.FinalReads(Point(19), 2, 10);
  }

  lemma ReadsApplied()
    ensures Leads(20)
  {
    TakenFields();
    hide PREPARED, TAKEN, CLAIMED, MARKED, DONE, Next, Read, LiveLease, Over;
    OverParts(MARKED, REFENCED, SettlementTwice.SETTLED, Finalizing(MARKED), {FIRST});
    Looks(MARKED, REFENCED, SettlementTwice.SETTLED, Finalizing(MARKED), {FIRST}, FinalSnapshot);
    ServiceSteps.FinalContextReads(Point(20), 2, 10);
  }

  lemma Merges()
    ensures Leads(21)
  {
    TakenFields();
    hide PREPARED, TAKEN, CLAIMED, MARKED, DONE, Next, Leased, Over;
    Stores(MARKED, REFENCED, SettlementTwice.SETTLED, Finishing(1), {FIRST}, MarkMerged(1), DONE);
  }

  lemma PointStep(k: nat)
    requires 10 <= k < 22
    ensures Leads(k)
  {
    hide Leads;
    Swaps();
    Claims();
    ReadsLease();
    Fences();
    ReadsJob();
    ReadsContext();
    Settlement();
    Verifies();
    Marks();
    ReadsMarked();
    ReadsApplied();
    Merges();
  }

  lemma {:induction false} ReachesPoint(k: nat)
    requires 10 <= k <= 22
    ensures At(START, TO_THE_MERGE, k) == Point(k)
  {
    hide Next, Point, At;
    if k == 10 {
      ReachesStage(TO_THE_MERGE, 10);
      SettlementTwice.SceneTen();
      assert Point(10) == SettlementTwice.Scene(10) by { PointTen(); }
    } else {
      ReachesPoint(k - 1);
      AtNext(START, TO_THE_MERGE, k - 1);
      PointStep(k - 1);
    }
  }

  lemma PointTen()
    ensures Point(10) == SettlementTwice.Scene(10)
  {
  }

  /** A run that ends with the job merged and its fence still in the context. */
  lemma MergedWithFence()
    ensures Initial(START) && FIRST in Run(START, TO_THE_MERGE).jobs
    ensures Run(START, TO_THE_MERGE).jobs[FIRST].status.Merged? && Carries(Run(START, TO_THE_MERGE), FIRST)
  {
    hide At, Run, Next, Initial, PREPARED, TAKEN, CLAIMED, MARKED, DONE;
    ReachesPoint(22);
    TakenFields();
    ProtocolTheorems.AtTheEnd(START, TO_THE_MERGE);
    SettlementTwice.StartIsInitial();
  }

  // ------------------------------------------------------- a fence in the way

  const LET_GO := Transition(CLAIMED.(lease := None, guard := None, availableAt := 0), Retryable)

  /** A claim fences the context, releases the job for a retry, and crashes before it clears the fence. */
  const TO_THE_RELEASE: seq<Action> := TO_THE_SWAP[..4] + [Do(1, Write(Release(0)), 0)]

  lemma LetGoFields()
    ensures Leased(CLAIMED, 1, 0, Release(0)) == Some(LET_GO) && LET_GO.id == FIRST
    ensures LET_GO.frozen.messages == [OPENING] && LET_GO.summary.None? && Claimable(LET_GO, 1)
  {
  }

  lemma ReachesRelease()
    ensures Run(START, TO_THE_RELEASE) == Only(LET_GO, FENCED, Idle)
  {
    LetGoFields();
    hide CLAIMED, LET_GO, Next, Leased, Run;
    ReachesStage(TO_THE_SWAP, 4);
    RunSnoc(START, TO_THE_SWAP[..4], Do(1, Write(Release(0)), 0));
    WriteGives(Stage(4), 1, Release(0), 0, LET_GO);
  }

  /**
   * A job that can be claimed again, with its context intact, and yet no claim at that time merges it: the fence left
   * behind stands in the way until it expires.
   */
  lemma StrandedByFence()
    ensures var s := Run(START, TO_THE_RELEASE);
      && Initial(START) && FIRST in s.jobs && 2 !in s.workers && Claimable(s.jobs[FIRST], 1)
      && !CompactionService.CanMerge(s, FIRST, 2, 1, "s") && CompactionService.CanMerge(s, FIRST, 2, 10, "s")
  {
    ReachesRelease();
    LetGoFields();
    SettlementTwice.StartIsInitial();
    hide LET_GO, CLAIMED, Run, Claimable, Initial;
    assert "s"[0] !in " \n\t\r";
  }
}
