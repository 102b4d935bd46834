/**
 * What the protocol does not guarantee, shown by concrete runs: a swap after
 * the cancellation once clocks disagree, and here the way to any such run.
 * `FenceLease.SwapIsLateExactlyWhen` says when a swap comes late.
 */
module Counterexamples {
  import opened CompactionTypes
  import opened JobCommands
  import opened Protocol
  import opened ProtocolInvariant
  import opened ProtocolSteps
  import opened ProtocolTheorems

  const OWNER := ConversationKey("c")
  const FIRST := JobId(OWNER, "a")
  const OPENING := Message(None, "m")
  const DIGEST := Message(None, "r")

  const START := Sys(5, map[], map[OWNER := ContextDoc([OPENING], [], 0, None, None)], map[OWNER := EMPTY_RUNTIME],
                     map[], History({}, {}, {}, map[]))

  const QUEUED := Created(FIRST, None, FrozenPrefix(0, [OPENING]), None, None, 0, 0)
  const CLAIMED := Claimed(QUEUED, 1, 10)
  const SUMMARIZING := Transition(CLAIMED, Summarizing)
  const READY := Transition(SUMMARIZING.(summary := Some("s")), SummaryReady)
  const PREPARED := Transition(READY.(replacement := Some(DIGEST)), MergePrepared)

  const FENCED := ContextDoc([OPENING], [], 0, None, Some(Fence(FIRST, 1, 10)))

  /** One worker takes the job to the point of swapping, and pauses there. */
  const TO_THE_SWAP: seq<Action> := [
    Create(FIRST, None, FrozenPrefix(0, [OPENING]), None, None, 0, 0),
    Claim(FIRST, 1, 10, 0),
    Do(1, EstablishRead, 0),
    Do(1, EstablishWrite, 0),
    Do(1, Write(Begin), 0),
    Do(1, Write(Save("s")), 0),
    Do(1, PrepareRead(DIGEST), 0),
    Do(1, Write(Prepare(DIGEST)), 0),
    Do(1, ApplyRead, 0),
    Do(1, ApplySnapshot, 0)
  ]

  function Only(j: Job, d: ContextDoc, main: Main): Sys {
    START.(jobs := map[FIRST := j], docs := map[OWNER := d],
           workers := map[1 := Worker(FIRST, 10, CLAIMED, main, Resting)])
  }

  /** The state before each of those actions. */
  function Stage(k: nat): Sys {
    if k == 0 then START
    else if k == 1 then START.(jobs := map[FIRST := QUEUED])
    else if k == 2 then Only(CLAIMED, START.docs[OWNER], Idle)
    else if k == 3 then Only(CLAIMED, START.docs[OWNER], Establishing(10))
    else if k == 4 then Only(CLAIMED, FENCED, Idle)
    else if k == 5 then Only(SUMMARIZING, FENCED, Idle)
    else if k == 6 then Only(READY, FENCED, Idle)
    else if k == 7 then Only(READY, FENCED, Preparing(READY, DIGEST))
    else if k == 8 then Only(PREPARED, FENCED, Idle)
    else if k == 9 then Only(PREPARED, FENCED, Applying(PREPARED))
    else Only(PREPARED, FENCED, Swapping(PREPARED, 0, [OPENING]))
  }

  lemma ClaimSteps()
    ensures Next(Stage(0), TO_THE_SWAP[0]) == Stage(1) && Next(Stage(1), TO_THE_SWAP[1]) == Stage(2)
  {
  }

  lemma EstablishReadStep()
    ensures Next(Stage(2), TO_THE_SWAP[2]) == Stage(3)
  {
  }

  lemma EstablishWriteStep()
    ensures Next(Stage(3), TO_THE_SWAP[3]) == Stage(4)
  {
  }

  /** A lease-filtered write that takes effect, in a state of one worker. */
  lemma WriteGives(s: Sys, t: Token, c: LeaseCommand, now: Time, k: Job)
    requires t in s.workers && s.workers[t].job in s.jobs && Permitted(s, s.workers[t], c)
    requires Leased(s.jobs[s.workers[t].job], t, now, c) == Some(k)
    requires c.Release? ==> !s.workers[t].main.Failing?
    ensures Next(s, Do(t, Write(c), now)) == PutWorker(PutJob(s, k), t, s.workers[t].(main := Idle))
  {
    hide Leased, Permitted;
  }

  lemma BeginStep()
    ensures Next(Stage(4), TO_THE_SWAP[4]) == Stage(5)
  {
    assert Leased(CLAIMED, 1, 0, Begin) == Some(SUMMARIZING) && SUMMARIZING.id == FIRST && CLAIMED.summary.None?;
    hide QUEUED, CLAIMED, SUMMARIZING, Leased, Next;
    WriteGives(Stage(4), 1, Begin, 0, SUMMARIZING);
  }

  lemma SaveStep()
    ensures Next(Stage(5), TO_THE_SWAP[5]) == Stage(6)
  {
    assert "s"[0] !in " \n\t\r";
    assert Leased(SUMMARIZING, 1, 0, Save("s")) == Some(READY) && READY.id == FIRST;
    hide QUEUED, CLAIMED, SUMMARIZING, READY, Leased, Next;
    WriteGives(Stage(5), 1, Save("s"), 0, READY);
  }

  lemma PrepareReadStep()
    ensures Next(Stage(6), TO_THE_SWAP[6]) == Stage(7)
  {
  }

  lemma PrepareWriteStep()
    ensures Next(Stage(7), TO_THE_SWAP[7]) == Stage(8)
  {
    assert Leased(READY, 1, 0, Prepare(DIGEST)) == Some(PREPARED) && PREPARED.id == FIRST;
    hide READY, PREPARED, QUEUED, CLAIMED, SUMMARIZING, Leased, Next;
    WriteGives(Stage(7), 1, Prepare(DIGEST), 0, PREPARED);
  }

  lemma ApplyReadStep()
    ensures Next(Stage(8), TO_THE_SWAP[8]) == Stage(9)
  {
  }

  lemma ApplySnapshotStep()
    ensures Next(Stage(9), TO_THE_SWAP[9]) == Stage(10)
  {
    assert PREPARED.frozen == FrozenPrefix(0, [OPENING]);
    assert FENCED.Active() == [OPENING];
    hide PREPARED;
  }

  lemma {:induction false} ReachesStage(run: seq<Action>, k: nat)
    requires TO_THE_SWAP <= run && k <= 10
    ensures At(START, run, k) == Stage(k)
  {
    hide Next, Only;
    if k > 0 {
      ReachesStage(run, k - 1);
      AtNext(START, run, k - 1);
      StageStep(k - 1);
      assert run[k - 1] == TO_THE_SWAP[k - 1];
      hide Stage, At;
    }
  }

  lemma StageStep(k: nat)
    requires k < 10
    ensures Next(Stage(k), TO_THE_SWAP[k]) == Stage(k + 1)
  {
    hide Next, Stage;
    ClaimSteps();
    EstablishReadStep();
    EstablishWriteStep();
    BeginStep();
    SaveStep();
    PrepareReadStep();
    PrepareWriteStep();
    ApplyReadStep();
    ApplySnapshotStep();
  }

  // ------------------------------------------------- a swap after cancellation

  const TAKEN := Claimed(PREPARED, 2, 20)
  const RELEASED := Transition(TAKEN.(lease := None, guard := None, availableAt := 10), Retryable)
  const CANCELLED := Finish(RELEASED, Cancelled)

  /** The lease expires, a second worker releases the job, and it is cancelled. */
  const TO_THE_CANCEL: seq<Action> := TO_THE_SWAP + [
    Claim(FIRST, 2, 10, 10),
    Do(2, Write(Release(0)), 10),
    OnJob(FIRST, Cancel("a", None, 10))
  ]

  function Both(j: Job): Sys {
    START.(jobs := map[FIRST := j], docs := map[OWNER := FENCED],
           workers := map[1 := Worker(FIRST, 10, CLAIMED, Swapping(PREPARED, 0, [OPENING]), Resting),
                          2 := Worker(FIRST, 10, TAKEN, Idle, Resting)])
  }

  lemma TakeoverStep()
    ensures Next(Stage(10), Claim(FIRST, 2, 10, 10)) == Both(TAKEN)
  {
    assert Claimable(PREPARED, 10) && PREPARED.id == FIRST;
    hide PREPARED;
  }

  lemma ReleaseStep()
    ensures Next(Both(TAKEN), Do(2, Write(Release(0)), 10)) == Both(RELEASED)
  {
    assert Leased(TAKEN, 2, 10, Release(0)) == Some(RELEASED) && RELEASED.id == FIRST;
    hide TAKEN, RELEASED, PREPARED, CLAIMED, Leased, Next;
    WriteGives(Both(TAKEN), 2, Release(0), 10, RELEASED);
  }

  lemma CancelStep()
    ensures Next(Both(RELEASED), OnJob(FIRST, Cancel("a", None, 10))) == Both(CANCELLED)
  {
    assert RELEASED.id == FIRST && "a" in RELEASED.keys && RELEASED.activeKey.Some? && RELEASED.guard.None?;
    assert RELEASED.status.Retryable?;
    hide RELEASED;
  }

  lemma ReachesCancel()
    ensures Run(START, TO_THE_CANCEL) == Both(CANCELLED)
  {
    ReachesStage(TO_THE_CANCEL, 10);
    AtNext(START, TO_THE_CANCEL, 10);
    AtNext(START, TO_THE_CANCEL, 11);
    AtNext(START, TO_THE_CANCEL, 12);
    TakeoverStep();
    ReleaseStep();
    CancelStep();
    hide Next, Stage, Both, Run;
    assert TO_THE_CANCEL[..13] == TO_THE_CANCEL;
  }

  /**
   * Cancellation does not prevent the swap when the swap's filter carries a
   * clock read before the takeover: the fence it tests is still the old one.
   */
  lemma LateSwap() returns (run: seq<Action>, late: Action)
    ensures Initial(START) && Run(START, run).jobs.Keys == {FIRST}
    ensures Run(START, run).jobs[FIRST].status.Cancelled?
    ensures Swaps(Run(START, run), late, FIRST)
  {
    ReachesCancel();
    run, late := TO_THE_CANCEL, Do(1, ApplySwap, 5);
    assert CANCELLED.status.Cancelled?;
    assert PREPARED.frozen.messages == [OPENING] && PREPARED.replacement.Some?;
    hide CANCELLED, PREPARED, Run;
  }
}
