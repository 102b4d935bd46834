/**
 * A Conversation's settlement is not pinned to the last applied job: a worker
 * that pauses before it can settle its job again after a later job's.
 */
module SettlementTwice {
  import opened CompactionTypes
  import opened JobCommands
  import opened Protocol
  import opened ProtocolTheorems
  import opened Counterexamples
  import ProtocolSteps
  import ServiceSteps

  const SECOND := JobId(OWNER, "b")
  const LATER := Message(None, "q")

  const ENDED := Finish(TAKEN, Failed)

  const QUEUED2 := Created(SECOND, None, FrozenPrefix(1, [DIGEST]), None, None, 0, 0)
  const CLAIMED2 := Claimed(QUEUED2, 3, 30)
  const SUMMARIZING2 := Transition(CLAIMED2, Summarizing)
  const READY2 := Transition(SUMMARIZING2.(summary := Some("s")), SummaryReady)
  const PREPARED2 := Transition(READY2.(replacement := Some(LATER)), MergePrepared)

  const ONCE := ContextDoc([OPENING], [DIGEST], 1, Some(FIRST), None)
  const FENCED2 := ONCE.(fence := Some(Fence(SECOND, 3, 30)))
  const TWICE := ContextDoc([OPENING], [LATER], 2, Some(SECOND), None)

  const SETTLED := Runtime(Some(FIRST), 0, 0, 1, None)
  const SETTLED2 := Runtime(Some(SECOND), 0, 0, 2, None)

  /**
   * Action `k` of the run, from the swap on.  The first worker swaps and pauses
   * before it settles; a second one settles, and fails the job; a third one
   * takes the next job through its settlement; then the first one wakes.
   */
  function Act(k: nat): Action {
    if k <= 10 then Do(1, ApplySwap, 0)
    else if k == 11 then Do(1, SettleRead, 0)
    else if k == 12 then Do(1, SettleOwner, 0)
    else if k == 13 then Claim(FIRST, 2, 10, 10)
    else if k == 14 then Do(2, SettleRead, 10)
    else if k == 15 then Do(2, SettleOwner, 10)
    else if k == 16 then Do(2, SettleRuntime, 10)
    else if k == 17 then Do(2, Abort, 10)
    else if k == 18 then Do(2, Write(Fail), 10)
    else Sequel(k)
  }

  function Sequel(k: nat): Action {
    if k == 19 then Create(SECOND, None, FrozenPrefix(1, [DIGEST]), None, None, 0, 0)
    else if k == 20 then Claim(SECOND, 3, 10, 20)
    else if k == 21 then Do(3, EstablishRead, 20)
    else if k == 22 then Do(3, EstablishWrite, 20)
    else if k == 23 then Do(3, Write(Begin), 20)
    else if k == 24 then Do(3, Write(Save("s")), 20)
    else if k == 25 then Do(3, PrepareRead(LATER), 20)
    else if k == 26 then Do(3, Write(Prepare(LATER)), 20)
    else if k == 27 then Do(3, ApplyRead, 20)
    else if k == 28 then Do(3, ApplySnapshot, 20)
    else if k == 29 then Do(3, ApplySwap, 20)
    else if k == 30 then Do(3, SettleRead, 20)
    else if k == 31 then Do(3, SettleOwner, 20)
    else if k == 32 then Do(3, SettleRuntime, 20)
    else Do(1, SettleRuntime, 30)
  }

  const RUN: seq<Action> := TO_THE_SWAP + seq(24, i requires 0 <= i < 24 => Act(10 + i))

  function First(a: Job, d: ContextDoc, r: Runtime, one: Main, two: Option<Main>, settled: set<JobId>): Sys {
    Sys(5, map[FIRST := a], map[OWNER := d], map[OWNER := r],
        if two.None? then map[1 := Worker(FIRST, 10, CLAIMED, one, Resting)]
        else map[1 := Worker(FIRST, 10, CLAIMED, one, Resting), 2 := Worker(FIRST, 10, TAKEN, two.value, Resting)],
        History({FIRST}, settled, {}, map[]))
  }

  function Second(b: Job, d: ContextDoc, r: Runtime, three: Main, swapped: set<JobId>, settled: set<JobId>): Sys {
    Sys(5, map[FIRST := ENDED, SECOND := b], map[OWNER := d], map[OWNER := r],
        map[1 := Worker(FIRST, 10, CLAIMED, SettlingRuntime(PREPARED), Resting),
            2 := Worker(FIRST, 10, TAKEN, Idle, Resting),
            3 := Worker(SECOND, 10, CLAIMED2, three, Resting)],
        History(swapped, settled, {}, map[]))
  }

  /** The state before action `k` of the run. */
  function Scene(k: nat): Sys {
    var paused := SettlingRuntime(PREPARED);
    if k <= 10 then Stage(k)
    else if k == 11 then First(PREPARED, ONCE, EMPTY_RUNTIME, Idle, None, {})
    else if k == 12 then First(PREPARED, ONCE, EMPTY_RUNTIME, Settling(PREPARED), None, {})
    else if k == 13 then First(PREPARED, ONCE, EMPTY_RUNTIME, paused, None, {})
    else if k == 14 then First(TAKEN, ONCE, EMPTY_RUNTIME, paused, Some(Idle), {})
    else if k == 15 then First(TAKEN, ONCE, EMPTY_RUNTIME, paused, Some(Settling(TAKEN)), {})
    else if k == 16 then First(TAKEN, ONCE, EMPTY_RUNTIME, paused, Some(SettlingRuntime(TAKEN)), {})
    else if k == 17 then First(TAKEN, ONCE, SETTLED, paused, Some(SettleVerifying(TAKEN)), {FIRST})
    else if k == 18 then First(TAKEN, ONCE, SETTLED, paused, Some(Idle), {FIRST})
    else if k == 19 then First(ENDED, ONCE, SETTLED, paused, Some(Idle), {FIRST})
    else if k == 20 then
      First(ENDED, ONCE, SETTLED, paused, Some(Idle), {FIRST}).(jobs := map[FIRST := ENDED, SECOND := QUEUED2])
    else Later(k)
  }

  function Later(k: nat): Sys {
    if k == 21 then Second(CLAIMED2, ONCE, SETTLED, Idle, {FIRST}, {FIRST})
    else if k == 22 then Second(CLAIMED2, ONCE, SETTLED, Establishing(30), {FIRST}, {FIRST})
    else if k == 23 then Second(CLAIMED2, FENCED2, SETTLED, Idle, {FIRST}, {FIRST})
    else if k == 24 then Second(SUMMARIZING2, FENCED2, SETTLED, Idle, {FIRST}, {FIRST})
    else if k == 25 then Second(READY2, FENCED2, SETTLED, Idle, {FIRST}, {FIRST})
    else if k == 26 then Second(READY2, FENCED2, SETTLED, Preparing(READY2, LATER), {FIRST}, {FIRST})
    else if k == 27 then Second(PREPARED2, FENCED2, SETTLED, Idle, {FIRST}, {FIRST})
    else if k == 28 then Second(PREPARED2, FENCED2, SETTLED, Applying(PREPARED2), {FIRST}, {FIRST})
    else if k == 29 then Second(PREPARED2, FENCED2, SETTLED, Swapping(PREPARED2, 1, [DIGEST]), {FIRST}, {FIRST})
    else if k == 30 then Second(PREPARED2, TWICE, SETTLED, Idle, {FIRST, SECOND}, {FIRST})
    else if k == 31 then Second(PREPARED2, TWICE, SETTLED, Settling(PREPARED2), {FIRST, SECOND}, {FIRST})
    else if k == 32 then Second(PREPARED2, TWICE, SETTLED, SettlingRuntime(PREPARED2), {FIRST, SECOND}, {FIRST})
    else Second(PREPARED2, TWICE, SETTLED2, SettleVerifying(PREPARED2), {FIRST, SECOND}, {FIRST, SECOND})
  }

  predicate Leads(k: nat) {
    Next(Scene(k), Act(k)) == Scene(k + 1)
  }

  lemma PreparedFields()
    ensures PREPARED.id == FIRST && PREPARED.status.MergePrepared? && PREPARED.replacement == Some(DIGEST)
    ensures PREPARED.frozen.messages == [OPENING] && !PREPARED.runtimeSettled && PREPARED.summary.Some?
    ensures LiveLease(PREPARED, 1, 0) && PREPARED.SettlementContext() == None && Claimable(PREPARED, 10)
    ensures TAKEN.id == FIRST && TAKEN.status.MergePrepared? && TAKEN.replacement.Some? && !TAKEN.runtimeSettled
    ensures LiveLease(TAKEN, 2, 10) && TAKEN.SettlementContext() == None && Claimed(PREPARED, 2, 20) == TAKEN
    ensures Leased(TAKEN, 2, 10, Fail) == Some(ENDED) && ENDED.id == FIRST && ENDED.activeKey.None? && ENDED.keys == {"a"}
  {
  }

  lemma FirstSwaps()
    ensures Leads(10)
  {
    PreparedFields();
    hide PREPARED, TAKEN, ENDED, CLAIMED, QUEUED2, CLAIMED2, SUMMARIZING2, READY2, PREPARED2, Next;
    assert [DIGEST] + [OPENING][1..] == [DIGEST];
    ServiceSteps.SwapParts(Scene(10), 1, 0);
    SwapHistory(Scene(10), 1, 0);
  }

  lemma FirstReads()
    ensures Leads(11)
  {
    PreparedFields();
    hide PREPARED, TAKEN, ENDED, CLAIMED, QUEUED2, CLAIMED2, SUMMARIZING2, READY2, PREPARED2, Next, Read, LiveLease;
    hide Leased, Claimable, Claimed, Created, Stage, SettledRuntime, SwapEnabled;
    ServiceSteps.LookParts(Scene(11), 1, SettleRead, 0);
    ServiceSteps.SettleReads(Scene(11), 1, 0);
  }

  lemma FirstPauses()
    ensures Leads(12)
  {
    PreparedFields();
    hide PREPARED, TAKEN, ENDED, CLAIMED, QUEUED2, CLAIMED2, SUMMARIZING2, READY2, PREPARED2, Next, Read, LiveLease;
    hide Leased, Claimable, Claimed, Created, Stage, SettledRuntime, SwapEnabled;
    ServiceSteps.LookParts(Scene(12), 1, SettleOwner, 0);
    ServiceSteps.OwnerReads(Scene(12), 1, 0);
  }

  lemma SecondTakesOver()
    ensures Leads(13)
  {
    PreparedFields();
    hide PREPARED, TAKEN, ENDED, CLAIMED, QUEUED2, CLAIMED2, SUMMARIZING2, READY2, PREPARED2, Claimable, Claimed, Stage;
  }

  lemma SecondReads()
    ensures Leads(14)
  {
    PreparedFields();
    hide PREPARED, TAKEN, ENDED, CLAIMED, QUEUED2, CLAIMED2, SUMMARIZING2, READY2, PREPARED2, Next, Read, LiveLease;
    hide Leased, Claimable, Claimed, Created, Stage, SettledRuntime, SwapEnabled;
    ServiceSteps.LookParts(Scene(14), 2, SettleRead, 10);
    ServiceSteps.SettleReads(Scene(14), 2, 10);
  }

  lemma SecondSeesOwner()
    ensures Leads(15)
  {
    PreparedFields();
    hide PREPARED, TAKEN, ENDED, CLAIMED, QUEUED2, CLAIMED2, SUMMARIZING2, READY2, PREPARED2, Next, Read, LiveLease;
    hide Leased, Claimable, Claimed, Created, Stage, SettledRuntime, SwapEnabled;
    ServiceSteps.LookParts(Scene(15), 2, SettleOwner, 10);
    ServiceSteps.OwnerReads(Scene(15), 2, 10);
  }

  lemma SecondSettles()
    ensures Leads(16)
  {
    PreparedFields();
    hide PREPARED, TAKEN, ENDED, CLAIMED, QUEUED2, CLAIMED2, SUMMARIZING2, READY2, PREPARED2, Next, Stage;
    ServiceSteps.SettlementParts(Scene(16), 2, 10);
    SettlementHistory(Scene(16), 2, 10);
  }

  lemma SecondAborts()
    ensures Leads(17)
  {
    PreparedFields();
    hide PREPARED, TAKEN, ENDED, CLAIMED, QUEUED2, CLAIMED2, SUMMARIZING2, READY2, PREPARED2, Next, Read, LiveLease;
    hide Leased, Claimable, Claimed, Created, Stage, SettledRuntime, SwapEnabled;
    ServiceSteps.LookParts(Scene(17), 2, Abort, 10);
    ServiceSteps.ErrorReads(Scene(17), 2, 10);
  }

  lemma SecondFails()
    ensures Leads(18)
  {
    PreparedFields();
    hide PREPARED, TAKEN, ENDED, CLAIMED, QUEUED2, CLAIMED2, SUMMARIZING2, READY2, PREPARED2, Next, Leased, Stage;
    ServiceSteps.IdleMay(Scene(18), 2);
    WriteGives(Scene(18), 2, Fail, 10, ENDED);
  }

  lemma LaterFields()
    ensures ENDED.activeKey.None? && ENDED.keys == {"a"} && QUEUED2.id == SECOND && QUEUED2.keys == {"b"}
    ensures Claimable(QUEUED2, 20) && Claimed(QUEUED2, 3, 30) == CLAIMED2
    ensures CLAIMED2.lease == Some(Lease(3, 30)) && CLAIMED2.summary.None?
    ensures LiveLease(CLAIMED2, 3, 20) && LiveLease(READY2, 3, 20) && LiveLease(PREPARED2, 3, 20)
    ensures Leased(CLAIMED2, 3, 20, Begin) == Some(SUMMARIZING2) && SUMMARIZING2.id == SECOND
    ensures Leased(SUMMARIZING2, 3, 20, Save("s")) == Some(READY2) && READY2.id == SECOND
    ensures READY2.status.SummaryReady? && READY2.summary.Some? && READY2.replacement.None?
    ensures Leased(READY2, 3, 20, Prepare(LATER)) == Some(PREPARED2) && PREPARED2.id == SECOND
    ensures PREPARED2.status.MergePrepared? && PREPARED2.replacement == Some(LATER) && !PREPARED2.runtimeSettled
    ensures PREPARED2.frozen.messages == [DIGEST] && PREPARED2.SettlementContext() == None
  {
    assert "s"[0] !in " \n\t\r";
  }

  lemma NextJobEnqueued()
    ensures Leads(19)
  {
    LaterFields();
    assert QUEUED2 == Created(SECOND, None, FrozenPrefix(1, [DIGEST]), None, None, 0, 0);
    assert Insertable(Scene(19), SECOND) by {
      assert "b" != "a";
    }
    hide PREPARED, TAKEN, ENDED, CLAIMED, QUEUED2, TO_THE_SWAP, Created, Stage, Insertable;
  }

  lemma ThirdClaims()
    ensures Leads(20)
  {
    hide Next, First, Second, PREPARED, TAKEN, ENDED, CLAIMED, QUEUED2, CLAIMED2, Stage;
    ClaimsNext(First(ENDED, ONCE, SETTLED, SettlingRuntime(PREPARED), Some(Idle), {FIRST}));
  }

  lemma ClaimsNext(s: Sys)
    requires s == First(ENDED, ONCE, SETTLED, SettlingRuntime(PREPARED), Some(Idle), {FIRST})
    ensures Next(s.(jobs := map[FIRST := ENDED, SECOND := QUEUED2]), Claim(SECOND, 3, 10, 20))
         == Second(CLAIMED2, ONCE, SETTLED, Idle, {FIRST}, {FIRST})
  {
    QueuedFields();
    hide PREPARED, TAKEN, ENDED, CLAIMED, QUEUED2, CLAIMED2, Claimable, Claimed, Next;
    ClaimGives(s.(jobs := map[FIRST := ENDED, SECOND := QUEUED2]), SECOND, 3, 10, 20, CLAIMED2);
  }

  lemma ClaimGives(s: Sys, id: JobId, t: Token, leaseMs: Time, now: Time, k: Job)
    requires id in s.jobs && t !in s.workers && Claimable(s.jobs[id], now)
    requires Claimed(s.jobs[id], t, now + leaseMs) == k
    ensures Next(s, Claim(id, t, leaseMs, now)) == PutWorker(PutJob(s, k), t, Worker(id, leaseMs, k, Idle, Resting))
  {
    hide Claimable, Claimed;
  }

  lemma QueuedFields()
    ensures Claimable(QUEUED2, 20) && Claimed(QUEUED2, 3, 30) == CLAIMED2 && CLAIMED2.id == SECOND
  {
  }

  lemma ThirdReadsLease()
    ensures Leads(21)
  {
    LaterFields();
    hide Second, PREPARED, TAKEN, ENDED, CLAIMED, QUEUED2, CLAIMED2, SUMMARIZING2, READY2, PREPARED2, Next, Read;
    hide LiveLease, Leased, Claimable, Claimed, Created, Stage, SettledRuntime, SwapEnabled;
    SecondParts(CLAIMED2, ONCE, SETTLED, Idle, {FIRST}, {FIRST});
    ThirdLooks(CLAIMED2, ONCE, SETTLED, Idle, {FIRST}, {FIRST}, EstablishRead);
    ServiceSteps.EstablishReads(Scene(21), 3, 20);
  }

  lemma ThirdFences()
    ensures Leads(22)
  {
    LaterFields();
    hide Second, PREPARED, TAKEN, ENDED, CLAIMED, QUEUED2, CLAIMED2, SUMMARIZING2, READY2, PREPARED2, Next, Stage;
    SecondParts(CLAIMED2, ONCE, SETTLED, Establishing(30), {FIRST}, {FIRST});
    SecondParts(CLAIMED2, FENCED2, SETTLED, Idle, {FIRST}, {FIRST});
    SecondUpdates(CLAIMED2, ONCE, SETTLED, Establishing(30), FENCED2, SETTLED, Idle, {FIRST}, {FIRST}, {FIRST}, {FIRST});
    ServiceSteps.EstablishParts(Scene(22), 3, 20);
    EstablishHistory(Scene(22), 3, 20);
  }

  lemma ThirdBegins()
    ensures Leads(23)
  {
    LaterFields();
    hide PREPARED, TAKEN, ENDED, CLAIMED, QUEUED2, CLAIMED2, SUMMARIZING2, READY2, PREPARED2, Next, Leased, Stage;
    WriteGives(Scene(23), 3, Begin, 20, SUMMARIZING2);
  }

  lemma ThirdSaves()
    ensures Leads(24)
  {
    LaterFields();
    hide PREPARED, TAKEN, ENDED, CLAIMED, QUEUED2, CLAIMED2, SUMMARIZING2, READY2, PREPARED2, Next, Leased, Stage;
    WriteGives(Scene(24), 3, Save("s"), 20, READY2);
  }

  lemma ThirdReadsSummary()
    ensures Leads(25)
  {
    LaterFields();
    hide Second, PREPARED, TAKEN, ENDED, CLAIMED, QUEUED2, CLAIMED2, SUMMARIZING2, READY2, PREPARED2, Next, Read;
    hide LiveLease, Leased, Claimable, Claimed, Created, Stage, SettledRuntime, SwapEnabled;
    SecondParts(READY2, FENCED2, SETTLED, Idle, {FIRST}, {FIRST});
    ThirdLooks(READY2, FENCED2, SETTLED, Idle, {FIRST}, {FIRST}, PrepareRead(LATER));
    ServiceSteps.PrepareReads(Scene(25), 3, 20, LATER);
  }

  lemma ThirdPrepares()
    ensures Leads(26)
  {
    LaterFields();
    hide PREPARED, TAKEN, ENDED, CLAIMED, QUEUED2, CLAIMED2, SUMMARIZING2, READY2, PREPARED2, Next, Leased, Stage;
    WriteGives(Scene(26), 3, Prepare(LATER), 20, PREPARED2);
  }

  lemma ThirdReadsJob()
    ensures Leads(27)
  {
    LaterFields();
    hide Second, PREPARED, TAKEN, ENDED, CLAIMED, QUEUED2, CLAIMED2, SUMMARIZING2, READY2, PREPARED2, Next, Read;
    hide LiveLease, Leased, Claimable, Claimed, Created, Stage, SettledRuntime, SwapEnabled;
    SecondParts(PREPARED2, FENCED2, SETTLED, Idle, {FIRST}, {FIRST});
    ThirdLooks(PREPARED2, FENCED2, SETTLED, Idle, {FIRST}, {FIRST}, ApplyRead);
    ServiceSteps.ApplyReads(Scene(27), 3, 20);
  }

  lemma ThirdReadsContext()
    ensures Leads(28)
  {
    LaterFields();
    hide Second, PREPARED, TAKEN, ENDED, CLAIMED, QUEUED2, CLAIMED2, SUMMARIZING2, READY2, PREPARED2, Next, Read;
    hide LiveLease, Leased, Claimable, Claimed, Created, Stage, SettledRuntime, SwapEnabled;
    SecondParts(PREPARED2, FENCED2, SETTLED, Applying(PREPARED2), {FIRST}, {FIRST});
    ThirdLooks(PREPARED2, FENCED2, SETTLED, Applying(PREPARED2), {FIRST}, {FIRST}, ApplySnapshot);
    ServiceSteps.ContextReads(Scene(28), 3, 20);
  }

  lemma ThirdSwaps()
    ensures Leads(29)
  {
    hide Next, First, Second, PREPARED, PREPARED2, TAKEN, ENDED, CLAIMED, CLAIMED2, Stage;
    SwapsLater();
  }

  lemma SwapsLater()
    ensures Next(Second(PREPARED2, FENCED2, SETTLED, Swapping(PREPARED2, 1, [DIGEST]), {FIRST}, {FIRST}),
                 Do(3, ApplySwap, 20))
         == Second(PREPARED2, TWICE, SETTLED, Idle, {FIRST, SECOND}, {FIRST})
  {
    LaterFields();
    hide Second, PREPARED, TAKEN, ENDED, CLAIMED, QUEUED2, CLAIMED2, SUMMARIZING2, READY2, PREPARED2, Next, Stage;
    assert [LATER] + [DIGEST][1..] == [LATER];
    var s := Second(PREPARED2, FENCED2, SETTLED, Swapping(PREPARED2, 1, [DIGEST]), {FIRST}, {FIRST});
    SecondParts(PREPARED2, FENCED2, SETTLED, Swapping(PREPARED2, 1, [DIGEST]), {FIRST}, {FIRST});
    SecondParts(PREPARED2, TWICE, SETTLED, Idle, {FIRST, SECOND}, {FIRST});
    SecondUpdates(PREPARED2, FENCED2, SETTLED, Swapping(PREPARED2, 1, [DIGEST]), TWICE, SETTLED, Idle,
                  {FIRST}, {FIRST}, {FIRST, SECOND}, {FIRST});
    ServiceSteps.SwapParts(s, 3, 20);
    SwapHistory(s, 3, 20);
  }

  lemma ThirdReadsSettlement()
    ensures Leads(30)
  {
    LaterFields();
    hide Second, PREPARED, TAKEN, ENDED, CLAIMED, QUEUED2, CLAIMED2, SUMMARIZING2, READY2, PREPARED2, Next, Read;
    hide LiveLease, Leased, Claimable, Claimed, Created, Stage, SettledRuntime, SwapEnabled;
    SecondParts(PREPARED2, TWICE, SETTLED, Idle, {FIRST, SECOND}, {FIRST});
    ThirdLooks(PREPARED2, TWICE, SETTLED, Idle, {FIRST, SECOND}, {FIRST}, SettleRead);
    ServiceSteps.SettleReads(Scene(30), 3, 20);
  }

  lemma ThirdSeesOwner()
    ensures Leads(31)
  {
    LaterFields();
    hide Second, PREPARED, TAKEN, ENDED, CLAIMED, QUEUED2, CLAIMED2, SUMMARIZING2, READY2, PREPARED2, Next, Read;
    hide LiveLease, Leased, Claimable, Claimed, Created, Stage, SettledRuntime, SwapEnabled;
    SecondParts(PREPARED2, TWICE, SETTLED, Settling(PREPARED2), {FIRST, SECOND}, {FIRST});
    ThirdLooks(PREPARED2, TWICE, SETTLED, Settling(PREPARED2), {FIRST, SECOND}, {FIRST}, SettleOwner);
    ServiceSteps.OwnerReads(Scene(31), 3, 20);
  }

  lemma ThirdSettles()
    ensures Leads(32)
  {
    hide Next, First, Second, PREPARED, PREPARED2, TAKEN, ENDED, CLAIMED, CLAIMED2, Stage;
    SettlesLater();
  }

  lemma SettlesLater()
    ensures Next(Second(PREPARED2, TWICE, SETTLED, SettlingRuntime(PREPARED2), {FIRST, SECOND}, {FIRST}),
                 Do(3, SettleRuntime, 20))
         == Second(PREPARED2, TWICE, SETTLED2, SettleVerifying(PREPARED2), {FIRST, SECOND}, {FIRST, SECOND})
  {
    LaterFields();
    assert SettledRuntime(SETTLED, PREPARED2) == SETTLED2;
    hide SettledRuntime;
    hide Second, PREPARED, TAKEN, ENDED, CLAIMED, QUEUED2, CLAIMED2, SUMMARIZING2, READY2, PREPARED2, Next, Stage;
    var s := Second(PREPARED2, TWICE, SETTLED, SettlingRuntime(PREPARED2), {FIRST, SECOND}, {FIRST});
    SecondParts(PREPARED2, TWICE, SETTLED, SettlingRuntime(PREPARED2), {FIRST, SECOND}, {FIRST});
    SecondParts(PREPARED2, TWICE, SETTLED2, SettleVerifying(PREPARED2), {FIRST, SECOND}, {FIRST, SECOND});
    SecondUpdates(PREPARED2, TWICE, SETTLED, SettlingRuntime(PREPARED2), TWICE, SETTLED2, SettleVerifying(PREPARED2),
                  {FIRST, SECOND}, {FIRST}, {FIRST, SECOND}, {FIRST, SECOND});
    ServiceSteps.SettlementParts(s, 3, 20);
    SettlementHistory(s, 3, 20);
  }

  /** A swap that takes effect is recorded, and nothing else is. */
  lemma SwapHistory(s: Sys, t: Token, now: Time)
    requires t in s.workers && s.workers[t].job in s.jobs && s.workers[t].main.Swapping?
    ensures var s' := Next(s, Do(t, ApplySwap, now));
      s'.maxAttempts == s.maxAttempts && s'.history
        == if SwapEnabled(s, t, now) then s.history.(swapped := s.history.swapped + {s.workers[t].job}) else s.history
  {
    hide SwappedDoc;
  }

  lemma SettlementHistory(s: Sys, t: Token, now: Time)
    requires t in s.workers && s.workers[t].job in s.jobs && s.workers[t].main.SettlingRuntime?
    ensures var s' := Next(s, Do(t, SettleRuntime, now));
      s'.maxAttempts == s.maxAttempts && s'.history
        == if SettleEnabled(s, t) then s.history.(settled := s.history.settled + {s.workers[t].job}) else s.history
  {
    hide SettledRuntime;
  }

  lemma SecondParts(b: Job, d: ContextDoc, r: Runtime, m: Main, swapped: set<JobId>, settled: set<JobId>)
    ensures var s := Second(b, d, r, m, swapped, settled);
      && s.maxAttempts == 5 && s.history == History(swapped, settled, {}, map[])
      && SECOND in s.jobs && s.jobs[SECOND] == b && OWNER in s.docs && s.docs[OWNER] == d
      && OWNER in s.runtimes && s.runtimes[OWNER] == r
      && 3 in s.workers && s.workers[3] == Worker(SECOND, 10, CLAIMED2, m, Resting)
  {
  }

  lemma SecondUpdates(b: Job, d: ContextDoc, r: Runtime, m: Main, e: ContextDoc, q: Runtime, n: Main,
                      swapped: set<JobId>, settled: set<JobId>, swapped': set<JobId>, settled': set<JobId>)
    ensures var s, s' := Second(b, d, r, m, swapped, settled), Second(b, e, q, n, swapped', settled');
      && s'.jobs == s.jobs && s'.docs == s.docs[OWNER := e] && s'.runtimes == s.runtimes[OWNER := q]
      && s'.workers == s.workers[3 := Worker(SECOND, 10, CLAIMED2, n, Resting)]
      && s.docs == s.docs[OWNER := d] && s.runtimes == s.runtimes[OWNER := r]
  {
    hide CLAIMED, TAKEN, PREPARED, ENDED, CLAIMED2;
  }

  /** A read of the third worker changes only where it stands. */
  lemma ThirdLooks(b: Job, d: ContextDoc, r: Runtime, m: Main, swapped: set<JobId>, settled: set<JobId>, move: Move)
    requires ProtocolSteps.IsRead(move) && (Starts(move) ==> m.Idle?)
    ensures var s := Second(b, d, r, m, swapped, settled);
      && 3 in s.workers && s.workers[3].job in s.jobs
      && Next(s, Do(3, move, 20)) == Second(b, d, r, Read(s, 3, move, 20), swapped, settled)
  {
    hide Next, Read, ENDED, CLAIMED, TAKEN, CLAIMED2, PREPARED;
    var s := Second(b, d, r, m, swapped, settled);
    ServiceSteps.LookParts(s, 3, move, 20);
  }

  lemma EstablishHistory(s: Sys, t: Token, now: Time)
    requires t in s.workers && s.workers[t].job in s.jobs && s.workers[t].main.Establishing?
    ensures Next(s, Do(t, EstablishWrite, now)).maxAttempts == s.maxAttempts
  {
    hide FenceReusable;
  }

  lemma EarlySceneStep(k: nat)
    requires 10 <= k < 22
    ensures Leads(k)
  {
    hide Leads;
    FirstSwaps();
    FirstReads();
    FirstPauses();
    SecondTakesOver();
    SecondReads();
    SecondSeesOwner();
    SecondSettles();
    SecondAborts();
    SecondFails();
    NextJobEnqueued();
    ThirdClaims();
    ThirdReadsLease();
  }

  lemma LateSceneStep(k: nat)
    requires 22 <= k < 33
    ensures Leads(k)
  {
    hide Leads;
    ThirdFences();
    ThirdBegins();
    ThirdSaves();
    ThirdReadsSummary();
    ThirdPrepares();
    ThirdReadsJob();
    ThirdReadsContext();
    ThirdSwaps();
    ThirdReadsSettlement();
    ThirdSeesOwner();
    ThirdSettles();
  }

  lemma {:induction false} ReachesScene(k: nat)
    requires 10 <= k <= 33
    ensures At(START, RUN, k) == Scene(k)
  {
    hide Next, Scene, At, Act;
    if k == 10 {
      ReachesStage(RUN, 10);
      SceneTen();
    } else {
      ReachesScene(k - 1);
      AtNext(START, RUN, k - 1);
      if k - 1 < 22 {
        EarlySceneStep(k - 1);
      } else {
        LateSceneStep(k - 1);
      }
    }
  }

  lemma SceneTen()
    ensures Scene(10) == Stage(10)
  {
  }

  /** One job's settlement takes effect at two points of one run. */
  lemma ConversationSettledTwice()
    ensures Initial(START)
    ensures OccursAt(Settlement, START, RUN, 16, FIRST) && OccursAt(Settlement, START, RUN, 33, FIRST)
  {
    hide At, Run, Next, Initial, PREPARED, TAKEN, ENDED, PREPARED2, CLAIMED, CLAIMED2;
    ReachesScene(16);
    ReachesScene(33);
    BothSettle();
    hide Scene, Settles;
    StartIsInitial();
  }

  lemma BothSettle()
    ensures Settles(Scene(16), Act(16), FIRST) && Settles(Scene(33), Act(33), FIRST)
  {
    hide PREPARED, TAKEN, ENDED, PREPARED2, CLAIMED, CLAIMED2, Stage;
  }

  lemma StartIsInitial()
    ensures Initial(START)
  {
  }
}
