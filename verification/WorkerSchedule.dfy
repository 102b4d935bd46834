/**
 * The scheduler of a compaction worker: one timer, at most one pump, a bounded
 * set of running claims, and a shutdown that waits for all of them.
 *
 * JavaScript runs one callback at a time, so an event is the code between two
 * awaits.  Any await may also throw.  `Step` is the specification;
 * `CompactionWorker` is the closure that implements it.
 */
module WorkerSchedule {
  import opened CompactionTypes

  /** Where the running pump is suspended. */
  datatype Pump = Flushing | Reaping | Claiming | Releasing(claim: Token)

  datatype Claimed = NoClaim | Got(claim: Token) | Rejected

  /** `stop` suspends on what was outstanding when it last looked. */
  datatype Shutdown = NotAsked | Waiting(tasks: set<Token>, pumps: set<nat>) | Returned

  datatype Event =
    | TimerFires
    | Flushed(ok: bool)
    | Reaped(ok: bool)
    | ClaimReturns(result: Claimed)
    | ReleaseReturns
    | TaskEnds(claim: Token)
    | PumpSettles(pump: nat)
    | Wake
    | Stop
    | StopResumes

  datatype Scheduler = Scheduler(
    concurrency: nat,
    pollMs: nat,
    stopped: bool,
    pump: Option<Pump>,
    wanted: bool,
    timer: Option<nat>,
    running: set<Token>,
    inFlight: set<nat>,
    nextPump: nat,
    shutdown: Shutdown,
    obtained: set<Token>,
    started: set<Token>,
    released: set<Token>
  )
  {
    predicate Pumping() { pump.Some? }
    predicate Idle() { running == {} && inFlight == {} }
  }

  function Start(concurrency: nat, pollMs: nat): Scheduler {
    Scheduler(Bounded(concurrency), if pollMs < 250 then 250 else pollMs,
              false, None, false, Some(0), {}, {}, 0, NotAsked, {}, {}, {})
  }

  function Bounded(concurrency: nat): (r: nat)
    ensures 1 <= r <= 8 && (1 <= concurrency <= 8 ==> r == concurrency)
    ensures (concurrency < 1 ==> r == 1) && (concurrency > 8 ==> r == 8)
  {
    if concurrency < 1 then 1 else if concurrency > 8 then 8 else concurrency
  }

  // ---------------------------------------------------------- specification

  /** A request during a pump is remembered only if it is immediate; a poll never displaces a timer. */
  function Scheduled(s: Scheduler, delay: nat): Scheduler {
    if s.stopped then s
    else if s.Pumping() then s.(wanted := s.wanted || delay == 0)
    else if s.timer.Some? && (delay > 0 || s.timer == Some(0)) then s
    else s.(timer := Some(delay))
  }

  function PumpEnded(s: Scheduler): Scheduler {
    var ended := s.(pump := None);
    if s.stopped then ended
    else if s.wanted then Scheduled(ended.(wanted := false), 0)
    else Scheduled(ended, s.pollMs)
  }

  function NextClaim(s: Scheduler): Scheduler {
    if !s.stopped && |s.running| < s.concurrency then s.(pump := Some(Claiming)) else PumpEnded(s)
  }

  function StopChecks(s: Scheduler): Scheduler {
    s.(shutdown := if s.Idle() then Returned else Waiting(s.running, s.inFlight))
  }

  predicate Enabled(s: Scheduler, e: Event) {
    match e
    case TimerFires => s.timer.Some?
    case Flushed(_) => s.pump == Some(Flushing)
    case Reaped(_) => s.pump == Some(Reaping)
    case ClaimReturns(r) => s.pump == Some(Claiming) && (r.Got? ==> r.claim !in s.obtained)
    case ReleaseReturns => s.pump.Some? && s.pump.value.Releasing?
    case TaskEnds(c) => c in s.running
    case PumpSettles(p) => p in s.inFlight && (s.Pumping() ==> p != s.nextPump - 1)
    case Wake => true
    case Stop => true
    case StopResumes => s.shutdown.Waiting? && s.shutdown.tasks !! s.running && s.shutdown.pumps !! s.inFlight
  }

  function Step(s: Scheduler, e: Event): Scheduler {
    if !Enabled(s, e) then s
    else
      match e
      case TimerFires =>
        var fired := s.(timer := None, inFlight := s.inFlight + {s.nextPump}, nextPump := s.nextPump + 1);
        if s.stopped then fired
        else if s.Pumping() then fired.(wanted := true)
        else fired.(pump := Some(Flushing))
      case Flushed(ok) => if ok then s.(pump := Some(Reaping)) else PumpEnded(s)
      case Reaped(ok) => if ok then NextClaim(s) else PumpEnded(s)
      case ClaimReturns(r) =>
        if !r.Got? then PumpEnded(s)
        else
          var got := s.(obtained := s.obtained + {r.claim});
          if s.stopped then got.(pump := Some(Releasing(r.claim)))
          else NextClaim(got.(running := s.running + {r.claim}, started := s.started + {r.claim}))
      case ReleaseReturns => PumpEnded(s.(released := s.released + {s.pump.value.claim}))
      case TaskEnds(c) =>
        var ended := s.(running := s.running - {c});
        if s.stopped then ended else Scheduled(ended, 0)
      case PumpSettles(p) => s.(inFlight := s.inFlight - {p})
      case Wake => Scheduled(s, 0)
      case Stop => StopChecks(s.(stopped := true, timer := None, wanted := false))
      case StopResumes => StopChecks(s)
  }

  function Steps(s: Scheduler, events: seq<Event>): Scheduler
    decreases |events|
  {
    if events == [] then s else Step(Steps(s, events[..|events| - 1]), events[|events| - 1])
  }

  // -------------------------------------------------------------- invariant

  /**
   * While it runs, exactly one of "timer armed" and "pumping" holds; the timer is immediate or that of the poll, and a
   * remembered request has its pump.
   */
  predicate ClockOk(s: Scheduler) {
    && s.pollMs >= 250
    && (!s.stopped ==> (s.timer.Some? <==> !s.Pumping()))
    && (s.timer.Some? ==> s.timer.value == 0 || s.timer.value == s.pollMs)
    && (s.stopped ==> s.timer.None? && !s.wanted)
    && (s.wanted ==> s.Pumping())
  }

  /** Claims in flight never exceed the concurrency, and a pump claims only into a free slot. */
  predicate CapacityOk(s: Scheduler) {
    && 1 <= s.concurrency <= 8
    && |s.running| <= s.concurrency
    && (s.pump == Some(Claiming) && !s.stopped ==> |s.running| < s.concurrency)
  }

  predicate GivingBack(s: Scheduler, c: Token) {
    s.pump == Some(Releasing(c))
  }

  /** Every claim obtained was started, or is given back, and only a stopped worker gives claims back. */
  predicate ClaimsOk(s: Scheduler) {
    && s.running <= s.started
    && (forall c <- s.started :: c in s.obtained && c !in s.released && !GivingBack(s, c))
    && (forall c <- s.released :: c in s.obtained && !GivingBack(s, c))
    && (forall c <- s.obtained :: c in s.started || c in s.released || GivingBack(s, c))
    && (s.pump.Some? && s.pump.value.Releasing? ==> s.pump.value.claim in s.obtained && s.stopped)
    && (s.released != {} ==> s.stopped)
  }

  /** A shutdown waits for everything outstanding. */
  predicate ShutdownOk(s: Scheduler) {
    && (s.Pumping() ==> s.nextPump > 0 && s.nextPump - 1 in s.inFlight)
    && (s.shutdown.NotAsked? <==> !s.stopped)
    && (s.shutdown.Returned? ==> s.Idle())
    && (s.shutdown.Waiting? ==> s.running <= s.shutdown.tasks && s.inFlight <= s.shutdown.pumps)
  }

  predicate Inv(s: Scheduler) {
    ClockOk(s) && CapacityOk(s) && ClaimsOk(s) && ShutdownOk(s)
  }

  lemma StepKeepsClock(s: Scheduler, e: Event)
    requires ClockOk(s)
    ensures ClockOk(Step(s, e))
  {
  }

  lemma StepKeepsCapacity(s: Scheduler, e: Event)
    requires CapacityOk(s)
    ensures CapacityOk(Step(s, e))
  {
  }

  lemma SameClaims(s: Scheduler, s': Scheduler)
    requires ClaimsOk(s) && s'.running <= s.running && (s.stopped ==> s'.stopped)
    requires s'.obtained == s.obtained && s'.started == s.started && s'.released == s.released
    requires forall c: Token :: GivingBack(s', c) <==> GivingBack(s, c)
    ensures ClaimsOk(s')
  {
    if s'.pump.Some? && s'.pump.value.Releasing? {
      assert GivingBack(s', s'.pump.value.claim);
    }
  }

  lemma ClaimReturnsKeepsClaims(s: Scheduler, c: Token)
    requires ClaimsOk(s) && Enabled(s, ClaimReturns(Got(c)))
    ensures ClaimsOk(Step(s, ClaimReturns(Got(c))))
  {
    if !s.stopped {
      assert ClaimsOk(s.(obtained := s.obtained + {c}, running := s.running + {c}, started := s.started + {c}));
    }
  }

  lemma ReleaseReturnsKeepsClaims(s: Scheduler)
    requires ClaimsOk(s) && Enabled(s, ReleaseReturns)
    ensures ClaimsOk(Step(s, ReleaseReturns))
  {
    assert GivingBack(s, s.pump.value.claim);
  }

  lemma StepKeepsClaims(s: Scheduler, e: Event)
    requires ClaimsOk(s)
    ensures ClaimsOk(Step(s, e))
  {
    hide ClaimsOk;
    if e.ClaimReturns? && e.result.Got? && Enabled(s, e) {
      ClaimReturnsKeepsClaims(s, e.result.claim);
    } else if e.ReleaseReturns? && Enabled(s, e) {
      ReleaseReturnsKeepsClaims(s);
    } else {
      SameClaims(s, Step(s, e));
    }
  }

  lemma StepKeepsShutdown(s: Scheduler, e: Event)
    requires ShutdownOk(s) && ClockOk(s)
    ensures ShutdownOk(Step(s, e))
  {
  }

  lemma StepKeeps(s: Scheduler, e: Event)
    requires Inv(s)
    ensures Inv(Step(s, e))
  {
    hide ClockOk, CapacityOk, ClaimsOk, ShutdownOk, Step;
    StepKeepsClock(s, e);
    StepKeepsCapacity(s, e);
    StepKeepsClaims(s, e);
    StepKeepsShutdown(s, e);
  }

  /** In every run of a worker, at every moment. */
  lemma {:induction false} WorkerInvariant(concurrency: nat, pollMs: nat, events: seq<Event>)
    ensures Inv(Steps(Start(concurrency, pollMs), events))
    decreases |events|
  {
    if events != [] {
      var front := events[..|events| - 1];
      WorkerInvariant(concurrency, pollMs, front);
      StepKeeps(Steps(Start(concurrency, pollMs), front), events[|events| - 1]);
    }
  }

  lemma {:induction false} StepsSplit(s: Scheduler, xs: seq<Event>, ys: seq<Event>)
    ensures Steps(s, xs + ys) == Steps(Steps(s, xs), ys)
    decreases |ys|
  {
    if ys == [] {
      assert xs + ys == xs;
    } else {
      var front := ys[..|ys| - 1];
      assert (xs + ys)[..|xs + ys| - 1] == xs + front;
      StepsSplit(s, xs, front);
    }
  }

  // ------------------------------------------------------------- wake-ups

  /** An immediate pump is due: its timer is armed, or the current pump will arm it. */
  predicate PumpDue(s: Scheduler) {
    s.timer == Some(0) || (s.Pumping() && s.wanted)
  }

  /** Pumps begun so far. */
  function Begun(s: Scheduler): nat { s.nextPump }

  lemma DueUntilBegun(s: Scheduler, e: Event)
    requires Inv(s) && PumpDue(s)
    ensures var s' := Step(s, e); PumpDue(s') || s'.stopped || Begun(s') > Begun(s)
  {
  }

  lemma WakeIsDue(s: Scheduler)
    requires Inv(s) && !s.stopped
    ensures PumpDue(Step(s, Wake))
  {
  }

  lemma BegunGrows(s: Scheduler, e: Event)
    ensures Begun(Step(s, e)) >= Begun(s)
  {
  }

  lemma {:induction false} PumpsOnlyGrow(s: Scheduler, events: seq<Event>)
    ensures Begun(Steps(s, events)) >= Begun(s)
    decreases |events|
  {
    hide Step;
    if events != [] {
      var front := events[..|events| - 1];
      PumpsOnlyGrow(s, front);
      BegunGrows(Steps(s, front), events[|events| - 1]);
    }
  }

  /**
   * No wake-up is lost: at every later moment a pump has begun since, or one is
   * due without waiting for the poll interval, or the worker was stopped.
   */
  lemma {:induction false} WakeIsServed(concurrency: nat, pollMs: nat, before: seq<Event>, after: seq<Event>)
    requires !Steps(Start(concurrency, pollMs), before).stopped
    ensures var woken := Steps(Start(concurrency, pollMs), before + [Wake]);
      var s := Steps(Start(concurrency, pollMs), before + [Wake] + after);
      PumpDue(s) || s.stopped || Begun(s) > Begun(woken)
    decreases |after|
  {
    hide Inv, Step;
    var start := Start(concurrency, pollMs);
    assert (before + [Wake])[..|before|] == before;
    if after == [] {
      WorkerInvariant(concurrency, pollMs, before);
      WakeIsDue(Steps(start, before));
      assert before + [Wake] + after == before + [Wake];
    } else {
      var front, e := after[..|after| - 1], after[|after| - 1];
      var run := before + [Wake] + front;
      WakeIsServed(concurrency, pollMs, before, front);
      WorkerInvariant(concurrency, pollMs, run);
      assert before + [Wake] + after == run + [e] && (run + [e])[..|run|] == run;
      var t := Steps(start, run);
      assert Steps(start, before + [Wake] + after) == Step(t, e);
      StepsSplit(start, before + [Wake], front);
      PumpsOnlyGrow(Steps(start, before + [Wake]), front);
      DueOrStopped(t, e);
    }
  }

  lemma DueOrStopped(s: Scheduler, e: Event)
    requires Inv(s)
    ensures PumpDue(s) ==> var s' := Step(s, e); PumpDue(s') || s'.stopped || Begun(s') > Begun(s)
    ensures s.stopped ==> Step(s, e).stopped
    ensures Begun(Step(s, e)) >= Begun(s)
  {
    if PumpDue(s) {
      DueUntilBegun(s, e);
    }
  }

  // ------------------------------------------------------------- claiming

  predicate Full(s: Scheduler) {
    |s.running| == s.concurrency
  }

  /** The pump's own accesses failed, or a claim of it found nothing. */
  predicate Failed(e: Event) {
    e == Flushed(false) || e == Reaped(false)
  }

  predicate FoundNothing(e: Event) {
    e == ClaimReturns(NoClaim) || e == ClaimReturns(Rejected)
  }

  /** Only a stopped worker is giving a claim back. */
  predicate ReleasesStopped(s: Scheduler) {
    s.pump.Some? && s.pump.value.Releasing? ==> s.stopped
  }

  lemma PumpStep(s: Scheduler, e: Event)
    requires CapacityOk(s) && ReleasesStopped(s) && s.Pumping()
    ensures var s' := Step(s, e);
      && (!s'.Pumping() ==> s'.stopped || Full(s') || Failed(e) || FoundNothing(e))
      && (s'.Pumping() && !s'.stopped && Enabled(s, e) && (e == Reaped(true) || e.ClaimReturns?) ==>
            s'.pump == Some(Claiming) && !Full(s'))
  {
    StepKeepsCapacity(s, e);
  }

  /**
   * A pump ends only if the worker was stopped, every slot is taken, its flush or its reap failed, or a claim of it
   * found nothing; and once its reap succeeded, a pump that has not ended is asking for a claim.
   */
  lemma PumpEndsOnlyWhenDone(concurrency: nat, pollMs: nat, events: seq<Event>, e: Event)
    requires Steps(Start(concurrency, pollMs), events).Pumping()
    ensures var s := Steps(Start(concurrency, pollMs), events);
      var s' := Step(s, e);
      && (!s'.Pumping() ==> s'.stopped || Full(s') || Failed(e) || FoundNothing(e))
      && (s'.Pumping() && !s'.stopped && Enabled(s, e) && (e == Reaped(true) || e.ClaimReturns?) ==>
            s'.pump == Some(Claiming) && !Full(s'))
  {
    WorkerInvariant(concurrency, pollMs, events);
    hide Step, Enabled, CapacityOk, ClockOk, ShutdownOk;
    PumpStep(Steps(Start(concurrency, pollMs), events), e);
  }

  /**
   * The wake-up is answered at this point of the run: a pump begun after it asks for a claim, or found every slot
   * taken, or its flush or reap failed.
   */
  predicate Answers(start: Scheduler, run: seq<Event>, i: nat, begun: nat) {
    && 0 < i <= |run|
    && var s := Steps(start, run[..i]);
    && Begun(s) > begun
    && (s.pump == Some(Claiming) || Full(s) || Failed(run[i - 1]))
  }

  ghost predicate Answered(start: Scheduler, run: seq<Event>, since: nat, begun: nat) {
    exists i: nat :: since < i && Answers(start, run, i, begun)
  }

  /** A pump begun since is on its way to its first claim. */
  predicate OnItsWay(s: Scheduler, begun: nat) {
    Begun(s) > begun && (s.pump == Some(Flushing) || s.pump == Some(Reaping))
  }

  lemma TowardsAClaim(s: Scheduler, e: Event, begun: nat)
    requires Inv(s) && Begun(s) >= begun && !s.stopped && (PumpDue(s) || OnItsWay(s, begun))
    ensures var s' := Step(s, e);
      || s'.stopped || PumpDue(s') || OnItsWay(s', begun)
      || (Begun(s') > begun && (s'.pump == Some(Claiming) || Full(s') || Failed(e)))
  {
  }

  lemma AnswerStays(start: Scheduler, run: seq<Event>, e: Event, since: nat, begun: nat)
    requires Answered(start, run, since, begun)
    ensures Answered(start, run + [e], since, begun)
  {
    hide Step;
    var i: nat :| since < i && Answers(start, run, i, begun);
    assert (run + [e])[..i] == run[..i];
    assert Answers(start, run + [e], i, begun);
  }

  /**
   * Every wake-up is answered by a claim: at every later moment a pump begun after it has asked for one, or found the
   * worker full, or failed before it could; until then a pump is on its way or due without waiting for the poll; or
   * the worker was stopped.
   */
  lemma {:induction false} WakeIsAnswered(concurrency: nat, pollMs: nat, before: seq<Event>, after: seq<Event>)
    requires !Steps(Start(concurrency, pollMs), before).stopped
    ensures var start, run := Start(concurrency, pollMs), before + [Wake] + after;
      var s, begun := Steps(start, run), Begun(Steps(start, before + [Wake]));
      s.stopped || PumpDue(s) || OnItsWay(s, begun) || Answered(start, run, |before| + 1, begun)
    decreases |after|
  {
    hide Inv, Step, Answered, Answers, OnItsWay;
    var start := Start(concurrency, pollMs);
    assert (before + [Wake])[..|before|] == before;
    if after == [] {
      WorkerInvariant(concurrency, pollMs, before);
      WakeIsDue(Steps(start, before));
      assert before + [Wake] + after == before + [Wake];
    } else {
      var front, e := after[..|after| - 1], after[|after| - 1];
      var run := before + [Wake] + front;
      var s, begun := Steps(start, run), Begun(Steps(start, before + [Wake]));
      WakeIsAnswered(concurrency, pollMs, before, front);
      WorkerInvariant(concurrency, pollMs, run);
      assert before + [Wake] + after == run + [e] && (run + [e])[..|run|] == run;
      StepsSplit(start, before + [Wake], front);
      PumpsOnlyGrow(Steps(start, before + [Wake]), front);
      if Answered(start, run, |before| + 1, begun) {
        AnswerStays(start, run, e, |before| + 1, begun);
      } else if !s.stopped {
        TowardsAClaim(s, e, begun);
        NewAnswer(start, run, e, |before| + 1, begun);
      } else {
        DueOrStopped(s, e);
      }
    }
  }

  lemma NewAnswer(start: Scheduler, run: seq<Event>, e: Event, since: nat, begun: nat)
    requires since <= |run|
    ensures var s' := Step(Steps(start, run), e);
      Begun(s') > begun && (s'.pump == Some(Claiming) || Full(s') || Failed(e)) ==>
        Answered(start, run + [e], since, begun)
  {
    hide Step;
    var more := run + [e];
    assert more[..|more|] == more && more[..|more| - 1] == run;
    assert Steps(start, more) == Step(Steps(start, run), e);
    if Begun(Steps(start, more)) > begun
       && (Steps(start, more).pump == Some(Claiming) || Full(Steps(start, more)) || Failed(e))
    {
      assert Answers(start, more, |more|, begun);
    }
  }

  // ------------------------------------------------------------- shutdown

  /** What is still outstanding, counted in events that must happen before `stop` can return. */
  function Outstanding(s: Scheduler): nat {
    |s.running| + |s.inFlight| + PumpWork(s.pump)
  }

  function PumpWork(p: Option<Pump>): nat {
    match p
    case None => 0
    case Some(Flushing) => 4
    case Some(Reaping) => 3
    case Some(Claiming) => 2
    case Some(Releasing(_)) => 1
  }

  /** What happens by itself, as opposed to a wake-up or a call of `stop`. */
  predicate Internal(e: Event) {
    !e.Wake? && !e.Stop? && !e.StopResumes?
  }

  lemma StoppedStays(s: Scheduler, e: Event)
    requires ClockOk(s) && s.stopped
    ensures var s' := Step(s, e);
      && s'.stopped && s'.started == s.started && s'.timer.None?
      && s'.running == (if e.TaskEnds? then s.running - {e.claim} else s.running)
      && s'.inFlight == (if e.PumpSettles? && Enabled(s, e) then s.inFlight - {e.pump} else s.inFlight)
      && PumpWork(s'.pump) <= PumpWork(s.pump)
      && (Enabled(s, e) && Internal(e) && !e.TaskEnds? && !e.PumpSettles? ==> PumpWork(s'.pump) < PumpWork(s.pump))
  {
  }

  /** After `stop` begins nothing is started, and every event that happens leaves less outstanding. */
  lemma StoppedOnlyDrains(s: Scheduler, e: Event)
    requires Inv(s) && s.stopped
    ensures var s' := Step(s, e);
      && s'.stopped && s'.started == s.started && s'.running <= s.running && s'.inFlight <= s.inFlight
      && s'.timer.None?
      && (Enabled(s, e) && Internal(e) ==> Outstanding(s') < Outstanding(s))
  {
    StoppedStays(s, e);
    EnabledMeans(s, e);
    hide Step, Inv, PumpWork, Enabled;
    if e.TaskEnds? && e.claim in s.running {
      assert s.running == (s.running - {e.claim}) + {e.claim};
    } else if e.TaskEnds? {
      assert s.running - {e.claim} == s.running;
    } else if e.PumpSettles? && e.pump in s.inFlight {
      assert s.inFlight == (s.inFlight - {e.pump}) + {e.pump};
    }
  }

  lemma EnabledMeans(s: Scheduler, e: Event)
    ensures e.TaskEnds? ==> (Enabled(s, e) <==> e.claim in s.running)
    ensures e.PumpSettles? && Enabled(s, e) ==> e.pump in s.inFlight
  {
  }

  /** Whatever is outstanding can move: no shutdown waits on something that cannot end. */
  lemma OutstandingCanMove(s: Scheduler)
    requires Inv(s) && s.stopped && !s.Idle()
    ensures exists e: Event :: Enabled(s, e) && Internal(e)
  {
    var e;
    if s.running != {} {
      var c :| c in s.running;
      e := TaskEnds(c);
    } else if s.Pumping() {
      e := match s.pump.value
        case Flushing => Flushed(true)
        case Reaping => Reaped(true)
        case Claiming => ClaimReturns(NoClaim)
        case Releasing(_) => ReleaseReturns;
    } else {
      var p :| p in s.inFlight;
      e := PumpSettles(p);
    }
    assert Enabled(s, e) && Internal(e);
  }

  /** Whenever `stop` has returned: nothing runs or pumps, every claim was started or given back, and this is final. */
  lemma ReturnedIsFinal(concurrency: nat, pollMs: nat, events: seq<Event>, e: Event)
    requires Steps(Start(concurrency, pollMs), events).shutdown.Returned?
    ensures var s := Steps(Start(concurrency, pollMs), events);
      && s.Idle() && !s.Pumping() && s.timer.None? && s.obtained == s.started + s.released
      && Step(s, e) == s
  {
    WorkerInvariant(concurrency, pollMs, events);
  }
}
