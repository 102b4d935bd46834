/**
 * The worker's closure: the variables that its callbacks share, and each
 * callback from one await to the next, refining `WorkerSchedule.Step`.
 */
module CompactionWorker {
  import opened CompactionTypes
  import opened WorkerSchedule

  class MaintenanceWorker {
    const concurrency: nat
    const pollIntervalMs: nat
    var stopped: bool
    var pumping: bool
    var at: Pump
    var immediateRunRequested: bool
    var timer: Option<nat>
    var running: set<Token>
    var inFlightPumps: set<nat>
    var nextPump: nat
    var shutdown: Shutdown
    ghost var obtained: set<Token>
    ghost var started: set<Token>
    ghost var released: set<Token>

    ghost function State(): Scheduler
      reads this
    {
      Scheduler(concurrency, pollIntervalMs, stopped, if pumping then Some(at) else None, immediateRunRequested,
                timer, running, inFlightPumps, nextPump, shutdown, obtained, started, released)
    }

    ghost predicate Valid()
      reads this
    {
      Inv(State())
    }

    constructor (requestedConcurrency: nat, requestedPollMs: nat)
      ensures Valid() && State() == Start(requestedConcurrency, requestedPollMs)
    {
      concurrency := Bounded(requestedConcurrency);
      pollIntervalMs := if requestedPollMs < 250 then 250 else requestedPollMs;
      stopped, pumping, at, immediateRunRequested, timer := false, false, Flushing, false, None;
      running, inFlightPumps, nextPump, shutdown := {}, {}, 0, NotAsked;
      obtained, started, released := {}, {}, {};
      new;
      Schedule(0);
    }

    /** `schedule`. */
    method Schedule(delayMs: int)
      modifies this`immediateRunRequested, this`timer
      ensures State() == Scheduled(old(State()), Max(0, delayMs))
    {
      if stopped {
        return;
      }
      var normalizedDelayMs: nat := Max(0, delayMs);
      if pumping {
        if normalizedDelayMs == 0 {
          immediateRunRequested := true;
        }
        return;
      }
      if timer.Some? {
        if normalizedDelayMs > 0 || timer.value == 0 {
          return;
        }
        timer := None;
      }
      timer := Some(normalizedDelayMs);
    }

    /** The timer's callback: start a pump and track it until it settles. */
    method TimerCallback()
      requires Valid() && timer.Some?
      modifies this
      ensures Valid() && State() == Step(old(State()), TimerFires)
    {
      hide Inv;
      StepKeeps(State(), TimerFires);
      timer := None;
      var task := nextPump;
      nextPump := nextPump + 1;
      StartPump();
      inFlightPumps := inFlightPumps + {task};
    }

    /** `pump`, up to its first await. */
    method StartPump()
      modifies this`pumping, this`at, this`immediateRunRequested
      ensures var s := old(State());
        State() == if s.stopped then s else if s.Pumping() then s.(wanted := true) else s.(pump := Some(Flushing))
    {
      if stopped {
        return;
      }
      if pumping {
        immediateRunRequested := true;
        return;
      }
      pumping, at := true, Flushing;
    }

    /** The pump's `finally` block. */
    method EndPump()
      requires pumping
      modifies this`pumping, this`immediateRunRequested, this`timer
      ensures State() == PumpEnded(old(State()))
    {
      pumping := false;
      if stopped {
        return;
      }
      if immediateRunRequested {
        immediateRunRequested := false;
        Schedule(0);
      } else {
        Schedule(pollIntervalMs);
      }
    }

    /** The pump after its outbox flush; `ok` is false when the await threw. */
    method AfterFlush(ok: bool)
      requires Valid() && pumping && at == Flushing
      modifies this
      ensures Valid() && State() == Step(old(State()), Flushed(ok))
    {
      hide Inv;
      StepKeeps(State(), Flushed(ok));
      if ok {
        at := Reaping;
      } else {
        EndPump();
      }
    }

    method AfterReap(ok: bool)
      requires Valid() && pumping && at == Reaping
      modifies this
      ensures Valid() && State() == Step(old(State()), Reaped(ok))
    {
      hide Inv;
      StepKeeps(State(), Reaped(ok));
      if ok {
        ClaimOrEnd();
      } else {
        EndPump();
      }
    }

    /** The head of the pump's claim loop. */
    method ClaimOrEnd()
      requires pumping
      modifies this`pumping, this`at, this`immediateRunRequested, this`timer
      ensures State() == NextClaim(old(State()))
    {
      if !stopped && |running| < concurrency {
        at := Claiming;
      } else {
        EndPump();
      }
    }

    /** The pump after `claimNextCompactionJob`: a stopped worker gives the claim back. */
    method AfterClaim(result: Claimed)
      requires Valid() && pumping && at == Claiming && (result.Got? ==> result.claim !in obtained)
      modifies this
      ensures Valid() && State() == Step(old(State()), ClaimReturns(result))
    {
      hide Inv;
      StepKeeps(State(), ClaimReturns(result));
      if !result.Got? {
        EndPump();
        return;
      }
      var claim := result.claim;
      obtained := obtained + {claim};
      if stopped {
        at := Releasing(claim);
        return;
      }
      running := running + {claim};
      started := started + {claim};
      ClaimOrEnd();
    }

    method AfterRelease()
      requires Valid() && pumping && at.Releasing?
      modifies this
      ensures Valid() && State() == Step(old(State()), ReleaseReturns)
    {
      hide Inv;
      StepKeeps(State(), ReleaseReturns);
      released := released + {at.claim};
      EndPump();
    }

    /** A claim's task ended, one way or the other: refill its slot at once. */
    method TaskFinally(claim: Token)
      requires Valid() && claim in running
      modifies this
      ensures Valid() && State() == Step(old(State()), TaskEnds(claim))
    {
      hide Inv;
      StepKeeps(State(), TaskEnds(claim));
      running := running - {claim};
      if !stopped {
        Schedule(0);
      }
    }

    method PumpFinally(pump: nat)
      requires Valid() && Enabled(State(), PumpSettles(pump))
      modifies this
      ensures Valid() && State() == Step(old(State()), PumpSettles(pump))
    {
      hide Inv;
      StepKeeps(State(), PumpSettles(pump));
      inFlightPumps := inFlightPumps - {pump};
    }

    method WakeUp()
      requires Valid()
      modifies this
      ensures Valid() && State() == Step(old(State()), Wake)
    {
      hide Inv;
      StepKeeps(State(), Wake);
      Schedule(0);
    }

    /** `stop`, up to its first look at what is outstanding. */
    method StopWorker()
      requires Valid()
      modifies this
      ensures Valid() && State() == Step(old(State()), Stop)
    {
      hide Inv;
      StepKeeps(State(), Stop);
      stopped := true;
      timer := None;
      immediateRunRequested := false;
      CheckOutstanding();
    }

    /** `stop`, when everything it was waiting for has settled. */
    method StopAgain()
      requires Valid() && Enabled(State(), StopResumes)
      modifies this
      ensures Valid() && State() == Step(old(State()), StopResumes)
    {
      hide Inv;
      StepKeeps(State(), StopResumes);
      CheckOutstanding();
    }

    method CheckOutstanding()
      modifies this`shutdown
      ensures State() == StopChecks(old(State()))
    {
      if |inFlightPumps| > 0 || |running| > 0 {
        shutdown := Waiting(running, inFlightPumps);
      } else {
        shutdown := Returned;
      }
    }
  }
}
