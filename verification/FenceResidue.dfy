/**
 * When a context keeps a job's fence.  The swap itself clears it, and the
 * worker clears it once more after it has given up or recorded the merge; the
 * fence outlives a merged job only when a claim installs it after the swap.
 */
module FenceResidue {
  import opened CompactionTypes
  import opened JobCommands
  import opened Protocol
  import opened ProtocolInvariant
  import opened ProtocolSteps
  import opened ProtocolTheorems

  /** The context of job `id` carries a fence of that job. */
  predicate Carries(s: Sys, id: JobId) {
    id.owner in s.docs && s.docs[id.owner].fence.Some? && s.docs[id.owner].fence.value.job == id
  }

  /** A claim of job `id` puts its fence into the context. */
  predicate Installs(s: Sys, a: Action, id: JobId) {
    && a.Do? && a.move.EstablishWrite? && a.token in s.workers
    && s.workers[a.token].job == id && id in s.jobs && s.workers[a.token].main.Establishing?
    && id.owner in s.docs && FenceReusable(s.docs[id.owner], id, a.token, a.now)
  }

  /**
   * The swap takes the fence with it, its claim clears it, it is reaped, another job's fence takes its place, or the
   * context is deleted.
   */
  predicate Removes(s: Sys, a: Action, id: JobId) {
    && Carries(s, id)
    && var f := s.docs[id.owner].fence.value;
    match a
    case ClearFence(o, i, t) => o == id.owner && i == id && t == f.token
    case ReapFence(o, now) => o == id.owner && f.expiresAt <= now
    case Delete(o) => o == id.owner
    case Do(t, move, now) =>
      || Swaps(s, a, id)
      || (t in s.workers && s.workers[t].job != id && s.workers[t].job.owner == id.owner
          && Installs(s, a, s.workers[t].job))
    case _ => false
  }

  lemma MovedFence(s: Sys, t: Token, move: Move, now: Time, id: JobId)
    requires Inv(s) && !move.EstablishWrite? && !move.ApplySwap? && !move.BeatFence?
    ensures Carries(Moved(s, t, move, now), id) <==> Carries(s, id)
  {
    hide Inv, Read, SwapEnabled, SettleEnabled, Leased, FenceReusable, Permitted, ErrorReleases, SettledRuntime;
    if IsRead(move) && t in s.workers && s.workers[t].job in s.jobs {
      MovedRead(s, t, move, now);
      hide Moved;
    }
  }

  lemma BeatFenceCarries(s: Sys, t: Token, now: Time, id: JobId)
    ensures Carries(Moved(s, t, BeatFence, now), id) <==> Carries(s, id)
  {
  }

  lemma EstablishCarries(s: Sys, t: Token, now: Time, id: JobId)
    ensures var a := Do(t, EstablishWrite, now);
      Carries(Moved(s, t, EstablishWrite, now), id)
      <==> Installs(s, a, id) || (Carries(s, id) && !Removes(s, a, id))
  {
    hide FenceReusable;
    NotASwap(s, Do(t, EstablishWrite, now), id);
    hide Swaps;
  }

  lemma SwapCarries(s: Sys, t: Token, now: Time, id: JobId)
    requires t in s.workers ==> s.workers[t].job in s.jobs
    ensures Carries(Moved(s, t, ApplySwap, now), id) <==> Carries(s, id) && !Removes(s, Do(t, ApplySwap, now), id)
  {
  }

  lemma OtherCarries(s: Sys, a: Action, id: JobId)
    requires !a.Do?
    ensures Carries(Next(s, a), id) <==> Carries(s, id) && !Removes(s, a, id)
  {
    hide Claimable, Insertable, Command, KeyFree;
  }

  lemma WorkersHaveJobs(s: Sys, t: Token)
    requires Inv(s) && t in s.workers
    ensures s.workers[t].job in s.jobs
  {
    hide JobsOk, OneBarrier, KeysDisjoint, TokensLinked, SwapsOk, SettlesOk, ReleasesOk, MainOk, Evolves;
    assert WorkersOk(s);
  }

  /** What one access does to the fence of a job. */
  lemma FenceMoves(s: Sys, a: Action, id: JobId)
    requires Inv(s)
    ensures Carries(Next(s, a), id) <==> Installs(s, a, id) || (Carries(s, id) && !Removes(s, a, id))
  {
    hide Inv, Carries, Moved, Swaps;
    if !a.Do? {
      OtherCarries(s, a, id);
      hide Next;
    } else if a.move.EstablishWrite? {
      EstablishCarries(s, a.token, a.now, id);
    } else if a.move.ApplySwap? {
      if a.token in s.workers {
        WorkersHaveJobs(s, a.token);
      }
      SwapCarries(s, a.token, a.now, id);
    } else {
      NotASwap(s, a, id);
      if a.move.BeatFence? {
        BeatFenceCarries(s, a.token, a.now, id);
      } else {
        MovedFence(s, a.token, a.move, a.now, id);
      }
    }
  }

  lemma NotASwap(s: Sys, a: Action, id: JobId)
    requires a.Do? ==> !a.move.ApplySwap?
    ensures !Swaps(s, a, id)
  {
  }

  /** Action `i` installed the fence, and nothing has taken it away before point `n`. */
  ghost predicate StandsSince(s0: Sys, actions: seq<Action>, i: nat, n: nat, id: JobId)
    requires n <= |actions|
  {
    && i < n && Installs(At(s0, actions, i), actions[i], id)
    && forall j: nat :: i < j < n ==> !Removes(At(s0, actions, j), actions[j], id)
  }

  /** At any point of any run, a context carries a job's fence exactly when some claim's write of it still stands. */
  lemma {:induction false} CarriesExactlyWhen(s0: Sys, actions: seq<Action>, n: nat, id: JobId)
    requires Initial(s0) && n <= |actions|
    ensures Carries(At(s0, actions, n), id) <==> exists i: nat :: StandsSince(s0, actions, i, n, id)
    decreases n
  {
    hide Inv, Next, At, Carries, Installs, Removes;
    if n == 0 {
      StartsUnfenced(s0, actions, id);
    } else {
      hide Initial;
      CarriesExactlyWhen(s0, actions, n - 1, id);
      AtInv(s0, actions, n - 1);
      AtNext(s0, actions, n - 1);
      FenceMoves(At(s0, actions, n - 1), actions[n - 1], id);
      forall i: nat
        ensures StandsSince(s0, actions, i, n, id) <==>
                  if i == n - 1 then Installs(At(s0, actions, n - 1), actions[n - 1], id)
                  else StandsSince(s0, actions, i, n - 1, id) && !Removes(At(s0, actions, n - 1), actions[n - 1], id)
      {
        StandsStep(s0, actions, i, n, id);
      }
      hide StandsSince;
      if Installs(At(s0, actions, n - 1), actions[n - 1], id) {
        assert StandsSince(s0, actions, n - 1, n, id);
      } else if Carries(At(s0, actions, n), id) {
        var i: nat :| StandsSince(s0, actions, i, n - 1, id);
        assert StandsSince(s0, actions, i, n, id);
      }
    }
  }

  lemma StandsStep(s0: Sys, actions: seq<Action>, i: nat, n: nat, id: JobId)
    requires 0 < n <= |actions|
    ensures StandsSince(s0, actions, i, n, id) <==>
              if i == n - 1 then Installs(At(s0, actions, n - 1), actions[n - 1], id)
              else StandsSince(s0, actions, i, n - 1, id) && !Removes(At(s0, actions, n - 1), actions[n - 1], id)
  {
    hide At, Installs, Removes;
  }

  lemma StartsUnfenced(s0: Sys, actions: seq<Action>, id: JobId)
    requires Initial(s0)
    ensures !Carries(At(s0, actions, 0), id)
  {
    assert actions[..0] == [];
  }

  /**
   * A merged job's context still carries its fence exactly when a claim of the job installed it after the swap and
   * no clear, reap, other job's fence or deletion came later.
   */
  lemma MergedKeepsFenceExactlyWhen(s0: Sys, actions: seq<Action>, n: nat, id: JobId)
    returns (swap: nat)
    requires Initial(s0) && n <= |actions|
    requires id in At(s0, actions, n).jobs && At(s0, actions, n).jobs[id].status.Merged?
    ensures swap < n && OccursAt(Swap, s0, actions, swap, id)
    ensures Carries(At(s0, actions, n), id) <==> exists i: nat :: swap < i && StandsSince(s0, actions, i, n, id)
  {
    hide Inv, Initial, Next, At, Carries, Installs, Removes, Swaps;
    var settle;
    swap, settle := MergedWasAppliedAndSettled(s0, actions, n, id);
    CarriesExactlyWhen(s0, actions, n, id);
    SwapRemoves(At(s0, actions, swap), actions[swap], id);
  }

  lemma SwapRemoves(s: Sys, a: Action, id: JobId)
    requires Swaps(s, a, id)
    ensures Removes(s, a, id) && !Installs(s, a, id)
  {
  }
}
