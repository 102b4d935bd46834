/** Every action of the protocol keeps its invariant. */
module ProtocolSteps {
  import opened CompactionTypes
  import opened JobCommands
  import opened Protocol
  import opened ProtocolInvariant

  // ---------------------------------------------------- writes to one document

  /** A write to an existing job that its invariant-keeping commands make. */
  ghost predicate SoundWrite(s: Sys, k: Job) {
    && k.id in s.jobs
    && var j := s.jobs[k.id];
    && JobOk(k) && Evolves(j, k)
    && (k.status.Active() ==> j.status.Active())
    && (k.lease.Some? ==> j.lease.Some? && k.lease.value.token == j.lease.value.token)
    && k.attempt == j.attempt
    && (forall key: string <- k.keys :: key in j.keys || KeyFree(s, k.id.owner, key))
    && (k.runtimeSettled && !j.runtimeSettled ==>
          k.id in s.history.swapped && (k.id in s.history.settled || k.id in s.history.absent))
  }

  lemma JobWriteKeepsJobs(s: Sys, k: Job)
    requires JobsOk(s) && SoundWrite(s, k)
    ensures JobsOk(PutJob(s, k))
  {
    hide JobOk, Evolves;
  }

  lemma JobWriteKeepsBarrier(s: Sys, k: Job)
    requires OneBarrier(s) && SoundWrite(s, k)
    ensures OneBarrier(PutJob(s, k))
  {
    hide JobOk, Evolves;
  }

  lemma JobWriteKeepsKeys(s: Sys, k: Job)
    requires KeysDisjoint(s) && SoundWrite(s, k)
    ensures KeysDisjoint(PutJob(s, k))
  {
    hide JobOk, Evolves;
    var s' := PutJob(s, k);
    forall i <- s'.jobs, l <- s'.jobs, key: string
      | i.owner == l.owner && key in s'.jobs[i].keys && key in s'.jobs[l].keys
      ensures i == l
    {
    }
  }

  lemma JobWriteKeepsTokens(s: Sys, k: Job)
    requires TokensLinked(s) && SoundWrite(s, k)
    ensures TokensLinked(PutJob(s, k))
  {
    hide JobOk, Evolves;
  }

  lemma JobWriteKeepsSwaps(s: Sys, k: Job)
    requires SwapsOk(s) && SoundWrite(s, k)
    ensures SwapsOk(PutJob(s, k))
  {
    hide JobOk, Evolves;
  }

  lemma JobWriteKeepsSettles(s: Sys, k: Job)
    requires SettlesOk(s) && SoundWrite(s, k)
    ensures SettlesOk(PutJob(s, k))
  {
    hide JobOk;
  }

  lemma JobWriteKeepsReleases(s: Sys, k: Job)
    requires ReleasesOk(s) && SoundWrite(s, k)
    ensures ReleasesOk(PutJob(s, k))
  {
    hide JobOk, Evolves, RisingWithin;
    assert forall id <- s.jobs :: ErrorReleases(PutJob(s, k), id) == ErrorReleases(s, id);
  }

  lemma JobWriteBeside(s: Sys, k: Job, t: Token)
    requires SoundWrite(s, k) && t in s.workers && WorkerOk(s, t)
    requires s.workers[t].job == k.id ==> Undisturbed(s.jobs[k.id], k, t)
    ensures WorkerOk(PutJob(s, k), t)
  {
    hide JobOk, MainOk;
    assert Beside(s, PutJob(s, k), t);
    WorkerBeside(s, PutJob(s, k), t);
  }

  /** Everything but the workers' own records. */
  ghost predicate DocumentsOk(s: Sys) {
    JobsOk(s) && OneBarrier(s) && KeysDisjoint(s) && TokensLinked(s) && SwapsOk(s) && SettlesOk(s)
    && ReleasesOk(s)
  }

  lemma JobWriteKeeps(s: Sys, k: Job)
    requires DocumentsOk(s) && SoundWrite(s, k)
    ensures DocumentsOk(PutJob(s, k))
  {
    hide JobsOk, OneBarrier, KeysDisjoint, TokensLinked, SwapsOk, SettlesOk, ReleasesOk, SoundWrite;
    JobWriteKeepsJobs(s, k);
    JobWriteKeepsBarrier(s, k);
    JobWriteKeepsKeys(s, k);
    JobWriteKeepsTokens(s, k);
    JobWriteKeepsSwaps(s, k);
    JobWriteKeepsSettles(s, k);
    JobWriteKeepsReleases(s, k);
  }

  lemma SoundWriteKeeps(s: Sys, k: Job)
    requires Inv(s) && SoundWrite(s, k)
    requires forall t: Token :: Undisturbed(s.jobs[k.id], k, t)
    ensures Inv(PutJob(s, k))
  {
    hide JobsOk, OneBarrier, KeysDisjoint, TokensLinked, SwapsOk, SettlesOk, ReleasesOk;
    hide SoundWrite, Undisturbed, WorkerOk;
    JobWriteKeeps(s, k);
    forall t <- s.workers ensures WorkerOk(PutJob(s, k), t) {
      JobWriteBeside(s, k, t);
    }
  }

  /** A worker's record may change freely as far as the documents are concerned. */
  lemma WorkerWriteKeepsDocuments(s: Sys, t: Token, w: Worker)
    requires DocumentsOk(s) && t in s.workers && w.job == s.workers[t].job
    ensures DocumentsOk(PutWorker(s, t, w))
  {
    hide JobOk, RisingWithin;
    var s' := PutWorker(s, t, w);
    assert OneBarrier(s') && KeysDisjoint(s') && SwapsOk(s') && JobsOk(s');
    assert forall id: JobId :: ErrorReleases(s', id) == ErrorReleases(s, id);
    assert forall o: OwnerKey :: RuntimeOf(s', o) == RuntimeOf(s, o);
  }

  /** A step of worker `t` that touches nothing but its own record. */
  lemma WorkerWriteKeeps(s: Sys, t: Token, w: Worker)
    requires Inv(s) && t in s.workers && w.job == s.workers[t].job
    requires WorkerOk(PutWorker(s, t, w), t)
    ensures Inv(PutWorker(s, t, w))
  {
    var s' := PutWorker(s, t, w);
    assert DocumentsOk(s);
    WorkerWriteKeepsDocuments(s, t, w);
    forall u <- s'.workers ensures WorkerOk(s', u) {
      if u != t {
        assert WorkerOk(s, u);
        OtherWorkerWrite(s, t, w, u);
      }
    }
    hide JobsOk, OneBarrier, KeysDisjoint, TokensLinked, SwapsOk, SettlesOk, ReleasesOk;
  }

  lemma OtherWorkerWrite(s: Sys, t: Token, w: Worker, u: Token)
    requires t in s.workers && u in s.workers && u != t && WorkerOk(s, u)
    ensures WorkerOk(PutWorker(s, t, w), u)
  {
    hide MainOk;
    WorkerBeside(s, PutWorker(s, t, w), u);
  }

  lemma ReturnKeeps(s: Sys, t: Token)
    requires Inv(s) && t in s.workers
    ensures Inv(PutWorker(s, t, s.workers[t].(main := Idle)))
  {
    assert WorkerOk(s, t);
    hide JobsOk, OneBarrier, KeysDisjoint, TokensLinked, SwapsOk, SettlesOk, ReleasesOk;
    WorkerWriteKeeps(s, t, s.workers[t].(main := Idle));
  }

  // ------------------------------------------------------- commands of others

  lemma CreateKeepsUnique(s: Sys, j: Job)
    requires JobsOk(s) && OneBarrier(s) && JobOk(j) && Insertable(s, j.id)
    ensures JobsOk(PutJob(s, j)) && OneBarrier(PutJob(s, j))
  {
    forall id <- s.jobs ensures s.jobs[id].status.Active() ==> id.owner != j.id.owner {
      BarrierHeld(s.jobs[id]);
      hide JobOk;
    }
    hide JobOk, Insertable;
  }

  lemma BarrierHeld(j: Job)
    requires JobOk(j)
    ensures j.status.Active() ==> j.activeKey == Some(j.id.owner)
  {
    hide PhaseOk, OutboxFaithful;
  }

  lemma CreateKeepsKeys(s: Sys, j: Job)
    requires KeysDisjoint(s) && Insertable(s, j.id) && j.keys == {j.id.idempotencyKey}
    ensures KeysDisjoint(PutJob(s, j))
  {
  }

  lemma CreateKeepsLinks(s: Sys, j: Job)
    requires TokensLinked(s) && SwapsOk(s) && SettlesOk(s) && j.id !in s.jobs
    requires j.lease.None? && !j.runtimeSettled
    ensures TokensLinked(PutJob(s, j)) && SwapsOk(PutJob(s, j)) && SettlesOk(PutJob(s, j))
  {
  }

  lemma CreateKeepsReleases(s: Sys, j: Job)
    requires ReleasesOk(s) && j.id !in s.jobs
    ensures ReleasesOk(PutJob(s, j))
  {
    hide RisingWithin;
    var s' := PutJob(s, j);
    assert forall id <- s.jobs :: ErrorReleases(s', id) == ErrorReleases(s, id);
    assert ErrorReleases(s', j.id) == [];
    NoReleases(s.maxAttempts);
  }

  lemma NoReleases(max: nat)
    ensures RisingWithin([], max)
  {
  }

  lemma CreateBeside(s: Sys, j: Job, t: Token)
    requires t in s.workers && WorkerOk(s, t) && s.history.swapped <= s.jobs.Keys && j.id !in s.jobs
    ensures WorkerOk(PutJob(s, j), t)
  {
    hide MainOk;
    WorkerBeside(s, PutJob(s, j), t);
  }

  lemma CreateKeeps(s: Sys, j: Job)
    requires Inv(s) && JobOk(j)
    requires j.lease.None? && !j.runtimeSettled && j.keys == {j.id.idempotencyKey} && j.status.Active()
    ensures Inv(CreateJob(s, j))
  {
    if Insertable(s, j.id) && j.frozen.messages != [] {
      assert s.history.swapped <= s.jobs.Keys;
      assert j.id !in s.jobs;
      CreateKeepsUnique(s, j);
      CreateKeepsKeys(s, j);
      CreateKeepsLinks(s, j);
      CreateKeepsReleases(s, j);
      hide JobsOk, OneBarrier, KeysDisjoint, TokensLinked, SwapsOk, SettlesOk, ReleasesOk, WorkerOk, Insertable;
      forall t <- s.workers ensures WorkerOk(PutJob(s, j), t) {
        CreateBeside(s, j, t);
      }
    }
  }

  lemma CommandIsSound(s: Sys, id: JobId, c: JobCommand)
    requires JobsOk(s) && id in s.jobs && Command(s.jobs[id], c).Some?
    requires c.Join? && c.key !in s.jobs[id].keys ==> KeyFree(s, id.owner, c.key)
    ensures SoundWrite(s, Command(s.jobs[id], c).value) && Command(s.jobs[id], c).value.id == id
    ensures forall t: Token :: Undisturbed(s.jobs[id], Command(s.jobs[id], c).value, t)
  {
    var j := s.jobs[id];
    assert JobOk(j) && j.id == id;
    CommandKeeps(j, c);
    CommandKeys(j, c);
    hide JobOk, Command, KeyFree;
  }

  lemma CommandKeys(j: Job, c: JobCommand)
    requires Command(j, c).Some?
    ensures Command(j, c).value.keys == j.keys + (if c.Join? then {c.key} else {})
  {
  }

  lemma CommandJobKeeps(s: Sys, id: JobId, c: JobCommand)
    requires Inv(s)
    ensures Inv(CommandJob(s, id, c))
  {
    hide JobsOk, OneBarrier, KeysDisjoint, TokensLinked, SwapsOk, SettlesOk, ReleasesOk;
    hide SoundWrite, Undisturbed, WorkersOk, KeyFree, Command;
    if && id in s.jobs && !(c.Join? && c.key !in s.jobs[id].keys && !KeyFree(s, id.owner, c.key))
       && Command(s.jobs[id], c).Some?
    {
      CommandIsSound(s, id, c);
      SoundWriteKeeps(s, Command(s.jobs[id], c).value);
    }
  }

  /** Writes that change no status and no key keep what is unique about both. */
  lemma SameStatusKeepsUnique(s: Sys, s': Sys)
    requires OneBarrier(s) && KeysDisjoint(s) && s'.jobs.Keys == s.jobs.Keys
    requires forall i <- s.jobs :: s'.jobs[i].keys == s.jobs[i].keys && s'.jobs[i].status == s.jobs[i].status
    ensures OneBarrier(s') && KeysDisjoint(s')
  {
  }

  lemma ClaimKeepsUnique(s: Sys, id: JobId, t: Token, leaseMs: Time, now: Time)
    requires JobsOk(s) && OneBarrier(s) && KeysDisjoint(s) && id in s.jobs && t !in s.workers
    requires Claimable(s.jobs[id], now)
    ensures var s' := ClaimJob(s, id, t, leaseMs, now);
      JobsOk(s') && OneBarrier(s') && KeysDisjoint(s')
  {
    hide JobOk, OneBarrier, KeysDisjoint, ClaimJob, Claimed, Claimable;
    assert JobOk(s.jobs[id]) && s.jobs[id].id == id;
    var k := Claimed(s.jobs[id], t, now + leaseMs);
    ClaimableIsActive(s.jobs[id], now);
    ClaimKeeps(s.jobs[id], t, now + leaseMs);
    ClaimWrites(s, id, t, leaseMs, now);
    SameStatusKeepsUnique(s, ClaimJob(s, id, t, leaseMs, now));
  }

  lemma ClaimableIsActive(j: Job, now: Time)
    requires Claimable(j, now)
    ensures j.status.Active()
  {
  }

  lemma ClaimWrites(s: Sys, id: JobId, t: Token, leaseMs: Time, now: Time)
    requires id in s.jobs && s.jobs[id].id == id && t !in s.workers && Claimable(s.jobs[id], now)
    ensures var j, k := s.jobs[id], Claimed(s.jobs[id], t, now + leaseMs);
      && ClaimJob(s, id, t, leaseMs, now).jobs == s.jobs[id := k]
      && k.id == id && k.keys == j.keys && k.status == j.status
  {
    hide Claimable;
  }

  lemma ClaimKeepsLinks(s: Sys, id: JobId, t: Token, leaseMs: Time, now: Time)
    requires TokensLinked(s) && SwapsOk(s) && id in s.jobs && s.jobs[id].id == id && t !in s.workers
    requires Claimable(s.jobs[id], now)
    ensures var s' := ClaimJob(s, id, t, leaseMs, now);
      TokensLinked(s') && SwapsOk(s')
  {
    hide Claimable;
  }

  lemma ClaimKeepsSettles(s: Sys, id: JobId, t: Token, leaseMs: Time, now: Time)
    requires SettlesOk(s) && id in s.jobs && s.jobs[id].id == id && t !in s.workers
    requires Claimable(s.jobs[id], now)
    ensures SettlesOk(ClaimJob(s, id, t, leaseMs, now))
  {
    hide Claimable;
    var s' := ClaimJob(s, id, t, leaseMs, now);
    assert forall o: OwnerKey :: RuntimeOf(s', o) == RuntimeOf(s, o);
  }

  lemma ClaimKeepsReleases(s: Sys, id: JobId, t: Token, leaseMs: Time, now: Time)
    requires ReleasesOk(s) && id in s.jobs && s.jobs[id].id == id
    ensures ReleasesOk(ClaimJob(s, id, t, leaseMs, now))
  {
    hide Claimable, RisingWithin;
    var s' := ClaimJob(s, id, t, leaseMs, now);
    assert forall i: JobId :: ErrorReleases(s', i) == ErrorReleases(s, i);
  }

  lemma ClaimBeside(s: Sys, id: JobId, t: Token, leaseMs: Time, now: Time, u: Token)
    requires u in s.workers && WorkerOk(s, u) && id in s.jobs && s.jobs[id].id == id
    ensures WorkerOk(ClaimJob(s, id, t, leaseMs, now), u)
  {
    hide MainOk, Claimable;
    var s' := ClaimJob(s, id, t, leaseMs, now);
    assert Beside(s, s', u);
    WorkerBeside(s, s', u);
  }

  lemma NewWorkerOk(s: Sys, id: JobId, t: Token, leaseMs: Time, now: Time)
    requires id in s.jobs && s.jobs[id].id == id && t !in s.workers && Claimable(s.jobs[id], now)
    ensures WorkerOk(ClaimJob(s, id, t, leaseMs, now), t)
  {
    hide Claimable;
  }

  lemma ClaimJobKeeps(s: Sys, id: JobId, t: Token, leaseMs: Time, now: Time)
    requires Inv(s)
    ensures Inv(ClaimJob(s, id, t, leaseMs, now))
  {
    if id in s.jobs && t !in s.workers && Claimable(s.jobs[id], now) {
      assert s.jobs[id].id == id;
      hide JobsOk, OneBarrier, KeysDisjoint, TokensLinked, SwapsOk, SettlesOk, ReleasesOk, Claimable;
      hide WorkerOk;
      ClaimKeepsUnique(s, id, t, leaseMs, now);
      ClaimKeepsLinks(s, id, t, leaseMs, now);
      ClaimKeepsSettles(s, id, t, leaseMs, now);
      ClaimKeepsReleases(s, id, t, leaseMs, now);
      var s' := ClaimJob(s, id, t, leaseMs, now);
      NewWorkerOk(s, id, t, leaseMs, now);
      forall u <- s'.workers ensures WorkerOk(s', u) {
        if u != t {
          ClaimBeside(s, id, t, leaseMs, now, u);
        }
      }
    } else {
      assert ClaimJob(s, id, t, leaseMs, now) == s;
    }
  }

  // -------------------------------------------------------------- reads

  /** A job read under its live lease is active, and no other job of its context is. */
  lemma LeaseHolderUnsurpassed(s: Sys, t: Token)
    requires JobsOk(s) && OneBarrier(s) && SwapsOk(s)
    requires t in s.workers && s.workers[t].job in s.jobs && s.jobs[s.workers[t].job].LeasedBy(t)
    ensures Unsurpassed(s, t)
  {
    var id := s.workers[t].job;
    assert BarrierOk(s.jobs[id]) by {
      assert JobOk(s.jobs[id]);
    }
    hide JobOk;
  }

  lemma MainUnchanged(s: Sys, t: Token, w: Worker)
    requires t in s.workers && WorkerOk(s, t)
    requires w.job == s.workers[t].job && w.main == s.workers[t].main
    ensures MainOk(PutWorker(s, t, w), t)
  {
    var s' := PutWorker(s, t, w);
    if w.main.Applying? || w.main.Swapping? {
      assert Unsurpassed(s', t);
    }
  }

  lemma ApplyReadOk(s: Sys, t: Token, now: Time)
    requires JobsOk(s) && OneBarrier(s) && SwapsOk(s)
    requires t in s.workers && s.workers[t].job in s.jobs
    ensures MainOk(PutWorker(s, t, s.workers[t].(main := Read(s, t, ApplyRead, now))), t)
  {
    if s.jobs[s.workers[t].job].LeasedBy(t) {
      LeaseHolderUnsurpassed(s, t);
      hide JobOk;
      assert Unsurpassed(PutWorker(s, t, s.workers[t].(main := Read(s, t, ApplyRead, now))), t);
    }
  }

  lemma ApplySnapshotOk(s: Sys, t: Token, now: Time)
    requires t in s.workers && WorkerOk(s, t) && s.workers[t].main.Applying?
    ensures MainOk(PutWorker(s, t, s.workers[t].(main := Read(s, t, ApplySnapshot, now))), t)
  {
    assert Unsurpassed(PutWorker(s, t, s.workers[t].(main := Read(s, t, ApplySnapshot, now))), t);
  }

  lemma OtherReadOk(s: Sys, t: Token, move: Move, now: Time)
    requires SwapsOk(s) && SettlesOk(s) && t in s.workers && WorkerOk(s, t)
    requires !move.ApplyRead? && !move.ApplySnapshot? && Read(s, t, move, now) != s.workers[t].main
    ensures MainOk(PutWorker(s, t, s.workers[t].(main := Read(s, t, move, now))), t)
  {
    hide Unsurpassed, SnapshotCurrent, LiveLease, MergeFreezeOf;
    if move.SettleOwner? || move.SettleVerify? {
      hide Evolves;
    } else {
      hide SwapsOk, SettlesOk, RuntimeOf;
    }
  }

  lemma ReadOk(s: Sys, t: Token, move: Move, now: Time)
    requires JobsOk(s) && OneBarrier(s) && SwapsOk(s) && SettlesOk(s)
    requires t in s.workers && WorkerOk(s, t)
    ensures MainOk(PutWorker(s, t, s.workers[t].(main := Read(s, t, move, now))), t)
  {
    hide JobsOk, OneBarrier, SwapsOk, SettlesOk, MainOk;
    var w := s.workers[t];
    if Read(s, t, move, now) == w.main {
      MainUnchanged(s, t, w.(main := Read(s, t, move, now)));
    } else if move.ApplyRead? {
      ApplyReadOk(s, t, now);
    } else if move.ApplySnapshot? {
      ApplySnapshotOk(s, t, now);
    } else {
      OtherReadOk(s, t, move, now);
    }
  }

  lemma ReadKeeps(s: Sys, t: Token, move: Move, now: Time)
    requires Inv(s) && t in s.workers && s.workers[t].job in s.jobs
    ensures Inv(PutWorker(s, t, s.workers[t].(main := Read(s, t, move, now))))
  {
    assert WorkerOk(s, t);
    hide JobsOk, OneBarrier, KeysDisjoint, TokensLinked, SwapsOk, SettlesOk, ReleasesOk, MainOk, WorkersOk;
    ReadOk(s, t, move, now);
    WorkerWriteKeeps(s, t, s.workers[t].(main := Read(s, t, move, now)));
  }

  lemma RefreshKeeps(s: Sys, t: Token)
    requires Inv(s) && t in s.workers && s.workers[t].job in s.jobs && s.workers[t].main.Idle?
    ensures Inv(PutWorker(s, t, s.workers[t].(known := s.jobs[s.workers[t].job])))
  {
    hide JobsOk, OneBarrier, KeysDisjoint, TokensLinked, SwapsOk, SettlesOk, ReleasesOk, WorkersOk;
    WorkerWriteKeeps(s, t, s.workers[t].(known := s.jobs[s.workers[t].job]));
  }

  // ------------------------------------------------------- context writes

  /** A write of the fence alone, by no one or by a worker that is not merging. */
  ghost predicate SoundFence(s: Sys, o: OwnerKey, f: Option<Fence>) {
    && o in s.docs
    && (f.Some? ==>
          && f.value.token in s.workers && s.workers[f.value.token].job == f.value.job
          && f.value.job.owner == o
          && (s.docs[o].FencedBy(f.value.token)
              || !(s.workers[f.value.token].main.Applying? || s.workers[f.value.token].main.Swapping?)))
  }

  /** A context write that keeps what was last applied concerns the documents only through its fence. */
  lemma DocWriteKeepsDocuments(s: Sys, o: OwnerKey, d: ContextDoc)
    requires DocumentsOk(s) && o in s.docs && d.lastApplied == s.docs[o].lastApplied
    requires TokensLinked(PutDoc(s, o, d))
    ensures DocumentsOk(PutDoc(s, o, d))
  {
    hide JobOk, RisingWithin, OneBarrier, KeysDisjoint, TokensLinked, SwapsOk, SettlesOk;
    var s' := PutDoc(s, o, d);
    SameStatusKeepsUnique(s, s');
    assert forall id: JobId :: ErrorReleases(s', id) == ErrorReleases(s, id);
    DocWriteKeepsMarks(s, o, d);
  }

  lemma DocWriteKeepsMarks(s: Sys, o: OwnerKey, d: ContextDoc)
    requires SwapsOk(s) && SettlesOk(s) && o in s.docs && d.lastApplied == s.docs[o].lastApplied
    ensures SwapsOk(PutDoc(s, o, d)) && SettlesOk(PutDoc(s, o, d))
  {
    assert forall p: OwnerKey :: RuntimeOf(PutDoc(s, o, d), p) == RuntimeOf(s, p);
  }

  lemma FenceWriteKeepsDocuments(s: Sys, o: OwnerKey, f: Option<Fence>)
    requires DocumentsOk(s) && SoundFence(s, o, f)
    ensures DocumentsOk(PutDoc(s, o, s.docs[o].(fence := f)))
  {
    hide JobsOk, ReleasesOk, OneBarrier, KeysDisjoint, SwapsOk, SettlesOk;
    DocWriteKeepsDocuments(s, o, s.docs[o].(fence := f));
  }

  lemma FenceWriteOk(s: Sys, o: OwnerKey, f: Option<Fence>, t: Token)
    requires SoundFence(s, o, f) && t in s.workers && WorkerOk(s, t)
    ensures WorkerOk(PutDoc(s, o, s.docs[o].(fence := f)), t)
  {
    var s' := PutDoc(s, o, s.docs[o].(fence := f));
    var m := s.workers[t].main;
    if m.Applying? || m.Swapping? {
      assert Unsurpassed(s', t);
    }
  }

  lemma FenceWriteKeeps(s: Sys, o: OwnerKey, f: Option<Fence>)
    requires Inv(s) && SoundFence(s, o, f)
    ensures Inv(PutDoc(s, o, s.docs[o].(fence := f)))
  {
    hide JobsOk, OneBarrier, KeysDisjoint, TokensLinked, SwapsOk, SettlesOk, ReleasesOk, WorkerOk;
    FenceWriteKeepsDocuments(s, o, f);
    forall t <- s.workers ensures WorkerOk(PutDoc(s, o, s.docs[o].(fence := f)), t) {
      FenceWriteOk(s, o, f, t);
    }
  }

  /** A write of the messages by another writer, which moves the revision. */
  lemma MessagesWriteKeeps(s: Sys, o: OwnerKey, d: ContextDoc)
    requires Inv(s) && o in s.docs
    requires d.lastApplied == s.docs[o].lastApplied && d.fence == s.docs[o].fence
    requires d.revision > s.docs[o].revision
    ensures Inv(PutDoc(s, o, d))
  {
    hide JobsOk, OneBarrier, KeysDisjoint, TokensLinked, SwapsOk, SettlesOk, ReleasesOk, WorkerOk;
    MessagesWriteKeepsDocuments(s, o, d);
    forall t <- s.workers ensures WorkerOk(PutDoc(s, o, d), t) {
      MessagesWriteOk(s, o, d, t);
    }
  }

  lemma MessagesWriteKeepsDocuments(s: Sys, o: OwnerKey, d: ContextDoc)
    requires DocumentsOk(s) && o in s.docs
    requires d.lastApplied == s.docs[o].lastApplied && d.fence == s.docs[o].fence
    ensures DocumentsOk(PutDoc(s, o, d))
  {
    hide JobsOk, ReleasesOk, OneBarrier, KeysDisjoint, SwapsOk, SettlesOk;
    DocWriteKeepsDocuments(s, o, d);
  }

  lemma MessagesWriteOk(s: Sys, o: OwnerKey, d: ContextDoc, t: Token)
    requires t in s.workers && WorkerOk(s, t) && o in s.docs
    requires d.lastApplied == s.docs[o].lastApplied && d.fence == s.docs[o].fence
    requires d.revision > s.docs[o].revision
    ensures WorkerOk(PutDoc(s, o, d), t)
  {
    hide MainOk;
    assert Beside(s, PutDoc(s, o, d), t);
    WorkerBeside(s, PutDoc(s, o, d), t);
  }

  lemma DeleteKeeps(s: Sys, o: OwnerKey)
    requires Inv(s)
    ensures Inv(s.(docs := s.docs - {o}))
  {
    hide JobsOk, OneBarrier, KeysDisjoint, TokensLinked, SwapsOk, SettlesOk, ReleasesOk, WorkerOk;
    DeleteKeepsDocuments(s, o);
    forall t <- s.workers ensures WorkerOk(s.(docs := s.docs - {o}), t) {
      DeleteOk(s, o, t);
    }
  }

  lemma DeleteKeepsDocuments(s: Sys, o: OwnerKey)
    requires DocumentsOk(s)
    ensures DocumentsOk(s.(docs := s.docs - {o}))
  {
    hide JobOk, RisingWithin, OneBarrier, KeysDisjoint;
    var s' := s.(docs := s.docs - {o});
    SameStatusKeepsUnique(s, s');
    assert forall id: JobId :: ErrorReleases(s', id) == ErrorReleases(s, id);
    assert forall p: OwnerKey :: RuntimeOf(s', p) == RuntimeOf(s, p);
  }

  lemma DeleteOk(s: Sys, o: OwnerKey, t: Token)
    requires t in s.workers && WorkerOk(s, t)
    ensures WorkerOk(s.(docs := s.docs - {o}), t)
  {
    hide MainOk;
    assert Beside(s, s.(docs := s.docs - {o}), t);
    WorkerBeside(s, s.(docs := s.docs - {o}), t);
  }

  // -------------------------------------------------------------- the swap

  /** A swap that passes its filters applies a job that was never applied. */
  lemma SwapIsFirst(s: Sys, t: Token, now: Time)
    requires t in s.workers && WorkerOk(s, t) && SwapEnabled(s, t, now)
    ensures s.workers[t].job !in s.history.swapped
    ensures s.docs[s.workers[t].job.owner].Active() == s.workers[t].main.seen
    ensures s.workers[t].main.current.frozen.messages <= s.workers[t].main.seen
  {
  }

  lemma SwapKeepsSwaps(s: Sys, t: Token, now: Time)
    requires SwapsOk(s) && TokensLinked(s) && t in s.workers && WorkerOk(s, t) && SwapEnabled(s, t, now)
    requires s.jobs[s.workers[t].job].id == s.workers[t].job
    ensures SwapsOk(OwnerSwap(s, t, now)) && TokensLinked(OwnerSwap(s, t, now))
  {
    assert Unsurpassed(s, t);
    assert s.workers[t].main.current.id == s.workers[t].job;
    hide MainOk;
  }

  lemma SwapKeepsSettles(s: Sys, t: Token, now: Time)
    requires SettlesOk(s) && t in s.workers && WorkerOk(s, t) && SwapEnabled(s, t, now)
    requires s.jobs[s.workers[t].job].id == s.workers[t].job
    ensures SettlesOk(OwnerSwap(s, t, now))
  {
    SwapIsFirst(s, t, now);
    var s' := OwnerSwap(s, t, now);
    assert s.workers[t].main.current.id == s.workers[t].job;
    hide MainOk;
    assert forall o: OwnerKey :: RuntimeOf(s', o) == RuntimeOf(s, o);
  }

  lemma SwapKeepsRest(s: Sys, t: Token, now: Time)
    requires JobsOk(s) && OneBarrier(s) && KeysDisjoint(s) && ReleasesOk(s) && t in s.workers
    ensures var s' := OwnerSwap(s, t, now);
      JobsOk(s') && OneBarrier(s') && KeysDisjoint(s') && ReleasesOk(s')
  {
    hide JobOk, RisingWithin, OneBarrier, KeysDisjoint, SwapEnabled;
    var s' := OwnerSwap(s, t, now);
    SameStatusKeepsUnique(s, s');
    assert forall id: JobId :: ErrorReleases(s', id) == ErrorReleases(s, id);
  }

  lemma SwapOk(s: Sys, t: Token, now: Time, u: Token)
    requires t in s.workers && WorkerOk(s, t) && SwapEnabled(s, t, now)
    requires u in s.workers && WorkerOk(s, u)
    ensures WorkerOk(OwnerSwap(s, t, now), u)
  {
    var s' := OwnerSwap(s, t, now);
    hide MainOk;
    if u != t {
      assert Beside(s, s', u);
      WorkerBeside(s, s', u);
    } else {
      assert s'.workers[u].main.Idle?;
      IdleOk(s', u);
    }
  }

  lemma IdleOk(s: Sys, t: Token)
    requires t in s.workers && s.workers[t].job in s.jobs && s.workers[t].main.Idle?
    ensures MainOk(s, t)
  {
  }

  lemma OwnerSwapKeeps(s: Sys, t: Token, now: Time)
    requires Inv(s) && t in s.workers
    ensures Inv(OwnerSwap(s, t, now))
  {
    assert WorkerOk(s, t);
    if SwapEnabled(s, t, now) {
      assert s.jobs[s.workers[t].job].id == s.workers[t].job;
      hide JobsOk, OneBarrier, KeysDisjoint, TokensLinked, SwapsOk, SettlesOk, ReleasesOk, WorkerOk, SwapEnabled;
      SwapKeepsSwaps(s, t, now);
      SwapKeepsSettles(s, t, now);
      SwapKeepsRest(s, t, now);
      forall u <- s.workers ensures WorkerOk(OwnerSwap(s, t, now), u) {
        SwapOk(s, t, now, u);
      }
    } else {
      ReturnKeeps(s, t);
    }
  }

  // ------------------------------------------------------------ settlement

  lemma Extract(s: Sys, t: Token)
    requires Inv(s) && t in s.workers
    ensures WorkerOk(s, t) && s.workers[t].job in s.jobs && s.jobs[s.workers[t].job].id == s.workers[t].job
    ensures JobOk(s.jobs[s.workers[t].job])
  {
    hide OneBarrier, KeysDisjoint, TokensLinked, SwapsOk, SettlesOk, ReleasesOk, JobOk;
    assert WorkerOk(s, t);
  }

  /** A write of a runtime, or of what is recorded about settlement. */
  ghost predicate SoundSettlement(s: Sys, s': Sys) {
    && s' == s.(runtimes := s'.runtimes,
                history := s.history.(settled := s'.history.settled, absent := s'.history.absent))
    && s.history.settled <= s'.history.settled && s.history.absent <= s'.history.absent
    && SettlesOk(s')
  }

  lemma SettlementKeepsRest(s: Sys, s': Sys)
    requires JobsOk(s) && OneBarrier(s) && KeysDisjoint(s) && TokensLinked(s) && SwapsOk(s) && ReleasesOk(s)
    requires SoundSettlement(s, s')
    ensures JobsOk(s') && OneBarrier(s') && KeysDisjoint(s') && TokensLinked(s') && SwapsOk(s') && ReleasesOk(s')
  {
    hide JobOk, RisingWithin, OneBarrier, KeysDisjoint, SettlesOk;
    SameStatusKeepsUnique(s, s');
    assert forall id: JobId :: ErrorReleases(s', id) == ErrorReleases(s, id);
  }

  lemma SettlementOk(s: Sys, s': Sys, t: Token)
    requires t in s.workers && WorkerOk(s, t) && SoundSettlement(s, s')
    ensures WorkerOk(s', t)
  {
    hide MainOk, SettlesOk;
    WorkerBeside(s, s', t);
  }

  lemma SettlementKeeps(s: Sys, s': Sys)
    requires Inv(s) && SoundSettlement(s, s')
    ensures Inv(s')
  {
    assert s'.workers == s.workers;
    hide JobsOk, OneBarrier, KeysDisjoint, TokensLinked, SwapsOk, ReleasesOk, WorkerOk;
    SettlementKeepsRest(s, s');
    forall t <- s.workers ensures WorkerOk(s', t) {
      SettlementOk(s, s', t);
    }
  }

  lemma TouchRuntimeKeeps(s: Sys, o: OwnerKey, r: Runtime)
    requires Inv(s) && r.lastSettled == RuntimeOf(s, o).lastSettled
    ensures Inv(s.(runtimes := s.runtimes[o := r]))
  {
    hide JobsOk, OneBarrier, KeysDisjoint, TokensLinked, SwapsOk, ReleasesOk, WorkersOk;
    var s' := s.(runtimes := s.runtimes[o := r]);
    assert forall p: OwnerKey :: p != o ==> RuntimeOf(s', p) == RuntimeOf(s, p);
    SettlementKeeps(s, s');
  }

  lemma EffectIsSound(s: Sys, t: Token)
    requires SettlesOk(s) && t in s.workers && WorkerOk(s, t) && SettleEnabled(s, t)
    requires s.jobs[s.workers[t].job].id == s.workers[t].job
    ensures SoundSettlement(PutWorker(s, t, s.workers[t].(main := SettleVerifying(s.workers[t].main.current))),
                            RuntimeSettlement(s, t))
  {
    var w := s.workers[t];
    assert w.main.current.id == w.job;
    hide Evolves;
    var s' := RuntimeSettlement(s, t);
    assert forall p: OwnerKey :: p != w.job.owner ==> RuntimeOf(s', p) == RuntimeOf(s, p);
  }

  lemma SettlingToVerifying(s: Sys, t: Token)
    requires t in s.workers && WorkerOk(s, t) && s.workers[t].main.SettlingRuntime?
    ensures WorkerOk(PutWorker(s, t, s.workers[t].(main := SettleVerifying(s.workers[t].main.current))), t)
  {
  }

  lemma RuntimeSettlementKeeps(s: Sys, t: Token)
    requires Inv(s) && t in s.workers && s.workers[t].main.SettlingRuntime?
    ensures Inv(RuntimeSettlement(s, t))
  {
    hide JobsOk, OneBarrier, KeysDisjoint, TokensLinked, SwapsOk, SettlesOk, ReleasesOk, WorkersOk, WorkerOk;
    hide SettleEnabled, SoundSettlement;
    Extract(s, t);
    SettlingToVerifying(s, t);
    var s1 := PutWorker(s, t, s.workers[t].(main := SettleVerifying(s.workers[t].main.current)));
    WorkerWriteKeeps(s, t, s1.workers[t]);
    if SettleEnabled(s, t) {
      EffectIsSound(s, t);
      SettlementKeeps(s1, RuntimeSettlement(s, t));
    }
  }

  function Noted(s: Sys, id: JobId): Sys {
    s.(history := s.history.(absent := s.history.absent + {id}))
  }

  lemma AbsenceIsSound(s: Sys, t: Token)
    requires SettlesOk(s) && t in s.workers && WorkerOk(s, t) && s.workers[t].main.SettlingRuntime?
    requires s.workers[t].job.owner.ConversationKey?
    ensures SoundSettlement(s, Noted(s, s.workers[t].job))
    ensures WorkerOk(PutWorker(Noted(s, s.workers[t].job), t,
                               s.workers[t].(main := SettleMarking(s.workers[t].main.current))), t)
  {
    hide Evolves;
    assert forall p: OwnerKey :: RuntimeOf(Noted(s, s.workers[t].job), p) == RuntimeOf(s, p);
  }

  lemma AbsenceKeeps(s: Sys, t: Token)
    requires Inv(s) && t in s.workers && s.workers[t].main.SettlingRuntime?
    requires s.workers[t].job.owner.ConversationKey?
    ensures Inv(PutWorker(Noted(s, s.workers[t].job), t,
                          s.workers[t].(main := SettleMarking(s.workers[t].main.current))))
  {
    hide JobsOk, OneBarrier, KeysDisjoint, TokensLinked, SwapsOk, ReleasesOk, WorkersOk, WorkerOk;
    hide SoundSettlement;
    Extract(s, t);
    AbsenceIsSound(s, t);
    SettlementKeeps(s, Noted(s, s.workers[t].job));
    WorkerWriteKeeps(Noted(s, s.workers[t].job), t,
                     s.workers[t].(main := SettleMarking(s.workers[t].main.current)));
  }

  // ----------------------------------------------- writes under the lease

  /** What the repository checked before its write is what the write relies on. */
  lemma PermittedIsInformed(s: Sys, t: Token, c: LeaseCommand, now: Time)
    requires t in s.workers && WorkerOk(s, t) && JobOk(s.jobs[s.workers[t].job])
    requires Permitted(s, s.workers[t], c) || c.Extend?
    requires Leased(s.jobs[s.workers[t].job], t, now, c).Some?
    ensures Informed(s.jobs[s.workers[t].job], c)
  {
    hide OutboxFaithful, BarrierOk;
  }

  lemma LeaseWriteIsSound(s: Sys, t: Token, c: LeaseCommand, now: Time)
    requires t in s.workers && WorkerOk(s, t) && JobOk(s.jobs[s.workers[t].job])
    requires s.jobs[s.workers[t].job].id == s.workers[t].job
    requires Permitted(s, s.workers[t], c) || c.Extend?
    requires Leased(s.jobs[s.workers[t].job], t, now, c).Some?
    ensures var k := Leased(s.jobs[s.workers[t].job], t, now, c).value;
      && SoundWrite(s, k) && k.id == s.workers[t].job
      && (forall u: Token :: u != t ==> Undisturbed(s.jobs[k.id], k, u))
      && (k.LeasedBy(t) && k.status.Retryable? ==>
            k.summary == s.jobs[k.id].summary && s.jobs[k.id].status.Retryable?)
  {
    var j := s.jobs[s.workers[t].job];
    var k := Leased(j, t, now, c).value;
    PermittedIsInformed(s, t, c, now);
    LeasedKeeps(j, t, now, c);
    assert j.LeasedBy(t);
    assert k.runtimeSettled && !j.runtimeSettled ==> s.workers[t].main.SettleMarking?;
    hide JobOk, Evolves;
  }

  /** The state after a lease write, before the error-path release is recorded. */
  lemma LeaseWriteKeepsWorker(s: Sys, t: Token, k: Job, w: Worker)
    requires t in s.workers && WorkerOk(s, t) && s.workers[t].job == k.id
    requires Evolves(s.jobs[k.id], k) && w.job == k.id && w.known == s.workers[t].known && w.main.Idle?
    requires k.LeasedBy(t) && k.status.Retryable? ==>
               k.summary == s.jobs[k.id].summary && s.jobs[k.id].status.Retryable? && s.jobs[k.id].LeasedBy(t)
    ensures WorkerOk(PutWorker(PutJob(s, k), t, w), t)
  {
    EvolvesTransitive(w.known, s.jobs[k.id], k);
    hide Evolves;
  }

  lemma SoundWriteParts(s: Sys, t: Token, k: Job)
    requires SoundWrite(s, k)
    ensures k.id in s.jobs && Evolves(s.jobs[k.id], k) && (k.LeasedBy(t) ==> s.jobs[k.id].LeasedBy(t))
  {
  }

  lemma LeaseWriteKeepsAll(s: Sys, t: Token, k: Job)
    requires Inv(s) && SoundWrite(s, k) && t in s.workers && s.workers[t].job == k.id && s.workers[t].main.Idle?
    requires forall u: Token :: u != t ==> Undisturbed(s.jobs[k.id], k, u)
    requires k.LeasedBy(t) && k.status.Retryable? ==>
               k.summary == s.jobs[k.id].summary && s.jobs[k.id].status.Retryable?
    ensures Inv(PutJob(s, k))
  {
    hide JobsOk, OneBarrier, KeysDisjoint, TokensLinked, SwapsOk, SettlesOk, ReleasesOk;
    hide SoundWrite, Undisturbed, WorkerOk, Evolves;
    SoundWriteParts(s, t, k);
    JobWriteKeeps(s, k);
    forall u <- s.workers ensures WorkerOk(PutJob(s, k), u) {
      if u == t {
        LeaseWriteKeepsWorker(s, t, k, s.workers[t]);
        assert PutWorker(PutJob(s, k), t, s.workers[t]) == PutJob(s, k);
      } else {
        JobWriteBeside(s, k, u);
      }
    }
  }

  lemma ReleaseLogKeeps(s: Sys, id: JobId, a: nat)
    requires Inv(s) && id in s.jobs && s.jobs[id].lease.None? && s.jobs[id].attempt == a
    requires 1 <= a < s.maxAttempts && forall b <- ErrorReleases(s, id) :: b < a
    ensures Inv(s.(history := s.history.(errorReleases :=
                     s.history.errorReleases[id := ErrorReleases(s, id) + [a]])))
  {
    hide JobsOk, OneBarrier, KeysDisjoint, TokensLinked, SwapsOk, SettlesOk, ReleasesOk, WorkerOk;
    var s' := s.(history := s.history.(errorReleases :=
                   s.history.errorReleases[id := ErrorReleases(s, id) + [a]]));
    ReleaseLogKeepsReleases(s, id, a);
    ReleaseLogKeepsRest(s, s');
    forall t <- s.workers ensures WorkerOk(s', t) {
      ReleaseLogOk(s, s', t);
    }
  }

  lemma ReleaseLogKeepsReleases(s: Sys, id: JobId, a: nat)
    requires ReleasesOk(s) && id in s.jobs && s.jobs[id].lease.None? && s.jobs[id].attempt == a
    requires 1 <= a < s.maxAttempts && forall b <- ErrorReleases(s, id) :: b < a
    ensures ReleasesOk(s.(history := s.history.(errorReleases :=
                            s.history.errorReleases[id := ErrorReleases(s, id) + [a]])))
  {
    hide RisingWithin;
    var s' := s.(history := s.history.(errorReleases :=
                   s.history.errorReleases[id := ErrorReleases(s, id) + [a]]));
    RisingSnoc(ErrorReleases(s, id), s.maxAttempts, a);
    forall i <- s'.jobs
      ensures RisingWithin(ErrorReleases(s', i), s.maxAttempts)
      ensures forall b <- ErrorReleases(s', i) ::
                b <= s.jobs[i].attempt && (s.jobs[i].lease.Some? ==> b < s.jobs[i].attempt)
    {
      assert ErrorReleases(s', i) == if i == id then ErrorReleases(s, id) + [a] else ErrorReleases(s, i);
    }
  }

  lemma RisingSnoc(xs: seq<nat>, max: nat, a: nat)
    requires RisingWithin(xs, max) && 1 <= a < max && forall b <- xs :: b < a
    ensures RisingWithin(xs + [a], max)
  {
    assert forall i :: 0 <= i < |xs| ==> xs[i] in xs;
  }

  lemma ReleaseLogKeepsRest(s: Sys, s': Sys)
    requires JobsOk(s) && OneBarrier(s) && KeysDisjoint(s) && TokensLinked(s) && SwapsOk(s) && SettlesOk(s)
    requires s' == s.(history := s.history.(errorReleases := s'.history.errorReleases))
    ensures JobsOk(s') && OneBarrier(s') && KeysDisjoint(s') && TokensLinked(s') && SwapsOk(s') && SettlesOk(s')
  {
    hide JobOk, OneBarrier, KeysDisjoint;
    SameStatusKeepsUnique(s, s');
    assert forall o: OwnerKey :: RuntimeOf(s', o) == RuntimeOf(s, o);
  }

  lemma ReleaseLogOk(s: Sys, s': Sys, t: Token)
    requires t in s.workers && WorkerOk(s, t)
    requires s' == s.(history := s.history.(errorReleases := s'.history.errorReleases))
    ensures WorkerOk(s', t)
  {
    hide MainOk;
    WorkerBeside(s, s', t);
  }

  /** The attempt read on the error path is the attempt of the lease being dropped. */
  lemma ReleaseIsBounded(s: Sys, t: Token, now: Time, delay: Time)
    requires t in s.workers && WorkerOk(s, t) && JobOk(s.jobs[s.workers[t].job])
    requires ReleasesOk(s) && s.workers[t].main.Failing? && s.workers[t].main.attempt < s.maxAttempts
    requires Leased(s.jobs[s.workers[t].job], t, now, Release(delay)).Some?
    ensures var id := s.workers[t].job;
      && s.workers[t].main.attempt == s.jobs[id].attempt && 1 <= s.jobs[id].attempt < s.maxAttempts
      && Leased(s.jobs[id], t, now, Release(delay)).value.lease.None?
      && Leased(s.jobs[id], t, now, Release(delay)).value.attempt == s.jobs[id].attempt
      && forall b <- ErrorReleases(s, id) :: b < s.jobs[id].attempt
  {
    hide OutboxFaithful, PhaseOk, Evolves;
    assert s.jobs[s.workers[t].job].LeasedBy(t);
  }

  lemma FailingBelowMax(s: Sys, w: Worker, c: LeaseCommand)
    requires Permitted(s, w, c) && c.Release? && w.main.Failing?
    ensures w.main.attempt < s.maxAttempts
  {
  }

  lemma LeaseWriteKeeps(s: Sys, t: Token, c: LeaseCommand, now: Time)
    requires Inv(s) && t in s.workers && s.workers[t].job in s.jobs
    ensures Inv(LeaseWrite(s, t, c, now))
  {
    hide JobsOk, OneBarrier, KeysDisjoint, TokensLinked, SwapsOk, SettlesOk, ReleasesOk;
    hide SoundWrite, Undisturbed, WorkersOk, WorkerOk, Evolves, JobOk, Leased, Permitted;
    Extract(s, t);
    var w := s.workers[t];
    var id := w.job;
    if Permitted(s, w, c) {
      ReturnKeeps(s, t);
      var s1 := PutWorker(s, t, w.(main := Idle));
      if Leased(s.jobs[id], t, now, c).Some? {
        var k := Leased(s.jobs[id], t, now, c).value;
        LeaseWriteIsSound(s, t, c, now);
        assert SoundWrite(s1, k) by { SoundAfterReturn(s, t, k); }
        LeaseWriteKeepsAll(s1, t, k);
        if c.Release? && w.main.Failing? {
          assert w.main.attempt < s.maxAttempts by { FailingBelowMax(s, w, c); }
          ReleaseIsBounded(s, t, now, c.delay);
          assert ErrorReleases(PutJob(s1, k), id) == ErrorReleases(s, id);
          ReleaseLogKeeps(PutJob(s1, k), id, w.main.attempt);
        }
      }
    }
  }

  lemma SoundAfterReturn(s: Sys, t: Token, k: Job)
    requires t in s.workers && SoundWrite(s, k)
    ensures SoundWrite(PutWorker(s, t, s.workers[t].(main := Idle)), k)
  {
    hide JobOk, Evolves;
  }

  // -------------------------------------------- heartbeats and the fence

  lemma BeatChangeOk(s: Sys, t: Token, b: Beat)
    requires t in s.workers && WorkerOk(s, t)
    ensures WorkerOk(PutWorker(s, t, s.workers[t].(beat := b)), t)
  {
    MainUnchanged(s, t, s.workers[t].(beat := b));
    hide MainOk;
  }

  lemma BeatChangeKeeps(s: Sys, t: Token, b: Beat)
    requires Inv(s) && t in s.workers
    ensures Inv(PutWorker(s, t, s.workers[t].(beat := b)))
  {
    hide JobsOk, OneBarrier, KeysDisjoint, TokensLinked, SwapsOk, SettlesOk, ReleasesOk, WorkerOk;
    Extract(s, t);
    BeatChangeOk(s, t, b);
    WorkerWriteKeeps(s, t, s.workers[t].(beat := b));
  }

  lemma ExtendKeepsWorker(s: Sys, t: Token, k: Job)
    requires t in s.workers && WorkerOk(s, t) && s.workers[t].job == k.id && k.id in s.jobs
    requires k == s.jobs[k.id].(lease := k.lease) && s.jobs[k.id].LeasedBy(t)
    ensures WorkerOk(PutJob(s, k), t)
  {
    var s' := PutJob(s, k);
    assert Beside(s, s', t);
    WorkerBeside(s, s', t);
  }

  lemma ExtendKeeps(s: Sys, t: Token, expiresAt: Time, now: Time)
    requires Inv(s) && t in s.workers && s.workers[t].job in s.jobs
    requires Leased(s.jobs[s.workers[t].job], t, now, Extend(expiresAt)).Some?
    ensures Inv(PutJob(s, Leased(s.jobs[s.workers[t].job], t, now, Extend(expiresAt)).value))
  {
    hide JobsOk, OneBarrier, KeysDisjoint, TokensLinked, SwapsOk, SettlesOk, ReleasesOk;
    hide SoundWrite, Undisturbed, WorkerOk, Evolves, JobOk;
    Extract(s, t);
    var k := Leased(s.jobs[s.workers[t].job], t, now, Extend(expiresAt)).value;
    LeaseWriteIsSound(s, t, Extend(expiresAt), now);
    JobWriteKeeps(s, k);
    forall u <- s.workers ensures WorkerOk(PutJob(s, k), u) {
      if u == t {
        ExtendKeepsWorker(s, t, k);
      } else {
        JobWriteBeside(s, k, u);
      }
    }
  }

  lemma BeatLeaseKeeps(s: Sys, t: Token, expiresAt: Time, now: Time)
    requires Inv(s) && t in s.workers && s.workers[t].job in s.jobs
    requires Leased(s.jobs[s.workers[t].job], t, now, Extend(expiresAt)).Some?
    ensures var k := Leased(s.jobs[s.workers[t].job], t, now, Extend(expiresAt)).value;
      Inv(PutWorker(PutJob(s, k), t, s.workers[t].(beat := LeaseExtended(expiresAt))))
  {
    hide Inv;
    ExtendKeeps(s, t, expiresAt, now);
    BeatChangeKeeps(PutJob(s, Leased(s.jobs[s.workers[t].job], t, now, Extend(expiresAt)).value), t,
                    LeaseExtended(expiresAt));
  }

  lemma BeatFenceKeeps(s: Sys, t: Token)
    requires Inv(s) && t in s.workers && s.workers[t].job in s.jobs
    ensures Inv(Moved(s, t, BeatFence, 0))
  {
    hide Inv;
    var w := s.workers[t];
    if w.beat.LeaseExtended? {
      var s' := PutWorker(s, t, w.(beat := Resting));
      BeatChangeKeeps(s, t, Resting);
      var o := w.job.owner;
      if o in s.docs && s.docs[o].fence.Some? && s.docs[o].fence.value.job == w.job
         && s.docs[o].fence.value.token == t {
        FenceWriteKeeps(s', o, Some(Fence(w.job, t, w.beat.expiresAt)));
      }
    }
  }

  lemma EstablishKeeps(s: Sys, t: Token, now: Time)
    requires Inv(s) && t in s.workers && s.workers[t].job in s.jobs
    ensures Inv(Moved(s, t, EstablishWrite, now))
  {
    hide Inv, FenceReusable;
    var w := s.workers[t];
    if w.main.Establishing? {
      var s' := PutWorker(s, t, w.(main := Idle));
      ReturnKeeps(s, t);
      var o := w.job.owner;
      if o in s.docs && FenceReusable(s.docs[o], w.job, t, now) {
        FenceWriteKeeps(s', o, Some(Fence(w.job, t, w.main.expiresAt)));
      }
    }
  }

  // ------------------------------------------------------------- all steps

  lemma MovedKeeps(s: Sys, t: Token, move: Move, now: Time)
    requires Inv(s)
    ensures Inv(Moved(s, t, move, now))
  {
    hide Inv, LeaseWrite, OwnerSwap, RuntimeSettlement, FenceReusable, Leased;
    if t in s.workers && s.workers[t].job in s.jobs && (Starts(move) ==> s.workers[t].main.Idle?) {
      match move
      case Refresh => RefreshKeeps(s, t);
      case EstablishWrite => EstablishKeeps(s, t, now);
      case ApplySwap => OwnerSwapKeeps(s, t, now);
      case SettleAbsent =>
        if s.workers[t].main.SettlingRuntime? && s.workers[t].job.owner.ConversationKey? {
          AbsenceKeeps(s, t);
        }
      case SettleRuntime =>
        if s.workers[t].main.SettlingRuntime? {
          RuntimeSettlementKeeps(s, t);
        }
      case Write(c) => LeaseWriteKeeps(s, t, c, now);
      case BeatLease =>
        if Leased(s.jobs[s.workers[t].job], t, now, Extend(now + s.workers[t].leaseMs)).Some? {
          BeatLeaseKeeps(s, t, now + s.workers[t].leaseMs, now);
        }
      case BeatFence => BeatFenceKeeps(s, t);
      case _ => ReadKeeps(s, t, move, now);
    }
  }

  /** A move that changes nothing but where its worker stands. */
  predicate IsRead(move: Move) {
    !(move.EstablishWrite? || move.ApplySwap? || move.SettleAbsent? || move.SettleRuntime? || move.Refresh?
      || move.BeatLease? || move.BeatFence? || move.Write?)
  }

  lemma MovedRead(s: Sys, t: Token, move: Move, now: Time)
    requires t in s.workers && s.workers[t].job in s.jobs && IsRead(move)
    ensures Moved(s, t, move, now)
         == if Starts(move) && !s.workers[t].main.Idle? then s
            else PutWorker(s, t, s.workers[t].(main := Read(s, t, move, now)))
  {
    hide Read;
  }

  lemma FenceLinked(s: Sys, o: OwnerKey)
    requires o in s.docs
    ensures SoundFence(s, o, None)
  {
  }

  /** Every action of every actor keeps the invariant, whatever its clock says. */
  lemma NextKeeps(s: Sys, a: Action)
    requires Inv(s)
    ensures Inv(Next(s, a))
  {
    hide Inv, Moved, ClaimJob, CommandJob, CreateJob;
    match a
    case Create(id, sourceRunId, frozen, context, projection, availableAt, createdAt) =>
      if frozen.messages != [] {
        CreatedOk(id, sourceRunId, frozen, context, projection, availableAt, createdAt);
        CreateKeeps(s, Created(id, sourceRunId, frozen, context, projection, availableAt, createdAt));
      } else {
        EmptyPrefixRefused(s, Created(id, sourceRunId, frozen, context, projection, availableAt, createdAt));
      }
    case OnJob(id, c) => CommandJobKeeps(s, id, c);
    case Claim(id, t, leaseMs, now) => ClaimJobKeeps(s, id, t, leaseMs, now);
    case Do(t, move, now) => MovedKeeps(s, t, move, now);
    case ClearFence(o, id, t) =>
      if ClearedFence(s, o, id, t) != s {
        FenceWriteKeeps(s, o, None);
      }
    case ReapFence(o, now) =>
      if ReapedFence(s, o, now) != s {
        FenceWriteKeeps(s, o, None);
      }
    case Append(o, m) =>
      if o in s.docs {
        MessagesWriteKeeps(s, o, Appended(s.docs[o], m));
      }
    case Rewrite(o, m, c) =>
      if o in s.docs {
        MessagesWriteKeeps(s, o, s.docs[o].(messages := m, compacted := c, revision := s.docs[o].revision + 1));
      }
    case Delete(o) => DeleteKeeps(s, o);
    case TouchRuntime(o, r) =>
      if r.lastSettled == RuntimeOf(s, o).lastSettled {
        TouchRuntimeKeeps(s, o, r);
      }
  }

  lemma EmptyPrefixRefused(s: Sys, j: Job)
    requires j.frozen.messages == []
    ensures CreateJob(s, j) == s
  {
  }

  lemma InitialInv(s: Sys)
    requires Initial(s)
    ensures Inv(s)
  {
  }

  /** The invariant holds at every point of every run. */
  lemma {:induction false} RunKeeps(s: Sys, actions: seq<Action>)
    requires Initial(s) || Inv(s)
    ensures Inv(Run(s, actions))
    decreases |actions|
  {
    if Initial(s) {
      InitialInv(s);
    }
    hide Inv, Next;
    if actions != [] {
      RunKeeps(s, actions[..|actions| - 1]);
      NextKeeps(Run(s, actions[..|actions| - 1]), actions[|actions| - 1]);
    }
  }
}
