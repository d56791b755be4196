/** Recovery of switch-server: a rerun without faults finishes the switch from every crash point. */
module EgoRecovery {
  import opened Prelude
  import opened EgoState
  import opened EgoSwitch
  import opened EgoSafety

  /** A reply without fault; an ensure that gets it leaves a credentialed identity of the target. */
  predicate Good(r: Reply, retired: Device, target: string) {
    && r.ok
    && r.leftStore.Identity?
    && r.leftStore.metadata.device.origin == target
    && r.leftStore.metadata.device.id != retired.id
    && r.leftStore.metadata.credentialRevision > 0
  }

  /** The number of faultless replies before the first fault. */
  function Supply(s: Script, retired: Device, target: string): nat {
    if s.Next? && Good(s.reply, retired, target) then 1 + Supply(s.rest, retired, target) else 0
  }

  const REPLIES_PER_TURN := 6
  const REPLIES_BEFORE_LOOP := 13
  const SUFFICIENT_REPLIES := REPLIES_BEFORE_LOOP + 5 * REPLIES_PER_TURN

  predicate Supplied(w: World, p: Pending, n: nat) {
    && w.phase.Running?
    && p.target.Some?
    && !w.disk.store.Unreadable?
    && Supply(w.script, p.device, p.target.value) >= n
  }

  lemma Drawn(w: World, p: Pending, d: Disk, n: nat)
    requires Supplied(w, p, n + 1)
    ensures Attempt(w).ok && Supplied(Attempt(w).world, p, n)
    ensures TryPut(w, d).ok && TryPut(w, d).world.disk == d
    ensures !d.store.Unreadable? ==> Supplied(TryPut(w, d).world, p, n)
  {
  }

  lemma SaveSucceeds(w: World, p: Pending, n: nat)
    requires Supplied(w, p, n + 2)
    ensures var saved := SaveConfig(w, p.target);
            saved.ok && Supplied(saved.world, p, n) && saved.world.disk == w.disk.(config := p.target)
  {
    Drawn(w, p, w.disk, n + 1);
    Drawn(Attempt(w).world, p, w.disk.(config := p.target), n);
  }

  lemma AttemptSucceeds(w: World, p: Pending, n: nat)
    requires Supplied(w, p, n + 5)
    requires SwitchInv(w.disk) && w.disk.pending == Some(p)
    ensures StageAttempt(w, p).ok && Supplied(StageAttempt(w, p).world, p, n)
  {
    Drawn(w, p, w.disk, n + 4);
    var w1 := Attempt(w).world;
    Drawn(w1, p, w1.disk, n + 3);
    var w2 := Attempt(w1).world;
    match NextStage(p)
    case RevokeOldOrigin => Drawn(w2, p, w2.disk.(revoked := w2.disk.revoked + {p.device}), n + 2);
    case PurgeLocal =>
    case SwitchConfig => SaveSucceeds(w, p, n + 3);
    case EnsureNewIdentity =>
      if !Classify(p, w.disk.store).TargetEnsured? {
        var ensure := EnsureCall(w2, p.device, p.target.value);
        assert Supplied(ensure.world, p, n + 2);
        Drawn(ensure.world, p, ensure.world.disk, n + 1);
      }
    case Finalize =>
  }

  lemma FinishSucceeds(w: World, p: Pending)
    requires Supplied(w, p, 5)
    requires SwitchInv(w.disk) && w.disk.pending == Some(p) && NextStage(p).Finalize?
    ensures Finish(w, p).phase.Succeeded? && IsSwitched(Finish(w, p).disk, p)
  {
    SaveSucceeds(w, p, 3);
    var w1 := SaveConfig(w, p.target).world;
    Drawn(w1, p, w1.disk.(admissionFile := Some(Ready)), 2);
    var w2 := Put(w1, w1.disk.(admissionFile := Some(Ready)));
    Drawn(w2, p, w2.disk.(admissionProjection := Ready), 1);
    var w3 := Put(w2, w2.disk.(admissionProjection := Ready));
    Drawn(w3, p, w3.disk.(pending := None), 0);
  }

  /** Without faults the loop reaches the final state. */
  lemma {:induction false} LoopFinishes(w: World, p: Pending)
    requires Supplied(w, p, REPLIES_PER_TURN * (UnsetFlags(p) + 1) + 4)
    requires SwitchInv(w.disk) && w.disk.pending == Some(p)
    ensures Loop(w, p).phase.Succeeded? && IsSwitched(Loop(w, p).disk, p)
    decreases UnsetFlags(p)
  {
    var n := REPLIES_PER_TURN * UnsetFlags(p) + 5;
    AttemptSucceeds(Turn(w), p, n);
    AttemptJustifies(Turn(w), p);
    var a := StageAttempt(Turn(w), p);
    if NextStage(p).Finalize? {
      FinishSucceeds(a.world, p);
    } else {
      var w1 := RunStage(Turn(w), p);
      assert UnsetFlags(Advanced(p)) == UnsetFlags(p) - 1;
      assert Supplied(w1, Advanced(p), n - 1);
      LoopFinishes(w1, Advanced(p));
    }
  }

  lemma ReconcileSucceeds(w: World, p: Pending, n: nat)
    requires Supplied(w, p, n + 3)
    requires SwitchInv(w.disk) && w.disk.pending == Some(p)
    ensures var (r, q) := Reconcile(w, p);
            r.ok && Supplied(r.world, q, n) && UnsetFlags(q) <= UnsetFlags(p) && Extends(p, q)
  {
    Drawn(w, p, w.disk, n + 2);
    var w1 := Attempt(w).world;
    Drawn(w1, p, w1.disk, n + 1);
    var w2 := Attempt(w1).world;
    CrashInferenceSound(w2.disk, p);
    var q := Reconciled(p, Classify(p, w2.disk.store), w2.disk.config == p.target);
    Drawn(w2, p, w2.disk.(pending := Some(q)), n);
  }

  lemma ResumeFinishes(w: World, p: Pending)
    requires Supplied(w, p, SUFFICIENT_REPLIES - 3)
    requires SwitchInv(w.disk) && Justified(w.disk, p)
    requires w.disk.pending == Some(p) || w.disk.pending == None
    ensures ResumeSwitch(w, p).phase.Succeeded? && IsSwitched(ResumeSwitch(w, p).disk, p)
  {
    var n := REPLIES_PER_TURN * 5 + 4;
    Drawn(w, p, w.disk.(admissionFile := Some(Closed)), n + 5);
    var w1 := Put(w, w.disk.(admissionFile := Some(Closed)));
    Drawn(w1, p, w1.disk.(admissionProjection := Closed), n + 4);
    var w2 := SetAdmission(w, Closed);
    Drawn(w2, p, w2.disk.(pending := Some(p)), n + 3);
    var w3 := WritePending(w2, p);
    PersistKeeps(w, p);
    ReconcileSucceeds(w3, p, n);
    ReconcileJustifies(w3, p);
    var (r, q) := Reconcile(w3, p);
    LoopFinishes(r.world, q);
  }

  /** From every state a crash can leave, one faultless rerun with the same target finishes the switch. */
  lemma RerunFinishes(w: World, p: Pending)
    requires SwitchInv(w.disk) && w.disk.pending == Some(p)
    requires Supplied(w, p, SUFFICIENT_REPLIES)
    ensures var w1 := RunSwitch(w, p.target.value);
            w1.phase.Succeeded? && IsSwitched(w1.disk, p)
  {
    Drawn(w, p, w.disk, SUFFICIENT_REPLIES - 1);
    ResumeFinishes(Attempt(w).world, p);
  }

  /** So does a faultless first run, for every identity of another origin. */
  lemma FirstRunFinishes(w: World, m: Metadata, target: string)
    requires SafeLog(w.disk.log) && w.disk.pending == None && w.disk.store == Identity(m)
    requires m.device.generation != 0 && m.device.origin != target
    requires Supplied(w, NewSwitch(m, target), SUFFICIENT_REPLIES)
    ensures var w1 := RunSwitch(w, target);
            w1.phase.Succeeded? && IsSwitched(w1.disk, NewSwitch(m, target))
  {
    var p := NewSwitch(m, target);
    Drawn(w, p, w.disk, SUFFICIENT_REPLIES - 1);
    var w1 := Attempt(w).world;
    Drawn(w1, p, w.disk, SUFFICIENT_REPLIES - 2);
    var w2 := Attempt(w1).world;
    Drawn(w2, p, w.disk, SUFFICIENT_REPLIES - 3);
    ResumeFinishes(Attempt(w2).world, p);
  }

  /** A store that holds artifacts without readable metadata blocks every rerun, whatever the replies. */
  lemma UnreadableStoreBlocks(w: World, p: Pending)
    requires w.phase.Running? && w.disk.store.Unreadable?
    requires w.disk.pending == Some(p) && IsSwitch(p) && p.target.Some?
    ensures var w1 := RunSwitch(w, p.target.value);
            && w1.phase.Stopped?
            && w1.disk.store.Unreadable?
            && w1.disk.pending.Some? && Extends(p, w1.disk.pending.value)
  {
    var w1 := SetAdmission(Attempt(w).world, Closed);
    assert w1.disk.store.Unreadable? && w1.disk.pending == Some(p);
    var w2 := WritePending(w1, p);
    assert w2.disk.store.Unreadable? && w2.disk.pending == Some(p);
  }

  /** For every target and every sufficiently long faultless script, the rerun succeeds exactly when the store is
      readable. */
  lemma RerunFinishesIff(w: World, p: Pending)
    requires w.phase.Running? && SwitchInv(w.disk) && w.disk.pending == Some(p)
    requires Supply(w.script, p.device, p.target.value) >= SUFFICIENT_REPLIES
    ensures RunSwitch(w, p.target.value).phase.Succeeded? <==> !w.disk.store.Unreadable?
  {
    if w.disk.store.Unreadable? {
      UnreadableStoreBlocks(w, p);
    } else {
      RerunFinishes(w, p);
    }
  }

  /** Whatever the replies, a run never takes more than five loop turns. */
  lemma {:induction false} LoopTurns(w: World, p: Pending)
    requires p.target.Some?
    ensures w.turns <= Loop(w, p).turns <= w.turns + UnsetFlags(p) + 1
    decreases UnsetFlags(p)
  {
    if w.phase.Running? {
      var w1 := RunStage(Turn(w), p);
      StageKeepsTurns(Turn(w), p);
      if w1.phase.Running? {
        LoopTurns(w1, Advanced(p));
      }
    }
  }

  lemma StageKeepsTurns(w: World, p: Pending)
    requires p.target.Some?
    ensures RunStage(w, p).turns == w.turns
  {
  }

  lemma ResumeTurns(w: World, p: Pending)
    requires p.target.Some?
    ensures ResumeSwitch(w, p).turns <= w.turns + 5
  {
    var w1 := WritePending(SetAdmission(w, Closed), p);
    assert w1.turns == w.turns;
    var (r, q) := Reconcile(w1, p);
    assert r.world.turns == w.turns && q.target == p.target;
    LoopTurns(r.world, q);
  }

  lemma FiveTurns(w: World, target: string)
    ensures RunSwitch(w, target).turns <= w.turns + 5
  {
    var load := Attempt(w);
    match load.world.disk.pending
    case Some(p) =>
      if p.target == Some(target) {
        ResumeTurns(load.world, p);
      }
    case None =>
      var found := Attempt(load.world);
      if found.world.disk.store.Identity? {
        ResumeTurns(Attempt(found.world).world, NewSwitch(found.world.disk.store.metadata, target));
      }
  }
}
