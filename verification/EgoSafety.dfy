/** Safety of switch-server over every run with failures, crashes and reruns. */
module EgoSafety {
  import opened Prelude
  import opened EgoState
  import opened EgoSwitch

  predicate Holds(store: Store, device: Device) {
    store.Identity? && store.metadata.device == device
  }

  /** Purges are issued against exactly the recorded Device, already revoked; ensures never run
      while the retired identity is still in the store. */
  predicate SafeEvent(e: Event) {
    match e
    case Purged(recorded, store, revoked) => revoked && Holds(store, recorded)
    case Ensured(recorded, target, store) =>
      store == NoIdentity
      || (store.Identity? && store.metadata.device.origin == target && store.metadata.device.id != recorded.id)
  }

  predicate SafeLog(log: Log) {
    log.Then? ==> SafeEvent(log.event) && SafeLog(log.earlier)
  }

  /** What the record claims is true of the store and of the old server. */
  predicate Justified(d: Disk, p: Pending) {
    && ValidPending(p)
    && IsSwitch(p)
    && (p.oldOriginRevoked || !Holds(d.store, p.device) ==> p.device in d.revoked)
    && (p.localPurged ==> !Holds(d.store, p.device))
    && (d.store.Identity? ==> !Classify(p, d.store).Foreign?)
    && (p.newIdentityEnsured ==> d.store.Identity? && Classify(p, d.store).TargetEnsured?)
  }

  predicate SwitchInv(d: Disk) {
    SafeLog(d.log) && (d.pending.Some? ==> Justified(d, d.pending.value))
  }

  /** Same operation, no flag lost. */
  predicate Extends(p: Pending, q: Pending) {
    && q.device == p.device && q.target == p.target && IsSwitch(q)
    && (p.oldOriginRevoked ==> q.oldOriginRevoked)
    && (p.localPurged ==> q.localPurged)
    && (p.configSwitched ==> q.configSwitched)
    && (p.newIdentityEnsured ==> q.newIdentityEnsured)
  }

  /** What a command that owns record `p` may leave: a safe disk with `p` extended, or a finished switch. */
  predicate Continues(w: World, p: Pending) {
    && SwitchInv(w.disk)
    && match w.disk.pending
       case Some(q) => Extends(p, q)
       case None => IsSwitched(w.disk, p)
  }

  /** The one final state: the old Device revoked, the target identity ensured and configured, admission ready. */
  predicate IsSwitched(d: Disk, p: Pending) {
    && p.target.Some?
    && p.device in d.revoked
    && d.store.Identity? && Classify(p, d.store).TargetEnsured?
    && d.config == p.target
    && EffectiveAdmission(d) == Ready
    && d.admissionProjection == Ready
    && d.pending == None
  }

  lemma RecordFailureContinues(w: World, p: Pending, q: Pending)
    requires SwitchInv(w.disk) && Extends(p, q) && Justified(w.disk, q)
    requires w.disk.pending.Some? && Extends(p, w.disk.pending.value)
    ensures Continues(RecordFailure(w, q), p)
    ensures !RecordFailure(w, q).phase.Running?
  {
  }

  /** What a stage does before marking its progress keeps the record true, and on success proves the next flag. */
  lemma AttemptJustifies(w: World, p: Pending)
    requires SwitchInv(w.disk) && w.disk.pending == Some(p)
    ensures var a := StageAttempt(w, p);
            && a.world.disk.pending == Some(p)
            && SwitchInv(a.world.disk)
            && (a.ok ==> Justified(a.world.disk, Advanced(p)))
            && (a.ok && NextStage(p).Finalize? ==> Classify(p, a.world.disk.store).TargetEnsured?)
  {
  }

  lemma SaveConfigEffect(w: World, target: Option<string>)
    ensures var saved := SaveConfig(w, target);
            && (saved.world.disk == w.disk || saved.world.disk == w.disk.(config := target))
            && (saved.ok ==> saved.world.disk.config == target)
  {
  }

  lemma OpenAndClear(w: World, p: Pending)
    requires SwitchInv(w.disk) && w.disk.pending == Some(p) && NextStage(p).Finalize? && w.disk.config == p.target
    ensures var w1 := Succeed(ClearPending(SetAdmission(w, Ready)));
            Continues(w1, p) && !w1.phase.Running?
  {
    var w1 := Put(w, w.disk.(admissionFile := Some(Ready)));
    assert SwitchInv(w1.disk) && w1.disk.pending == Some(p);
    var w2 := Put(w1, w1.disk.(admissionProjection := Ready));
    assert SwitchInv(w2.disk) && w2.disk.pending == Some(p);
    assert w2.phase.Running? ==> EffectiveAdmission(w2.disk) == Ready && w2.disk.admissionProjection == Ready;
  }

  lemma FinishContinues(w: World, p: Pending)
    requires SwitchInv(w.disk) && w.disk.pending == Some(p) && NextStage(p).Finalize?
    ensures Continues(Finish(w, p), p)
    ensures !Finish(w, p).phase.Running?
  {
    SaveConfigEffect(w, p.target);
    var saved := SaveConfig(w, p.target);
    assert SwitchInv(saved.world.disk) && saved.world.disk.pending == Some(p);
    if saved.ok {
      OpenAndClear(saved.world, p);
    } else {
      RecordFailureContinues(saved.world, p, p);
    }
  }

  lemma StageContinues(w: World, p: Pending)
    requires SwitchInv(w.disk) && w.disk.pending == Some(p) && w.phase.Running?
    ensures var w1 := RunStage(w, p);
            Continues(w1, p) && (w1.phase.Running? ==> w1.disk.pending == Some(Advanced(p)))
  {
    AttemptJustifies(w, p);
    var a := StageAttempt(w, p);
    if !a.ok {
      RecordFailureContinues(a.world, p, p);
    } else if NextStage(p).Finalize? {
      FinishContinues(a.world, p);
    }
  }

  lemma {:induction false} LoopContinues(w: World, p: Pending)
    requires SwitchInv(w.disk) && w.disk.pending == Some(p)
    ensures Continues(Loop(w, p), p)
    decreases UnsetFlags(p)
  {
    if w.phase.Running? {
      StageContinues(Turn(w), p);
      var w1 := RunStage(Turn(w), p);
      if w1.phase.Running? {
        LoopContinues(w1, Advanced(p));
      }
    }
  }

  /** The crash inference only ever records facts. */
  lemma CrashInferenceSound(d: Disk, p: Pending)
    requires SwitchInv(d) && d.pending == Some(p) && !d.store.Unreadable?
    ensures var q := Reconciled(p, Classify(p, d.store), d.config == p.target);
            && Extends(p, q)
            && Justified(d, q)
            && (q.oldOriginRevoked ==> p.device in d.revoked)
            && (q.configSwitched && !p.configSwitched ==> d.config == p.target)
  {
  }

  /** The flags of a valid record are the first few of four, and the next stage is that of the first one missing. */
  lemma FlagsAreAPrefix(p: Pending)
    requires ValidPending(p) && IsSwitch(p)
    ensures var done := 4 - UnsetFlags(p);
            && (p.oldOriginRevoked <==> done >= 1) && (p.localPurged <==> done >= 2)
            && (p.configSwitched <==> done >= 3) && (p.newIdentityEnsured <==> done >= 4)
            && NextStage(p) == [RevokeOldOrigin, PurgeLocal, SwitchConfig, EnsureNewIdentity, Finalize][done]
  {
  }

  /** Where the crash inference resumes: with the target identity in the store, behind everything it proves; without any
      identity, behind the configuration if that already names the target; otherwise where the record says. */
  lemma InferenceResumes(p: Pending, local: LocalIdentity, configTarget: bool)
    requires ValidPending(p) && IsSwitch(p)
    ensures var q := Reconciled(p, local, configTarget);
            var known := p.configSwitched || configTarget;
            && (local.TargetEnsured? ==> NextStage(q) == if known then Finalize else SwitchConfig)
            && (local.TargetIncomplete? && !p.newIdentityEnsured ==>
                  NextStage(q) == if known then EnsureNewIdentity else SwitchConfig)
            && (local.Absent? && configTarget && !p.newIdentityEnsured ==> NextStage(q) == EnsureNewIdentity)
            && (local.Old? || local.Foreign? || (local.Absent? && !configTarget) ==> q == p)
  {
  }

  lemma ReconcileJustifies(w: World, p: Pending)
    requires SwitchInv(w.disk) && w.disk.pending == Some(p)
    ensures var (r, q) := Reconcile(w, p);
            && SwitchInv(r.world.disk) && Extends(p, q) && Justified(r.world.disk, q)
            && (r.world.disk.pending == Some(p) || r.world.disk.pending == Some(q))
            && (r.ok ==> r.world.disk.pending == Some(q))
  {
    if !w.disk.store.Unreadable? {
      CrashInferenceSound(w.disk, p);
    }
  }

  /** Persisting the operation either does nothing to the record or makes `p` the record. */
  lemma PersistKeeps(w: World, p: Pending)
    requires SwitchInv(w.disk) && Justified(w.disk, p)
    requires w.disk.pending == Some(p) || w.disk.pending == None
    ensures var w1 := WritePending(SetAdmission(w, Closed), p);
            && SwitchInv(w1.disk)
            && (w1.disk.pending == w.disk.pending || w1.disk.pending == Some(p))
            && (w1.phase.Running? ==> w1.disk.pending == Some(p))
  {
  }

  lemma ResumeContinues(w: World, p: Pending)
    requires SwitchInv(w.disk) && Justified(w.disk, p)
    requires w.disk.pending == Some(p) || w.disk.pending == None
    ensures var w1 := ResumeSwitch(w, p);
            Continues(w1, p) || (SwitchInv(w1.disk) && w1.disk.pending == None == w.disk.pending)
  {
    PersistKeeps(w, p);
    var w1 := WritePending(SetAdmission(w, Closed), p);
    if w1.phase.Running? {
      ReconcileJustifies(w1, p);
      var (r, q) := Reconcile(w1, p);
      if r.ok {
        LoopContinues(r.world, q);
      } else {
        RecordFailureContinues(r.world, p, q);
      }
    }
  }

  /** Every switch-server run, however it ends, keeps the record true and the destructive calls safe, and
      gives an operation already recorded back extended or finished. */
  lemma SwitchKeeps(w: World, target: string)
    requires SwitchInv(w.disk)
    ensures SwitchInv(RunSwitch(w, target).disk)
    ensures w.disk.pending.Some? ==> Continues(RunSwitch(w, target), w.disk.pending.value)
  {
    var load := Attempt(w);
    if load.ok {
      match load.world.disk.pending
      case Some(p) =>
        if IsSwitch(p) && p.target == Some(target) {
          ResumeContinues(load.world, p);
        }
      case None =>
        var found := Attempt(load.world);
        if found.ok && found.world.disk.store.Identity? && found.world.disk.store.metadata.device.origin != target {
          var ready := Attempt(found.world);
          var p := NewSwitch(found.world.disk.store.metadata, target);
          if ready.ok && ValidPending(p) {
            ResumeContinues(ready.world, p);
          }
        }
    }
  }
}
