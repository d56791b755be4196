/** What a command that reports success leaves, and what a pending revocation stops. */
module EgoOutcomes {
  import opened Prelude
  import opened EgoState
  import opened EgoSwitch
  import opened EgoCommands
  import opened EgoAdmission

  /** Only the two admission levels may differ, and only by having been closed. */
  predicate OnlyClosed(before: Disk, after: Disk) {
    && after == before.(admissionFile := after.admissionFile, admissionProjection := after.admissionProjection)
    && (after.admissionFile == before.admissionFile || after.admissionFile == Some(Closed))
    && (after.admissionProjection == before.admissionProjection || after.admissionProjection == Closed)
  }

  lemma RejectedStops(w: World)
    requires w.disk.pending.Some?
    ensures !RejectPending(w).phase.Running? && OnlyClosed(w.disk, RejectPending(w).disk)
    ensures w.phase.Running? ==> RejectPending(w).phase.Stopped?
  {
  }

  /** A command that has ended does nothing more. */
  lemma EndedStays(w: World)
    requires !w.phase.Running?
    ensures Check(w) == w && Attempt(w).world == w && !Attempt(w).ok && Stop(w) == w && Succeed(w) == w
    ensures ClientCall(w) == w && OpeningCall(w) == w && SetAdmission(w, Closed) == w && SetAdmission(w, Ready) == w
  {
  }

  /** The commands that refuse to run beside a pending revocation. */
  predicate Blocked(c: Command) {
    c.DoMaintain? || c.DoClaim? || c.DoResume? || c.DoLifecycle? || c.DoRegister?
  }

  /** Beside a pending revocation those commands never succeed and touch nothing but admission, which they close. */
  lemma PendingBlocks(w: World, c: Command)
    requires w.phase.Running? && w.disk.pending.Some? && Blocked(c)
    ensures Execute(w, c).phase.Stopped? && OnlyClosed(w.disk, Execute(w, c).disk)
  {
    RejectedStops(w);
    EndedStays(RejectPending(w));
  }

  /** Running, shut and without a record. */
  predicate Drained(w: World) {
    w.phase.Running? ==> ShutDown(w.disk) && w.disk.pending == None
  }

  predicate AllRevoked(bindings: seq<Binding>, revoked: set<Binding>) {
    forall i :: 0 <= i < |bindings| ==> bindings[i] in revoked
  }

  lemma BindingRevoked(w: World, p: Pending)
    requires !w.phase.Succeeded? && (w.phase.Running? ==> ShutDown(w.disk))
    ensures var w1 := RevokeBinding(w, p);
            && Drained(w1) && !w1.phase.Succeeded? && w.disk.revokedBindings <= w1.disk.revokedBindings
            && (w1.phase.Running? && p.binding.Some? ==> p.binding.value in w1.disk.revokedBindings)
            && (w1.phase.Running? ==> w.phase.Running?)
  {
  }

  /** A removal that is still running has revoked every binding it was given. */
  lemma {:induction false} BindingsDrained(w: World, device: Device, bindings: seq<Binding>)
    requires Drained(w) && !w.phase.Succeeded?
    ensures var w1 := RevokeBindings(w, device, bindings);
            && Drained(w1) && !w1.phase.Succeeded? && w.disk.revokedBindings <= w1.disk.revokedBindings
            && (w1.phase.Running? ==> w.phase.Running? && AllRevoked(bindings, w1.disk.revokedBindings))
    decreases |bindings|
  {
    if bindings != [] && w.phase.Running? {
      var p := BindingRevocation(device, bindings[0]);
      BindingRevoked(WritePending(w, p), p);
      var w1 := RevokeBinding(WritePending(w, p), p);
      BindingsDrained(w1, device, bindings[1..]);
      var w2 := RevokeBindings(w, device, bindings);
      if w2.phase.Running? {
        forall i | 0 <= i < |bindings| ensures bindings[i] in w2.disk.revokedBindings {
          assert i > 0 ==> bindings[i] == bindings[1..][i - 1];
        }
      }
    }
  }

  lemma RetireDrained(w: World)
    requires Drained(w) && !w.phase.Succeeded? && Retire(w).phase.Succeeded?
    ensures w.phase.Running? && Retire(w).disk.pending == None && ShutDown(Retire(w).disk)
    ensures Retire(w).disk.revokedBindings == w.disk.revokedBindings
  {
  }

  /** What a successful removal has revoked: the binding of a record it found, and, unless the Mac held nothing at all,
      every live binding. */
  predicate Revoked(before: Disk, live: seq<Binding>, handoff: bool, after: Disk) {
    && (before.pending.Some? && before.pending.value.binding.Some? ==>
          before.pending.value.binding.value in after.revokedBindings)
    && (before.pending.Some? || before.store != NoIdentity || handoff ==> AllRevoked(live, after.revokedBindings))
  }

  lemma RemoveLeaves(w: World, device: Device, live: seq<Binding>, handoff: bool)
    requires w.phase.Running? && Remove(w, device, live, handoff).phase.Succeeded?
    ensures var d := Remove(w, device, live, handoff).disk;
            d.pending == None && ShutDown(d) && Revoked(w.disk, live, handoff, d)
  {
    var w1 := Check(w);
    var control := Attempt(SetAdmission(Check(w1), Closed));
    assert control.world.phase.Running? ==> ShutDown(control.world.disk);
    assert control.world.disk.pending == w.disk.pending && control.world.disk.store == w.disk.store;
    match control.world.disk.pending
    case Some(p) =>
      BindingRevoked(control.world, p);
      var w2 := Check(RevokeBinding(control.world, p));
      BindingsDrained(w2, device, live);
      RetireDrained(RevokeBindings(w2, device, live));
    case None =>
      var w2 := Check(control.world);
      BindingsDrained(w2, device, live);
      if control.ok {
        RetireDrained(RevokeBindings(w2, device, live));
      } else {
        RetireDrained(control.world);
      }
  }

  lemma RevokeAndPurgeLeaves(w: World, p: Pending)
    requires Shut(w) && !w.phase.Succeeded? && RevokeAndPurge(w, p).phase.Succeeded?
    ensures var d := RevokeAndPurge(w, p).disk;
            d.pending == None && d.store == NoIdentity && p.device in d.revoked && ShutDown(d)
  {
  }

  /** What forget finds out about the local identity in a run over `script`. */
  function Found(d: Disk, script: Script): Option<Device> {
    ForgetLooks(Check(World(d, script, Running, 0))).1
  }

  lemma ForgetLeaves(d: Disk, script: Script, selected: Device)
    requires AdmissionInv(d) && Forget(World(d, script, Running, 0), selected).phase.Succeeded?
    ensures var e := Forget(World(d, script, Running, 0), selected).disk;
            && e.pending == None && e.store == NoIdentity && ShutDown(e)
            && ForgetTarget(d, Found(d, script), selected).device in e.revoked
  {
    var w1 := Check(World(d, script, Running, 0));
    var p := ForgetTarget(d, Found(d, script), selected);
    var asked := ConfirmForget(Attempt(ForgetLooks(w1).0).world);
    assert asked.disk == d;
    CloseShuts(asked);
    ShutIsSafe(SetAdmission(asked, Closed), p);
    RevokeAndPurgeLeaves(WritePending(SetAdmission(asked, Closed), p), p);
  }

  lemma MaintainLeaves(w: World, closes: bool)
    requires w.phase.Running? && w.disk.pending == None && Maintain(w, closes).phase.Succeeded?
    ensures var d := Maintain(w, closes).disk; d.pending == None && EffectiveAdmission(d) == Ready
  {
  }

  lemma LifecycleLeaves(w: World, terminal: bool)
    requires w.phase.Running? && w.disk.pending == None && Lifecycle(w, terminal).phase.Succeeded?
    ensures var d := Lifecycle(w, terminal).disk;
            d.pending == None && EffectiveAdmission(d) == if terminal then Ready else Closed
  {
  }

  lemma ClaimLeaves(w: World)
    requires w.phase.Running? && w.disk.pending == None
    ensures var w1 := Claim(w);
            w1.disk.pending == None && w1.disk.store == w.disk.store
            && (w1.phase.Succeeded? ==> w1.disk.admissionProjection == Closed)
    ensures var w1 := ResumeBinding(w);
            w1.disk.pending == None && w1.disk.store == w.disk.store
            && (w1.phase.Succeeded? ==> w1.disk.admissionProjection == Ready)
  {
  }

  lemma DesktopClaimLeaves(w: World)
    requires w.phase.Running? && DesktopClaim(w).phase.Succeeded?
    ensures var d := DesktopClaim(w).disk;
            && w.disk.admissionFile == Some(Ready) && d.admissionProjection == Closed
            && d == w.disk.(admissionFile := d.admissionFile, admissionProjection := Closed)
  {
  }

  lemma RegisterLeaves(w: World)
    requires w.phase.Running? && w.disk.pending == None
    ensures var d := Register(w).disk;
            d == w.disk.(store := d.store, admissionFile := d.admissionFile)
  {
  }

  /** The target's own credentialed identity, configured and admitted, and no record. */
  predicate SwitchedTo(d: Disk, target: string) {
    && d.pending == None && d.config == Some(target)
    && d.store.Identity? && d.store.metadata.device.origin == target && d.store.metadata.credentialRevision > 0
    && EffectiveAdmission(d) == Ready && d.admissionProjection == Ready
  }

  lemma FinishLeaves(w: World, p: Pending)
    requires p.target.Some? && !w.phase.Succeeded? && Finish(w, p).phase.Succeeded?
    requires !w.disk.store.Unreadable? && Classify(p, w.disk.store).TargetEnsured?
    ensures SwitchedTo(Finish(w, p).disk, p.target.value)
  {
  }

  lemma {:induction false} LoopLeaves(w: World, p: Pending)
    requires p.target.Some? && !w.phase.Succeeded? && Loop(w, p).phase.Succeeded?
    ensures SwitchedTo(Loop(w, p).disk, p.target.value)
    decreases UnsetFlags(p)
  {
    var a := StageAttempt(Turn(w), p);
    var w1 := RunStage(Turn(w), p);
    assert !a.world.phase.Succeeded?;
    if a.ok && NextStage(p).Finalize? {
      FinishLeaves(a.world, p);
    } else {
      assert !w1.phase.Succeeded?;
      LoopLeaves(w1, Advanced(p));
    }
  }

  lemma ResumeLeaves(w: World, p: Pending)
    requires p.target.Some? && !w.phase.Succeeded? && ResumeSwitch(w, p).phase.Succeeded?
    ensures SwitchedTo(ResumeSwitch(w, p).disk, p.target.value)
  {
    var w1 := WritePending(SetAdmission(w, Closed), p);
    assert !w1.phase.Succeeded?;
    var (r, q) := Reconcile(w1, p);
    assert !r.world.phase.Succeeded? && q.target == p.target;
    LoopLeaves(r.world, q);
  }

  /** A switch that reports success has switched to the server it was asked for, whatever record it found. */
  lemma SwitchLeaves(w: World, target: string)
    requires w.phase.Running? && RunSwitch(w, target).phase.Succeeded?
    ensures SwitchedTo(RunSwitch(w, target).disk, target)
  {
    var load := Attempt(w);
    match load.world.disk.pending
    case Some(p) => ResumeLeaves(load.world, p);
    case None =>
      var found := Attempt(load.world);
      ResumeLeaves(Attempt(found.world).world, NewSwitch(found.world.disk.store.metadata, target));
  }

  /** A pending operation other than a switch to the same server stops the command, which only closes admission. */
  lemma OtherTargetStops(w: World, p: Pending, target: string)
    requires w.phase.Running? && w.disk.pending == Some(p) && !(IsSwitch(p) && p.target == Some(target))
    ensures RunSwitch(w, target).phase.Stopped? && OnlyClosed(w.disk, RunSwitch(w, target).disk)
  {
  }

  /** Without an identity of another server there is nothing to switch: the same server changes nothing at all, a
      missing or unreadable identity only closes admission. */
  lemma NothingToSwitch(w: World, target: string)
    requires w.phase.Running? && w.disk.pending == None
    requires !w.disk.store.Identity? || w.disk.store.metadata.device.origin == target
    ensures RunSwitch(w, target).phase.Stopped? && OnlyClosed(w.disk, RunSwitch(w, target).disk)
    ensures w.disk.store.Identity? && Attempt(w).ok && Attempt(Attempt(w).world).ok ==>
              RunSwitch(w, target).disk == w.disk
  {
  }

  /** Admission was closed before the Device Client was set to work: a command that stops has only closed admission, or
      leaves the older level closed, or was stopped while reopening. */
  predicate StoppedShut(before: Disk, after: Disk, reopens: bool) {
    || OnlyClosed(before, after)
    || after.admissionProjection == Closed
    || (reopens && after.admissionFile == Some(Ready) && after.admissionProjection == Ready)
  }

  lemma MaintainStops(w: World, closes: bool)
    requires w.phase.Running? && w.disk.pending == None && Maintain(w, closes).phase.Stopped?
    ensures StoppedShut(w.disk, Maintain(w, closes).disk, true)
  {
  }

  lemma LifecycleStops(w: World, terminal: bool)
    requires w.phase.Running? && w.disk.pending == None && Lifecycle(w, terminal).phase.Stopped?
    ensures StoppedShut(w.disk, Lifecycle(w, terminal).disk, terminal)
  {
  }

  lemma ClaimStops(w: World)
    requires w.phase.Running? && w.disk.pending == None && Claim(w).phase.Stopped?
    ensures StoppedShut(w.disk, Claim(w).disk, false)
  {
  }

  lemma ClosedBeforeWork(w: World, c: Command)
    requires w.phase.Running? && (c.DoMaintain? || c.DoLifecycle? || c.DoClaim?) && Execute(w, c).phase.Stopped?
    ensures StoppedShut(w.disk, Execute(w, c).disk, !c.DoClaim?)
  {
    if w.disk.pending.Some? {
      PendingBlocks(w, c);
    } else {
      match c
      case DoMaintain(closes) => MaintainStops(w, closes);
      case DoLifecycle(terminal) => LifecycleStops(w, terminal);
      case DoClaim => ClaimStops(w);
    }
  }

  /** A recorded failure is counted, up to the limit of retries. */
  lemma FailureCounted(w: World, p: Pending)
    requires w.phase.Running? && w.script.Next? && w.script.reply.ok && ValidPending(p)
    ensures var w1 := RecordFailure(w, p);
            && w1.phase.Stopped?
            && w1.disk == w.disk.(pending := if p.retryCount < 10_000 then Some(p.(retryCount := p.retryCount + 1))
                                             else w.disk.pending)
  {
  }

  /** What a success of the command says of the disks before and after it. */
  predicate Means(c: Command, script: Script, before: Disk, after: Disk) {
    match c
    case DoMaintain(_) => before.pending == None && after.pending == None && EffectiveAdmission(after) == Ready
    case DoLifecycle(terminal) =>
      before.pending == None && after.pending == None && EffectiveAdmission(after) == if terminal then Ready else Closed
    case DoClaim =>
      && before.pending == None && after.pending == None && after.store == before.store
      && after.admissionProjection == Closed
    case DoResume =>
      && before.pending == None && after.pending == None && after.store == before.store
      && after.admissionProjection == Ready
    case DoDesktopClaim =>
      && before.admissionFile == Some(Ready) && after.pending == before.pending && after.store == before.store
      && after.admissionProjection == Closed
    case DoRegister =>
      && before.pending == None && after.pending == None && after.config == before.config
      && after.admissionProjection == before.admissionProjection
    case DoRemove(_, live, handoff) =>
      after.pending == None && EffectiveAdmission(after) == Closed && Revoked(before, live, handoff, after)
    case DoForget(selected) =>
      && after.pending == None && EffectiveAdmission(after) == Closed && after.store == NoIdentity
      && ForgetTarget(before, Found(before, script), selected).device in after.revoked
    case DoSwitch(target) => SwitchedTo(after, target)
    case DoReconfigure(_) => true
  }

  /** After any history a success can be believed: maintenance, claims, registration and lifecycle commands met no
      pending revocation and leave admission as they should; a removal or a forget leaves no record, whatever record
      it found, admission shut and the bindings or the Device revoked; a switch leaves the server it was asked for. */
  lemma SuccessCanBeBelieved(d: Disk, history: seq<Step>, last: Step)
    requires AdmissionInv(d)
    ensures var before := After(d, history);
            var w := Execute(World(before, last.script, Running, 0), last.command);
            w.phase.Succeeded? ==> Means(last.command, last.script, before, w.disk)
  {
    PendingMeansClosed(d, history);
    var w := World(After(d, history), last.script, Running, 0);
    if Execute(w, last.command).phase.Succeeded? {
      if w.disk.pending.Some? && Blocked(last.command) {
        PendingBlocks(w, last.command);
      }
      match last.command
      case DoMaintain(closes) => MaintainLeaves(w, closes);
      case DoLifecycle(terminal) => LifecycleLeaves(w, terminal);
      case DoClaim => ClaimLeaves(w);
      case DoResume => ClaimLeaves(w);
      case DoDesktopClaim => DesktopClaimLeaves(w);
      case DoRegister => RegisterLeaves(w);
      case DoRemove(device, live, handoff) => RemoveLeaves(w, device, live, handoff);
      case DoForget(selected) => ForgetLeaves(w.disk, last.script, selected);
      case DoSwitch(target) => SwitchLeaves(w, target);
      case DoReconfigure(_) =>
    }
  }
}
