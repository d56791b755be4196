/** The admission gate over every history of commands. */
module EgoAdmission {
  import opened Prelude
  import opened EgoState
  import opened EgoSwitch
  import opened EgoSafety
  import opened EgoRecovery
  import opened EgoCommands

  predicate IsFinished(p: Pending) {
    IsSwitch(p) && p.oldOriginRevoked && p.localPurged && p.configSwitched && p.newIdentityEnsured
  }

  /** Closed through the shared file and through the projection read when the file is gone. */
  predicate ShutDown(d: Disk) {
    (d.admissionFile == None || d.admissionFile == Some(Closed)) && d.admissionProjection == Closed
  }

  predicate AdmissionInv(d: Disk) {
    d.pending.Some? ==> ValidPending(d.pending.value) && (IsFinished(d.pending.value) || ShutDown(d))
  }

  lemma AttemptKeepsAdmission(w: World, p: Pending)
    requires AdmissionInv(w.disk) && w.disk.pending == Some(p) && p.target.Some?
    ensures var a := StageAttempt(w, p);
            AdmissionInv(a.world.disk) && a.world.disk.pending == Some(p)
  {
  }

  lemma StageKeepsAdmission(w: World, p: Pending)
    requires AdmissionInv(w.disk) && w.disk.pending == Some(p) && IsSwitch(p)
    ensures var w1 := RunStage(w, p);
            AdmissionInv(w1.disk) && (w1.phase.Running? ==> w1.disk.pending == Some(Advanced(p)))
  {
    AttemptKeepsAdmission(w, p);
  }

  lemma {:induction false} LoopKeepsAdmission(w: World, p: Pending)
    requires AdmissionInv(w.disk) && w.disk.pending == Some(p) && IsSwitch(p)
    ensures AdmissionInv(Loop(w, p).disk)
    decreases UnsetFlags(p)
  {
    if w.phase.Running? {
      StageKeepsAdmission(Turn(w), p);
      var w1 := RunStage(Turn(w), p);
      if w1.phase.Running? {
        LoopKeepsAdmission(w1, Advanced(p));
      }
    }
  }

  /** After a close that did not end the command, admission is shut on both levels. */
  lemma CloseShuts(w: World)
    requires AdmissionInv(w.disk)
    ensures var w1 := SetAdmission(w, Closed);
            && AdmissionInv(w1.disk)
            && w1.disk.pending == w.disk.pending
            && (w1.phase.Running? ==> ShutDown(w1.disk))
            && (w1.phase.Running? ==> w.phase.Running?)
  {
  }

  lemma ReconcileKeepsAdmission(w: World, p: Pending)
    requires AdmissionInv(w.disk) && w.disk.pending == Some(p) && IsSwitch(p)
    ensures var (r, q) := Reconcile(w, p);
            && AdmissionInv(r.world.disk) && IsSwitch(q) && r.world.disk.pending.Some?
            && (IsFinished(q) || ShutDown(r.world.disk))
            && (r.ok ==> r.world.disk.pending == Some(q))
  {
  }

  lemma ResumeKeepsAdmission(w: World, p: Pending)
    requires AdmissionInv(w.disk) && IsSwitch(p) && p.target.Some?
    requires w.disk.pending == Some(p) || w.disk.pending == None
    ensures AdmissionInv(ResumeSwitch(w, p).disk)
  {
    CloseShuts(w);
    var w1 := WritePending(SetAdmission(w, Closed), p);
    assert AdmissionInv(w1.disk);
    if w1.phase.Running? {
      ReconcileKeepsAdmission(w1, p);
      var (r, q) := Reconcile(w1, p);
      if r.ok {
        LoopKeepsAdmission(r.world, q);
      } else {
        FailureKeepsAdmission(r.world, q);
      }
    }
  }

  lemma FailureKeepsAdmission(w: World, p: Pending)
    requires AdmissionInv(w.disk) && (w.phase.Running? ==> IsFinished(p) || ShutDown(w.disk))
    ensures AdmissionInv(RecordFailure(w, p).disk) && !RecordFailure(w, p).phase.Running?
  {
  }

  lemma SwitchKeepsAdmission(w: World, target: string)
    requires AdmissionInv(w.disk)
    ensures AdmissionInv(RunSwitch(w, target).disk)
  {
    var load := Attempt(w);
    if load.ok {
      match load.world.disk.pending
      case Some(p) =>
        if IsSwitch(p) && p.target == Some(target) {
          ResumeKeepsAdmission(load.world, p);
        } else {
          CloseShuts(load.world);
        }
      case None =>
        var found := Attempt(load.world);
        CloseShuts(found.world);
        var ready := Attempt(found.world);
        if found.ok && found.world.disk.store.Identity? && ready.ok {
          ResumeKeepsAdmission(ready.world, NewSwitch(found.world.disk.store.metadata, target));
        }
    }
  }

  // ---- the other commands ----

  /** The gate holds, and a command still running has no record on disk. */
  predicate Unrecorded(w: World) {
    AdmissionInv(w.disk) && (w.phase.Running? ==> w.disk.pending == None)
  }

  lemma RejectPendingShuts(w: World)
    requires AdmissionInv(w.disk)
    ensures Unrecorded(RejectPending(w))
  {
    CloseShuts(Check(w));
  }

  /** With no record on disk no effect can break the gate. */
  lemma UnrecordedIsSafe(w: World)
    requires Unrecorded(w)
    ensures Unrecorded(Check(w)) && Unrecorded(Attempt(w).world) && Unrecorded(ClientCall(w))
    ensures Unrecorded(OpeningCall(w))
    ensures Unrecorded(SetAdmission(w, Closed)) && Unrecorded(SetAdmission(w, Ready))
  {
  }

  lemma MaintainKeepsAdmission(w: World, closes: bool)
    requires AdmissionInv(w.disk)
    ensures AdmissionInv(Maintain(w, closes).disk)
  {
    RejectPendingShuts(w);
    UnrecordedIsSafe(RejectPending(w));
    var w1 := Attempt(RejectPending(w)).world;
    UnrecordedIsSafe(w1);
    var w2 := SetAdmission(w1, Closed);
    UnrecordedIsSafe(w2);
    var w3 := Check(w2);
    UnrecordedIsSafe(w3);
    UnrecordedIsSafe(ClientCall(w3));
  }

  lemma ClaimKeepsAdmission(w: World)
    requires AdmissionInv(w.disk)
    ensures AdmissionInv(Claim(w).disk) && AdmissionInv(ResumeBinding(w).disk)
  {
    RejectPendingShuts(w);
    UnrecordedIsSafe(RejectPending(w));
    var w1 := Check(RejectPending(w));
    UnrecordedIsSafe(w1);
    UnrecordedIsSafe(SetAdmission(w1, Closed));
    UnrecordedIsSafe(SetAdmission(w1, Ready));
  }

  /** The desktop claim is protected by the gate itself: an unfinished record leaves no ready admission. */
  lemma DesktopClaimKeepsAdmission(w: World)
    requires AdmissionInv(w.disk)
    ensures AdmissionInv(DesktopClaim(w).disk)
    ensures w.disk.pending.Some? && !IsFinished(w.disk.pending.value) ==> DesktopClaim(w).disk == w.disk
  {
    var w1 := Check(w);
    if w1.disk.admissionFile == Some(Ready) {
      var w2 := SetAdmission(Check(w1), Closed);
      assert w2.disk.pending == w.disk.pending;
      assert AdmissionInv(w2.disk);
    }
  }

  lemma RegisterKeepsAdmission(w: World)
    requires AdmissionInv(w.disk)
    ensures AdmissionInv(Register(w).disk)
  {
    RejectPendingShuts(w);
    UnrecordedIsSafe(RejectPending(w));
    UnrecordedIsSafe(Check(RejectPending(w)));
  }

  lemma LifecycleKeepsAdmission(w: World, terminal: bool)
    requires AdmissionInv(w.disk)
    ensures AdmissionInv(Lifecycle(w, terminal).disk)
  {
    RejectPendingShuts(w);
    UnrecordedIsSafe(RejectPending(w));
    var w1 := Check(RejectPending(w));
    UnrecordedIsSafe(w1);
    var w2 := SetAdmission(w1, Closed);
    UnrecordedIsSafe(w2);
    var w3 := Check(w2);
    UnrecordedIsSafe(w3);
    UnrecordedIsSafe(ClientCall(w3));
  }

  /** The gate holds, and a command still running finds admission shut on both levels. */
  predicate Shut(w: World) {
    AdmissionInv(w.disk) && (w.phase.Running? ==> ShutDown(w.disk))
  }

  lemma WritingShut(w: World, p: Pending)
    requires Shut(w)
    ensures Shut(WritePending(w, p)) && Shut(RecordFailure(w, p))
  {
  }

  lemma RevokingShut(w: World, p: Pending)
    requires Shut(w)
    ensures Shut(RevokeBinding(w, p))
  {
    var bindings := if p.binding.Some? then {p.binding.value} else {};
    var revoke := TryPut(w, w.disk.(revokedBindings := w.disk.revokedBindings + bindings));
    assert Shut(revoke.world);
    WritingShut(revoke.world, p);
  }

  lemma ShutIsSafe(w: World, p: Pending)
    requires Shut(w)
    ensures Shut(WritePending(w, p)) && Shut(RevokeBinding(w, p)) && Shut(ClientCall(w)) && Shut(RecordFailure(w, p))
    ensures Shut(Stop(w)) && Shut(Succeed(w))
  {
    WritingShut(w, p);
    RevokingShut(w, p);
  }

  lemma {:induction false} RevokeBindingsShut(w: World, device: Device, bindings: seq<Binding>)
    requires Shut(w)
    ensures Shut(RevokeBindings(w, device, bindings))
    decreases |bindings|
  {
    if bindings != [] && w.phase.Running? {
      var p := BindingRevocation(device, bindings[0]);
      ShutIsSafe(w, p);
      ShutIsSafe(WritePending(w, p), p);
      RevokeBindingsShut(RevokeBinding(WritePending(w, p), p), device, bindings[1..]);
    }
  }

  lemma CheckShut(w: World)
    requires Shut(w)
    ensures Shut(Check(w)) && Shut(Attempt(w).world)
  {
  }

  lemma RetireShut(w: World)
    requires Shut(w)
    ensures Shut(Retire(w))
  {
    ShutIsSafe(w, BindingRevocation(Device("", "", 0), Binding("", 0)));
    CheckShut(ClientCall(w));
  }

  lemma RemoveKeepsAdmission(w: World, device: Device, live: seq<Binding>, handoff: bool)
    requires AdmissionInv(w.disk)
    ensures AdmissionInv(Remove(w, device, live, handoff).disk)
  {
    var w1 := Check(w);
    CloseShuts(w1);
    CloseShuts(Check(w1));
    CheckShut(SetAdmission(Check(w1), Closed));
    var control := Attempt(SetAdmission(Check(w1), Closed));
    var record := control.world.disk.pending;
    var p := if record.Some? then record.value else BindingRevocation(device, Binding("", 0));
    ShutIsSafe(control.world, p);
    RetireShut(control.world);
    var w2 := if control.world.disk.pending.Some? then RevokeBinding(control.world, p) else control.world;
    CheckShut(w2);
    RevokeBindingsShut(Check(w2), device, live);
    RetireShut(RevokeBindings(Check(w2), device, live));
  }

  lemma RevokeAndPurgeShut(w: World, p: Pending)
    requires Shut(w)
    ensures AdmissionInv(RevokeAndPurge(w, p).disk)
  {
    var revoke := RevokeCall(w, p.device);
    assert Shut(revoke.world);
    ShutIsSafe(revoke.world, p);
    var purge := PurgeCall(revoke.world, p.device);
    assert Shut(purge.world);
    ShutIsSafe(purge.world, p);
  }

  lemma ForgetKeepsAdmission(w: World, selected: Device)
    requires AdmissionInv(w.disk)
    ensures AdmissionInv(Forget(w, selected).disk)
  {
    var w1 := Check(w);
    CloseShuts(w1);
    var (w2, found) := ForgetLooks(w1);
    var p := ForgetTarget(w1.disk, found, selected);
    var control := Attempt(w2).world;
    CloseShuts(control);
    CloseShuts(ConfirmForget(control));
    var w3 := SetAdmission(ConfirmForget(control), Closed);
    ShutIsSafe(w3, p);
    RevokeAndPurgeShut(WritePending(w3, p), p);
  }

  lemma ExecuteKeepsAdmission(w: World, c: Command)
    requires AdmissionInv(w.disk)
    ensures AdmissionInv(Execute(w, c).disk)
  {
    match c
    case DoMaintain(closes) => MaintainKeepsAdmission(w, closes);
    case DoClaim => ClaimKeepsAdmission(w);
    case DoDesktopClaim => DesktopClaimKeepsAdmission(w);
    case DoResume => ClaimKeepsAdmission(w);
    case DoLifecycle(terminal) => LifecycleKeepsAdmission(w, terminal);
    case DoRegister => RegisterKeepsAdmission(w);
    case DoRemove(device, live, handoff) => RemoveKeepsAdmission(w, device, live, handoff);
    case DoForget(selected) => ForgetKeepsAdmission(w, selected);
    case DoSwitch(target) => SwitchKeepsAdmission(w, target);
    case DoReconfigure(_) =>
  }

  // ---- whole histories ----

  /** After any history of commands, cut short anywhere, a pending revocation on disk means closed
      admission, unless it is a switch-server record with all four flags set. */
  lemma {:induction false} PendingMeansClosed(d: Disk, history: seq<Step>)
    requires AdmissionInv(d)
    ensures var e := After(d, history);
            && AdmissionInv(e)
            && (e.pending.Some? && !IsFinished(e.pending.value) ==> EffectiveAdmission(e) == Closed)
    decreases |history|
  {
    if history != [] {
      var w := World(d, history[0].script, Running, 0);
      ExecuteKeepsAdmission(w, history[0].command);
      PendingMeansClosed(Execute(w, history[0].command).disk, history[1..]);
    }
  }
}
