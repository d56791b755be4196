/** Histories of commands: switch-server among the others, and forget-this-mac taking over its record. */
module EgoHistory {
  import opened Prelude
  import opened EgoState
  import opened EgoSwitch
  import opened EgoSafety
  import opened EgoRecovery
  import opened EgoCommands
  import opened EgoAdmission
  import opened EgoOutcomes

  // ---- every command but forget-this-mac ----

  predicate WithoutForget(history: seq<Step>) {
    forall i :: 0 <= i < |history| ==> !history[i].command.DoForget?
  }

  /** The destructive calls so far were safe, and a switch-server record claims only what happened. */
  predicate HistoryInv(d: Disk) {
    SafeLog(d.log) && (d.pending.Some? && IsSwitch(d.pending.value) ==> Justified(d, d.pending.value))
  }

  lemma ClosingKeeps(before: Disk, after: Disk)
    requires HistoryInv(before) && OnlyClosed(before, after)
    ensures HistoryInv(after)
  {
  }

  /** Without a record the maintaining, claiming and lifecycle commands write none and purge nothing. */
  lemma UnrecordedKeeps(w: World, c: Command)
    requires w.phase.Running? && w.disk.pending == None && Blocked(c)
    ensures Execute(w, c).disk.pending == None && Execute(w, c).disk.log == w.disk.log
  {
  }

  lemma DesktopClaimKeeps(w: World)
    ensures var d := DesktopClaim(w).disk;
            d == w.disk.(admissionFile := d.admissionFile, admissionProjection := d.admissionProjection)
  {
  }

  /** No device record on disk, and the log as before. */
  predicate AtMostBinding(w: World, log: Log) {
    w.disk.log == log && (w.disk.pending.Some? ==> w.disk.pending.value.scope.BindingScope?)
  }

  lemma {:induction false} RevokeBindingsKeep(w: World, device: Device, bindings: seq<Binding>, log: Log)
    requires AtMostBinding(w, log)
    ensures AtMostBinding(RevokeBindings(w, device, bindings), log)
    decreases |bindings|
  {
    if bindings != [] && w.phase.Running? {
      var p := BindingRevocation(device, bindings[0]);
      RevokeBindingsKeep(RevokeBinding(WritePending(w, p), p), device, bindings[1..], log);
    }
  }

  lemma RetireKeeps(w: World, log: Log)
    requires AtMostBinding(w, log)
    ensures AtMostBinding(Check(w), log) && AtMostBinding(Stop(w), log) && AtMostBinding(Retire(w), log)
  {
  }

  lemma RevokeBindingKeeps(w: World, p: Pending, log: Log)
    requires AtMostBinding(w, log) && p.scope.BindingScope?
    ensures AtMostBinding(RevokeBinding(w, p), log) && AtMostBinding(RecordFailure(w, p), log)
  {
  }

  lemma RemoveKeeps(w: World, device: Device, live: seq<Binding>, handoff: bool)
    requires HistoryInv(w.disk) && w.phase.Running?
    ensures HistoryInv(Remove(w, device, live, handoff).disk)
  {
    var w1 := Check(w);
    if w1.disk.pending.Some? && w1.disk.pending.value.scope.DeviceScope? {
      ClosingKeeps(w.disk, Remove(w, device, live, handoff).disk);
    } else {
      var log := w.disk.log;
      var control := Attempt(SetAdmission(Check(w1), Closed)).world;
      assert AtMostBinding(control, log);
      RetireKeeps(control, log);
      var w2 := if control.disk.pending.Some? then RevokeBinding(control, control.disk.pending.value) else control;
      if control.disk.pending.Some? {
        RevokeBindingKeeps(control, control.disk.pending.value, log);
      }
      RetireKeeps(w2, log);
      RevokeBindingsKeep(Check(w2), device, live, log);
      RetireKeeps(RevokeBindings(Check(w2), device, live), log);
      assert AtMostBinding(Remove(w, device, live, handoff), log);
    }
  }

  lemma CommandKeeps(w: World, c: Command)
    requires HistoryInv(w.disk) && w.phase.Running? && !c.DoForget?
    ensures HistoryInv(Execute(w, c).disk)
  {
    if Blocked(c) {
      if w.disk.pending.Some? {
        PendingBlocks(w, c);
        ClosingKeeps(w.disk, Execute(w, c).disk);
      } else {
        UnrecordedKeeps(w, c);
      }
    } else {
      match c
      case DoDesktopClaim => DesktopClaimKeeps(w);
      case DoRemove(device, live, handoff) => RemoveKeeps(w, device, live, handoff);
      case DoSwitch(target) =>
        if w.disk.pending.Some? && !IsSwitch(w.disk.pending.value) {
          ClosingKeeps(w.disk, RunSwitch(w, target).disk);
        } else {
          SwitchKeeps(w, target);
        }
      case DoReconfigure(_) =>
    }
  }

  /** Over every history of all commands but forget-this-mac, every purge hit exactly the recorded Device after its
      revocation, no ensure ran beside the retired identity, and a switch-server record claims only what happened. */
  lemma {:induction false} SwitchHistorySafe(d: Disk, history: seq<Step>)
    requires HistoryInv(d) && WithoutForget(history)
    ensures HistoryInv(After(d, history))
    decreases |history|
  {
    if history != [] {
      var w := World(d, history[0].script, Running, 0);
      CommandKeeps(w, history[0].command);
      SwitchHistorySafe(Execute(w, history[0].command).disk, history[1..]);
    }
  }

  /** From every state such a history can leave, one faultless rerun of the pending switch ends in the final state
      exactly when the store is readable. */
  lemma EveryCrashRecovers(d: Disk, history: seq<Step>, p: Pending, script: Script)
    requires d.pending == None && d.log == NoEvents && WithoutForget(history)
    requires After(d, history).pending == Some(p) && IsSwitch(p) && p.target.Some?
    requires Supply(script, p.device, p.target.value) >= SUFFICIENT_REPLIES
    ensures var e := After(d, history);
            var w := RunSwitch(World(e, script, Running, 0), p.target.value);
            && (w.phase.Succeeded? <==> !e.store.Unreadable?)
            && (w.phase.Succeeded? ==> IsSwitched(w.disk, p))
            && w.turns <= 5
  {
    SwitchHistorySafe(d, history);
    var w := World(After(d, history), script, Running, 0);
    RerunFinishesIff(w, p);
    if !w.disk.store.Unreadable? {
      RerunFinishes(w, p);
    }
    FiveTurns(w, p.target.value);
  }

  /** The operation a switch works on: the one on record, or a new one for the identity in the store. */
  function Operation(d: Disk, target: string): Pending
    requires d.pending.Some? || d.store.Identity?
  {
    if d.pending.Some? then d.pending.value else NewSwitch(d.store.metadata, target)
  }

  /** After such a history a switch that reports success is in the one final state of the operation it worked on: the
      old Device is revoked, too. */
  lemma SwitchSuccess(d: Disk, history: seq<Step>, target: string, script: Script)
    requires HistoryInv(d) && WithoutForget(history)
    requires RunSwitch(World(After(d, history), script, Running, 0), target).phase.Succeeded?
    ensures var e := After(d, history);
            && (e.pending.Some? || e.store.Identity?)
            && Operation(e, target).target == Some(target)
            && IsSwitched(RunSwitch(World(e, script, Running, 0), target).disk, Operation(e, target))
  {
    SwitchHistorySafe(d, history);
    var e := After(d, history);
    var w := World(e, script, Running, 0);
    SwitchLeaves(w, target);
    if e.pending.Some? {
      if !(IsSwitch(e.pending.value) && e.pending.value.target == Some(target)) {
        OtherTargetStops(w, e.pending.value, target);
      }
      SwitchKeeps(w, target);
    } else {
      if !e.store.Identity? || e.store.metadata.device.origin == target {
        NothingToSwitch(w, target);
      }
      FirstSwitchContinues(w, e.store.metadata, target);
    }
  }

  /** A first run ends with its own operation recorded or finished, or with none recorded. */
  lemma FirstSwitchContinues(w: World, m: Metadata, target: string)
    requires SafeLog(w.disk.log) && w.phase.Running? && w.disk.pending == None && w.disk.store == Identity(m)
    requires m.device.origin != target && RunSwitch(w, target).phase.Succeeded?
    ensures Continues(RunSwitch(w, target), NewSwitch(m, target))
  {
    var ready := Attempt(Attempt(Attempt(w).world).world);
    var p := NewSwitch(m, target);
    assert ready.ok && RunSwitch(w, target) == ResumeSwitch(ready.world, p);
    if ValidPending(p) {
      SuccessContinues(ready.world, p);
    }
  }

  lemma SuccessContinues(w: World, p: Pending)
    requires SwitchInv(w.disk) && Justified(w.disk, p) && w.disk.pending == None && !w.phase.Succeeded?
    requires ResumeSwitch(w, p).phase.Succeeded?
    ensures Continues(ResumeSwitch(w, p), p)
  {
    PersistKeeps(w, p);
    var w1 := WritePending(SetAdmission(w, Closed), p);
    ReconcileJustifies(w1, p);
    var (r, q) := Reconcile(w1, p);
    LoopContinues(r.world, q);
  }

  // ---- forget-this-mac ----

  function Forgotten(d: Disk, selected: Device, script: Script): Disk {
    Forget(World(d, script, Running, 0), selected).disk
  }

  /** The purge removes a readable identity that is not the recorded one. */
  predicate DestroysOther(e: Event) {
    e.Purged? && e.store.Identity? && e.store.metadata.device != e.recorded
  }

  lemma RevokeAndPurgeLog(w: World, p: Pending)
    ensures var d := RevokeAndPurge(w, p).disk;
            d.log == w.disk.log || (d.log == Then(w.disk.log, Purged(p.device, w.disk.store, true)) && w.phase.Running?)
  {
  }

  /** The operation proper, from the confirmation on. */
  function Carried(w: World, p: Pending): World {
    RevokeAndPurge(WritePending(SetAdmission(ConfirmForget(w), Closed), p), p)
  }

  /** Up to its revocation, forget changes nothing but admission and the record. */
  lemma ForgetPrepares(w: World, p: Pending)
    ensures var shut := SetAdmission(ConfirmForget(w), Closed);
            && SetAdmission(w, Closed).disk.log == w.disk.log && RecordFailure(shut, p).disk.log == w.disk.log
            && WritePending(shut, p).disk.log == w.disk.log && WritePending(shut, p).disk.store == w.disk.store
            && (!ValidPending(p) ==> !WritePending(shut, p).phase.Running?)
  {
    var shut := SetAdmission(ConfirmForget(w), Closed);
    assert shut.disk.log == w.disk.log && shut.disk.store == w.disk.store;
  }

  lemma CarriedLog(w: World, p: Pending)
    ensures var d := Carried(w, p).disk;
            d.log == w.disk.log || (d.log == Then(w.disk.log, Purged(p.device, w.disk.store, true)) && ValidPending(p))
  {
    ForgetPrepares(w, p);
    RevokeAndPurgeLog(WritePending(SetAdmission(ConfirmForget(w), Closed), p), p);
  }

  /** Whatever the replies, the configuration and the selection, forget purges nothing, or purges once: the store as it
      found it, for the Device of its record, which is revoked by then. */
  lemma ForgetPurgesOnce(d: Disk, selected: Device, script: Script)
    ensures var p, e := ForgetTarget(d, Found(d, script), selected), Forgotten(d, selected, script);
            || e.log == d.log
            || (e.log == Then(d.log, Purged(p.device, d.store, true)) && ValidPending(p) && p.scope.DeviceScope?
                && d.config == Some(p.device.origin))
  {
    var w := Check(World(d, script, Running, 0));
    var p := ForgetTarget(d, Found(d, script), selected);
    var control := Attempt(ForgetLooks(w).0).world;
    assert control.disk == d;
    ForgetPrepares(w, p);
    ForgetPrepares(control, p);
    CarriedLog(control, p);
  }

  predicate PurgesSafely(d: Disk, selected: Device, script: Script) {
    var e := Forgotten(d, selected, script);
    e.log == d.log || (e.log.Then? && SafeEvent(e.log.event))
  }

  predicate Destroys(d: Disk, selected: Device, script: Script) {
    var e := Forgotten(d, selected, script);
    e.log != d.log && e.log.Then? && DestroysOther(e.log.event)
  }

  function Copies(r: Reply, n: nat, rest: Script): Script {
    if n == 0 then rest else Next(r, Copies(r, n - 1, rest))
  }

  lemma Draw(w: World, d: Disk, r: Reply, n: nat, rest: Script)
    requires w.phase.Running? && w.script == Copies(r, n + 1, rest) && r.ok
    ensures Attempt(w) == Probe(w.(script := Copies(r, n, rest)), true)
    ensures TryPut(w, d) == Probe(w.(disk := d, script := Copies(r, n, rest)), true)
    ensures Put(w, d) == w.(disk := d, script := Copies(r, n, rest))
  {
  }

  lemma Admitted(w: World, a: Admission, r: Reply, n: nat, rest: Script)
    requires w.phase.Running? && w.script == Copies(r, n + 2, rest) && r.ok
    ensures SetAdmission(w, a)
         == w.(disk := w.disk.(admissionFile := Some(a), admissionProjection := a), script := Copies(r, n, rest))
  {
    Draw(w, w.disk.(admissionFile := Some(a)), r, n + 1, rest);
    var w1 := Put(w, w.disk.(admissionFile := Some(a)));
    Draw(w1, w1.disk.(admissionProjection := a), r, n, rest);
  }

  /** A reply without fault; an ensure that gets it leaves `n`. */
  function Faultless(n: Metadata): Reply {
    Reply(true, true, Identity(n), Some(Closed))
  }

  /** From the closing of admission on, with every reply good. */
  lemma RecordCarriedOut(w: World, p: Pending, r: Reply)
    requires w.phase.Running? && w.script == Copies(r, 6, Killed) && r.ok && ValidPending(p)
    ensures var w1 := RevokeAndPurge(WritePending(SetAdmission(w, Closed), p), p);
            && w1.phase.Succeeded? && p.device in w1.disk.revoked
            && w1.disk.log == Then(w.disk.log, Purged(p.device, w.disk.store, true))
            && w1.disk.store == NoIdentity && w1.disk.pending == None
  {
    Admitted(w, Closed, r, 4, Killed);
    var w3 := SetAdmission(w, Closed);
    Draw(w3, w3.disk.(pending := Some(p)), r, 3, Killed);
    var w4 := WritePending(w3, p);
    assert w4.disk.store == w.disk.store && w4.disk.log == w.disk.log;
    Draw(w4, w4.disk.(revoked := w4.disk.revoked + {p.device}), r, 2, Killed);
    var w5 := RevokeCall(w4, p.device).world;
    assert w5.script == Next(r, Copies(r, 1, Killed));
    var w6 := PurgeCall(w5, p.device).world;
    Draw(w6, w6.disk.(pending := None), r, 0, Killed);
  }

  /** With every reply good, forget carries out its record. */
  lemma ForgetCarriedOut(d: Disk, p: Pending, selected: Device, n: Metadata)
    requires d.pending == Some(p) && ValidPending(p) && p.scope.DeviceScope? && d.config == Some(p.device.origin)
    ensures var e := Forgotten(d, selected, Copies(Faultless(n), 8, Killed));
            && e.log == Then(d.log, Purged(p.device, d.store, true))
            && e.store == NoIdentity && e.pending == None
  {
    var r := Faultless(n);
    var w := World(d, Copies(r, 8, Killed), Running, 0);
    Draw(w, d, r, 7, Killed);
    var w1 := Check(w);
    Draw(w1, d, r, 6, Killed);
    RecordCarriedOut(Attempt(w1).world, p, r);
  }

  /** Taking over a device record, forget purges safely under all replies exactly when it stops at the configured
      server, or the store still holds the recorded Device. */
  lemma ForgetPurgesSafelyIff(d: Disk, p: Pending, selected: Device)
    requires d.pending == Some(p) && ValidPending(p) && p.scope.DeviceScope?
    ensures (forall script :: PurgesSafely(d, selected, script))
            <==> d.config != Some(p.device.origin) || Holds(d.store, p.device)
  {
    if d.config != Some(p.device.origin) || Holds(d.store, p.device) {
      forall script ensures PurgesSafely(d, selected, script) {
        ForgetPurgesOnce(d, selected, script);
      }
    } else {
      var script := Copies(Faultless(Metadata(p.device, 0)), 8, Killed);
      ForgetCarriedOut(d, p, selected, Metadata(p.device, 0));
      assert !PurgesSafely(d, selected, script);
    }
  }

  /** Of the unsafe purges the harmful ones destroy a readable identity other than the recorded one: some replies make
      forget do that exactly when the store holds one and the configuration names the recorded server. */
  lemma ForgetDestroysIff(d: Disk, p: Pending, selected: Device)
    requires d.pending == Some(p) && ValidPending(p) && p.scope.DeviceScope?
    ensures (exists script :: Destroys(d, selected, script))
            <==> d.config == Some(p.device.origin) && d.store.Identity? && !Holds(d.store, p.device)
  {
    if d.config == Some(p.device.origin) && d.store.Identity? && !Holds(d.store, p.device) {
      var script := Copies(Faultless(Metadata(p.device, 0)), 8, Killed);
      ForgetCarriedOut(d, p, selected, Metadata(p.device, 0));
      assert Destroys(d, selected, script);
    } else {
      forall script ensures !Destroys(d, selected, script) {
        ForgetPurgesOnce(d, selected, script);
      }
    }
  }

  /** Without a record to take over, a forget that discovers the identity destroys no other. */
  lemma OwnForgetDestroysNoOther(d: Disk, selected: Device, script: Script)
    requires d.pending == None && Found(d, script).Some?
    ensures !Destroys(d, selected, script)
  {
    ForgetPurgesOnce(d, selected, script);
  }

  const UNDISCOVERED := Reply(false, false, NoIdentity, Some(Closed))

  /** With every reply good but the discovery's, forget carries out a record for the selected Device. */
  lemma UndiscoveredCarriedOut(d: Disk, selected: Device, n: Metadata)
    requires d.pending == None && selected.generation != 0 && d.config == Some(selected.origin)
    ensures var e := Forgotten(d, selected, Next(Faultless(n), Next(UNDISCOVERED, Copies(Faultless(n), 8, Killed))));
            e.log == Then(d.log, Purged(selected, d.store, true)) && e.store == NoIdentity && e.pending == None
  {
    var r, p := Faultless(n), DeviceRevocation(selected);
    var w := World(d, Next(r, Next(UNDISCOVERED, Copies(r, 8, Killed))), Running, 0);
    var w1 := Check(w);
    assert w1 == World(d, Next(UNDISCOVERED, Copies(r, 8, Killed)), Running, 0);
    assert ForgetLooks(w1) == (World(d, Copies(r, 8, Killed), Running, 0), None);
    var w2 := World(d, Copies(r, 8, Killed), Running, 0);
    Draw(w2, d, r, 7, Killed);
    var w3 := Attempt(w2).world;
    Draw(w3, d, r, 6, Killed);
    var w4 := Check(w3);
    RecordCarriedOut(w4, p, r);
  }

  /** When the discovery may fail, some replies make a forget without a record destroy an identity other than the
      selected Device exactly when the store holds one and the server of the selected Device is configured. */
  lemma OwnForgetDestroysIff(d: Disk, selected: Device)
    requires d.pending == None && selected.generation != 0
    ensures (exists script :: Destroys(d, selected, script))
            <==> d.config == Some(selected.origin) && d.store.Identity? && !Holds(d.store, selected)
  {
    if d.config == Some(selected.origin) && d.store.Identity? && !Holds(d.store, selected) {
      var n := Metadata(selected, 0);
      UndiscoveredCarriedOut(d, selected, n);
      assert Destroys(d, selected, Next(Faultless(n), Next(UNDISCOVERED, Copies(Faultless(n), 8, Killed))));
    } else {
      forall script ensures !Destroys(d, selected, script) {
        ForgetPurgesOnce(d, selected, script);
      }
    }
  }

  // ---- runs that reach the exceptional states ----

  /** A Mac enrolled as `m` and configured for its server, and an identity `n` that enrolling at `target` would give. */
  predicate Enrolled(d: Disk, m: Metadata, n: Metadata, target: string) {
    && d.pending == None && d.store == Identity(m) && d.config == Some(m.device.origin) && m.device !in d.revoked
    && m.device.generation != 0 && m.device.origin != target
    && n.device.origin == target && n.device.id != m.device.id && n.credentialRevision > 0
  }

  function Begun(d: Disk, m: Metadata, target: string): Disk {
    d.(admissionFile := Some(Closed), admissionProjection := Closed, pending := Some(NewSwitch(m, target)))
  }

  function RevokedDisk(d: Disk, m: Metadata, target: string): Disk {
    Begun(d, m, target).(revoked := d.revoked + {m.device},
                         pending := Some(NewSwitch(m, target).(oldOriginRevoked := true)))
  }

  function PurgedDisk(d: Disk, m: Metadata, target: string): Disk {
    RevokedDisk(d, m, target).(
      store := NoIdentity, log := Then(d.log, Purged(m.device, Identity(m), true)),
      pending := Some(NewSwitch(m, target).(oldOriginRevoked := true, localPurged := true)))
  }

  function ConfiguredDisk(d: Disk, m: Metadata, target: string): Disk {
    PurgedDisk(d, m, target).(
      config := Some(target),
      pending := Some(NewSwitch(m, target).(oldOriginRevoked := true, localPurged := true, configSwitched := true)))
  }

  function FinishedRecord(m: Metadata, target: string): Pending {
    NewSwitch(m, target).(oldOriginRevoked := true, localPurged := true, configSwitched := true,
                          newIdentityEnsured := true)
  }

  function EnsuredDisk(d: Disk, m: Metadata, n: Metadata, target: string): Disk {
    ConfiguredDisk(d, m, target).(
      store := Identity(n), log := Then(PurgedDisk(d, m, target).log, Ensured(m.device, target, NoIdentity)),
      pending := Some(FinishedRecord(m, target)))
  }

  lemma SwitchBegins(d: Disk, m: Metadata, n: Metadata, target: string, rest: Script)
    requires Enrolled(d, m, n, target)
    ensures RunSwitch(World(d, Copies(Faultless(n), 8, rest), Running, 0), target)
         == Loop(World(Begun(d, m, target), rest, Running, 0), NewSwitch(m, target))
  {
    var r, p := Faultless(n), NewSwitch(m, target);
    var w := World(d, Copies(r, 8, rest), Running, 0);
    Draw(w, d, r, 7, rest);
    var w1 := Attempt(w).world;
    Draw(w1, d, r, 6, rest);
    var w2 := Attempt(w1).world;
    Draw(w2, d, r, 5, rest);
    var w3 := Attempt(w2).world;
    Admitted(w3, Closed, r, 3, rest);
    var w4 := SetAdmission(w3, Closed);
    Draw(w4, w4.disk.(pending := Some(p)), r, 2, rest);
    var w5 := WritePending(w4, p);
    assert w5 == World(Begun(d, m, target), Copies(r, 2, rest), Running, 0);
    Draw(w5, w5.disk, r, 1, rest);
    var w6 := Attempt(w5).world;
    Draw(w6, w6.disk, r, 0, rest);
    assert Reconcile(w5, p) == (Probe(World(Begun(d, m, target), rest, Running, 0), true), p);
  }

  lemma StageRevokes(d: Disk, m: Metadata, n: Metadata, target: string, rest: Script)
    requires Enrolled(d, m, n, target)
    ensures Loop(World(Begun(d, m, target), Copies(Faultless(n), 4, rest), Running, 0), NewSwitch(m, target))
         == Loop(World(RevokedDisk(d, m, target), rest, Running, 1), NewSwitch(m, target).(oldOriginRevoked := true))
  {
    var r, p := Faultless(n), NewSwitch(m, target);
    var w := World(Begun(d, m, target), Copies(r, 4, rest), Running, 1);
    Draw(w, w.disk, r, 3, rest);
    var w1 := Attempt(w).world;
    Draw(w1, w1.disk, r, 2, rest);
    var w2 := Attempt(w1).world;
    var revoked := w2.disk.(revoked := w2.disk.revoked + {m.device});
    Draw(w2, revoked, r, 1, rest);
    var w3 := RevokeCall(w2, m.device).world;
    Draw(w3, RevokedDisk(d, m, target), r, 0, rest);
    assert RunStage(w, p) == World(RevokedDisk(d, m, target), rest, Running, 1);
  }

  lemma StagePurges(d: Disk, m: Metadata, n: Metadata, target: string, rest: Script)
    requires Enrolled(d, m, n, target)
    ensures Loop(World(RevokedDisk(d, m, target), Copies(Faultless(n), 3, rest), Running, 1),
                 NewSwitch(m, target).(oldOriginRevoked := true))
         == Loop(World(PurgedDisk(d, m, target), rest, Running, 2),
                 NewSwitch(m, target).(oldOriginRevoked := true, localPurged := true))
  {
    var r, p := Faultless(n), NewSwitch(m, target).(oldOriginRevoked := true);
    var w := World(RevokedDisk(d, m, target), Copies(r, 3, rest), Running, 2);
    Draw(w, w.disk, r, 2, rest);
    var w1 := Attempt(w).world;
    assert w1.script == Next(r, Copies(r, 1, rest));
    var w2 := PurgeCall(w1, m.device).world;
    Draw(w2, PurgedDisk(d, m, target), r, 0, rest);
    assert RunStage(w, p) == World(PurgedDisk(d, m, target), rest, Running, 2);
  }

  lemma StageConfigures(d: Disk, m: Metadata, n: Metadata, target: string, rest: Script)
    requires Enrolled(d, m, n, target)
    ensures Loop(World(PurgedDisk(d, m, target), Copies(Faultless(n), 3, rest), Running, 2),
                 NewSwitch(m, target).(oldOriginRevoked := true, localPurged := true))
         == Loop(World(ConfiguredDisk(d, m, target), rest, Running, 3),
                 NewSwitch(m, target).(oldOriginRevoked := true, localPurged := true, configSwitched := true))
  {
    var r, p := Faultless(n), NewSwitch(m, target).(oldOriginRevoked := true, localPurged := true);
    var w := World(PurgedDisk(d, m, target), Copies(r, 3, rest), Running, 3);
    Draw(w, w.disk, r, 2, rest);
    var w1 := Attempt(w).world;
    Draw(w1, w1.disk.(config := Some(target)), r, 1, rest);
    var w2 := TryPut(w1, w1.disk.(config := Some(target))).world;
    Draw(w2, ConfiguredDisk(d, m, target), r, 0, rest);
    assert RunStage(w, p) == World(ConfiguredDisk(d, m, target), rest, Running, 3);
  }

  lemma StageEnsures(d: Disk, m: Metadata, n: Metadata, target: string, rest: Script)
    requires Enrolled(d, m, n, target)
    ensures Loop(World(ConfiguredDisk(d, m, target), Copies(Faultless(n), 5, rest), Running, 3),
                 NewSwitch(m, target).(oldOriginRevoked := true, localPurged := true, configSwitched := true))
         == Loop(World(EnsuredDisk(d, m, n, target), rest, Running, 4), FinishedRecord(m, target))
  {
    var r, p := Faultless(n), NewSwitch(m, target).(oldOriginRevoked := true, localPurged := true,
                                                    configSwitched := true);
    var w := World(ConfiguredDisk(d, m, target), Copies(r, 5, rest), Running, 4);
    Draw(w, w.disk, r, 4, rest);
    var w1 := Attempt(w).world;
    Draw(w1, w1.disk, r, 3, rest);
    var w2 := Attempt(w1).world;
    assert w2.script == Next(r, Copies(r, 2, rest));
    var w3 := EnsureCall(w2, m.device, target).world;
    Draw(w3, w3.disk, r, 1, rest);
    var w4 := Attempt(w3).world;
    Draw(w4, EnsuredDisk(d, m, n, target), r, 0, rest);
    assert RunStage(w, p) == World(EnsuredDisk(d, m, n, target), rest, Running, 4);
  }

  function UntilRevoked(n: Metadata, rest: Script): Script {
    Copies(Faultless(n), 8, Copies(Faultless(n), 4, rest))
  }

  function UntilEnsured(n: Metadata, rest: Script): Script {
    UntilRevoked(n, Copies(Faultless(n), 3, Copies(Faultless(n), 3, Copies(Faultless(n), 5, rest))))
  }

  /** With good replies so far, a switch has reached its last turn. */
  lemma SwitchEnsures(d: Disk, m: Metadata, n: Metadata, target: string, rest: Script)
    requires Enrolled(d, m, n, target)
    ensures RunSwitch(World(d, UntilEnsured(n, rest), Running, 0), target)
         == Loop(World(EnsuredDisk(d, m, n, target), rest, Running, 4), FinishedRecord(m, target))
  {
    var r := Faultless(n);
    var ensure := Copies(r, 5, rest);
    var configure := Copies(r, 3, ensure);
    var purge := Copies(r, 3, configure);
    SwitchBegins(d, m, n, target, Copies(r, 4, purge));
    StageRevokes(d, m, n, target, purge);
    StagePurges(d, m, n, target, configure);
    StageConfigures(d, m, n, target, ensure);
    StageEnsures(d, m, n, target, rest);
  }

  lemma KilledLoop(d: Disk, p: Pending, turns: nat)
    requires p.target.Some? && NextStage(p).Finalize?
    ensures Loop(World(d, Killed, Running, turns), p).disk == d
  {
    var a := StageAttempt(World(d, Killed, Running, turns + 1), p);
    assert a == Probe(World(d, Killed, Stopped, turns + 1), false);
  }

  lemma AfterSwitch(d: Disk, target: string, script: Script)
    ensures After(d, [Step(DoSwitch(target), script)]) == RunSwitch(World(d, script, Running, 0), target).disk
  {
    var step := Step(DoSwitch(target), script);
    assert [step][0] == step && [step][1..] == [];
  }

  lemma LastTurnOpens(d: Disk, m: Metadata, n: Metadata, target: string)
    requires Enrolled(d, m, n, target)
    ensures var e := EnsuredDisk(d, m, n, target);
            Loop(World(e, Copies(Faultless(n), 4, Killed), Running, 4), FinishedRecord(m, target)).disk
            == e.(admissionFile := Some(Ready), admissionProjection := Ready)
  {
    var r, p := Faultless(n), FinishedRecord(m, target);
    var w := World(EnsuredDisk(d, m, n, target), Copies(r, 4, Killed), Running, 5);
    Draw(w, w.disk, r, 3, Killed);
    var w1 := Attempt(w).world;
    Draw(w1, w1.disk, r, 2, Killed);
    var w2 := Attempt(w1).world;
    Admitted(w2, Ready, r, 0, Killed);
    assert SaveConfig(w1, p.target) == Probe(w2, true);
  }

  predicate LeavesReady(e: Disk, p: Pending) {
    e.pending == Some(p) && IsFinished(p) && EffectiveAdmission(e) == Ready
  }

  /** The exception to the admission gate is reached from every enrolled Mac: a switch killed between opening admission
      and dropping its finished record. */
  lemma FinishedRecordMayBeReady(d: Disk, m: Metadata, n: Metadata, target: string)
    requires Enrolled(d, m, n, target)
    ensures exists history :: WithoutForget(history) && LeavesReady(After(d, history), FinishedRecord(m, target))
  {
    var script := UntilEnsured(n, Copies(Faultless(n), 4, Killed));
    SwitchEnsures(d, m, n, target, Copies(Faultless(n), 4, Killed));
    LastTurnOpens(d, m, n, target);
    AfterSwitch(d, target, script);
    var history := [Step(DoSwitch(target), script)];
    assert WithoutForget(history) && LeavesReady(After(d, history), FinishedRecord(m, target));
  }

  predicate Completes(d: Disk, target: string, script: Script) {
    RunSwitch(World(d, script, Running, 0), target).phase.Succeeded?
  }

  predicate LeavesUnreadable(e: Disk, m: Metadata, target: string) {
    e.store.Unreadable? && e.pending == Some(NewSwitch(m, target).(oldOriginRevoked := true))
  }

  lemma PurgeDamages(d: Disk, m: Metadata, n: Metadata, target: string)
    requires Enrolled(d, m, n, target)
    ensures LeavesUnreadable(
              Loop(World(RevokedDisk(d, m, target),
                         Next(Faultless(n), Next(Reply(false, true, Unreadable, None), Killed)), Running, 1),
                   NewSwitch(m, target).(oldOriginRevoked := true)).disk, m, target)
  {
  }

  /** So is the state that blocks every rerun: a purge that fails and leaves artifacts without readable metadata. */
  lemma StoreMayBecomeUnreadable(d: Disk, m: Metadata, n: Metadata, target: string)
    requires Enrolled(d, m, n, target)
    ensures exists history :: WithoutForget(history) && LeavesUnreadable(After(d, history), m, target)
                              && forall script :: !Completes(After(d, history), target, script)
  {
    var damaged := Next(Faultless(n), Next(Reply(false, true, Unreadable, None), Killed));
    var script := UntilRevoked(n, damaged);
    SwitchBegins(d, m, n, target, Copies(Faultless(n), 4, damaged));
    StageRevokes(d, m, n, target, damaged);
    PurgeDamages(d, m, n, target);
    AfterSwitch(d, target, script);
    var history := [Step(DoSwitch(target), script)];
    var e := After(d, history);
    assert WithoutForget(history) && LeavesUnreadable(e, m, target);
    forall rerun ensures !Completes(e, target, rerun) {
      UnreadableStoreBlocks(World(e, rerun, Running, 0), e.pending.value);
    }
  }

  /** The new identity is gone, purged for the sake of the old Device. */
  predicate LosesNewIdentity(e: Disk, m: Metadata, n: Metadata) {
    e.log.Then? && e.log.event == Purged(m.device, Identity(n), true) && e.store == NoIdentity && e.pending == None
  }

  lemma AfterForget(d: Disk, target: string, script: Script, origin: Option<string>, selected: Device, last: Script)
    ensures var good := Next(Faultless(Metadata(selected, 0)), Killed);
            After(d, [Step(DoSwitch(target), script), Step(DoReconfigure(origin), good),
                      Step(DoForget(selected), last)])
            == Forgotten(RunSwitch(World(d, script, Running, 0), target).disk.(config := origin), selected, last)
  {
    var good := Next(Faultless(Metadata(selected, 0)), Killed);
    var a, b, c := Step(DoSwitch(target), script), Step(DoReconfigure(origin), good), Step(DoForget(selected), last);
    var d1 := RunSwitch(World(d, script, Running, 0), target).disk;
    assert [a, b, c][1..] == [b, c] && [b, c][1..] == [c] && [c][1..] == [];
    assert After(d, [a, b, c]) == After(d1, [b, c]);
    assert After(d1, [b, c]) == After(d1.(config := origin), [c]);
    assert After(d1.(config := origin), [c]) == Forgotten(d1.(config := origin), selected, last);
  }

  /** The harm is reached from every enrolled Mac: a switch killed after enrolling at the target, a login back at the
      old server, and a forget, which takes over the record of the old Device and purges the new identity. */
  lemma ForgetLosesNewIdentity(d: Disk, m: Metadata, n: Metadata, target: string, selected: Device)
    requires Enrolled(d, m, n, target)
    ensures exists history :: LosesNewIdentity(After(d, history), m, n)
  {
    var script, last := UntilEnsured(n, Killed), Copies(Faultless(n), 8, Killed);
    SwitchEnsures(d, m, n, target, Killed);
    KilledLoop(EnsuredDisk(d, m, n, target), FinishedRecord(m, target), 4);
    var e := EnsuredDisk(d, m, n, target).(config := Some(m.device.origin));
    AfterForget(d, target, script, e.config, selected, last);
    ForgetCarriedOut(e, FinishedRecord(m, target), selected, n);
    var history := [Step(DoSwitch(target), script),
                    Step(DoReconfigure(e.config), Next(Faultless(Metadata(selected, 0)), Killed)),
                    Step(DoForget(selected), last)];
    assert LosesNewIdentity(After(d, history), m, n);
  }
}
