/** The switch-server command: stages, crash inference and the recovery loop. */
module EgoSwitch {
  import opened Prelude
  import opened EgoState

  datatype Stage = RevokeOldOrigin | PurgeLocal | SwitchConfig | EnsureNewIdentity | Finalize

  datatype LocalIdentity = Absent | Old | TargetIncomplete | TargetEnsured | Foreign

  function NextStage(p: Pending): Stage {
    if !p.oldOriginRevoked then RevokeOldOrigin
    else if !p.localPurged then PurgeLocal
    else if !p.configSwitched then SwitchConfig
    else if !p.newIdentityEnsured then EnsureNewIdentity
    else Finalize
  }

  function UnsetFlags(p: Pending): nat {
    (if p.oldOriginRevoked then 0 else 1) + (if p.localPurged then 0 else 1)
    + (if p.configSwitched then 0 else 1) + (if p.newIdentityEnsured then 0 else 1)
  }

  function Classify(p: Pending, store: Store): LocalIdentity
    requires p.target.Some? && !store.Unreadable?
  {
    match store
    case NoIdentity => Absent
    case Identity(m) =>
      if m.device == p.device then Old
      else if m.device.origin == p.target.value && m.device.id != p.device.id then
        if m.credentialRevision > 0 then TargetEnsured else TargetIncomplete
      else Foreign
  }

  /** The identity inspection: a failing read and an unreadable store both give no class. */
  function Inspect(w: World, p: Pending): (World, Option<LocalIdentity>)
    requires p.target.Some?
  {
    var a := Attempt(w);
    (a.world, if a.ok && !a.world.disk.store.Unreadable? then Some(Classify(p, a.world.disk.store)) else None)
  }

  /** Progress that the local evidence proves. */
  function Reconciled(p: Pending, local: LocalIdentity, configTarget: bool): Pending {
    match local
    case TargetIncomplete | TargetEnsured =>
      var q := p.(oldOriginRevoked := true, localPurged := true, configSwitched := p.configSwitched || configTarget);
      if local.TargetEnsured? && q.configSwitched then q.(newIdentityEnsured := true) else q
    case Absent =>
      if configTarget then p.(oldOriginRevoked := true, localPurged := true, configSwitched := true) else p
    case Old | Foreign => p
  }

  /** Reads the evidence, advances the record and writes it only when it changed. */
  function Reconcile(w: World, p: Pending): (Probe, Pending)
    requires p.target.Some?
  {
    var (w1, local) := Inspect(w, p);
    if local.None? then (Probe(w1, false), p)
    else
      var c := Attempt(w1);
      if !c.ok then (Probe(c.world, false), p)
      else
        var q := Reconciled(p, local.value, c.world.disk.config == p.target);
        if q == p then (Probe(c.world, true), p) else (TryWritePending(c.world, q), q)
  }

  // ---- stages: the part of each stage that precedes its progress mark ----

  function RevokeAttempt(w: World, p: Pending): Probe {
    var token := Attempt(w);
    if !token.ok then token
    else
      var listing := Attempt(token.world);
      if listing.ok && p.device in listing.world.disk.revoked then listing
      else RevokeCall(listing.world, p.device)
  }

  function PurgeAttempt(w: World, p: Pending): Probe
    requires p.target.Some?
  {
    var (w1, local) := Inspect(w, p);
    match local
    case None | Some(Foreign) => Probe(w1, false)
    case Some(Old) => PurgeCall(w1, p.device)
    case Some(_) => Probe(w1, true)
  }

  /** Points the configuration at the target, writing only when it differs. */
  function SaveConfig(w: World, target: Option<string>): Probe {
    var c := Attempt(w);
    if c.ok && c.world.disk.config != target then TryPut(c.world, c.world.disk.(config := target)) else c
  }

  /** The state of the store is inspected again after the call: a report of success is not believed. */
  function ConfirmEnsured(w: World, p: Pending): Probe
    requires p.target.Some?
  {
    var (w1, local) := Inspect(w, p);
    Probe(w1, local == Some(TargetEnsured))
  }

  function EnsureAttempt(w: World, p: Pending): Probe
    requires p.target.Some?
  {
    var (w1, local) := Inspect(w, p);
    match local
    case Some(TargetEnsured) => Probe(w1, true)
    case None | Some(Old) | Some(Foreign) => Probe(w1, false)
    case Some(_) =>
      var token := Attempt(w1);
      if !token.ok then token
      else
        var ensure := EnsureCall(token.world, p.device, p.target.value);
        if !ensure.ok then ensure else ConfirmEnsured(ensure.world, p)
  }

  function StageAttempt(w: World, p: Pending): Probe
    requires p.target.Some?
  {
    match NextStage(p)
    case RevokeOldOrigin => RevokeAttempt(w, p)
    case PurgeLocal => PurgeAttempt(w, p)
    case SwitchConfig => SaveConfig(w, p.target)
    case EnsureNewIdentity => EnsureAttempt(w, p)
    case Finalize => ConfirmEnsured(w, p)
  }

  /** The record with the flag of its current stage set. */
  function Advanced(p: Pending): Pending {
    match NextStage(p)
    case RevokeOldOrigin => p.(oldOriginRevoked := true)
    case PurgeLocal => p.(localPurged := true)
    case SwitchConfig => p.(configSwitched := true)
    case EnsureNewIdentity => p.(newIdentityEnsured := true)
    case Finalize => p
  }

  /** Admission opens before the record disappears. */
  function Finish(w: World, p: Pending): World {
    var saved := SaveConfig(w, p.target);
    if !saved.ok then RecordFailure(saved.world, p)
    else Succeed(ClearPending(SetAdmission(saved.world, Ready)))
  }

  function Turn(w: World): World {
    w.(turns := w.turns + 1)
  }

  /** One loop turn; a world that is not running afterwards ends the command. */
  function RunStage(w: World, p: Pending): World
    requires p.target.Some?
  {
    var a := StageAttempt(w, p);
    if !a.ok then RecordFailure(a.world, p)
    else if NextStage(p).Finalize? then Finish(a.world, p)
    else WritePending(a.world, Advanced(p))
  }

  /** The recovery loop; the number of unset flags is its termination measure. */
  function Loop(w: World, p: Pending): World
    requires p.target.Some?
    decreases UnsetFlags(p)
  {
    if !w.phase.Running? then w
    else
      var w1 := RunStage(Turn(w), p);
      if w1.phase.Running? then Loop(w1, Advanced(p)) else w1
  }

  function NewSwitch(m: Metadata, target: string): Pending {
    Pending(DeviceScope, SwitchServer, m.device, None, Some(target), false, false, false, false, 0)
  }

  /** Closes admission, persists the operation, infers lost progress and enters the loop. */
  function ResumeSwitch(w: World, p: Pending): World
    requires p.target.Some?
  {
    var w1 := WritePending(SetAdmission(w, Closed), p);
    if !w1.phase.Running? then w1
    else
      var (r, q) := Reconcile(w1, p);
      if r.ok then Loop(r.world, q) else RecordFailure(r.world, q)
  }

  function RunSwitch(w: World, target: string): World {
    var load := Attempt(w);
    if !load.ok then Stop(load.world)
    else
      match load.world.disk.pending
      case Some(p) =>
        if !IsSwitch(p) || p.target != Some(target) then Stop(SetAdmission(load.world, Closed))
        else ResumeSwitch(load.world, p)
      case None =>
        var found := Attempt(load.world);
        if !found.ok || !found.world.disk.store.Identity? then Stop(SetAdmission(found.world, Closed))
        else
          var m := found.world.disk.store.metadata;
          if m.device.origin == target then Stop(found.world)
          else
            // Both profiles and the confirmation.
            var ready := Attempt(found.world);
            if !ready.ok then Stop(ready.world)
            else ResumeSwitch(ready.world, NewSwitch(m, target))
  }
}
