/** The other ego-browser commands, reduced to their effects on the pending record, the Device store and
    admission, and histories of commands. */
module EgoCommands {
  import opened Prelude
  import opened EgoState
  import opened EgoSwitch

  /** Confirmations, policy and trust checks, installers and reads: a failure ends the command. */
  function Check(w: World): World {
    var a := Attempt(w);
    if a.ok then a.world else Stop(a.world)
  }

  /** Refuses while a revocation is pending, closing admission first. */
  function RejectPending(w: World): World {
    var w1 := Check(w);
    if w1.phase.Running? && w1.disk.pending.Some? then Stop(SetAdmission(w1, Closed)) else w1
  }

  /** A Device Client call that may rewrite the identity but never opens admission. */
  function ClientCall(w: World): World {
    if !w.phase.Running? || w.script.Killed? then Stop(w)
    else
      var r := w.script.reply;
      var w1 := w.(disk := w.disk.(store := r.leftStore, admissionFile := QuietAdmission(w.disk, r)),
                   script := w.script.rest);
      if r.ok then w1 else Stop(w1)
  }

  /** Claim and resume publish their own admission state. */
  function OpeningCall(w: World): World {
    if !w.phase.Running? || w.script.Killed? then Stop(w)
    else
      var r := w.script.reply;
      var w1 := w.(disk := w.disk.(admissionFile := r.leftAdmission), script := w.script.rest);
      if r.ok then Succeed(w1) else Stop(w1)
  }

  /** setup, repair, upgrade, re-enroll and device-rotate; the last two close admission when the
      identity cannot be read. */
  function Maintain(w: World, closesWhenUnidentified: bool): World {
    var checks := Attempt(RejectPending(w));
    if !checks.ok then
      Stop(if closesWhenUnidentified then SetAdmission(checks.world, Closed) else checks.world)
    else
      Succeed(SetAdmission(ClientCall(Check(SetAdmission(checks.world, Closed))), Ready))
  }

  /** connect and claim. */
  function Claim(w: World): World {
    OpeningCall(SetAdmission(Check(RejectPending(w)), Closed))
  }

  /** The desktop claim looks only at the admission file, never at the pending record. */
  function DesktopClaim(w: World): World {
    var w1 := Check(w);
    if w1.disk.admissionFile != Some(Ready) then Stop(w1)
    else OpeningCall(SetAdmission(Check(w1), Closed))
  }

  function ResumeBinding(w: World): World {
    OpeningCall(SetAdmission(Check(RejectPending(w)), Ready))
  }

  /** pause (not terminal), stop and revoke (terminal). */
  function Lifecycle(w: World, terminal: bool): World {
    var w1 := ClientCall(Check(SetAdmission(Check(RejectPending(w)), Closed)));
    Succeed(if terminal then SetAdmission(w1, Ready) else w1)
  }

  /** register: the Device Client may rewrite the identity; admission is left to it. */
  function Register(w: World): World {
    Succeed(ClientCall(Check(RejectPending(w))))
  }

  function BindingRevocation(device: Device, b: Binding): Pending {
    Pending(BindingScope, RemoveBinding, device, Some(b), None, false, false, false, false, 0)
  }

  /** Revokes the binding of record `p` and drops the record. */
  function RevokeBinding(w: World, p: Pending): World {
    var bindings := if p.binding.Some? then {p.binding.value} else {};
    var revoke := TryPut(w, w.disk.(revokedBindings := w.disk.revokedBindings + bindings));
    if revoke.ok then ClearPending(revoke.world) else RecordFailure(revoke.world, p)
  }

  function RevokeBindings(w: World, device: Device, bindings: seq<Binding>): World
    decreases |bindings|
  {
    if bindings == [] || !w.phase.Running? then w
    else
      var p := BindingRevocation(device, bindings[0]);
      RevokeBindings(RevokeBinding(WritePending(w, p), p), device, bindings[1..])
  }

  /** Retires the Bridge locally and uninstalls it. */
  function Retire(w: World): World {
    Succeed(Check(ClientCall(w)))
  }

  /** `live` are the bindings the server or the local handoff reports for `device`; `handoff` says whether a
      local handoff file exists.  Without a user token, a Mac that holds neither record nor identity nor handoff
      is retired without asking the server. */
  function Remove(w: World, device: Device, live: seq<Binding>, handoff: bool): World {
    var w1 := Check(w);
    if w1.phase.Running? && w1.disk.pending.Some? && w1.disk.pending.value.scope.DeviceScope? then
      Stop(SetAdmission(w1, Closed))
    else
      var control := Attempt(SetAdmission(Check(w1), Closed));
      match control.world.disk.pending
      case Some(p) =>
        if !control.ok then RecordFailure(control.world, p)
        else if control.world.disk.config != Some(p.device.origin) then Stop(control.world)
        else Retire(RevokeBindings(Check(RevokeBinding(control.world, p)), device, live))
      case None =>
        if control.ok then Retire(RevokeBindings(Check(control.world), device, live))
        else if control.world.disk.store == NoIdentity && !handoff then Retire(control.world)
        else Stop(control.world)
  }

  function DeviceRevocation(device: Device): Pending {
    Pending(DeviceScope, ForgetDevice, device, None, None, false, false, false, false, 0)
  }

  /** The discovery of the local identity, which may fail over a readable one. */
  function Discover(w: World): (World, Option<Device>) {
    var a := Attempt(w);
    (a.world, if a.ok && a.world.disk.store.Identity? then Some(a.world.disk.store.metadata.device) else None)
  }

  /** The record forget-this-mac works on: an existing one, a switch-server one included, else the
      discovered identity, else the Device `selected` from the server listing. */
  function ForgetTarget(d: Disk, found: Option<Device>, selected: Device): Pending {
    if d.pending.Some? then d.pending.value
    else DeviceRevocation(if found.Some? then found.value else selected)
  }

  /** Only a new operation asks for confirmation. */
  function ConfirmForget(w: World): World {
    if w.disk.pending.Some? then w else Check(w)
  }

  /** Only a new operation needs the local identity. */
  function ForgetLooks(w: World): (World, Option<Device>) {
    if w.disk.pending.Some? then (w, None) else Discover(w)
  }

  function Forget(w: World, selected: Device): World {
    var w1 := Check(w);
    if w1.phase.Running? && w1.disk.pending.Some? && w1.disk.pending.value.scope.BindingScope? then
      Stop(SetAdmission(w1, Closed))
    else
      var (w2, found) := ForgetLooks(w1);
      var p := ForgetTarget(w1.disk, found, selected);
      var control := Attempt(w2);
      if !control.ok then
        if w1.disk.pending.None? && found.None? then Stop(SetAdmission(control.world, Closed))
        else RecordFailure(SetAdmission(ConfirmForget(control.world), Closed), p)
      else if control.world.disk.config != Some(p.device.origin) then Stop(control.world)
      else RevokeAndPurge(WritePending(SetAdmission(ConfirmForget(control.world), Closed), p), p)
  }

  function RevokeAndPurge(w: World, p: Pending): World {
    var revoke := RevokeCall(w, p.device);
    if !revoke.ok then RecordFailure(revoke.world, p)
    else
      var purge := PurgeCall(revoke.world, p.device);
      if !purge.ok then RecordFailure(purge.world, p)
      else Succeed(ClearPending(purge.world))
  }

  datatype Command =
    | DoMaintain(closesWhenUnidentified: bool)
    | DoClaim
    | DoDesktopClaim
    | DoResume
    | DoLifecycle(terminal: bool)
    | DoRegister
    | DoRemove(device: Device, live: seq<Binding>, handoff: bool)
    | DoForget(selected: Device)
    | DoSwitch(target: string)
    | DoReconfigure(origin: Option<string>)  // login and other writers of the configuration

  function Execute(w: World, c: Command): World {
    match c
    case DoMaintain(closes) => Maintain(w, closes)
    case DoClaim => Claim(w)
    case DoDesktopClaim => DesktopClaim(w)
    case DoResume => ResumeBinding(w)
    case DoLifecycle(terminal) => Lifecycle(w, terminal)
    case DoRegister => Register(w)
    case DoRemove(device, live, handoff) => Remove(w, device, live, handoff)
    case DoForget(selected) => Forget(w, selected)
    case DoSwitch(target) => RunSwitch(w, target)
    case DoReconfigure(origin) => Put(w, w.disk.(config := origin))
  }

  datatype Step = Step(command: Command, script: Script)

  /** The disk after the commands of a history, each run in a process of its own. */
  function After(d: Disk, history: seq<Step>): Disk
    decreases |history|
  {
    if history == [] then d
    else After(Execute(World(d, history[0].script, Running, 0), history[0].command).disk, history[1..])
  }
}
