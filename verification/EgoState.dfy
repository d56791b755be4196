/** Durable state of the ego-browser lifecycle and the interactions that change it.
    A command is run against a script of replies, one per interaction with the disk, the Device
    Client or a server.  A script that runs out is a process killed at that point; a failing reply
    whose effect was applied is a process killed, or an error returned, just after the effect. */
module EgoState {
  import opened Prelude

  /** One generation of one Device registered with one server origin. */
  datatype Device = Device(origin: string, id: string, generation: nat)

  datatype Metadata = Metadata(device: Device, credentialRevision: nat)

  /** The Device store: no identity artifacts, artifacts without readable metadata, or metadata. */
  datatype Store = NoIdentity | Unreadable | Identity(metadata: Metadata)

  datatype Scope = BindingScope | DeviceScope
  datatype Reason = RemoveBinding | ForgetDevice | SwitchServer
  datatype Binding = Binding(id: string, generation: nat)

  /** The one durable pending record; generation 0 stands for a missing generation. */
  datatype Pending = Pending(
    scope: Scope, reason: Reason, device: Device, binding: Option<Binding>, target: Option<string>,
    oldOriginRevoked: bool, localPurged: bool, configSwitched: bool, newIdentityEnsured: bool,
    retryCount: nat)

  const MAX_RETRIES := 10_000

  datatype Admission = Closed | Ready | Open

  /** What an outside observer sees of the destructive calls of a command. */
  datatype Event =
    | Purged(recorded: Device, store: Store, revoked: bool)
    | Ensured(recorded: Device, target: string, store: Store)

  /** Events, latest first. */
  datatype Log = NoEvents | Then(earlier: Log, event: Event)

  datatype Disk = Disk(
    pending: Option<Pending>, store: Store, config: Option<string>,
    admissionFile: Option<Admission>, admissionProjection: Admission,
    revoked: set<Device>, revokedBindings: set<Binding>, log: Log)

  /** `applied` and the two `left` fields only matter to interactions with side effects. */
  datatype Reply = Reply(ok: bool, applied: bool, leftStore: Store, leftAdmission: Option<Admission>)

  /** The replies still to come; the process is killed where they end. */
  datatype Script = Killed | Next(reply: Reply, rest: Script)

  datatype Phase = Running | Succeeded | Stopped

  datatype World = World(disk: Disk, script: Script, phase: Phase, turns: nat)

  datatype Probe = Probe(world: World, ok: bool)

  predicate HasSwitchProgress(p: Pending) {
    p.oldOriginRevoked || p.localPurged || p.configSwitched || p.newIdentityEnsured
  }

  predicate OrderedFlags(p: Pending) {
    && (p.localPurged ==> p.oldOriginRevoked)
    && (p.configSwitched ==> p.localPurged)
    && (p.newIdentityEnsured ==> p.configSwitched)
  }

  predicate ValidPending(p: Pending) {
    && p.retryCount <= MAX_RETRIES
    && (p.scope.BindingScope? ==> p.binding.Some? && p.binding.value.generation != 0)
    && (p.scope.DeviceScope? ==> p.device.generation != 0)
    && (HasSwitchProgress(p) ==> p.scope.DeviceScope? && p.reason.SwitchServer?)
    && if p.reason.SwitchServer? then
         && p.scope.DeviceScope?
         && p.binding.None?
         && p.target.Some?
         && p.target.value != p.device.origin
         && OrderedFlags(p)
       else
         p.target.None?
  }

  predicate IsSwitch(p: Pending) {
    p.scope.DeviceScope? && p.reason.SwitchServer?
  }

  /** The shared admission file wins; the older projection is read only when the file is missing. */
  function EffectiveAdmission(d: Disk): Admission {
    if d.admissionFile.Some? then d.admissionFile.value else d.admissionProjection
  }

  // ---- interactions ----

  function Stop(w: World): World {
    if w.phase.Running? then w.(phase := Stopped) else w
  }

  function Succeed(w: World): World {
    if w.phase.Running? then w.(phase := Succeeded) else w
  }

  /** A read or a call without durable effect here; its failure is left to the caller. */
  function Attempt(w: World): Probe {
    if !w.phase.Running? || w.script.Killed? then
      Probe(Stop(w), false)
    else
      Probe(w.(script := w.script.rest), w.script.reply.ok)
  }

  /** An atomic replacement of durable state whose failure is left to the caller. */
  function TryPut(w: World, d: Disk): Probe {
    if !w.phase.Running? || w.script.Killed? then
      Probe(Stop(w), false)
    else
      var r := w.script.reply;
      Probe(w.(disk := if r.ok || r.applied then d else w.disk, script := w.script.rest), r.ok)
  }

  /** The same, where a failure ends the command. */
  function Put(w: World, d: Disk): World {
    var t := TryPut(w, d);
    if t.ok then t.world else Stop(t.world)
  }

  function TryWritePending(w: World, p: Pending): Probe {
    if ValidPending(p) then TryPut(w, w.disk.(pending := Some(p))) else Probe(w, false)
  }

  function WritePending(w: World, p: Pending): World {
    var t := TryWritePending(w, p);
    if t.ok then t.world else Stop(t.world)
  }

  function ClearPending(w: World): World {
    Put(w, w.disk.(pending := None))
  }

  /** Writes the shared file first and the projection second. */
  function SetAdmission(w: World, a: Admission): World {
    var w1 := Put(w, w.disk.(admissionFile := Some(a)));
    Put(w1, w1.disk.(admissionProjection := a))
  }

  /** Counts the retry, rewrites the record and reports the command as failed. */
  function RecordFailure(w: World, p: Pending): World {
    Stop(WritePending(w, p.(retryCount := p.retryCount + 1)))
  }

  /** The server marks the exact Device generation revoked, possibly without the reply arriving. */
  function RevokeCall(w: World, device: Device): Probe {
    TryPut(w, w.disk.(revoked := w.disk.revoked + {device}))
  }

  /** Calls other than claim and resume leave the admission file alone, close it or remove it. */
  function QuietAdmission(d: Disk, r: Reply): Option<Admission> {
    if r.leftAdmission == None || r.leftAdmission == Some(Closed) then r.leftAdmission else d.admissionFile
  }

  /** A confirmed purge removes the identity; a failed one may keep it, remove it or damage it. */
  function PurgeLeaves(store: Store, r: Reply): Store {
    if r.ok then NoIdentity
    else if r.leftStore.Identity? then store
    else r.leftStore
  }

  function PurgeCall(w: World, recorded: Device): Probe {
    if !w.phase.Running? || w.script.Killed? then
      Probe(Stop(w), false)
    else
      var r := w.script.reply;
      var d := w.disk;
      Probe(w.(disk := d.(store := PurgeLeaves(d.store, r), admissionFile := QuietAdmission(d, r),
                          log := Then(d.log, Purged(recorded, d.store, recorded in d.revoked))),
               script := w.script.rest),
            r.ok)
  }

  /** Ensuring at `target` leaves the store alone, damages it, or leaves an identity of `target`
      under an identifier other than the retired one, with or without a credential. */
  function EnsureLeaves(store: Store, retired: Device, target: string, r: Reply): Store {
    match r.leftStore
    case NoIdentity => store
    case Unreadable => Unreadable
    case Identity(m) => if m.device.origin == target && m.device.id != retired.id then r.leftStore else store
  }

  function EnsureCall(w: World, retired: Device, target: string): Probe {
    if !w.phase.Running? || w.script.Killed? then
      Probe(Stop(w), false)
    else
      var r := w.script.reply;
      var d := w.disk;
      Probe(w.(disk := d.(store := EnsureLeaves(d.store, retired, target, r), admissionFile := QuietAdmission(d, r),
                          log := Then(d.log, Ensured(retired, target, d.store))),
               script := w.script.rest),
            r.ok)
  }
}
