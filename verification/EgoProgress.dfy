/** What the ego-browser commands get done: with good replies they succeed, a refusal closes admission, a failure is
    counted. */
module EgoProgress {
  import opened Prelude
  import opened EgoState
  import opened EgoSwitch
  import opened EgoRecovery
  import opened EgoCommands
  import opened EgoAdmission
  import opened EgoOutcomes
  import opened EgoHistory

  // ---- records ----

  /** Records that are never written: too many retries, a missing generation, progress or a target of anything but a
      switch, a switch to its own server, and progress out of order. */
  lemma InvalidRecords(p: Pending)
    ensures p.retryCount > 10_000 ==> !ValidPending(p)
    ensures p.scope.BindingScope? && (p.binding.None? || p.binding.value.generation == 0) ==> !ValidPending(p)
    ensures p.scope.DeviceScope? && p.device.generation == 0 ==> !ValidPending(p)
    ensures !p.reason.SwitchServer? && (p.target.Some? || HasSwitchProgress(p)) ==> !ValidPending(p)
    ensures p.reason.SwitchServer? && (p.target.None? || p.target == Some(p.device.origin)) ==> !ValidPending(p)
    ensures p.reason.SwitchServer? && (p.scope.BindingScope? || p.binding.Some?) ==> !ValidPending(p)
    ensures p.localPurged && !p.oldOriginRevoked ==> !ValidPending(p)
    ensures p.configSwitched && !p.localPurged ==> !ValidPending(p)
    ensures p.newIdentityEnsured && !p.configSwitched ==> !ValidPending(p)
  {
  }

  /** The records that the commands begin with are valid, given generations. */
  lemma NewRecordsValid(device: Device, b: Binding, m: Metadata, target: string)
    ensures b.generation != 0 ==> ValidPending(BindingRevocation(device, b))
    ensures device.generation != 0 ==> ValidPending(DeviceRevocation(device))
    ensures m.device.generation != 0 && m.device.origin != target ==> ValidPending(NewSwitch(m, target))
  {
  }

  /** An invalid record is not written, and ends the command. */
  lemma InvalidNotWritten(w: World, p: Pending)
    requires !ValidPending(p)
    ensures WritePending(w, p).disk == w.disk && !WritePending(w, p).phase.Running?
  {
  }

  /** The older admission level counts while the shared file is missing, and only then. */
  lemma EffectiveLevel(d: Disk, a: Admission)
    ensures EffectiveAdmission(d.(admissionFile := None)) == d.admissionProjection
    ensures EffectiveAdmission(d.(admissionFile := Some(a))) == a
  {
  }

  // ---- refusals ----

  /** The command refuses to run beside the record on disk. */
  predicate Refuses(c: Command, p: Pending) {
    || Blocked(c)
    || (c.DoSwitch? && !(IsSwitch(p) && p.target == Some(c.target)))
    || (c.DoRemove? && p.scope.DeviceScope?)
    || (c.DoForget? && p.scope.BindingScope?)
  }

  /** A refused command stops, changes nothing else, and closes admission on both levels. */
  lemma RefusalCloses(d: Disk, p: Pending, c: Command, r: Reply, rest: Script)
    requires d.pending == Some(p) && Refuses(c, p) && r.ok
    ensures var w := Execute(World(d, Copies(r, 3, rest), Running, 0), c);
            && w.phase.Stopped?
            && w.disk == d.(admissionFile := Some(Closed), admissionProjection := Closed)
  {
    var w := World(d, Copies(r, 3, rest), Running, 0);
    Draw(w, d, r, 2, rest);
    var w1 := Attempt(w).world;
    Admitted(w1, Closed, r, 0, rest);
    if Blocked(c) {
      assert RejectPending(w) == Stop(SetAdmission(w1, Closed));
      EndedStays(RejectPending(w));
    }
  }

  /** A removal taken up again goes no further under another server than that of its record. */
  lemma RemoveNeedsItsServer(w: World, p: Pending, device: Device, live: seq<Binding>, handoff: bool)
    requires w.phase.Running? && w.disk.pending == Some(p) && p.scope.BindingScope?
    requires w.disk.config != Some(p.device.origin)
    ensures var w1 := Remove(w, device, live, handoff);
            w1.phase.Stopped? && w1.disk.revokedBindings == w.disk.revokedBindings && w1.disk.store == w.disk.store
  {
    var w1 := Check(Check(w));
    var w2 := SetAdmission(w1, Closed);
    assert OnlyClosed(w.disk, w2.disk);
    var control := Attempt(w2);
    assert control.world.disk == w2.disk && !control.world.phase.Succeeded?;
    if !control.ok {
      FailureKeeps(control.world, p);
    }
  }

  lemma FailureKeeps(w: World, p: Pending)
    requires !w.phase.Succeeded?
    ensures RecordFailure(w, p).phase.Stopped?
    ensures RecordFailure(w, p).disk == w.disk.(pending := RecordFailure(w, p).disk.pending)
  {
  }

  /** Re-enrolling and rotating close admission when the identity cannot be read; the others leave it. */
  lemma UnidentifiedMaintenance(d: Disk, r: Reply, bad: Reply, rest: Script, closes: bool)
    requires d.pending == None && r.ok && !bad.ok
    ensures var w := Maintain(World(d, Next(r, Next(bad, Copies(r, 2, rest))), Running, 0), closes);
            && w.phase.Stopped?
            && w.disk == if closes then d.(admissionFile := Some(Closed), admissionProjection := Closed) else d
  {
    var w := World(d, Next(r, Next(bad, Copies(r, 2, rest))), Running, 0);
    assert RejectPending(w) == World(d, Next(bad, Copies(r, 2, rest)), Running, 0);
    Admitted(World(d, Copies(r, 2, rest), Running, 0), Closed, r, 0, rest);
  }

  /** A switch that finds another identity than its own two in the store stops where it is and touches nothing. */
  lemma ForeignIdentityStops(w: World, p: Pending)
    requires p.target.Some? && w.disk.store.Identity? && Classify(p, w.disk.store).Foreign?
    requires NextStage(p).PurgeLocal? || NextStage(p).EnsureNewIdentity? || NextStage(p).Finalize?
    ensures !StageAttempt(w, p).ok && StageAttempt(w, p).world.disk == w.disk
  {
  }

  /** A switch without an identity to switch, or whose reading fails, stops with admission closed on both levels. */
  lemma UnidentifiedSwitchCloses(d: Disk, target: string, r: Reply, look: Reply, rest: Script)
    requires d.pending == None && r.ok && (!look.ok || !d.store.Identity?)
    ensures var w := RunSwitch(World(d, Next(r, Next(look, Copies(r, 2, rest))), Running, 0), target);
            && w.phase.Stopped?
            && w.disk == d.(admissionFile := Some(Closed), admissionProjection := Closed)
  {
    Admitted(World(d, Copies(r, 2, rest), Running, 0), Closed, r, 0, rest);
  }

  /** The revocation of the old Device does not depend on the server's listing: it is asked for when the listing fails,
      and not asked for again when the listing already shows it. */
  lemma ListingMayFail(w: World, p: Pending, r: Reply, look: Reply, rest: Script)
    requires w.phase.Running? && w.script == Next(r, Next(look, Next(r, rest))) && r.ok
    ensures RevokeAttempt(w, p).ok && p.device in RevokeAttempt(w, p).world.disk.revoked
    ensures RevokeAttempt(w, p).world.script == if look.ok && p.device in w.disk.revoked then Next(r, rest) else rest
  {
  }

  /** What counts as which identity: the recorded Device is the old one, a Device of the target server under another
      identifier is the new one, complete once it has a credential, and anything else is foreign. */
  lemma IdentitiesMean(p: Pending, m: Metadata, target: string)
    requires p.target == Some(target) && target != p.device.origin
    ensures var local := Classify(p, Identity(m));
            && (local.Old? <==> m.device == p.device)
            && (local.TargetEnsured?
                <==> m.device.origin == target && m.device.id != p.device.id && m.credentialRevision > 0)
            && (local.TargetIncomplete?
                <==> m.device.origin == target && m.device.id != p.device.id && m.credentialRevision == 0)
            && Classify(p, NoIdentity) == Absent
  {
  }

  // ---- failures ----

  /** A binding or Device that could not be revoked, or an identity that could not be purged, leaves its record with one
      more retry. */
  lemma FailuresAreCounted(d: Disk, p: Pending, bad: Reply, r: Reply)
    requires d.pending == Some(p) && ValidPending(p) && p.retryCount < 10_000 && !bad.ok && r.ok
    ensures var script := Next(bad, Next(r, Killed));
            var counted := Some(p.(retryCount := p.retryCount + 1));
            && RevokeBinding(World(d, script, Running, 0), p).disk.pending == counted
            && RevokeAndPurge(World(d, script, Running, 0), p).disk.pending == counted
            && RevokeAndPurge(World(d, Next(r, script), Running, 0), p).disk.pending == counted
  {
  }

  /** So does a stage of a switch that fails, the configuration of a finished one, and the reading of the local
      evidence. */
  lemma SwitchFailuresAreCounted(w: World, p: Pending)
    requires p.target.Some? && ValidPending(p) && p.retryCount < 10_000
    ensures var a := StageAttempt(w, p);
            !a.ok && Willing(a.world) ==>
              RunStage(w, p).phase.Stopped? && RunStage(w, p).disk.pending == Some(p.(retryCount := p.retryCount + 1))
    ensures var a := SaveConfig(w, p.target);
            !a.ok && Willing(a.world) ==>
              Finish(w, p).phase.Stopped? && Finish(w, p).disk.pending == Some(p.(retryCount := p.retryCount + 1))
    ensures var w1 := WritePending(SetAdmission(w, Closed), p);
            var (r, q) := Reconcile(w1, p);
            w1.phase.Running? && !r.ok && q == p && Willing(r.world) ==>
              ResumeSwitch(w, p).phase.Stopped?
              && ResumeSwitch(w, p).disk.pending == Some(p.(retryCount := p.retryCount + 1))
  {
  }

  /** The next reply is a good one. */
  predicate Willing(w: World) {
    w.phase.Running? && w.script.Next? && w.script.reply.ok
  }

  /** So does a failure to reach the server at all, for a removal or a forget taken up again. */
  lemma OutagesAreCounted(d: Disk, p: Pending, bad: Reply, r: Reply, device: Device, live: seq<Binding>, handoff: bool)
    requires d.pending == Some(p) && ValidPending(p) && p.retryCount < 10_000 && !bad.ok && r.ok
    ensures var counted := Some(p.(retryCount := p.retryCount + 1));
            && (p.scope.BindingScope? ==>
                  var w := World(d, Copies(r, 4, Next(bad, Next(r, Killed))), Running, 0);
                  Remove(w, device, live, handoff).disk.pending == counted)
            && (p.scope.DeviceScope? ==>
                  var w := World(d, Next(r, Next(bad, Copies(r, 3, Killed))), Running, 0);
                  Forget(w, device).disk.pending == counted)
  {
    var rest := Next(bad, Next(r, Killed));
    if p.scope.BindingScope? {
      var w := World(d, Copies(r, 4, rest), Running, 0);
      Draw(w, d, r, 3, rest);
      Draw(Check(w), d, r, 2, rest);
      Admitted(Check(Check(w)), Closed, r, 0, rest);
    } else {
      var w := World(d, Next(r, Next(bad, Copies(r, 3, Killed))), Running, 0);
      var w1 := World(d, Copies(r, 3, Killed), Running, 0);
      assert Attempt(Check(w)) == Probe(w1, false);
      Admitted(w1, Closed, r, 1, Killed);
      var w2 := SetAdmission(w1, Closed);
      Draw(w2, w2.disk.(pending := Some(p.(retryCount := p.retryCount + 1))), r, 0, Killed);
    }
  }

  /** A new forget that knows its identity but cannot reach the server leaves a record of it with one retry; one that
      knows none leaves no record and closes admission. */
  lemma ForgetOutageRecorded(d: Disk, selected: Device, r: Reply, look: Reply, bad: Reply)
    requires d.pending == None && r.ok && !bad.ok
    ensures var w := Forget(World(d, Next(r, Next(look, Next(bad, Copies(r, 4, Killed)))), Running, 0), selected);
            && w.phase.Stopped?
            && w.disk.admissionFile == Some(Closed) && w.disk.admissionProjection == Closed
            && (look.ok && d.store.Identity? && d.store.metadata.device.generation != 0 ==>
                  w.disk.pending == Some(DeviceRevocation(d.store.metadata.device).(retryCount := 1)))
            && (!look.ok || !d.store.Identity? ==> w.disk.pending == None)
  {
    var w := World(d, Next(r, Next(look, Next(bad, Copies(r, 4, Killed)))), Running, 0);
    var w1 := World(d, Copies(r, 4, Killed), Running, 0);
    assert Attempt(ForgetLooks(Check(w)).0) == Probe(w1, false);
    Admitted(w1, Closed, r, 2, Killed);
    Passed(w1, r, 3, Killed);
    var w2 := Check(w1);
    Admitted(w2, Closed, r, 1, Killed);
    var w3 := SetAdmission(w2, Closed);
    if look.ok && d.store.Identity? {
      var p := DeviceRevocation(d.store.metadata.device).(retryCount := 1);
      Draw(w3, w3.disk.(pending := Some(p)), r, 0, Killed);
    }
  }

  // ---- success ----

  /** A reply without fault, after which the Device Client leaves `store`. */
  function Leaving(store: Store): Reply {
    Reply(true, true, store, Some(Closed))
  }

  lemma Passed(w: World, r: Reply, n: nat, rest: Script)
    requires w.phase.Running? && w.script == Copies(r, n + 1, rest) && r.ok
    ensures Check(w) == w.(script := Copies(r, n, rest))
    ensures w.disk.pending == None ==> RejectPending(w) == w.(script := Copies(r, n, rest))
  {
    Draw(w, w.disk, r, n, rest);
  }

  lemma Served(w: World, store: Store, n: nat, rest: Script)
    requires w.phase.Running? && w.script == Copies(Leaving(store), n + 1, rest)
    ensures ClientCall(w) == w.(disk := w.disk.(store := store, admissionFile := Some(Closed)),
                                script := Copies(Leaving(store), n, rest))
  {
  }

  /** Maintenance without faults puts the Device Client's work in place and admission in order. */
  lemma MaintainSucceeds(d: Disk, closes: bool, store: Store)
    requires d.pending == None
    ensures var w := Maintain(World(d, Copies(Leaving(store), 8, Killed), Running, 0), closes);
            && w.phase.Succeeded?
            && w.disk == d.(store := store, admissionFile := Some(Ready), admissionProjection := Ready)
  {
    var r := Leaving(store);
    var w := World(d, Copies(r, 8, Killed), Running, 0);
    Passed(w, r, 7, Killed);
    var w1 := RejectPending(w);
    Draw(w1, d, r, 6, Killed);
    var w2 := Attempt(w1).world;
    Admitted(w2, Closed, r, 4, Killed);
    var w3 := SetAdmission(w2, Closed);
    Passed(w3, r, 3, Killed);
    var w4 := Check(w3);
    Served(w4, store, 2, Killed);
    Admitted(ClientCall(w4), Ready, r, 0, Killed);
  }

  /** Claiming and resuming without faults leave the admission that the Device Client publishes. */
  lemma ClaimSucceeds(d: Disk, r: Reply)
    requires d.pending == None && r.ok
    ensures var w := Claim(World(d, Copies(r, 5, Killed), Running, 0));
            && w.phase.Succeeded?
            && w.disk == d.(admissionFile := r.leftAdmission, admissionProjection := Closed)
    ensures var w := ResumeBinding(World(d, Copies(r, 5, Killed), Running, 0));
            && w.phase.Succeeded?
            && w.disk == d.(admissionFile := r.leftAdmission, admissionProjection := Ready)
  {
    var w := World(d, Copies(r, 5, Killed), Running, 0);
    Passed(w, r, 4, Killed);
    Passed(RejectPending(w), r, 3, Killed);
    var w1 := Check(RejectPending(w));
    Admitted(w1, Closed, r, 1, Killed);
    Admitted(w1, Ready, r, 1, Killed);
  }

  /** The desktop claim succeeds exactly from a ready admission file. */
  lemma DesktopClaimSucceedsIff(d: Disk, r: Reply)
    requires r.ok
    ensures DesktopClaim(World(d, Copies(r, 5, Killed), Running, 0)).phase.Succeeded?
            <==> d.admissionFile == Some(Ready)
  {
    var w := World(d, Copies(r, 5, Killed), Running, 0);
    Passed(w, r, 4, Killed);
    Passed(Check(w), r, 3, Killed);
    Admitted(Check(Check(w)), Closed, r, 1, Killed);
  }

  /** Registering, pausing, stopping and revoking without faults succeed. */
  lemma LifecycleSucceeds(d: Disk, store: Store, terminal: bool)
    requires d.pending == None
    ensures Register(World(d, Copies(Leaving(store), 3, Killed), Running, 0)).phase.Succeeded?
    ensures Register(World(d, Copies(Leaving(store), 3, Killed), Running, 0)).disk.store == store
    ensures var w := Lifecycle(World(d, Copies(Leaving(store), 8, Killed), Running, 0), terminal);
            w.phase.Succeeded? && w.disk.store == store
  {
    var r := Leaving(store);
    var v := World(d, Copies(r, 3, Killed), Running, 0);
    Passed(v, r, 2, Killed);
    Passed(RejectPending(v), r, 1, Killed);
    Served(Check(RejectPending(v)), store, 0, Killed);
    var w := World(d, Copies(r, 8, Killed), Running, 0);
    Passed(w, r, 7, Killed);
    Passed(RejectPending(w), r, 6, Killed);
    var w1 := Check(RejectPending(w));
    Admitted(w1, Closed, r, 4, Killed);
    var w2 := SetAdmission(w1, Closed);
    Passed(w2, r, 3, Killed);
    Served(Check(w2), store, 2, Killed);
    Admitted(ClientCall(Check(w2)), Ready, r, 0, Killed);
  }

  /** One binding revoked: its record written, the server asked, the record dropped. */
  lemma BindingSucceeds(w: World, device: Device, b: Binding, r: Reply, n: nat, rest: Script)
    requires w.phase.Running? && w.script == Copies(r, n + 3, rest) && r.ok && b.generation != 0
    ensures var p := BindingRevocation(device, b);
            RevokeBinding(WritePending(w, p), p)
            == w.(disk := w.disk.(pending := None, revokedBindings := w.disk.revokedBindings + {b}),
                  script := Copies(r, n, rest))
  {
    var p := BindingRevocation(device, b);
    Draw(w, w.disk.(pending := Some(p)), r, n + 2, rest);
    var w1 := WritePending(w, p);
    Draw(w1, w1.disk.(revokedBindings := w1.disk.revokedBindings + {b}), r, n + 1, rest);
    var w2 := TryPut(w1, w1.disk.(revokedBindings := w1.disk.revokedBindings + {b})).world;
    Draw(w2, w2.disk.(pending := None), r, n, rest);
  }

  lemma {:induction false} BindingsSucceed(w: World, device: Device, live: seq<Binding>, r: Reply, n: nat, rest: Script)
    requires w.phase.Running? && w.script == Copies(r, n + 3 * |live|, rest) && r.ok
    requires forall i :: 0 <= i < |live| ==> live[i].generation != 0
    ensures var w1 := RevokeBindings(w, device, live);
            && w1.phase.Running? && w1.script == Copies(r, n, rest)
            && w1.disk == w.disk.(pending := w1.disk.pending, revokedBindings := w1.disk.revokedBindings)
    decreases |live|
  {
    if live != [] {
      BindingSucceeds(w, device, live[0], r, n + 3 * (|live| - 1), rest);
      var p := BindingRevocation(device, live[0]);
      BindingsSucceed(RevokeBinding(WritePending(w, p), p), device, live[1..], r, n, rest);
    }
  }

  /** Removal without faults revokes every live binding and succeeds. */
  lemma RemoveSucceeds(d: Disk, device: Device, live: seq<Binding>, handoff: bool, store: Store)
    requires d.pending == None && forall i :: 0 <= i < |live| ==> live[i].generation != 0
    ensures var w := World(d, Copies(Leaving(store), 6, Copies(Leaving(store), 2 + 3 * |live|, Killed)), Running, 0);
            Remove(w, device, live, handoff).phase.Succeeded?
  {
    var r := Leaving(store);
    var tail := Copies(r, 2 + 3 * |live|, Killed);
    var w := World(d, Copies(r, 6, tail), Running, 0);
    Passed(w, r, 5, tail);
    Passed(Check(w), r, 4, tail);
    Admitted(Check(Check(w)), Closed, r, 2, tail);
    var w1 := SetAdmission(Check(Check(w)), Closed);
    Draw(w1, w1.disk, r, 1, tail);
    var w2 := Attempt(w1).world;
    Passed(w2, r, 0, tail);
    BindingsSucceed(Check(w2), device, live, r, 2, Killed);
    var w3 := RevokeBindings(Check(w2), device, live);
    Served(w3, store, 1, Killed);
    Passed(ClientCall(w3), r, 0, Killed);
  }

  /** A Mac that holds nothing is retired without a user token. */
  lemma EmptyMacRetires(d: Disk, device: Device, live: seq<Binding>, bad: Reply)
    requires d.pending == None && d.store == NoIdentity && !bad.ok
    ensures var r := Leaving(NoIdentity);
            var w := World(d, Copies(r, 4, Next(bad, Copies(r, 2, Killed))), Running, 0);
            Remove(w, device, live, false).phase.Succeeded?
  {
    var r := Leaving(NoIdentity);
    var tail := Next(bad, Copies(r, 2, Killed));
    var w := World(d, Copies(r, 4, tail), Running, 0);
    Passed(w, r, 3, tail);
    Passed(Check(w), r, 2, tail);
    Admitted(Check(Check(w)), Closed, r, 0, tail);
    var w1 := SetAdmission(Check(Check(w)), Closed);
    var w2 := Attempt(w1).world;
    assert w2.script == Copies(r, 2, Killed);
    Served(w2, NoIdentity, 1, Killed);
    Passed(ClientCall(w2), r, 0, Killed);
  }

  /** Forgetting without faults revokes and purges the discovered identity and succeeds. */
  lemma ForgetSucceeds(d: Disk, m: Metadata, selected: Device, n: Metadata)
    requires d.pending == None && d.store == Identity(m) && m.device.generation != 0
    requires d.config == Some(m.device.origin)
    ensures var w := Forget(World(d, Copies(Faultless(n), 10, Killed), Running, 0), selected);
            && w.phase.Succeeded? && m.device in w.disk.revoked && w.disk.store == NoIdentity
            && w.disk.log == Then(d.log, Purged(m.device, d.store, true))
  {
    var r, p := Faultless(n), DeviceRevocation(m.device);
    var w := World(d, Copies(r, 10, Killed), Running, 0);
    Draw(w, d, r, 9, Killed);
    var w1 := Check(w);
    Draw(w1, d, r, 8, Killed);
    assert ForgetLooks(w1) == (World(d, Copies(r, 8, Killed), Running, 0), Some(m.device));
    var w2 := World(d, Copies(r, 8, Killed), Running, 0);
    Draw(w2, d, r, 7, Killed);
    var w3 := Attempt(w2).world;
    Draw(w3, d, r, 6, Killed);
    RecordCarriedOut(Check(w3), p, r);
  }
}
