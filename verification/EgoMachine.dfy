/** The switch-server command as it runs: the durable state and the reply script are updated step by step,
    and the in-memory record is advanced by the recovery loop. */
module EgoMachine {
  import opened Prelude
  import opened EgoState
  import opened EgoSwitch

  class Machine {
    var disk: Disk
    var script: Script
    var phase: Phase
    var turns: nat

    constructor (disk: Disk, script: Script)
      ensures Now() == World(disk, script, Running, 0)
    {
      this.disk := disk;
      this.script := script;
      this.phase := Running;
      this.turns := 0;
    }

    ghost function Now(): World
      reads this
    {
      World(disk, script, phase, turns)
    }

    method Die()
      modifies this
      ensures Now() == Stop(old(Now()))
    {
      if phase.Running? {
        phase := Stopped;
      }
    }

    method Ask() returns (ok: bool)
      modifies this
      ensures Now() == Attempt(old(Now())).world && ok == Attempt(old(Now())).ok
    {
      if !phase.Running? || script.Killed? {
        Die();
        return false;
      }
      ok := script.reply.ok;
      script := script.rest;
    }

    method TryReplace(d: Disk) returns (ok: bool)
      modifies this
      ensures Now() == TryPut(old(Now()), d).world && ok == TryPut(old(Now()), d).ok
    {
      if !phase.Running? || script.Killed? {
        Die();
        return false;
      }
      if script.reply.ok || script.reply.applied {
        disk := d;
      }
      ok := script.reply.ok;
      script := script.rest;
    }

    method Replace(d: Disk)
      modifies this
      ensures Now() == Put(old(Now()), d)
    {
      var ok := TryReplace(d);
      if !ok {
        Die();
      }
    }

    method Save(p: Pending)
      modifies this
      ensures Now() == WritePending(old(Now()), p)
    {
      if ValidPending(p) {
        Replace(disk.(pending := Some(p)));
      } else {
        Die();
      }
    }

    method Fail(p: Pending)
      modifies this
      ensures Now() == RecordFailure(old(Now()), p)
    {
      Save(p.(retryCount := p.retryCount + 1));
      Die();
    }

    method Admit(a: Admission)
      modifies this
      ensures Now() == SetAdmission(old(Now()), a)
    {
      Replace(disk.(admissionFile := Some(a)));
      Replace(disk.(admissionProjection := a));
    }

    method Look(p: Pending) returns (local: Option<LocalIdentity>)
      requires p.target.Some?
      modifies this
      ensures (Now(), local) == Inspect(old(Now()), p)
    {
      var ok := Ask();
      local := if ok && !disk.store.Unreadable? then Some(Classify(p, disk.store)) else None;
    }

    method Revoke(p: Pending) returns (ok: bool)
      modifies this
      ensures Probe(Now(), ok) == RevokeAttempt(old(Now()), p)
    {
      ok := Ask();
      if ok {
        var listed := Ask();
        if !(listed && p.device in disk.revoked) {
          ok := TryReplace(disk.(revoked := disk.revoked + {p.device}));
        }
      }
    }

    method Purge(p: Pending) returns (ok: bool)
      requires p.target.Some?
      modifies this
      ensures Probe(Now(), ok) == PurgeAttempt(old(Now()), p)
    {
      var local := Look(p);
      if local == None || local == Some(Foreign) {
        ok := false;
      } else if local == Some(Old) {
        var call := PurgeCall(World(disk, script, phase, turns), p.device);
        disk, script, phase, ok := call.world.disk, call.world.script, call.world.phase, call.ok;
      } else {
        ok := true;
      }
    }

    method PointConfig(target: Option<string>) returns (ok: bool)
      modifies this
      ensures Probe(Now(), ok) == SaveConfig(old(Now()), target)
    {
      ok := Ask();
      if ok && disk.config != target {
        ok := TryReplace(disk.(config := target));
      }
    }

    method Confirm(p: Pending) returns (ok: bool)
      requires p.target.Some?
      modifies this
      ensures Probe(Now(), ok) == ConfirmEnsured(old(Now()), p)
    {
      var local := Look(p);
      ok := local == Some(TargetEnsured);
    }

    method Ensure(p: Pending) returns (ok: bool)
      requires p.target.Some?
      modifies this
      ensures Probe(Now(), ok) == EnsureAttempt(old(Now()), p)
    {
      var local := Look(p);
      if local == Some(TargetEnsured) {
        return true;
      }
      if local == None || local == Some(Old) || local == Some(Foreign) {
        return false;
      }
      ok := Ask();
      if ok {
        var call := EnsureCall(World(disk, script, phase, turns), p.device, p.target.value);
        disk, script, phase, ok := call.world.disk, call.world.script, call.world.phase, call.ok;
        if ok {
          ok := Confirm(p);
        }
      }
    }

    method Complete(p: Pending)
      requires p.target.Some?
      modifies this
      ensures Now() == Finish(old(Now()), p)
    {
      var ok := PointConfig(p.target);
      if !ok {
        Fail(p);
        return;
      }
      Admit(Ready);
      Replace(disk.(pending := None));
      if phase.Running? {
        phase := Succeeded;
      }
    }

    /** The stage of the record, and the record with that stage marked. */
    method Act(p: Pending) returns (ok: bool, q: Pending)
      requires p.target.Some?
      modifies this
      ensures Probe(Now(), ok) == StageAttempt(old(Now()), p) && q == Advanced(p)
    {
      q := p;
      match NextStage(p) {
        case RevokeOldOrigin => ok := Revoke(p); q := p.(oldOriginRevoked := true);
        case PurgeLocal => ok := Purge(p); q := p.(localPurged := true);
        case SwitchConfig => ok := PointConfig(p.target); q := p.(configSwitched := true);
        case EnsureNewIdentity => ok := Ensure(p); q := p.(newIdentityEnsured := true);
        case Finalize => ok := Confirm(p);
      }
    }

    /** One turn of the loop: the stage, then its mark; ends the command or advances the record. */
    method TakeTurn(p: Pending) returns (q: Pending)
      requires p.target.Some? && phase.Running?
      modifies this
      ensures Now() == RunStage(Turn(old(Now())), p) && q == Advanced(p)
    {
      turns := turns + 1;
      assert Now() == Turn(old(Now()));
      var ok;
      ok, q := Act(p);
      ghost var a := StageAttempt(Turn(old(Now())), p);
      assert Now() == a.world && ok == a.ok;
      if !ok {
        Fail(p);
      } else if NextStage(p).Finalize? {
        Complete(p);
      } else {
        Save(q);
      }
    }

    method Recover(start: Pending)
      requires start.target.Some?
      modifies this
      ensures Now() == Loop(old(Now()), start)
    {
      var p := start;
      while phase.Running?
        invariant p.target.Some?
        invariant Loop(Now(), p) == Loop(old(Now()), start)
        decreases UnsetFlags(p), phase.Running?
      {
        p := TakeTurn(p);
      }
    }

    method ReconcileProgress(p: Pending) returns (ok: bool, q: Pending)
      requires p.target.Some?
      modifies this
      ensures (Probe(Now(), ok), q) == Reconcile(old(Now()), p)
    {
      q := p;
      var local := Look(p);
      if local.None? {
        return false, p;
      }
      ok := Ask();
      if !ok {
        return false, p;
      }
      var configTarget := disk.config == p.target;
      if local.value.TargetIncomplete? || local.value.TargetEnsured? {
        q := q.(oldOriginRevoked := true, localPurged := true);
        if configTarget {
          q := q.(configSwitched := true);
        }
        if local.value.TargetEnsured? && q.configSwitched {
          q := q.(newIdentityEnsured := true);
        }
      } else if local.value.Absent? && configTarget {
        q := q.(oldOriginRevoked := true, localPurged := true, configSwitched := true);
      }
      if q == p {
        ok := true;
      } else if ValidPending(q) {
        ok := TryReplace(disk.(pending := Some(q)));
      } else {
        ok := false;
      }
    }

    /** Everything proved of `RunSwitch` holds of this method. */
    method SwitchServer(target: string)
      modifies this
      ensures Now() == RunSwitch(old(Now()), target)
    {
      var ok := Ask();
      if !ok {
        Die();
        return;
      }
      var p;
      if disk.pending.Some? {
        p := disk.pending.value;
        if !IsSwitch(p) || p.target != Some(target) {
          Admit(Closed);
          Die();
          return;
        }
      } else {
        ok := Ask();
        if !ok || !disk.store.Identity? {
          Admit(Closed);
          Die();
          return;
        }
        var m := disk.store.metadata;
        if m.device.origin == target {
          Die();
          return;
        }
        ok := Ask();
        if !ok {
          Die();
          return;
        }
        p := NewSwitch(m, target);
      }
      Admit(Closed);
      Save(p);
      if phase.Running? {
        var q;
        ok, q := ReconcileProgress(p);
        if ok {
          Recover(q);
        } else {
          Fail(q);
        }
      }
    }
  }
}
