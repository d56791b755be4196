/** Installation of the device app: stage, back up, activate, roll back, over an applications directory whose
    operations may fail and a process that may be killed between them. */
module DeviceInstall {
  import opened Prelude

  /** `verified` sums up signature, Gatekeeper, bundle and XPC checks; a version is missing when it is
      absent or not semantic. */
  datatype App = App(version: Option<nat>, verified: bool)

  /** Staging and backup bundles are named after the process that made them. */
  datatype Apps = Apps(destination: Option<App>, staging: map<nat, App>, backup: map<nat, App>)

  /** One reply per operation; the process is killed where they end.  A failing removal may still have removed. */
  datatype Script = Killed | Next(ok: bool, applied: bool, rest: Script)

  datatype World = World(apps: Apps, script: Script, running: bool, installed: bool)

  function Stop(w: World): World {
    w.(running := false)
  }

  datatype Probe = Probe(world: World, ok: bool)

  function Attempt(w: World, done: Apps, atomic: bool): Probe {
    if !w.running || w.script.Killed? then Probe(Stop(w), false)
    else
      var effect := w.script.ok || (w.script.applied && !atomic);
      Probe(w.(apps := if effect then done else w.apps, script := w.script.rest), w.script.ok)
  }

  function Do(w: World, done: Apps, atomic: bool): World {
    var p := Attempt(w, done, atomic);
    if p.ok then p.world else Stop(p.world)
  }

  function WithoutStaging(a: Apps, pid: nat): Apps {
    a.(staging := a.staging - {pid})
  }

  function WithoutBackup(a: Apps, pid: nat): Apps {
    a.(backup := a.backup - {pid})
  }

  /** Refuses unless both versions are known and the candidate is not older. */
  predicate NotDowngrade(installed: App, candidate: App) {
    installed.version.Some? && candidate.version.Some? && candidate.version.value >= installed.version.value
  }

  /** Moves the existing app aside, activates the staged one, and moves the old one back on failure. */
  function Activate(w: World, pid: nat): World
    requires pid in w.apps.staging
  {
    var a := w.apps;
    var hadExisting := a.destination.Some?;
    var w1 :=
      if hadExisting then Do(w, a.(destination := None, backup := a.backup[pid := a.destination.value]), true) else w;
    var staged := a.staging[pid];
    var activated := Attempt(w1, WithoutStaging(w1.apps, pid).(destination := Some(staged)), true);
    if activated.ok then
      var w2 := Do(activated.world, WithoutBackup(activated.world.apps, pid), false);
      if w2.running then Stop(w2).(installed := true) else w2
    else if hadExisting && activated.world.running && pid in activated.world.apps.backup then
      var b := activated.world.apps;
      Stop(Do(activated.world, WithoutBackup(b, pid).(destination := Some(b.backup[pid])), true))
    else Stop(activated.world)
  }

  /** Clears leftovers of the same process identifier, copies, verifies the copy and activates it.  `copied` is
      what the copy turned out to be. */
  function Stage(w: World, pid: nat, copied: App): Probe {
    var w1 := Do(w, WithoutStaging(w.apps, pid), false);
    var w2 := Do(w1, WithoutBackup(w1.apps, pid), false);
    Attempt(w2, w2.apps.(staging := w2.apps.staging[pid := copied]), false)
  }

  function StageAndActivate(w: World, pid: nat, copied: App): World {
    var copy := Stage(w, pid, copied);
    if !copy.ok || !copied.verified then Stop(Do(copy.world, WithoutStaging(copy.world.apps, pid), false))
    else Activate(copy.world, pid)
  }

  /** A successful copy that verifies is the source itself; any other copy fails verification. */
  function Install(w: World, pid: nat, source: App, faithful: bool): World {
    if !source.verified then Stop(w)
    else if w.apps.destination.Some? && !NotDowngrade(w.apps.destination.value, source) then Stop(w)
    else StageAndActivate(w, pid, if faithful then source else source.(verified := false))
  }

  // ---- one install ----

  /** The app that was installed is still in place, still in the backup of this process, or superseded by the
      verified source, which is not older. */
  predicate Retained(before: Apps, after: Apps, pid: nat, source: App)
    requires before.destination.Some?
  {
    var previous := before.destination.value;
    || after.destination == Some(previous)
    || (after.destination == Some(source) && source.verified && NotDowngrade(previous, source))
    || (after.destination == None && pid in after.backup && after.backup[pid] == previous)
  }

  predicate OthersUntouched(before: Apps, after: Apps, pid: nat) {
    after.backup - {pid} == before.backup - {pid} && after.staging - {pid} == before.staging - {pid}
  }

  lemma ActivateRetains(w: World, pid: nat)
    requires pid in w.apps.staging
    ensures var after := Activate(w, pid).apps;
            && OthersUntouched(w.apps, after, pid)
            && (w.apps.destination.Some? ==>
                  || after.destination == w.apps.destination
                  || after.destination == Some(w.apps.staging[pid])
                  || (after.destination == None && pid in after.backup
                      && after.backup[pid] == w.apps.destination.value))
            && (w.apps.destination.None? ==>
                  after.destination == None || after.destination == Some(w.apps.staging[pid]))
  {
  }

  lemma StageKeeps(w: World, pid: nat, copied: App)
    ensures var copy := Stage(w, pid, copied);
            && copy.world.apps.destination == w.apps.destination
            && OthersUntouched(w.apps, copy.world.apps, pid)
            && (copy.ok ==> pid in copy.world.apps.staging && copy.world.apps.staging[pid] == copied)
  {
  }

  lemma CleanupKeeps(w: World, pid: nat)
    ensures var after := Do(w, WithoutStaging(w.apps, pid), false).apps;
            after.destination == w.apps.destination && OthersUntouched(w.apps, after, pid)
  {
  }

  /** What an install can do to the applications directory. */
  lemma InstallEffect(w: World, pid: nat, source: App, faithful: bool)
    ensures var after := Install(w, pid, source, faithful).apps;
            && OthersUntouched(w.apps, after, pid)
            && (|| after.destination == w.apps.destination
                || (after.destination == Some(source) && source.verified
                    && (w.apps.destination.Some? ==> NotDowngrade(w.apps.destination.value, source)))
                || (after.destination == None && w.apps.destination.Some? && pid in after.backup
                    && after.backup[pid] == w.apps.destination.value))
  {
    var copied := if faithful then source else source.(verified := false);
    var copy := Stage(w, pid, copied);
    StageKeeps(w, pid, copied);
    if copy.ok && copied.verified {
      ActivateRetains(copy.world, pid);
    } else {
      CleanupKeeps(copy.world, pid);
    }
  }

  lemma InstallRetains(w: World, pid: nat, source: App, faithful: bool)
    requires w.apps.destination.Some?
    ensures Retained(w.apps, Install(w, pid, source, faithful).apps, pid, source)
    ensures OthersUntouched(w.apps, Install(w, pid, source, faithful).apps, pid)
  {
    InstallEffect(w, pid, source, faithful);
  }

  /** Six good replies. */
  const FAULTLESS :=
    Next(true, true, Next(true, true, Next(true, true, Next(true, true, Next(true, true, Next(true, true, Killed))))))

  /** A verified source that is not older replaces the installed app and leaves no bundle of this process behind. */
  lemma UpgradeInstalls(a: Apps, pid: nat, u: nat, v: nat)
    requires a.destination.Some? && a.destination.value.version == Some(u) && u <= v
    ensures var w := Install(World(a, FAULTLESS, true, false), pid, App(Some(v), true), true);
            && w.installed && w.apps.destination == Some(App(Some(v), true))
            && pid !in w.apps.staging && pid !in w.apps.backup && OthersUntouched(a, w.apps, pid)
  {
    var source := App(Some(v), true);
    var w := World(a, FAULTLESS, true, false);
    var copy := Stage(w, pid, source);
    StageKeeps(w, pid, source);
    assert copy.ok && copy.world.running;
    assert copy.world.script == Next(true, true, Next(true, true, Next(true, true, Killed)));
    ActivateRetains(copy.world, pid);
  }

  /** When only the activation fails, the old app is moved back and nothing of it is left aside. */
  lemma FailedActivationRollsBack(w: World, pid: nat)
    requires pid in w.apps.staging && w.apps.destination.Some? && w.running && pid !in w.apps.backup
    requires w.script == Next(true, true, Next(false, false, Next(true, true, Killed)))
    ensures var w1 := Activate(w, pid);
            w1.apps.destination == w.apps.destination && w1.apps.backup == w.apps.backup && w1.installed == w.installed
  {
  }

  /** A copy that fails or does not verify is removed again. */
  lemma BadCopyRemoved(a: Apps, pid: nat, source: App, copies: bool)
    requires source.verified && (a.destination.Some? ==> NotDowngrade(a.destination.value, source))
    ensures var script := Next(true, true, Next(true, true, Next(copies, true, Next(true, true, Killed))));
            var w := Install(World(a, script, true, false), pid, source, false);
            pid !in w.apps.staging && w.apps.destination == a.destination && !w.installed
  {
  }

  /** An older source, or one of two versions unknown, changes nothing, whatever the replies. */
  lemma DowngradeRefused(w: World, pid: nat, source: App, faithful: bool)
    requires w.apps.destination.Some?
    requires var u, v := w.apps.destination.value.version, source.version;
             u == None || v == None || v.value < u.value
    ensures Install(w, pid, source, faithful).apps == w.apps
    ensures Install(w, pid, source, faithful).installed == w.installed
  {
  }

  /** A source that does not verify changes nothing; a copy that does not verify is never activated. */
  lemma UnverifiedRefused(w: World, pid: nat, source: App, faithful: bool)
    ensures !source.verified ==> Install(w, pid, source, faithful).apps == w.apps
    ensures !faithful ==> Install(w, pid, source, faithful).apps.destination == w.apps.destination
    ensures !source.verified || !faithful ==> Install(w, pid, source, faithful).installed == w.installed
  {
    var copied := if faithful then source else source.(verified := false);
    StageKeeps(w, pid, copied);
    CleanupKeeps(Stage(w, pid, copied).world, pid);
  }

  lemma ActivatedMeans(w: World, pid: nat)
    requires pid in w.apps.staging && !w.installed && Activate(w, pid).installed
    ensures var a := Activate(w, pid).apps;
            a.destination == Some(w.apps.staging[pid]) && pid !in a.staging && pid !in a.backup
  {
  }

  /** An install that reports success has put the verified source in place and cleaned up after itself. */
  lemma InstalledMeans(w: World, pid: nat, source: App, faithful: bool)
    requires !w.installed && Install(w, pid, source, faithful).installed
    ensures var a := Install(w, pid, source, faithful).apps;
            a.destination == Some(source) && source.verified && faithful && pid !in a.staging && pid !in a.backup
  {
    UnverifiedRefused(w, pid, source, faithful);
    StageKeeps(w, pid, source);
    ActivatedMeans(Stage(w, pid, source).world, pid);
  }

  // ---- sequences of installs ----

  datatype Attempted = Attempted(pid: nat, source: App, faithful: bool, script: Script)

  function Run(a: Apps, t: Attempted): Apps {
    Install(World(a, t.script, true, false), t.pid, t.source, t.faithful).apps
  }

  function After(a: Apps, history: seq<Attempted>): Apps
    decreases |history|
  {
    if history == [] then a else After(Run(a, history[0]), history[1..])
  }

  function Pids(history: seq<Attempted>): (r: seq<nat>)
    ensures |r| == |history| && forall i :: 0 <= i < |history| ==> r[i] == history[i].pid
  {
    seq(|history|, i requires 0 <= i < |history| => history[i].pid)
  }

  /** Where the app that was last in place ought to be: still there, or moved aside by an install of process `pid`. */
  datatype Whereabouts = InPlace(app: App) | Aside(app: App, pid: nat)

  /** It is where it ought to be. */
  predicate Kept(a: Apps, w: Whereabouts) {
    match w
    case InPlace(app) => a.destination == Some(app)
    case Aside(app, pid) => a.destination == None && pid in a.backup && a.backup[pid] == app
  }

  /** An app in place is the one to follow; otherwise the last one was moved aside by this install or an earlier one. */
  function Followed(w: Whereabouts, after: Apps, pid: nat): Whereabouts {
    if after.destination.Some? then InPlace(after.destination.value)
    else if w.InPlace? then Aside(w.app, pid)
    else w
  }

  function Trail(a: Apps, w: Whereabouts, history: seq<Attempted>): Whereabouts
    decreases |history|
  {
    if history == [] then w
    else Trail(Run(a, history[0]), Followed(w, Run(a, history[0]), history[0].pid), history[1..])
  }

  /** The install would start by removing the backup that holds the last app. */
  predicate Reuses(w: Whereabouts, pid: nat) {
    w.Aside? && w.pid == pid
  }

  /** An install that does not reuse the process identifier keeps the last app, or supersedes it by its verified source,
      which is not older than an app in place. */
  lemma InstallFollows(a: Apps, w: Whereabouts, t: Attempted)
    requires Kept(a, w) && !Reuses(w, t.pid)
    ensures var v := Followed(w, Run(a, t), t.pid);
            && Kept(Run(a, t), v)
            && (v.app == w.app
                || (v == InPlace(t.source) && t.source.verified && (w.InPlace? ==> NotDowngrade(w.app, t.source))))
  {
    InstallEffect(World(a, t.script, true, false), t.pid, t.source, t.faithful);
    if w.Aside? {
      assert w.pid in a.backup - {t.pid};
      assert w.pid in Run(a, t).backup - {t.pid};
    }
  }

  predicate KeptBy(a: Apps, w: Whereabouts, t: Attempted) {
    Kept(Run(a, t), Followed(w, Run(a, t), t.pid))
  }

  /** An install killed after its two removals. */
  function Interrupted(pid: nat): Attempted {
    Attempted(pid, App(None, true), true, Next(true, true, Next(true, true, Killed)))
  }

  lemma InterruptedLoses(a: Apps, w: Whereabouts, pid: nat)
    requires Kept(a, w) && Reuses(w, pid)
    ensures Run(a, Interrupted(pid)) == Apps(None, a.staging - {pid}, a.backup - {pid})
  {
    var start := World(a, Interrupted(pid).script, true, false);
    var w1 := Do(start, WithoutStaging(a, pid), false);
    var w2 := Do(w1, WithoutBackup(w1.apps, pid), false);
    assert w2.script.Killed?;
  }

  /** An install keeps the last app under all faults exactly when it does not start with that app moved aside by its own
      process identifier. */
  lemma KeepsAppIff(a: Apps, w: Whereabouts, pid: nat)
    requires Kept(a, w)
    ensures (forall t: Attempted :: t.pid == pid ==> KeptBy(a, w, t)) <==> !Reuses(w, pid)
  {
    if Reuses(w, pid) {
      InterruptedLoses(a, w, pid);
      assert !KeptBy(a, w, Interrupted(pid));
    } else {
      forall t: Attempted | t.pid == pid ensures KeptBy(a, w, t) {
        InstallFollows(a, w, t);
      }
    }
  }

  /** No install of the history starts with the last app moved aside by its own process identifier. */
  predicate NoReuse(a: Apps, w: Whereabouts, history: seq<Attempted>)
    decreases |history|
  {
    history == []
    || (!Reuses(w, history[0].pid)
        && NoReuse(Run(a, history[0]), Followed(w, Run(a, history[0]), history[0].pid), history[1..]))
  }

  predicate Offers(t: Attempted, app: App) {
    t.source == app && app.verified
  }

  /** Over every such history of faulty installs the last app in place is kept: it is the first one, or the verified
      source of one of the installs. */
  lemma {:induction false} HistoryKeepsApp(a: Apps, w: Whereabouts, history: seq<Attempted>)
    requires Kept(a, w) && NoReuse(a, w, history)
    ensures var v := Trail(a, w, history);
            && Kept(After(a, history), v)
            && (v.app == w.app || exists i :: 0 <= i < |history| && Offers(history[i], v.app))
    decreases |history|
  {
    if history != [] {
      var t, rest := history[0], history[1..];
      InstallFollows(a, w, t);
      var next := Followed(w, Run(a, t), t.pid);
      HistoryKeepsApp(Run(a, t), next, rest);
      var v := Trail(a, w, history);
      if v.app != next.app {
        var i :| 0 <= i < |rest| && Offers(rest[i], v.app);
        assert Offers(history[i + 1], v.app);
      } else if next.app != w.app {
        assert Offers(history[0], v.app);
      }
    }
  }

  /** Distinct process identifiers are enough. */
  lemma {:induction false} DistinctPidsNoReuse(a: Apps, w: Whereabouts, history: seq<Attempted>)
    requires Distinct(Pids(history)) && (w.Aside? ==> w.pid !in Pids(history))
    ensures NoReuse(a, w, history)
    decreases |history|
  {
    if history != [] {
      var t, rest := history[0], history[1..];
      var pids := Pids(history);
      assert pids[0] == t.pid && pids[1..] == Pids(rest);
      assert t.pid !in pids[1..];
      assert w.Aside? ==> w.pid !in Pids(rest);
      DistinctPidsNoReuse(Run(a, t), Followed(w, Run(a, t), t.pid), rest);
    }
  }

  // ---- the failing histories ----

  /** An install of something that does not verify. */
  function Refused(pid: nat): Attempted {
    Attempted(pid, App(None, false), true, Killed)
  }

  function AllRefused(pids: seq<nat>): (r: seq<Attempted>)
    ensures Pids(r) == pids
  {
    seq(|pids|, i requires 0 <= i < |pids| => Refused(pids[i]))
  }

  /** The whereabouts fit the destination. */
  predicate Fits(a: Apps, w: Whereabouts) {
    if a.destination.Some? then w == InPlace(a.destination.value) else w.Aside?
  }

  lemma {:induction false} RefusedChanges(a: Apps, w: Whereabouts, pids: seq<nat>)
    requires Fits(a, w)
    ensures After(a, AllRefused(pids)) == a && Trail(a, w, AllRefused(pids)) == w
    decreases |pids|
  {
    if pids != [] {
      assert AllRefused(pids)[1..] == AllRefused(pids[1..]);
      assert Run(a, Refused(pids[0])) == a;
      RefusedChanges(a, w, pids[1..]);
    }
  }

  lemma {:induction false} AfterConcat(a: Apps, w: Whereabouts, x: seq<Attempted>, y: seq<Attempted>)
    ensures After(a, x + y) == After(After(a, x), y)
    ensures Trail(a, w, x + y) == Trail(After(a, x), Trail(a, w, x), y)
    decreases |x|
  {
    if x == [] {
      assert x + y == y;
    } else {
      assert (x + y)[0] == x[0] && (x + y)[1..] == x[1..] + y;
      AfterConcat(Run(a, x[0]), Followed(w, Run(a, x[0]), x[0].pid), x[1..], y);
    }
  }

  lemma AfterOne(a: Apps, w: Whereabouts, t: Attempted)
    ensures After(a, [t]) == Run(a, t) && Trail(a, w, [t]) == Followed(w, Run(a, t), t.pid)
  {
    assert [t][0] == t && [t][1..] == [];
    assert After(a, [t]) == After(Run(a, t), []);
  }

  /** An install of the same version whose activation fails and whose rollback fails too. */
  function Stuck(pid: nat, version: nat): Attempted {
    Attempted(pid, App(Some(version), true), true,
              Next(true, true, Next(true, true, Next(true, true, Next(true, true,
                Next(false, false, Next(false, false, Killed)))))))
  }

  lemma StuckMovesAside(a: Apps, pid: nat, version: nat)
    requires a.destination.Some? && a.destination.value.version == Some(version)
    ensures var e := Run(a, Stuck(pid, version));
            && e.destination == None && pid in e.backup && e.backup[pid] == a.destination.value
            && e.backup - {pid} == a.backup - {pid}
  {
    var t := Stuck(pid, version);
    var w := World(a, t.script, true, false);
    var copy := Stage(w, pid, t.source);
    StageKeeps(w, pid, t.source);
    assert copy.ok && copy.world.running;
    assert copy.world.script == Next(true, true, Next(false, false, Next(false, false, Killed)));
    assert Run(a, t) == Activate(copy.world, pid).apps;
    ActivateRetains(copy.world, pid);
  }

  /** From an installed app: activation fails, rollback fails, and the process identifier comes round again.  Without
      other backups the app is nowhere any more. */
  lemma ReusedPidLosesApp(a: Apps, pid: nat, version: nat)
    requires a.destination.Some? && a.destination.value.version == Some(version)
    ensures var e := After(a, [Stuck(pid, version), Interrupted(pid)]);
            e.destination == None && pid !in e.backup && (a.backup == map[] ==> e.backup == map[])
  {
    var x, y := Stuck(pid, version), Interrupted(pid);
    var app := a.destination.value;
    StuckMovesAside(a, pid, version);
    InterruptedLoses(Run(a, x), Aside(app, pid), pid);
    assert [x] + [y] == [x, y];
    AfterConcat(a, InPlace(app), [x], [y]);
    AfterOne(a, InPlace(app), x);
    AfterOne(Run(a, x), InPlace(app), y);
  }

  /** What happens to the app in place over installs with the given process identifiers. */
  ghost predicate AlwaysKept(a: Apps, pids: seq<nat>)
    requires a.destination.Some?
  {
    forall history :: Pids(history) == pids ==> Kept(After(a, history), Trail(a, InPlace(a.destination.value), history))
  }

  lemma {:induction false} UnversionedStays(a: Apps, history: seq<Attempted>)
    requires a.destination.Some? && a.destination.value.version == None
    ensures After(a, history) == a && Trail(a, InPlace(a.destination.value), history) == InPlace(a.destination.value)
    decreases |history|
  {
    if history != [] {
      assert Run(a, history[0]) == a;
      UnversionedStays(a, history[1..]);
    }
  }

  function LosingHistory(pids: seq<nat>, i: nat, j: nat, version: nat): seq<Attempted>
    requires i < j < |pids|
  {
    AllRefused(pids[..i])
    + ([Stuck(pids[i], version)]
       + (AllRefused(pids[i + 1..j]) + ([Interrupted(pids[j])] + AllRefused(pids[j + 1..]))))
  }

  lemma LosingPids(pids: seq<nat>, i: nat, j: nat, version: nat)
    requires i < j < |pids|
    ensures Pids(LosingHistory(pids, i, j, version)) == pids
  {
    assert pids == pids[..i] + ([pids[i]] + (pids[i + 1..j] + ([pids[j]] + pids[j + 1..])));
  }

  /** Installs up to and including the stuck one, and those in between. */
  lemma StuckAmongRefused(a: Apps, pids: seq<nat>, version: nat, later: seq<nat>, rest: seq<Attempted>, pid: nat)
    requires a.destination.Some? && a.destination.value.version == Some(version)
    ensures var app, e := a.destination.value, Run(a, Stuck(pid, version));
            var history := AllRefused(pids) + ([Stuck(pid, version)] + (AllRefused(later) + rest));
            After(a, history) == After(e, rest) && Trail(a, InPlace(app), history) == Trail(e, Aside(app, pid), rest)
  {
    var app, t := a.destination.value, Stuck(pid, version);
    var e := Run(a, t);
    StuckMovesAside(a, pid, version);
    RefusedChanges(a, InPlace(app), pids);
    AfterConcat(a, InPlace(app), AllRefused(pids), [t] + (AllRefused(later) + rest));
    AfterConcat(a, InPlace(app), [t], AllRefused(later) + rest);
    AfterOne(a, InPlace(app), t);
    RefusedChanges(e, Aside(app, pid), later);
    AfterConcat(e, Aside(app, pid), AllRefused(later), rest);
  }

  lemma LosingHistoryLoses(a: Apps, pids: seq<nat>, i: nat, j: nat, version: nat)
    requires a.destination.Some? && a.destination.value.version == Some(version)
    requires i < j < |pids| && pids[i] == pids[j]
    ensures var history := LosingHistory(pids, i, j, version);
            !Kept(After(a, history), Trail(a, InPlace(a.destination.value), history))
  {
    var app, pid := a.destination.value, pids[i];
    var y, tail := Interrupted(pid), AllRefused(pids[j + 1..]);
    StuckAmongRefused(a, pids[..i], version, pids[i + 1..j], [y] + tail, pid);
    StuckMovesAside(a, pid, version);
    var e := Run(a, Stuck(pid, version));
    InterruptedLoses(e, Aside(app, pid), pid);
    AfterConcat(e, Aside(app, pid), [y], tail);
    AfterOne(e, Aside(app, pid), y);
    RefusedChanges(Run(e, y), Aside(app, pid), pids[j + 1..]);
  }

  /** The last app in place survives every faulty history of installs with given process identifiers exactly when
      these are distinct, unless the app has no version, in which case nothing is ever installed over it. */
  lemma AlwaysKeptIff(a: Apps, pids: seq<nat>)
    requires a.destination.Some?
    ensures AlwaysKept(a, pids) <==> a.destination.value.version == None || Distinct(pids)
  {
    var app := a.destination.value;
    if app.version == None {
      forall history | Pids(history) == pids ensures Kept(After(a, history), Trail(a, InPlace(app), history)) {
        UnversionedStays(a, history);
      }
    } else if Distinct(pids) {
      forall history | Pids(history) == pids ensures Kept(After(a, history), Trail(a, InPlace(app), history)) {
        DistinctPidsNoReuse(a, InPlace(app), history);
        HistoryKeepsApp(a, InPlace(app), history);
      }
    } else {
      var i, j :| 0 <= i < j < |pids| && pids[i] == pids[j];
      LosingPids(pids, i, j, app.version.value);
      LosingHistoryLoses(a, pids, i, j, app.version.value);
    }
  }

  // ---- versions ----

  predicate AtLeast(o: Option<App>, floor: nat) {
    o.Some? && o.value.version.Some? && o.value.version.value >= floor
  }

  /** The version floor holds after every install, under every fault that leaves an app in place, exactly when it
      holds of the app in place before: the downgrade check does not look at backups. */
  lemma FloorKeptIff(a: Apps, pid: nat, floor: nat)
    requires floor > 0
    ensures (forall t: Attempted ::
               t.pid == pid && Run(a, t).destination.Some? ==> AtLeast(Run(a, t).destination, floor))
            <==> AtLeast(a.destination, floor)
  {
    if AtLeast(a.destination, floor) {
      forall t: Attempted | t.pid == pid && Run(a, t).destination.Some? ensures AtLeast(Run(a, t).destination, floor) {
        InstallRetains(World(a, t.script, true, false), t.pid, t.source, t.faithful);
      }
    } else if a.destination.Some? {
      assert Run(a, Refused(pid)) == a;
    } else {
      InstallsOldest(a, pid);
    }
  }

  function Oldest(pid: nat): Attempted {
    Attempted(pid, App(Some(0), true), true,
              Next(true, true, Next(true, true, Next(true, true, Next(true, true, Next(true, true, Killed))))))
  }

  /** Over an empty destination the oldest version is installed. */
  lemma InstallsOldest(a: Apps, pid: nat)
    requires a.destination.None?
    ensures Run(a, Oldest(pid)).destination == Some(App(Some(0), true))
  {
    var t := Oldest(pid);
    var w := World(a, t.script, true, false);
    var copy := Stage(w, pid, t.source);
    StageKeeps(w, pid, t.source);
    assert copy.ok && copy.world.apps.destination.None? && copy.world.apps.staging[pid] == t.source;
    assert Run(a, t) == Activate(copy.world, pid).apps;
  }

  /** Every install of the history starts with an app in place. */
  predicate StartsInPlace(a: Apps, history: seq<Attempted>)
    decreases |history|
  {
    history == [] || (a.destination.Some? && StartsInPlace(Run(a, history[0]), history[1..]))
  }

  lemma {:induction false} FloorHolds(a: Apps, history: seq<Attempted>, floor: nat)
    requires StartsInPlace(a, history) && (a.destination.Some? ==> AtLeast(a.destination, floor))
    ensures After(a, history).destination.Some? ==> AtLeast(After(a, history).destination, floor)
    decreases |history|
  {
    if history != [] {
      var t := history[0];
      InstallRetains(World(a, t.script, true, false), t.pid, t.source, t.faithful);
      FloorHolds(Run(a, t), history[1..], floor);
    }
  }

  /** While every install starts with an app in place no version goes below the first; the next install can go below it
      exactly when it finds none. */
  lemma VersionFloorIff(a: Apps, history: seq<Attempted>, pid: nat, floor: nat)
    requires AtLeast(a.destination, floor) && floor > 0 && StartsInPlace(a, history)
    ensures var e := After(a, history);
            (forall t: Attempted ::
               t.pid == pid && Run(e, t).destination.Some? ==> AtLeast(Run(e, t).destination, floor))
            <==> e.destination.Some?
  {
    FloorHolds(a, history, floor);
    FloorKeptIff(After(a, history), pid, floor);
  }

  /** No history with these process identifiers ends with an app in place below the floor. */
  ghost predicate NeverBelow(a: Apps, pids: seq<nat>, floor: nat) {
    forall history :: Pids(history) == pids && After(a, history).destination.Some? ==>
        AtLeast(After(a, history).destination, floor)
  }

  /** From an installed app: activation and rollback fail, and the next install brings an older version. */
  lemma OlderAfterFailedRollback(a: Apps, pid: nat, next: nat, version: nat, later: seq<nat>)
    requires a.destination.Some? && a.destination.value.version == Some(version)
    ensures After(a, [Stuck(pid, version)] + ([Oldest(next)] + AllRefused(later))).destination
         == Some(App(Some(0), true))
  {
    var x, y, app := Stuck(pid, version), Oldest(next), a.destination.value;
    StuckMovesAside(a, pid, version);
    var e := Run(a, x);
    InstallsOldest(e, next);
    AfterConcat(a, InPlace(app), [x], [y] + AllRefused(later));
    AfterOne(a, InPlace(app), x);
    AfterConcat(e, InPlace(app), [y], AllRefused(later));
    AfterOne(e, InPlace(app), y);
    RefusedChanges(Run(e, y), InPlace(App(Some(0), true)), later);
  }

  /** The version in place is safe from every faulty history exactly when there is at most one install, whatever the
      process identifiers. */
  lemma VersionNeverDecreasesIff(a: Apps, pids: seq<nat>, floor: nat)
    requires AtLeast(a.destination, floor) && floor > 0
    ensures NeverBelow(a, pids, floor) <==> |pids| <= 1
  {
    if |pids| <= 1 {
      forall history | Pids(history) == pids && After(a, history).destination.Some?
        ensures AtLeast(After(a, history).destination, floor)
      {
        assert |history| <= 1;
        FloorHolds(a, history, floor);
      }
    } else {
      var version := a.destination.value.version.value;
      var history := [Stuck(pids[0], version)] + ([Oldest(pids[1])] + AllRefused(pids[2..]));
      OlderAfterFailedRollback(a, pids[0], pids[1], version, pids[2..]);
      assert Pids(history) == pids;
    }
  }

  /** The installation as it runs, updating the applications directory step by step. */
  class Installer {
    var apps: Apps
    var script: Script
    var running: bool
    var installed: bool

    constructor (apps: Apps, script: Script)
      ensures Now() == World(apps, script, true, false)
    {
      this.apps := apps;
      this.script := script;
      this.running := true;
      this.installed := false;
    }

    ghost function Now(): World
      reads this
    {
      World(apps, script, running, installed)
    }

    method Try(done: Apps, atomic: bool) returns (ok: bool)
      modifies this
      ensures Probe(Now(), ok) == Attempt(old(Now()), done, atomic)
    {
      if !running || script.Killed? {
        running := false;
        return false;
      }
      if script.ok || (script.applied && !atomic) {
        apps := done;
      }
      ok := script.ok;
      script := script.rest;
    }

    method Perform(done: Apps, atomic: bool)
      modifies this
      ensures Now() == Do(old(Now()), done, atomic)
    {
      var ok := Try(done, atomic);
      if !ok {
        running := false;
      }
    }

    method ActivateStaged(pid: nat)
      requires pid in apps.staging
      modifies this
      ensures Now() == Activate(old(Now()), pid)
    {
      var staged := apps.staging[pid];
      var hadExisting := apps.destination.Some?;
      if hadExisting {
        Perform(apps.(destination := None, backup := apps.backup[pid := apps.destination.value]), true);
      }
      var ok := Try(WithoutStaging(apps, pid).(destination := Some(staged)), true);
      if ok {
        Perform(WithoutBackup(apps, pid), false);
        if running {
          installed := true;
        }
      } else if hadExisting && running && pid in apps.backup {
        Perform(WithoutBackup(apps, pid).(destination := Some(apps.backup[pid])), true);
      }
      running := false;
    }

    /** Everything proved of `Install` holds of this method. */
    method InstallApp(pid: nat, source: App, faithful: bool)
      modifies this
      ensures Now() == Install(old(Now()), pid, source, faithful)
    {
      if !source.verified || (apps.destination.Some? && !NotDowngrade(apps.destination.value, source)) {
        running := false;
        return;
      }
      Perform(WithoutStaging(apps, pid), false);
      Perform(WithoutBackup(apps, pid), false);
      var copied := if faithful then source else source.(verified := false);
      var ok := Try(apps.(staging := apps.staging[pid := copied]), false);
      if !ok || !copied.verified {
        Perform(WithoutStaging(apps, pid), false);
        running := false;
      } else {
        ActivateStaged(pid);
      }
    }
  }
}
