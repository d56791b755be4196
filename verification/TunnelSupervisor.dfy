/** The supervisor that keeps one SSH tunnel of a port forward alive, as a log of what it does and sees. */
module TunnelSupervisor {
  import opened Prelude

  const FIRST_DELAY := 250
  const LAST_DELAY := 10_000

  function Min(a: nat, b: nat): nat {
    if a <= b then a else b
  }

  // ---- What the surroundings answer

  /** The server's answer to a request for a connection token. */
  datatype Grant = GrantToken | Deny(terminal: bool)

  /** Why an SSH attempt fails: the node's refusal carries its error code, when it sends one. */
  datatype Failure = Breaks | JobFails | Refuses(code: Option<string>) | Mismatches

  datatype Connect = TimesOut | Fails(failure: Failure) | Connects

  datatype Probe = Finishes(ready: bool) | EndsFirst | StopsProbe

  datatype Hold = EndsLater | StopsHold

  /** The answers during one turn of the loop, in the order in which they can be asked for. */
  datatype Turn = Turn(
    stopped: bool, grant: Grant, stoppedAfterError: bool,
    connect: Connect, probe: Probe, hold: Hold, stoppedWaiting: bool)

  predicate IsTerminalCode(code: string) {
    code in ["AUTH_INVALID", "AUTH_EXPIRED", "AUTH_REDEEMED", "DEVICE_REVOKED", "SESSION_NOT_RUNNING",
             "SESSION_MISMATCH", "NODE_MISMATCH", "PORT_NOT_ALLOWED", "POLICY_LIMIT", "TUNNEL_EXPIRED",
             "PROTOCOL_UNSUPPORTED"]
  }

  /** Whether a failed attempt must not be repeated; a refusal without a code counts as invalid authorization. */
  predicate IsTerminal(f: Failure) {
    match f
    case Breaks => false
    case JobFails => true
    case Refuses(code) => IsTerminalCode(if code.Some? then code.value else "AUTH_INVALID")
    case Mismatches => true
  }

  datatype Outcome = Running | Stopped | GaveUp

  /** What one turn comes to; the first turn already has its token. */
  function Verdict(turn: Turn, first: bool): Outcome {
    if turn.stopped then Stopped
    else if !first && turn.grant.Deny? then
      if turn.stoppedAfterError then Stopped else if turn.grant.terminal then GaveUp else After(turn)
    else if turn.connect.Fails? && IsTerminal(turn.connect.failure) then GaveUp
    else if turn.connect.Connects?
            && (turn.probe.StopsProbe? || (turn.probe.Finishes? && turn.hold.StopsHold?)) then Stopped
    else After(turn)
  }

  /** The result of the probe, if the attempt of the turn gets that far. */
  function Finished(turn: Turn): Option<bool> {
    if turn.connect.Connects? && turn.probe.Finishes? then Some(turn.probe.ready) else None
  }

  /** The turn has a token and is not stopped first. */
  predicate Attempting(turn: Turn, first: bool) {
    !turn.stopped && (first || turn.grant.GrantToken?)
  }

  /** The first probe result of the turns. */
  function FirstProbe(turns: seq<Turn>): Option<bool> {
    if turns == [] then None
    else
      var earlier, last := FirstProbe(turns[..|turns| - 1]), turns[|turns| - 1];
      if earlier.Some? || !Attempting(last, |turns| == 1) then earlier else Finished(last)
  }

  /** How many of the turns attempt a connection. */
  function Tried(turns: seq<Turn>): nat {
    if turns == [] then 0
    else Tried(turns[..|turns| - 1]) + if Attempting(turns[|turns| - 1], |turns| == 1) then 1 else 0
  }

  lemma NextTurn(turns: seq<Turn>, i: nat)
    requires i < |turns|
    ensures var earlier := FirstProbe(turns[..i]);
            FirstProbe(turns[..i + 1])
            == if earlier.Some? || !Attempting(turns[i], i == 0) then earlier else Finished(turns[i])
    ensures Tried(turns[..i + 1]) == Tried(turns[..i]) + if Attempting(turns[i], i == 0) then 1 else 0
  {
    assert turns[..i + 1][..i] == turns[..i];
  }

  function After(turn: Turn): Outcome {
    if turn.stoppedWaiting then Stopped else Running
  }

  /** What ends the tunnel for good: broken pipes and refusals with a passing cause do not. */
  lemma LastingFailures()
    ensures !IsTerminal(Breaks) && IsTerminal(JobFails) && IsTerminal(Mismatches)
    ensures IsTerminal(Refuses(None)) && IsTerminalCode("AUTH_INVALID") && IsTerminalCode("AUTH_EXPIRED")
    ensures IsTerminalCode("AUTH_REDEEMED") && IsTerminalCode("DEVICE_REVOKED") && IsTerminalCode("SESSION_NOT_RUNNING")
    ensures IsTerminalCode("SESSION_MISMATCH") && IsTerminalCode("NODE_MISMATCH") && IsTerminalCode("PORT_NOT_ALLOWED")
    ensures IsTerminalCode("POLICY_LIMIT") && IsTerminalCode("TUNNEL_EXPIRED") && IsTerminalCode("PROTOCOL_UNSUPPORTED")
    ensures !IsTerminal(Refuses(Some("NODE_BUSY")))
  {
    var code := "NODE_BUSY";
    assert |code| == 9;
    assert |"AUTH_INVALID"| == 12 && |"AUTH_EXPIRED"| == 12 && |"AUTH_REDEEMED"| == 13 && |"DEVICE_REVOKED"| == 14;
    assert |"SESSION_NOT_RUNNING"| == 19 && |"SESSION_MISMATCH"| == 16 && |"NODE_MISMATCH"| == 13;
    assert |"PORT_NOT_ALLOWED"| == 16 && |"POLICY_LIMIT"| == 12 && |"TUNNEL_EXPIRED"| == 14;
    assert |"PROTOCOL_UNSUPPORTED"| == 20;
  }

  /** A shutdown is heard wherever the turn listens for it, and a turn stops for nothing else; it gives up exactly on a
      lasting refusal of a token or a lasting failure of its attempt. */
  lemma ShutdownHeard(turn: Turn, first: bool)
    ensures turn.stopped || turn.stoppedWaiting ==> !Verdict(turn, first).Running?
    ensures turn.stopped ==> Verdict(turn, first).Stopped?
    ensures Attempting(turn, first) && turn.connect.Connects? && turn.probe.StopsProbe? ==>
              Verdict(turn, first).Stopped?
    ensures Attempting(turn, first) && Finished(turn).Some? && turn.hold.StopsHold? ==> Verdict(turn, first).Stopped?
    ensures !turn.stopped && !first && turn.grant.Deny? && turn.stoppedAfterError ==> Verdict(turn, first).Stopped?
    ensures Verdict(turn, first).Stopped? ==>
              turn.stopped || turn.stoppedAfterError || turn.stoppedWaiting || turn.probe.StopsProbe?
              || turn.hold.StopsHold?
    ensures Verdict(turn, first).GaveUp?
            <==> if Attempting(turn, first) then turn.connect.Fails? && IsTerminal(turn.connect.failure)
                 else !turn.stopped && !turn.stoppedAfterError && turn.grant == Deny(true)
  {
  }

  // ---- What happens

  /** Tokens are numbered: 0 came with the forward, n is the n-th granted afterwards. */
  datatype Event =
    | Requested | Granted | Denied(terminal: bool)
    | Attempted(token: nat) | TimedOut | Failed(terminal: bool) | Connected
    | Probed(ready: bool) | EndedEarly
    | Published | InitialProbe(ready: bool) | Ended | Withdrawn
    | StopSeen | Waited(delay: nat) | Reported

  datatype Log = Start | Then(before: Log, event: Event)

  /** Waits since the shared sender was last published, or since the start. */
  ghost function Waits(log: Log): nat {
    match log
    case Start => 0
    case Then(before, event) =>
      if event.Published? then 0 else if event.Waited? then Waits(before) + 1 else Waits(before)
  }

  ghost function Grants(log: Log): nat {
    match log
    case Start => 0
    case Then(before, event) => Grants(before) + if event.Granted? then 1 else 0
  }

  ghost function Uses(log: Log, token: nat): nat {
    match log
    case Start => 0
    case Then(before, event) => Uses(before, token) + if event == Attempted(token) then 1 else 0
  }

  ghost function InitialProbes(log: Log): nat {
    match log
    case Start => 0
    case Then(before, event) => InitialProbes(before) + if event.InitialProbe? then 1 else 0
  }

  /** The result that was sent of the initial probe, if any was. */
  ghost function Announced(log: Log): Option<bool> {
    match log
    case Start => None
    case Then(before, event) => if event.InitialProbe? then Some(event.ready) else Announced(before)
  }

  ghost function Attempts(log: Log): nat {
    match log
    case Start => 0
    case Then(before, event) => Attempts(before) + if event.Attempted? then 1 else 0
  }

  /** The shared sender is available to local connections. */
  ghost predicate Present(log: Log) {
    match log
    case Start => false
    case Then(before, event) => event.Published? || (!event.Withdrawn? && Present(before))
  }

  ghost predicate Occurred(log: Log, event: Event) {
    match log
    case Start => false
    case Then(before, last) => last == event || Occurred(before, event)
  }

  /** The retry delay after `n` waits in a row. */
  function Backoff(n: nat): nat {
    if n == 0 then FIRST_DELAY else Min(Backoff(n - 1) * 2, LAST_DELAY)
  }

  function Doubled(n: nat): nat {
    if n == 0 then FIRST_DELAY else 2 * Doubled(n - 1)
  }

  /** The delay doubles from 250 ms up to 10 s. */
  lemma {:induction false} BackoffLaw(n: nat)
    ensures Doubled(0) == 250 && Backoff(n) == Min(Doubled(n), 10_000)
    ensures 250 <= Backoff(n) <= 10_000
  {
    if n > 0 {
      BackoffLaw(n - 1);
    }
  }

  /** Whether `event` may follow `log`, judged by the last thing that happened. */
  ghost predicate MayFollow(log: Log, event: Event) {
    match event
    case Requested => log.Then? && log.event.Waited?
    case Granted => log.Then? && log.event.Requested?
    case Denied(_) => log.Then? && log.event.Requested?
    case Attempted(token) => if log.Start? then token == 0 else log.event.Granted? && token == Grants(log)
    case TimedOut => log.Then? && log.event.Attempted?
    case Failed(_) => log.Then? && log.event.Attempted?
    case Connected => log.Then? && log.event.Attempted?
    case Probed(_) => log.Then? && log.event.Connected?
    case EndedEarly => log.Then? && log.event.Connected?
    case Published => log.Then? && log.event.Probed?
    case InitialProbe(ready) =>
      log.Then? && log.event.Published? && InitialProbes(log) == 0 && log.before.Then?
      && log.before.event == Probed(ready)
    case Ended => log.Then? && (log.event.InitialProbe? || (log.event.Published? && InitialProbes(log) > 0))
    case Withdrawn => log.Then? && (log.event.Ended? || (log.event.StopSeen? && Present(log)))
    case StopSeen =>
      log.Start? || log.event.Waited? || log.event.Denied? || log.event.Connected? || log.event.InitialProbe?
      || (log.event.Published? && InitialProbes(log) > 0) || MustRetry(log)
    case Waited(delay) => MustRetry(log) && delay == Backoff(Waits(log))
    case Reported => log.Then? && (log.event == Denied(true) || log.event == Failed(true))
  }

  /** The last thing that happened ends a turn without ending the tunnel. */
  ghost predicate MustRetry(log: Log) {
    log.Then? && (log.event == Denied(false) || log.event == Failed(false) || log.event.TimedOut?
                  || log.event.EndedEarly? || (log.event.Withdrawn? && log.before.Then? && log.before.event.Ended?))
  }

  ghost predicate Lawful(log: Log) {
    match log
    case Start => true
    case Then(before, event) => Lawful(before) && MayFollow(before, event)
  }

  /** The log one event later. */
  function Extended(log: Log, event: Event): (r: Log)
    requires Lawful(log) && MayFollow(log, event)
    ensures Lawful(r) && r == Then(log, event)
    ensures Present(r) <==> event.Published? || (!event.Withdrawn? && Present(log))
    ensures Waits(r) == if event.Published? then 0 else Waits(log) + if event.Waited? then 1 else 0
    ensures InitialProbes(r) == InitialProbes(log) + if event.InitialProbe? then 1 else 0
    ensures Grants(r) == Grants(log) + if event.Granted? then 1 else 0
    ensures Announced(r) == if event.InitialProbe? then Some(event.ready) else Announced(log)
    ensures Attempts(r) == Attempts(log) + if event.Attempted? then 1 else 0
  {
    Then(log, event)
  }

  /** How the log ends when the supervisor returns. */
  ghost predicate Concluded(log: Log, outcome: Outcome) {
    Lawful(log) && !Present(log)
    && match outcome
       case Running => log.Start? || log.event.Waited?
       case Stopped =>
         log.Then? && (log.event.StopSeen? || (log.event.Withdrawn? && log.before.Then? && log.before.event.StopSeen?))
       case GaveUp => log.Then? && log.event.Reported?
  }

  /** The pause before the next turn. */
  method Pause(soFar: Log, wait: nat, stopped: bool) returns (log: Log, outcome: Outcome, delay: nat)
    requires Lawful(soFar) && !Present(soFar) && MustRetry(soFar) && wait == Backoff(Waits(soFar))
    ensures log == if stopped then Then(soFar, StopSeen) else Then(soFar, Waited(wait))
    ensures Concluded(log, outcome) && outcome == if stopped then Stopped else Running
    ensures delay == Backoff(Waits(log))
    ensures InitialProbes(log) == InitialProbes(soFar) && Grants(log) == Grants(soFar)
    ensures Announced(log) == Announced(soFar) && Attempts(log) == Attempts(soFar)
  {
    delay := wait;
    if stopped {
      return Extended(soFar, StopSeen), Stopped, delay;
    }
    log := Extended(soFar, Waited(delay));
    delay := Min(delay * 2, LAST_DELAY);
    outcome := Running;
  }

  /** A probed connection: publish its sender, report the first probe, hold on until the end. */
  method KeepShared(soFar: Log, ready: bool, probeOwed: bool, hold: Hold) returns (log: Log, outcome: Outcome)
    requires Lawful(soFar) && !Present(soFar) && soFar.Then? && soFar.event == Probed(ready)
    requires probeOwed <==> InitialProbes(soFar) == 0
    ensures Lawful(log) && !Present(log) && Waits(log) == 0
    ensures InitialProbes(log) > 0 && Grants(log) == Grants(soFar) && Attempts(log) == Attempts(soFar)
    ensures Announced(log) == if probeOwed then Some(ready) else Announced(soFar)
    ensures if hold.StopsHold? then outcome == Stopped && Concluded(log, Stopped)
            else outcome == Running && MustRetry(log)
  {
    log := Extended(soFar, Published);
    if probeOwed {
      log := Extended(log, InitialProbe(ready));
    }
    log := Extended(log, if hold.StopsHold? then StopSeen else Ended);
    log := Extended(log, Withdrawn);
    outcome := if hold.StopsHold? then Stopped else Running;
  }

  /** A connection that was made: probe it, and share it if the probe finishes. */
  method UseConnection(soFar: Log, wait: nat, owed: bool, probe: Probe, hold: Hold)
    returns (log: Log, outcome: Outcome, delay: nat, probeOwed: bool)
    requires Lawful(soFar) && !Present(soFar) && soFar.Then? && soFar.event.Connected?
    requires wait == Backoff(Waits(soFar)) && (owed <==> InitialProbes(soFar) == 0)
    ensures Lawful(log) && !Present(log) && delay == Backoff(Waits(log)) && (probeOwed <==> InitialProbes(log) == 0)
    ensures Grants(log) == Grants(soFar)
    ensures Attempts(log) == Attempts(soFar)
    ensures Announced(log) == if owed && probe.Finishes? then Some(probe.ready) else Announced(soFar)
    ensures if outcome.Running? then MustRetry(log) else outcome.Stopped? && Concluded(log, Stopped)
    ensures outcome.Stopped? <==> probe.StopsProbe? || (probe.Finishes? && hold.StopsHold?)
  {
    log, delay, probeOwed, outcome := soFar, wait, owed, Running;
    match probe {
      case StopsProbe =>
        log, outcome := Extended(log, StopSeen), Stopped;
      case EndsFirst =>
        log := Extended(log, EndedEarly);
      case Finishes(ready) =>
        log := Extended(log, Probed(ready));
        delay := FIRST_DELAY;
        log, outcome := KeepShared(log, ready, probeOwed, hold);
        probeOwed := false;
    }
  }

  /** One SSH attempt, from the use of the token to the end of its connection. */
  method Attempt(soFar: Log, token: nat, wait: nat, owed: bool, turn: Turn)
    returns (log: Log, outcome: Outcome, delay: nat, probeOwed: bool)
    requires Lawful(soFar) && !Present(soFar) && MayFollow(soFar, Attempted(token))
    requires wait == Backoff(Waits(soFar)) && (owed <==> InitialProbes(soFar) == 0)
    ensures Lawful(log) && !Present(log) && delay == Backoff(Waits(log)) && (probeOwed <==> InitialProbes(log) == 0)
    ensures Grants(log) == Grants(soFar)
    ensures if outcome.Running? then MustRetry(log) else Concluded(log, outcome)
    ensures Attempts(log) == Attempts(soFar) + 1
    ensures Announced(log) == if owed && Finished(turn).Some? then Finished(turn) else Announced(soFar)
    ensures !turn.stopped ==> Verdict(turn, true) == if outcome.Running? then After(turn) else outcome
  {
    log, delay, probeOwed, outcome := Extended(soFar, Attempted(token)), wait, owed, Running;
    match turn.connect {
      case TimesOut =>
        log := Extended(log, TimedOut);
      case Connects =>
        log := Extended(log, Connected);
        log, outcome, delay, probeOwed := UseConnection(log, delay, probeOwed, turn.probe, turn.hold);
      case Fails(failure) =>
        log := Extended(log, Failed(IsTerminal(failure)));
        if IsTerminal(failure) {
          log, outcome := Extended(log, Reported), GaveUp;
        }
    }
  }

  /** A request for a token, in every turn but the first: granted, or the turn ends. */
  method Acquire(soFar: Log, wait: nat, turn: Turn) returns (log: Log, outcome: Outcome, delay: nat)
    requires Lawful(soFar) && !Present(soFar) && soFar.Then? && soFar.event.Waited? && wait == Backoff(Waits(soFar))
    ensures InitialProbes(log) == InitialProbes(soFar) && Announced(log) == Announced(soFar)
    ensures Attempts(log) == Attempts(soFar) && delay == Backoff(Waits(log))
    ensures if turn.grant.GrantToken? then
              Lawful(log) && !Present(log) && log.Then? && log.event.Granted? && Grants(log) == Grants(soFar) + 1
            else
              Concluded(log, outcome) && log.Then? && Grants(log) == Grants(soFar)
              && (!turn.stopped ==> outcome == Verdict(turn, false))
  {
    log, outcome, delay := Extended(soFar, Requested), Running, wait;
    match turn.grant {
      case GrantToken =>
        log := Extended(log, Granted);
      case Deny(terminal) =>
        log := Extended(log, Denied(terminal));
        if turn.stoppedAfterError {
          return Extended(log, StopSeen), Stopped, delay;
        }
        if terminal {
          return Extended(log, Reported), GaveUp, delay;
        }
        log, outcome, delay := Pause(log, delay, turn.stoppedWaiting);
    }
  }

  /** One turn of the loop. */
  method TakeTurn(soFar: Log, token: nat, wait: nat, owed: bool, turn: Turn, first: bool)
    returns (log: Log, outcome: Outcome, delay: nat, probeOwed: bool, granted: nat)
    requires Concluded(soFar, Running) && (first <==> soFar.Start?) && token == Grants(soFar)
    requires wait == Backoff(Waits(soFar)) && (owed <==> InitialProbes(soFar) == 0)
    ensures Concluded(log, outcome) && log.Then? && outcome == Verdict(turn, first)
    ensures delay == Backoff(Waits(log)) && granted == Grants(log) && (probeOwed <==> InitialProbes(log) == 0)
    ensures Attempts(log) == Attempts(soFar) + if Attempting(turn, first) then 1 else 0
    ensures Announced(log)
         == if owed && Attempting(turn, first) && Finished(turn).Some? then Finished(turn) else Announced(soFar)
  {
    log, outcome, delay, probeOwed, granted := soFar, Running, wait, owed, token;
    if turn.stopped {
      return Extended(log, StopSeen), Stopped, delay, probeOwed, granted;
    }
    if !first {
      log, outcome, delay := Acquire(log, delay, turn);
      if turn.grant.Deny? {
        return;
      }
      granted := granted + 1;
    }
    log, outcome, delay, probeOwed := Attempt(log, granted, delay, probeOwed, turn);
    if outcome.Running? {
      log, outcome, delay := Pause(log, delay, turn.stoppedWaiting);
    }
  }

  /** The supervisor. `turns` are the answers of as many turns of the loop as are looked at, `taken` the number of turns
      it took: up to the first one that decides.  It attempts a connection in every turn that has a token, and announces
      the result of the first probe that finishes. */
  method Supervise(turns: seq<Turn>) returns (log: Log, outcome: Outcome, delay: nat, taken: nat)
    ensures Concluded(log, outcome)
    ensures delay == Backoff(Waits(log))
    ensures taken <= |turns| && forall i :: 0 <= i < taken - 1 ==> Verdict(turns[i], i == 0).Running?
    ensures if taken == 0 then outcome.Running? else Verdict(turns[taken - 1], taken == 1) == outcome
    ensures outcome.Running? ==> taken == |turns|
    ensures Announced(log) == FirstProbe(turns[..taken]) && Attempts(log) == Tried(turns[..taken])
  {
    log, outcome, delay, taken := Start, Running, FIRST_DELAY, 0;
    var granted, probeOwed := 0, true;
    while outcome.Running? && taken < |turns|
      invariant taken <= |turns| && Concluded(log, outcome) && (log.Start? <==> taken == 0)
      invariant forall j :: 0 <= j < taken - 1 ==> Verdict(turns[j], j == 0).Running?
      invariant if taken == 0 then outcome.Running? else Verdict(turns[taken - 1], taken == 1) == outcome
      invariant probeOwed <==> InitialProbes(log) == 0
      invariant probeOwed <==> Announced(log).None?
      invariant granted == Grants(log) && delay == Backoff(Waits(log))
      invariant Announced(log) == FirstProbe(turns[..taken]) && Attempts(log) == Tried(turns[..taken])
      decreases |turns| - taken
    {
      NextTurn(turns, taken);
      log, outcome, delay, probeOwed, granted := TakeTurn(log, granted, delay, probeOwed, turns[taken], taken == 0);
      AnnouncedOnce(log);
      taken := taken + 1;
    }
  }

  lemma {:induction false} AnnouncedOnce(log: Log)
    ensures Announced(log).None? <==> InitialProbes(log) == 0
  {
    if log.Then? {
      AnnouncedOnce(log.before);
    }
  }

  // ---- What every lawful log satisfies

  /** Every wait, anywhere in the log, lasts between 250 ms and 10 s. */
  lemma {:induction false} WaitsBounded(log: Log, delay: nat)
    requires Lawful(log) && Occurred(log, Waited(delay))
    ensures 250 <= delay <= 10_000
  {
    if log.event == Waited(delay) {
      BackoffLaw(Waits(log.before));
    } else {
      WaitsBounded(log.before, delay);
    }
  }

  lemma {:induction false} LaterTokensUnused(log: Log, token: nat)
    requires Lawful(log)
    ensures token > Grants(log) ==> Uses(log, token) == 0
    ensures log.Then? && log.event.Granted? ==> Uses(log, Grants(log)) == 0
  {
    if log.Then? {
      LaterTokensUnused(log.before, token);
      LaterTokensUnused(log.before, Grants(log));
    }
  }

  /** No connection token serves two SSH attempts. */
  lemma {:induction false} TokenUsedOnce(log: Log, token: nat)
    requires Lawful(log)
    ensures Uses(log, token) <= 1
  {
    if log.Then? {
      TokenUsedOnce(log.before, token);
      LaterTokensUnused(log.before, token);
    }
  }

  /** The result of the initial probe is sent at most once, and the sender has been published by then. */
  lemma {:induction false} InitialProbeOnce(log: Log)
    requires Lawful(log)
    ensures InitialProbes(log) <= 1
    ensures InitialProbes(log) == 1 ==> Occurred(log, Published)
  {
    if log.Then? {
      InitialProbeOnce(log.before);
    }
  }

  /** While the sender is shared, its probe has finished and nothing is requested, attempted, waited for or reported:
      the last event is the publication, its initial probe, or what is about to end it. */
  lemma {:induction false} SharedOnlyWhileConnected(log: Log)
    requires Lawful(log) && Present(log)
    ensures match log.event
            case Published => log.before.Then? && log.before.event.Probed? && !Present(log.before)
            case InitialProbe(_) => true
            case Ended => true
            case StopSeen => true
            case _ => false
  {
    if log.event.Published? {
      if Present(log.before) {
        SharedOnlyWhileConnected(log.before);
      }
    } else {
      SharedOnlyWhileConnected(log.before);
    }
  }

  /** A terminal error is reported and is the last thing that happens. */
  lemma {:induction false} NothingAfterReport(log: Log)
    requires Lawful(log) && Occurred(log, Reported)
    ensures log.event == Reported
    ensures log.before.Then? && (log.before.event == Denied(true) || log.before.event == Failed(true))
  {
    if log.event != Reported {
      NothingAfterReport(log.before);
    }
  }
}
