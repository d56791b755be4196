/** Concurrent updates of the per-tool default account: any number of `set` and `clear` calls, in any number of
    processes, interleaved step by step with changes of the client configuration. */
module AccountDefaults {
  import opened Prelude

  /** The part of the configuration a default is chosen under. */
  datatype Context = Context(server: Option<nat>, device: Option<nat>)

  datatype Snapshot = Snapshot(context: Context, tool: nat, account: Option<nat>)

  /** One call; `expected` is the snapshot that its caller has confirmed, if any. */
  datatype Call = Call(tool: nat, clear: bool, expected: Option<Snapshot>)

  datatype Fault =
    | ConfigurationUnavailable | ConfigurationChanged | StateUnavailable | DefaultChanged
    | AuthenticationRequired | RemoteFailed | OutcomeUnknown | Died

  datatype Result =
    | Refused(fault: Fault)
    | Outcome(context: Context, tool: nat, previous: Option<nat>, account: Option<nat>, changed: bool)

  /** Where a call stands. `reviewed` is what the caller agreed to: the confirmed snapshot, or else the first one
      taken; `current` is the snapshot taken under the login lock. */
  datatype Phase =
    | FirstContext
    | FirstValue(context: Context)
    | FirstCheck(context: Context, account: Option<nat>)
    | Locking(reviewed: Snapshot)
    | SecondContext(reviewed: Snapshot)
    | SecondValue(reviewed: Snapshot, context: Context)
    | SecondCheck(reviewed: Snapshot, context: Context, account: Option<nat>)
    | Resolving(reviewed: Snapshot, current: Snapshot)
    | Publishing(reviewed: Snapshot, current: Snapshot, next: Option<nat>)
    | Comparing(reviewed: Snapshot, current: Snapshot, next: Option<nat>)
    | Swapping(reviewed: Snapshot, current: Snapshot, next: Option<nat>)
    | Over(result: Result)

  datatype Process = Process(call: Call, phase: Phase)

  /** One change of a stored default: by which call, from what to what, and the configuration at that moment. */
  datatype Change = Change(author: nat, tool: nat, previous: Option<nat>, next: Option<nat>, during: Context,
                           reviewed: Snapshot)

  datatype History = Begun | Then(before: History, change: Change)

  datatype State = State(
    context: Context, defaults: map<nat, nat>, calls: map<nat, Process>,
    login: Option<nat>, config: Option<nat>, history: History)

  /** What the surroundings do with one step of a call. `Lost` concerns the swap alone: the transaction is committed
      but its success is not learnt. */
  datatype Reply = Fine | Fails | Resolved(account: nat) | Lost

  datatype Action =
    | Begin(id: nat, call: Call)
    | Advance(id: nat, reply: Reply)
    | Kill(id: nat)
    | Configure(context: Context)

  function Stored(defaults: map<nat, nat>, tool: nat): Option<nat> {
    if tool in defaults then Some(defaults[tool]) else None
  }

  function Store(defaults: map<nat, nat>, tool: nat, value: Option<nat>): map<nat, nat> {
    if value.Some? then defaults[tool := value.value] else map t | t in defaults && t != tool :: defaults[t]
  }

  function Verify(current: Snapshot, expected: Snapshot): Option<Fault> {
    if current.context != expected.context then Some(ConfigurationChanged)
    else if current.account != expected.account || current.tool != expected.tool then Some(DefaultChanged)
    else None
  }

  function Moved(s: State, id: nat, phase: Phase): State
    requires id in s.calls
  {
    s.(calls := s.calls[id := s.calls[id].(phase := phase)])
  }

  /** Ends a call, releasing the locks it holds. */
  function Finished(s: State, id: nat, result: Result): State
    requires id in s.calls
  {
    Moved(s, id, Over(result)).(
      login := if s.login == Some(id) then None else s.login,
      config := if s.config == Some(id) then None else s.config)
  }

  function OutcomeOf(current: Snapshot, next: Option<nat>): Result {
    Outcome(current.context, current.tool, current.account, next, current.account != next)
  }

  function Advanced(s: State, id: nat, reply: Reply): (r: State)
    requires id in s.calls
    ensures id in r.calls
  {
    var call := s.calls[id].call;
    match s.calls[id].phase
    case FirstContext =>
      if reply.Fails? then Finished(s, id, Refused(ConfigurationUnavailable)) else Moved(s, id, FirstValue(s.context))
    case FirstValue(context) =>
      if reply.Fails? then Finished(s, id, Refused(StateUnavailable))
      else Moved(s, id, FirstCheck(context, Stored(s.defaults, call.tool)))
    case FirstCheck(context, account) =>
      if reply.Fails? then Finished(s, id, Refused(ConfigurationUnavailable))
      else if s.context != context then Finished(s, id, Refused(ConfigurationChanged))
      else
        var initial := Snapshot(context, call.tool, account);
        var fault := if call.expected.Some? then Verify(initial, call.expected.value) else None;
        if fault.Some? then Finished(s, id, Refused(fault.value))
        else Moved(s, id, Locking(if call.expected.Some? then call.expected.value else initial))
    case Locking(reviewed) =>
      if reply.Fails? then Finished(s, id, Refused(StateUnavailable))
      else if s.login.Some? then s
      else Moved(s, id, SecondContext(reviewed)).(login := Some(id))
    case SecondContext(reviewed) =>
      if reply.Fails? then Finished(s, id, Refused(ConfigurationUnavailable))
      else Moved(s, id, SecondValue(reviewed, s.context))
    case SecondValue(reviewed, context) =>
      if reply.Fails? then Finished(s, id, Refused(StateUnavailable))
      else Moved(s, id, SecondCheck(reviewed, context, Stored(s.defaults, call.tool)))
    case SecondCheck(reviewed, context, account) =>
      if reply.Fails? then Finished(s, id, Refused(ConfigurationUnavailable))
      else if s.context != context then Finished(s, id, Refused(ConfigurationChanged))
      else
        var current := Snapshot(context, call.tool, account);
        var fault := Verify(current, reviewed);
        if fault.Some? then Finished(s, id, Refused(fault.value))
        else if call.clear then Moved(s, id, Publishing(reviewed, current, None))
        else Moved(s, id, Resolving(reviewed, current))
    case Resolving(reviewed, current) =>
      if current.context.server.None? || current.context.device.None? then
        Finished(s, id, Refused(AuthenticationRequired))
      else if !reply.Resolved? then Finished(s, id, Refused(RemoteFailed))
      else Moved(s, id, Publishing(reviewed, current, Some(reply.account)))
    case Publishing(reviewed, current, next) =>
      if reply.Fails? || s.config.Some? then Finished(s, id, Refused(ConfigurationUnavailable))
      else Moved(s, id, Comparing(reviewed, current, next)).(config := Some(id))
    case Comparing(reviewed, current, next) =>
      if reply.Fails? then Finished(s, id, Refused(ConfigurationUnavailable))
      else if s.context != current.context then Finished(s, id, Refused(ConfigurationChanged))
      else Moved(s, id, Swapping(reviewed, current, next))
    case Swapping(reviewed, current, next) =>
      if reply.Fails? then
        Finished(s, id, Refused(if current.account != next then OutcomeUnknown else StateUnavailable))
      else if Stored(s.defaults, current.tool) != current.account then Finished(s, id, Refused(DefaultChanged))
      else if current.account == next then Finished(s, id, OutcomeOf(current, next))
      else
        var change := Change(id, current.tool, current.account, next, s.context, reviewed);
        var written := s.(defaults := Store(s.defaults, current.tool, next), history := Then(s.history, change));
        Finished(written, id, if reply.Lost? then Refused(OutcomeUnknown) else OutcomeOf(current, next))
    case Over(_) => s
  }

  /** A new configuration is written under the configuration lock. */
  function Step(s: State, a: Action): State {
    match a
    case Begin(id, call) => if id in s.calls then s else s.(calls := s.calls[id := Process(call, FirstContext)])
    case Advance(id, reply) => if id in s.calls then Advanced(s, id, reply) else s
    case Kill(id) => if id in s.calls && !s.calls[id].phase.Over? then Finished(s, id, Refused(Died)) else s
    case Configure(context) => if s.config.Some? then s else s.(context := context)
  }

  function Run(s: State, actions: seq<Action>): State
    decreases |actions|
  {
    if actions == [] then s else Run(Step(s, actions[0]), actions[1..])
  }

  function Fresh(context: Context, defaults: map<nat, nat>): State {
    State(context, defaults, map[], None, None, Begun)
  }

  // ---- An undisturbed call

  /** No lock is held, and the call may go by what is stored now. */
  predicate Undisturbed(s: State, call: Call) {
    && s.login.None? && s.config.None?
    && (call.expected.Some? ==>
          call.expected.value == Snapshot(s.context, call.tool, Stored(s.defaults, call.tool)))
  }

  function Now(s: State, tool: nat): Snapshot {
    Snapshot(s.context, tool, Stored(s.defaults, tool))
  }

  lemma Reviewed(s: State, id: nat, call: Call)
    requires id in s.calls && s.calls[id] == Process(call, FirstContext) && Undisturbed(s, call)
    ensures var a := Advanced(Advanced(Advanced(s, id, Fine), id, Fine), id, Fine);
            a == Moved(s, id, Locking(Now(s, call.tool)))
  {
    var a := Advanced(s, id, Fine);
    assert a == Moved(s, id, FirstValue(s.context));
    var b := Advanced(a, id, Fine);
    assert b.calls == s.calls[id := Process(call, FirstCheck(s.context, Stored(s.defaults, call.tool)))];
  }

  lemma Rechecked(s: State, id: nat, call: Call)
    requires id in s.calls && s.calls[id] == Process(call, Locking(Now(s, call.tool))) && s.login.None?
    ensures var a := Advanced(Advanced(Advanced(Advanced(s, id, Fine), id, Fine), id, Fine), id, Fine);
            var now := Now(s, call.tool);
            var phase := if call.clear then Publishing(now, now, None) else Resolving(now, now);
            a == Moved(s, id, phase).(login := Some(id))
  {
    var now := Now(s, call.tool);
    var a := Advanced(s, id, Fine);
    assert a == Moved(s, id, SecondContext(now)).(login := Some(id));
    var b := Advanced(a, id, Fine);
    assert b.calls == s.calls[id := Process(call, SecondValue(now, s.context))];
    var c := Advanced(b, id, Fine);
    assert c.calls == s.calls[id := Process(call, SecondCheck(now, s.context, now.account))];
    var d := Advanced(c, id, Fine);
    assert d.calls == s.calls[id := d.calls[id]];
  }

  /** With both locks free, what was reviewed is published: stored, reported with the value it replaced, and recorded
      as a change if it is one. */
  lemma Published(s: State, id: nat, call: Call, next: Option<nat>)
    requires id in s.calls && s.login == Some(id) && s.config.None?
    requires var now := Now(s, call.tool); s.calls[id] == Process(call, Publishing(now, now, next))
    ensures var t := Advanced(Advanced(Advanced(s, id, Fine), id, Fine), id, Fine);
            var was := Stored(s.defaults, call.tool);
            && t.calls[id].phase == Over(Outcome(s.context, call.tool, was, next, was != next))
            && Stored(t.defaults, call.tool) == next
            && (forall other :: other != call.tool ==> Stored(t.defaults, other) == Stored(s.defaults, other))
            && t.login == None && t.config == None
            && t.history == if was == next then s.history
                            else Then(s.history, Change(id, call.tool, was, next, s.context, Now(s, call.tool)))
  {
    var now := Now(s, call.tool);
    var a := Advanced(s, id, Fine);
    assert a == Moved(s, id, Comparing(now, now, next)).(config := Some(id));
    var b := Advanced(a, id, Fine);
    assert b.calls == s.calls[id := Process(call, Swapping(now, now, next))];
  }

  /** A clear that nothing disturbs removes the default and says what it was. */
  lemma ClearPublishes(s: State, id: nat, call: Call)
    requires id in s.calls && s.calls[id] == Process(call, FirstContext) && Undisturbed(s, call) && call.clear
    ensures var a := Advanced(Advanced(Advanced(s, id, Fine), id, Fine), id, Fine);
            var b := Advanced(Advanced(Advanced(Advanced(a, id, Fine), id, Fine), id, Fine), id, Fine);
            var t := Advanced(Advanced(Advanced(b, id, Fine), id, Fine), id, Fine);
            var was := Stored(s.defaults, call.tool);
            t.calls[id].phase == Over(Outcome(s.context, call.tool, was, None, was != None))
            && Stored(t.defaults, call.tool) == None
  {
    Reviewed(s, id, call);
    var a := Moved(s, id, Locking(Now(s, call.tool)));
    Rechecked(a, id, call);
    var now := Now(s, call.tool);
    var b := Moved(a, id, Publishing(now, now, None)).(login := Some(id));
    Published(b, id, call, None);
  }

  /** A set that nothing disturbs stores the account it resolved, under a registered login only. */
  lemma SetPublishes(s: State, id: nat, call: Call, account: nat)
    requires id in s.calls && s.calls[id] == Process(call, FirstContext) && Undisturbed(s, call) && !call.clear
    ensures var a := Advanced(Advanced(Advanced(s, id, Fine), id, Fine), id, Fine);
            var b := Advanced(Advanced(Advanced(Advanced(a, id, Fine), id, Fine), id, Fine), id, Fine);
            var c := Advanced(b, id, Resolved(account));
            var was := Stored(s.defaults, call.tool);
            if s.context.server.None? || s.context.device.None? then
              c.calls[id].phase == Over(Refused(AuthenticationRequired)) && c.defaults == s.defaults
            else
              var t := Advanced(Advanced(Advanced(c, id, Fine), id, Fine), id, Fine);
              t.calls[id].phase == Over(Outcome(s.context, call.tool, was, Some(account), was != Some(account)))
              && Stored(t.defaults, call.tool) == Some(account)
  {
    Reviewed(s, id, call);
    var a := Moved(s, id, Locking(Now(s, call.tool)));
    Rechecked(a, id, call);
    var now := Now(s, call.tool);
    var b := Moved(a, id, Resolving(now, now)).(login := Some(id));
    if s.context.server.Some? && s.context.device.Some? {
      var c := Advanced(b, id, Resolved(account));
      assert c.calls == s.calls[id := Process(call, Publishing(now, now, Some(account)))];
      Published(c, id, call, Some(account));
    }
  }

  /** A process that dies takes nothing with it but its locks. */
  lemma DeathReleases(s: State, id: nat)
    requires id in s.calls && !s.calls[id].phase.Over?
    ensures var t := Step(s, Kill(id));
            && t.calls[id].phase == Over(Refused(Died)) && t.defaults == s.defaults && t.history == s.history
            && t.login != Some(id) && t.config != Some(id)
            && (s.login != Some(id) ==> t.login == s.login) && (s.config != Some(id) ==> t.config == s.config)
  {
  }

  /** A new call starts from the beginning, once; the configuration can change while no call publishes. */
  lemma BeginAndConfigure(s: State, id: nat, call: Call, context: Context)
    ensures Step(s, Begin(id, call)) == if id in s.calls then s else s.(calls := s.calls[id := Process(call,
                                                                                                       FirstContext)])
    ensures Step(s, Configure(context)).context == if s.config.None? then context else s.context
  {
  }

  /** A caller whose confirmed snapshot is out of date is refused at the first look, with the reason. */
  lemma StaleReviewRefused(s: State, id: nat, call: Call, context: Context, account: Option<nat>)
    requires id in s.calls && s.calls[id] == Process(call, FirstCheck(context, account)) && s.context == context
    requires call.expected.Some? && call.expected.value != Snapshot(context, call.tool, account)
    ensures var t := Advanced(s, id, Fine);
            && t.defaults == s.defaults && t.history == s.history
            && t.calls[id].phase == Over(Refused(if call.expected.value.context != context then ConfigurationChanged
                                                 else DefaultChanged))
  {
  }

  /** A configuration that changes between the two readings of a snapshot is noticed, at the first look and under the
      login lock. */
  lemma TornSnapshotRefused(s: State, id: nat, reviewed: Snapshot, context: Context, account: Option<nat>)
    requires id in s.calls && s.context != context
    requires s.calls[id].phase == FirstCheck(context, account)
             || s.calls[id].phase == SecondCheck(reviewed, context, account)
    ensures var t := Advanced(s, id, Fine);
            && t.calls[id].phase == Over(Refused(ConfigurationChanged))
            && t.defaults == s.defaults && t.history == s.history
  {
  }

  /** A swap whose success is not learnt is made, and reported as unknown rather than as done or as refused. */
  lemma LostSwapUnknown(s: State, id: nat, reviewed: Snapshot, current: Snapshot, next: Option<nat>)
    requires id in s.calls && s.calls[id].phase == Swapping(reviewed, current, next)
    requires Stored(s.defaults, current.tool) == current.account != next
    ensures var t := Advanced(s, id, Lost);
            && t.calls[id].phase == Over(Refused(OutcomeUnknown))
            && Stored(t.defaults, current.tool) == next
            && t.history == Then(s.history, Change(id, current.tool, current.account, next, s.context, reviewed))
  {
  }

  // ---- The chain of changes

  /** The value of a default after the recorded changes. */
  ghost function Latest(h: History, start: map<nat, nat>, tool: nat): Option<nat> {
    match h
    case Begun => Stored(start, tool)
    case Then(before, change) => if change.tool == tool then change.next else Latest(before, start, tool)
  }

  /** Each change replaces the value that was there with another one, as reviewed and under the reviewed
      configuration. */
  ghost predicate Chained(h: History, start: map<nat, nat>) {
    match h
    case Begun => true
    case Then(before, c) =>
      Chained(before, start)
      && c.previous == Latest(before, start, c.tool) && c.next != c.previous
      && c.reviewed == Snapshot(c.during, c.tool, c.previous)
  }

  ghost function ChangesBy(h: History, id: nat): nat {
    match h
    case Begun => 0
    case Then(before, c) => ChangesBy(before, id) + if c.author == id then 1 else 0
  }

  ghost predicate Recorded(h: History, c: Change) {
    match h
    case Begun => false
    case Then(before, last) => last == c || Recorded(before, c)
  }

  /** The history records a change by call `id` that is what `r` tells its caller. */
  ghost predicate Reported(h: History, id: nat, r: Result) {
    r.Outcome? && Recorded(h, Change(id, r.tool, r.previous, r.account, r.context,
                                     Snapshot(r.context, r.tool, r.previous)))
  }

  /** Every change was made by a call for it: its tool, its kind, and the snapshot it had confirmed, if it had one. */
  ghost predicate Agreed(h: History, calls: map<nat, Process>) {
    match h
    case Begun => true
    case Then(before, c) =>
      Agreed(before, calls) && c.author in calls
      && var call := calls[c.author].call;
         call.tool == c.tool && (call.clear <==> c.next.None?)
         && (call.expected.Some? ==> call.expected.value == c.reviewed)
  }

  lemma {:induction false} AgreedStays(h: History, calls: map<nat, Process>, later: map<nat, Process>)
    requires Agreed(h, calls) && forall id :: id in calls ==> id in later && later[id].call == calls[id].call
    ensures Agreed(h, later)
  {
    if h.Then? {
      AgreedStays(h.before, calls, later);
    }
  }

  /** What holds of one call in any state. */
  ghost predicate CallInv(p: Process, id: nat, context: Context, login: Option<nat>, config: Option<nat>, h: History) {
    && (p.phase.Over? && p.phase.result.Outcome? && p.phase.result.changed ==> Reported(h, id, p.phase.result))
    && (!p.phase.Over? ==> ChangesBy(h, id) == 0)
    && ChangesBy(h, id) <= 1
    && (HasReviewed(p.phase) ==>
          p.phase.reviewed.tool == p.call.tool && (p.call.expected.Some? ==> p.phase.reviewed == p.call.expected.value))
    && (HasCurrent(p.phase) ==> p.phase.current == p.phase.reviewed)
    && (p.phase.Publishing? || p.phase.Comparing? || p.phase.Swapping? ==> (p.call.clear <==> p.phase.next.None?))
    && (p.phase.Resolving? ==> !p.call.clear)
    && (HasReviewed(p.phase) && !p.phase.Locking? ==> login == Some(id))
    && (p.phase.Comparing? || p.phase.Swapping? ==> config == Some(id))
    && (p.phase.Swapping? ==> context == p.phase.current.context)
  }

  predicate HasReviewed(p: Phase) {
    !(p.FirstContext? || p.FirstValue? || p.FirstCheck? || p.Over?)
  }

  predicate HasCurrent(p: Phase) {
    p.Resolving? || p.Publishing? || p.Comparing? || p.Swapping?
  }

  ghost predicate Inv(s: State, start: map<nat, nat>) {
    && Chained(s.history, start) && Agreed(s.history, s.calls)
    && (forall tool :: Stored(s.defaults, tool) == Latest(s.history, start, tool))
    && (forall id :: id in s.calls ==> CallInv(s.calls[id], id, s.context, s.login, s.config, s.history))
    && (forall id :: id !in s.calls ==> ChangesBy(s.history, id) == 0)
  }

  /** A step of one call that changes no default. */
  lemma QuietStep(s: State, t: State, id: nat, start: map<nat, nat>)
    requires Inv(s, start) && id in s.calls && id in t.calls && t.calls == s.calls[id := t.calls[id]]
    requires t.history == s.history && t.defaults == s.defaults && t.context == s.context
    requires s.login.Some? && s.login != Some(id) ==> t.login == s.login
    requires s.config.Some? && s.config != Some(id) ==> t.config == s.config
    requires CallInv(t.calls[id], id, t.context, t.login, t.config, t.history)
    requires t.calls[id].call == s.calls[id].call
    ensures Inv(t, start)
  {
    AgreedStays(s.history, s.calls, t.calls);
    forall other | other in t.calls ensures CallInv(t.calls[other], other, t.context, t.login, t.config, t.history) {
      if other != id {
        assert CallInv(s.calls[other], other, s.context, s.login, s.config, s.history);
      }
    }
  }

  lemma SwapStep(s: State, t: State, id: nat, start: map<nat, nat>)
    requires Inv(s, start) && id in s.calls && s.calls[id].phase.Swapping?
    requires var p := s.calls[id].phase;
             Stored(s.defaults, p.current.tool) == p.current.account && p.current.account != p.next
             && t.history == Then(s.history,
                                  Change(id, p.current.tool, p.current.account, p.next, s.context, p.reviewed))
             && t.defaults == Store(s.defaults, p.current.tool, p.next)
             && id in t.calls && t.calls[id].call == s.calls[id].call && t.calls == s.calls[id := t.calls[id]]
             && t.context == s.context && t.login == None && t.config == None
             && (t.calls[id].phase == Over(OutcomeOf(p.current, p.next))
                 || t.calls[id].phase == Over(Refused(OutcomeUnknown)))
    ensures Inv(t, start)
  {
    var p := s.calls[id].phase;
    assert CallInv(s.calls[id], id, s.context, s.login, s.config, s.history);
    assert t.history.change.reviewed == Snapshot(s.context, p.current.tool, p.current.account);
    AgreedStays(s.history, s.calls, t.calls);
    forall tool ensures Stored(t.defaults, tool) == Latest(t.history, start, tool) {
      assert Stored(s.defaults, tool) == Latest(s.history, start, tool);
    }
    assert Stored(s.defaults, p.current.tool) == Latest(s.history, start, p.current.tool);
    forall other | other in t.calls ensures CallInv(t.calls[other], other, t.context, t.login, t.config, t.history) {
      if other != id {
        var q := s.calls[other];
        assert CallInv(q, other, s.context, s.login, s.config, s.history);
      }
    }
  }

  /** A call that ends without having changed anything, and reports no change. */
  lemma EndKeeps(s: State, id: nat, result: Result, start: map<nat, nat>)
    requires Inv(s, start) && id in s.calls && !s.calls[id].phase.Over?
    requires result.Outcome? ==> !result.changed
    ensures Inv(Finished(s, id, result), start)
  {
    assert CallInv(s.calls[id], id, s.context, s.login, s.config, s.history);
    QuietStep(s, Finished(s, id, result), id, start);
  }

  lemma MoveKeeps(s: State, t: State, id: nat, phase: Phase, start: map<nat, nat>)
    requires Inv(s, start) && id in s.calls && !phase.Over?
    requires t == Moved(s, id, phase).(login := t.login, config := t.config)
    requires (s.login.Some? ==> t.login == s.login) && (s.config.Some? ==> t.config == s.config)
    requires CallInv(Process(s.calls[id].call, phase), id, s.context, t.login, t.config, s.history)
    ensures Inv(t, start)
  {
    QuietStep(s, t, id, start);
  }

  lemma ReviewKeeps(s: State, id: nat, reply: Reply, start: map<nat, nat>)
    requires Inv(s, start) && id in s.calls && !HasReviewed(s.calls[id].phase) && !s.calls[id].phase.Over?
    ensures Inv(Advanced(s, id, reply), start)
  {
    var t := Advanced(s, id, reply);
    assert CallInv(s.calls[id], id, s.context, s.login, s.config, s.history);
    var next := t.calls[id].phase;
    if next.Over? {
      EndKeeps(s, id, next.result, start);
    } else if t != s {
      MoveKeeps(s, t, id, next, start);
    }
  }

  lemma RecheckKeeps(s: State, id: nat, reply: Reply, start: map<nat, nat>)
    requires Inv(s, start) && id in s.calls && HasReviewed(s.calls[id].phase) && !HasCurrent(s.calls[id].phase)
    ensures Inv(Advanced(s, id, reply), start)
  {
    var t := Advanced(s, id, reply);
    assert CallInv(s.calls[id], id, s.context, s.login, s.config, s.history);
    var next := t.calls[id].phase;
    if next.Over? {
      EndKeeps(s, id, next.result, start);
    } else if t != s {
      MoveKeeps(s, t, id, next, start);
    }
  }

  lemma PublishKeeps(s: State, id: nat, reply: Reply, start: map<nat, nat>)
    requires Inv(s, start) && id in s.calls && HasCurrent(s.calls[id].phase)
    ensures Inv(Advanced(s, id, reply), start)
  {
    var t := Advanced(s, id, reply);
    assert CallInv(s.calls[id], id, s.context, s.login, s.config, s.history);
    var next := t.calls[id].phase;
    if t.history != s.history {
      SwapStep(s, t, id, start);
    } else if next.Over? {
      EndKeeps(s, id, next.result, start);
    } else {
      MoveKeeps(s, t, id, next, start);
    }
  }

  lemma AdvanceKeeps(s: State, id: nat, reply: Reply, start: map<nat, nat>)
    requires Inv(s, start) && id in s.calls
    ensures Inv(Advanced(s, id, reply), start)
  {
    if s.calls[id].phase.Over? {
    } else if HasCurrent(s.calls[id].phase) {
      PublishKeeps(s, id, reply, start);
    } else if HasReviewed(s.calls[id].phase) {
      RecheckKeeps(s, id, reply, start);
    } else {
      ReviewKeeps(s, id, reply, start);
    }
  }

  /** Every step keeps the chain. */
  lemma StepKeeps(s: State, a: Action, start: map<nat, nat>)
    requires Inv(s, start)
    ensures Inv(Step(s, a), start)
  {
    match a
    case Begin(id, call) =>
      if id !in s.calls {
        var t := Step(s, a);
        assert ChangesBy(s.history, id) == 0;
        AgreedStays(s.history, s.calls, t.calls);
        forall other | other in t.calls
          ensures CallInv(t.calls[other], other, t.context, t.login, t.config, t.history)
        {
          if other != id {
            assert CallInv(s.calls[other], other, s.context, s.login, s.config, s.history);
          }
        }
      }
    case Advance(id, reply) =>
      if id in s.calls {
        AdvanceKeeps(s, id, reply, start);
      }
    case Kill(id) =>
      if id in s.calls && !s.calls[id].phase.Over? {
        EndKeeps(s, id, Refused(Died), start);
      }
    case Configure(context) =>
      if s.config.None? {
        forall id | id in s.calls ensures CallInv(s.calls[id], id, context, s.login, s.config, s.history) {
          assert CallInv(s.calls[id], id, s.context, s.login, s.config, s.history);
        }
      }
  }

  lemma {:induction false} RunKeeps(s: State, actions: seq<Action>, start: map<nat, nat>)
    requires Inv(s, start)
    ensures Inv(Run(s, actions), start)
    decreases |actions|
  {
    if actions != [] {
      StepKeeps(s, actions[0], start);
      RunKeeps(Step(s, actions[0]), actions[1..], start);
    }
  }

  /** Two calls never hold the login lock, and with it a snapshot to publish from, at the same time. */
  lemma OneAtATime(context: Context, start: map<nat, nat>, actions: seq<Action>, a: nat, b: nat)
    ensures var s := Run(Fresh(context, start), actions);
            a in s.calls && b in s.calls && HasCurrent(s.calls[a].phase) && HasCurrent(s.calls[b].phase) ==> a == b
  {
    assert Inv(Fresh(context, start), start);
    RunKeeps(Fresh(context, start), actions, start);
    var s := Run(Fresh(context, start), actions);
    if a in s.calls && b in s.calls {
      assert CallInv(s.calls[a], a, s.context, s.login, s.config, s.history);
      assert CallInv(s.calls[b], b, s.context, s.login, s.config, s.history);
    }
  }

  /** No update is lost. In every run from any stored defaults, the changes of each default form one chain from its
      first value to its present one, every change replacing the value its caller reviewed under the configuration it
      was reviewed under; no call changes anything twice; and every changing outcome is such a change. */
  lemma NoLostUpdate(context: Context, start: map<nat, nat>, actions: seq<Action>, id: nat)
    ensures var s := Run(Fresh(context, start), actions);
            Chained(s.history, start) && Agreed(s.history, s.calls)
            && (forall tool :: Stored(s.defaults, tool) == Latest(s.history, start, tool))
            && ChangesBy(s.history, id) <= 1
            && (id in s.calls && s.calls[id].phase.Over? && s.calls[id].phase.result.Outcome?
                && s.calls[id].phase.result.changed ==>
                  Reported(s.history, id, s.calls[id].phase.result))
  {
    assert Inv(Fresh(context, start), start);
    RunKeeps(Fresh(context, start), actions, start);
    var s := Run(Fresh(context, start), actions);
    if id in s.calls {
      assert CallInv(s.calls[id], id, s.context, s.login, s.config, s.history);
    }
  }
}
