/** The caller-key journal and the protocol run over it: reserve, one POST, observation by GET, compare
    and swap, guarded forget.  One caller key, any number of processes, a lossy network and crashes. */
module Journal {
  import opened Prelude

  /** Account import and runtime recovery can forget a record, and hold the login and configuration locks from before
      the reservation until the outcome is written.  Session stop and delete cannot forget and take no lock, but reject
      some requests before sending them and mark unknown outcomes and observations in the record. */
  datatype Protocol = Forgetting | Permanent

  datatype Phase = Reserved | Uncertain | Accepted | Rejected

  /** `intent` is the reviewed content; two reservations of one content are indistinguishable on disk. */
  datatype Record = Record(intent: nat, phase: Phase)

  datatype Fate = InFlight | Lost | Granted | Refused

  /** A POST and the reservation, counted from 1, that sent it. */
  datatype Post = Post(reservation: nat, fate: Fate)

  datatype Verdict = Accept | Reject | Unknown

  datatype Why = AfterRejection | AfterTerminal

  datatype Process =
    | Idle
    | Holding(reservation: nat, intent: nat)
    | Waiting(reservation: nat, intent: nat, post: nat)
    | Told(reservation: nat, intent: nat, verdict: Verdict)
    | Looking(record: Record)
    | Seen(record: Record)
    | Dropping(record: Record, why: Why)

  datatype Drop = Drop(reservation: nat, why: Why)

  /** `intents` are the contents of the reservations so far; `accepted` and `terminal` the contents the server has
      accepted the key for, and those whose work it has finished. */
  datatype State = State(
    record: Option<Record>, intents: seq<nat>, processes: seq<Process>, posts: seq<Post>,
    refusedLocally: set<nat>, accepted: set<nat>, terminal: set<nat>, drops: seq<Drop>)

  /** The content of reservation `r`. */
  function Content(intents: seq<nat>, r: nat): nat {
    if 1 <= r <= |intents| then intents[r - 1] else 0
  }

  function PostContent(s: State, k: nat): nat
    requires k < |s.posts|
  {
    Content(s.intents, s.posts[k].reservation)
  }

  datatype Action =
    | Reserve(process: nat, intent: nat)
    | Send(process: nat)
    | RefuseLocally(process: nat)
    | Lose(post: nat)
    | Grant(post: nat)
    | Refuse(post: nat)
    | Settle
    | Respond(process: nat)
    | GiveUp(process: nat)
    | Conclude(process: nat)
    | Look(process: nat)
    | Observe(process: nat)
    | Persist(process: nat)
    | PlanForget(process: nat, why: Why)
    | Forget(process: nat)
    | Crash(process: nat)

  function CompareAndSwap(stored: Option<Record>, original: Record, next: Record): Option<Record> {
    if stored == Some(original) then Some(next) else stored
  }

  // ---- the protocol ----

  function Fresh(n: nat): State {
    State(None, [], seq(n, i => Idle), [], {}, {}, {}, [])
  }

  predicate Refers(s: State, a: Action) {
    match a
    case Lose(k) => k < |s.posts| && s.posts[k].fate.InFlight?
    case Grant(k) => k < |s.posts| && s.posts[k].fate.InFlight?
    case Refuse(k) => k < |s.posts| && s.posts[k].fate.InFlight?
    case Settle => true
    case _ => a.process < |s.processes|
  }

  function With(s: State, i: nat, p: Process): State
    requires i < |s.processes|
  {
    s.(processes := s.processes[i := p])
  }

  function Decided(s: State, k: nat, fate: Fate): State
    requires k < |s.posts|
  {
    s.(posts := s.posts[k := s.posts[k].(fate := fate)])
  }

  function Outcome(p: Protocol, verdict: Verdict): Phase {
    match verdict
    case Accept => Accepted
    case Reject => Rejected
    case Unknown => if p.Permanent? then Uncertain else Reserved
  }

  predicate Active(p: Process) {
    p.Holding? || p.Waiting? || p.Told?
  }

  /** No process is between its reservation and the writing of its outcome. */
  predicate Unlocked(processes: seq<Process>) {
    forall i :: 0 <= i < |processes| ==> !Active(processes[i])
  }

  function OnReserve(p: Protocol, s: State, i: nat, intent: nat): State
    requires i < |s.processes|
  {
    if s.processes[i].Idle? && s.record.None? && (p.Permanent? || Unlocked(s.processes)) then
      With(s, i, Holding(|s.intents| + 1, intent)).(record := Some(Record(intent, Reserved)),
                                                    intents := s.intents + [intent])
    else s
  }

  function OnSend(s: State, i: nat): State
    requires i < |s.processes|
  {
    match s.processes[i]
    case Holding(r, intent) => With(s, i, Waiting(r, intent, |s.posts|)).(posts := s.posts + [Post(r, InFlight)])
    case _ => s
  }

  function OnRefuseLocally(p: Protocol, s: State, i: nat): State
    requires i < |s.processes|
  {
    match s.processes[i]
    case Holding(r, intent) =>
      if p.Permanent? then With(s, i, Told(r, intent, Reject)).(refusedLocally := s.refusedLocally + {r}) else s
    case _ => s
  }

  function OnRespond(s: State, i: nat): State
    requires i < |s.processes|
  {
    match s.processes[i]
    case Waiting(r, intent, k) =>
      if k < |s.posts| && s.posts[k].fate.Granted? then With(s, i, Told(r, intent, Accept))
      else if k < |s.posts| && s.posts[k].fate.Refused? then With(s, i, Told(r, intent, Reject))
      else s
    case _ => s
  }

  /** A timeout or a lost response. */
  function OnGiveUp(s: State, i: nat): State
    requires i < |s.processes|
  {
    match s.processes[i]
    case Waiting(r, intent, _) => With(s, i, Told(r, intent, Unknown))
    case _ => s
  }

  function OnConclude(p: Protocol, s: State, i: nat): State
    requires i < |s.processes|
  {
    match s.processes[i]
    case Told(_, intent, verdict) =>
      With(s, i, Idle).(record := CompareAndSwap(s.record, Record(intent, Reserved),
                                                 Record(intent, Outcome(p, verdict))))
    case _ => s
  }

  function OnLook(s: State, i: nat): State
    requires i < |s.processes|
  {
    if s.processes[i].Idle? && s.record.Some? then With(s, i, Looking(s.record.value)) else s
  }

  /** An exact-key GET counts only if its receipt carries the content of the record, so that content was accepted. */
  function OnObserve(s: State, i: nat): State
    requires i < |s.processes|
  {
    match s.processes[i]
    case Looking(r) => if r.intent in s.accepted then With(s, i, Seen(r)) else s
    case _ => s
  }

  /** Only stop and delete write an observation down. */
  function OnPersist(p: Protocol, s: State, i: nat): State
    requires i < |s.processes|
  {
    match s.processes[i]
    case Seen(r) =>
      if p.Permanent? then With(s, i, Idle).(record := CompareAndSwap(s.record, r, r.(phase := Accepted)))
      else With(s, i, Idle)
    case _ => s
  }

  /** A rejected record may go at once; any other only after a terminal observation of its key and content. */
  function OnPlanForget(p: Protocol, s: State, i: nat, why: Why): State
    requires i < |s.processes|
  {
    match s.processes[i]
    case Looking(r) =>
      if p.Forgetting? && (if why.AfterRejection? then r.phase.Rejected? else r.intent in s.terminal)
      then With(s, i, Dropping(r, why)) else s
    case _ => s
  }

  function OnForget(s: State, i: nat): State
    requires i < |s.processes|
  {
    match s.processes[i]
    case Dropping(r, why) =>
      if s.record == Some(r) then With(s, i, Idle).(record := None, drops := s.drops + [Drop(|s.intents|, why)])
      else With(s, i, Idle)
    case _ => s
  }

  /** The server accepts the key for the content of POST `k`. */
  function OnGrant(s: State, k: nat): State
    requires k < |s.posts|
  {
    Decided(s, k, Granted).(accepted := s.accepted + {PostContent(s, k)})
  }

  /** One action; an action that does not apply changes nothing.  The server may accept or definitely refuse any POST,
      also one for a content it has accepted or refused before. */
  function Step(p: Protocol, s: State, a: Action): State {
    if !Refers(s, a) then s
    else
      match a
      case Reserve(i, intent) => OnReserve(p, s, i, intent)
      case Send(i) => OnSend(s, i)
      case RefuseLocally(i) => OnRefuseLocally(p, s, i)
      case Lose(k) => Decided(s, k, Lost)
      case Grant(k) => OnGrant(s, k)
      case Refuse(k) => Decided(s, k, Refused)
      case Settle => s.(terminal := s.accepted)
      case Respond(i) => OnRespond(s, i)
      case GiveUp(i) => OnGiveUp(s, i)
      case Conclude(i) => OnConclude(p, s, i)
      case Look(i) => OnLook(s, i)
      case Observe(i) => OnObserve(s, i)
      case Persist(i) => OnPersist(p, s, i)
      case PlanForget(i, why) => OnPlanForget(p, s, i, why)
      case Forget(i) => OnForget(s, i)
      case Crash(i) => With(s, i, Idle)
  }

  function Run(p: Protocol, s: State, actions: seq<Action>): State
    decreases |actions|
  {
    if actions == [] then s else Run(p, Step(p, s, actions[0]), actions[1..])
  }

  // ---- what every run keeps ----

  predicate IsRefusal(q: Post, r: nat) {
    q == Post(r, Refused)
  }

  /** Reservation `r` was definitely refused, by the server or before sending. */
  ghost predicate WasRefused(s: State, r: nat) {
    r in s.refusedLocally || exists k :: 0 <= k < |s.posts| && IsRefusal(s.posts[k], r)
  }

  /** At most one POST per reservation, and none for a reservation that is still to send or never will. */
  ghost predicate OnePostEach(reservations: nat, processes: seq<Process>, posts: seq<Post>, refusedLocally: set<nat>) {
    && (forall k :: 0 <= k < |posts| ==>
          1 <= posts[k].reservation <= reservations && posts[k].reservation !in refusedLocally)
    && (forall j, k :: 0 <= j < k < |posts| ==> posts[j].reservation != posts[k].reservation)
    && (forall i, k :: 0 <= i < |processes| && processes[i].Holding? && 0 <= k < |posts| ==>
          posts[k].reservation != processes[i].reservation)
    && (forall i :: 0 <= i < |processes| && processes[i].Holding? ==> processes[i].reservation !in refusedLocally)
    && (forall r :: r in refusedLocally ==> r <= reservations)
  }

  /** At most one process acts for a reservation, and it waits for the POST of that reservation. */
  ghost predicate OneOwnerEach(reservations: nat, processes: seq<Process>, posts: seq<Post>) {
    && (forall i :: 0 <= i < |processes| && Active(processes[i]) ==> 1 <= processes[i].reservation <= reservations)
    && (forall i, j :: 0 <= i < j < |processes| && Active(processes[i]) && Active(processes[j]) ==>
          processes[i].reservation != processes[j].reservation)
    && (forall i :: 0 <= i < |processes| && processes[i].Waiting? ==>
          processes[i].post < |posts| && posts[processes[i].post].reservation == processes[i].reservation)
  }

  ghost predicate Shape(s: State) {
    && OnePostEach(|s.intents|, s.processes, s.posts, s.refusedLocally)
    && OneOwnerEach(|s.intents|, s.processes, s.posts)
  }

  /** The process goes on for the same reservation, or stops acting for any. */
  predicate Carries(before: Process, after: Process) {
    && !after.Holding? && !after.Waiting?
    && (Active(after) ==> Active(before) && after.reservation == before.reservation)
  }

  /** Only process `i` moved, and it goes on for the same reservation or stops acting for any. */
  predicate Quiet(s: State, t: State, i: nat)
    requires i < |s.processes|
  {
    && t.intents == s.intents && t.posts == s.posts && t.refusedLocally == s.refusedLocally
    && |t.processes| == |s.processes| && t.processes == s.processes[i := t.processes[i]]
    && (t.processes[i] == s.processes[i] || Carries(s.processes[i], t.processes[i]))
  }

  lemma QuietKeepsShape(s: State, t: State, i: nat)
    requires Shape(s) && i < |s.processes| && Quiet(s, t, i)
    ensures Shape(t)
  {
    if t.processes[i] == s.processes[i] {
      assert t.processes == s.processes;
    }
  }

  lemma DecidedKeepsShape(s: State, k: nat, fate: Fate)
    requires Shape(s) && k < |s.posts|
    ensures Shape(Decided(s, k, fate))
  {
  }

  lemma ReserveKeepsShape(p: Protocol, s: State, i: nat, intent: nat)
    requires Shape(s) && i < |s.processes|
    ensures Shape(OnReserve(p, s, i, intent))
  {
  }

  lemma SendKeepsShape(s: State, i: nat)
    requires Shape(s) && i < |s.processes|
    ensures Shape(OnSend(s, i))
  {
  }

  lemma RefuseLocallyKeepsShape(p: Protocol, s: State, i: nat)
    requires Shape(s) && i < |s.processes|
    ensures Shape(OnRefuseLocally(p, s, i))
  {
  }

  lemma ReplyIsQuiet(p: Protocol, s: State, i: nat)
    requires i < |s.processes|
    ensures Quiet(s, OnRespond(s, i), i) && Quiet(s, OnGiveUp(s, i), i) && Quiet(s, OnConclude(p, s, i), i)
  {
    assert s.processes == s.processes[i := s.processes[i]];
  }

  lemma LookIsQuiet(p: Protocol, s: State, i: nat)
    requires i < |s.processes|
    ensures Quiet(s, OnLook(s, i), i) && Quiet(s, OnObserve(s, i), i) && Quiet(s, OnPersist(p, s, i), i)
  {
    assert s.processes == s.processes[i := s.processes[i]];
  }

  lemma ForgetIsQuiet(p: Protocol, s: State, i: nat, why: Why)
    requires i < |s.processes|
    ensures Quiet(s, OnPlanForget(p, s, i, why), i) && Quiet(s, OnForget(s, i), i) && Quiet(s, With(s, i, Idle), i)
  {
    assert s.processes == s.processes[i := s.processes[i]];
  }

  /** The steps of a client other than reserving and sending. */
  lemma ClientIsQuiet(p: Protocol, s: State, i: nat, why: Why)
    requires i < |s.processes|
    ensures Quiet(s, OnRespond(s, i), i) && Quiet(s, OnGiveUp(s, i), i) && Quiet(s, OnConclude(p, s, i), i)
    ensures Quiet(s, OnLook(s, i), i) && Quiet(s, OnObserve(s, i), i) && Quiet(s, OnPersist(p, s, i), i)
    ensures Quiet(s, OnPlanForget(p, s, i, why), i) && Quiet(s, OnForget(s, i), i) && Quiet(s, With(s, i, Idle), i)
  {
    ReplyIsQuiet(p, s, i);
    LookIsQuiet(p, s, i);
    ForgetIsQuiet(p, s, i, why);
  }

  lemma StepKeepsShape(p: Protocol, s: State, a: Action)
    requires Shape(s)
    ensures Shape(Step(p, s, a))
  {
    if Refers(s, a) {
      match a
      case Reserve(i, intent) => ReserveKeepsShape(p, s, i, intent);
      case Send(i) => SendKeepsShape(s, i);
      case RefuseLocally(i) => RefuseLocallyKeepsShape(p, s, i);
      case Lose(k) => DecidedKeepsShape(s, k, Lost);
      case Grant(k) => DecidedKeepsShape(s, k, Granted);
      case Refuse(k) => DecidedKeepsShape(s, k, Refused);
      case Settle =>
      case PlanForget(i, why) =>
        ClientIsQuiet(p, s, i, why);
        QuietKeepsShape(s, OnPlanForget(p, s, i, why), i);
      case _ =>
        ClientIsQuiet(p, s, a.process, AfterTerminal);
        QuietKeepsShape(s, Step(p, s, a), a.process);
    }
  }

  // ---- what the journal and the processes know is true ----

  /** Processes and record carry the contents of their reservations, and only the current reservation is acted for. */
  ghost predicate Labelled(intents: seq<nat>, processes: seq<Process>, record: Option<Record>) {
    && (forall i :: 0 <= i < |processes| && Active(processes[i]) ==>
          processes[i].reservation == |intents| && processes[i].intent == Content(intents, |intents|))
    && (record.Some? ==> |intents| > 0 && record.value.intent == Content(intents, |intents|))
  }

  ghost predicate Honest(s: State, q: Process) {
    && (Active(q) && q.intent !in s.accepted ==> s.record == Some(Record(q.intent, Reserved)))
    && (q.Told? && q.verdict.Reject? ==> WasRefused(s, q.reservation))
    && (q.Told? && q.verdict.Accept? ==> q.intent in s.accepted)
    && (q.Seen? ==> q.record.intent in s.accepted)
    && (q.Dropping? ==> if q.why.AfterRejection? then q.record.phase.Rejected? else q.record.intent in s.terminal)
  }

  /** The record disappeared after a definite refusal of its very reservation, or a terminal observation of the key for
      its content. */
  ghost predicate Justified(s: State, d: Drop) {
    && 1 <= d.reservation <= |s.intents|
    && if d.why.AfterRejection? then WasRefused(s, d.reservation) else Content(s.intents, d.reservation) in s.terminal
  }

  /** The record on disk is true: an accepted one of an accepted content, a rejected one of a reservation that was
      refused itself. */
  ghost predicate TrueRecord(s: State) {
    s.record.Some? ==>
      && (s.record.value.phase.Accepted? ==> s.record.value.intent in s.accepted)
      && (s.record.value.phase.Rejected? ==> WasRefused(s, |s.intents|))
  }

  ghost predicate WasGranted(s: State, x: nat) {
    exists k :: 0 <= k < |s.posts| && s.posts[k].fate.Granted? && PostContent(s, k) == x
  }

  /** The reservation of POST `k` is over, and its content is not accepted. */
  predicate Abandoned(s: State, k: nat)
    requires k < |s.posts|
  {
    PostContent(s, k) !in s.accepted && (s.posts[k].reservation < |s.intents| || s.record.None?)
  }

  ghost predicate TrueServer(s: State) {
    && s.terminal <= s.accepted
    && (forall x :: x in s.accepted ==> WasGranted(s, x))
    && (forall k :: 0 <= k < |s.posts| && s.posts[k].fate.Granted? ==> PostContent(s, k) in s.accepted)
    && (forall k :: 0 <= k < |s.posts| && Abandoned(s, k) ==> s.posts[k].fate.Refused?)
  }

  ghost predicate Kind(p: Protocol, s: State) {
    if p.Forgetting? then s.refusedLocally == {}
    else
      && |s.intents| <= 1 && s.drops == [] && (s.record.None? ==> s.intents == [])
      && forall i :: 0 <= i < |s.processes| ==> !s.processes[i].Dropping?
  }

  ghost predicate TrueDrops(s: State) {
    forall i :: 0 <= i < |s.drops| ==> Justified(s, s.drops[i])
  }

  ghost predicate AllHonest(s: State) {
    forall i :: 0 <= i < |s.processes| ==> Honest(s, s.processes[i])
  }

  ghost predicate Inv(p: Protocol, s: State) {
    && Shape(s)
    && Labelled(s.intents, s.processes, s.record)
    && Kind(p, s)
    && TrueServer(s)
    && TrueRecord(s)
    && AllHonest(s)
    && TrueDrops(s)
  }

  /** Reservations and POSTs only get added, and POSTs settled. */
  ghost predicate Later(s: State, t: State) {
    && |s.posts| <= |t.posts| && s.refusedLocally <= t.refusedLocally && s.intents <= t.intents
    && forall k :: 0 <= k < |s.posts| ==> t.posts[k].reservation == s.posts[k].reservation
                                          && (s.posts[k].fate.InFlight? || t.posts[k] == s.posts[k])
  }

  /** A settled POST stays settled. */
  lemma Remembered(s: State, t: State)
    requires Later(s, t)
    ensures forall r :: WasRefused(s, r) ==> WasRefused(t, r)
  {
    forall r | WasRefused(s, r) ensures WasRefused(t, r) {
      if r !in s.refusedLocally {
        var k :| 0 <= k < |s.posts| && IsRefusal(s.posts[k], r);
        assert IsRefusal(t.posts[k], r);
      }
    }
  }

  lemma GrantedRemembered(s: State, t: State)
    requires Shape(s) && Later(s, t)
    ensures forall x :: WasGranted(s, x) ==> WasGranted(t, x)
  {
    forall x | WasGranted(s, x) ensures WasGranted(t, x) {
      var k :| 0 <= k < |s.posts| && s.posts[k].fate.Granted? && PostContent(s, k) == x;
      assert t.posts[k].fate.Granted? && PostContent(t, k) == x;
    }
  }

  lemma DropsStay(s: State, t: State)
    requires Later(s, t) && t.drops == s.drops && s.terminal <= t.terminal && TrueDrops(s)
    ensures TrueDrops(t)
  {
    Remembered(s, t);
    forall i | 0 <= i < |t.drops| ensures Justified(t, t.drops[i]) {
      assert Justified(s, s.drops[i]);
      assert Content(t.intents, t.drops[i].reservation) == Content(s.intents, s.drops[i].reservation);
    }
  }

  // ---- reserving and sending ----

  lemma ReserveServer(p: Protocol, s: State, i: nat, intent: nat)
    requires Shape(s) && TrueServer(s) && i < |s.processes|
    ensures TrueServer(OnReserve(p, s, i, intent))
  {
    var t := OnReserve(p, s, i, intent);
    GrantedRemembered(s, t);
    forall k | 0 <= k < |t.posts| ensures PostContent(t, k) == PostContent(s, k) {
    }
  }

  /** The lock, or for a permanent key the record, keeps two reservations from being acted for at once. */
  lemma ReserveAlone(p: Protocol, s: State, i: nat, intent: nat)
    requires Inv(p, s) && i < |s.processes| && OnReserve(p, s, i, intent) != s
    ensures Unlocked(s.processes)
  {
  }

  lemma ReserveKeeps(p: Protocol, s: State, i: nat, intent: nat)
    requires Inv(p, s) && i < |s.processes|
    ensures Inv(p, OnReserve(p, s, i, intent))
  {
    var t := OnReserve(p, s, i, intent);
    if t != s {
      ReserveAlone(p, s, i, intent);
      ReserveKeepsShape(p, s, i, intent);
      ReserveServer(p, s, i, intent);
      Remembered(s, t);
      DropsStay(s, t);
      forall j | 0 <= j < |t.processes| ensures Honest(t, t.processes[j]) {
        assert Honest(s, s.processes[j]);
      }
    }
  }

  lemma SendServer(s: State, i: nat)
    requires Shape(s) && Labelled(s.intents, s.processes, s.record) && TrueServer(s)
    requires i < |s.processes| && s.processes[i].Holding? && Honest(s, s.processes[i])
    ensures TrueServer(OnSend(s, i))
  {
    var t := OnSend(s, i);
    GrantedRemembered(s, t);
    forall k | 0 <= k < |s.posts| ensures t.posts[k] == s.posts[k] && PostContent(t, k) == PostContent(s, k) {
    }
    assert PostContent(t, |s.posts|) == s.processes[i].intent;
  }

  lemma SendKeeps(p: Protocol, s: State, i: nat)
    requires Inv(p, s) && i < |s.processes|
    ensures Inv(p, OnSend(s, i))
  {
    if s.processes[i].Holding? {
      SendKeepsShape(s, i);
      assert Honest(s, s.processes[i]);
      SendServer(s, i);
      var t := OnSend(s, i);
      Remembered(s, t);
      DropsStay(s, t);
      forall j | 0 <= j < |t.processes| ensures Honest(t, t.processes[j]) {
        assert Honest(s, s.processes[j]);
      }
    }
  }

  lemma RefuseLocallyKeeps(p: Protocol, s: State, i: nat)
    requires Inv(p, s) && i < |s.processes|
    ensures Inv(p, OnRefuseLocally(p, s, i))
  {
    var t := OnRefuseLocally(p, s, i);
    if t != s {
      RefuseLocallyKeepsShape(p, s, i);
      Remembered(s, t);
      GrantedRemembered(s, t);
      DropsStay(s, t);
      forall j | 0 <= j < |t.processes| ensures Honest(t, t.processes[j]) {
        assert Honest(s, s.processes[j]);
      }
    }
  }

  // ---- learning and observing ----

  /** The verdict lands on the record, which is that of its own reservation. */
  lemma VerdictLands(p: Protocol, s: State, i: nat)
    requires Inv(p, s) && i < |s.processes| && s.processes[i].Told?
    requires s.record == Some(Record(s.processes[i].intent, Reserved))
    ensures s.processes[i].reservation == |s.intents|
    ensures Inv(p, OnConclude(p, s, i))
  {
    var t := OnConclude(p, s, i);
    assert Honest(s, s.processes[i]);
    ReplyIsQuiet(p, s, i);
    QuietKeepsShape(s, t, i);
    GrantedRemembered(s, t);
    Remembered(s, t);
    DropsStay(s, t);
    forall j | 0 <= j < |t.processes| ensures Honest(t, t.processes[j]) {
      assert j != i ==> t.processes[j] == s.processes[j] && Honest(s, s.processes[j]) && !Active(s.processes[j]);
    }
  }

  lemma ConcludeKeeps(p: Protocol, s: State, i: nat)
    requires Inv(p, s) && i < |s.processes|
    ensures Inv(p, OnConclude(p, s, i))
  {
    if s.processes[i].Told? {
      if s.record == Some(Record(s.processes[i].intent, Reserved)) {
        VerdictLands(p, s, i);
      } else {
        MoveKeeps(p, s, i, Idle);
      }
    }
  }

  /** The observation lands on the record. */
  lemma ObservationLands(p: Protocol, s: State, i: nat)
    requires Inv(p, s) && i < |s.processes| && s.processes[i].Seen? && s.record == Some(s.processes[i].record)
    ensures Inv(p, OnPersist(p, s, i))
  {
    var t := OnPersist(p, s, i);
    LookIsQuiet(p, s, i);
    QuietKeepsShape(s, t, i);
    assert Honest(s, s.processes[i]);
    GrantedRemembered(s, t);
    Remembered(s, t);
    DropsStay(s, t);
    forall j | 0 <= j < |t.processes| ensures Honest(t, t.processes[j]) {
      assert j != i ==> t.processes[j] == s.processes[j] && Honest(s, s.processes[j]);
    }
  }

  lemma PersistKeeps(p: Protocol, s: State, i: nat)
    requires Inv(p, s) && i < |s.processes|
    ensures Inv(p, OnPersist(p, s, i))
  {
    if s.processes[i].Seen? {
      if p.Permanent? && s.record == Some(s.processes[i].record) {
        ObservationLands(p, s, i);
      } else {
        MoveKeeps(p, s, i, Idle);
      }
    }
  }

  // ---- forgetting ----

  /** Whatever a record is dropped for, a POST of its reservation was refused or its content accepted. */
  lemma DropServer(p: Protocol, s: State, i: nat)
    requires Inv(p, s) && i < |s.processes| && s.processes[i].Dropping?
    requires s.record == Some(s.processes[i].record)
    ensures TrueServer(OnForget(s, i))
  {
    var t := OnForget(s, i);
    assert Honest(s, s.processes[i]);
    GrantedRemembered(s, t);
    forall k | 0 <= k < |t.posts| && PostContent(t, k) !in t.accepted ensures t.posts[k].fate.Refused? {
      assert PostContent(s, k) == PostContent(t, k);
      if s.posts[k].reservation == |s.intents| {
        assert s.record.value.intent == PostContent(s, k);
        assert WasRefused(s, |s.intents|) && s.posts[k].reservation !in s.refusedLocally;
        var j :| 0 <= j < |s.posts| && IsRefusal(s.posts[j], |s.intents|);
        assert j == k;
      }
    }
  }

  lemma DropKeeps(p: Protocol, s: State, i: nat)
    requires Inv(p, s) && i < |s.processes| && s.processes[i].Dropping?
    requires s.record == Some(s.processes[i].record)
    ensures Inv(p, OnForget(s, i))
  {
    var t := OnForget(s, i);
    assert Honest(s, s.processes[i]);
    ForgetIsQuiet(p, s, i, AfterTerminal);
    QuietKeepsShape(s, t, i);
    DropServer(p, s, i);
    Remembered(s, t);
    forall j | 0 <= j < |t.processes| ensures Honest(t, t.processes[j]) {
      assert j != i ==> t.processes[j] == s.processes[j] && Honest(s, s.processes[j]);
    }
    forall j | 0 <= j < |t.drops| ensures Justified(t, t.drops[j]) {
      if j < |s.drops| {
        assert t.drops[j] == s.drops[j] && Justified(s, s.drops[j]);
      }
    }
  }

  lemma ForgetKeeps(p: Protocol, s: State, i: nat)
    requires Inv(p, s) && i < |s.processes|
    ensures Inv(p, OnForget(s, i))
  {
    if s.processes[i].Dropping? {
      if s.record == Some(s.processes[i].record) {
        DropKeeps(p, s, i);
      } else {
        MoveKeeps(p, s, i, Idle);
      }
    }
  }

  // ---- the server and the network ----

  /** The server or the network settles POSTs, and may accept contents for POSTs it grants. */
  lemma SettledKeeps(p: Protocol, s: State, t: State)
    requires Inv(p, s) && Shape(t) && Later(s, t) && |t.posts| == |s.posts|
    requires t == s.(posts := t.posts, accepted := t.accepted, terminal := t.terminal)
    requires s.terminal <= t.terminal <= t.accepted && s.accepted <= t.accepted
    requires forall x :: x in t.accepted && x !in s.accepted ==> WasGranted(t, x)
    requires forall k :: 0 <= k < |t.posts| && t.posts[k].fate.Granted? ==> PostContent(t, k) in t.accepted
    ensures Inv(p, t)
  {
    GrantedRemembered(s, t);
    forall k | 0 <= k < |t.posts| && Abandoned(t, k) ensures t.posts[k].fate.Refused? {
      assert Abandoned(s, k);
    }
    Remembered(s, t);
    DropsStay(s, t);
    forall i | 0 <= i < |t.processes| ensures Honest(t, t.processes[i]) {
      assert Honest(s, s.processes[i]);
    }
  }

  lemma UngrantedKeeps(p: Protocol, s: State, k: nat, fate: Fate)
    requires Inv(p, s) && k < |s.posts| && s.posts[k].fate.InFlight? && !fate.Granted?
    ensures Inv(p, Decided(s, k, fate))
  {
    var t := Decided(s, k, fate);
    DecidedKeepsShape(s, k, fate);
    forall j | 0 <= j < |t.posts| && t.posts[j].fate.Granted? ensures PostContent(t, j) in t.accepted {
      assert t.posts[j] == s.posts[j] && PostContent(t, j) == PostContent(s, j);
    }
    SettledKeeps(p, s, t);
  }

  lemma GrantKeeps(p: Protocol, s: State, k: nat)
    requires Inv(p, s) && k < |s.posts| && s.posts[k].fate.InFlight?
    ensures Inv(p, OnGrant(s, k))
  {
    var t := OnGrant(s, k);
    DecidedKeepsShape(s, k, Granted);
    assert t.posts[k].fate.Granted? && PostContent(t, k) == PostContent(s, k);
    forall j | 0 <= j < |t.posts| && t.posts[j].fate.Granted? ensures PostContent(t, j) in t.accepted {
      assert j != k ==> t.posts[j] == s.posts[j] && PostContent(t, j) == PostContent(s, j);
    }
    SettledKeeps(p, s, t);
  }

  lemma FinishKeeps(p: Protocol, s: State)
    requires Inv(p, s)
    ensures Inv(p, s.(terminal := s.accepted))
  {
    var t := s.(terminal := s.accepted);
    forall j | 0 <= j < |t.posts| && t.posts[j].fate.Granted? ensures PostContent(t, j) in t.accepted {
      assert PostContent(t, j) == PostContent(s, j);
    }
    SettledKeeps(p, s, t);
  }

  // ---- moves of one process ----

  lemma MoveRecord(p: Protocol, s: State, i: nat, q: Process)
    requires Inv(p, s) && i < |s.processes| && Carries(s.processes[i], q)
    ensures TrueServer(With(s, i, q)) && TrueRecord(With(s, i, q)) && TrueDrops(With(s, i, q))
  {
    var t := With(s, i, q);
    Remembered(s, t);
    GrantedRemembered(s, t);
    DropsStay(s, t);
  }

  /** A move of one process that touches neither record nor server. */
  lemma MoveKeeps(p: Protocol, s: State, i: nat, q: Process)
    requires Inv(p, s) && i < |s.processes| && Carries(s.processes[i], q)
    requires Active(q) ==> q.intent == s.processes[i].intent
    requires Honest(s, q) && (q.Dropping? ==> p.Forgetting?)
    ensures Inv(p, With(s, i, q))
  {
    var t := With(s, i, q);
    QuietKeepsShape(s, t, i);
    MoveRecord(p, s, i, q);
    Remembered(s, t);
    forall j | 0 <= j < |t.processes| ensures Honest(t, t.processes[j]) {
      assert Honest(s, if j == i then q else s.processes[j]);
    }
  }

  lemma RespondKeeps(p: Protocol, s: State, i: nat)
    requires Inv(p, s) && i < |s.processes|
    ensures Inv(p, OnRespond(s, i)) && Inv(p, OnGiveUp(s, i))
  {
    match s.processes[i]
    case Waiting(r, intent, k) =>
      assert Honest(s, s.processes[i]);
      MoveKeeps(p, s, i, Told(r, intent, Unknown));
      assert PostContent(s, k) == intent;
      if s.posts[k].fate.Granted? {
        MoveKeeps(p, s, i, Told(r, intent, Accept));
      } else if s.posts[k].fate.Refused? {
        assert IsRefusal(s.posts[k], r);
        MoveKeeps(p, s, i, Told(r, intent, Reject));
      }
    case _ =>
  }

  lemma LookKeeps(p: Protocol, s: State, i: nat)
    requires Inv(p, s) && i < |s.processes|
    ensures Inv(p, OnLook(s, i))
  {
    if OnLook(s, i) != s {
      MoveKeeps(p, s, i, Looking(s.record.value));
    }
  }

  lemma ObserveKeeps(p: Protocol, s: State, i: nat)
    requires Inv(p, s) && i < |s.processes|
    ensures Inv(p, OnObserve(s, i))
  {
    if OnObserve(s, i) != s {
      MoveKeeps(p, s, i, Seen(s.processes[i].record));
    }
  }

  lemma PlanForgetKeeps(p: Protocol, s: State, i: nat, why: Why)
    requires Inv(p, s) && i < |s.processes|
    ensures Inv(p, OnPlanForget(p, s, i, why))
  {
    if OnPlanForget(p, s, i, why) != s {
      MoveKeeps(p, s, i, Dropping(s.processes[i].record, why));
    }
  }

  /** A step of the server or the network. */
  lemma ServerStepKeeps(p: Protocol, s: State, a: Action)
    requires Inv(p, s) && Refers(s, a) && (a.Lose? || a.Grant? || a.Refuse? || a.Settle?)
    ensures Inv(p, Step(p, s, a))
  {
    match a
    case Lose(k) => UngrantedKeeps(p, s, k, Lost);
    case Grant(k) => GrantKeeps(p, s, k);
    case Refuse(k) => UngrantedKeeps(p, s, k, Refused);
    case Settle => FinishKeeps(p, s);
  }

  /** A step of a submission, from the reservation to the writing of its outcome. */
  lemma SubmitStepKeeps(p: Protocol, s: State, a: Action)
    requires Inv(p, s) && Refers(s, a)
    requires a.Reserve? || a.Send? || a.RefuseLocally? || a.Respond? || a.GiveUp? || a.Conclude?
    ensures Inv(p, Step(p, s, a))
  {
    match a
    case Reserve(i, intent) => ReserveKeeps(p, s, i, intent);
    case Send(i) => SendKeeps(p, s, i);
    case RefuseLocally(i) => RefuseLocallyKeeps(p, s, i);
    case Respond(i) => RespondKeeps(p, s, i);
    case GiveUp(i) => RespondKeeps(p, s, i);
    case Conclude(i) => ConcludeKeeps(p, s, i);
  }

  /** A step of an observation or a forget, or the death of a process. */
  lemma ObserveStepKeeps(p: Protocol, s: State, a: Action)
    requires Inv(p, s) && Refers(s, a)
    requires a.Look? || a.Observe? || a.Persist? || a.PlanForget? || a.Forget? || a.Crash?
    ensures Inv(p, Step(p, s, a))
  {
    match a
    case Look(i) => LookKeeps(p, s, i);
    case Observe(i) => ObserveKeeps(p, s, i);
    case Persist(i) => PersistKeeps(p, s, i);
    case PlanForget(i, why) => PlanForgetKeeps(p, s, i, why);
    case Forget(i) => ForgetKeeps(p, s, i);
    case Crash(i) => MoveKeeps(p, s, i, Idle);
  }

  lemma StepKeeps(p: Protocol, s: State, a: Action)
    requires Inv(p, s)
    ensures Inv(p, Step(p, s, a))
  {
    if Refers(s, a) {
      if a.Lose? || a.Grant? || a.Refuse? || a.Settle? {
        ServerStepKeeps(p, s, a);
      } else if a.Reserve? || a.Send? || a.RefuseLocally? || a.Respond? || a.GiveUp? || a.Conclude? {
        SubmitStepKeeps(p, s, a);
      } else {
        ObserveStepKeeps(p, s, a);
      }
    }
  }

  /** Every run of any number of processes from a fresh key keeps all of this. */
  lemma {:induction false} RunKeeps(p: Protocol, s: State, actions: seq<Action>)
    requires Inv(p, s)
    ensures Inv(p, Run(p, s, actions))
    decreases |actions|
  {
    if actions != [] {
      StepKeeps(p, s, actions[0]);
      RunKeeps(p, Step(p, s, actions[0]), actions[1..]);
    }
  }

  lemma FreshHolds(p: Protocol, n: nat)
    ensures Inv(p, Fresh(n))
  {
  }

  // ---- main results ----

  /** Every run against any server, with any interleaving of lost requests, lost responses, crashes and repeated
      submissions: one POST per reservation at most, no content accepted without an earlier reservation of it, a journal
      that says accepted only of a content that was and rejected only of a reservation that was refused itself, and no
      record dropped without the refusal of its own reservation or a terminal observation of its content. */
  lemma CallerKeySafe(p: Protocol, n: nat, actions: seq<Action>)
    ensures var s := Run(p, Fresh(n), actions);
            && (forall j, k :: 0 <= j < k < |s.posts| ==> s.posts[j].reservation != s.posts[k].reservation)
            && (forall k :: 0 <= k < |s.posts| ==> 1 <= s.posts[k].reservation <= |s.intents|)
            && (forall x :: x in s.accepted ==> WasGranted(s, x))
            && TrueRecord(s)
            && TrueDrops(s)
  {
    FreshHolds(p, n);
    RunKeeps(p, Fresh(n), actions);
  }

  lemma TwoPostsTwoReservations(s: State)
    requires Shape(s)
    ensures |s.posts| >= 2 ==> |s.intents| >= 2
  {
    if |s.posts| >= 2 {
      assert s.posts[0].reservation != s.posts[1].reservation;
    }
  }

  /** A stop or delete key is posted at most once, ever, whatever the server does. */
  lemma PermanentKeyPostedOnce(n: nat, actions: seq<Action>)
    ensures |Run(Permanent, Fresh(n), actions).posts| <= 1
  {
    FreshHolds(Permanent, n);
    RunKeeps(Permanent, Fresh(n), actions);
    TwoPostsTwoReservations(Run(Permanent, Fresh(n), actions));
  }

  /** A process about to send finds its own reservation on disk, unless the server has accepted the key for its
      content. */
  lemma SendFindsRecord(p: Protocol, n: nat, actions: seq<Action>, i: nat)
    requires i < |Run(p, Fresh(n), actions).processes|
    requires Run(p, Fresh(n), actions).processes[i].Holding?
    ensures var s := Run(p, Fresh(n), actions);
            s.processes[i].intent in s.accepted || s.record == Some(Record(s.processes[i].intent, Reserved))
  {
    FreshHolds(p, n);
    RunKeeps(p, Fresh(n), actions);
    var s := Run(p, Fresh(n), actions);
    assert Honest(s, s.processes[i]);
  }

  /** While a POST can still be the first to have its content accepted, the record of its reservation is on disk: no
      acceptance can come as a surprise. */
  lemma FirstAcceptanceHasRecord(p: Protocol, n: nat, actions: seq<Action>, k: nat)
    requires k < |Run(p, Fresh(n), actions).posts|
    ensures var s := Run(p, Fresh(n), actions);
            s.posts[k].fate.InFlight? && PostContent(s, k) !in s.accepted ==>
              s.posts[k].reservation == |s.intents| && s.record.Some? && s.record.value.intent == PostContent(s, k)
  {
    FreshHolds(p, n);
    RunKeeps(p, Fresh(n), actions);
    var s := Run(p, Fresh(n), actions);
    assert Abandoned(s, k) ==> s.posts[k].fate.Refused?;
  }

  /** Between a reservation and the writing of its outcome no other process acts for the key. */
  lemma OneActsAtATime(p: Protocol, n: nat, actions: seq<Action>, i: nat, j: nat)
    ensures var s := Run(p, Fresh(n), actions);
            i < |s.processes| && j < |s.processes| && Active(s.processes[i]) && Active(s.processes[j]) ==> i == j
  {
    FreshHolds(p, n);
    RunKeeps(p, Fresh(n), actions);
  }

  // ---- what each step gets done ----

  /** A key without a record can be reserved, by one process at a time if it can be forgotten; a key with one cannot. */
  lemma ReserveTakes(p: Protocol, s: State, i: nat, intent: nat)
    requires Inv(p, s) && i < |s.processes| && s.processes[i].Idle?
    ensures var t := Step(p, s, Reserve(i, intent));
            if s.record == None && Unlocked(s.processes) then
              && t.record == Some(Record(intent, Reserved)) && t.intents == s.intents + [intent]
              && t.processes[i] == Holding(|t.intents|, intent) && t.posts == s.posts
            else t == s
  {
  }

  /** A reserved request is sent once, and its process waits for that POST. */
  lemma SendPosts(p: Protocol, s: State, i: nat)
    requires i < |s.processes| && s.processes[i].Holding?
    ensures var q, t := s.processes[i], Step(p, s, Send(i));
            && t.posts == s.posts + [Post(q.reservation, InFlight)] && t.record == s.record
            && t.processes[i] == Waiting(q.reservation, q.intent, |s.posts|)
  {
  }

  /** The server's decision on a POST, and the process that waits for it told so. */
  lemma DecisionIsTold(p: Protocol, s: State, i: nat, accepts: bool)
    requires Inv(p, s) && i < |s.processes| && s.processes[i].Waiting? && s.posts[s.processes[i].post].fate.InFlight?
    ensures var q := s.processes[i];
            var t := Step(p, s, if accepts then Grant(q.post) else Refuse(q.post));
            && (accepts ==> q.intent in t.accepted)
            && (!accepts ==> WasRefused(t, q.reservation) && t.accepted == s.accepted)
            && Step(p, t, Respond(i)).processes[i] == Told(q.reservation, q.intent, if accepts then Accept else Reject)
            && Step(p, t, Respond(i)).record == s.record
  {
    var q := s.processes[i];
    assert PostContent(s, q.post) == q.intent;
    if !accepts {
      assert IsRefusal(Step(p, s, Refuse(q.post)).posts[q.post], q.reservation);
    }
  }

  /** The outcome is written onto the record that still waits for it, and the process is done. */
  lemma OutcomeIsWritten(p: Protocol, s: State, i: nat)
    requires i < |s.processes| && s.processes[i].Told?
    ensures var q, t := s.processes[i], Step(p, s, Conclude(i));
            && t.processes[i] == Idle && t.posts == s.posts && t.drops == s.drops
            && t.record == if s.record != Some(Record(q.intent, Reserved)) then s.record
                           else Some(Record(q.intent, match q.verdict
                                                      case Accept => Accepted
                                                      case Reject => Rejected
                                                      case Unknown => if p == Permanent then Uncertain else Reserved))
  {
  }

  /** An accepted content is seen by whoever looks at its record; stop and delete then write it down. */
  lemma ObservationIsWritten(p: Protocol, s: State, i: nat)
    requires i < |s.processes| && s.processes[i].Idle? && s.record.Some? && s.record.value.intent in s.accepted
    ensures var r := s.record.value;
            var t := Step(p, Step(p, s, Look(i)), Observe(i));
            && t.processes[i] == Seen(r) && t.record == s.record
            && Step(p, t, Persist(i)).processes[i] == Idle
            && Step(p, t, Persist(i)).record == if p == Permanent then Some(Record(r.intent, Accepted)) else s.record
  {
  }

  /** The record of a forgettable key can be forgotten exactly when it is rejected or its content is finished; then it
      goes, and the key can be reserved again. */
  lemma ForgetTakesEffect(p: Protocol, s: State, i: nat, why: Why)
    requires i < |s.processes| && s.processes[i].Idle? && s.record.Some?
    ensures var r := s.record.value;
            var t := Step(p, Step(p, Step(p, s, Look(i)), PlanForget(i, why)), Forget(i));
            if p == Forgetting && (if why.AfterRejection? then r.phase == Rejected else r.intent in s.terminal) then
              t.record == None && t.drops == s.drops + [Drop(|s.intents|, why)] && t.processes[i] == Idle
            else t.record == s.record && t.drops == s.drops
  {
  }

  /** A process can stop waiting without an answer or die at any time, and a stop or delete can be refused unsent;
      none of this touches the record. */
  lemma NoAnswer(p: Protocol, s: State, i: nat)
    requires i < |s.processes|
    ensures Step(p, s, Crash(i)) == With(s, i, Idle)
    ensures s.processes[i].Waiting? ==>
              Step(p, s, GiveUp(i)) == With(s, i, Told(s.processes[i].reservation, s.processes[i].intent, Unknown))
    ensures s.processes[i].Holding? ==>
              var q, t := s.processes[i], Step(p, s, RefuseLocally(i));
              && t.record == s.record && t.posts == s.posts
              && t.processes[i] == (if p == Permanent then Told(q.reservation, q.intent, Reject) else q)
              && (p == Permanent ==> WasRefused(t, q.reservation))
  {
  }

  /** A record that changed in the meantime is not forgotten. */
  lemma StaleForgetDoesNothing(p: Protocol, s: State, i: nat)
    requires i < |s.processes| && s.processes[i].Dropping? && s.record != Some(s.processes[i].record)
    ensures Step(p, s, Forget(i)) == With(s, i, Idle)
  {
  }

  /** One POST per reservation needs none of this. */
  lemma {:induction false} RunKeepsShape(p: Protocol, s: State, actions: seq<Action>)
    requires Shape(s)
    ensures Shape(Run(p, s, actions))
    decreases |actions|
  {
    if actions != [] {
      StepKeepsShape(p, s, actions[0]);
      RunKeepsShape(p, Step(p, s, actions[0]), actions[1..]);
    }
  }
}
