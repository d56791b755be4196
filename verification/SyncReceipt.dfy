/** The staged receipt of a sync operation: what each stage came to, and whether the operation as a whole did what it
    says. */
module SyncReceipt {
  import opened Prelude

  datatype Method = Ensure | Pause | Resume | Resolve | Reset

  /** What a stage is about. */
  datatype Part = Workspace | Server | Mutagen | Persist

  datatype StageState = Completed | Skipped | Failed | Unknown

  datatype Stage = Stage(part: Part, state: StageState)

  datatype Outcome = Whole | Partial | Uncertain

  /** Error codes; the ones that other code chooses are only carried around, so they are numbered. */
  datatype Code = OutcomeUnknown | PrepareFailed | PrepareTimeout | NotFound | Other(number: nat)

  /** The answer of a check or of a call into other code. */
  datatype Reply = Good | Bad(code: Code)

  /** The answer of the local Mutagen, which may have acted before it failed. */
  datatype Applied = Does | DoesNot(code: Code, mayHaveChanged: bool)

  /** The answers to a local step. */
  datatype LocalAnswers = LocalAnswers(recheck: Reply, applied: Applied)

  /** The answers to pause, resume, resolve and reset. */
  datatype ActionAnswers = ActionAnswers(locally: LocalAnswers, recheck: Reply, server: Reply, matches: bool,
                                         persist: Reply)

  datatype Status = Ready | Gone | Preparing

  /** One look at a session that is still being prepared, before the deadline. */
  datatype Look = Look(fetched: Reply, validated: Reply, status: Status)

  /** The answers to ensure; the deadline passes after `looks`. */
  datatype EnsureAnswers = EnsureAnswers(
    recheck: Reply, identity: Reply, workspace: Reply, workspaceMatches: bool, firstPersist: Reply,
    secondRecheck: Reply, server: Reply, serverMatches: bool, status: Status, secondPersist: Reply,
    looks: seq<Look>, thirdPersist: Reply, locally: LocalAnswers)

  /** A failure is uncertain when Mutagen may have acted or cannot say. */
  function MutagenState(a: Applied): StageState {
    match a
    case Does => Completed
    case DoesNot(code, changed) => if changed || code.OutcomeUnknown? then Unknown else Failed
  }

  /** The first bad one of the answers, in the order in which they are asked for. */
  function FirstBad(answers: seq<Reply>): Reply {
    if answers == [] then Good else if answers[0].Bad? then answers[0] else FirstBad(answers[1..])
  }

  /** A server's answer that must also match what was asked for. */
  function Confirmed(matches: bool): Reply {
    if matches then Good else Bad(OutcomeUnknown)
  }

  /** Mutagen's answer; a dry run does not ask for it. */
  function MutagenReply(a: Applied, dryRun: bool): Reply {
    if dryRun || a.Does? then Good else Bad(a.code)
  }

  /** The answers that pause and resolve, or resume and reset, ask for. */
  function ActionOrder(m: Method, dryRun: bool, a: ActionAnswers): seq<Reply> {
    var local := [a.locally.recheck, MutagenReply(a.locally.applied, dryRun)];
    var server := [a.recheck, a.server, Confirmed(a.matches)];
    if m.Pause? || m.Resolve? then local + server + [a.persist] else server + local + [a.persist]
  }

  /** The answers that creating asks for. */
  function CreateOrder(a: EnsureAnswers): seq<Reply> {
    [a.recheck, a.identity, a.workspace, Confirmed(a.workspaceMatches), a.firstPersist,
     a.secondRecheck, a.server, Confirmed(a.serverMatches), a.secondPersist]
  }

  /** What the wait for the created session comes to. */
  function WaitReply(status: Status, looks: seq<Look>): Reply
    decreases |looks|
  {
    match status
    case Ready => Good
    case Gone => Bad(PrepareFailed)
    case Preparing =>
      if looks == [] then Bad(PrepareTimeout)
      else if looks[0].fetched.Bad? then looks[0].fetched
      else if looks[0].validated.Bad? then looks[0].validated
      else WaitReply(looks[0].status, looks[1..])
  }

  /** What the session is known to be before look `i`. */
  function StatusAt(status: Status, looks: seq<Look>, i: nat): Status
    requires i <= |looks|
  {
    if i == 0 then status else looks[i - 1].status
  }

  /** After `n` good looks at a session that was still being prepared, it is ready. */
  ghost predicate ReadyAfter(status: Status, looks: seq<Look>, n: nat) {
    n <= |looks| && StatusAt(status, looks, n).Ready?
    && forall i: nat :: i < n ==>
         looks[i].fetched.Good? && looks[i].validated.Good? && StatusAt(status, looks, i).Preparing?
  }

  /** The wait succeeds exactly when the session gets ready before it goes away, a look fails or the deadline passes. */
  lemma {:induction false} WaitIff(status: Status, looks: seq<Look>)
    ensures WaitReply(status, looks).Good? <==> exists n: nat :: ReadyAfter(status, looks, n)
    decreases |looks|
  {
    if status.Ready? {
      assert ReadyAfter(status, looks, 0);
    } else if WaitGoesOn(status, looks) {
      var next, rest := looks[0].status, looks[1..];
      WaitIff(next, rest);
      forall n: nat ensures ReadyAfter(next, rest, n) <==> ReadyAfter(status, looks, n + 1) {
        OneLookLater(status, looks, n);
      }
      if n: nat :| ReadyAfter(next, rest, n) {
        assert ReadyAfter(status, looks, n + 1);
      }
      if n: nat :| ReadyAfter(status, looks, n) {
        assert n > 0 && ReadyAfter(next, rest, n - 1);
      }
    }
    forall n: nat ensures ReadyAfter(status, looks, n) ==> status.Ready? || WaitGoesOn(status, looks) {
      FirstLook(status, looks, n);
    }
  }

  predicate WaitGoesOn(status: Status, looks: seq<Look>) {
    status.Preparing? && looks != [] && looks[0].fetched.Good? && looks[0].validated.Good?
  }

  lemma FirstLook(status: Status, looks: seq<Look>, n: nat)
    ensures ReadyAfter(status, looks, n) ==> status.Ready? || WaitGoesOn(status, looks)
  {
    if ReadyAfter(status, looks, n) && n > 0 {
      assert looks[0].fetched.Good? && StatusAt(status, looks, 0).Preparing?;
    }
  }

  lemma OneLookLater(status: Status, looks: seq<Look>, n: nat)
    requires WaitGoesOn(status, looks)
    ensures ReadyAfter(looks[0].status, looks[1..], n) <==> ReadyAfter(status, looks, n + 1)
  {
    var next, rest := looks[0].status, looks[1..];
    forall i: nat | i < |rest|
      ensures rest[i] == looks[i + 1] && StatusAt(next, rest, i) == StatusAt(status, looks, i + 1)
    {
    }
    if ReadyAfter(status, looks, n + 1) {
      forall i: nat | i < n
        ensures rest[i].fetched.Good? && rest[i].validated.Good? && StatusAt(next, rest, i).Preparing?
      {
        assert looks[i + 1].fetched.Good?;
      }
    }
    if ReadyAfter(next, rest, n) {
      forall i: nat | i < n + 1
        ensures looks[i].fetched.Good? && looks[i].validated.Good? && StatusAt(status, looks, i).Preparing?
      {
        assert i > 0 ==> rest[i - 1] == looks[i];
      }
    }
  }

  /** The answers that ensure asks for. */
  function EnsureOrder(dryRun: bool, a: EnsureAnswers): seq<Reply> {
    CreateOrder(a) + [WaitReply(a.status, a.looks), a.thirdPersist, a.locally.recheck,
                      MutagenReply(a.locally.applied, dryRun)]
  }

  lemma {:induction false} FirstBadConcat(a: seq<Reply>, b: seq<Reply>)
    ensures FirstBad(a + b) == if FirstBad(a).Bad? then FirstBad(a) else FirstBad(b)
  {
    if a == [] {
      assert a + b == b;
    } else {
      assert (a + b)[0] == a[0] && (a + b)[1..] == a[1..] + b;
      FirstBadConcat(a[1..], b);
    }
  }

  /** All is well exactly when no answer was bad; otherwise the first bad one is reported. */
  lemma {:induction false} FirstBadIff(answers: seq<Reply>)
    ensures FirstBad(answers).Good? <==> forall i :: 0 <= i < |answers| ==> answers[i].Good?
    ensures FirstBad(answers).Bad? ==>
              exists i :: 0 <= i < |answers| && answers[i] == FirstBad(answers)
                          && forall j :: 0 <= j < i ==> answers[j].Good?
  {
    if answers != [] {
      FirstBadIff(answers[1..]);
      assert forall i :: 0 < i < |answers| ==> answers[i] == answers[1..][i - 1];
      if answers[0].Good? && FirstBad(answers).Bad? {
        var rest := answers[1..];
        var i :| 0 <= i < |rest| && rest[i] == FirstBad(rest) && forall j :: 0 <= j < i ==> rest[j].Good?;
        assert answers[i + 1] == FirstBad(answers);
        forall j | 0 <= j < i + 1 ensures answers[j].Good? {
          assert j > 0 ==> answers[j] == rest[j - 1];
        }
      } else if answers[0].Bad? {
        assert answers[0] == FirstBad(answers);
      }
    }
  }

  lemma FirstBadOfTwo(a: Reply, b: Reply)
    ensures FirstBad([a, b]) == if a.Bad? then a else b
  {
    assert [a, b][1..] == [b] && [b][1..] == [];
    assert FirstBad([b]) == if b.Bad? then b else FirstBad([]);
  }

  lemma FirstBadOfThree(a: Reply, b: Reply, c: Reply)
    ensures FirstBad([a, b, c]) == if a.Bad? then a else if b.Bad? then b else c
  {
    assert [a, b, c][1..] == [b, c];
    FirstBadOfTwo(b, c);
  }

  predicate Fine(s: Stage) {
    s.state.Completed? || s.state.Skipped?
  }

  ghost predicate AllFine(stages: seq<Stage>) {
    forall i :: 0 <= i < |stages| ==> Fine(stages[i])
  }

  /** The parts that were acted on, in order. */
  function Performed(stages: seq<Stage>): seq<Part> {
    if stages == [] then []
    else
      var last := stages[|stages| - 1];
      Performed(stages[..|stages| - 1]) + if last.state.Skipped? then [] else [last.part]
  }

  lemma PerformedNext(stages: seq<Stage>, s: Stage)
    ensures Performed(stages + [s]) == Performed(stages) + if s.state.Skipped? then [] else [s.part]
  {
    assert (stages + [s])[..|stages|] == stages;
  }

  lemma FineNext(stages: seq<Stage>, s: Stage)
    requires AllFine(stages)
    ensures var more := stages + [s];
            && (AllFine(more) <==> Fine(s)) && more[..|stages|] == stages && more[|stages|] == s
            && forall i :: 0 <= i < |more| - 1 ==> Fine(more[i])
  {
    assert Fine((stages + [s])[|stages|]) <==> Fine(s);
  }

  /** The fixed order of a method's stages. */
  function Order(m: Method): seq<Part> {
    match m
    case Ensure => [Workspace, Persist, Server, Persist, Persist, Mutagen]
    case Pause => [Mutagen, Server, Persist]
    case Resolve => [Mutagen, Server, Persist]
    case Resume => [Server, Mutagen, Persist]
    case Reset => [Server, Mutagen, Persist]
  }

  lemma ActionFirstBad(m: Method, dryRun: bool, a: ActionAnswers)
    ensures var local := FirstBad([a.locally.recheck, MutagenReply(a.locally.applied, dryRun)]);
            var server := FirstBad([a.recheck, a.server, Confirmed(a.matches)]);
            FirstBad(ActionOrder(m, dryRun, a))
            == if m.Pause? || m.Resolve? then
                 if local.Bad? then local else if server.Bad? then server else a.persist
               else
                 if server.Bad? then server else if local.Bad? then local else a.persist
  {
    var local := [a.locally.recheck, MutagenReply(a.locally.applied, dryRun)];
    var server := [a.recheck, a.server, Confirmed(a.matches)];
    FirstBadConcat(local, server);
    FirstBadConcat(local + server, [a.persist]);
    FirstBadConcat(server, local);
    FirstBadConcat(server + local, [a.persist]);
    assert [a.persist][1..] == [];
  }

  lemma CreateFirstBad(a: EnsureAnswers)
    ensures FirstBad(CreateOrder(a))
         == if a.recheck.Bad? then a.recheck else if a.identity.Bad? then a.identity
            else if a.workspace.Bad? then a.workspace else if !a.workspaceMatches then Bad(OutcomeUnknown)
            else if a.firstPersist.Bad? then a.firstPersist else if a.secondRecheck.Bad? then a.secondRecheck
            else if a.server.Bad? then a.server else if !a.serverMatches then Bad(OutcomeUnknown)
            else a.secondPersist
  {
    var x := [a.recheck, a.identity, a.workspace];
    var y := [Confirmed(a.workspaceMatches), a.firstPersist, a.secondRecheck];
    var z := [a.server, Confirmed(a.serverMatches), a.secondPersist];
    assert CreateOrder(a) == x + (y + z);
    FirstBadConcat(x, y + z);
    FirstBadConcat(y, z);
    FirstBadOfThree(a.recheck, a.identity, a.workspace);
    FirstBadOfThree(Confirmed(a.workspaceMatches), a.firstPersist, a.secondRecheck);
    FirstBadOfThree(a.server, Confirmed(a.serverMatches), a.secondPersist);
  }

  lemma EnsureFirstBad(dryRun: bool, a: EnsureAnswers)
    ensures var wait := WaitReply(a.status, a.looks);
            var local := FirstBad([a.locally.recheck, MutagenReply(a.locally.applied, dryRun)]);
            FirstBad(EnsureOrder(dryRun, a))
            == if FirstBad(CreateOrder(a)).Bad? then FirstBad(CreateOrder(a))
               else if wait.Bad? then wait else if a.thirdPersist.Bad? then a.thirdPersist else local
  {
    var tail := [a.locally.recheck, MutagenReply(a.locally.applied, dryRun)];
    var middle := [WaitReply(a.status, a.looks), a.thirdPersist];
    assert EnsureOrder(dryRun, a) == CreateOrder(a) + (middle + tail);
    FirstBadConcat(CreateOrder(a), middle + tail);
    FirstBadConcat(middle, tail);
    FirstBadOfTwo(WaitReply(a.status, a.looks), a.thirdPersist);
  }

  /** The stages start `order`; only Mutagen is ever skipped, and only, and always, in a dry run. */
  ghost predicate Follows(stages: seq<Stage>, order: seq<Part>, dryRun: bool) {
    |stages| <= |order|
    && forall i :: 0 <= i < |stages| ==>
         stages[i].part == order[i] && (stages[i].state.Skipped? <==> stages[i].part.Mutagen? && dryRun)
  }

  /** Ensuring can also end with a second, failed server stage: the session was created but did not get ready. */
  ghost predicate NeverReady(stages: seq<Stage>, dryRun: bool) {
    |stages| == 5 && AllFine(stages[..4]) && Follows(stages[..4], Order(Ensure), dryRun)
    && stages[4] == Stage(Server, Failed)
  }

  /** The outcome, the error and the stages tell one story. */
  ghost predicate Consistent(outcome: Outcome, error: Option<Code>, stages: seq<Stage>) {
    && (forall i :: 0 <= i < |stages| - 1 ==> Fine(stages[i]))
    && (outcome.Whole? <==> error.None? && AllFine(stages))
    && (outcome.Whole? <==> error.None?)
    && (outcome.Uncertain? <==> stages != [] && stages[|stages| - 1].state.Unknown?)
  }

  class Receipt {
    const operation: Method
    const dryRun: bool
    var outcome: Outcome
    var stages: seq<Stage>
    var error: Option<Code>
    /** The changes asked of other parties so far. */
    var issued: seq<Part>

    /** Nothing has gone wrong so far. */
    ghost predicate Clean()
      reads this
    {
      outcome.Whole? && error.None? && AllFine(stages) && issued == Performed(stages)
    }

    /** Where an operation stands once `reply` is its result so far: its stages are in order and name every change
        that was issued; a failure is either the last stage's or left no stage. */
    ghost predicate Standing(reply: Reply)
      reads this
    {
      Consistent(outcome, error, stages) && issued == Performed(stages) && Follows(stages, Order(operation), dryRun)
      && (reply.Good? ==> Clean()) && (error.Some? ==> reply == Bad(error.value))
    }

    constructor (operation: Method, dryRun: bool)
      ensures this.operation == operation && this.dryRun == dryRun && stages == [] && Clean()
    {
      this.operation, this.dryRun := operation, dryRun;
      outcome, stages, error, issued := Whole, [], None, [];
    }

    method Issue(part: Part)
      modifies this`issued
      ensures issued == old(issued) + [part]
    {
      issued := issued + [part];
    }

    /** Adds a stage, and on failure makes it the story of the receipt. */
    method Record(part: Part, reply: Reply) returns (r: Reply)
      modifies this`stages, this`outcome, this`error
      ensures r == reply
      ensures reply.Good? ==> stages == old(stages) + [Stage(part, Completed)] && outcome == old(outcome)
                              && error == old(error)
      ensures reply.Bad? ==>
                error == Some(reply.code)
                && if reply.code == OutcomeUnknown then
                     outcome == Uncertain && stages == old(stages) + [Stage(part, Unknown)]
                   else outcome == Partial && stages == old(stages) + [Stage(part, Failed)]
      ensures Performed(stages) == Performed(old(stages)) + [part]
    {
      match reply {
        case Good =>
          PerformedNext(stages, Stage(part, Completed));
          stages := stages + [Stage(part, Completed)];
        case Bad(code) =>
          var unknown := code == OutcomeUnknown;
          PerformedNext(stages, Stage(part, if unknown then Unknown else Failed));
          stages := stages + [Stage(part, if unknown then Unknown else Failed)];
          outcome := if unknown then Uncertain else Partial;
          error := Some(code);
      }
      r := reply;
    }

    /** A change asked of another party, and the stage that says what came of it. */
    method Perform(part: Part, reply: Reply, confirmed: bool) returns (r: Reply)
      requires Clean()
      modifies this`issued, this`stages, this`outcome, this`error
      ensures issued == Performed(stages)
      ensures r == if reply.Bad? then reply else if confirmed then Good else Bad(OutcomeUnknown)
      ensures |stages| == |old(stages)| + 1 && stages[..|old(stages)|] == old(stages)
      ensures stages[|old(stages)|].part == part && !stages[|old(stages)|].state.Skipped?
      ensures r.Good? ==> Clean()
      ensures r.Bad? ==> error == Some(r.code) && !Fine(stages[|old(stages)|])
      ensures Consistent(outcome, error, stages)
    {
      FineNext(stages, Stage(part, Completed));
      FineNext(stages, Stage(part, Failed));
      FineNext(stages, Stage(part, Unknown));
      Issue(part);
      if reply.Bad? {
        r := Record(part, reply);
        return;
      }
      r := Record(part, if confirmed then Good else Bad(OutcomeUnknown));
    }

    /** Mutagen's answer becomes a stage; one that may have changed something is made uncertain. */
    method Apply(applied: Applied) returns (r: Reply)
      requires Clean()
      modifies this`issued, this`stages, this`outcome, this`error
      ensures issued == Performed(stages)
      ensures r == if applied.Does? then Good else Bad(applied.code)
      ensures stages == old(stages) + [Stage(Mutagen, MutagenState(applied))]
      ensures r.Good? ==> Clean()
      ensures r.Bad? ==> error == Some(r.code)
      ensures Consistent(outcome, error, stages)
    {
      var before := stages;
      Issue(Mutagen);
      match applied {
        case Does =>
          FineNext(before, Stage(Mutagen, Completed));
          r := Record(Mutagen, Good);
        case DoesNot(code, changed) =>
          FineNext(before, Stage(Mutagen, Failed));
          FineNext(before, Stage(Mutagen, Unknown));
          PerformedNext(before, Stage(Mutagen, Unknown));
          r := Record(Mutagen, Bad(code));
          assert stages[..|stages| - 1] == before && stages[|stages| - 1].part == Mutagen;
          if changed {
            outcome := Uncertain;
            stages := before + [Stage(Mutagen, Unknown)];
          }
      }
    }

    /** The local Mutagen step. */
    method Local(a: LocalAnswers) returns (r: Reply)
      requires Clean()
      modifies this`issued, this`stages, this`outcome, this`error
      ensures issued == Performed(stages)
      ensures r == FirstBad([a.recheck, MutagenReply(a.applied, dryRun)])
      ensures a.recheck.Bad? ==> r == a.recheck && stages == old(stages) && Clean()
      ensures a.recheck.Good? ==>
                |stages| == |old(stages)| + 1 && stages[..|old(stages)|] == old(stages)
                && stages[|old(stages)|].part == Mutagen && (stages[|old(stages)|].state.Skipped? <==> dryRun)
                && (r.Good? <==> Fine(stages[|old(stages)|]))
      ensures r.Good? ==> Clean()
      ensures r.Bad? && a.recheck.Good? ==>
                !dryRun && a.applied.DoesNot? && a.applied.code == r.code && error == Some(r.code)
                && (outcome.Uncertain? <==> a.applied.mayHaveChanged || r.code == OutcomeUnknown)
      ensures Consistent(outcome, error, stages)
    {
      FirstBadOfTwo(a.recheck, MutagenReply(a.applied, dryRun));
      if a.recheck.Bad? {
        return a.recheck;
      }
      if dryRun {
        FineNext(stages, Stage(Mutagen, Skipped));
        PerformedNext(stages, Stage(Mutagen, Skipped));
        stages := stages + [Stage(Mutagen, Skipped)];
        return Good;
      }
      r := Apply(a.applied);
    }

    /** Pause and resolve act locally first, resume and reset on the server first. */
    method Act(a: ActionAnswers) returns (r: Reply)
      requires Clean() && stages == [] && !operation.Ensure?
      modifies this`issued, this`stages, this`outcome, this`error
      ensures Standing(r)
      ensures r == FirstBad(ActionOrder(operation, dryRun, a))
      ensures r.Good? <==> |stages| == 3 && AllFine(stages)
    {
      ActionFirstBad(operation, dryRun, a);
      FirstBadOfThree(a.recheck, a.server, Confirmed(a.matches));
      var first := operation.Pause? || operation.Resolve?;
      if first {
        r := Local(a.locally);
        if r.Bad? {
          return;
        }
      }
      if a.recheck.Bad? {
        return a.recheck;
      }
      r := Perform(Server, a.server, a.matches);
      if r.Bad? {
        return;
      }
      if !first {
        r := Local(a.locally);
        if r.Bad? {
          return;
        }
      }
      r := Perform(Persist, a.persist, true);
    }

    /** Waits for the created session to get ready. */
    method Await(first: Status, looks: seq<Look>) returns (r: Reply)
      requires Clean() && |stages| == 4 && operation.Ensure? && Follows(stages, Order(Ensure), dryRun)
      modifies this`stages, this`outcome, this`error
      ensures r == WaitReply(first, looks)
      ensures |stages| >= 4 && issued == Performed(stages[..4]) && Consistent(outcome, error, stages)
      ensures r.Good? ==> stages == old(stages) && Clean()
      ensures r.Bad? ==> (stages == old(stages) && Clean()) || (NeverReady(stages, dryRun) && error == Some(r.code))
      ensures stages == old(stages) || |stages| == 5
    {
      assert stages[..4] == stages;
      var status, i := first, 0;
      assert looks[0..] == looks;
      while !status.Ready?
        invariant 0 <= i <= |looks|
        invariant stages == old(stages) && Clean()
        invariant WaitReply(status, looks[i..]) == WaitReply(first, looks)
        decreases |looks| - i
      {
        if status.Gone? {
          r := Record(Server, Bad(PrepareFailed));
          return;
        }
        if i == |looks| {
          r := Record(Server, Bad(PrepareTimeout));
          return;
        }
        if looks[i].fetched.Bad? {
          return looks[i].fetched;
        }
        if looks[i].validated.Bad? {
          return looks[i].validated;
        }
        assert looks[i..][0] == looks[i] && looks[i..][1..] == looks[i + 1..];
        status := looks[i].status;
        i := i + 1;
      }
      r := Good;
    }

    /** Creates and persists the workspace and the session. */
    method Create(a: EnsureAnswers) returns (r: Reply)
      requires Clean() && stages == [] && operation.Ensure?
      modifies this`issued, this`stages, this`outcome, this`error
      ensures Standing(r) && |stages| <= 4
      ensures r == FirstBad(CreateOrder(a))
      ensures r.Good? <==> |stages| == 4 && AllFine(stages)
    {
      CreateFirstBad(a);
      if a.recheck.Bad? {
        return a.recheck;
      }
      if a.identity.Bad? {
        return a.identity;
      }
      r := Perform(Workspace, a.workspace, a.workspaceMatches);
      if r.Bad? {
        return;
      }
      r := Perform(Persist, a.firstPersist, true);
      if r.Bad? {
        return;
      }
      if a.secondRecheck.Bad? {
        return a.secondRecheck;
      }
      r := Perform(Server, a.server, a.serverMatches);
      if r.Bad? {
        return;
      }
      r := Perform(Persist, a.secondPersist, true);
    }

    /** Creates the session, waits for it, persists it again and then acts locally. */
    method EnsureSync(a: EnsureAnswers) returns (r: Reply)
      requires Clean() && stages == [] && operation.Ensure?
      modifies this`issued, this`stages, this`outcome, this`error
      ensures Standing(r)
              || (NeverReady(stages, dryRun) && issued == Performed(stages[..4]) && Consistent(outcome, error, stages)
                  && r.Bad? && error == Some(r.code))
      ensures r == FirstBad(EnsureOrder(dryRun, a))
      ensures r.Good? <==> |stages| == 6 && AllFine(stages)
    {
      EnsureFirstBad(dryRun, a);
      r := Create(a);
      if r.Bad? {
        return;
      }
      r := Await(a.status, a.looks);
      if r.Bad? {
        return;
      }
      r := Perform(Persist, a.thirdPersist, true);
      if r.Bad? {
        return;
      }
      r := Local(a.locally);
    }
  }

  /** A complete receipt: its story is consistent, its stages are in the method's order and name every change that was
      issued, and it calls the operation whole exactly when every stage of that order was reached and went well. */
  ghost predicate Honest(outcome: Outcome, error: Option<Code>, stages: seq<Stage>, issued: seq<Part>, m: Method,
                         dryRun: bool) {
    && Consistent(outcome, error, stages)
    && (if m.Ensure? && NeverReady(stages, dryRun) then issued == Performed(stages[..4])
        else issued == Performed(stages) && Follows(stages, Order(m), dryRun))
    && (outcome.Whole? <==> |stages| == |Order(m)| && AllFine(stages))
  }

  /** What an operation asks for, in order. */
  function Asked(m: Method, dryRun: bool, act: ActionAnswers, ensuring: EnsureAnswers): seq<Reply> {
    if m.Ensure? then EnsureOrder(dryRun, ensuring) else ActionOrder(m, dryRun, act)
  }

  /** An operation: the answer of the checks that precede it, then its stages.  The receipt is whole exactly when no
      answer it asked for was bad, and otherwise carries the code of the first bad one. */
  method Mutate(m: Method, dryRun: bool, checks: Reply, hasSession: bool, act: ActionAnswers, ensuring: EnsureAnswers)
    returns (reply: Reply, receipt: Option<Receipt>)
    ensures reply.Good? <==> receipt.Some?
    ensures receipt.Some? <==> checks.Good? && (m.Ensure? || hasSession)
    ensures receipt.None? ==> reply == if checks.Bad? then checks else Bad(NotFound)
    ensures receipt.Some? ==>
              var r := receipt.value;
              fresh(r) && r.operation == m && r.dryRun == dryRun
              && Honest(r.outcome, r.error, r.stages, r.issued, m, dryRun)
              && (r.outcome.Whole? <==> FirstBad(Asked(m, dryRun, act, ensuring)).Good?)
              && r.error == match FirstBad(Asked(m, dryRun, act, ensuring))
                            case Good => None
                            case Bad(code) => Some(code)
  {
    if checks.Bad? {
      return checks, None;
    }
    if !m.Ensure? && !hasSession {
      return Bad(NotFound), None;
    }
    var r := new Receipt(m, dryRun);
    var result;
    if m.Ensure? {
      result := r.EnsureSync(ensuring);
    } else {
      result := r.Act(act);
    }
    if result.Bad? && r.error.None? {
      r.outcome := Partial;
      r.error := Some(result.code);
    }
    return Good, Some(r);
  }

  /** Reading an honest receipt: at most the last stage is to blame, and Mutagen and server come in the method's
      order. */
  lemma ReadReceipt(outcome: Outcome, error: Option<Code>, stages: seq<Stage>, issued: seq<Part>, m: Method,
                    dryRun: bool, i: nat)
    requires Honest(outcome, error, stages, issued, m, dryRun) && i < |stages|
    ensures !Fine(stages[i]) ==> i == |stages| - 1 && error.Some?
    ensures stages[i].part.Mutagen? && Fine(stages[i]) && m in {Pause, Resolve} ==> i == 0
    ensures stages[i].part.Mutagen? && m in {Resume, Reset} ==> i == 1 && stages[0] == Stage(Server, Completed)
    ensures stages[i].part.Server? && m in {Pause, Resolve} ==> i == 1 && Fine(stages[0])
  {
    assert forall k :: 0 <= k < |stages| - 1 ==> Fine(stages[k]);
  }
}
