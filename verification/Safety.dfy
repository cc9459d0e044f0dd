/** Every step of every operation keeps the invariant, so every run does. */
module Safety {
  import opened Domain
  import opened Protocol
  import opened Growth
  import opened Invariant

  // ---------- joins ----------

  /** The join loads, registers and goes through the switch. */
  predicate Arriving(a: JoinAction) {
    a.JoinLoadRecord? || a.JoinLoadLive? || a.JoinRegister? || a.JoinSwitch?
  }

  lemma ArrivalShaped(s: State, t: CallId, a: JoinAction)
    requires JoinEnabled(s, t, a) && Shaped(s.calls[t]) && Arriving(a)
    ensures Shaped(JoinMove(s, t, a).call)
  {}

  lemma AdmissionShaped(s: State, t: CallId, a: JoinAction)
    requires JoinEnabled(s, t, a) && Shaped(s.calls[t]) && !Arriving(a)
    ensures Shaped(JoinMove(s, t, a).call)
  {}

  lemma JoinAdvances(s: State, t: CallId, a: JoinAction)
    requires JoinEnabled(s, t, a) && Shaped(s.calls[t])
    ensures Advances(s, t, JoinMove(s, t, a))
  {
    match a {
      case JoinLoadRecord =>
      case JoinLoadLive(id) =>
      case JoinRegister =>
      case JoinSwitch =>
      case JoinMint(token) =>
      case JoinLoadRoster =>
      case JoinStoreRoster =>
      case JoinUnregister =>
    }
  }

  /** What the tables hand to the join that reads them. */
  ghost predicate JoinInput(s: State, s': State, j: JoinCall) {
    && (j.stream in s.records ==> VersionOk(s', j.stream, s.records[j.stream]))
    && (j.stream in s.live ==> LiveOk(s, j.stream, s.live[j.stream]))
    && (j.stream in s.rosters ==> RosterOk(s', j.stream, s.rosters[j.stream]))
  }

  lemma ArrivalOutcome(s: State, t: CallId, a: JoinAction, s': State)
    requires JoinEnabled(s, t, a) && (a.JoinLoadRecord? || a.JoinLoadLive?)
    requires s' == Perform(s, t, JoinMove(s, t, a)) && Shaped(s.calls[t])
    requires JoinOk(s', t, s.calls[t].j) && JoinInput(s, s', s.calls[t].j)
    ensures JoinOk(s', t, JoinMove(s, t, a).call.j) && WriteOk(s, s', t, JoinMove(s, t, a).write)
  {}

  lemma RegistrationOutcome(s: State, t: CallId, a: JoinAction, s': State)
    requires JoinEnabled(s, t, a) && (a.JoinRegister? || a.JoinSwitch?)
    requires s' == Perform(s, t, JoinMove(s, t, a)) && Shaped(s.calls[t])
    requires JoinOk(s', t, s.calls[t].j)
    ensures JoinOk(s', t, JoinMove(s, t, a).call.j) && WriteOk(s, s', t, JoinMove(s, t, a).write)
  {
    if a.JoinRegister? { RegisterOutcome(s, t, s'); } else { SwitchOutcome(s, t, s'); }
  }

  lemma RegisterOutcome(s: State, t: CallId, s': State)
    requires JoinAt(s, t, JRegister) && s' == Perform(s, t, JoinMove(s, t, JoinRegister)) && Shaped(s.calls[t])
    requires JoinOk(s', t, s.calls[t].j)
    ensures var m := JoinMove(s, t, JoinRegister); JoinOk(s', t, m.call.j) && WriteOk(s, s', t, m.write)
  {}

  lemma SwitchOutcome(s: State, t: CallId, s': State)
    requires JoinEnabled(s, t, JoinSwitch) && s' == Perform(s, t, JoinMove(s, t, JoinSwitch)) && Shaped(s.calls[t])
    requires JoinOk(s', t, s.calls[t].j)
    ensures var m := JoinMove(s, t, JoinSwitch); JoinOk(s', t, m.call.j) && WriteOk(s, s', t, m.write)
  {}

  lemma AdmissionOutcome(s: State, t: CallId, a: JoinAction, s': State)
    requires JoinEnabled(s, t, a) && (a.JoinMint? || a.JoinLoadRoster? || a.JoinUnregister?)
    requires s' == Perform(s, t, JoinMove(s, t, a)) && Shaped(s.calls[t])
    requires JoinOk(s', t, s.calls[t].j) && JoinInput(s, s', s.calls[t].j)
    ensures JoinOk(s', t, JoinMove(s, t, a).call.j) && WriteOk(s, s', t, JoinMove(s, t, a).write)
  {}

  lemma JoinInputOk(s: State, s': State, j: JoinCall)
    requires Inv(s) && Grows(s, s')
    ensures JoinInput(s, s', j)
  {
    if j.stream in s.records { VersionStays(s, s', j.stream, s.records[j.stream]); }
    if j.stream in s.rosters { RosterStays(s, s', j.stream, s.rosters[j.stream]); }
  }

  /** What the join knew stays known. */
  lemma JoinGround(s: State, t: CallId, a: JoinAction, s': State)
    requires Inv(s) && JoinEnabled(s, t, a) && s' == Perform(s, t, JoinMove(s, t, a))
    ensures CallOk(s, t, s.calls[t]) && Advances(s, t, JoinMove(s, t, a)) && Grows(s, s')
    ensures JoinOk(s', t, s.calls[t].j) && JoinInput(s, s', s.calls[t].j)
  {
    assert CallOk(s, t, s.calls[t]);
    JoinAdvances(s, t, a);
    PerformGrows(s, t, JoinMove(s, t, a));
    JoinStays(s, s', t, s.calls[t].j);
    JoinInputOk(s, s', s.calls[t].j);
  }

  lemma JoinInOrder(s: State, t: CallId, a: JoinAction)
    requires Inv(s) && JoinEnabled(s, t, a)
    ensures InOrder(s, t, JoinMove(s, t, a))
  {
    JoinGround(s, t, a, Perform(s, t, JoinMove(s, t, a)));
    if Arriving(a) {
      ArrivalInOrder(s, t, a);
    } else {
      AdmissionInOrder(s, t, a);
    }
  }

  ghost predicate JoinGrounded(s: State, t: CallId, a: JoinAction) {
    && JoinEnabled(s, t, a) && CallOk(s, t, s.calls[t]) && Advances(s, t, JoinMove(s, t, a))
    && var s' := Perform(s, t, JoinMove(s, t, a));
       Grows(s, s') && JoinOk(s', t, s.calls[t].j) && JoinInput(s, s', s.calls[t].j)
  }

  lemma ArrivalInOrder(s: State, t: CallId, a: JoinAction)
    requires JoinGrounded(s, t, a) && Arriving(a)
    ensures InOrder(s, t, JoinMove(s, t, a))
  {
    var s' := Perform(s, t, JoinMove(s, t, a));
    ArrivalShaped(s, t, a);
    if a.JoinRegister? || a.JoinSwitch? { RegistrationOutcome(s, t, a, s'); } else { ArrivalOutcome(s, t, a, s'); }
  }

  lemma AdmissionInOrder(s: State, t: CallId, a: JoinAction)
    requires JoinGrounded(s, t, a) && !Arriving(a)
    ensures InOrder(s, t, JoinMove(s, t, a))
  {
    var s' := Perform(s, t, JoinMove(s, t, a));
    AdmissionShaped(s, t, a);
    if a.JoinStoreRoster? { StoredRosterOk(s, s', t); } else { AdmissionOutcome(s, t, a, s'); }
  }

  /** The joiner is not in the copy it loaded: everyone there had entered, and it had not. */
  lemma StoredRosterOk(s: State, s': State, t: CallId)
    requires JoinAt(s, t, JStoreRoster) && CallOk(s, t, s.calls[t]) && s' == Perform(s, t, JoinMove(s, t, JoinStoreRoster))
    requires Grows(s, s')
    ensures var j := s.calls[t].j; RosterOk(s', j.stream, j.copy + [Persisted(j.me)])
  {
    var j := s.calls[t].j;
    RosterStays(s, s', j.stream, j.copy);
    JoinerNotInCopy(s, t);
    JoinerIsMember(s, s', t);
  }

  lemma JoinerNotInCopy(s: State, t: CallId)
    requires JoinAt(s, t, JStoreRoster) && CallOk(s, t, s.calls[t])
    ensures var j := s.calls[t].j; forall i :: 0 <= i < |j.copy| ==> j.copy[i].uuid != j.me.uuid
  {
    var j := s.calls[t].j;
    forall i | 0 <= i < |j.copy| ensures j.copy[i].uuid != j.me.uuid {
      assert MemberOk(s, j.stream, j.copy[i]);
    }
  }

  lemma JoinerIsMember(s: State, s': State, t: CallId)
    requires JoinAt(s, t, JStoreRoster) && CallOk(s, t, s.calls[t]) && s' == Perform(s, t, JoinMove(s, t, JoinStoreRoster))
    ensures MemberOk(s', s.calls[t].j.stream, Persisted(s.calls[t].j.me))
  {}

  // ---------- decisions ----------

  lemma DecideOutcome(s: State, t: CallId, a: DecideAction, s': State)
    requires DecideEnabled(s, t, a) && s' == Perform(s, t, DecideMove(s, t, a)) && Grows(s, s')
    requires var k := (s.calls[t].d.stream, s.calls[t].d.participant);
             k in s.pending ==> PendingOk(s, k, s.pending[k])
                                && CallOk(s, s.origins[k.1].join, s.calls[s.origins[k.1].join])
    ensures CallOk(s', t, DecideMove(s, t, a).call)
  {}

  lemma DecideInOrder(s: State, t: CallId, a: DecideAction)
    requires Inv(s) && DecideEnabled(s, t, a)
    ensures InOrder(s, t, DecideMove(s, t, a))
  {
    var d := s.calls[t].d;
    PerformGrows(s, t, DecideMove(s, t, a));
    if (d.stream, d.participant) in s.pending {
      var u := s.origins[d.participant].join;
      assert CallOk(s, u, s.calls[u]);
    }
    DecideOutcome(s, t, a, Perform(s, t, DecideMove(s, t, a)));
  }

  lemma ReceiverOutcome(s: State, t: CallId, d: CallId, s': State)
    requires Enabled(s, Rendezvous(t, d)) && Shaped(s.calls[t])
    requires s' == Perform(s, t, ExchangeMove(s.calls[t].j, d, s.calls[d].d.allowed))
    requires JoinOk(s', t, s.calls[t].j)
    requires s.calls[t].j.stream == s.calls[d].d.stream && s.calls[t].j.me.uuid == s.calls[d].d.participant
    ensures CallOk(s', t, s'.calls[t])
  {}

  lemma SenderOutcome(s: State, t: CallId, d: CallId, s': State)
    requires Enabled(s, Rendezvous(t, d)) && Shaped(s.calls[t])
    requires s' == Perform(s, t, ExchangeMove(s.calls[t].j, d, s.calls[d].d.allowed))
    requires JoinOk(s', t, s.calls[t].j)
    requires s.calls[t].j.stream == s.calls[d].d.stream && s.calls[t].j.me.uuid == s.calls[d].d.participant
    ensures CallOk(s', d, s'.calls[d])
  {}

  lemma RendezvousAdvances(s: State, t: CallId, d: CallId)
    requires Enabled(s, Rendezvous(t, d)) && Shaped(s.calls[t])
    ensures Advances(s, t, ExchangeMove(s.calls[t].j, d, s.calls[d].d.allowed))
  {}

  lemma RendezvousInOrder(s: State, t: CallId, d: CallId)
    requires Inv(s) && Enabled(s, Rendezvous(t, d))
    ensures InOrder(s, t, ExchangeMove(s.calls[t].j, d, s.calls[d].d.allowed))
  {
    var m := ExchangeMove(s.calls[t].j, d, s.calls[d].d.allowed);
    var s' := Perform(s, t, m);
    assert CallOk(s, t, s.calls[t]) && CallOk(s, d, s.calls[d]);
    RendezvousAdvances(s, t, d);
    PerformGrows(s, t, m);
    JoinStays(s, s', t, s.calls[t].j);
    ReceiverOutcome(s, t, d, s');
    SenderOutcome(s, t, d, s');
  }

  // ---------- new streams ----------

  lemma NewMoveShaped(s: State, t: CallId, a: NewAction)
    requires NewEnabled(s, t, a) && Shaped(s.calls[t])
    ensures Shaped(NewMove(s, t, a).call)
  {
    match a {
      case NewPrepare(stream, host) =>
      case NewMint(token) =>
      case NewStart(started) =>
      case NewDial(outcome) =>
      case NewAbort =>
      case NewListen(listener) =>
      case NewCompose =>
      case NewStoreRecord =>
      case NewStoreLive =>
    }
  }

  lemma NewMoveGrows(s: State, t: CallId, a: NewAction)
    requires NewEnabled(s, t, a) && Shaped(s.calls[t])
    ensures CallGrows(s.calls[t], NewMove(s, t, a).call)
  {
    match a {
      case NewPrepare(stream, host) =>
      case NewMint(token) =>
      case NewStart(started) =>
      case NewDial(outcome) =>
      case NewAbort =>
      case NewListen(listener) =>
      case NewCompose =>
      case NewStoreRecord =>
      case NewStoreLive =>
    }
  }

  lemma NewAdvances(s: State, t: CallId, a: NewAction)
    requires NewEnabled(s, t, a) && CallOk(s, t, s.calls[t])
    requires s.calls[t].n.stream in s.processes ==> ProcessKnown(s, s.calls[t].n.stream)
    ensures Advances(s, t, NewMove(s, t, a))
  {
    NewMoveGrows(s, t, a);
  }

  lemma PreparingOutcome(s: State, t: CallId, a: NewAction, s': State)
    requires NewEnabled(s, t, a) && (a.NewPrepare? || a.NewMint?)
    requires s' == Perform(s, t, NewMove(s, t, a)) && CallOk(s', t, s.calls[t]) && Shaped(NewMove(s, t, a).call)
    ensures CallOk(s', t, NewMove(s, t, a).call) && WriteOk(s, s', t, NewMove(s, t, a).write)
  {}

  lemma StartingOutcome(s: State, t: CallId, a: NewAction, s': State)
    requires NewEnabled(s, t, a) && (a.NewStart? || a.NewDial? || a.NewAbort?)
    requires s' == Perform(s, t, NewMove(s, t, a)) && CallOk(s', t, s.calls[t]) && Shaped(NewMove(s, t, a).call)
    requires Started(s.calls[t].n) ==> s.calls[t].n.stream in s.processes
    ensures CallOk(s', t, NewMove(s, t, a).call) && WriteOk(s, s', t, NewMove(s, t, a).write)
  {
    match a {
      case NewStart(started) =>
      case NewDial(outcome) =>
      case NewAbort =>
    }
  }

  lemma ComposingOutcome(s: State, t: CallId, a: NewAction, s': State)
    requires NewEnabled(s, t, a) && (a.NewListen? || a.NewCompose?)
    requires s' == Perform(s, t, NewMove(s, t, a)) && CallOk(s', t, s.calls[t]) && Shaped(NewMove(s, t, a).call)
    ensures CallOk(s', t, NewMove(s, t, a).call) && WriteOk(s, s', t, NewMove(s, t, a).write)
  {}

  lemma PublishingOutcome(s: State, t: CallId, a: NewAction, s': State)
    requires NewEnabled(s, t, a) && (a.NewStoreRecord? || a.NewStoreLive?)
    requires s' == Perform(s, t, NewMove(s, t, a)) && CallOk(s', t, s.calls[t]) && Shaped(NewMove(s, t, a).call)
    ensures CallOk(s', t, NewMove(s, t, a).call) && WriteOk(s, s', t, NewMove(s, t, a).write)
  {}

  lemma NewGround(s: State, t: CallId, a: NewAction, s': State)
    requires Inv(s) && NewEnabled(s, t, a) && s' == Perform(s, t, NewMove(s, t, a))
    ensures CallOk(s, t, s.calls[t]) && Advances(s, t, NewMove(s, t, a)) && CallOk(s', t, s.calls[t])
  {
    assert CallOk(s, t, s.calls[t]);
    NewAdvances(s, t, a);
    PerformGrows(s, t, NewMove(s, t, a));
    CallStays(s, s', t, s.calls[t]);
  }

  lemma NewInOrder(s: State, t: CallId, a: NewAction)
    requires Inv(s) && NewEnabled(s, t, a)
    ensures InOrder(s, t, NewMove(s, t, a))
  {
    var s' := Perform(s, t, NewMove(s, t, a));
    NewGround(s, t, a, s');
    NewMoveShaped(s, t, a);
    if a.NewPrepare? || a.NewMint? {
      PreparingOutcome(s, t, a, s');
    } else if a.NewListen? || a.NewCompose? {
      ComposingOutcome(s, t, a, s');
    } else if a.NewStoreRecord? || a.NewStoreLive? {
      PublishingOutcome(s, t, a, s');
    } else {
      StartingOutcome(s, t, a, s');
    }
  }

  // ---------- patches and kills ----------

  lemma PatchInOrder(s: State, t: CallId, a: PatchAction)
    requires Inv(s) && PatchEnabled(s, t, a)
    ensures InOrder(s, t, PatchMove(s, t, a))
  {
    PatchGround(s, t, a, Perform(s, t, PatchMove(s, t, a)));
    PatchOutcome(s, t, a, Perform(s, t, PatchMove(s, t, a)));
  }

  lemma PatchGround(s: State, t: CallId, a: PatchAction, s': State)
    requires Inv(s) && PatchEnabled(s, t, a) && s' == Perform(s, t, PatchMove(s, t, a))
    ensures Advances(s, t, PatchMove(s, t, a)) && CallOk(s', t, s.calls[t])
    ensures var x := s.calls[t].p.stream; x in s.records ==> VersionOk(s', x, s.records[x])
  {
    var x := s.calls[t].p.stream;
    assert CallOk(s, t, s.calls[t]);
    PerformGrows(s, t, PatchMove(s, t, a));
    CallStays(s, s', t, s.calls[t]);
    if x in s.records { VersionStays(s, s', x, s.records[x]); }
  }

  lemma PatchOutcome(s: State, t: CallId, a: PatchAction, s': State)
    requires PatchEnabled(s, t, a) && s' == Perform(s, t, PatchMove(s, t, a)) && CallOk(s', t, s.calls[t])
    requires s.calls[t].p.stream in s.records ==> VersionOk(s', s.calls[t].p.stream, s.records[s.calls[t].p.stream])
    ensures CallOk(s', t, PatchMove(s, t, a).call) && WriteOk(s, s', t, PatchMove(s, t, a).write)
  {}

  lemma StoppingOutcome(s: State, t: CallId, a: KillAction, s': State)
    requires KillEnabled(s, t, a) && CallOk(s, t, s.calls[t]) && !(a.KillLoadRecord? || a.KillStamp? || a.KillStoreRecord?)
    requires s' == Perform(s, t, KillMove(s, t, a)) && CallOk(s', t, s.calls[t])
    requires s.calls[t].k.stream in s.live ==>
      LiveOk(s, s.calls[t].k.stream, s.live[s.calls[t].k.stream]) && s.calls[t].k.stream in s.processes
    ensures CallOk(s', t, KillMove(s, t, a).call) && WriteOk(s, s', t, KillMove(s, t, a).write)
  {}

  lemma FinishingOutcome(s: State, t: CallId, a: KillAction, s': State)
    requires KillEnabled(s, t, a) && CallOk(s, t, s.calls[t]) && (a.KillLoadRecord? || a.KillStamp? || a.KillStoreRecord?)
    requires s' == Perform(s, t, KillMove(s, t, a)) && CallOk(s', t, s.calls[t])
    requires s.calls[t].k.stream in s.records ==> VersionOk(s', s.calls[t].k.stream, s.records[s.calls[t].k.stream])
    ensures CallOk(s', t, KillMove(s, t, a).call) && WriteOk(s, s', t, KillMove(s, t, a).write)
  {}

  lemma KillAdvances(s: State, t: CallId, a: KillAction)
    requires KillEnabled(s, t, a) && Shaped(s.calls[t])
    ensures Advances(s, t, KillMove(s, t, a))
  {}

  lemma LiveHasProcess(s: State, stream: Uuid)
    requires Inv(s) && stream in s.live
    ensures LiveOk(s, stream, s.live[stream]) && stream in s.processes
  {
    assert LiveOk(s, stream, s.live[stream]);
    assert CallOk(s, s.live[stream].key, s.calls[s.live[stream].key]);
  }

  lemma KillGround(s: State, t: CallId, a: KillAction, s': State)
    requires Inv(s) && KillEnabled(s, t, a) && s' == Perform(s, t, KillMove(s, t, a))
    ensures CallOk(s, t, s.calls[t]) && Advances(s, t, KillMove(s, t, a)) && CallOk(s', t, s.calls[t])
    ensures var stream := s.calls[t].k.stream; stream in s.records ==> VersionOk(s', stream, s.records[stream])
  {
    assert CallOk(s, t, s.calls[t]);
    KillAdvances(s, t, a);
    PerformGrows(s, t, KillMove(s, t, a));
    CallStays(s, s', t, s.calls[t]);
    var stream := s.calls[t].k.stream;
    if stream in s.records { VersionStays(s, s', stream, s.records[stream]); }
  }

  lemma KillInOrder(s: State, t: CallId, a: KillAction)
    requires Inv(s) && KillEnabled(s, t, a)
    ensures InOrder(s, t, KillMove(s, t, a))
  {
    var s' := Perform(s, t, KillMove(s, t, a));
    KillGround(s, t, a, s');
    if a.KillLoadRecord? || a.KillStamp? || a.KillStoreRecord? {
      FinishingOutcome(s, t, a, s');
    } else {
      if s.calls[t].k.stream in s.live { LiveHasProcess(s, s.calls[t].k.stream); }
      StoppingOutcome(s, t, a, s');
    }
  }

  lemma BeginInOrder(s: State, t: CallId, request: Request)
    requires t !in s.calls
    ensures InOrder(s, t, Move(FirstCall(request), NoWrite))
  {}

  lemma StopInOrder(s: State, t: CallId, a: StopAction)
    requires StopEnabled(s, t, a)
    ensures InOrder(s, t, StopMove(s, t, a))
  {}

  lemma ListInOrder(s: State, t: CallId, a: ListAction)
    requires ListEnabled(s, t, a)
    ensures InOrder(s, t, ListMove(s, t, a))
  {}

  // ---------- every run ----------

  lemma StepInOrder(s: State, step: Step)
    requires Inv(s) && Enabled(s, step) && !step.Tick?
    ensures InOrder(s, step.t, MoveOf(s, step))
  {
    match step {
      case Begin(t, request) => BeginInOrder(s, t, request);
      case ByJoin(t, a) => JoinInOrder(s, t, a);
      case ByDecide(t, a) => DecideInOrder(s, t, a);
      case Rendezvous(t, d) => RendezvousInOrder(s, t, d);
      case ByNew(t, a) => NewInOrder(s, t, a);
      case ByPatch(t, a) => PatchInOrder(s, t, a);
      case ByKill(t, a) => KillInOrder(s, t, a);
      case ByStop(t, a) => StopInOrder(s, t, a);
      case ByList(t, a) => ListInOrder(s, t, a);
    }
  }

  lemma StepKeeps(s: State, step: Step)
    requires Inv(s) && Enabled(s, step)
    ensures Inv(Effect(s, step)) && Grows(s, Effect(s, step))
  {
    if step.Tick? {
      TickKeeps(s, step.now);
    } else {
      StepInOrder(s, step);
      PerformKeeps(s, step.t, MoveOf(s, step));
    }
  }

  lemma {:induction false} Invariance(steps: seq<Step>)
    requires Exec(steps).Some?
    ensures Inv(Exec(steps).value)
  {
    if steps != [] {
      Invariance(steps[..|steps| - 1]);
      StepKeeps(Exec(steps[..|steps| - 1]).value, steps[|steps| - 1]);
    }
  }

  // ---------- what a reached state gives, one thing at a time ----------

  /** s is reached by a run from empty storage. */
  ghost predicate Reached(steps: seq<Step>, s: State) {
    Exec(steps) == Some(s)
  }

  lemma ReachedCall(steps: seq<Step>, s: State, t: CallId)
    requires Reached(steps, s) && t in s.calls
    ensures CallOk(s, t, s.calls[t])
  {
    Invariance(steps);
  }

  lemma ReachedOrigin(steps: seq<Step>, s: State, u: Uuid)
    requires Reached(steps, s) && u in s.origins
    ensures OriginOk(s, u, s.origins[u])
  {
    Invariance(steps);
  }

  lemma ReachedRoster(steps: seq<Step>, s: State, stream: Uuid)
    requires Reached(steps, s)
    ensures RosterOk(s, stream, Roster(s, stream))
  {
    Invariance(steps);
  }

  lemma ReachedRecord(steps: seq<Step>, s: State, stream: Uuid)
    requires Reached(steps, s) && stream in s.records
    ensures VersionOk(s, stream, s.records[stream])
  {
    Invariance(steps);
  }

  lemma ReachedLive(steps: seq<Step>, s: State, stream: Uuid)
    requires Reached(steps, s) && stream in s.live
    ensures LiveOk(s, stream, s.live[stream])
  {
    Invariance(steps);
  }

  lemma ReachedToken(steps: seq<Step>, s: State, token: string)
    requires Reached(steps, s) && token in s.tokens
    ensures TokenOk(s, token, s.tokens[token])
  {
    Invariance(steps);
  }

  lemma ReachedPending(steps: seq<Step>, s: State, k: (Uuid, Uuid))
    requires Reached(steps, s) && k in s.pending
    ensures PendingOk(s, k, s.pending[k])
  {
    Invariance(steps);
  }

  lemma ReachedProcess(steps: seq<Step>, s: State, p: Uuid)
    requires Reached(steps, s) && p in s.processes
    ensures ProcessKnown(s, p)
  {
    Invariance(steps);
  }

  lemma {:induction false} PrefixReached(steps: seq<Step>, n: nat)
    requires Exec(steps).Some? && n <= |steps|
    ensures Exec(steps[..n]).Some?
  {
    if n < |steps| {
      assert steps[..|steps| - 1][..n] == steps[..n];
      PrefixReached(steps[..|steps| - 1], n);
    } else {
      assert steps[..n] == steps;
    }
  }

  lemma {:induction false} RunGrows(steps: seq<Step>, n: nat)
    requires Exec(steps).Some? && n <= |steps|
    ensures Exec(steps[..n]).Some? && Grows(Exec(steps[..n]).value, Exec(steps).value)
  {
    PrefixReached(steps, n);
    if n == |steps| {
      assert steps[..n] == steps;
      GrowsReflexive(Exec(steps).value);
    } else {
      var before := steps[..|steps| - 1];
      assert before[..n] == steps[..n];
      RunGrows(before, n);
      Invariance(before);
      StepKeeps(Exec(before).value, steps[|steps| - 1]);
      GrowsTransitive(Exec(steps[..n]).value, Exec(before).value, Exec(steps).value);
    }
  }
}
