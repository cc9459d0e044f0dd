/** NewStream in every run: how often it dials, what it holds, and what the record it writes says. */
module Creation {
  import opened Domain
  import opened Protocol
  import opened Growth
  import opened Invariant
  import opened Safety
  import opened RecordHistory
  import opened Sequential
  import opened Requests

  // ---------- dialling ----------

  function OutcomeOf(step: Step, t: CallId): seq<DialOutcome> {
    if step.ByNew? && step.t == t && step.create.NewDial? then [step.create.outcome] else []
  }

  /** The outcomes of the call's dials, in order. */
  function Outcomes(run: seq<Step>, t: CallId): seq<DialOutcome> {
    if run == [] then [] else Outcomes(run[..|run| - 1], t) + OutcomeOf(run[|run| - 1], t)
  }

  predicate AllFailed(os: seq<DialOutcome>) {
    forall i :: 0 <= i < |os| ==> os[i].DialFailed?
  }

  /** The last dial got through, and its connection also closed, or not; all before it failed. */
  predicate EndsIn(os: seq<DialOutcome>, last: DialOutcome) {
    os != [] && os[|os| - 1] == last && AllFailed(os[..|os| - 1])
  }

  /** Where a NewStream is says what its dials were, and the other way round. */
  predicate DialledTo(n: NewCall, os: seq<DialOutcome>) {
    && |os| == n.dials
    && (n.pc in {NPrepare, NMint, NStart} ==> os == [])
    && (n.pc == NDial <==> AllFailed(os) && |os| < 6 && n.pc !in {NPrepare, NMint, NStart, NFailed})
    && (n.pc in {NListen, NCompose, NStoreRecord, NStoreLive, NDone} <==> EndsIn(os, Connected))
    && (n.pc == NAbort || (n.pc == NFailed && os != []) <==> EndsIn(os, CloseFailed) || (AllFailed(os) && |os| == 6))
  }

  lemma DialsOn(n: NewCall, os: seq<DialOutcome>, outcome: DialOutcome)
    requires n.pc == NDial && DialledTo(n, os)
    ensures DialledTo(AfterDial(n, outcome), os + [outcome])
  {
    assert (os + [outcome])[..|os|] == os;
    assert outcome.DialFailed? ==> AllFailed(os + [outcome]);
    assert !outcome.DialFailed? ==> !AllFailed(os + [outcome]) by { assert (os + [outcome])[|os|] == outcome; }
  }

  lemma MovesOn(s: State, t: CallId, a: NewAction, os: seq<DialOutcome>)
    requires NewEnabled(s, t, a) && !a.NewDial? && DialledTo(s.calls[t].n, os)
    ensures DialledTo(NewMove(s, t, a).call.n, os)
  {}

  lemma StepsOn(s: State, t: CallId, a: NewAction, os: seq<DialOutcome>)
    requires NewEnabled(s, t, a) && DialledTo(s.calls[t].n, os)
    ensures DialledTo(NewMove(s, t, a).call.n, os + OutcomeOf(ByNew(t, a), t))
  {
    if a.NewDial? {
      DialsOn(s.calls[t].n, os, a.outcome);
    } else {
      assert os + [] == os;
      MovesOn(s, t, a, os);
    }
  }

  lemma OwnNewMoves(r: State, step: Step, t: CallId)
    requires Enabled(r, step) && step.ByNew? && step.t == t
    ensures NewEnabled(r, t, step.create) && t in Effect(r, step).calls
    ensures Effect(r, step).calls[t] == NewMove(r, t, step.create).call
  {}

  lemma OtherNewStays(r: State, step: Step, t: CallId)
    requires Enabled(r, step) && !step.Tick? && t in Effect(r, step).calls && Effect(r, step).calls[t].TNew?
    requires !(step.ByNew? && step.t == t)
    ensures if t in r.calls then Effect(r, step).calls[t] == r.calls[t]
            else step.Begin? && step.t == t && Effect(r, step).calls[t] == FirstCall(step.request)
  {}

  lemma {:induction false} NoDialBefore(run: seq<Step>, t: CallId)
    requires Exec(run).Some? && t !in Exec(run).value.calls
    ensures Outcomes(run, t) == []
  {
    if run != [] {
      LastStepAt(run, Exec(run).value);
      var before, step := run[..|run| - 1], run[|run| - 1];
      assert !(step.ByNew? && step.t == t);
      assert t !in Exec(before).value.calls;
      NoDialBefore(before, t);
    }
  }

  /** In every run, dial by dial: a NewStream goes on as soon as a connection is made and closed, gives up as soon as
      one does not close, and otherwise gives up after exactly six dials that failed. */
  lemma {:induction false} DialsDecide(run: seq<Step>, s: State, t: CallId)
    requires Reached(run, s) && t in s.calls && s.calls[t].TNew?
    ensures DialledTo(s.calls[t].n, Outcomes(run, t))
  {
    LastStepAt(run, s);
    var before, step := run[..|run| - 1], run[|run| - 1];
    var r := Exec(before).value;
    var os := Outcomes(before, t);
    assert Outcomes(run, t) == os + OutcomeOf(step, t);
    if step.ByNew? && step.t == t {
      OwnNewMoves(r, step, t);
      DialsDecide(before, r, t);
      StepsOn(r, t, step.create, os);
    } else {
      assert os + [] == os;
      if !step.Tick? { OtherNewStays(r, step, t); }
      if t in r.calls { DialsDecide(before, r, t); } else { NoDialBefore(before, t); }
    }
  }

  /** Said with the number: who gives up after dialling had a connection that did not close, or dialled six times; and
      when five dials fail and the sixth connects, the NewStream goes on. */
  lemma SixDials(run: seq<Step>, s: State, t: CallId)
    requires Reached(run, s) && t in s.calls && s.calls[t].TNew?
    ensures var n, os := s.calls[t].n, Outcomes(run, t);
            && |os| == n.dials <= 6
            && (n.pc == NAbort || (n.pc == NFailed && n.dials > 0) ==> CloseFailed in os || n.dials == 6)
            && (os == [DialFailed, DialFailed, DialFailed, DialFailed, DialFailed, Connected] ==>
                  n.pc in {NListen, NCompose, NStoreRecord, NStoreLive, NDone})
  {
    DialsDecide(run, s, t);
    ReachedCall(run, s, t);
    var os := Outcomes(run, t);
    if os == [DialFailed, DialFailed, DialFailed, DialFailed, DialFailed, Connected] {
      assert AllFailed(os[..5]);
    }
  }

  // ---------- failing before dialling ----------

  ghost predicate Failure(run: seq<Step>, t: CallId, n: NewCall) {
    && (n.pc == NFailed && n.dials == 0 ==> !KnownMode(n.cfg) || ByNew(t, NewStart(None)) in run)
    && (n.pc != NPrepare && n.pc != NFailed ==> KnownMode(n.cfg))
    && (n.pc == NFailed && n.dials > 0 ==> KnownMode(n.cfg))
  }

  lemma FailureMoves(run: seq<Step>, s: State, t: CallId, a: NewAction)
    requires NewEnabled(s, t, a) && Failure(run, t, s.calls[t].n) && NewShaped(s.calls[t].n)
    ensures Failure(run + [ByNew(t, a)], t, NewMove(s, t, a).call.n)
  {
    assert ByNew(t, a) in run + [ByNew(t, a)];
  }

  /** A NewStream that failed before dialling had an unknown launch mode, or its process did not start; the empty mode
      is known. */
  lemma {:induction false} FailsOnlyFor(run: seq<Step>, s: State, t: CallId)
    requires Reached(run, s) && t in s.calls && s.calls[t].TNew?
    ensures Failure(run, t, s.calls[t].n)
  {
    LastStepAt(run, s);
    var before, step := run[..|run| - 1], run[|run| - 1];
    var r := Exec(before).value;
    assert run == before + [step];
    if step.Tick? {
      FailsOnlyFor(before, r, t);
    } else if step.ByNew? && step.t == t {
      FailsOnlyFor(before, r, t);
      ReachedCall(before, r, t);
      FailureMoves(before, r, t, step.create);
    } else {
      OtherNewStays(r, step, t);
      if t in r.calls { FailsOnlyFor(before, r, t); }
    }
  }

  // ---------- the host's token ----------

  ghost predicate HoldsToken(s: State, t: CallId, c: Call) {
    c.TNew? && (Started(c.n) || c.n.pc == NStart) ==>
      HasToken(s, c.n.token, Signed(t, Claims(c.n.stream, c.n.host, true)))
  }

  lemma MoveHoldsToken(s: State, t: CallId, a: NewAction)
    requires NewEnabled(s, t, a) && HoldsToken(s, t, s.calls[t])
    ensures HoldsToken(Perform(s, t, NewMove(s, t, a)), t, NewMove(s, t, a).call)
  {}

  /** From its mint on, a NewStream holds a token for its stream and its host, as a host, signed with its own key. */
  lemma {:induction false} HostTokenHeld(run: seq<Step>, s: State, t: CallId)
    requires Reached(run, s) && t in s.calls
    ensures HoldsToken(s, t, s.calls[t])
  {
    if s.calls[t].TNew? {
      LastStepAt(run, s);
      var before, step := run[..|run| - 1], run[|run| - 1];
      var r := Exec(before).value;
      if step.Tick? {
        HostTokenHeld(before, r, t);
      } else if step.ByNew? && step.t == t {
        HostTokenHeld(before, r, t);
        MoveHoldsToken(r, t, step.create);
      } else {
        OtherNewStays(r, step, t);
        Invariance(before);
        StepKeeps(r, step);
        if t in r.calls { HostTokenHeld(before, r, t); }
      }
    }
  }

  // ---------- the record ----------

  /** The record that a NewStream with this configuration writes for its stream and host. */
  predicate RecordOf(info: StreamInfo, cfg: StreamConfig, stream: Uuid, host: Uuid, endpoint: Endpoint) {
    && info.uuid == stream && info.name == cfg.name && info.description == cfg.description
    && info.subject == cfg.subject && info.join == cfg.join
    && info.launchMode == (if cfg.launchMode == "" then "standalone_app" else cfg.launchMode)
    && info.ip == endpoint.ip && info.port == endpoint.port
    && info.host.uuid == host && info.host.username == cfg.hostName
    && info.host.avatarId == cfg.hostAvatarId && info.host.ip == cfg.hostIp
    && info.status == "running" && info.finishedAt.None?
  }

  /** Every creation in the history is of the stream's own NewStream, with what it composed. */
  ghost predicate CreatedFrom(s: State, x: Uuid, info: StreamInfo) {
    exists t :: CreatedBy(s, x, t) && t in s.calls && s.calls[t].TNew? && s.calls[t].n.info == Some(info)
  }

  ghost predicate CreationsKnown(s: State, x: Uuid) {
    forall i :: 0 <= i < |Events(s, x)| && Events(s, x)[i].Created? ==> CreatedFrom(s, x, Events(s, x)[i].info)
  }

  lemma CreatedStays(s: State, s': State, x: Uuid, info: StreamInfo)
    requires CreatedFrom(s, x, info) && Grows(s, s')
    ensures CreatedFrom(s', x, info)
  {
    var t :| CreatedBy(s, x, t) && t in s.calls && s.calls[t].TNew? && s.calls[t].n.info == Some(info);
    assert CreatedBy(s', x, t) && t in s'.calls && s'.calls[t].n.info == Some(info);
  }

  lemma CreationWrites(s: State, step: Step)
    requires Enabled(s, step) && !step.Tick? && MoveOf(s, step).write.PutRecord? && MoveOf(s, step).write.event.Created?
    requires step.t in s.calls ==> CallOk(s, step.t, s.calls[step.t])
    ensures CreatedFrom(s, MoveOf(s, step).write.stream, MoveOf(s, step).write.event.info)
  {
    assert step.ByNew?;
  }

  lemma {:induction false} CreationsAreKnown(run: seq<Step>, s: State, x: Uuid)
    requires Reached(run, s)
    ensures CreationsKnown(s, x)
  {
    if run != [] {
      LastStepAt(run, s);
      var before, step := run[..|run| - 1], run[|run| - 1];
      var r := Exec(before).value;
      CreationsAreKnown(before, r, x);
      RunGrows(run, |before|);
      if step.Tick? {
        assert Events(s, x) == Events(r, x);
      } else {
        EventsAfterWrite(r, step.t, MoveOf(r, step), x);
        if step.t in r.calls { ReachedCall(before, r, step.t); }
        if MoveOf(r, step).write.PutRecord? && MoveOf(r, step).write.event.Created? { CreationWrites(r, step); }
      }
      forall i | 0 <= i < |Events(s, x)| && Events(s, x)[i].Created? ensures CreatedFrom(s, x, Events(s, x)[i].info) {
        if i < |Events(r, x)| { assert Events(r, x)[i] == Events(s, x)[i]; }
        CreatedStays(r, s, x, Events(s, x)[i].info);
      }
    }
  }

  /** In every run: what the history of a stream begins with is the record of a request, that of the NewStream that
      generated the stream's UUID. */
  lemma CreationIsRequested(run: seq<Step>, s: State, x: Uuid, i: nat)
    requires Reached(run, s) && i < |Events(s, x)| && Events(s, x)[i].Created?
    ensures exists t :: t in s.calls && s.calls[t].TNew? && CreatedBy(s, x, t)
                     && Begin(t, NewRequest(s.calls[t].n.cfg)) in run
                     && RecordOf(Events(s, x)[i].info, s.calls[t].n.cfg, x, s.calls[t].n.host, s.calls[t].n.endpoint)
  {
    CreationsAreKnown(run, s, x);
    var info := Events(s, x)[i].info;
    assert CreatedFrom(s, x, info);
    var t :| CreatedBy(s, x, t) && t in s.calls && s.calls[t].TNew? && s.calls[t].n.info == Some(info);
    ReachedCall(run, s, t);
    ReachedOrigin(run, s, x);
    CallIsRequested(run, s, t);
  }
}
