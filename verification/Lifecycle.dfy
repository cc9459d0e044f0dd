/** Streams from start to finish: how the record table, the live table and the started processes
    agree, told through the history of each stream. */
module Lifecycle {
  import opened Domain
  import opened Protocol
  import opened Growth
  import opened Invariant
  import opened Safety
  import opened RecordHistory

  // ---------- what a history says ----------

  /** created, registered, deleted, finished: whether such an event happened.
      blind: a killStream that had found no live entry stored its finish before any live entry was deleted. */
  datatype Life = Life(created: bool, registered: bool, deleted: bool, finished: bool, blind: bool)

  const UNBORN := Life(false, false, false, false, false)

  function After(l: Life, e: Event): Life {
    match e
    case Created(_) => l.(created := true)
    case Registered => l.(registered := true)
    case Patched(_, _) => l
    case Deleted(_) => l.(deleted := true)
    case Finished(blind, _, _) => l.(finished := true, blind := l.blind || (blind && !l.deleted))
  }

  function LifeOf(events: seq<Event>): Life {
    if events == [] then UNBORN else After(LifeOf(events[..|events| - 1]), events[|events| - 1])
  }

  lemma LifeOfAppend(events: seq<Event>, e: Event)
    ensures LifeOf(events + [e]) == After(LifeOf(events), e)
  {
    assert (events + [e])[..|events|] == events;
  }

  /** It only accumulates. */
  predicate LifeGrows(l: Life, l': Life) {
    && (l.created ==> l'.created) && (l.registered ==> l'.registered) && (l.deleted ==> l'.deleted)
    && (l.finished ==> l'.finished) && (l.blind ==> l'.blind)
  }

  lemma {:induction false} LifeOfPrefix(events: seq<Event>, events': seq<Event>)
    requires events <= events'
    ensures LifeGrows(LifeOf(events), LifeOf(events'))
  {
    if |events| < |events'| {
      LifeOfPrefix(events, events'[..|events'| - 1]);
    } else {
      assert events == events';
    }
  }

  function LifeIn(s: State, stream: Uuid): Life {
    LifeOf(Events(s, stream))
  }

  lemma LifeInGrows(s: State, s': State, stream: Uuid)
    requires Grows(s, s')
    ensures LifeGrows(LifeIn(s, stream), LifeIn(s', stream))
  {
    LifeOfPrefix(Events(s, stream), Events(s', stream));
  }

  // ---------- the invariant ----------

  /** The call is a killStream that found the stream live and has deleted the entry. */
  ghost predicate KilledBy(s: State, t: CallId, stream: Uuid) {
    t in s.calls && s.calls[t].TKill? && s.calls[t].k.stream == stream && s.calls[t].k.found && PastDelete(s.calls[t].k)
  }

  ghost predicate CreatorRecorded(s: State, stream: Uuid) {
    && stream in s.origins && s.origins[stream].OfStream?
    && var t := s.origins[stream].creator;
       t in s.calls && s.calls[t].TNew? && Recorded(s.calls[t].n)
  }

  ghost predicate CreatorDone(s: State, stream: Uuid) {
    stream in s.origins && s.origins[stream].OfStream? && NewAt(s, s.origins[stream].creator, NDone)
  }

  ghost predicate TablesAgree(s: State, stream: Uuid) {
    var l := LifeIn(s, stream);
    && (l.created <==> stream in s.records)
    && (l.created <==> CreatorRecorded(s, stream))
    && (l.registered <==> CreatorDone(s, stream))
    && (stream in s.live <==> l.registered && !l.deleted)
    && (l.deleted ==> l.registered)
    && (l.finished ==> l.created)
  }

  ghost predicate StatusAgrees(s: State, stream: Uuid) {
    var l := LifeIn(s, stream);
    && (stream in s.records && !l.registered && l.finished ==> s.records[stream].status == STATUS_FINISHED)
    && (!l.blind && l.finished ==> l.deleted)
  }

  ghost predicate DeleterKnown(s: State, stream: Uuid) {
    LifeIn(s, stream).deleted ==> Stops(s, stream) >= 1 && exists t :: KilledBy(s, t, stream)
  }

  ghost predicate StreamOk(s: State, stream: Uuid) {
    TablesAgree(s, stream) && StatusAgrees(s, stream) && DeleterKnown(s, stream)
  }

  /** What a call in progress knows of its stream's history. */
  ghost predicate CallAgrees(s: State, c: Call) {
    match c
    case TPatch(p) =>
      p.pc == PStoreRecord ==> LifeIn(s, p.stream).registered && p.copy.Some?
    case TKill(k) =>
      var l := LifeIn(s, k.stream);
      && (k.found ==> l.registered)
      && (k.found && PastDelete(k) ==> l.deleted)
      && (k.found && k.pc == KDone ==> l.finished)
      && (k.pc == KDelete ==> Stops(s, k.stream) >= 1)
    case TNew(n) => n.pc == NFailed && n.dials > 0 ==> Stops(s, n.stream) >= 1
    case _ => true
  }

  ghost predicate LifeInv(s: State) {
    && (forall stream: Uuid :: StreamOk(s, stream))
    && (forall t <- s.calls :: CallAgrees(s, s.calls[t]))
  }

  // ---------- steps that write no record and no live entry of the stream ----------

  /** A call passes a publishing point of NewStream only with the write that publishes. */
  ghost predicate PublishesByWriting(s: State, t: CallId, m: Move) {
    && (m.write.NameStream? ==> m.call.TNew? && !Recorded(m.call.n))
    && if t in s.calls && s.calls[t].TNew? then
      var n := s.calls[t].n;
      && m.call.TNew? && CallGrows(s.calls[t], m.call)
      && (Recorded(m.call.n) ==> Recorded(n) || (m.write.PutRecord? && m.write.stream == n.stream))
      && (m.call.n.pc == NDone ==> n.pc == NDone || (m.write.PutLive? && m.write.stream == n.stream))
    else
      (m.call.TNew? ==> !Recorded(m.call.n))
  }

  lemma NewPublishesByWriting(s: State, t: CallId, a: NewAction)
    requires NewEnabled(s, t, a) && CallGrows(s.calls[t], NewMove(s, t, a).call)
    ensures PublishesByWriting(s, t, NewMove(s, t, a))
  {}

  lemma OthersPublishNothing(s: State, step: Step)
    requires Enabled(s, step) && !step.Tick? && !step.ByNew?
    ensures PublishesByWriting(s, step.t, MoveOf(s, step))
  {}

  lemma QuietForCreator(s: State, t: CallId, m: Move, stream: Uuid)
    requires Advances(s, t, m) && !Touches(m.write, stream) && PublishesByWriting(s, t, m)
    requires stream in s.origins ==> OriginOk(s, stream, s.origins[stream])
    ensures CreatorRecorded(Perform(s, t, m), stream) <==> CreatorRecorded(s, stream)
    ensures CreatorDone(Perform(s, t, m), stream) <==> CreatorDone(s, stream)
  {}

  lemma QuietForTables(s: State, t: CallId, m: Move, stream: Uuid)
    requires Advances(s, t, m) && !Touches(m.write, stream) && PublishesByWriting(s, t, m)
    requires TablesAgree(s, stream)
    requires stream in s.origins ==> OriginOk(s, stream, s.origins[stream])
    ensures TablesAgree(Perform(s, t, m), stream)
  {
    var s' := Perform(s, t, m);
    assert Events(s', stream) == Events(s, stream);
    QuietForCreator(s, t, m, stream);
  }

  lemma QuietForStatus(s: State, t: CallId, m: Move, stream: Uuid)
    requires !Touches(m.write, stream) && StatusAgrees(s, stream)
    ensures StatusAgrees(Perform(s, t, m), stream)
  {
    assert Events(Perform(s, t, m), stream) == Events(s, stream);
  }

  lemma DeleterStaysKnown(s: State, s': State, stream: Uuid)
    requires Grows(s, s') && DeleterKnown(s, stream)
    requires LifeIn(s', stream).deleted ==> LifeIn(s, stream).deleted
    ensures DeleterKnown(s', stream)
  {
    if LifeIn(s, stream).deleted {
      var u :| KilledBy(s, u, stream);
      assert KilledBy(s', u, stream);
      assert Stops(s, stream) <= Stops(s', stream);
    }
  }

  /** The tables agree afterwards; and what deleted the live entry is known if this did. */
  ghost predicate Agrees(s: State, s': State, stream: Uuid) {
    && TablesAgree(s', stream) && StatusAgrees(s', stream)
    && (LifeIn(s', stream).deleted ==> LifeIn(s, stream).deleted || DeleterKnown(s', stream))
  }

  // ---------- the writes of a stream's life ----------

  /** The tables after a write of a live entry or a record, and nothing else about other calls. */
  lemma RecordCreated(s: State, t: CallId, s': State)
    requires NewAt(s, t, NStoreRecord) && s.calls[t].n.info.Some? && s.calls[t].n.info.value.status == STATUS_RUNNING
    requires var x := s.calls[t].n.stream;
             && CreatedBy(s, x, t) && CreatedBy(s', x, t) && NewAt(s', t, NStoreLive)
             && s'.live == s.live && s'.records == s.records[x := s.calls[t].n.info.value]
             && Events(s', x) == Events(s, x) + [Created(s.calls[t].n.info.value)]
             && StreamOk(s, x)
    ensures Agrees(s, s', s.calls[t].n.stream)
  {
    LifeOfAppend(Events(s, s.calls[t].n.stream), Created(s.calls[t].n.info.value));
  }

  lemma StreamRegistered(s: State, t: CallId, s': State)
    requires NewAt(s, t, NStoreLive)
    requires var x := s.calls[t].n.stream;
             && CreatedBy(s, x, t) && CreatedBy(s', x, t) && NewAt(s', t, NDone)
             && s'.records == s.records && s'.live == s.live[x := Module(t, x)]
             && Events(s', x) == Events(s, x) + [Registered]
             && StreamOk(s, x)
    ensures Agrees(s, s', s.calls[t].n.stream)
  {
    LifeOfAppend(Events(s, s.calls[t].n.stream), Registered);
  }

  /** The stream's NewStream call is where it was. */
  ghost predicate CreatorStays(s: State, s': State, stream: Uuid) {
    && (CreatorRecorded(s', stream) <==> CreatorRecorded(s, stream))
    && (CreatorDone(s', stream) <==> CreatorDone(s, stream))
  }

  lemma RecordPatched(s: State, p: PatchCall, s': State)
    requires p.pc == PStoreRecord && p.copy.Some? && CallAgrees(s, TPatch(p)) && StreamOk(s, p.stream)
    requires s'.live == s.live && s'.records == s.records[p.stream := ApplyPatch(p.copy.value, p.cfg)]
    requires Events(s', p.stream) == Events(s, p.stream) + [Patched(p.seen, p.cfg)] && CreatorStays(s, s', p.stream)
    ensures Agrees(s, s', p.stream)
  {
    LifeOfAppend(Events(s, p.stream), Patched(p.seen, p.cfg));
  }

  lemma RecordFinished(s: State, k: KillCall, s': State)
    requires k.copy.Some? && PastDelete(k) && CallAgrees(s, TKill(k)) && StreamOk(s, k.stream)
    requires CreatorRecorded(s, k.stream) && CreatorStays(s, s', k.stream)
    requires s'.live == s.live && s'.records == s.records[k.stream := Finish(k.copy.value, k.at)]
    requires Events(s', k.stream) == Events(s, k.stream) + [Finished(!k.found, k.seen, k.at)]
    ensures Agrees(s, s', k.stream)
  {
    LifeOfAppend(Events(s, k.stream), Finished(!k.found, k.seen, k.at));
  }

  lemma EntryDeleted(s: State, t: CallId, k: KillCall, s': State)
    requires k.pc == KDelete && k.found && CallAgrees(s, TKill(k)) && StreamOk(s, k.stream)
    requires CreatorStays(s, s', k.stream) && KilledBy(s', t, k.stream)
    requires s'.records == s.records && s'.live == s.live - {k.stream} && s'.processes == s.processes
    requires Events(s', k.stream) == Events(s, k.stream) + [Deleted(t)]
    ensures Agrees(s, s', k.stream)
  {
    LifeOfAppend(Events(s, k.stream), Deleted(t));
  }

  // ---------- every step keeps it ----------

  lemma QuietKeepsStream(s: State, t: CallId, m: Move, stream: Uuid)
    requires Advances(s, t, m) && !Touches(m.write, stream) && PublishesByWriting(s, t, m) && StreamOk(s, stream)
    requires stream in s.origins ==> OriginOk(s, stream, s.origins[stream])
    ensures Agrees(s, Perform(s, t, m), stream)
  {
    QuietForTables(s, t, m, stream);
    QuietForStatus(s, t, m, stream);
    assert Events(Perform(s, t, m), stream) == Events(s, stream);
  }

  lemma StoreRecordKeepsStream(s: State, t: CallId)
    requires NewAt(s, t, NStoreRecord) && CallOk(s, t, s.calls[t]) && StreamOk(s, s.calls[t].n.stream)
    ensures Agrees(s, Perform(s, t, NewMove(s, t, NewStoreRecord)), s.calls[t].n.stream)
  {
    RecordCreated(s, t, Perform(s, t, NewMove(s, t, NewStoreRecord)));
  }

  lemma StoreLiveKeepsStream(s: State, t: CallId)
    requires NewAt(s, t, NStoreLive) && CallOk(s, t, s.calls[t]) && StreamOk(s, s.calls[t].n.stream)
    ensures Agrees(s, Perform(s, t, NewMove(s, t, NewStoreLive)), s.calls[t].n.stream)
  {
    StreamRegistered(s, t, Perform(s, t, NewMove(s, t, NewStoreLive)));
  }

  lemma NewKeepsStream(s: State, t: CallId, a: NewAction, stream: Uuid)
    requires NewEnabled(s, t, a) && CallOk(s, t, s.calls[t]) && StreamOk(s, stream)
    requires Advances(s, t, NewMove(s, t, a))
    requires stream in s.origins ==> OriginOk(s, stream, s.origins[stream])
    ensures Agrees(s, Perform(s, t, NewMove(s, t, a)), stream)
  {
    if a.NewStoreRecord? && s.calls[t].n.stream == stream {
      StoreRecordKeepsStream(s, t);
    } else if a.NewStoreLive? && s.calls[t].n.stream == stream {
      StoreLiveKeepsStream(s, t);
    } else {
      NewPublishesByWriting(s, t, a);
      QuietKeepsStream(s, t, NewMove(s, t, a), stream);
    }
  }

  lemma PatchKeepsStream(s: State, t: CallId, a: PatchAction, stream: Uuid)
    requires PatchEnabled(s, t, a) && CallAgrees(s, s.calls[t]) && StreamOk(s, stream)
    requires Advances(s, t, PatchMove(s, t, a))
    requires stream in s.origins ==> OriginOk(s, stream, s.origins[stream])
    ensures Agrees(s, Perform(s, t, PatchMove(s, t, a)), stream)
  {
    if a.PatchStoreRecord? && s.calls[t].p.stream == stream {
      RecordPatched(s, s.calls[t].p, Perform(s, t, PatchMove(s, t, a)));
    } else {
      QuietKeepsStream(s, t, PatchMove(s, t, a), stream);
    }
  }

  lemma DeleteKeepsStream(s: State, t: CallId)
    requires KillAt(s, t, KDelete) && Shaped(s.calls[t]) && CallAgrees(s, s.calls[t]) && StreamOk(s, s.calls[t].k.stream)
    ensures Agrees(s, Perform(s, t, KillMove(s, t, KillDelete)), s.calls[t].k.stream)
  {
    EntryDeleted(s, t, s.calls[t].k, Perform(s, t, KillMove(s, t, KillDelete)));
  }

  lemma FinishKeepsStream(s: State, t: CallId)
    requires KillAt(s, t, KStoreRecord) && CallOk(s, t, s.calls[t]) && CallAgrees(s, s.calls[t])
    requires StreamOk(s, s.calls[t].k.stream)
    ensures Agrees(s, Perform(s, t, KillMove(s, t, KillStoreRecord)), s.calls[t].k.stream)
  {
    RecordFinished(s, s.calls[t].k, Perform(s, t, KillMove(s, t, KillStoreRecord)));
  }

  lemma KillKeepsStream(s: State, t: CallId, a: KillAction, stream: Uuid)
    requires KillEnabled(s, t, a) && CallOk(s, t, s.calls[t]) && CallAgrees(s, s.calls[t]) && StreamOk(s, stream)
    requires Advances(s, t, KillMove(s, t, a))
    requires stream in s.origins ==> OriginOk(s, stream, s.origins[stream])
    ensures Agrees(s, Perform(s, t, KillMove(s, t, a)), stream)
  {
    if a.KillStoreRecord? && s.calls[t].k.stream == stream {
      FinishKeepsStream(s, t);
    } else if a.KillDelete? && s.calls[t].k.stream == stream {
      DeleteKeepsStream(s, t);
    } else {
      QuietKeepsStream(s, t, KillMove(s, t, a), stream);
    }
  }

  lemma MoveKeepsStream(s: State, step: Step, stream: Uuid)
    requires Enabled(s, step) && !step.Tick? && Advances(s, step.t, MoveOf(s, step)) && StreamOk(s, stream)
    requires step.t in s.calls ==> CallOk(s, step.t, s.calls[step.t]) && CallAgrees(s, s.calls[step.t])
    requires stream in s.origins ==> OriginOk(s, stream, s.origins[stream])
    ensures Agrees(s, Effect(s, step), stream)
  {
    if step.ByNew? {
      NewKeepsStream(s, step.t, step.create, stream);
    } else if step.ByPatch? {
      PatchKeepsStream(s, step.t, step.patch, stream);
    } else if step.ByKill? {
      KillKeepsStream(s, step.t, step.kill, stream);
    } else {
      OthersKeepStream(s, step, stream);
    }
  }

  lemma OthersKeepStream(s: State, step: Step, stream: Uuid)
    requires Enabled(s, step) && !step.Tick? && !step.ByNew? && !step.ByPatch? && !step.ByKill?
    requires Advances(s, step.t, MoveOf(s, step)) && StreamOk(s, stream)
    requires stream in s.origins ==> OriginOk(s, stream, s.origins[stream])
    ensures Agrees(s, Effect(s, step), stream)
  {
    OthersPublishNothing(s, step);
    OthersTouchNothing(s, step, stream);
    QuietKeepsStream(s, step.t, MoveOf(s, step), stream);
  }

  lemma OthersTouchNothing(s: State, step: Step, stream: Uuid)
    requires Enabled(s, step) && !step.Tick? && !step.ByNew? && !step.ByPatch? && !step.ByKill?
    ensures !Touches(MoveOf(s, step).write, stream)
  {}

  lemma StepKeepsStream(s: State, step: Step, stream: Uuid)
    requires Inv(s) && LifeInv(s) && Enabled(s, step) && !step.Tick?
    ensures StreamOk(Effect(s, step), stream)
  {
    StepInOrder(s, step);
    PerformGrows(s, step.t, MoveOf(s, step));
    assert StreamOk(s, stream);
    MoveKeepsStream(s, step, stream);
    AgreementIsOk(s, Effect(s, step), stream);
  }

  lemma AgreementIsOk(s: State, s': State, stream: Uuid)
    requires StreamOk(s, stream) && Grows(s, s') && Agrees(s, s', stream)
    ensures StreamOk(s', stream)
  {
    if LifeIn(s, stream).deleted || !LifeIn(s', stream).deleted { DeleterStaysKnown(s, s', stream); }
  }

  lemma CallStaysInAgreement(s: State, s': State, c: Call)
    requires CallAgrees(s, c) && Grows(s, s')
    ensures CallAgrees(s', c)
  {
    match c {
      case TPatch(p) =>
        LifeInGrows(s, s', p.stream);
      case TKill(k) =>
        LifeInGrows(s, s', k.stream);
        assert Stops(s, k.stream) <= Stops(s', k.stream);
      case TNew(n) => assert Stops(s, n.stream) <= Stops(s', n.stream);
      case _ =>
    }
  }

  lemma PatchAgrees(s: State, t: CallId, a: PatchAction)
    requires PatchEnabled(s, t, a) && CallAgrees(s, s.calls[t]) && StreamOk(s, s.calls[t].p.stream)
    requires Grows(s, Perform(s, t, PatchMove(s, t, a)))
    ensures CallAgrees(Perform(s, t, PatchMove(s, t, a)), PatchMove(s, t, a).call)
  {
    LifeInGrows(s, Perform(s, t, PatchMove(s, t, a)), s.calls[t].p.stream);
  }

  lemma KillReadsAgree(s: State, t: CallId, a: KillAction)
    requires KillEnabled(s, t, a) && !a.KillStop? && !a.KillDelete? && !a.KillStoreRecord?
    requires Shaped(s.calls[t]) && CallAgrees(s, s.calls[t]) && StreamOk(s, s.calls[t].k.stream)
    ensures CallAgrees(s, KillMove(s, t, a).call)
  {}

  lemma KillStopAgrees(s: State, t: CallId)
    requires KillAt(s, t, KStop) && CallOk(s, t, s.calls[t]) && CallAgrees(s, s.calls[t])
    ensures CallAgrees(Perform(s, t, KillMove(s, t, KillStop)), KillMove(s, t, KillStop).call)
  {
    assert Events(Perform(s, t, KillMove(s, t, KillStop)), s.calls[t].k.stream) == Events(s, s.calls[t].k.stream);
  }

  lemma KillDeleteAgrees(s: State, t: CallId)
    requires KillAt(s, t, KDelete) && CallAgrees(s, s.calls[t])
    ensures CallAgrees(Perform(s, t, KillMove(s, t, KillDelete)), KillMove(s, t, KillDelete).call)
  {
    LifeOfAppend(Events(s, s.calls[t].k.stream), Deleted(t));
  }

  lemma KillStoreAgrees(s: State, t: CallId)
    requires KillAt(s, t, KStoreRecord) && s.calls[t].k.copy.Some? && CallAgrees(s, s.calls[t])
    ensures CallAgrees(Perform(s, t, KillMove(s, t, KillStoreRecord)), KillMove(s, t, KillStoreRecord).call)
  {
    var k := s.calls[t].k;
    LifeOfAppend(Events(s, k.stream), Finished(!k.found, k.seen, k.at));
  }

  lemma KillAgrees(s: State, t: CallId, a: KillAction)
    requires KillEnabled(s, t, a) && CallOk(s, t, s.calls[t]) && CallAgrees(s, s.calls[t]) && StreamOk(s, s.calls[t].k.stream)
    requires Grows(s, Perform(s, t, KillMove(s, t, a)))
    ensures CallAgrees(Perform(s, t, KillMove(s, t, a)), KillMove(s, t, a).call)
  {
    if a.KillStop? {
      KillStopAgrees(s, t);
    } else if a.KillDelete? {
      KillDeleteAgrees(s, t);
    } else if a.KillStoreRecord? {
      KillStoreAgrees(s, t);
    } else {
      KillReadsAgree(s, t, a);
      CallStaysInAgreement(s, Perform(s, t, KillMove(s, t, a)), KillMove(s, t, a).call);
    }
  }

  lemma NewAgrees(s: State, t: CallId, a: NewAction)
    requires NewEnabled(s, t, a) && CallOk(s, t, s.calls[t])
    ensures CallAgrees(Perform(s, t, NewMove(s, t, a)), NewMove(s, t, a).call)
  {}

  lemma StepKeepsCall(s: State, step: Step)
    requires Inv(s) && LifeInv(s) && Enabled(s, step) && !step.Tick?
    ensures CallAgrees(Effect(s, step), MoveOf(s, step).call)
  {
    StepKeeps(s, step);
    if step.t in s.calls { CallIsGrounded(s, step.t); }
    MoveAgrees(s, step);
  }

  /** What is known of a call before it moves. */
  ghost predicate Grounded(s: State, t: CallId) {
    && t in s.calls && CallOk(s, t, s.calls[t]) && CallAgrees(s, s.calls[t])
    && (s.calls[t].TPatch? ==> StreamOk(s, s.calls[t].p.stream))
    && (s.calls[t].TKill? ==> StreamOk(s, s.calls[t].k.stream))
  }

  lemma CallIsGrounded(s: State, t: CallId)
    requires Inv(s) && LifeInv(s) && t in s.calls
    ensures Grounded(s, t)
  {
    assert CallOk(s, t, s.calls[t]) && CallAgrees(s, s.calls[t]);
    if s.calls[t].TPatch? { assert StreamOk(s, s.calls[t].p.stream); }
    if s.calls[t].TKill? { assert StreamOk(s, s.calls[t].k.stream); }
  }

  lemma MoveAgrees(s: State, step: Step)
    requires Enabled(s, step) && !step.Tick? && Grows(s, Effect(s, step))
    requires step.t in s.calls ==> Grounded(s, step.t)
    ensures CallAgrees(Effect(s, step), MoveOf(s, step).call)
  {
    if step.ByPatch? {
      PatchAgrees(s, step.t, step.patch);
    } else if step.ByKill? {
      KillAgrees(s, step.t, step.kill);
    } else if step.ByNew? {
      NewAgrees(s, step.t, step.create);
    } else {
      OthersAgree(s, step);
    }
  }

  lemma OthersAgree(s: State, step: Step)
    requires Enabled(s, step) && !step.Tick? && !step.ByPatch? && !step.ByKill? && !step.ByNew?
    ensures CallAgrees(Effect(s, step), MoveOf(s, step).call)
  {}

  predicate SpawnsAtStart(w: Write) {
    w.SpawnKill? ==> w.pc == KAwait || w.pc == KLoadLive
  }

  lemma StepSpawnsAtStart(s: State, step: Step)
    requires Enabled(s, step) && !step.Tick?
    ensures SpawnsAtStart(MoveOf(s, step).write)
  {}

  lemma OtherCallAgrees(s: State, t: CallId, m: Move, u: CallId)
    requires Grows(s, Perform(s, t, m)) && u in Perform(s, t, m).calls && u != t && SpawnsAtStart(m.write)
    requires u in s.calls ==> CallAgrees(s, s.calls[u])
    ensures CallAgrees(Perform(s, t, m), Perform(s, t, m).calls[u])
  {
    CallComesFrom(s, t, m, u);
    if u in s.calls { CallStaysInAgreement(s, Perform(s, t, m), s.calls[u]); }
  }

  lemma MoveKeepsCalls(s: State, t: CallId, m: Move)
    requires (forall u <- s.calls :: CallAgrees(s, s.calls[u])) && Grows(s, Perform(s, t, m))
    requires CallAgrees(Perform(s, t, m), m.call) && SpawnsAtStart(m.write)
    ensures var s' := Perform(s, t, m); forall u <- s'.calls :: CallAgrees(s', s'.calls[u])
  {
    var s' := Perform(s, t, m);
    forall u <- s'.calls ensures CallAgrees(s', s'.calls[u]) {
      if u != t { OtherCallAgrees(s, t, m, u); }
    }
  }

  lemma StepKeepsLife(s: State, step: Step)
    requires Inv(s) && LifeInv(s) && Enabled(s, step) && !step.Tick?
    ensures LifeInv(Effect(s, step))
  {
    StepKeeps(s, step);
    StepKeepsCall(s, step);
    StepSpawnsAtStart(s, step);
    MoveKeepsCalls(s, step.t, MoveOf(s, step));
    forall stream: Uuid ensures StreamOk(Effect(s, step), stream) { StepKeepsStream(s, step, stream); }
  }

  lemma TickKeepsLife(s: State, now: Time)
    requires Inv(s) && LifeInv(s) && s.clock <= now
    ensures LifeInv(s.(clock := now))
  {
    var s' := s.(clock := now);
    TickKeeps(s, now);
    forall stream: Uuid ensures StreamOk(s', stream) {
      assert StreamOk(s, stream);
      DeleterStaysKnown(s, s', stream);
    }
    forall u <- s'.calls ensures CallAgrees(s', s'.calls[u]) { CallStaysInAgreement(s, s', s.calls[u]); }
  }

  lemma {:induction false} LifeInvariance(steps: seq<Step>)
    requires Exec(steps).Some?
    ensures LifeInv(Exec(steps).value)
  {
    if steps != [] {
      var s := Exec(steps[..|steps| - 1]).value;
      var step := steps[|steps| - 1];
      Invariance(steps[..|steps| - 1]);
      LifeInvariance(steps[..|steps| - 1]);
      if step.Tick? { TickKeepsLife(s, step.now); } else { StepKeepsLife(s, step); }
    }
  }
}
