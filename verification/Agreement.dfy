/** What holds of records, live entries and processes in every run, and exactly when the record table and the
    live table agree. */
module Agreement {
  import opened Domain
  import opened Protocol
  import opened Growth
  import opened Invariant
  import opened Safety
  import opened RecordHistory
  import opened Lifecycle

  // ---------- in every interleaving ----------

  lemma ReachedStream(steps: seq<Step>, s: State, stream: Uuid)
    requires Reached(steps, s)
    ensures StreamOk(s, stream)
  {
    LifeInvariance(steps);
  }

  lemma ReachedAgreement(steps: seq<Step>, s: State, t: CallId)
    requires Reached(steps, s) && t in s.calls
    ensures CallAgrees(s, s.calls[t])
  {
    LifeInvariance(steps);
  }

  /** Live keys are record keys, and the entry is the one its own NewStream stored. */
  lemma LiveIsRecorded(steps: seq<Step>, s: State, stream: Uuid)
    requires Reached(steps, s) && stream in s.live
    ensures stream in s.records && CreatedBy(s, stream, s.live[stream].key) && s.live[stream].process == stream
  {
    ReachedStream(steps, s, stream);
    ReachedLive(steps, s, stream);
  }

  /** A record's key is its UUID, its status is one of the two, it is finished exactly when it has a finishing
      time, and that time is not before its start. */
  lemma RecordsConsistent(steps: seq<Step>, s: State, stream: Uuid)
    requires Reached(steps, s) && stream in s.records
    ensures s.records[stream].uuid == stream && ConsistentStatus(s.records[stream])
  {
    ReachedRecord(steps, s, stream);
    ReachedOrigin(steps, s, stream);
    ReachedCall(steps, s, s.origins[stream].creator);
  }

  /** What a record says of its stream's identity never changes, whatever patches and kills interleave. */
  lemma IdentityNeverChanges(steps: seq<Step>, n: nat, stream: Uuid)
    requires Exec(steps).Some? && n <= |steps| && Exec(steps[..n]).Some? && stream in Exec(steps[..n]).value.records
    ensures var s, s' := Exec(steps[..n]).value, Exec(steps).value;
            stream in s'.records && IdentityOf(s'.records[stream]) == IdentityOf(s.records[stream])
  {
    RunGrows(steps, n);
    ReachedRecord(steps[..n], Exec(steps[..n]).value, stream);
    ReachedRecord(steps, Exec(steps).value, stream);
  }

  // ---------- processes ----------

  /** The NewStream call that started the process is still on its way to registering it. */
  ghost predicate InsideNewStream(s: State, p: Uuid) {
    && p in s.origins && s.origins[p].OfStream?
    && var t := s.origins[p].creator;
       t in s.calls && s.calls[t].TNew? && Started(s.calls[t].n) && s.calls[t].n.pc != NDone
  }

  /** Every started process is inside its NewStream, owned by a live entry (only one), or has had Stop called. */
  lemma ProcessesAccountedFor(steps: seq<Step>, s: State, p: Uuid)
    requires Reached(steps, s) && p in s.processes
    ensures InsideNewStream(s, p) || (p in s.live && s.live[p].process == p) || Stops(s, p) >= 1
    ensures forall stream <- s.live :: s.live[stream].process == p ==> stream == p
  {
    ReachedProcess(steps, s, p);
    ReachedStream(steps, s, p);
    ReachedOrigin(steps, s, p);
    ReachedAgreement(steps, s, s.origins[p].creator);
    if p in s.live { ReachedLive(steps, s, p); }
    forall stream <- s.live ensures s.live[stream].process == stream { ReachedLive(steps, s, stream); }
  }

  /** Connecting dials at most six times; a NewStream that dialled and failed has stopped its process. */
  lemma DialsAreBounded(steps: seq<Step>, s: State, t: CallId)
    requires Reached(steps, s) && t in s.calls && s.calls[t].TNew?
    ensures s.calls[t].n.dials <= 6
    ensures s.calls[t].n.pc == NFailed && s.calls[t].n.dials > 0 ==> Stops(s, s.calls[t].n.stream) >= 1
  {
    ReachedCall(steps, s, t);
    ReachedAgreement(steps, s, t);
  }

  // ---------- when is a finished record live? ----------

  predicate LiveButFinished(s: State, stream: Uuid) {
    stream in s.live && stream in s.records && s.records[stream].status == STATUS_FINISHED
  }

  ghost predicate EverLiveButFinished(steps: seq<Step>, stream: Uuid) {
    exists n: nat :: n <= |steps| && Exec(steps[..n]).Some? && LiveButFinished(Exec(steps[..n]).value, stream)
  }

  lemma {:induction false} BlindImpliesFinished(events: seq<Event>)
    ensures LifeOf(events).blind ==> LifeOf(events).finished
  {
    if events != [] { BlindImpliesFinished(events[..|events| - 1]); }
  }

  lemma LiveButFinishedIsBlind(steps: seq<Step>, s: State, stream: Uuid)
    requires Reached(steps, s) && LiveButFinished(s, stream)
    ensures LifeIn(s, stream).blind && LifeIn(s, stream).registered
  {
    ReachedStream(steps, s, stream);
    FinishedExactly(steps, s, stream);
    AppliedFinishHappened(Events(s, stream));
    FinishesIsLife(Events(s, stream));
  }

  lemma {:induction false} FinishesIsLife(events: seq<Event>)
    ensures Finishes(events) <==> LifeOf(events).finished
  {
    if events != [] {
      var init, e := events[..|events| - 1], events[|events| - 1];
      FinishesIsLife(init);
      assert forall i :: 0 <= i < |init| ==> init[i] == events[i];
      if Finishes(init) {
        var i :| 0 <= i < |init| && init[i].Finished?;
        assert events[i].Finished?;
      }
    }
  }

  lemma LifeAfterWrite(s: State, t: CallId, m: Move, stream: Uuid)
    ensures LifeIn(Perform(s, t, m), stream)
            == if Touches(m.write, stream) then After(LifeIn(s, stream), EventOf(t, m.write)) else LifeIn(s, stream)
  {
    EventsAfterWrite(s, t, m, stream);
    if Touches(m.write, stream) { LifeOfAppend(Events(s, stream), EventOf(t, m.write)); }
  }

  lemma FinishingWritesFinished(s: State, step: Step)
    requires Enabled(s, step) && !step.Tick?
    requires MoveOf(s, step).write.PutRecord? && MoveOf(s, step).write.event.Finished?
    ensures MoveOf(s, step).write.info.status == STATUS_FINISHED
  {}

  /** The write that completes a blind finish of a registered stream shows it live and finished. */
  lemma BlindWriteShows(s: State, t: CallId, m: Move, stream: Uuid)
    requires StreamOk(s, stream) && StreamOk(Perform(s, t, m), stream)
    requires m.write.PutRecord? && m.write.event.Finished? ==> m.write.info.status == STATUS_FINISHED
    requires !(LifeIn(s, stream).blind && LifeIn(s, stream).registered)
    requires LifeIn(Perform(s, t, m), stream).blind && LifeIn(Perform(s, t, m), stream).registered
    ensures LiveButFinished(Perform(s, t, m), stream)
  {
    LifeAfterWrite(s, t, m, stream);
    BlindImpliesFinished(Events(s, stream));
    assert Touches(m.write, stream);
    if LifeIn(s, stream).registered {
      assert m.write.PutRecord? && m.write.event.Finished?;
    } else {
      assert m.write.PutLive?;
    }
  }

  lemma BlindStepShows(steps: seq<Step>, r: State, step: Step, s: State, stream: Uuid)
    requires Reached(steps, r) && Enabled(r, step) && !step.Tick? && s == Effect(r, step) && StreamOk(s, stream)
    requires !(LifeIn(r, stream).blind && LifeIn(r, stream).registered)
    requires LifeIn(s, stream).blind && LifeIn(s, stream).registered
    ensures LiveButFinished(s, stream)
  {
    ReachedStream(steps, r, stream);
    if MoveOf(r, step).write.PutRecord? && MoveOf(r, step).write.event.Finished? { FinishingWritesFinished(r, step); }
    BlindWriteShows(r, step.t, MoveOf(r, step), stream);
  }

  lemma {:induction false} BlindShows(steps: seq<Step>, s: State, stream: Uuid)
    requires Reached(steps, s) && LifeIn(s, stream).blind && LifeIn(s, stream).registered
    ensures EverLiveButFinished(steps, stream)
  {
    var before := steps[..|steps| - 1];
    var r := Exec(before).value;
    var step := steps[|steps| - 1];
    if LifeIn(r, stream).blind && LifeIn(r, stream).registered {
      BlindShows(before, r, stream);
      var n: nat :| n <= |before| && Exec(before[..n]).Some? && LiveButFinished(Exec(before[..n]).value, stream);
      assert before[..n] == steps[..n];
    } else {
      ReachedStream(steps, s, stream);
      assert step.Tick? ==> Events(s, stream) == Events(r, stream);
      BlindStepShows(before, r, step, s, stream);
      assert steps[..|steps|] == steps;
    }
  }

  /** A finished record is live at some moment of the run if and only if the run registers the stream and a
      killStream that had found no live entry stored its finish before any live entry was deleted. */
  lemma LiveButFinishedExactly(steps: seq<Step>, s: State, stream: Uuid)
    requires Reached(steps, s)
    ensures EverLiveButFinished(steps, stream) <==> LifeIn(s, stream).blind && LifeIn(s, stream).registered
  {
    if LifeIn(s, stream).blind && LifeIn(s, stream).registered { BlindShows(steps, s, stream); }
    if EverLiveButFinished(steps, stream) {
      var n: nat :| n <= |steps| && Exec(steps[..n]).Some? && LiveButFinished(Exec(steps[..n]).value, stream);
      LiveButFinishedIsBlind(steps[..n], Exec(steps[..n]).value, stream);
      RunGrows(steps, n);
      LifeInGrows(Exec(steps[..n]).value, s, stream);
    }
  }

  // ---------- interrupts handled after registration ----------

  predicate LooksForLive(s: State, step: Step, stream: Uuid) {
    step.ByKill? && step.kill.KillLoadLive? && KillAt(s, step.t, KLoadLive) && s.calls[step.t].k.stream == stream
  }

  /** No killStream looks the stream up in the live table before NewStream has registered it. */
  ghost predicate InterruptsWait(steps: seq<Step>, stream: Uuid) {
    steps == [] ||
    var before := steps[..|steps| - 1];
    && InterruptsWait(before, stream)
    && (Exec(before).Some? && LooksForLive(Exec(before).value, steps[|steps| - 1], stream) ==>
          LifeIn(Exec(before).value, stream).registered)
  }

  /** A killStream that found nothing came after a deletion. */
  ghost predicate MissOk(s: State, c: Call, stream: Uuid) {
    c.TKill? && c.k.stream == stream && PastDelete(c.k) && !c.k.found ==> LifeIn(s, stream).deleted
  }

  ghost predicate NothingBlind(s: State, stream: Uuid) {
    !LifeIn(s, stream).blind && forall t <- s.calls :: MissOk(s, s.calls[t], stream)
  }

  lemma KillMisses(s: State, t: CallId, a: KillAction, stream: Uuid)
    requires KillEnabled(s, t, a) && Shaped(s.calls[t]) && MissOk(s, s.calls[t], stream) && StreamOk(s, stream)
    requires LooksForLive(s, ByKill(t, a), stream) ==> LifeIn(s, stream).registered
    ensures MissOk(s, KillMove(s, t, a).call, stream)
  {}

  lemma OthersMissNothing(s: State, step: Step, stream: Uuid)
    requires Enabled(s, step) && !step.Tick? && !step.ByKill?
    ensures MissOk(s, MoveOf(s, step).call, stream)
    ensures !(MoveOf(s, step).write.PutRecord? && MoveOf(s, step).write.event.Finished?)
  {}

  lemma KillFinishIsKnown(s: State, t: CallId, a: KillAction)
    requires KillEnabled(s, t, a)
    ensures var w := KillMove(s, t, a).write;
            w.PutRecord? ==>
              && a.KillStoreRecord? && w.event.Finished? && w.event.blind == !s.calls[t].k.found
              && w.stream == s.calls[t].k.stream
  {}

  predicate WritesBlind(w: Write, stream: Uuid) {
    w.PutRecord? && w.stream == stream && w.event.Finished? && w.event.blind
  }

  lemma MoveKeepsSight(s: State, t: CallId, m: Move, stream: Uuid)
    requires NothingBlind(s, stream) && Advances(s, t, m) && MissOk(s, m.call, stream)
    requires WritesBlind(m.write, stream) ==> LifeIn(s, stream).deleted
    ensures NothingBlind(Perform(s, t, m), stream)
  {
    var s' := Perform(s, t, m);
    StaysSighted(s, t, m, stream);
    forall u <- s'.calls ensures MissOk(s', s'.calls[u], stream) {
      if u in s.calls { assert MissOk(s, s.calls[u], stream); }
      MissStays(s, t, m, stream, u);
    }
  }

  lemma StaysSighted(s: State, t: CallId, m: Move, stream: Uuid)
    requires !LifeIn(s, stream).blind
    requires WritesBlind(m.write, stream) ==> LifeIn(s, stream).deleted
    ensures !LifeIn(Perform(s, t, m), stream).blind
    ensures LifeIn(s, stream).deleted ==> LifeIn(Perform(s, t, m), stream).deleted
  {
    LifeAfterWrite(s, t, m, stream);
  }

  lemma MissStays(s: State, t: CallId, m: Move, stream: Uuid, u: CallId)
    requires Advances(s, t, m) && MissOk(s, m.call, stream) && u in Perform(s, t, m).calls
    requires u in s.calls ==> MissOk(s, s.calls[u], stream)
    requires LifeIn(s, stream).deleted ==> LifeIn(Perform(s, t, m), stream).deleted
    ensures MissOk(Perform(s, t, m), Perform(s, t, m).calls[u], stream)
  {}

  lemma {:induction false} WaitingInterruptsSee(steps: seq<Step>, s: State, stream: Uuid)
    requires Reached(steps, s) && InterruptsWait(steps, stream)
    ensures NothingBlind(s, stream)
  {
    if steps != [] {
      var before := steps[..|steps| - 1];
      var r := Exec(before).value;
      var step := steps[|steps| - 1];
      WaitingInterruptsSee(before, r, stream);
      if step.Tick? {
        assert Events(s, stream) == Events(r, stream);
        forall u <- s.calls ensures MissOk(s, s.calls[u], stream) { assert MissOk(r, r.calls[u], stream); }
      } else {
        ReachedAdvance(before, r, step);
        ReachedStream(before, r, stream);
        if step.ByKill? {
          ReachedCall(before, r, step.t);
          assert MissOk(r, r.calls[step.t], stream);
          KillMisses(r, step.t, step.kill, stream);
          KillFinishIsKnown(r, step.t, step.kill);
        } else {
          OthersMissNothing(r, step, stream);
        }
        MoveKeepsSight(r, step.t, MoveOf(r, step), stream);
      }
    }
  }

  lemma ReachedAdvance(steps: seq<Step>, s: State, step: Step)
    requires Reached(steps, s) && Enabled(s, step) && !step.Tick?
    ensures Advances(s, step.t, MoveOf(s, step))
  {
    Invariance(steps);
    StepInOrder(s, step);
  }

  /** In every run where interrupts are handled only after registration, no finished record is ever live. */
  lemma FinishedIsNeverLive(steps: seq<Step>, s: State, stream: Uuid)
    requires Reached(steps, s) && InterruptsWait(steps, stream)
    ensures !LiveButFinished(s, stream) && !EverLiveButFinished(steps, stream)
  {
    WaitingInterruptsSee(steps, s, stream);
    LiveButFinishedExactly(steps, s, stream);
    if LiveButFinished(s, stream) { LiveButFinishedIsBlind(steps, s, stream); }
  }

  // ---------- running exactly when live ----------

  /** No NewStream, PatchStream or killStream of the stream is under way (its listener may be waiting). */
  predicate Idle(c: Call, stream: Uuid) {
    match c
    case TNew(n) => Prepared(n) && n.stream == stream ==> n.pc == NDone || n.pc == NFailed
    case TPatch(p) => p.stream == stream ==> p.pc == PDone || p.pc == PFailed
    case TKill(k) => k.stream == stream ==> k.pc == KAwait || k.pc == KDone || k.pc == KFailed
    case _ => true
  }

  predicate Quiescent(s: State, stream: Uuid) {
    forall t <- s.calls :: Idle(s.calls[t], stream)
  }

  predicate RunningExactlyWhenLive(s: State, stream: Uuid)
    requires stream in s.records
  {
    s.records[stream].status == STATUS_RUNNING <==> stream in s.live
  }

  lemma QuietDeletionFinished(steps: seq<Step>, s: State, stream: Uuid)
    requires Reached(steps, s) && Quiescent(s, stream) && LifeIn(s, stream).deleted
    ensures LifeIn(s, stream).finished
  {
    ReachedStream(steps, s, stream);
    var t :| KilledBy(s, t, stream);
    ReachedAgreement(steps, s, t);
    assert Idle(s.calls[t], stream);
  }

  lemma QuietRecordIsRegistered(steps: seq<Step>, s: State, stream: Uuid)
    requires Reached(steps, s) && Quiescent(s, stream) && stream in s.records
    ensures LifeIn(s, stream).registered
  {
    ReachedStream(steps, s, stream);
    ReachedOrigin(steps, s, stream);
    assert Idle(s.calls[s.origins[stream].creator], stream);
  }

  /** At rest, whatever was scheduled before: a record is running exactly when its stream is live, if and only if
      its live entry was deleted exactly when some stored finish is applied. (It fails for a deleted stream when
      every finish was overwritten by a copy loaded before it, and for a live one when a blind finish shows.) */
  lemma RestExactly(steps: seq<Step>, s: State, stream: Uuid)
    requires Reached(steps, s) && Quiescent(s, stream) && stream in s.records
    ensures RunningExactlyWhenLive(s, stream) <==> (LifeIn(s, stream).deleted <==> FinishApplied(Events(s, stream)))
  {
    ReachedStream(steps, s, stream);
    QuietRecordIsRegistered(steps, s, stream);
    FinishedExactly(steps, s, stream);
  }

  /** With interrupts handled after registration, that is: if and only if a stored finish is applied. */
  lemma WaitingRestExactly(steps: seq<Step>, s: State, stream: Uuid)
    requires Reached(steps, s) && InterruptsWait(steps, stream)
    requires Quiescent(s, stream) && stream in s.records
    ensures RunningExactlyWhenLive(s, stream)
            <==> (Finishes(Events(s, stream)) ==> FinishApplied(Events(s, stream)))
  {
    RestExactly(steps, s, stream);
    ReachedStream(steps, s, stream);
    WaitingInterruptsSee(steps, s, stream);
    AppliedFinishHappened(Events(s, stream));
    FinishesIsLife(Events(s, stream));
    if LifeIn(s, stream).deleted { QuietDeletionFinished(steps, s, stream); }
  }

  // ---------- patches that do not overlap a finish ----------

  lemma CreationIsFirst(steps: seq<Step>, s: State, step: Step)
    requires Reached(steps, s) && Enabled(s, step) && !step.Tick?
    requires MoveOf(s, step).write.PutRecord? && MoveOf(s, step).write.event.Created?
    ensures !LifeIn(s, MoveOf(s, step).write.stream).finished
  {
    assert step.ByNew?;
    ReachedCall(steps, s, step.t);
    ReachedStream(steps, s, s.calls[step.t].n.stream);
  }

  lemma {:induction false} CreationComesFirst(steps: seq<Step>, s: State, stream: Uuid)
    requires Reached(steps, s)
    ensures NothingCreatedAnew(Events(s, stream))
  {
    if steps != [] {
      var before, step := steps[..|steps| - 1], steps[|steps| - 1];
      var r := Exec(before).value;
      CreationComesFirst(before, r, stream);
      if step.Tick? {
        assert Events(s, stream) == Events(r, stream);
      } else {
        var m := MoveOf(r, step);
        EventsAfterWrite(r, step.t, m, stream);
        if m.write.PutRecord? && m.write.event.Created? { CreationIsFirst(before, r, step); }
        FinishesIsLife(Events(r, stream));
      }
    }
  }

  /** With interrupts after registration and no finish inside a patch's load-store window, every record at rest is
      running exactly when its stream is live. */
  lemma RestAgrees(steps: seq<Step>, s: State, stream: Uuid)
    requires Reached(steps, s) && InterruptsWait(steps, stream) && PatchesApart(Events(s, stream))
    requires Quiescent(s, stream) && stream in s.records
    ensures RunningExactlyWhenLive(s, stream)
  {
    WaitingRestExactly(steps, s, stream);
    CreationComesFirst(steps, s, stream);
    if Finishes(Events(s, stream)) { ApartPatchesKeepFinish(Events(s, stream)); }
  }
}
