/** Stop ranges over the live table while listeners, finishes, joins and decisions go on. */
module Shutdown {
  import opened Domain
  import opened Protocol
  import opened Growth
  import opened Invariant
  import opened Safety
  import opened RecordHistory
  import opened Lifecycle
  import opened Agreement
  import opened Sequential
  import opened Uninterrupted

  // ---------- what a Stop in progress knows ----------

  /** A killStream that has looked the stream up after its registration, or is about to. */
  ghost predicate KillSure(s: State, c: Call, x: Uuid) {
    && c.TKill? && c.k.stream == x && !(c.k.pc in {KCheck, KAwait, KFailed})
    && (c.k.found || LifeIn(s, x).deleted || (c.k.pc == KLoadLive && LifeIn(s, x).registered))
  }

  ghost predicate Handled(s: State, o: StopCall, x: Uuid) {
    || LifeIn(s, x).deleted
    || (o.pc == OWait && o.kill in s.calls && KillSure(s, s.calls[o.kill], x))
  }

  ghost predicate StopOk(s: State, o: StopCall) {
    && (forall x <- o.range :: LifeIn(s, x).registered)
    && (forall x <- o.visited :: Handled(s, o, x))
    && (o.pc == ODone ==> forall x <- o.range :: LifeIn(s, x).deleted)
  }

  ghost predicate StopsOk(s: State) {
    forall t <- s.calls :: s.calls[t].TStop? ==> StopOk(s, s.calls[t].o)
  }

  lemma KillMovesSurely(s: State, t: CallId, a: KillAction, x: Uuid)
    requires KillEnabled(s, t, a) && KillSure(s, s.calls[t], x) && TablesAgree(s, x) && Shaped(s.calls[t])
    ensures KillSure(s, KillMove(s, t, a).call, x)
  {}

  /** The kill a Stop waits for stays sure, whichever call moves. */
  lemma KillSureAfter(s: State, step: Step, k: CallId, x: Uuid)
    requires Enabled(s, step) && !step.Tick? && Grows(s, Effect(s, step))
    requires k in s.calls && KillSure(s, s.calls[k], x) && TablesAgree(s, x) && Shaped(s.calls[k])
    ensures k in Effect(s, step).calls && KillSure(Effect(s, step), Effect(s, step).calls[k], x)
  {
    LifeInGrows(s, Effect(s, step), x);
    if step.t == k {
      OwnKillMove(s, step, k);
      KillMovesSurely(s, k, step.kill, x);
      SureInGrown(s, Effect(s, step), KillMove(s, k, step.kill).call, x);
    } else {
      OtherCallStays(s, step, k);
      SureInGrown(s, Effect(s, step), s.calls[k], x);
    }
  }

  lemma SureInGrown(s: State, s': State, c: Call, x: Uuid)
    requires KillSure(s, c, x) && LifeGrows(LifeIn(s, x), LifeIn(s', x))
    ensures KillSure(s', c, x)
  {}

  lemma OwnKillMove(s: State, step: Step, k: CallId)
    requires Enabled(s, step) && !step.Tick? && step.t == k && k in s.calls && s.calls[k].TKill?
    ensures step.ByKill? && k in Effect(s, step).calls && Effect(s, step).calls[k] == KillMove(s, k, step.kill).call
  {}

  lemma OtherCallStays(s: State, step: Step, k: CallId)
    requires Enabled(s, step) && !step.Tick? && step.t != k && k in s.calls && s.calls[k].TKill?
    ensures k in Effect(s, step).calls && Effect(s, step).calls[k] == s.calls[k]
  {}

  lemma StopStays(s: State, step: Step, o: StopCall)
    requires StopOk(s, o) && Enabled(s, step) && !step.Tick? && Grows(s, Effect(s, step))
    requires forall x: Uuid :: TablesAgree(s, x)
    requires forall t <- s.calls :: Shaped(s.calls[t])
    ensures StopOk(Effect(s, step), o)
  {
    var s' := Effect(s, step);
    forall x: Uuid ensures LifeGrows(LifeIn(s, x), LifeIn(s', x)) { LifeInGrows(s, s', x); }
    forall x <- o.visited ensures Handled(s', o, x) {
      assert Handled(s, o, x);
      if !LifeIn(s, x).deleted { KillSureAfter(s, step, o.kill, x); }
    }
  }

  /** The same history, so the same lives. */
  ghost predicate SameLives(s: State, s': State) {
    forall x: Uuid :: LifeIn(s', x) == LifeIn(s, x)
  }

  lemma RangeOk(s: State, s': State, o: StopCall)
    requires o.pc == OStart && StopOk(s, o) && SameLives(s, s') && forall x: Uuid :: TablesAgree(s, x)
    ensures StopOk(s', o.(range := s.live.Keys, pc := OLoop))
  {
    forall x <- s.live ensures LifeIn(s', x).registered { assert TablesAgree(s, x); }
    forall x <- o.visited ensures LifeIn(s', x).deleted { assert Handled(s, o, x); }
  }

  lemma VisitOk(s: State, s': State, o: StopCall, x: Uuid, kill: CallId)
    requires o.pc == OLoop && StopOk(s, o) && SameLives(s, s') && x in s.live && TablesAgree(s, x)
    requires kill in s'.calls && s'.calls[kill] == TKill(FirstKill(KLoadLive, x))
    ensures StopOk(s', o.(visited := o.visited + {x}, kill := kill, pc := OWait))
  {
    forall y <- o.visited ensures LifeIn(s', y).deleted { assert Handled(s, o, y); }
    assert KillSure(s', s'.calls[kill], x);
  }

  lemma ReturnOk(s: State, s': State, o: StopCall)
    requires o.pc == OWait && StopOk(s, o) && SameLives(s, s') && KillAt(s, o.kill, KDone) && CallAgrees(s, s.calls[o.kill])
    ensures StopOk(s', o.(pc := OLoop))
  {
    forall y <- o.visited ensures LifeIn(s', y).deleted { assert Handled(s, o, y); }
  }

  lemma EndOk(s: State, s': State, o: StopCall)
    requires o.pc == OLoop && StopOk(s, o) && SameLives(s, s') && forall x: Uuid :: TablesAgree(s, x)
    requires forall x <- o.range :: x in s.live ==> x in o.visited
    ensures StopOk(s', o.(pc := ODone))
  {
    forall y <- o.visited ensures LifeIn(s', y).deleted { assert Handled(s, o, y); }
    forall x <- o.range ensures LifeIn(s', x).deleted {
      assert TablesAgree(s, x);
      if x in o.visited { assert Handled(s, o, x); }
    }
  }

  lemma StopSameLives(s: State, t: CallId, a: StopAction)
    requires StopEnabled(s, t, a)
    ensures SameLives(s, Perform(s, t, StopMove(s, t, a)))
  {
    forall x: Uuid ensures LifeIn(Perform(s, t, StopMove(s, t, a)), x) == LifeIn(s, x) {
      assert Events(Perform(s, t, StopMove(s, t, a)), x) == Events(s, x);
    }
  }

  lemma StopMovesOk(s: State, t: CallId, a: StopAction)
    requires StopEnabled(s, t, a) && StopOk(s, s.calls[t].o) && (forall x: Uuid :: TablesAgree(s, x))
    requires forall k <- s.calls :: CallAgrees(s, s.calls[k])
    ensures StopOk(Perform(s, t, StopMove(s, t, a)), StopMove(s, t, a).call.o)
  {
    var o, s' := s.calls[t].o, Perform(s, t, StopMove(s, t, a));
    StopSameLives(s, t, a);
    if a.StopRange? {
      RangeOk(s, s', o);
    } else if a.StopVisit? {
      VisitOk(s, s', o, a.stream, a.kill);
    } else if a.StopReturn? {
      ReturnOk(s, s', o);
    } else {
      EndOk(s, s', o);
    }
  }

  lemma StopComesFrom(s: State, step: Step, u: CallId)
    requires Enabled(s, step) && !step.Tick? && u in Effect(s, step).calls && Effect(s, step).calls[u].TStop?
    ensures u != step.t ==> u in s.calls && Effect(s, step).calls[u] == s.calls[u]
    ensures u == step.t ==>
              || (step.Begin? && Effect(s, step).calls[u] == TStop(StopCall(OStart, {}, {}, 0)))
              || (step.ByStop? && u in s.calls && s.calls[u].TStop? && Effect(s, step).calls[u] == StopMove(s, u, step.stop).call)
  {}

  lemma StepKeepsStops(s: State, step: Step)
    requires StopsOk(s) && LifeInv(s) && CallsOk(s) && Enabled(s, step) && !step.Tick? && Grows(s, Effect(s, step))
    ensures StopsOk(Effect(s, step))
  {
    var s' := Effect(s, step);
    forall x: Uuid ensures TablesAgree(s, x) { assert StreamOk(s, x); }
    forall t <- s.calls ensures Shaped(s.calls[t]) { assert CallOk(s, t, s.calls[t]); }
    forall u <- s'.calls | s'.calls[u].TStop? ensures StopOk(s', s'.calls[u].o) {
      StopComesFrom(s, step, u);
      if u != step.t {
        StopStays(s, step, s.calls[u].o);
      } else if step.ByStop? {
        StopMovesOk(s, u, step.stop);
      }
    }
  }

  lemma TickKeepsStops(s: State, now: Time)
    requires StopsOk(s)
    ensures StopsOk(s.(clock := now))
  {
    var s' := s.(clock := now);
    forall x: Uuid ensures LifeIn(s', x) == LifeIn(s, x) { assert Events(s', x) == Events(s, x); }
    forall u <- s'.calls | s'.calls[u].TStop? ensures StopOk(s', s'.calls[u].o) {
      assert StopOk(s, s.calls[u].o);
      forall x <- s.calls[u].o.visited ensures Handled(s', s.calls[u].o, x) { assert Handled(s, s.calls[u].o, x); }
    }
  }

  lemma {:induction false} StopsInvariance(steps: seq<Step>, s: State)
    requires Reached(steps, s)
    ensures StopsOk(s)
  {
    if steps != [] {
      var before, step := steps[..|steps| - 1], steps[|steps| - 1];
      var r := Exec(before).value;
      StopsInvariance(before, r);
      if step.Tick? {
        TickKeepsStops(r, step.now);
      } else {
        Invariance(before);
        LifeInvariance(before);
        StepKeeps(r, step);
        StepKeepsStops(r, step);
      }
    }
  }

  // ---------- when a Stop has returned ----------

  /** Every NewStream begun has returned. */
  predicate NothingStarting(s: State) {
    forall t <- s.calls :: s.calls[t].TNew? ==> s.calls[t].n.pc == NDone || s.calls[t].n.pc == NFailed
  }

  /** No NewStream begins from n on. */
  predicate NothingBegins(run: seq<Step>, n: nat) {
    forall i :: n <= i < |run| ==> !(run[i].Begin? && run[i].request.NewRequest?)
  }

  lemma StepStartsNothing(s: State, step: Step)
    requires NothingStarting(s) && Enabled(s, step) && !(step.Begin? && step.request.NewRequest?) && !step.Tick?
    ensures NothingStarting(Effect(s, step)) && !MoveOf(s, step).write.PutLive?
    ensures var w := MoveOf(s, step).write; w.PutRecord? ==> IsStore(w.event) && !w.event.Created?
  {
    var s' := Effect(s, step);
    NobodyStarts(s, step);
    forall u <- s'.calls | s'.calls[u].TNew? ensures s'.calls[u].n.pc == NDone || s'.calls[u].n.pc == NFailed {
      CallComesFrom(s, step.t, MoveOf(s, step), u);
    }
  }

  lemma NobodyStarts(s: State, step: Step)
    requires NothingStarting(s) && Enabled(s, step) && !(step.Begin? && step.request.NewRequest?) && !step.Tick?
    ensures !MoveOf(s, step).call.TNew? && !MoveOf(s, step).write.PutLive?
    ensures var w := MoveOf(s, step).write; w.PutRecord? ==> IsStore(w.event) && !w.event.Created?
  {
    assert !step.ByNew?;
  }

  /** As long as no NewStream is under way, no stream is created or registered. */
  lemma {:induction false} NothingRegisters(run: seq<Step>, n: nat, s: State, s': State, x: Uuid)
    requires ReachedAt(run, n, s) && Reached(run, s') && NothingStarting(s) && NothingBegins(run, n)
    ensures NothingStarting(s')
    ensures LifeIn(s', x).registered ==> LifeIn(s, x).registered
  {
    if n < |run| {
      var before, step := run[..|run| - 1], run[|run| - 1];
      var r := Exec(before).value;
      LastStep(run, s, n, s');
      NothingRegisters(before, n, s, r, x);
      StepRegistersNothing(r, step, x);
    } else {
      assert run[..n] == run;
    }
  }

  lemma StepRegistersNothing(s: State, step: Step, x: Uuid)
    requires NothingStarting(s) && Enabled(s, step) && !(step.Begin? && step.request.NewRequest?)
    ensures NothingStarting(Effect(s, step))
    ensures LifeIn(Effect(s, step), x).registered ==> LifeIn(s, x).registered
  {
    if step.Tick? {
      assert Events(Effect(s, step), x) == Events(s, x);
    } else {
      StepStartsNothing(s, step);
      MoveRegistersNothing(s, step.t, MoveOf(s, step), x);
    }
  }

  lemma MoveRegistersNothing(s: State, t: CallId, m: Move, x: Uuid)
    requires !m.write.PutLive? && (m.write.PutRecord? ==> IsStore(m.write.event))
    ensures LifeIn(Perform(s, t, m), x).registered ==> LifeIn(s, x).registered
  {
    LifeAfterWrite(s, t, m, x);
  }

  /** Some killStream of the stream has deleted its live entry and not yet returned. */
  predicate BeingFinished(s: State, x: Uuid) {
    exists k :: k in s.calls && s.calls[k].TKill? && s.calls[k].k.stream == x && s.calls[k].k.found
             && PastDelete(s.calls[k].k) && !KillAt(s, k, KDone)
  }

  lemma DeletedIsFinished(run: seq<Step>, s: State, x: Uuid)
    requires Reached(run, s) && x in s.records && LifeIn(s, x).deleted && PatchesApart(Events(s, x))
    ensures s.records[x].status == STATUS_FINISHED || BeingFinished(s, x)
  {
    ReachedStream(run, s, x);
    var k :| KilledBy(s, k, x);
    ReachedAgreement(run, s, k);
    if KillAt(s, k, KDone) {
      FinishesIsLife(Events(s, x));
      CreationComesFirst(run, s, x);
      ApartPatchesKeepFinish(Events(s, x));
      FinishedExactly(run, s, x);
    }
  }

  lemma StoppedStream(run: seq<Step>, n: nat, s: State, t: CallId, s': State, x: Uuid)
    requires ReachedAt(run, n, s) && Reached(run, s') && StopAt(s', t, ODone) && s.live.Keys <= s'.calls[t].o.range
    requires NothingStarting(s) && NothingBegins(run, n)
    ensures x !in s'.live
    ensures x in s'.records ==> LifeIn(s', x).deleted
  {
    StopsInvariance(run, s');
    NothingRegisters(run, n, s, s', x);
    RunGrows(run, n);
    LifeInGrows(s, s', x);
    ReachedStream(run[..n], s, x);
    ReachedStream(run, s', x);
    if x in s'.records { ReachedOrigin(run, s', x); }
  }

  /** A Stop that ranged over the live table when no NewStream was under way, and none began since, leaves no live
      stream when it returns, however listeners, finishes, joins, decisions and patches went on meanwhile; and if no
      patch was stored over a finish, every record is finished or a killStream that deleted its entry is about to
      finish it. */
  lemma StopStopsAll(run: seq<Step>, n: nat, s: State, t: CallId, s': State)
    requires ReachedAt(run, n, s) && Reached(run, s') && StopAt(s', t, ODone)
    requires n < |run| && run[n] == ByStop(t, StopRange) && NothingStarting(s) && NothingBegins(run, n)
    ensures s'.live == map[]
    ensures forall x <- s'.records | PatchesApart(Events(s', x)) ::
              s'.records[x].status == STATUS_FINISHED || BeingFinished(s', x)
  {
    RangeIsLive(run, n, s, t, s');
    forall x ensures x !in s'.live { StoppedStream(run, n, s, t, s', x); }
    forall x <- s'.records | PatchesApart(Events(s', x))
      ensures s'.records[x].status == STATUS_FINISHED || BeingFinished(s', x)
    {
      StoppedStream(run, n, s, t, s', x);
      DeletedIsFinished(run, s', x);
    }
  }

  lemma RangeIsLive(run: seq<Step>, n: nat, s: State, t: CallId, s': State)
    requires ReachedAt(run, n, s) && Reached(run, s') && n < |run| && run[n] == ByStop(t, StopRange)
    requires t in s'.calls && s'.calls[t].TStop?
    ensures s'.calls[t].o.range == s.live.Keys
  {
    PrefixReached(run, n + 1);
    assert run[..n + 1][..n] == run[..n];
    RunGrows(run, n + 1);
  }

  /** When also no killStream is under way any more, every record is finished. */
  lemma StopFinishesAll(run: seq<Step>, n: nat, s: State, t: CallId, s': State)
    requires ReachedAt(run, n, s) && Reached(run, s') && StopAt(s', t, ODone)
    requires n < |run| && run[n] == ByStop(t, StopRange) && NothingStarting(s) && NothingBegins(run, n)
    requires forall x <- s'.records :: PatchesApart(Events(s', x)) && !BeingFinished(s', x)
    ensures AllOver(WorldOf(s'))
  {
    StopStopsAll(run, n, s, t, s');
  }
}
