/** PatchStream and killStream load a record, change their copy and store the copy. What does a record show? */
module RecordHistory {
  import opened Domain
  import opened Protocol
  import opened Growth
  import opened Invariant
  import opened Safety

  // ---------- what a history says of the record ----------

  predicate IsStore(e: Event) {
    e.Created? || e.Patched? || e.Finished?
  }

  /** How much of the history before it the stored copy had seen. */
  function SeenBy(e: Event, length: nat): (seen: nat)
    ensures seen <= length
  {
    var seen := if e.Patched? || e.Finished? then e.seen else 0;
    if seen <= length then seen else length
  }

  /** The record stores whose effect the record shows: the last one, and what the copy it stored had seen. */
  function Applied(events: seq<Event>): seq<Event>
    decreases |events|
  {
    if events == [] then []
    else
      var init, e := events[..|events| - 1], events[|events| - 1];
      if IsStore(e) then Applied(init[..SeenBy(e, |init|)]) + [e] else Applied(init)
  }

  /** All record stores, in store order. */
  function Stores(events: seq<Event>): seq<Event> {
    if events == [] then []
    else Stores(events[..|events| - 1]) + if IsStore(events[|events| - 1]) then [events[|events| - 1]] else []
  }

  function Apply(record: Option<StreamInfo>, e: Event): Option<StreamInfo> {
    match e
    case Created(info) => Some(info)
    case Patched(_, cfg) => if record.Some? then Some(ApplyPatch(record.value, cfg)) else None
    case Finished(_, _, at) => if record.Some? then Some(Finish(record.value, at)) else None
    case _ => record
  }

  /** The record that stores, done one after the other, make. */
  function Replay(stores: seq<Event>): Option<StreamInfo> {
    if stores == [] then None else Apply(Replay(stores[..|stores| - 1]), stores[|stores| - 1])
  }

  /** The store at i puts back a copy loaded before another store. */
  predicate StaleAt(events: seq<Event>, i: nat) {
    i < |events| && IsStore(events[i]) && exists k :: SeenBy(events[i], i) <= k < i && IsStore(events[k])
  }

  ghost predicate StoredStale(events: seq<Event>) {
    exists i: nat :: StaleAt(events, i)
  }

  lemma AppliedAppend(events: seq<Event>, e: Event)
    ensures Applied(events + [e])
            == if IsStore(e) then Applied(events[..SeenBy(e, |events|)]) + [e] else Applied(events)
    ensures Stores(events + [e]) == Stores(events) + if IsStore(e) then [e] else []
  {
    assert (events + [e])[..|events|] == events;
  }

  lemma ReplayAppend(stores: seq<Event>, e: Event)
    ensures Replay(stores + [e]) == Apply(Replay(stores), e)
  {
    assert (stores + [e])[..|stores|] == stores;
  }

  // ---------- when every store is applied ----------

  lemma {:induction false} StoresOfPrefix(events: seq<Event>, k: nat)
    requires k <= |events|
    ensures Stores(events[..k]) <= Stores(events)
    ensures Stores(events[..k]) == Stores(events) <==> forall i :: k <= i < |events| ==> !IsStore(events[i])
  {
    if k == |events| {
      assert events[..k] == events;
    } else {
      var init := events[..|events| - 1];
      assert init[..k] == events[..k];
      StoresOfPrefix(init, k);
    }
  }

  lemma {:induction false} NoMoreThanStores(events: seq<Event>)
    ensures |Applied(events)| <= |Stores(events)|
    decreases |events|
  {
    if events != [] {
      var init, e := events[..|events| - 1], events[|events| - 1];
      NoMoreThanStores(init[..SeenBy(e, |init|)]);
      NoMoreThanStores(init);
      StoresOfPrefix(init, SeenBy(e, |init|));
    }
  }

  lemma StaleInPrefix(events: seq<Event>, k: nat, i: nat)
    requires k <= |events| && i < k
    ensures StaleAt(events[..k], i) <==> StaleAt(events, i)
  {
    assert forall j :: 0 <= j < k ==> events[..k][j] == events[j];
  }

  lemma StaleOfStep(events: seq<Event>)
    requires events != []
    ensures var init, e := events[..|events| - 1], events[|events| - 1];
            StoredStale(events) <==> StoredStale(init) || StaleAt(events, |init|)
  {
    var n := |events| - 1;
    forall i: nat | i < n ensures StaleAt(events[..n], i) <==> StaleAt(events, i) { StaleInPrefix(events, n, i); }
    if StoredStale(events[..n]) {
      var i: nat :| StaleAt(events[..n], i);
      assert StaleAt(events, i);
    }
    if StoredStale(events) {
      var i: nat :| StaleAt(events, i);
      assert i < n ==> StaleAt(events[..n], i);
    }
  }

  /** Dropping a part without stores drops no stale store. */
  lemma StaleOfPrefix(events: seq<Event>, k: nat)
    requires k <= |events| && forall i :: k <= i < |events| ==> !IsStore(events[i])
    ensures StoredStale(events[..k]) <==> StoredStale(events)
  {
    forall i: nat | i < k ensures StaleAt(events[..k], i) <==> StaleAt(events, i) { StaleInPrefix(events, k, i); }
    if StoredStale(events) {
      var i: nat :| StaleAt(events, i);
      assert StaleAt(events[..k], i);
    }
    if StoredStale(events[..k]) {
      var i: nat :| StaleAt(events[..k], i);
      assert StaleAt(events, i);
    }
  }

  lemma StaleStoreLoses(events: seq<Event>)
    requires events != [] && StaleAt(events, |events| - 1)
    ensures |Applied(events)| < |Stores(events)|
  {
    var init, e := events[..|events| - 1], events[|events| - 1];
    var k := SeenBy(e, |init|);
    StoresOfPrefix(init, k);
    NoMoreThanStores(init[..k]);
    var i :| k <= i < |init| && IsStore(events[i]);
    assert IsStore(init[i]);
  }

  lemma CurrentStoreKeeps(events: seq<Event>)
    requires events != [] && IsStore(events[|events| - 1]) && !StaleAt(events, |events| - 1)
    ensures var init := events[..|events| - 1];
            var seen := init[..SeenBy(events[|events| - 1], |init|)];
            Stores(seen) == Stores(init) && (StoredStale(seen) <==> StoredStale(init))
  {
    var init := events[..|events| - 1];
    var k := SeenBy(events[|events| - 1], |init|);
    forall i | k <= i < |init| ensures !IsStore(init[i]) { assert init[i] == events[i]; }
    StoresOfPrefix(init, k);
    StaleOfPrefix(init, k);
  }

  /** The record shows all stores if and only if none of them put back a copy loaded before another one. */
  lemma {:induction false} AppliedAllExactly(events: seq<Event>)
    ensures Applied(events) == Stores(events) <==> !StoredStale(events)
    ensures StoredStale(events) ==> |Applied(events)| < |Stores(events)|
    decreases |events|
  {
    if events != [] {
      var init, e := events[..|events| - 1], events[|events| - 1];
      var k := SeenBy(e, |init|);
      StaleOfStep(events);
      if IsStore(e) {
        if StaleAt(events, |init|) {
          StaleStoreLoses(events);
        } else {
          CurrentStoreKeeps(events);
          AppliedAllExactly(init[..k]);
          assert |Applied(events)| == |Applied(init[..k])| + 1 && |Stores(events)| == |Stores(init)| + 1;
        }
      } else {
        AppliedAllExactly(init);
      }
    }
  }

  // ---------- the record table is its history ----------

  function Shown(events: seq<Event>): Option<StreamInfo> {
    Replay(Applied(events))
  }

  /** The copy is what the record showed when it was loaded. */
  predicate CopyIs(s: State, stream: Uuid, copy: Option<StreamInfo>, seen: nat) {
    seen <= |Events(s, stream)| && copy == Shown(Events(s, stream)[..seen])
  }

  ghost predicate CopyOk(s: State, c: Call) {
    match c
    case TPatch(p) =>
      && (p.pc != PLoadRecord ==> CopyIs(s, p.stream, p.copy, p.seen))
      && (p.pc == PDone ==> Patched(p.seen, p.cfg) in Events(s, p.stream))
    case TKill(k) => k.copy.Some? ==> CopyIs(s, k.stream, k.copy, k.seen)
    case _ => true
  }

  /** The record store of a NewStream writes a running record. */
  predicate CreatedRunning(events: seq<Event>) {
    forall i :: 0 <= i < |events| && events[i].Created? ==> events[i].info.status == STATUS_RUNNING
  }

  ghost predicate RecordShown(s: State, stream: Uuid) {
    Lookup(s.records, stream) == Shown(Events(s, stream)) && CreatedRunning(Events(s, stream))
  }

  ghost predicate HistoryInv(s: State) {
    && (forall stream: Uuid :: RecordShown(s, stream))
    && (forall t <- s.calls :: CopyOk(s, s.calls[t]))
  }

  lemma CopyStays(s: State, s': State, c: Call)
    requires CopyOk(s, c) && LogsGrow(s, s')
    ensures CopyOk(s', c)
  {
    if c.TPatch? {
      assert Events(s, c.p.stream) <= Events(s', c.p.stream);
      if c.p.seen <= |Events(s, c.p.stream)| {
        assert Events(s', c.p.stream)[..c.p.seen] == Events(s, c.p.stream)[..c.p.seen];
      }
    }
    if c.TKill? {
      assert Events(s, c.k.stream) <= Events(s', c.k.stream);
      if c.k.seen <= |Events(s, c.k.stream)| {
        assert Events(s', c.k.stream)[..c.k.seen] == Events(s, c.k.stream)[..c.k.seen];
      }
    }
  }

  /** A record store writes what its event makes of the copy. */
  ghost predicate StoresCopy(s: State, w: Write) {
    w.PutRecord? ==>
      && IsStore(w.event) && SeenBy(w.event, |Events(s, w.stream)|) <= |Events(s, w.stream)|
      && Some(w.info) == Apply(Shown(Events(s, w.stream)[..SeenBy(w.event, |Events(s, w.stream)|)]), w.event)
      && CreatedRunning([w.event])
  }

  lemma ShownAppend(events: seq<Event>, e: Event)
    ensures Shown(events + [e])
            == if IsStore(e) then Apply(Shown(events[..SeenBy(e, |events|)]), e) else Shown(events)
  {
    AppliedAppend(events, e);
    if IsStore(e) { ReplayAppend(Applied(events[..SeenBy(e, |events|)]), e); }
  }

  predicate Touches(w: Write, stream: Uuid) {
    || (w.PutRecord? && w.stream == stream)
    || (w.PutLive? && w.stream == stream)
    || (w.DropLive? && w.stream == stream)
  }

  /** The event a write appends to the history of the stream it touches. */
  function EventOf(t: CallId, w: Write): Event
    requires w.PutRecord? || w.PutLive? || w.DropLive?
  {
    match w
    case PutRecord(_, _, event) => event
    case PutLive(_, _) => Registered
    case DropLive(_) => Deleted(t)
  }

  lemma EventsAfterWrite(s: State, t: CallId, m: Move, stream: Uuid)
    ensures Events(Perform(s, t, m), stream)
            == if Touches(m.write, stream) then Events(s, stream) + [EventOf(t, m.write)] else Events(s, stream)
  {}

  lemma WriteKeepsHistory(s: State, t: CallId, m: Move, stream: Uuid)
    requires RecordShown(s, stream) && StoresCopy(s, m.write)
    ensures RecordShown(Perform(s, t, m), stream)
  {
    EventsAfterWrite(s, t, m, stream);
    if Touches(m.write, stream) {
      assert m.write.PutRecord? ==> m.write.event == [m.write.event][0];
      ShownAppend(Events(s, stream), EventOf(t, m.write));
    }
  }

  lemma NewStores(s: State, t: CallId, a: NewAction)
    requires NewEnabled(s, t, a) && CallOk(s, t, s.calls[t])
    ensures StoresCopy(s, NewMove(s, t, a).write) && CopyOk(Perform(s, t, NewMove(s, t, a)), NewMove(s, t, a).call)
  {}

  lemma PatchStores(s: State, t: CallId, a: PatchAction)
    requires PatchEnabled(s, t, a) && CopyOk(s, s.calls[t]) && RecordShown(s, s.calls[t].p.stream)
    ensures StoresCopy(s, PatchMove(s, t, a).write)
    ensures a.PatchStoreRecord? || CopyOk(s, PatchMove(s, t, a).call)
  {
    var x := s.calls[t].p.stream;
    assert Events(s, x)[..|Events(s, x)|] == Events(s, x);
  }

  lemma KillStores(s: State, t: CallId, a: KillAction)
    requires KillEnabled(s, t, a) && CopyOk(s, s.calls[t]) && RecordShown(s, s.calls[t].k.stream)
    ensures StoresCopy(s, KillMove(s, t, a).write) && CopyOk(s, KillMove(s, t, a).call)
  {
    var x := s.calls[t].k.stream;
    assert Events(s, x)[..|Events(s, x)|] == Events(s, x);
  }

  lemma PatchLogged(s: State, t: CallId)
    requires PatchAt(s, t, PStoreRecord) && s.calls[t].p.copy.Some? && CopyOk(s, s.calls[t])
    ensures CopyOk(Perform(s, t, PatchMove(s, t, PatchStoreRecord)), PatchMove(s, t, PatchStoreRecord).call)
  {
    var p := s.calls[t].p;
    var s' := Perform(s, t, PatchMove(s, t, PatchStoreRecord));
    assert Events(s', p.stream) == Events(s, p.stream) + [Patched(p.seen, p.cfg)];
    assert Events(s', p.stream)[..p.seen] == Events(s, p.stream)[..p.seen];
  }

  lemma OthersStoreNothing(s: State, step: Step)
    requires Enabled(s, step) && !step.Tick? && !step.ByNew? && !step.ByPatch? && !step.ByKill?
    ensures StoresCopy(s, MoveOf(s, step).write) && CopyOk(s, MoveOf(s, step).call)
  {}

  lemma PatchStepStores(s: State, t: CallId, a: PatchAction)
    requires PatchEnabled(s, t, a) && CopyOk(s, s.calls[t]) && RecordShown(s, s.calls[t].p.stream)
    requires LogsGrow(s, Perform(s, t, PatchMove(s, t, a)))
    ensures StoresCopy(s, PatchMove(s, t, a).write)
    ensures CopyOk(Perform(s, t, PatchMove(s, t, a)), PatchMove(s, t, a).call)
  {
    PatchStores(s, t, a);
    if a.PatchStoreRecord? {
      PatchLogged(s, t);
    } else {
      CopyStays(s, Perform(s, t, PatchMove(s, t, a)), PatchMove(s, t, a).call);
    }
  }

  lemma StepStores(s: State, step: Step)
    requires CallsOk(s) && HistoryInv(s) && Enabled(s, step) && !step.Tick? && LogsGrow(s, Effect(s, step))
    ensures StoresCopy(s, MoveOf(s, step).write) && CopyOk(Effect(s, step), MoveOf(s, step).call)
  {
    if step.ByNew? {
      assert CallOk(s, step.t, s.calls[step.t]);
      NewStores(s, step.t, step.create);
    } else if step.ByPatch? {
      assert RecordShown(s, s.calls[step.t].p.stream);
      PatchStepStores(s, step.t, step.patch);
    } else if step.ByKill? {
      assert RecordShown(s, s.calls[step.t].k.stream);
      KillStores(s, step.t, step.kill);
      CopyStays(s, Effect(s, step), MoveOf(s, step).call);
    } else {
      OthersStoreNothing(s, step);
      CopyStays(s, Effect(s, step), MoveOf(s, step).call);
    }
  }

  /** Where a call of the state after a move comes from. */
  lemma CallComesFrom(s: State, t: CallId, m: Move, u: CallId)
    requires u in Perform(s, t, m).calls
    ensures var c := Perform(s, t, m).calls[u];
            || u == t
            || (u in s.calls && (c == s.calls[u] || c == Sent(s.calls[u])))
            || (m.write.SpawnKill? && c == TKill(FirstKill(m.write.pc, m.write.stream)))
    ensures u == t ==> Perform(s, t, m).calls[u] == m.call
  {}

  lemma MoveKeepsHistory(s: State, t: CallId, m: Move)
    requires HistoryInv(s) && StoresCopy(s, m.write) && CopyOk(Perform(s, t, m), m.call) && LogsGrow(s, Perform(s, t, m))
    ensures HistoryInv(Perform(s, t, m))
  {
    var s' := Perform(s, t, m);
    forall stream: Uuid ensures RecordShown(s', stream) { WriteKeepsHistory(s, t, m, stream); }
    forall u <- s'.calls ensures CopyOk(s', s'.calls[u]) {
      CallComesFrom(s, t, m, u);
      if u in s.calls { CopyStays(s, s', s.calls[u]); }
    }
  }

  lemma TickKeepsHistory(s: State, s': State)
    requires HistoryInv(s) && s' == s.(clock := s'.clock)
    ensures HistoryInv(s')
  {
    forall stream: Uuid ensures RecordShown(s', stream) { assert RecordShown(s, stream); }
    forall u <- s'.calls ensures CopyOk(s', s'.calls[u]) { assert CopyOk(s, s.calls[u]); }
  }

  lemma {:induction false} HistoryInvariance(steps: seq<Step>, s: State)
    requires Reached(steps, s)
    ensures HistoryInv(s)
  {
    if steps != [] {
      var before, step := steps[..|steps| - 1], steps[|steps| - 1];
      var r := Exec(before).value;
      HistoryInvariance(before, r);
      if step.Tick? {
        TickKeepsHistory(r, s);
      } else {
        Invariance(before);
        StepKeeps(r, step);
        StepStores(r, step);
        MoveKeepsHistory(r, step.t, MoveOf(r, step));
      }
    }
  }

  /** In every run the record is what its applied stores make, one after the other; and these are all stores of
      the stream, in store order, if and only if no PatchStream or killStream put back a copy it had loaded before
      another store. */
  lemma RecordIsHistoryExactly(steps: seq<Step>, s: State, stream: Uuid)
    requires Reached(steps, s)
    ensures Lookup(s.records, stream) == Replay(Applied(Events(s, stream)))
    ensures Applied(Events(s, stream)) == Stores(Events(s, stream)) <==> !StoredStale(Events(s, stream))
  {
    HistoryInvariance(steps, s);
    assert RecordShown(s, stream);
    AppliedAllExactly(Events(s, stream));
  }

  lemma {:induction false} StoresHasAll(events: seq<Event>, e: Event)
    ensures e in Stores(events) <==> e in events && IsStore(e)
  {
    if events != [] {
      StoresHasAll(events[..|events| - 1], e);
      assert events == events[..|events| - 1] + [events[|events| - 1]];
    }
  }

  /** A patch that returned is among the stores of its stream. */
  lemma ReturnedPatchIsStored(steps: seq<Step>, s: State, t: CallId)
    requires Reached(steps, s) && PatchAt(s, t, PDone)
    ensures Patched(s.calls[t].p.seen, s.calls[t].p.cfg) in Stores(Events(s, s.calls[t].p.stream))
  {
    HistoryInvariance(steps, s);
    assert CopyOk(s, s.calls[t]);
    StoresHasAll(Events(s, s.calls[t].p.stream), Patched(s.calls[t].p.seen, s.calls[t].p.cfg));
  }

  // ---------- when the record is finished ----------

  ghost predicate FinishApplied(events: seq<Event>) {
    exists i :: 0 <= i < |Applied(events)| && Applied(events)[i].Finished?
  }

  lemma {:induction false} AppliedAreStores(events: seq<Event>)
    ensures forall i :: 0 <= i < |Applied(events)| ==> Applied(events)[i] in events && (i > 0 ==> !Applied(events)[i].Created?)
    decreases |events|
  {
    if events != [] {
      var init, e := events[..|events| - 1], events[|events| - 1];
      assert events == init + [e];
      AppliedAreStores(init[..SeenBy(e, |init|)]);
      AppliedAreStores(init);
    }
  }

  lemma {:induction false} ReplayStatus(stores: seq<Event>)
    requires CreatedRunning(stores) && Replay(stores).Some?
    requires forall i :: 0 < i < |stores| ==> !stores[i].Created?
    ensures Replay(stores).value.status
            == if exists i :: 0 <= i < |stores| && stores[i].Finished? then STATUS_FINISHED else STATUS_RUNNING
  {
    var init, e := stores[..|stores| - 1], stores[|stores| - 1];
    assert |init| < |stores| && stores[|init|] == e;
    if !e.Created? {
      ReplayStatus(init);
      if exists i :: 0 <= i < |init| && init[i].Finished? {
        var i :| 0 <= i < |init| && init[i].Finished?;
        assert stores[i].Finished?;
      }
    }
  }

  /** In every run a record is finished if and only if one of its applied stores is a finish. */
  lemma FinishedExactly(steps: seq<Step>, s: State, stream: Uuid)
    requires Reached(steps, s) && stream in s.records
    ensures s.records[stream].status == if FinishApplied(Events(s, stream)) then STATUS_FINISHED else STATUS_RUNNING
  {
    HistoryInvariance(steps, s);
    assert RecordShown(s, stream);
    ShownStatus(Events(s, stream));
  }

  lemma ShownStatus(events: seq<Event>)
    requires CreatedRunning(events) && Shown(events).Some?
    ensures Shown(events).value.status == if FinishApplied(events) then STATUS_FINISHED else STATUS_RUNNING
  {
    AppliedAreStores(events);
    ReplayStatus(Applied(events));
  }

  /** No patch was stored over a finish that fell into its load-store window. */
  predicate PatchesApart(events: seq<Event>) {
    forall i, k :: 0 <= i < |events| && events[i].Patched? && events[i].seen <= k < i ==> !events[k].Finished?
  }

  predicate Finishes(events: seq<Event>) {
    exists i :: 0 <= i < |events| && events[i].Finished?
  }

  lemma AppliedFinishHappened(events: seq<Event>)
    ensures FinishApplied(events) ==> Finishes(events)
  {
    AppliedAreStores(events);
    if FinishApplied(events) {
      var i :| 0 <= i < |Applied(events)| && Applied(events)[i].Finished?;
      assert Applied(events)[i] in events;
    }
  }

  lemma FinishAppliedAppend(events: seq<Event>, e: Event)
    ensures FinishApplied(events + [e])
            <==> if IsStore(e) then e.Finished? || FinishApplied(events[..SeenBy(e, |events|)]) else FinishApplied(events)
  {
    AppliedAppend(events, e);
    if IsStore(e) {
      var base := Applied(events[..SeenBy(e, |events|)]);
      assert (base + [e])[|base|] == e && forall i :: 0 <= i < |base| ==> (base + [e])[i] == base[i];
    }
  }

  predicate NothingCreatedAnew(events: seq<Event>) {
    forall i, k :: 0 <= k < i < |events| && events[k].Finished? ==> !events[i].Created?
  }

  lemma ApartInPrefix(events: seq<Event>, k: nat)
    requires PatchesApart(events) && NothingCreatedAnew(events) && k <= |events|
    ensures PatchesApart(events[..k]) && NothingCreatedAnew(events[..k])
  {
    assert forall i :: 0 <= i < k ==> events[..k][i] == events[i];
  }

  /** When patches keep apart from finishes and nothing is created anew, a finish that was stored is applied. */
  lemma {:induction false} ApartPatchesKeepFinish(events: seq<Event>)
    requires PatchesApart(events) && NothingCreatedAnew(events) && Finishes(events)
    ensures FinishApplied(events)
    decreases |events|
  {
    var n := |events| - 1;
    var e := events[n];
    assert events == events[..n] + [e];
    FinishAppliedAppend(events[..n], e);
    if !e.Finished? {
      var i :| 0 <= i < |events| && events[i].Finished?;
      var k := if e.Patched? then SeenBy(e, n) else n;
      assert i < k && events[..k][i].Finished?;
      assert events[..n][..k] == events[..k];
      ApartInPrefix(events, k);
      ApartPatchesKeepFinish(events[..k]);
    }
  }
}
