/** JoinParticipant loads the roster, appends to its copy and stores the copy. When is that an append? */
module RosterHistory {
  import opened Domain
  import opened Protocol
  import opened Safety

  predicate StoresInto(s: State, step: Step, stream: Uuid) {
    step.ByJoin? && step.join.JoinStoreRoster? && JoinAt(s, step.t, JStoreRoster) && s.calls[step.t].j.stream == stream
  }

  /** The step stores a copy although another join of the stream has stored since the copy was loaded. */
  predicate StoresStale(s: State, step: Step, stream: Uuid) {
    StoresInto(s, step, stream) && s.calls[step.t].j.seen < |Entered(s, stream)|
  }

  /** Somewhere in the run a join stored into the stream's roster inside another one's load-store window. */
  ghost predicate Overwritten(steps: seq<Step>, stream: Uuid) {
    && steps != []
    && var before := steps[..|steps| - 1];
       || Overwritten(before, stream)
       || (Exec(before).Some? && StoresStale(Exec(before).value, steps[|steps| - 1], stream))
  }

  /** What a join holding a copy knows of the roster. */
  ghost predicate CopyInStep(s: State, t: CallId, stream: Uuid) {
    JoinAt(s, t, JStoreRoster) && s.calls[t].j.stream == stream ==>
      var j := s.calls[t].j;
      && |j.copy| <= j.seen <= |Entered(s, stream)|
      && (j.seen == |Entered(s, stream)| ==> j.copy == Roster(s, stream))
  }

  ghost predicate InStep(s: State, stream: Uuid, overwritten: bool) {
    && (if overwritten then |Roster(s, stream)| < |Entered(s, stream)| else Roster(s, stream) == Entered(s, stream))
    && (forall t <- s.calls :: CopyInStep(s, t, stream))
  }

  lemma CopyStaysInStep(s: State, t: CallId, m: Move, stream: Uuid, u: CallId)
    requires |Roster(s, stream)| <= |Entered(s, stream)|
    requires u in s.calls && u != t ==> CopyInStep(s, u, stream)
    requires !m.write.PutRoster? || m.write.stream != stream
    requires JoinAt(Perform(s, t, m), u, JStoreRoster) ==> u == t || (u in s.calls && s.calls[u] == Perform(s, t, m).calls[u])
    requires FreshLoad(s, m, stream)
    ensures CopyInStep(Perform(s, t, m), u, stream)
  {}

  /** A call reaches JStoreRoster only by loading. */
  lemma ReachesStoreByLoading(s: State, step: Step)
    requires Enabled(s, step) && !step.Tick?
    requires MoveOf(s, step).call.TJoin? && MoveOf(s, step).call.j.pc == JStoreRoster
    ensures step.ByJoin? && step.join.JoinLoadRoster?
  {}

  lemma StoreKeepsInStep(s: State, step: Step, stream: Uuid, overwritten: bool)
    requires InStep(s, stream, overwritten) && Enabled(s, step) && StoresInto(s, step, stream)
    ensures InStep(Effect(s, step), stream, overwritten || StoresStale(s, step, stream))
  {
    var s' := Effect(s, step);
    assert CopyInStep(s, step.t, stream);
    forall u <- s'.calls ensures CopyInStep(s', u, stream) {
      if u != step.t { assert CopyInStep(s, u, stream); }
    }
  }

  lemma OtherStepKeepsInStep(s: State, step: Step, stream: Uuid, overwritten: bool)
    requires InStep(s, stream, overwritten) && Enabled(s, step) && !step.Tick? && !StoresInto(s, step, stream)
    ensures InStep(Effect(s, step), stream, overwritten)
  {
    var m := MoveOf(s, step);
    OnlyJoinsStore(s, step);
    LoadsInStep(s, step, stream);
    MoveKeepsInStep(s, step.t, m, stream, overwritten);
  }

  lemma LoadsInStep(s: State, step: Step, stream: Uuid)
    requires Enabled(s, step) && !step.Tick?
    ensures FreshLoad(s, MoveOf(s, step), stream)
  {
    var m := MoveOf(s, step);
    if m.call.TJoin? && m.call.j.pc == JStoreRoster { ReachesStoreByLoading(s, step); }
  }

  ghost predicate FreshLoad(s: State, m: Move, stream: Uuid) {
    m.call.TJoin? && m.call.j.pc == JStoreRoster && m.call.j.stream == stream ==>
      m.call.j.copy == Roster(s, stream) && m.call.j.seen == |Entered(s, stream)|
  }

  lemma MoveKeepsInStep(s: State, t: CallId, m: Move, stream: Uuid, overwritten: bool)
    requires InStep(s, stream, overwritten) && FreshLoad(s, m, stream)
    requires !m.write.PutRoster? || m.write.stream != stream
    ensures InStep(Perform(s, t, m), stream, overwritten)
  {
    var s' := Perform(s, t, m);
    forall u <- s'.calls ensures CopyInStep(s', u, stream) {
      if u in s.calls && u != t { assert CopyInStep(s, u, stream); }
      CopyStaysInStep(s, t, m, stream, u);
    }
  }

  lemma OnlyJoinsStore(s: State, step: Step)
    requires Enabled(s, step) && !step.Tick?
    ensures MoveOf(s, step).write.PutRoster? ==> StoresInto(s, step, MoveOf(s, step).write.stream)
  {}

  lemma {:induction false} RunInStep(steps: seq<Step>, s: State, stream: Uuid)
    requires Reached(steps, s)
    ensures InStep(s, stream, Overwritten(steps, stream))
  {
    if steps != [] {
      var before := steps[..|steps| - 1];
      var step := steps[|steps| - 1];
      var r := Exec(before).value;
      RunInStep(before, r, stream);
      if step.Tick? {
        forall u <- s.calls ensures CopyInStep(s, u, stream) { assert CopyInStep(r, u, stream); }
      } else if StoresInto(r, step, stream) {
        StoreKeepsInStep(r, step, stream, Overwritten(before, stream));
      } else {
        OtherStepKeepsInStep(r, step, stream, Overwritten(before, stream));
      }
    }
  }

  /** The stored roster is the sequence of all joins that stored, in store order, if and only if no join
      stored a stale copy; after one that did, an entered participant stays lost for the rest of the run. */
  lemma RosterIsHistoryExactly(steps: seq<Step>, s: State, stream: Uuid)
    requires Reached(steps, s)
    ensures Roster(s, stream) == Entered(s, stream) <==> !Overwritten(steps, stream)
    ensures Overwritten(steps, stream) ==> |Roster(s, stream)| < |Entered(s, stream)|
  {
    RunInStep(steps, s, stream);
  }

  lemma EnteredAfter(s: State, step: Step, stream: Uuid)
    requires Enabled(s, step) && !step.Tick?
    ensures Entered(Effect(s, step), stream)
            == if StoresInto(s, step, stream) then Entered(s, stream) + [Persisted(s.calls[step.t].j.me)] else Entered(s, stream)
  {
    OnlyJoinsStore(s, step);
  }

  /** As long as no stale copy is stored, the steps of the joins refine an atomic append: a store appends the
      joiner to the roster of its stream, and every other step leaves that roster as it is. */
  lemma StoreIsAppend(steps: seq<Step>, s: State, step: Step, stream: Uuid)
    requires Reached(steps, s) && Enabled(s, step) && !Overwritten(steps + [step], stream)
    ensures Roster(Effect(s, step), stream)
            == if StoresInto(s, step, stream) then Roster(s, stream) + [Persisted(s.calls[step.t].j.me)] else Roster(s, stream)
  {
    assert (steps + [step])[..|steps|] == steps;
    RosterIsHistoryExactly(steps, s, stream);
    RosterIsHistoryExactly(steps + [step], Effect(s, step), stream);
    if !step.Tick? { EnteredAfter(s, step, stream); }
  }

  // ---------- windows that do not overlap ----------

  predicate HoldsCopy(s: State, t: CallId, stream: Uuid) {
    JoinAt(s, t, JStoreRoster) && s.calls[t].j.stream == stream
  }

  predicate LoadsFrom(s: State, step: Step, stream: Uuid) {
    step.ByJoin? && step.join.JoinLoadRoster? && JoinAt(s, step.t, JLoadRoster) && s.calls[step.t].j.stream == stream
  }

  /** No join loads the stream's roster while another one holds a copy it has yet to store. */
  ghost predicate WindowsApart(steps: seq<Step>, stream: Uuid) {
    steps == [] ||
    var before := steps[..|steps| - 1];
    && WindowsApart(before, stream)
    && (Exec(before).Some? && LoadsFrom(Exec(before).value, steps[|steps| - 1], stream) ==>
          forall t :: !HoldsCopy(Exec(before).value, t, stream))
  }

  ghost predicate OneFreshCopy(s: State, stream: Uuid) {
    && (forall t, u :: HoldsCopy(s, t, stream) && HoldsCopy(s, u, stream) ==> t == u)
    && (forall t :: HoldsCopy(s, t, stream) ==> s.calls[t].j.seen == |Entered(s, stream)|)
  }

  lemma HoldersComeFrom(s: State, step: Step, stream: Uuid, u: CallId)
    requires Enabled(s, step) && !step.Tick? && HoldsCopy(Effect(s, step), u, stream)
    ensures (HoldsCopy(s, u, stream) && Effect(s, step).calls[u] == s.calls[u]) || (u == step.t && LoadsFrom(s, step, stream))
  {}

  lemma StepKeepsOneCopy(s: State, step: Step, stream: Uuid)
    requires OneFreshCopy(s, stream) && Enabled(s, step) && !step.Tick?
    requires LoadsFrom(s, step, stream) ==> forall t :: !HoldsCopy(s, t, stream)
    ensures OneFreshCopy(Effect(s, step), stream)
  {
    var s' := Effect(s, step);
    EnteredAfter(s, step, stream);
    forall t, u | HoldsCopy(s', t, stream) && HoldsCopy(s', u, stream) ensures t == u {
      HoldersComeFrom(s, step, stream, t);
      HoldersComeFrom(s, step, stream, u);
    }
    forall t | HoldsCopy(s', t, stream) ensures s'.calls[t].j.seen == |Entered(s', stream)| {
      HoldersComeFrom(s, step, stream, t);
      if StoresInto(s, step, stream) { assert HoldsCopy(s, step.t, stream); }
    }
  }

  lemma {:induction false} ApartWindowsKeepOneCopy(steps: seq<Step>, s: State, stream: Uuid)
    requires Reached(steps, s) && WindowsApart(steps, stream)
    ensures OneFreshCopy(s, stream) && !Overwritten(steps, stream)
  {
    if steps != [] {
      var before := steps[..|steps| - 1];
      var r := Exec(before).value;
      var step := steps[|steps| - 1];
      ApartWindowsKeepOneCopy(before, r, stream);
      if step.Tick? {
        assert forall t :: HoldsCopy(s, t, stream) ==> HoldsCopy(r, t, stream);
      } else {
        StepKeepsOneCopy(r, step, stream);
      }
      assert StoresStale(r, step, stream) ==> HoldsCopy(r, step.t, stream);
    }
  }

  /** When load-store windows of the stream's joins do not overlap, its roster is the sequence of admitted
      participants in store order. */
  lemma ApartWindowsKeepRoster(steps: seq<Step>, s: State, stream: Uuid)
    requires Reached(steps, s) && WindowsApart(steps, stream)
    ensures Roster(s, stream) == Entered(s, stream)
  {
    ApartWindowsKeepOneCopy(steps, s, stream);
    RosterIsHistoryExactly(steps, s, stream);
  }
}
