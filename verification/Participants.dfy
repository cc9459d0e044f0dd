/** StreamParticipants ranges over the pending map and then loads the roster, while joins go on. */
module Participants {
  import opened Domain
  import opened Protocol
  import opened Growth
  import opened Invariant
  import opened Safety
  import opened Admission
  import opened RecordHistory
  import opened RosterHistory
  import opened Uninterrupted

  // ---------- every admitted participant enters the roster's history ----------

  predicate EnteredOk(s: State, c: Call) {
    c.TJoin? && HasEntered(c.j) ==> Lists(Entered(s, c.j.stream), c.j.me.uuid)
  }

  lemma ListsGrows(ps: seq<Participant>, qs: seq<Participant>, id: Uuid)
    requires ps <= qs && Lists(ps, id)
    ensures Lists(qs, id)
  {
    var i :| 0 <= i < |ps| && ps[i].uuid == id;
    assert qs[i] == ps[i];
  }

  lemma EnteredStays(s: State, s': State, c: Call)
    requires EnteredOk(s, c) && LogsGrow(s, s')
    ensures EnteredOk(s', c)
  {
    if c.TJoin? && HasEntered(c.j) {
      assert Entered(s, c.j.stream) <= Entered(s', c.j.stream);
      ListsGrows(Entered(s, c.j.stream), Entered(s', c.j.stream), c.j.me.uuid);
    }
  }

  /** A join becomes admitted by storing. */
  lemma OnlyStoresEnter(s: State, step: Step, u: CallId)
    requires Enabled(s, step) && !step.Tick? && u in Effect(s, step).calls && Effect(s, step).calls[u].TJoin?
    requires HasEntered(Effect(s, step).calls[u].j)
    ensures u in s.calls && s.calls[u].TJoin?
    ensures HasEntered(s.calls[u].j) || (step == ByJoin(u, JoinStoreRoster) && JoinAt(s, u, JStoreRoster))
  {
    CallComesFrom(s, step.t, MoveOf(s, step), u);
    if u == step.t { OnlyStoresAdmit(s, step); }
  }

  lemma OnlyStoresAdmit(s: State, step: Step)
    requires Enabled(s, step) && !step.Tick? && MoveOf(s, step).call.TJoin? && HasEntered(MoveOf(s, step).call.j)
    ensures step.t in s.calls && s.calls[step.t].TJoin?
    ensures HasEntered(s.calls[step.t].j) || (step == ByJoin(step.t, JoinStoreRoster) && JoinAt(s, step.t, JStoreRoster))
  {}

  lemma StoreEnters(s: State, t: CallId)
    requires JoinAt(s, t, JStoreRoster)
    ensures t in Effect(s, ByJoin(t, JoinStoreRoster)).calls
    ensures var s' := Effect(s, ByJoin(t, JoinStoreRoster)); EnteredOk(s', s'.calls[t])
  {
    var s', x := Effect(s, ByJoin(t, JoinStoreRoster)), s.calls[t].j.stream;
    assert Entered(s', x)[|Entered(s, x)|].uuid == s.calls[t].j.me.uuid;
  }

  ghost predicate AllEntered(s: State) {
    forall t <- s.calls :: EnteredOk(s, s.calls[t])
  }

  lemma StepKeepsEntered(s: State, step: Step)
    requires AllEntered(s) && Enabled(s, step) && !step.Tick? && Grows(s, Effect(s, step))
    ensures AllEntered(Effect(s, step))
  {
    var s' := Effect(s, step);
    forall u <- s'.calls ensures EnteredOk(s', s'.calls[u]) {
      if s'.calls[u].TJoin? && HasEntered(s'.calls[u].j) {
        OnlyStoresEnter(s, step, u);
        if HasEntered(s.calls[u].j) { EnteredStays(s, s', s.calls[u]); } else { StoreEnters(s, u); }
      }
    }
  }

  lemma {:induction false} EnteredInvariance(steps: seq<Step>, s: State)
    requires Reached(steps, s)
    ensures AllEntered(s)
  {
    if steps != [] {
      var before, step := steps[..|steps| - 1], steps[|steps| - 1];
      var r := Exec(before).value;
      EnteredInvariance(before, r);
      if step.Tick? {
        forall u <- s.calls ensures EnteredOk(s, s.calls[u]) { assert EnteredOk(r, r.calls[u]); }
      } else {
        Invariance(before);
        StepKeeps(r, step);
        StepKeepsEntered(r, step);
      }
    }
  }

  // ---------- what a listing in progress knows ----------

  /** id is a participant of a join of the stream that has registered. */
  ghost predicate JoinerOf(s: State, x: Uuid, id: Uuid) {
    && id in s.origins && s.origins[id].OfParticipant?
    && var t := s.origins[id].join;
       && t in s.calls && s.calls[t].TJoin? && Named(s.calls[t].j)
       && s.calls[t].j.stream == x && s.calls[t].j.me.uuid == id && Progress(JSwitch) <= Progress(s.calls[t].j.pc)
  }

  ghost predicate Over(s: State, x: Uuid, id: Uuid) {
    JoinerOf(s, x, id) && s.calls[s.origins[id].join].j.result != Undecided
  }

  ghost predicate TurnedAway(s: State, x: Uuid, id: Uuid) {
    Over(s, x, id) && !HasEntered(s.calls[s.origins[id].join].j)
  }

  /** p is what the pending map shows of its join. */
  ghost predicate FoundOk(s: State, x: Uuid, p: Participant) {
    && JoinerOf(s, x, p.uuid)
    && p == Persisted(s.calls[s.origins[p.uuid].join].j.me.(status := Pending))
  }

  predicate PastRange(l: ListCall) {
    l.pc == LVisit || l.pc == LRoster || l.pc == LDone
  }

  ghost predicate ListOk(s: State, l: ListCall) {
    && NoDuplicates(l.found) && (forall i :: 0 <= i < |l.found| ==> FoundOk(s, l.stream, l.found[i]))
    && (!PastRange(l) ==> l.found == [])
    && (PastRange(l) ==>
          l.entered <= |Entered(s, l.stream)| && forall id <- l.range :: JoinerOf(s, l.stream, id))
    && (l.pc == LRoster || l.pc == LDone ==>
          forall id <- l.range :: Lists(l.found, id) || Over(s, l.stream, id))
    && (l.pc == LDone ==> RosterOk(s, l.stream, l.roster))
  }

  /** The roster it loaded, when no join had stored a stale copy. */
  ghost predicate LoadedAll(s: State, l: ListCall) {
    l.pc == LDone ==>
      && l.roster <= Entered(s, l.stream) && l.entered <= |l.roster|
      && forall id <- l.range :: Lists(l.found, id) || Lists(l.roster, id) || TurnedAway(s, l.stream, id)
  }

  lemma JoinerStays(s: State, s': State, x: Uuid, id: Uuid)
    requires JoinerOf(s, x, id) && Grows(s, s')
    ensures JoinerOf(s', x, id)
    ensures Over(s, x, id) ==> Over(s', x, id)
    ensures TurnedAway(s, x, id) ==> TurnedAway(s', x, id)
    ensures var t := s.origins[id].join; s'.calls[t].j.me.(status := Pending) == s.calls[t].j.me.(status := Pending)
  {}

  lemma ListStays(s: State, s': State, l: ListCall)
    requires ListOk(s, l) && Grows(s, s')
    ensures ListOk(s', l)
  {
    forall i | 0 <= i < |l.found| ensures FoundOk(s', l.stream, l.found[i]) {
      assert FoundOk(s, l.stream, l.found[i]);
      JoinerStays(s, s', l.stream, l.found[i].uuid);
    }
    assert Entered(s, l.stream) <= Entered(s', l.stream);
    if PastRange(l) {
      forall id <- l.range
        ensures JoinerOf(s', l.stream, id) && (Over(s, l.stream, id) ==> Over(s', l.stream, id))
      {
        JoinerStays(s, s', l.stream, id);
      }
    }
    if l.pc == LDone { RosterStays(s, s', l.stream, l.roster); }
  }

  lemma LoadedStays(s: State, s': State, l: ListCall)
    requires ListOk(s, l) && LoadedAll(s, l) && Grows(s, s')
    ensures LoadedAll(s', l)
  {
    assert Entered(s, l.stream) <= Entered(s', l.stream);
    if l.pc == LDone {
      forall id <- l.range ensures TurnedAway(s, l.stream, id) ==> TurnedAway(s', l.stream, id) {
        JoinerStays(s, s', l.stream, id);
      }
    }
  }

  // ---------- the steps of a listing ----------

  lemma WaitingIsJoiner(s: State, x: Uuid, id: Uuid)
    requires (x, id) in s.pending && PendingOk(s, (x, id), s.pending[(x, id)]) && EntryIsWaiting(s, (x, id))
    ensures FoundOk(s, x, Persisted(s.pending[(x, id)])) && s.pending[(x, id)].uuid == id
  {}

  /** A joiner that is not pending any more has its answer. */
  lemma GoneIsOver(s: State, x: Uuid, id: Uuid)
    requires JoinerOf(s, x, id) && (x, id) !in s.pending && WaiterHasEntry(s, s.origins[id].join)
    requires Shaped(s.calls[s.origins[id].join])
    ensures Over(s, x, id)
  {}

  ghost predicate PendingKnown(s: State) {
    && PendingEntriesOk(s) && PendingExact(s) && forall t <- s.calls :: Shaped(s.calls[t])
  }

  lemma RangeOk(s: State, l: ListCall)
    requires ListOk(s, l) && l.pc == LRange && PendingKnown(s)
    ensures ListOk(s, l.(range := PendingOn(s.pending, l.stream), entered := |Entered(s, l.stream)|, pc := LVisit))
  {
    forall id <- PendingOn(s.pending, l.stream) ensures JoinerOf(s, l.stream, id) {
      assert PendingOk(s, (l.stream, id), s.pending[(l.stream, id)]) && EntryIsWaiting(s, (l.stream, id));
      WaitingIsJoiner(s, l.stream, id);
    }
  }

  lemma VisitOk(s: State, l: ListCall, id: Uuid)
    requires ListOk(s, l) && l.pc == LVisit && PendingKnown(s) && (l.stream, id) in s.pending && !Lists(l.found, id)
    ensures ListOk(s, l.(found := l.found + [Persisted(s.pending[(l.stream, id)])]))
  {
    assert PendingOk(s, (l.stream, id), s.pending[(l.stream, id)]) && EntryIsWaiting(s, (l.stream, id));
    WaitingIsJoiner(s, l.stream, id);
    forall i | 0 <= i < |l.found| ensures l.found[i].uuid != id {}
  }

  lemma RangeEndOk(s: State, l: ListCall)
    requires ListOk(s, l) && l.pc == LVisit && PendingKnown(s)
    requires forall id <- l.range :: (l.stream, id) in s.pending ==> Lists(l.found, id)
    ensures ListOk(s, l.(pc := LRoster))
  {
    forall id <- l.range ensures Lists(l.found, id) || Over(s, l.stream, id) {
      if !Lists(l.found, id) {
        assert JoinerOf(s, l.stream, id);
        assert WaiterHasEntry(s, s.origins[id].join);
        GoneIsOver(s, l.stream, id);
      }
    }
  }

  lemma LoadOk(s: State, l: ListCall)
    requires ListOk(s, l) && l.pc == LRoster && RosterOk(s, l.stream, Roster(s, l.stream))
    ensures ListOk(s, l.(roster := Roster(s, l.stream), pc := LDone))
  {}

  lemma LoadsAll(s: State, l: ListCall)
    requires ListOk(s, l) && l.pc == LRoster && AllEntered(s) && Roster(s, l.stream) == Entered(s, l.stream)
    ensures LoadedAll(s, l.(roster := Roster(s, l.stream), pc := LDone))
  {
    forall id <- l.range
      ensures Lists(l.found, id) || Lists(Roster(s, l.stream), id) || TurnedAway(s, l.stream, id)
    {
      if Over(s, l.stream, id) { assert EnteredOk(s, s.calls[s.origins[id].join]); }
    }
  }

  lemma ListMovesOk(s: State, t: CallId, a: ListAction)
    requires ListEnabled(s, t, a) && ListOk(s, s.calls[t].l) && PendingKnown(s)
    requires RosterOk(s, s.calls[t].l.stream, Roster(s, s.calls[t].l.stream))
    ensures ListOk(s, ListMove(s, t, a).call.l)
  {
    var l := s.calls[t].l;
    match a {
      case ListLoadLive =>
      case ListRange => RangeOk(s, l);
      case ListVisit(id) => VisitOk(s, l, id);
      case ListRangeEnd => RangeEndOk(s, l);
      case ListLoadRoster => LoadOk(s, l);
    }
  }

  lemma ListMovesAll(s: State, t: CallId, a: ListAction)
    requires ListEnabled(s, t, a) && ListOk(s, s.calls[t].l) && AllEntered(s)
    requires Roster(s, s.calls[t].l.stream) == Entered(s, s.calls[t].l.stream)
    ensures LoadedAll(s, ListMove(s, t, a).call.l)
  {
    if a.ListLoadRoster? { LoadsAll(s, s.calls[t].l); }
  }

  lemma ListComesFrom(s: State, step: Step, u: CallId)
    requires Enabled(s, step) && !step.Tick? && u in Effect(s, step).calls && Effect(s, step).calls[u].TList?
    ensures u != step.t ==> u in s.calls && Effect(s, step).calls[u] == s.calls[u]
    ensures u == step.t && !step.ByList? ==> step.Begin? && Effect(s, step).calls[u] == FirstCall(step.request)
    ensures u == step.t && step.ByList? ==>
              u in s.calls && s.calls[u].TList? && Effect(s, step).calls[u] == ListMove(s, u, step.list).call
  {}

  ghost predicate ListInv(s: State, c: Call, clear: bool) {
    c.TList? ==> ListOk(s, c.l) && (clear ==> LoadedAll(s, c.l))
  }

  /** What holds of the tables before a step. */
  ghost predicate Ground(s: State, x: Uuid, clear: bool) {
    && PendingKnown(s) && RosterOk(s, x, Roster(s, x)) && AllEntered(s)
    && (clear ==> Roster(s, x) == Entered(s, x))
  }

  lemma ReachedGround(steps: seq<Step>, s: State, x: Uuid)
    requires Reached(steps, s)
    ensures Ground(s, x, !Overwritten(steps, x))
  {
    Invariance(steps);
    PendingIsWaiting(steps, s);
    ReachedRoster(steps, s, x);
    EnteredInvariance(steps, s);
    RosterIsHistoryExactly(steps, s, x);
    forall t <- s.calls ensures Shaped(s.calls[t]) { assert CallOk(s, t, s.calls[t]); }
  }

  lemma StepKeepsList(s: State, step: Step, u: CallId, clear: bool)
    requires Enabled(s, step) && !step.Tick? && Grows(s, Effect(s, step))
    requires u in Effect(s, step).calls && Effect(s, step).calls[u].TList?
    requires u in s.calls ==> ListInv(s, s.calls[u], clear)
    requires Ground(s, Effect(s, step).calls[u].l.stream, clear)
    ensures ListInv(Effect(s, step), Effect(s, step).calls[u], clear)
  {
    var s', l := Effect(s, step), Effect(s, step).calls[u].l;
    NextListOk(s, step, u, clear);
    ListStays(s, s', l);
    if clear { LoadedStays(s, s', l); }
  }

  lemma NextListOk(s: State, step: Step, u: CallId, clear: bool)
    requires Enabled(s, step) && !step.Tick?
    requires u in Effect(s, step).calls && Effect(s, step).calls[u].TList?
    requires u in s.calls ==> ListInv(s, s.calls[u], clear)
    requires Ground(s, Effect(s, step).calls[u].l.stream, clear)
    ensures ListInv(s, Effect(s, step).calls[u], clear)
  {
    ListComesFrom(s, step, u);
    if u == step.t && step.ByList? { MovedListOk(s, u, step.list, clear); }
  }

  lemma MovedListOk(s: State, t: CallId, a: ListAction, clear: bool)
    requires ListEnabled(s, t, a) && ListInv(s, s.calls[t], clear) && Ground(s, s.calls[t].l.stream, clear)
    ensures ListInv(s, ListMove(s, t, a).call, clear)
  {
    ListMovesOk(s, t, a);
    if clear { ListMovesAll(s, t, a); }
  }

  lemma {:induction false} ListInvariance(steps: seq<Step>, s: State, u: CallId)
    requires Reached(steps, s) && u in s.calls && s.calls[u].TList?
    ensures ListInv(s, s.calls[u], !Overwritten(steps, s.calls[u].l.stream))
  {
    var before, step := steps[..|steps| - 1], steps[|steps| - 1];
    var r := Exec(before).value;
    if step.Tick? {
      ListInvariance(before, r, u);
      TickGrows(r, step.now);
      ListStays(r, s, s.calls[u].l);
      if !Overwritten(steps, s.calls[u].l.stream) { LoadedStays(r, s, s.calls[u].l); }
    } else {
      Invariance(before);
      StepKeeps(r, step);
      ListComesFrom(r, step, u);
      if u in r.calls { ListInvariance(before, r, u); }
      ReachedGround(before, r, s.calls[u].l.stream);
      StepKeepsList(r, step, u, !Overwritten(before, s.calls[u].l.stream));
    }
  }

  // ---------- what a listing shows ----------

  /** Everybody who was pending or in the roster when the range over the pending map began is listed, or was turned
      away meanwhile, if no join of the stream stored a stale roster. */
  lemma ListedUnlessTurnedAway(run: seq<Step>, n: nat, s: State, t: CallId, s': State, id: Uuid)
    requires ReachedAt(run, n, s) && Reached(run, s') && ListAt(s', t, LDone)
    requires n < |run| && run[n] == ByList(t, ListRange)
    requires var x := s'.calls[t].l.stream;
             !Overwritten(run, x) && ((x, id) in s.pending || Lists(Roster(s, x), id))
    ensures var l := s'.calls[t].l; Lists(l.found + l.roster, id) || TurnedAway(s', l.stream, id)
  {
    var l := s'.calls[t].l;
    RangeBegan(run, n, s, t, s');
    ListInvariance(run, s', t);
    if (l.stream, id) in s.pending {
      assert id in l.range;
    } else {
      ClearBefore(run, n, l.stream);
      RosterIsHistoryExactly(run[..n], s, l.stream);
      RunGrows(run, n);
      assert Entered(s, l.stream) <= Entered(s', l.stream);
      assert Entered(s, l.stream) <= l.roster;
      ListsGrows(Entered(s, l.stream), l.roster, id);
    }
    ListsInSum(l.found, l.roster, id);
  }

  lemma ListsInSum(ps: seq<Participant>, qs: seq<Participant>, id: Uuid)
    ensures Lists(ps + qs, id) <==> Lists(ps, id) || Lists(qs, id)
  {
    if Lists(ps, id) { ListsGrows(ps, ps + qs, id); }
    if Lists(qs, id) {
      var i :| 0 <= i < |qs| && qs[i].uuid == id;
      assert (ps + qs)[|ps| + i].uuid == id;
    }
    if Lists(ps + qs, id) {
      var i :| 0 <= i < |ps + qs| && (ps + qs)[i].uuid == id;
      assert if i < |ps| then ps[i].uuid == id else qs[i - |ps|].uuid == id;
    }
  }

  lemma {:induction false} ClearBefore(run: seq<Step>, n: nat, x: Uuid)
    requires n <= |run| && !Overwritten(run, x)
    ensures !Overwritten(run[..n], x)
  {
    if n < |run| {
      assert run[..|run| - 1][..n] == run[..n];
      ClearBefore(run[..|run| - 1], n, x);
    } else {
      assert run[..n] == run;
    }
  }

  lemma RangeBegan(run: seq<Step>, n: nat, s: State, t: CallId, s': State)
    requires ReachedAt(run, n, s) && Reached(run, s') && n < |run| && run[n] == ByList(t, ListRange)
    requires t in s'.calls && s'.calls[t].TList?
    ensures var l := s'.calls[t].l;
            l.range == PendingOn(s.pending, l.stream) && l.entered == |Entered(s, l.stream)|
  {
    PrefixReached(run, n + 1);
    assert run[..n + 1][..n] == run[..n];
    RunGrows(run, n + 1);
  }

  // ---------- who is listed twice ----------

  /** The participant's join of the stream has stored into the roster. */
  ghost predicate JoinEntered(s: State, x: Uuid, id: Uuid) {
    exists u :: u in s.calls && s.calls[u].TJoin? && HasEntered(s.calls[u].j)
             && s.calls[u].j.stream == x && s.calls[u].j.me.uuid == id
  }

  /** A listing returns the roster as it was at its load. */
  lemma RosterAtLoad(run: seq<Step>, m: nat, r: State, t: CallId, s': State)
    requires ReachedAt(run, m, r) && Reached(run, s') && m < |run| && run[m] == ByList(t, ListLoadRoster)
    ensures t in r.calls && r.calls[t].TList? && ListAt(s', t, LDone)
    ensures s'.calls[t].l == r.calls[t].l.(roster := Roster(r, r.calls[t].l.stream), pc := LDone)
  {
    PrefixReached(run, m + 1);
    assert run[..m + 1][..m] == run[..m];
    RunGrows(run, m + 1);
  }

  /** A roster names only participants whose joins have stored, and all of them if no join stored a stale copy. */
  lemma RosterNames(steps: seq<Step>, s: State, x: Uuid, id: Uuid)
    requires Reached(steps, s)
    ensures Lists(Roster(s, x), id) ==> JoinEntered(s, x, id)
    ensures !Overwritten(steps, x) && JoinEntered(s, x, id) ==> Lists(Roster(s, x), id)
  {
    if Lists(Roster(s, x), id) {
      ReachedRoster(steps, s, x);
      var i :| 0 <= i < |Roster(s, x)| && Roster(s, x)[i].uuid == id;
      assert MemberOk(s, x, Roster(s, x)[i]);
    }
    EnteredInvariance(steps, s);
    RosterIsHistoryExactly(steps, s, x);
    forall u | u in s.calls ensures EnteredOk(s, s.calls[u]) {}
  }

  /** A participant visited in the pending map, whose join was waiting then, is named by the roster part too only if
      its join had stored by the time the roster was loaded (before the visit, with its deferred delete still to come,
      or after), and if no join stored a stale roster, exactly if it had. */
  lemma ListedTwiceExactly(run: seq<Step>, n: nat, s: State, m: nat, r: State, t: CallId, s': State, id: Uuid)
    requires ReachedAt(run, n, s) && ReachedAt(run, m, r) && Reached(run, s') && n < |run| && m < |run|
    requires run[n] == ByList(t, ListVisit(id)) && run[m] == ByList(t, ListLoadRoster)
    ensures t in s'.calls && s'.calls[t].TList?
    ensures var l := s'.calls[t].l;
            && Lists(l.found, id) && (exists u :: WaitingOn(s, u, l.stream, id))
            && NoDuplicates(l.found) && NoDuplicates(l.roster)
            && (Lists(l.roster, id) ==> JoinEntered(r, l.stream, id))
            && (!Overwritten(run[..m], l.stream) ==> (Lists(l.roster, id) <==> JoinEntered(r, l.stream, id)))
  {
    RosterAtLoad(run, m, r, t, s');
    var l := s'.calls[t].l;
    ListInvariance(run, s', t);
    assert Reached(run[..n], s) && Reached(run[..m], r);
    VisitFound(run, n, s, t, s', id);
    PendingExactly(run[..n], s, l.stream, id);
    RosterNames(run[..m], r, l.stream, id);
  }

  lemma NoDuplicatesInSum(ps: seq<Participant>, qs: seq<Participant>)
    requires NoDuplicates(ps) && NoDuplicates(qs)
    ensures NoDuplicates(ps + qs) <==> forall id :: Lists(ps, id) ==> !Lists(qs, id)
  {
    if NoDuplicates(ps + qs) {
      forall id | Lists(ps, id) ensures !Lists(qs, id) {
        var i :| 0 <= i < |ps| && ps[i].uuid == id;
        forall k | 0 <= k < |qs| ensures qs[k].uuid != id {
          assert (ps + qs)[i] == ps[i] && (ps + qs)[|ps| + k] == qs[k];
        }
      }
    } else {
      var i, k :| 0 <= i < k < |ps + qs| && (ps + qs)[i].uuid == (ps + qs)[k].uuid;
      assert i < |ps| <= k && ps[i].uuid == qs[k - |ps|].uuid;
      assert Lists(ps, ps[i].uuid) && Lists(qs, ps[i].uuid);
    }
  }

  /** A listing names nobody twice if and only if no join of those it visited in the pending map had stored into the
      roster by the time the roster was loaded, provided no join stored a stale roster before. */
  lemma NobodyTwiceExactly(run: seq<Step>, m: nat, r: State, t: CallId, s': State)
    requires ReachedAt(run, m, r) && Reached(run, s') && m < |run| && run[m] == ByList(t, ListLoadRoster)
    requires t in s'.calls && s'.calls[t].TList? && !Overwritten(run[..m], s'.calls[t].l.stream)
    ensures var l := s'.calls[t].l;
            NoDuplicates(l.found + l.roster) <==> forall id :: Lists(l.found, id) ==> !JoinEntered(r, l.stream, id)
  {
    RosterAtLoad(run, m, r, t, s');
    var l := s'.calls[t].l;
    ListInvariance(run, s', t);
    NoDuplicatesInSum(l.found, l.roster);
    assert Reached(run[..m], r);
    forall id ensures Lists(l.roster, id) <==> JoinEntered(r, l.stream, id) { RosterNames(run[..m], r, l.stream, id); }
  }

  lemma VisitFound(run: seq<Step>, n: nat, s: State, t: CallId, s': State, id: Uuid)
    requires ReachedAt(run, n, s) && Reached(run, s') && t in s'.calls && s'.calls[t].TList?
    requires n < |run| && run[n] == ByList(t, ListVisit(id))
    ensures var l := s'.calls[t].l; Lists(l.found, id) && (l.stream, id) in s.pending
  {
    PrefixReached(run, n + 1);
    assert run[..n + 1][..n] == run[..n];
    RunGrows(run, n + 1);
    VisitAppends(run[..n], s, t, id);
    ListsGrows(Exec(run[..n + 1]).value.calls[t].l.found, s'.calls[t].l.found, id);
  }

  lemma VisitAppends(steps: seq<Step>, s: State, t: CallId, id: Uuid)
    requires Reached(steps, s) && ListEnabled(s, t, ListVisit(id))
    ensures t in Effect(s, ByList(t, ListVisit(id))).calls
    ensures var c := Effect(s, ByList(t, ListVisit(id))).calls[t];
            c.TList? && c.l.stream == s.calls[t].l.stream && Lists(c.l.found, id)
  {
    var l := s.calls[t].l;
    ReachedPending(steps, s, (l.stream, id));
    assert (l.found + [Persisted(s.pending[(l.stream, id)])])[|l.found|].uuid == id;
  }

  // ---------- with no join in flight ----------

  ghost predicate NobodyWaits(s: State, x: Uuid) {
    forall u, id :: !WaitingOn(s, u, x, id)
  }

  /** In no state from the n-th to the m-th is a join of the stream between its registration and its return. */
  ghost predicate QuietBetween(run: seq<Step>, n: nat, m: nat, x: Uuid)
    requires m <= |run|
  {
    forall i :: n <= i <= m && Exec(run[..i]).Some? ==> NobodyWaits(Exec(run[..i]).value, x)
  }

  /** A listing between its range and its load has found nobody, and the roster is still the same. */
  ghost predicate StillSame(s: State, q: State, t: CallId, x: Uuid) {
    && (ListAt(q, t, LVisit) || ListAt(q, t, LRoster)) && q.calls[t].l.stream == x && q.calls[t].l.found == []
    && Roster(q, x) == Roster(s, x)
  }

  lemma QuietRoster(q: State, step: Step, x: Uuid)
    requires NobodyWaits(q, x) && Enabled(q, step)
    ensures Roster(Effect(q, step), x) == Roster(q, x)
  {
    if !step.Tick? {
      OnlyJoinsStore(q, step);
      if StoresInto(q, step, x) { assert WaitingOn(q, step.t, x, q.calls[step.t].j.me.uuid); }
    }
  }

  lemma OtherListStays(q: State, step: Step, t: CallId)
    requires Enabled(q, step) && t in q.calls && q.calls[t].TList? && (step.Tick? || step.t != t)
    ensures t in Effect(q, step).calls && Effect(q, step).calls[t] == q.calls[t]
  {}

  lemma OwnListMove(q: State, step: Step, t: CallId)
    requires Enabled(q, step) && t in q.calls && q.calls[t].TList? && !step.Tick? && step.t == t
    ensures step.ByList? && t in Effect(q, step).calls && Effect(q, step).calls[t] == ListMove(q, t, step.list).call
  {}

  lemma QuietStep(steps: seq<Step>, s: State, q: State, step: Step, t: CallId, x: Uuid)
    requires Reached(steps, q) && NobodyWaits(q, x) && StillSame(s, q, t, x)
    requires Enabled(q, step) && step != ByList(t, ListLoadRoster)
    ensures StillSame(s, Effect(q, step), t, x)
  {
    QuietRoster(q, step, x);
    if step.Tick? || step.t != t {
      OtherListStays(q, step, t);
    } else {
      OwnListMove(q, step, t);
      if step.list.ListVisit? { PendingExactly(steps, q, x, step.list.participant); }
    }
  }

  lemma BegunQuietly(steps: seq<Step>, s: State, t: CallId)
    requires Reached(steps, s) && ListAt(s, t, LRange)
    ensures StillSame(s, Effect(s, ByList(t, ListRange)), t, s.calls[t].l.stream)
  {
    ListInvariance(steps, s, t);
  }

  lemma {:induction false} QuietUntil(run: seq<Step>, n: nat, s: State, k: nat, q: State, m: nat, t: CallId, x: Uuid)
    requires ReachedAt(run, n, s) && ReachedAt(run, k, q) && n < k <= m < |run| && QuietBetween(run, n, m, x)
    requires run[n] == ByList(t, ListRange) && ListAt(s, t, LRange) && s.calls[t].l.stream == x
    requires forall i :: n < i < m ==> run[i] != ByList(t, ListLoadRoster)
    ensures StillSame(s, q, t, x)
  {
    var before := run[..k - 1];
    assert run[..k][..k - 1] == before;
    var b := Exec(before).value;
    if k == n + 1 {
      BegunQuietly(before, s, t);
    } else {
      QuietUntil(run, n, s, k - 1, b, m, t, x);
      QuietStep(before, s, b, run[k - 1], t, x);
    }
  }

  /** A roster load is the last step of its listing. */
  lemma LoadsOnce(run: seq<Step>, i: nat, m: nat, t: CallId)
    requires i < m < |run| && Exec(run).Some? && run[i] == ByList(t, ListLoadRoster)
    ensures run[m] != ByList(t, ListLoadRoster)
  {
    PrefixReached(run, m + 1);
    PrefixReached(run, m);
    PrefixReached(run, i);
    assert run[..m + 1][..m] == run[..m] && run[..m][i] == run[i] && run[..m][..i] == run[..i];
    RosterAtLoad(run[..m], i, Exec(run[..i]).value, t, Exec(run[..m]).value);
  }

  /** With no join of the stream in flight from the beginning of its range to its load, a listing is exactly the
      roster, which is the same throughout. */
  lemma QuietListing(run: seq<Step>, n: nat, s: State, m: nat, t: CallId, s': State)
    requires ReachedAt(run, n, s) && Reached(run, s') && n < m < |run|
    requires run[n] == ByList(t, ListRange) && run[m] == ByList(t, ListLoadRoster)
    requires ListAt(s, t, LRange) && QuietBetween(run, n, m, s.calls[t].l.stream)
    ensures ListAt(s', t, LDone)
    ensures var l := s'.calls[t].l;
            l.stream == s.calls[t].l.stream && l.found == [] && l.roster == Roster(s, l.stream)
  {
    PrefixReached(run, m);
    PrefixReached(run, m + 1);
    var r := Exec(run[..m]).value;
    forall i | n < i < m ensures run[i] != ByList(t, ListLoadRoster) {
      if run[i] == ByList(t, ListLoadRoster) { LoadsOnce(run, i, m, t); }
    }
    QuietUntil(run, n, s, m, r, m, t, s.calls[t].l.stream);
    RosterAtLoad(run, m, r, t, s');
  }
}
