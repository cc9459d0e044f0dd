/** Who gets into a stream: what holds of rosters, tokens, decisions and pending participants in every run. */
module Admission {
  import opened Domain
  import opened Protocol
  import opened Growth
  import opened Invariant
  import opened Safety
  import opened Steps

  // ---------- rosters ----------

  /** The join that brought p into the stream: it minted p's token and the policy it had loaded let p in. */
  ghost predicate BroughtIn(s: State, t: CallId, stream: Uuid, p: Participant) {
    && t in s.calls && s.calls[t].TJoin?
    && var j := s.calls[t].j;
       && j.stream == stream && Persisted(j.me) == p && Justified(j)
       && HasToken(s, j.token, Signed(j.key, Claims(stream, p.uuid, false)))
  }

  ghost predicate ProperRoster(s: State, stream: Uuid, ps: seq<Participant>) {
    && NoDuplicates(ps)
    && forall i :: 0 <= i < |ps| ==> ps[i].status.Active? && exists t :: BroughtIn(s, t, stream, ps[i])
  }

  lemma MemberBroughtIn(steps: seq<Step>, s: State, stream: Uuid, p: Participant)
    requires Reached(steps, s) && MemberOk(s, stream, p)
    ensures p.status.Active? && BroughtIn(s, s.origins[p.uuid].join, stream, p)
  {
    ReachedCall(steps, s, s.origins[p.uuid].join);
  }

  lemma RosterProper(steps: seq<Step>, s: State, stream: Uuid, ps: seq<Participant>)
    requires Reached(steps, s) && RosterOk(s, stream, ps)
    ensures ProperRoster(s, stream, ps)
  {
    forall i | 0 <= i < |ps| ensures ps[i].status.Active? && exists t :: BroughtIn(s, t, stream, ps[i]) {
      assert MemberOk(s, stream, ps[i]);
      MemberBroughtIn(steps, s, stream, ps[i]);
    }
  }

  /** Under every interleaving, a stored roster is duplicate-free and all active, and each member was let in
      by its own join, under the policy that join had loaded, and has its token. */
  lemma StoredRostersProper(steps: seq<Step>, s: State, stream: Uuid)
    requires Reached(steps, s)
    ensures ProperRoster(s, stream, Roster(s, stream))
  {
    ReachedRoster(steps, s, stream);
    RosterProper(steps, s, stream, Roster(s, stream));
  }

  /** The same holds of every copy a join holds between its load and its store... */
  lemma LoadedRostersProper(steps: seq<Step>, s: State, t: CallId)
    requires Reached(steps, s) && JoinAt(s, t, JStoreRoster)
    ensures ProperRoster(s, s.calls[t].j.stream, s.calls[t].j.copy)
  {
    ReachedCall(steps, s, t);
    RosterProper(steps, s, s.calls[t].j.stream, s.calls[t].j.copy);
  }

  /** ...and the joiner, let in like the others, is not in it. */
  lemma JoinerIsNew(steps: seq<Step>, s: State, t: CallId)
    requires Reached(steps, s) && JoinAt(s, t, JStoreRoster)
    ensures var j := s.calls[t].j; !Lists(j.copy, j.me.uuid) && BroughtIn(s, t, j.stream, Persisted(j.me))
  {
    ReachedCall(steps, s, t);
    ListsOnlyEntered(s, s.calls[t].j.stream, s.calls[t].j.copy, t);
  }

  // ---------- host decisions ----------

  /** The join is past its channel receive. */
  predicate PastReceive(j: JoinCall) {
    Named(j) && j.snapshot.Some? && j.snapshot.value.join.policy.HostResolve? && Progress(j.pc) > Progress(JReceive)
  }

  ghost predicate Exchanged(s: State, d: CallId, t: CallId) {
    && DecideAt(s, d, DSent) && t in s.calls && s.calls[t].TJoin? && PastReceive(s.calls[t].j)
    && var j := s.calls[t].j;
       && j.received == Some(s.calls[d].d.allowed)
       && j.stream == s.calls[d].d.stream && j.me.uuid == s.calls[d].d.participant
       && s.calls[d].d.channel == t && j.decider == d
  }

  /** A decision that returned handed its value to one join, the one it was meant for... */
  lemma DecisionReachedItsJoin(steps: seq<Step>, s: State, d: CallId)
    requires Reached(steps, s) && DecideAt(s, d, DSent)
    ensures exists t :: Exchanged(s, d, t)
    ensures forall t, u :: Exchanged(s, d, t) && Exchanged(s, d, u) ==> t == u
  {
    ReachedCall(steps, s, d);
    var t := s.calls[d].d.channel;
    ReachedCall(steps, s, t);
    assert Exchanged(s, d, t);
  }

  /** ...and a join past its receive got its value from one decision. */
  lemma ReceiverWasDecided(steps: seq<Step>, s: State, t: CallId)
    requires Reached(steps, s) && t in s.calls && s.calls[t].TJoin? && PastReceive(s.calls[t].j)
    ensures exists d :: Exchanged(s, d, t)
    ensures forall d, e :: Exchanged(s, d, t) && Exchanged(s, e, t) ==> d == e
  {
    ReachedCall(steps, s, t);
    assert Exchanged(s, s.calls[t].j.decider, t);
  }

  ghost predicate Names(s: State, participant: Uuid) {
    || (exists token <- s.tokens :: s.tokens[token].claims.participant == participant)
    || (exists stream <- s.rosters :: Lists(s.rosters[stream], participant))
    || (exists t :: JoinAt(s, t, JStoreRoster) && Lists(s.calls[t].j.copy, participant))
  }

  lemma ListsOnlyEntered(s: State, stream: Uuid, ps: seq<Participant>, t: CallId)
    requires RosterOk(s, stream, ps) && t in s.calls && s.calls[t].TJoin?
    requires JoinedBy(s, s.calls[t].j.me.uuid, t) && !HasEntered(s.calls[t].j)
    ensures !Lists(ps, s.calls[t].j.me.uuid)
  {
    forall i | 0 <= i < |ps| ensures ps[i].uuid != s.calls[t].j.me.uuid { assert MemberOk(s, stream, ps[i]); }
  }

  lemma OnlyAdmittedAreNamed(s: State, t: CallId)
    requires Inv(s) && t in s.calls && s.calls[t].TJoin? && s.calls[t].j.result == Denied
    ensures !Names(s, s.calls[t].j.me.uuid)
  {
    var id := s.calls[t].j.me.uuid;
    assert CallOk(s, t, s.calls[t]);
    forall token <- s.tokens ensures s.tokens[token].claims.participant != id {
      assert TokenOk(s, token, s.tokens[token]);
    }
    forall stream <- s.rosters ensures !Lists(s.rosters[stream], id) {
      ListsOnlyEntered(s, stream, s.rosters[stream], t);
    }
    forall u | JoinAt(s, u, JStoreRoster) ensures !Lists(s.calls[u].j.copy, id) {
      assert CallOk(s, u, s.calls[u]);
      ListsOnlyEntered(s, s.calls[u].j.stream, s.calls[u].j.copy, t);
    }
  }

  /** A join that received false never, later in the run, has a token or a place in any roster or copy. */
  lemma DeniedStaysOut(steps: seq<Step>, n: nat, t: CallId)
    requires Exec(steps).Some? && n <= |steps| && Exec(steps[..n]).Some?
    requires var s := Exec(steps[..n]).value;
             t in s.calls && s.calls[t].TJoin? && s.calls[t].j.received == Some(false)
    ensures !Names(Exec(steps).value, Exec(steps[..n]).value.calls[t].j.me.uuid)
  {
    RunGrows(steps, n);
    Invariance(steps);
    Invariance(steps[..n]);
    assert CallOk(Exec(steps[..n]).value, t, Exec(steps[..n]).value.calls[t]);
    OnlyAdmittedAreNamed(Exec(steps).value, t);
  }

  // ---------- decisions that can return ----------

  /** The join has loaded host_resolve and is not past its channel receive. */
  predicate MayReceive(j: JoinCall) {
    j.snapshot.Some? && j.snapshot.value.join.policy.HostResolve? && Progress(j.pc) <= Progress(JReceive)
  }

  /** The decision has returned at the end of the continuation. */
  ghost predicate ReturnsIn(steps: seq<Step>, more: seq<Step>, d: CallId) {
    Exec(steps + more).Some? && DecideAt(Exec(steps + more).value, d, DSent)
  }

  /** A join past its receive got its value from another decision; one under another policy never receives. */
  lemma WaitsInVain(steps: seq<Step>, s: State, d: CallId, more: seq<Step>)
    requires Reached(steps, s) && DecideAt(s, d, DSend) && ReturnsIn(steps, more, d)
    ensures var t := s.calls[d].d.channel; t in s.calls && s.calls[t].TJoin? && MayReceive(s.calls[t].j)
  {
    var run := steps + more;
    var s', t := Exec(run).value, s.calls[d].d.channel;
    assert run[..|steps|] == steps;
    RunGrows(run, |steps|);
    ReachedCall(steps, s, d);
    ReachedCall(steps, s, t);
    ReachedCall(run, s', d);
    ReachedCall(run, s', t);
    JoinStillOpen(s, s', t, d);
  }

  lemma JoinStillOpen(s: State, s': State, t: CallId, d: CallId)
    requires t in s.calls && s.calls[t].TJoin? && CallOk(s, t, s.calls[t]) && Named(s.calls[t].j)
    requires t in s'.calls && CallGrows(s.calls[t], s'.calls[t]) && CallOk(s', t, s'.calls[t])
    requires DecideAt(s, d, DSend) && s'.calls[t].j.received.Some? && s'.calls[t].j.decider == d
    ensures MayReceive(s.calls[t].j)
  {}

  lemma TowardsReceive(steps: seq<Step>, s: State, t: CallId) returns (steps': seq<Step>, s': State)
    requires Reached(steps, s) && (JoinAt(s, t, JRegister) || JoinAt(s, t, JSwitch))
    requires Named(s.calls[t].j) && MayReceive(s.calls[t].j)
    ensures steps <= steps' && Reached(steps', s') && t in s'.calls && s'.calls == s.calls[t := s'.calls[t]]
    ensures s'.calls[t].TJoin? && Named(s'.calls[t].j) && MayReceive(s'.calls[t].j)
    ensures Progress(s'.calls[t].j.pc) > Progress(s.calls[t].j.pc)
  {
    steps', s' := Enter(steps, s, ByJoin(t, if JoinAt(s, t, JRegister) then JoinRegister else JoinSwitch));
  }

  lemma {:induction false} ReachesReceive(steps: seq<Step>, s: State, t: CallId) returns (steps': seq<Step>, s': State)
    requires Reached(steps, s) && t in s.calls && s.calls[t].TJoin? && Named(s.calls[t].j) && MayReceive(s.calls[t].j)
    ensures steps <= steps' && Reached(steps', s') && JoinAt(s', t, JReceive) && s'.calls == s.calls[t := s'.calls[t]]
    decreases Progress(JReceive) - Progress(s.calls[t].j.pc)
  {
    steps', s' := steps, s;
    if !JoinAt(s, t, JReceive) {
      ReachedCall(steps, s, t);
      steps', s' := TowardsReceive(steps, s, t);
      steps', s' := ReachesReceive(steps', s', t);
    }
  }

  lemma CanReturn(steps: seq<Step>, s: State, d: CallId) returns (more: seq<Step>)
    requires Reached(steps, s) && DecideAt(s, d, DSend)
    requires var t := s.calls[d].d.channel; t in s.calls && s.calls[t].TJoin? && MayReceive(s.calls[t].j)
    ensures ReturnsIn(steps, more, d)
  {
    ReachedCall(steps, s, d);
    var run, r := ReachesReceive(steps, s, s.calls[d].d.channel);
    run, r := Enter(run, r, Rendezvous(s.calls[d].d.channel, d));
    more := run[|steps|..];
    assert steps + more == run;
  }

  /** A decision about to send can return in some continuation if and only if the join whose channel it holds has
      loaded host_resolve and is not past its receive: a second decision on one join waits for ever, as does one on a
      participant of a stream with another policy. */
  lemma SendReturnsExactly(steps: seq<Step>, s: State, d: CallId)
    requires Reached(steps, s) && DecideAt(s, d, DSend)
    ensures var t := s.calls[d].d.channel;
            && t in s.calls && s.calls[t].TJoin?
            && ((exists more :: ReturnsIn(steps, more, d)) <==> MayReceive(s.calls[t].j))
  {
    ReachedCall(steps, s, d);
    if MayReceive(s.calls[s.calls[d].d.channel].j) {
      var more := CanReturn(steps, s, d);
    }
    forall more | ReturnsIn(steps, more, d) ensures MayReceive(s.calls[s.calls[d].d.channel].j) {
      WaitsInVain(steps, s, d, more);
    }
  }

  // ---------- pending participants ----------

  /** The join sits between its registration and its return. */
  predicate Waiting(j: JoinCall) {
    Progress(JSwitch) <= Progress(j.pc) <= Progress(JUnregister)
  }

  ghost predicate WaitingOn(s: State, t: CallId, stream: Uuid, participant: Uuid) {
    && t in s.calls && s.calls[t].TJoin? && Waiting(s.calls[t].j)
    && s.calls[t].j.stream == stream && s.calls[t].j.me.uuid == participant
  }

  ghost predicate EntryIsWaiting(s: State, k: (Uuid, Uuid)) {
    && k.1 in s.origins && s.origins[k.1].OfParticipant?
    && WaitingOn(s, s.origins[k.1].join, k.0, k.1)
  }

  ghost predicate WaiterHasEntry(s: State, t: CallId) {
    t in s.calls && IsWaiting(s.calls[t]) ==> (s.calls[t].j.stream, s.calls[t].j.me.uuid) in s.pending
  }

  ghost predicate PendingExact(s: State) {
    && (forall k <- s.pending :: EntryIsWaiting(s, k))
    && (forall t <- s.calls :: WaiterHasEntry(s, t))
  }

  predicate IsWaiting(c: Call) {
    c.TJoin? && Waiting(c.j)
  }

  /** A move registers or unregisters exactly when it enters or leaves the waiting stretch. */
  ghost predicate KeepsPlace(s: State, t: CallId, m: Move) {
    var was := t in s.calls && IsWaiting(s.calls[t]);
    match m.write
    case PutPending(stream, p) =>
      !was && IsWaiting(m.call) && JoinedBy(s, p.uuid, t) && m.call.j.stream == stream && m.call.j.me.uuid == p.uuid
    case DropPending(stream, id) =>
      was && !IsWaiting(m.call) && s.calls[t].j.stream == stream && s.calls[t].j.me.uuid == id
    case _ =>
      && (was <==> IsWaiting(m.call))
      && (was ==> m.call.j.stream == s.calls[t].j.stream && m.call.j.me.uuid == s.calls[t].j.me.uuid)
  }

  lemma ArrivalKeepsPlace(s: State, t: CallId, a: JoinAction)
    requires JoinEnabled(s, t, a) && CallOk(s, t, s.calls[t]) && Arriving(a)
    ensures KeepsPlace(s, t, JoinMove(s, t, a))
  {}

  lemma AdmissionKeepsPlace(s: State, t: CallId, a: JoinAction)
    requires JoinEnabled(s, t, a) && Shaped(s.calls[t]) && !Arriving(a)
    ensures KeepsPlace(s, t, JoinMove(s, t, a))
  {
    if a.JoinUnregister? {
      assert IsWaiting(s.calls[t]) && !IsWaiting(JoinMove(s, t, a).call);
    } else {
      assert IsWaiting(s.calls[t]) && IsWaiting(JoinMove(s, t, a).call);
    }
  }

  lemma BeginKeepsPlace(s: State, t: CallId, request: Request)
    requires t !in s.calls
    ensures KeepsPlace(s, t, Move(FirstCall(request), NoWrite))
  {}

  lemma RendezvousKeepsPlace(s: State, t: CallId, d: CallId)
    requires Enabled(s, Rendezvous(t, d))
    ensures KeepsPlace(s, t, ExchangeMove(s.calls[t].j, d, s.calls[d].d.allowed))
  {}

  /** The steps of calls that are no joins. */
  lemma StrangersKeepPlace(s: State, step: Step)
    requires Enabled(s, step) && !step.Tick? && !step.Begin? && !step.ByJoin? && !step.Rendezvous?
    ensures KeepsPlace(s, step.t, MoveOf(s, step))
  {
    assert !IsWaiting(s.calls[step.t]) && !IsWaiting(MoveOf(s, step).call);
  }

  lemma OthersKeepPlace(s: State, step: Step)
    requires Enabled(s, step) && !step.Tick? && !step.ByJoin?
    ensures KeepsPlace(s, step.t, MoveOf(s, step))
  {
    if step.Begin? {
      BeginKeepsPlace(s, step.t, step.request);
    } else if step.Rendezvous? {
      RendezvousKeepsPlace(s, step.t, step.d);
    } else {
      StrangersKeepPlace(s, step);
    }
  }

  lemma EntryStaysWaiting(s: State, t: CallId, m: Move, k: (Uuid, Uuid))
    requires Advances(s, t, m) && KeepsPlace(s, t, m) && k in Perform(s, t, m).pending
    requires k in s.pending ==> EntryIsWaiting(s, k)
    requires t in s.calls ==> CallOk(s, t, s.calls[t])
    ensures EntryIsWaiting(Perform(s, t, m), k)
  {}

  lemma WaiterKeepsEntry(s: State, t: CallId, m: Move, u: CallId)
    requires Advances(s, t, m) && KeepsPlace(s, t, m) && WaiterHasEntry(s, u)
    requires t in s.calls ==> CallOk(s, t, s.calls[t])
    requires u in s.calls ==> CallOk(s, u, s.calls[u])
    ensures WaiterHasEntry(Perform(s, t, m), u)
  {}

  lemma PendingStaysExact(s: State, t: CallId, m: Move)
    requires Inv(s) && PendingExact(s) && Advances(s, t, m) && KeepsPlace(s, t, m)
    ensures PendingExact(Perform(s, t, m))
  {
    var s' := Perform(s, t, m);
    forall k <- s'.pending ensures EntryIsWaiting(s', k) { EntryStaysWaiting(s, t, m, k); }
    forall u <- s'.calls ensures WaiterHasEntry(s', u) { WaiterKeepsEntry(s, t, m, u); }
  }

  /** A participant is pending exactly while its join sits between registration and return. */
  lemma {:induction false} PendingIsWaiting(steps: seq<Step>, s: State)
    requires Reached(steps, s)
    ensures PendingExact(s)
  {
    if steps != [] {
      var before := steps[..|steps| - 1];
      var step := steps[|steps| - 1];
      var r := Exec(before).value;
      PendingIsWaiting(before, r);
      Invariance(before);
      if !step.Tick? {
        StepInOrder(r, step);
        if step.ByJoin? {
          assert CallOk(r, step.t, r.calls[step.t]);
          if Arriving(step.join) { ArrivalKeepsPlace(r, step.t, step.join); } else { AdmissionKeepsPlace(r, step.t, step.join); }
        } else {
          OthersKeepPlace(r, step);
        }
        PendingStaysExact(r, step.t, MoveOf(r, step));
      }
    }
  }

  /** The same, said of one participant: pending if and only if its join is waiting, and with status pending. */
  lemma PendingExactly(steps: seq<Step>, s: State, stream: Uuid, participant: Uuid)
    requires Reached(steps, s)
    ensures (stream, participant) in s.pending <==> exists t :: WaitingOn(s, t, stream, participant)
    ensures (stream, participant) in s.pending ==> s.pending[(stream, participant)].status.Pending?
  {
    PendingIsWaiting(steps, s);
    if (stream, participant) in s.pending {
      assert EntryIsWaiting(s, (stream, participant));
      ReachedPending(steps, s, (stream, participant));
    }
    forall t | WaitingOn(s, t, stream, participant) ensures (stream, participant) in s.pending {
      assert WaiterHasEntry(s, t);
    }
  }

  /** A participant is both pending and in the roster only between the roster store and the deferred delete. */
  lemma PendingAndEntered(steps: seq<Step>, s: State, stream: Uuid, participant: Uuid)
    requires Reached(steps, s)
    requires (stream, participant) in s.pending && Lists(Roster(s, stream), participant)
    ensures exists t :: JoinAt(s, t, JUnregister) && s.calls[t].j.me.uuid == participant && HasEntered(s.calls[t].j)
  {
    PendingIsWaiting(steps, s);
    assert EntryIsWaiting(s, (stream, participant));
    var t := s.origins[participant].join;
    ReachedCall(steps, s, t);
    ReachedRoster(steps, s, stream);
    var i :| 0 <= i < |Roster(s, stream)| && Roster(s, stream)[i].uuid == participant;
    assert MemberOk(s, stream, Roster(s, stream)[i]);
    assert JoinAt(s, t, JUnregister);
  }
}
