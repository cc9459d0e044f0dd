/** Operations that look something up first and fail when they do not find it: in every interleaving they go on, or
    fail, exactly by what was there when they looked. */
module Lookups {
  import opened Domain
  import opened Protocol
  import opened Safety
  import opened Admission
  import opened RecordHistory
  import opened Sequential
  import opened Uninterrupted
  import opened Participants
  import opened Requests
  import opened Shutdown

  // ---------- DecideParticipantJoin ----------

  ghost predicate NobodyWaitsFor(s: State, stream: Uuid, participant: Uuid) {
    forall u :: !WaitingOn(s, u, stream, participant)
  }

  ghost predicate FoundLive(run: seq<Step>, t: CallId, stream: Uuid) {
    exists i, s :: StepAt(run, i, s, ByDecide(t, DecideLoadLive)) && stream in s.live
  }

  ghost predicate MissedLive(run: seq<Step>, t: CallId, stream: Uuid) {
    exists i, s :: StepAt(run, i, s, ByDecide(t, DecideLoadLive)) && stream !in s.live
  }

  ghost predicate FoundWaiting(run: seq<Step>, t: CallId, stream: Uuid, participant: Uuid, join: CallId) {
    exists i, s :: StepAt(run, i, s, ByDecide(t, DecideLoadPending)) && WaitingOn(s, join, stream, participant)
  }

  ghost predicate MissedWaiting(run: seq<Step>, t: CallId, stream: Uuid, participant: Uuid) {
    exists i, s :: StepAt(run, i, s, ByDecide(t, DecideLoadPending)) && NobodyWaitsFor(s, stream, participant)
  }

  ghost predicate StandsOn(run: seq<Step>, t: CallId, d: DecideCall) {
    match d.pc
    case DLoadLive => true
    case DLoadPending => FoundLive(run, t, d.stream)
    case DSend | DSent =>
      FoundLive(run, t, d.stream) && FoundWaiting(run, t, d.stream, d.participant, d.channel)
    case DFailed =>
      || MissedLive(run, t, d.stream)
      || (FoundLive(run, t, d.stream) && MissedWaiting(run, t, d.stream, d.participant))
  }

  lemma StandsStill(run: seq<Step>, more: seq<Step>, t: CallId, d: DecideCall)
    requires StandsOn(run, t, d) && run <= more
    ensures StandsOn(more, t, d)
  {
    forall i, s, a | StepAt(run, i, s, ByDecide(t, a)) ensures StepAt(more, i, s, ByDecide(t, a)) {
      StepStaysAt(run, more, i, s, ByDecide(t, a));
    }
  }

  /** The channel of a pending entry is that of the join that waits. */
  lemma PendingChannel(steps: seq<Step>, s: State, stream: Uuid, participant: Uuid)
    requires Reached(steps, s)
    ensures (stream, participant) !in s.pending ==> NobodyWaitsFor(s, stream, participant)
    ensures (stream, participant) in s.pending ==>
              var channel := s.pending[(stream, participant)].channel;
              channel.Some? && WaitingOn(s, channel.value, stream, participant)
  {
    PendingExactly(steps, s, stream, participant);
    if (stream, participant) in s.pending {
      PendingIsWaiting(steps, s);
      assert EntryIsWaiting(s, (stream, participant));
      ReachedPending(steps, s, (stream, participant));
      ReachedCall(steps, s, s.origins[participant].join);
    }
  }

  /** One lookup takes the decision on or ends it. */
  lemma LookupStands(run: seq<Step>, before: seq<Step>, r: State, t: CallId, a: DecideAction)
    requires run == before + [ByDecide(t, a)] && Reached(before, r) && DecideEnabled(r, t, a)
    requires StandsOn(before, t, r.calls[t].d)
    ensures StandsOn(run, t, DecideMove(r, t, a).call.d)
  {
    var d := r.calls[t].d;
    StandsStill(before, run, t, d);
    assert StepAt(run, |before|, r, ByDecide(t, a));
    if a.DecideLoadPending? { PendingChannel(before, r, d.stream, d.participant); }
  }

  lemma RendezvousLeaves(r: State, step: Step, t: CallId)
    requires Enabled(r, step) && step.Rendezvous? && t in r.calls && r.calls[t].TDecide?
    ensures t in Effect(r, step).calls
    ensures Effect(r, step).calls[t] == if t == step.d then Sent(r.calls[t]) else r.calls[t]
  {}

  lemma OthersLeave(r: State, step: Step, t: CallId)
    requires Enabled(r, step) && !step.Tick? && !step.Rendezvous? && !step.ByDecide? && t in r.calls && r.calls[t].TDecide?
    ensures t in Effect(r, step).calls && Effect(r, step).calls[t] == r.calls[t]
  {}

  /** Only its own lookups and its send move a decision. */
  lemma DecisionLeft(r: State, step: Step, t: CallId)
    requires Enabled(r, step) && !step.Tick? && t in r.calls && r.calls[t].TDecide? && !(step.ByDecide? && step.t == t)
    ensures t in Effect(r, step).calls
    ensures || Effect(r, step).calls[t] == r.calls[t]
            || (r.calls[t].d.pc == DSend && Effect(r, step).calls[t] == Sent(r.calls[t]))
  {
    if step.Rendezvous? {
      RendezvousLeaves(r, step, t);
    } else if !step.ByDecide? {
      OthersLeave(r, step, t);
    }
  }

  lemma DecisionBegins(r: State, step: Step, t: CallId)
    requires Enabled(r, step) && t !in r.calls && t in Effect(r, step).calls && Effect(r, step).calls[t].TDecide?
    ensures Effect(r, step).calls[t].d.pc == DLoadLive
  {}

  lemma StepKeepsDecision(r: State, step: Step, t: CallId)
    requires Enabled(r, step) && !step.Tick? && !(step.ByDecide? && step.t == t)
    requires t in r.calls && t in Effect(r, step).calls && Effect(r, step).calls[t].TDecide?
    ensures r.calls[t].TDecide?
    ensures || Effect(r, step).calls[t] == r.calls[t]
            || (r.calls[t].d.pc == DSend && Effect(r, step).calls[t] == Sent(r.calls[t]))
  {
    StepSameRequest(r, step, t);
    DecisionLeft(r, step, t);
  }

  lemma {:induction false} DecisionStands(run: seq<Step>, s: State, t: CallId)
    requires Reached(run, s) && t in s.calls && s.calls[t].TDecide?
    ensures StandsOn(run, t, s.calls[t].d)
  {
    LastStepAt(run, s);
    var before, step := run[..|run| - 1], run[|run| - 1];
    var r := Exec(before).value;
    if step.Tick? {
      DecisionStands(before, r, t);
      StandsStill(before, run, t, r.calls[t].d);
    } else if step.ByDecide? && step.t == t {
      DecisionStands(before, r, t);
      LookupStands(run, before, r, t, step.decide);
    } else {
      if t in r.calls {
        StepKeepsDecision(r, step, t);
        DecisionStands(before, r, t);
        StandsStill(before, run, t, r.calls[t].d);
      } else {
        DecisionBegins(r, step, t);
      }
    }
  }

  /** A call looks each thing up once. */
  lemma {:induction false} LooksOnce(run: seq<Step>, i: nat, s: State, k: nat, r: State, t: CallId, a: DecideAction)
    requires Exec(run).Some? && StepAt(run, i, s, ByDecide(t, a)) && StepAt(run, k, r, ByDecide(t, a)) && i <= k
    ensures i == k
  {
    if i < k {
      StepWasEnabled(run, i, s, ByDecide(t, a));
      StepWasEnabled(run, k, r, ByDecide(t, a));
      assert run[..k][..i + 1] == run[..i + 1];
      DecidePassed(run[..k], i + 1, t, a);
    }
  }

  predicate Rank(d: DecideCall, a: DecideAction) {
    d.pc != DLoadLive && (a.DecideLoadPending? ==> d.pc != DLoadPending)
  }

  lemma {:induction false} DecidePassed(run: seq<Step>, n: nat, t: CallId, a: DecideAction)
    requires Exec(run).Some? && 0 < n <= |run| && run[n - 1] == ByDecide(t, a) && Exec(run[..n]).Some?
    ensures var s := Exec(run).value; t in s.calls && s.calls[t].TDecide? && Rank(s.calls[t].d, a)
  {
    var before, step := run[..|run| - 1], run[|run| - 1];
    if n == |run| {
      assert Enabled(Exec(before).value, step);
    } else {
      assert before[..n] == run[..n];
      DecidePassed(before, n, t, a);
      assert Enabled(Exec(before).value, step);
      RankStays(Exec(before).value, step, t, a);
    }
  }

  lemma RankStays(r: State, step: Step, t: CallId, a: DecideAction)
    requires Enabled(r, step) && t in r.calls && r.calls[t].TDecide? && Rank(r.calls[t].d, a)
    ensures t in Effect(r, step).calls && Effect(r, step).calls[t].TDecide? && Rank(Effect(r, step).calls[t].d, a)
  {
    if !step.Tick? {
      if step.ByDecide? && step.t == t { RankMoves(r, t, step.decide, a); } else { DecisionLeft(r, step, t); }
    }
  }

  lemma RankMoves(r: State, t: CallId, b: DecideAction, a: DecideAction)
    requires DecideEnabled(r, t, b) && Rank(r.calls[t].d, a)
    ensures Rank(DecideMove(r, t, b).call.d, a)
  {}

  /** In every interleaving: a decision whose lookups ran at i and k has found its stream live at the first; it is
      sending or has sent if and only if a join of the participant was waiting at the second, on the channel of that
      join, and has failed if and only if none was. */
  lemma DecisionGoesOnExactly(run: seq<Step>, i: nat, s: State, k: nat, r: State, t: CallId, s': State)
    requires Reached(run, s') && StepAt(run, i, s, ByDecide(t, DecideLoadLive))
    requires StepAt(run, k, r, ByDecide(t, DecideLoadPending))
    ensures t in s'.calls && s'.calls[t].TDecide?
    ensures var d := s'.calls[t].d;
            && d.stream in s.live
            && (d.pc == DSend || d.pc == DSent <==> exists u :: WaitingOn(r, u, d.stream, d.participant))
            && (d.pc == DSend || d.pc == DSent ==> WaitingOn(r, d.channel, d.stream, d.participant))
            && (d.pc == DFailed <==> NobodyWaitsFor(r, d.stream, d.participant))
  {
    PrefixReached(run, k + 1);
    DecidePassed(run, k + 1, t, DecideLoadPending);
    var d := s'.calls[t].d;
    DecisionStands(run, s', t);
    OneLookup(run, i, s, t, DecideLoadLive);
    OneLookup(run, k, r, t, DecideLoadPending);
    FoundFirst(run, i, s, k, r, t);
    RunGrows(run, k);
  }

  lemma OneLookup(run: seq<Step>, i: nat, s: State, t: CallId, a: DecideAction)
    requires Exec(run).Some? && StepAt(run, i, s, ByDecide(t, a))
    ensures forall k, r :: StepAt(run, k, r, ByDecide(t, a)) ==> k == i && r == s
  {
    forall k: nat, r | StepAt(run, k, r, ByDecide(t, a)) ensures k == i && r == s {
      if i <= k { LooksOnce(run, i, s, k, r, t, a); } else { LooksOnce(run, k, r, i, s, t, a); }
    }
  }

  lemma FoundFirst(run: seq<Step>, i: nat, s: State, k: nat, r: State, t: CallId)
    requires Exec(run).Some? && StepAt(run, i, s, ByDecide(t, DecideLoadLive))
    requires StepAt(run, k, r, ByDecide(t, DecideLoadPending))
    ensures t in r.calls && r.calls[t].TDecide? && r.calls[t].d.stream in s.live
  {
    PrefixReached(run, k + 1);
    assert run[..k + 1][..k] == run[..k] && run[..k + 1][k] == run[k];
    DecisionStands(run[..k], r, t);
    var n, q :| StepAt(run[..k], n, q, ByDecide(t, DecideLoadLive)) && r.calls[t].d.stream in q.live;
    StepStaysAt(run[..k], run, n, q, ByDecide(t, DecideLoadLive));
    OneLookup(run, i, s, t, DecideLoadLive);
  }

  /** Where a decision is, in state s, that found the tables as in w. */
  ghost predicate DecideMid(w: World, s: State, t: CallId, x: Uuid, id: Uuid, allowed: bool) {
    && t in s.calls && s.calls[t].TDecide? && WorldOf(s) == w
    && var d := s.calls[t].d;
       && d.stream == x && d.participant == id && d.allowed == allowed
       && var entry := Lookup(w.pending, (x, id));
          match d.pc
          case DLoadLive => true
          case DLoadPending => x in w.live
          case DSend => x in w.live && entry.Some? && entry.value.channel == Some(d.channel)
          case DSent => false
          case DFailed => x !in w.live || entry.None? || entry.value.channel.None?
  }

  lemma DecideMoves(w: World, s: State, t: CallId, a: DecideAction, x: Uuid, id: Uuid, allowed: bool)
    requires DecideMid(w, s, t, x, id, allowed) && DecideEnabled(s, t, a)
    ensures DecideMid(w, Perform(s, t, DecideMove(s, t, a)), t, x, id, allowed)
  {}

  lemma DecideSteps(w: World, s: State, t: CallId, step: Step, x: Uuid, id: Uuid, allowed: bool)
    requires DecideMid(w, s, t, x, id, allowed) && Enabled(s, step) && (step.Tick? || step.t == t)
    ensures DecideMid(w, Effect(s, step), t, x, id, allowed)
  {
    if !step.Tick? { DecideMoves(w, s, t, step.decide, x, id, allowed); }
  }

  lemma {:induction false} DecideRuns(run: seq<Step>, n: nat, s: State, t: CallId, x: Uuid, id: Uuid, allowed: bool, s': State)
    requires ReachedAt(run, n, s) && Reached(run, s') && n < |run| && Only(run, n, t)
    requires run[n] == Begin(t, DecideRequest(x, id, allowed))
    ensures DecideMid(WorldOf(s), s', t, x, id, allowed)
  {
    var before, step := run[..|run| - 1], run[|run| - 1];
    LastStep(run, s, n, s');
    if n < |before| {
      DecideRuns(before, n, s, t, x, id, allowed, Exec(before).value);
      DecideSteps(WorldOf(s), Exec(before).value, t, step, x, id, allowed);
    }
  }

  /** A DecideParticipantJoin that runs by itself, from its request on, comes to its send if and only if the stream is
      live and a join of the participant waits there, on that join's channel and with the value asked for; otherwise
      it fails. It changes no table. */
  lemma DecideRunsAlone(run: seq<Step>, n: nat, s: State, t: CallId, x: Uuid, id: Uuid, allowed: bool, s': State)
    requires ReachedAt(run, n, s) && Reached(run, s') && n < |run| && Only(run, n, t)
    requires run[n] == Begin(t, DecideRequest(x, id, allowed))
    ensures t in s'.calls && s'.calls[t].TDecide? && WorldOf(s') == WorldOf(s)
    ensures var d := s'.calls[t].d;
            && d.pc != DSent && d.allowed == allowed
            && (d.pc == DSend || d.pc == DFailed ==>
                  (d.pc == DSend <==> x in s.live && exists u :: WaitingOn(s, u, x, id)))
            && (d.pc == DSend ==> WaitingOn(s, d.channel, x, id))
  {
    DecideRuns(run, n, s, t, x, id, allowed, s');
    assert Reached(run[..n], s);
    PendingChannel(run[..n], s, x, id);
  }

  /** A decision that has not failed and is not at its send has a step to take. */
  lemma DecideCanStep(s: State, t: CallId)
    requires DecideAt(s, t, DLoadLive) || DecideAt(s, t, DLoadPending)
    ensures exists a :: DecideEnabled(s, t, a)
  {
    assert DecideEnabled(s, t, if DecideAt(s, t, DLoadLive) then DecideLoadLive else DecideLoadPending);
  }

  // ---------- FinishStream ----------

  predicate Checked(c: Call, live: bool) {
    c.TKill? && c.k.pc != KCheck && c.k.pc != KAwait && (c.k.pc == KFailed <==> !live)
  }

  lemma CheckedMoves(r: State, t: CallId, a: KillAction, live: bool)
    requires KillEnabled(r, t, a) && Checked(r.calls[t], live)
    ensures Checked(KillMove(r, t, a).call, live)
  {}

  lemma CheckedStays(r: State, step: Step, t: CallId, live: bool)
    requires Enabled(r, step) && t in r.calls && Checked(r.calls[t], live)
    ensures t in Effect(r, step).calls && Checked(Effect(r, step).calls[t], live)
  {
    if !step.Tick? {
      if step.t == t {
        OwnKillMove(r, step, t);
        CheckedMoves(r, t, step.kill, live);
      } else {
        OtherCallStays(r, step, t);
      }
    }
  }

  /** In every interleaving a FinishStream fails if and only if its stream was not live when it checked. */
  lemma {:induction false} FinishGoesOnExactly(run: seq<Step>, i: nat, r: State, t: CallId, s': State)
    requires Reached(run, s') && StepAt(run, i, r, ByKill(t, FinishCheck))
    ensures t in r.calls && r.calls[t].TKill? && t in s'.calls && s'.calls[t].TKill?
    ensures s'.calls[t].k.pc == KFailed <==> r.calls[t].k.stream !in r.live
    ensures Checked(s'.calls[t], r.calls[t].k.stream in r.live)
  {
    StepWasEnabled(run, i, r, ByKill(t, FinishCheck));
    LastStepAt(run, s');
    var before := run[..|run| - 1];
    if i < |before| {
      assert before[..i] == run[..i];
      FinishGoesOnExactly(before, i, r, t, Exec(before).value);
      CheckedStays(Exec(before).value, run[|run| - 1], t, r.calls[t].k.stream in r.live);
    }
  }

  // ---------- StreamParticipants ----------

  predicate Admits(c: Call, live: bool) {
    c.TList? && c.l.pc != LLoadLive && (c.l.pc == LFailed <==> !live)
  }

  lemma AdmitsStays(r: State, step: Step, t: CallId, live: bool)
    requires Enabled(r, step) && t in r.calls && Admits(r.calls[t], live)
    ensures t in Effect(r, step).calls && Admits(Effect(r, step).calls[t], live)
  {
    if step.Tick? || step.t != t {
      OtherListStays(r, step, t);
    } else {
      OwnListMove(r, step, t);
      AdmitsMoves(r, t, step.list, live);
    }
  }

  lemma AdmitsMoves(r: State, t: CallId, a: ListAction, live: bool)
    requires ListEnabled(r, t, a) && Admits(r.calls[t], live)
    ensures Admits(ListMove(r, t, a).call, live)
  {}

  /** In every interleaving a StreamParticipants fails if and only if its stream was not live at its lookup. */
  lemma {:induction false} ListGoesOnExactly(run: seq<Step>, i: nat, r: State, t: CallId, s': State)
    requires Reached(run, s') && StepAt(run, i, r, ByList(t, ListLoadLive))
    ensures t in r.calls && r.calls[t].TList? && t in s'.calls && s'.calls[t].TList?
    ensures s'.calls[t].l.pc == LFailed <==> r.calls[t].l.stream !in r.live
    ensures Admits(s'.calls[t], r.calls[t].l.stream in r.live)
  {
    StepWasEnabled(run, i, r, ByList(t, ListLoadLive));
    LastStepAt(run, s');
    var before := run[..|run| - 1];
    if i < |before| {
      assert before[..i] == run[..i];
      ListGoesOnExactly(before, i, r, t, Exec(before).value);
      AdmitsStays(Exec(before).value, run[|run| - 1], t, r.calls[t].l.stream in r.live);
    }
  }

  /** What a listing has gathered of the pending map. */
  predicate Gathers(w: World, x: Uuid, found: seq<Participant>) {
    forall i :: 0 <= i < |found| ==> (x, found[i].uuid) in w.pending && found[i] == w.pending[(x, found[i].uuid)].(channel := None)
  }

  predicate GathersAll(w: World, x: Uuid, found: seq<Participant>) {
    && Gathers(w, x, found) && (forall i, k :: 0 <= i < k < |found| ==> found[i].uuid != found[k].uuid)
    && forall k <- w.pending :: k.0 == x ==> Lists(found, k.1)
  }

  /** Where a listing is, in state s, that found the tables as in w. */
  ghost predicate ListMid(w: World, s: State, t: CallId, x: Uuid) {
    && t in s.calls && s.calls[t].TList? && s.calls[t].l.stream == x && WorldOf(s) == w
    && var l := s.calls[t].l;
       && Gathers(w, x, l.found) && (forall i, k :: 0 <= i < k < |l.found| ==> l.found[i].uuid != l.found[k].uuid)
       && match l.pc
          case LLoadLive => l.found == []
          case LRange => x in w.live && l.found == []
          case LVisit => x in w.live && l.range == PendingOn(w.pending, x)
          case LRoster => x in w.live && GathersAll(w, x, l.found)
          case LDone => x in w.live && GathersAll(w, x, l.found) && l.roster == RosterIn(w, x)
          case LFailed => x !in w.live
  }

  lemma ListMoves(w: World, s: State, t: CallId, a: ListAction, x: Uuid)
    requires ListMid(w, s, t, x) && ListEnabled(s, t, a) && forall k <- w.pending :: w.pending[k].uuid == k.1
    ensures ListMid(w, Perform(s, t, ListMove(s, t, a)), t, x)
  {
    if a.ListRangeEnd? {
      forall k <- w.pending | k.0 == x ensures Lists(s.calls[t].l.found, k.1) {
        assert k.1 in PendingOn(w.pending, x) && k == (x, k.1);
      }
    }
  }

  lemma ListSteps(w: World, s: State, t: CallId, step: Step, x: Uuid)
    requires ListMid(w, s, t, x) && Enabled(s, step) && (step.Tick? || step.t == t)
    requires forall k <- w.pending :: w.pending[k].uuid == k.1
    ensures ListMid(w, Effect(s, step), t, x)
  {
    if !step.Tick? { ListMoves(w, s, t, step.list, x); }
  }

  lemma {:induction false} ListRuns(run: seq<Step>, n: nat, s: State, t: CallId, x: Uuid, s': State)
    requires ReachedAt(run, n, s) && Reached(run, s') && n < |run| && Only(run, n, t)
    requires run[n] == Begin(t, ListRequest(x)) && forall k <- s.pending :: s.pending[k].uuid == k.1
    ensures ListMid(WorldOf(s), s', t, x)
  {
    var before, step := run[..|run| - 1], run[|run| - 1];
    LastStep(run, s, n, s');
    if n < |before| {
      ListRuns(before, n, s, t, x, Exec(before).value);
      ListSteps(WorldOf(s), Exec(before).value, t, step, x);
    }
  }

  /** A StreamParticipants that runs by itself, from its request on, shows each pending participant of the stream once,
      as pending, then the roster, if the stream is live, and fails otherwise. */
  lemma ListRunsAlone(run: seq<Step>, n: nat, s: State, t: CallId, x: Uuid, s': State)
    requires ReachedAt(run, n, s) && Reached(run, s') && n < |run| && Only(run, n, t) && run[n] == Begin(t, ListRequest(x))
    ensures t in s'.calls && s'.calls[t].TList? && WorldOf(s') == WorldOf(s)
    ensures ListAt(s', t, LFailed) ==> x !in s.live
    ensures ListAt(s', t, LDone) ==>
              var l := s'.calls[t].l;
              && x in s.live && GathersAll(WorldOf(s), x, l.found) && l.roster == Roster(s, x)
  {
    assert Reached(run[..n], s);
    forall k <- s.pending ensures s.pending[k].uuid == k.1 { ReachedPending(run[..n], s, k); }
    ListRuns(run, n, s, t, x, s');
  }

  /** A listing that has not ended has a step to take: while the range goes on, there is somebody to visit, or it ends. */
  lemma ListCanStep(s: State, t: CallId)
    requires t in s.calls && s.calls[t].TList? && !ListAt(s, t, LDone) && !ListAt(s, t, LFailed)
    ensures exists a :: ListEnabled(s, t, a)
  {
    var l := s.calls[t].l;
    if l.pc == LLoadLive {
      assert ListEnabled(s, t, ListLoadLive);
    } else if l.pc == LRange {
      assert ListEnabled(s, t, ListRange);
    } else if l.pc == LRoster {
      assert ListEnabled(s, t, ListLoadRoster);
    } else if id :| id in l.range && (l.stream, id) in s.pending && !Lists(l.found, id) {
      assert ListEnabled(s, t, ListVisit(id));
    } else {
      assert ListEnabled(s, t, ListRangeEnd);
    }
  }

  // ---------- Stop ----------

  /** The killStream that a Stop waits for is under way, and cannot fail. */
  ghost predicate Awaits(s: State, c: Call) {
    c.TStop? && c.o.pc == OWait ==> c.o.kill in s.calls && Checked(s.calls[c.o.kill], true)
  }

  lemma StopMoveAwaits(r: State, t: CallId, a: StopAction)
    requires StopEnabled(r, t, a)
    ensures Awaits(Perform(r, t, StopMove(r, t, a)), StopMove(r, t, a).call)
  {}

  lemma OtherStopStays(r: State, step: Step, u: CallId)
    requires Enabled(r, step) && !step.Tick? && u in Effect(r, step).calls && Effect(r, step).calls[u].TStop?
    requires !(step.ByStop? && step.t == u)
    ensures if u in r.calls then Effect(r, step).calls[u] == r.calls[u] else Effect(r, step).calls[u].o.pc == OStart
  {
    CallComesFrom(r, step.t, MoveOf(r, step), u);
    if u == step.t { StopBegins(r, step); }
  }

  lemma StopBegins(r: State, step: Step)
    requires Enabled(r, step) && !step.Tick? && !step.ByStop? && MoveOf(r, step).call.TStop?
    ensures step.Begin? && MoveOf(r, step).call.o.pc == OStart
  {}

  lemma AwaitsAfter(r: State, step: Step, u: CallId)
    requires Enabled(r, step) && u in Effect(r, step).calls && (u in r.calls ==> Awaits(r, r.calls[u]))
    ensures Awaits(Effect(r, step), Effect(r, step).calls[u])
  {
    if !step.Tick? && Effect(r, step).calls[u].TStop? {
      if step.ByStop? && step.t == u {
        StopMoveAwaits(r, u, step.stop);
      } else {
        OtherStopStays(r, step, u);
        if u in r.calls && r.calls[u].o.pc == OWait { CheckedStays(r, step, r.calls[u].o.kill, true); }
      }
    }
  }

  lemma {:induction false} StopAwaits(run: seq<Step>, s: State, u: CallId)
    requires Reached(run, s) && u in s.calls
    ensures Awaits(s, s.calls[u])
  {
    LastStepAt(run, s);
    var before := run[..|run| - 1];
    if u in Exec(before).value.calls { StopAwaits(before, Exec(before).value, u); }
    AwaitsAfter(Exec(before).value, run[|run| - 1], u);
  }

  /** A Stop that has not ended has a step to take, or the killStream it waits for has; kill is new. */
  lemma StopCanStep(run: seq<Step>, s: State, t: CallId, kill: CallId)
    requires Reached(run, s) && t in s.calls && s.calls[t].TStop? && !StopAt(s, t, ODone) && kill !in s.calls
    ensures || (exists a :: StopEnabled(s, t, a))
            || (StopAt(s, t, OWait) && exists a :: KillEnabled(s, s.calls[t].o.kill, a))
  {
    var o := s.calls[t].o;
    StopAwaits(run, s, t);
    if o.pc == OStart {
      assert StopEnabled(s, t, StopRange);
    } else if o.pc == OWait {
      if KillAt(s, o.kill, KDone) { assert StopEnabled(s, t, StopReturn); } else { KillCanStep(run, s, o.kill); }
    } else if x :| x in o.range && x in s.live && x !in o.visited {
      assert StopEnabled(s, t, StopVisit(x, kill));
    } else {
      assert StopEnabled(s, t, StopEnd);
    }
  }
}
