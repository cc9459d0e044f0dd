/** In every run in which a call is the only one that steps, it does what its operation does when nothing
    interferes; and what holds of the operations after a quiet run. */
module Uninterrupted {
  import opened Domain
  import opened Protocol
  import opened Growth
  import opened Safety
  import opened Admission
  import opened RecordHistory
  import opened Agreement
  import opened Sequential

  // ---------- after a quiet run ----------

  /** The tables are at rest at the end of every run that is quiescent, handled interrupts after registration
      and kept patches apart from finishes. */
  lemma QuietRunsRest(steps: seq<Step>, s: State)
    requires Reached(steps, s)
    requires forall x <- s.records :: Quiescent(s, x) && InterruptsWait(steps, x) && PatchesApart(Events(s, x))
    ensures AtRest(WorldOf(s))
  {
    forall x <- s.live ensures x in s.records { LiveIsRecorded(steps, s, x); }
    forall x <- s.records
      ensures s.records[x].status == STATUS_RUNNING <==> x in s.live
      ensures s.records[x].status == STATUS_RUNNING || s.records[x].status == STATUS_FINISHED
    {
      RestAgrees(steps, s, x);
      RecordsConsistent(steps, s, x);
    }
  }

  /** So Stop after such a run leaves no live stream and no running record. */
  lemma StopAfterQuietRun(steps: seq<Step>, s: State, order: seq<Uuid>, times: seq<Time>)
    requires Reached(steps, s) && |order| == |times| && forall x <- s.live :: x in order
    requires forall x <- s.records :: Quiescent(s, x) && InterruptsWait(steps, x) && PatchesApart(Events(s, x))
    ensures AllOver(KilledAll(WorldOf(s), order, times))
  {
    QuietRunsRest(steps, s);
    StopEndsAll(WorldOf(s), order, times);
  }

  /** With no join of the stream in flight there is nobody in its pending map. */
  lemma NobodyPends(steps: seq<Step>, s: State, stream: Uuid)
    requires Reached(steps, s) && forall t, id :: !WaitingOn(s, t, stream, id)
    ensures PendingOn(s.pending, stream) == {}
  {
    forall id ensures id !in PendingOn(s.pending, stream) { PendingExactly(steps, s, stream, id); }
  }

  // ---------- a call by itself ----------

  /** From n on, only call t steps, and time passes. */
  predicate Only(run: seq<Step>, n: nat, t: CallId) {
    forall i :: n <= i < |run| ==> run[i].Tick? || run[i].t == t
  }

  /** The state after the first n steps. */
  ghost predicate ReachedAt(run: seq<Step>, n: nat, s: State) {
    n <= |run| && Exec(run[..n]) == Some(s)
  }

  lemma LastStep(run: seq<Step>, s: State, n: nat, s': State)
    requires ReachedAt(run, n, s) && Reached(run, s') && n < |run|
    ensures var before, step := run[..|run| - 1], run[|run| - 1];
            ReachedAt(before, n, s) && Exec(before).Some? && Enabled(Exec(before).value, step)
            && s' == Effect(Exec(before).value, step) && Reached(before, Exec(before).value)
  {
    assert run[..|run| - 1][..n] == run[..n];
  }

  // ---------- killStream ----------

  /** Where a killStream is, in state s, that found the tables as in w. */
  ghost predicate KillMid(w: World, from: Time, s: State, t: CallId, x: Uuid) {
    && t in s.calls && s.calls[t].TKill? && s.calls[t].k.stream == x && from <= s.clock
    && var k := s.calls[t].k;
       var stopped := if x in w.live then StoppedOnce(w.processes, w.live[x].process) else w.processes;
       match k.pc
       case KCheck | KAwait | KLoadLive => WorldOf(s) == w
       case KStop => WorldOf(s) == w && x in w.live && k.process == w.live[x].process
       case KDelete => WorldOf(s) == w.(processes := stopped) && x in w.live
       case KLoadRecord => WorldOf(s) == w.(processes := stopped, live := w.live - {x})
       case KStamp => WorldOf(s) == w.(processes := stopped, live := w.live - {x}) && k.copy == Lookup(w.records, x)
       case KStoreRecord =>
         && WorldOf(s) == w.(processes := stopped, live := w.live - {x})
         && k.copy == Lookup(w.records, x) && from <= k.at <= s.clock
       case KDone => WorldOf(s) == Killed(w, x, k.at) && (x in w.records ==> from <= k.at <= s.clock)
       case KFailed => WorldOf(s) == w && x !in w.live
  }

  predicate Finishing(a: KillAction) {
    a.KillLoadRecord? || a.KillStamp? || a.KillStoreRecord?
  }

  lemma KillStops(w: World, from: Time, s: State, t: CallId, a: KillAction, x: Uuid)
    requires KillMid(w, from, s, t, x) && KillEnabled(s, t, a) && !Finishing(a)
    ensures KillMid(w, from, Perform(s, t, KillMove(s, t, a)), t, x)
  {
    assert x !in w.live ==> w.live - {x} == w.live;
  }

  lemma KillFinishes(w: World, from: Time, s: State, t: CallId, a: KillAction, x: Uuid)
    requires KillMid(w, from, s, t, x) && KillEnabled(s, t, a) && Finishing(a)
    ensures KillMid(w, from, Perform(s, t, KillMove(s, t, a)), t, x)
  {}

  lemma KillSteps(w: World, from: Time, s: State, t: CallId, step: Step, x: Uuid)
    requires KillMid(w, from, s, t, x) && Enabled(s, step) && (step.Tick? || step.t == t)
    ensures KillMid(w, from, Effect(s, step), t, x)
  {
    if !step.Tick? {
      if Finishing(step.kill) { KillFinishes(w, from, s, t, step.kill, x); } else { KillStops(w, from, s, t, step.kill, x); }
    }
  }

  lemma {:induction false} KillRuns(run: seq<Step>, n: nat, s: State, t: CallId, x: Uuid, s': State)
    requires ReachedAt(run, n, s) && Reached(run, s') && Only(run, n, t) && KillMid(WorldOf(s), s.clock, s, t, x)
    ensures KillMid(WorldOf(s), s.clock, s', t, x)
  {
    if n < |run| {
      var before, step := run[..|run| - 1], run[|run| - 1];
      LastStep(run, s, n, s');
      KillRuns(before, n, s, t, x, Exec(before).value);
      KillSteps(WorldOf(s), s.clock, Exec(before).value, t, step, x);
    } else {
      assert run[..n] == run;
    }
  }

  /** Whenever a killStream, from wherever it is called, runs by itself to its end, its effect is Killed, stamped
      at some moment of it; a FinishStream that fails has changed nothing. */
  lemma KillRunsAlone(run: seq<Step>, n: nat, s: State, t: CallId, s': State)
    requires ReachedAt(run, n, s) && Reached(run, s') && Only(run, n, t)
    requires KillAt(s, t, KCheck) || KillAt(s, t, KAwait) || KillAt(s, t, KLoadLive)
    ensures t in s'.calls && s'.calls[t].TKill?
    ensures var x, at := s.calls[t].k.stream, s'.calls[t].k.at;
            && (KillAt(s', t, KDone) ==> WorldOf(s') == Killed(WorldOf(s), x, at))
            && (KillAt(s', t, KDone) && x in s.records ==>
                  && s.clock <= at <= s'.clock
                  && s'.records == s.records[x := s.records[x].(status := "finished", finishedAt := Some(at))])
            && (KillAt(s', t, KFailed) ==> WorldOf(s') == WorldOf(s) && x !in s.live)
  {
    KillRuns(run, n, s, t, s.calls[t].k.stream, s');
  }

  // ---------- PatchStream ----------

  ghost predicate PatchMid(w: World, s: State, t: CallId, x: Uuid, cfg: PatchConfig) {
    && t in s.calls && s.calls[t].TPatch? && s.calls[t].p.stream == x && s.calls[t].p.cfg == cfg
    && var p := s.calls[t].p;
       match p.pc
       case PLoadRecord => WorldOf(s) == w
       case PLoadLive => WorldOf(s) == w && p.copy == Lookup(w.records, x)
       case PStoreRecord => WorldOf(s) == w && p.copy == Lookup(w.records, x) && x in w.live && x in w.records
       case PDone => WorldOf(s) == PatchedIn(w, x, cfg) && x in w.live && x in w.records
       case PFailed => WorldOf(s) == w && !(x in w.live && x in w.records)
  }

  lemma PatchMoves(w: World, s: State, t: CallId, a: PatchAction, x: Uuid, cfg: PatchConfig)
    requires PatchMid(w, s, t, x, cfg) && PatchEnabled(s, t, a)
    ensures PatchMid(w, Perform(s, t, PatchMove(s, t, a)), t, x, cfg)
  {}

  lemma PatchSteps(w: World, s: State, t: CallId, step: Step, x: Uuid, cfg: PatchConfig)
    requires PatchMid(w, s, t, x, cfg) && Enabled(s, step) && (step.Tick? || step.t == t)
    ensures PatchMid(w, Effect(s, step), t, x, cfg)
  {
    if !step.Tick? { PatchMoves(w, s, t, step.patch, x, cfg); }
  }

  lemma {:induction false} PatchRuns(run: seq<Step>, n: nat, s: State, t: CallId, x: Uuid, cfg: PatchConfig, s': State)
    requires ReachedAt(run, n, s) && Reached(run, s') && Only(run, n, t) && PatchMid(WorldOf(s), s, t, x, cfg)
    ensures PatchMid(WorldOf(s), s', t, x, cfg)
  {
    if n < |run| {
      var before, step := run[..|run| - 1], run[|run| - 1];
      LastStep(run, s, n, s');
      PatchRuns(before, n, s, t, x, cfg, Exec(before).value);
      PatchSteps(WorldOf(s), Exec(before).value, t, step, x, cfg);
    } else {
      assert run[..n] == run;
    }
  }

  /** Whenever a PatchStream runs by itself to its end, its effect is PatchedIn, and it fails exactly if the stream
      is not live or has no record. */
  lemma PatchRunsAlone(run: seq<Step>, n: nat, s: State, t: CallId, s': State)
    requires ReachedAt(run, n, s) && Reached(run, s') && Only(run, n, t) && PatchAt(s, t, PLoadRecord)
    ensures PatchAt(s', t, PDone) || PatchAt(s', t, PFailed) ==>
              && WorldOf(s') == PatchedIn(WorldOf(s), s.calls[t].p.stream, s.calls[t].p.cfg)
              && (PatchAt(s', t, PDone) <==> s.calls[t].p.stream in s.live && s.calls[t].p.stream in s.records)
    ensures PatchAt(s', t, PDone) ==>
              var x, cfg := s.calls[t].p.stream, s.calls[t].p.cfg;
              x in s.records && x in s'.records && TakesEffect(cfg, s.records[x], s'.records[x])
  {
    PatchRuns(run, n, s, t, s.calls[t].p.stream, s.calls[t].p.cfg, s');
  }

  // ---------- JoinParticipant ----------

  /** A step of a DecideParticipantJoin up to the send; the send itself is a step of the join too. */
  predicate Deciding(step: Step) {
    step.ByDecide? || (step.Begin? && step.request.DecideRequest?)
  }

  /** From n on, only the join t steps, hosts decide, and time passes. */
  predicate OnlyJoining(run: seq<Step>, n: nat, t: CallId) {
    forall i :: n <= i < |run| ==> run[i].Tick? || run[i].t == t || Deciding(run[i])
  }

  predicate Allowed(j: JoinCall) {
    j.received == Some(true)
  }

  /** The join is known by a participant of its own, has found the stream, and waits or has waited. */
  predicate Underway(w: World, t: CallId, start: JoinCall, j: JoinCall) {
    && j.stream in w.live && j.stream in w.records && j.snapshot == Some(w.records[j.stream])
    && j.me.(status := Pending) == start.me.(uuid := j.me.uuid, channel := Some(t), status := Pending)
    && (j.stream, j.me.uuid) !in w.pending
  }

  function WithPending(w: World, j: JoinCall): World {
    w.(pending := w.pending[(j.stream, j.me.uuid) := j.me.(status := Pending)])
  }

  function JoinResultOf(w: World, start: JoinCall, j: JoinCall): JoinResult {
    Verdict(w, start.stream, start.code, Allowed(j))
  }

  function JoinEffectOf(w: World, start: JoinCall, j: JoinCall): World {
    JoinedIn(w, start.stream, start.code, Allowed(j), Entrant(j.me.uuid, start.me.name, start.me.avatarId, start.me.ip))
  }

  /** Where a join is, in state s, that began as start and found the tables as in w. */
  ghost predicate JoinMid(w: World, s: State, t: CallId, start: JoinCall) {
    && t in s.calls && s.calls[t].TJoin? && s.calls[t].j.stream == start.stream && s.calls[t].j.code == start.code
    && var j := s.calls[t].j;
       match j.pc
       case JLoadRecord => WorldOf(s) == w && j == start
       case JLoadLive => WorldOf(s) == w && j == start.(snapshot := Lookup(w.records, start.stream), pc := JLoadLive)
       case JRegister => WorldOf(s) == w && Underway(w, t, start, j) && j.received.None? && j.me.status.Pending?
       case JSwitch | JReceive =>
         && WorldOf(s) == WithPending(w, j) && Underway(w, t, start, j) && j.received.None?
         && (j.pc == JReceive ==> w.records[start.stream].join.policy.HostResolve?)
       case JMint => WorldOf(s) == WithPending(w, j) && Underway(w, t, start, j) && JoinResultOf(w, start, j).Admitted?
       case JLoadRoster | JStoreRoster =>
         && WorldOf(s) == WithPending(w, j) && Underway(w, t, start, j) && JoinResultOf(w, start, j).Admitted?
         && j.me.status.Active? && (j.pc == JStoreRoster ==> j.copy == RosterIn(w, start.stream))
       case JUnregister =>
         && WorldOf(s) == JoinEffectOf(w, start, j).(pending := WithPending(w, j).pending) && Underway(w, t, start, j)
         && j.result == JoinResultOf(w, start, j)
       case JReturned => WorldOf(s) == JoinEffectOf(w, start, j) && j.result == JoinResultOf(w, start, j)
  }

  predicate FreshJoin(j: JoinCall) {
    j.pc == JLoadRecord && j.result == Undecided && j.received.None? && j.me.status.Pending?
  }

  lemma JoinArrives(w: World, s: State, t: CallId, a: JoinAction, start: JoinCall)
    requires JoinMid(w, s, t, start) && JoinEnabled(s, t, a) && (a.JoinLoadRecord? || a.JoinLoadLive?)
    requires FreshJoin(start) && forall k <- s.pending :: k.1 in s.origins
    ensures JoinMid(w, Perform(s, t, JoinMove(s, t, a)), t, start)
  {}

  lemma JoinRegisters(w: World, s: State, t: CallId, a: JoinAction, start: JoinCall)
    requires JoinMid(w, s, t, start) && JoinEnabled(s, t, a) && (a.JoinRegister? || a.JoinSwitch?)
    ensures JoinMid(w, Perform(s, t, JoinMove(s, t, a)), t, start)
  {}

  lemma JoinEnters(w: World, s: State, t: CallId, a: JoinAction, start: JoinCall)
    requires JoinMid(w, s, t, start) && JoinEnabled(s, t, a) && (a.JoinMint? || a.JoinLoadRoster?)
    ensures JoinMid(w, Perform(s, t, JoinMove(s, t, a)), t, start)
  {}

  lemma JoinEnds(w: World, s: State, t: CallId, a: JoinAction, start: JoinCall)
    requires JoinMid(w, s, t, start) && JoinEnabled(s, t, a) && (a.JoinStoreRoster? || a.JoinUnregister?)
    ensures JoinMid(w, Perform(s, t, JoinMove(s, t, a)), t, start)
  {}

  lemma JoinReceives(w: World, s: State, t: CallId, d: CallId, start: JoinCall)
    requires JoinMid(w, s, t, start) && Enabled(s, Rendezvous(t, d))
    ensures JoinMid(w, Perform(s, t, ExchangeMove(s.calls[t].j, d, s.calls[d].d.allowed)), t, start)
  {}

  lemma DecisionsLeaveJoin(w: World, s: State, t: CallId, step: Step, start: JoinCall)
    requires JoinMid(w, s, t, start) && Enabled(s, step) && Deciding(step) && step.t != t
    ensures JoinMid(w, Effect(s, step), t, start)
  {}

  lemma TicksLeaveJoin(w: World, s: State, t: CallId, now: Time, start: JoinCall)
    requires JoinMid(w, s, t, start)
    ensures JoinMid(w, s.(clock := now), t, start)
  {}

  lemma JoinOwnSteps(w: World, s: State, t: CallId, step: Step, start: JoinCall)
    requires JoinMid(w, s, t, start) && FreshJoin(start) && Enabled(s, step)
    requires (step.Rendezvous? || step.ByJoin?) && step.t == t
    requires forall k <- s.pending :: k.1 in s.origins
    ensures JoinMid(w, Effect(s, step), t, start)
  {
    if step.Rendezvous? {
      JoinReceives(w, s, t, step.d, start);
    } else if step.join.JoinRegister? || step.join.JoinSwitch? {
      JoinRegisters(w, s, t, step.join, start);
    } else if Arriving(step.join) {
      JoinArrives(w, s, t, step.join, start);
    } else if step.join.JoinMint? || step.join.JoinLoadRoster? {
      JoinEnters(w, s, t, step.join, start);
    } else {
      JoinEnds(w, s, t, step.join, start);
    }
  }

  lemma JoinSteps(w: World, s: State, t: CallId, step: Step, start: JoinCall)
    requires JoinMid(w, s, t, start) && FreshJoin(start) && Enabled(s, step)
    requires step.Tick? || step.t == t || Deciding(step)
    requires forall k <- s.pending :: k.1 in s.origins
    ensures JoinMid(w, Effect(s, step), t, start)
  {
    if step.Rendezvous? || step.ByJoin? {
      JoinOwnSteps(w, s, t, step, start);
    } else if step.Tick? {
      TicksLeaveJoin(w, s, t, step.now, start);
    } else {
      DecisionsLeaveJoin(w, s, t, step, start);
    }
  }

  lemma PendingAreNamed(run: seq<Step>, s: State)
    requires Reached(run, s)
    ensures forall k <- s.pending :: k.1 in s.origins
  {
    forall k <- s.pending ensures k.1 in s.origins { ReachedPending(run, s, k); }
  }

  lemma {:induction false} JoinRuns(run: seq<Step>, n: nat, s: State, t: CallId, start: JoinCall, s': State)
    requires ReachedAt(run, n, s) && Reached(run, s') && OnlyJoining(run, n, t)
    requires FreshJoin(start) && JoinMid(WorldOf(s), s, t, start)
    ensures JoinMid(WorldOf(s), s', t, start)
  {
    if n < |run| {
      var before, step := run[..|run| - 1], run[|run| - 1];
      LastStep(run, s, n, s');
      JoinRuns(before, n, s, t, start, Exec(before).value);
      PendingAreNamed(before, Exec(before).value);
      JoinSteps(WorldOf(s), Exec(before).value, t, step, start);
    } else {
      assert run[..n] == run;
    }
  }

  /** Whenever a JoinParticipant runs to its end by itself, but for decisions of hosts, its answer is the verdict of
      the policy and what it received, and its effect is JoinedIn: one participant appended if admitted, and nothing
      left pending. */
  lemma JoinRunsAlone(run: seq<Step>, n: nat, s: State, t: CallId, s': State)
    requires ReachedAt(run, n, s) && Reached(run, s') && OnlyJoining(run, n, t) && JoinAt(s, t, JLoadRecord)
    ensures JoinAt(s', t, JReturned) ==>
              var start, j := s.calls[t].j, s'.calls[t].j;
              j.result == JoinResultOf(WorldOf(s), start, j) && WorldOf(s') == JoinEffectOf(WorldOf(s), start, j)
  {
    assert Reached(run[..n], s);
    ReachedCall(run[..n], s, t);
    JoinRuns(run, n, s, t, s.calls[t].j, s');
  }

  // ---------- NewStream ----------

  /** dial tells the outcomes of the dials of call t from n on. */
  ghost predicate DialsAs(run: seq<Step>, n: nat, t: CallId, dial: nat -> DialOutcome) {
    forall i :: n <= i < |run| && run[i].ByNew? && run[i].t == t && run[i].create.NewDial? && Exec(run[..i]).Some? ==>
      DialAs(Exec(run[..i]).value, run[i], dial)
  }

  predicate DialAs(s: State, step: Step, dial: nat -> DialOutcome) {
    step.ByNew? && step.create.NewDial? && step.t in s.calls && s.calls[step.t].TNew? ==>
      step.create.outcome == dial(s.calls[step.t].n.dials)
  }

  function WithProcess(w: World, x: Uuid): World {
    w.(processes := w.processes[x := 0])
  }

  /** Where a NewStream is, in state s, that found the tables as in w. */
  ghost predicate NewMid(w: World, from: Time, s: State, t: CallId, cfg: StreamConfig, dial: nat -> DialOutcome) {
    && t in s.calls && s.calls[t].TNew? && s.calls[t].n.cfg == cfg && from <= s.clock
    && var n := s.calls[t].n;
       match n.pc
       case NPrepare => WorldOf(s) == w && n.dials == 0
       case NMint | NStart => WorldOf(s) == w && n.dials == 0 && KnownMode(cfg)
       case NDial =>
         WorldOf(s) == WithProcess(w, n.stream) && KnownMode(cfg) && forall k: nat :: k < n.dials ==> dial(k).DialFailed?
       case NAbort =>
         WorldOf(s) == WithProcess(w, n.stream) && KnownMode(cfg) && n.dials > 0 && !Connects(dial, 6)
       case NListen | NCompose =>
         WorldOf(s) == WithProcess(w, n.stream) && KnownMode(cfg) && Connects(dial, 6)
       case NStoreRecord =>
         && WorldOf(s) == WithProcess(w, n.stream) && KnownMode(cfg) && Connects(dial, 6)
         && n.info.Some? && n.info.value == Composed(n, n.info.value.startedAt) && from <= n.info.value.startedAt <= s.clock
       case NStoreLive =>
         && KnownMode(cfg) && Connects(dial, 6)
         && n.info.Some? && n.info.value == Composed(n, n.info.value.startedAt) && from <= n.info.value.startedAt <= s.clock
         && WorldOf(s) == WithProcess(w, n.stream).(records := w.records[n.stream := n.info.value])
       case NDone =>
         && KnownMode(cfg) && Connects(dial, 6) && n.info.Some? && from <= n.info.value.startedAt <= s.clock
         && WorldOf(s) == Opened(w, n.stream, n.host, cfg, t, n.endpoint, n.info.value.startedAt)
       case NFailed =>
         if n.dials == 0 then WorldOf(s) == w
         else WorldOf(s) == w.(processes := w.processes[n.stream := 1]) && KnownMode(cfg) && !Connects(dial, 6)
  }

  lemma NewStarts(w: World, from: Time, s: State, t: CallId, a: NewAction, cfg: StreamConfig, dial: nat -> DialOutcome)
    requires NewMid(w, from, s, t, cfg, dial) && NewEnabled(s, t, a)
    requires a.NewPrepare? || a.NewMint? || a.NewStart? || a.NewAbort?
    ensures NewMid(w, from, Perform(s, t, NewMove(s, t, a)), t, cfg, dial)
  {}

  lemma NewDials(w: World, from: Time, s: State, t: CallId, outcome: DialOutcome, cfg: StreamConfig, dial: nat -> DialOutcome)
    requires NewMid(w, from, s, t, cfg, dial) && NewAt(s, t, NDial) && Shaped(s.calls[t])
    requires outcome == dial(s.calls[t].n.dials)
    ensures NewMid(w, from, Perform(s, t, NewMove(s, t, NewDial(outcome))), t, cfg, dial)
  {}

  lemma NewPublishes(w: World, from: Time, s: State, t: CallId, a: NewAction, cfg: StreamConfig, dial: nat -> DialOutcome)
    requires NewMid(w, from, s, t, cfg, dial) && NewEnabled(s, t, a)
    requires a.NewListen? || a.NewCompose? || a.NewStoreRecord? || a.NewStoreLive?
    ensures NewMid(w, from, Perform(s, t, NewMove(s, t, a)), t, cfg, dial)
  {}

  lemma TicksLeaveNew(w: World, from: Time, s: State, t: CallId, now: Time, cfg: StreamConfig, dial: nat -> DialOutcome)
    requires NewMid(w, from, s, t, cfg, dial) && s.clock <= now
    ensures NewMid(w, from, s.(clock := now), t, cfg, dial)
  {}

  lemma NewSteps(w: World, from: Time, s: State, t: CallId, step: Step, cfg: StreamConfig, dial: nat -> DialOutcome)
    requires NewMid(w, from, s, t, cfg, dial) && Enabled(s, step) && Shaped(s.calls[t])
    requires (step.Tick? || step.t == t) && DialAs(s, step, dial)
    ensures NewMid(w, from, Effect(s, step), t, cfg, dial)
  {
    if step.Tick? {
      TicksLeaveNew(w, from, s, t, step.now, cfg, dial);
    } else {
      var a := step.create;
      if a.NewDial? {
        NewDials(w, from, s, t, a.outcome, cfg, dial);
      } else if a.NewListen? || a.NewCompose? || a.NewStoreRecord? || a.NewStoreLive? {
        NewPublishes(w, from, s, t, a, cfg, dial);
      } else {
        NewStarts(w, from, s, t, a, cfg, dial);
      }
    }
  }

  lemma {:induction false} NewRuns(run: seq<Step>, n: nat, s: State, t: CallId, cfg: StreamConfig,
                                   dial: nat -> DialOutcome, s': State)
    requires ReachedAt(run, n, s) && Reached(run, s') && Only(run, n, t) && DialsAs(run, n, t, dial)
    requires NewMid(WorldOf(s), s.clock, s, t, cfg, dial)
    ensures NewMid(WorldOf(s), s.clock, s', t, cfg, dial)
  {
    if n < |run| {
      var before, step := run[..|run| - 1], run[|run| - 1];
      LastStep(run, s, n, s');
      forall i | n <= i < |before| ensures before[..i] == run[..i] {}
      NewRuns(before, n, s, t, cfg, dial, Exec(before).value);
      ReachedCall(before, Exec(before).value, t);
      NewSteps(WorldOf(s), s.clock, Exec(before).value, t, step, cfg, dial);
    } else {
      assert run[..n] == run;
    }
  }

  /** Whenever a NewStream runs by itself to its end, it is Opened, stamped at some moment of it, if the launch mode is
      known, the process starts and a dial connects; otherwise nothing has changed but for a process started and
      stopped, if it started. */
  lemma NewRunsAlone(run: seq<Step>, n: nat, s: State, t: CallId, dial: nat -> DialOutcome, s': State)
    requires ReachedAt(run, n, s) && Reached(run, s') && Only(run, n, t) && DialsAs(run, n, t, dial)
    requires NewAt(s, t, NPrepare)
    ensures t in s'.calls && s'.calls[t].TNew?
    ensures var cfg, c := s.calls[t].n.cfg, s'.calls[t].n;
            && (c.pc == NDone ==>
                  && KnownMode(cfg) && Connects(dial, 6)
                  && c.info.Some? && s.clock <= c.info.value.startedAt <= s'.clock
                  && WorldOf(s') == Opened(WorldOf(s), c.stream, c.host, cfg, t, c.endpoint, c.info.value.startedAt))
            && (c.pc == NFailed && c.dials == 0 ==> WorldOf(s') == WorldOf(s))
            && (c.pc == NFailed && c.dials > 0 ==>
                  && KnownMode(cfg) && !Connects(dial, 6)
                  && WorldOf(s') == WorldOf(s).(processes := s.processes[c.stream := 1]))
  {
    assert Reached(run[..n], s);
    ReachedCall(run[..n], s, t);
    NewRuns(run, n, s, t, s.calls[t].n.cfg, dial, s');
  }

  // ---------- a call can always step ----------

  /** A killStream that has not ended, and a listener too, has a step to take. */
  lemma KillCanStep(steps: seq<Step>, s: State, t: CallId)
    requires Reached(steps, s) && t in s.calls && s.calls[t].TKill? && !KillAt(s, t, KDone) && !KillAt(s, t, KFailed)
    ensures exists a :: KillEnabled(s, t, a)
  {
    ReachedCall(steps, s, t);
    var a := match s.calls[t].k.pc
      case KCheck => FinishCheck
      case KAwait => Interrupt
      case KLoadLive => KillLoadLive
      case KStop => KillStop
      case KDelete => KillDelete
      case KLoadRecord => KillLoadRecord
      case KStamp => KillStamp
      case _ => KillStoreRecord;
    assert KillEnabled(s, t, a);
  }

  lemma PatchCanStep(steps: seq<Step>, s: State, t: CallId)
    requires Reached(steps, s) && t in s.calls && s.calls[t].TPatch? && !PatchAt(s, t, PDone) && !PatchAt(s, t, PFailed)
    ensures exists a :: PatchEnabled(s, t, a)
  {
    ReachedCall(steps, s, t);
    var a := match s.calls[t].p.pc
      case PLoadRecord => PatchLoadRecord
      case PLoadLive => PatchLoadLive
      case _ => PatchStoreRecord;
    assert PatchEnabled(s, t, a);
  }

  /** A join has a step to take unless it waits for its host; id and token are new. */
  lemma JoinCanStep(steps: seq<Step>, s: State, t: CallId, id: Uuid, token: string)
    requires Reached(steps, s) && t in s.calls && s.calls[t].TJoin? && !JoinAt(s, t, JReceive) && !JoinAt(s, t, JReturned)
    requires id !in s.origins && token !in s.tokens && ' ' !in token
    ensures exists a :: JoinEnabled(s, t, a)
  {
    ReachedCall(steps, s, t);
    var a := match s.calls[t].j.pc
      case JLoadRecord => JoinLoadRecord
      case JLoadLive => JoinLoadLive(id)
      case JRegister => JoinRegister
      case JSwitch => JoinSwitch
      case JMint => JoinMint(token)
      case JLoadRoster => JoinLoadRoster
      case JStoreRoster => JoinStoreRoster
      case _ => JoinUnregister;
    assert JoinEnabled(s, t, a);
  }

  /** x, h, token and listener are new. */
  lemma NewCanStep(steps: seq<Step>, s: State, t: CallId, x: Uuid, h: Uuid, token: string, listener: CallId)
    requires Reached(steps, s) && t in s.calls && s.calls[t].TNew? && !NewAt(s, t, NDone) && !NewAt(s, t, NFailed)
    requires x != h && x !in s.origins && h !in s.origins && token !in s.tokens && ' ' !in token && listener !in s.calls
    ensures exists a :: NewEnabled(s, t, a)
  {
    ReachedCall(steps, s, t);
    var a := match s.calls[t].n.pc
      case NPrepare => NewPrepare(x, h)
      case NMint => NewMint(token)
      case NStart => NewStart(None)
      case NDial => NewDial(Connected)
      case NAbort => NewAbort
      case NListen => NewListen(listener)
      case NCompose => NewCompose
      case NStoreRecord => NewStoreRecord
      case _ => NewStoreLive;
    assert NewEnabled(s, t, a);
  }
}
