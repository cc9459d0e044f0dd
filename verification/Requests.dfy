/** Which request a call answers, in every run: what it was asked for is what it works on. */
module Requests {
  import opened Domain
  import opened Protocol
  import opened Safety
  import opened RecordHistory

  /** The run had begun step i in state s. */
  ghost predicate StepAt(run: seq<Step>, i: nat, s: State, step: Step) {
    i < |run| && run[i] == step && Exec(run[..i]) == Some(s)
  }

  lemma StepStaysAt(run: seq<Step>, more: seq<Step>, i: nat, s: State, step: Step)
    requires StepAt(run, i, s, step) && run <= more
    ensures StepAt(more, i, s, step)
  {
    assert more[..i] == run[..i];
  }

  /** The last step of a run was begun in the state before it. */
  lemma LastStepAt(run: seq<Step>, s: State)
    requires Reached(run, s) && run != []
    ensures var before, step := run[..|run| - 1], run[|run| - 1];
            && before <= run && Exec(before).Some? && Reached(before, Exec(before).value)
            && Enabled(Exec(before).value, step) && s == Effect(Exec(before).value, step)
            && StepAt(run, |run| - 1, Exec(before).value, step)
  {}

  /** A step of a run was enabled when it was begun. */
  lemma StepWasEnabled(run: seq<Step>, i: nat, s: State, step: Step)
    requires Exec(run).Some? && StepAt(run, i, s, step)
    ensures Enabled(s, step) && Exec(run[..i + 1]) == Some(Effect(s, step))
  {
    PrefixReached(run, i + 1);
    assert run[..i + 1][..i] == run[..i] && run[..i + 1][i] == run[i];
  }

  /** The call was begun by the request for just what it does; a killStream may also be a NewStream's listener, or one
      of a Stop's. */
  ghost predicate Requested(run: seq<Step>, t: CallId, c: Call) {
    match c
    case TJoin(j) => Begin(t, JoinRequest(j.stream, j.code, j.me.name, j.me.avatarId, j.me.ip)) in run
    case TDecide(d) => Begin(t, DecideRequest(d.stream, d.participant, d.allowed)) in run
    case TNew(n) => Begin(t, NewRequest(n.cfg)) in run
    case TPatch(p) => Begin(t, PatchRequest(p.stream, p.cfg)) in run
    case TKill(k) =>
      || Begin(t, FinishRequest(k.stream)) in run
      || (exists u, i, s :: StepAt(run, i, s, ByNew(u, NewListen(t))) && NewAt(s, u, NListen) && s.calls[u].n.stream == k.stream)
      || (exists u :: ByStop(u, StopVisit(k.stream, t)) in run)
    case TStop(o) => Begin(t, StopRequest) in run
    case TList(l) => Begin(t, ListRequest(l.stream)) in run
  }

  lemma RequestedStays(run: seq<Step>, more: seq<Step>, t: CallId, c: Call)
    requires Requested(run, t, c) && run <= more
    ensures Requested(more, t, c)
  {
    assert forall step <- run :: step in more;
    if c.TKill? {
      forall u, i, s | StepAt(run, i, s, ByNew(u, NewListen(t)))
        ensures StepAt(more, i, s, ByNew(u, NewListen(t)))
      {
        StepStaysAt(run, more, i, s, ByNew(u, NewListen(t)));
      }
    }
  }

  /** What a step of a call leaves alone. */
  predicate SameRequest(c: Call, c': Call) {
    match c
    case TJoin(j) =>
      && c'.TJoin? && c'.j.stream == j.stream && c'.j.code == j.code
      && c'.j.me.name == j.me.name && c'.j.me.avatarId == j.me.avatarId && c'.j.me.ip == j.me.ip
    case TDecide(d) =>
      c'.TDecide? && c'.d.stream == d.stream && c'.d.participant == d.participant && c'.d.allowed == d.allowed
    case TNew(n) => c'.TNew? && c'.n.cfg == n.cfg
    case TPatch(p) => c'.TPatch? && c'.p.stream == p.stream && c'.p.cfg == p.cfg
    case TKill(k) => c'.TKill? && c'.k.stream == k.stream
    case TStop(o) => c'.TStop?
    case TList(l) => c'.TList? && c'.l.stream == l.stream
  }

  lemma JoinSameRequest(s: State, t: CallId, a: JoinAction)
    requires JoinEnabled(s, t, a)
    ensures SameRequest(s.calls[t], JoinMove(s, t, a).call)
  {}

  lemma NewSameRequest(s: State, t: CallId, a: NewAction)
    requires NewEnabled(s, t, a)
    ensures SameRequest(s.calls[t], NewMove(s, t, a).call)
  {}

  lemma MoveSameRequest(s: State, step: Step)
    requires Enabled(s, step) && !step.Tick? && !step.Begin?
    ensures step.t in s.calls && SameRequest(s.calls[step.t], MoveOf(s, step).call)
  {
    if step.ByJoin? { JoinSameRequest(s, step.t, step.join); }
    if step.ByNew? { NewSameRequest(s, step.t, step.create); }
  }

  lemma StepSameRequest(r: State, step: Step, t: CallId)
    requires Enabled(r, step) && !step.Tick? && t in r.calls && t in Effect(r, step).calls
    ensures SameRequest(r.calls[t], Effect(r, step).calls[t])
  {
    if t == step.t {
      MoveSameRequest(r, step);
      CallComesFrom(r, step.t, MoveOf(r, step), t);
    } else {
      OtherSameRequest(r, step, t);
    }
  }

  lemma OtherSameRequest(r: State, step: Step, t: CallId)
    requires Enabled(r, step) && !step.Tick? && t != step.t && t in r.calls && t in Effect(r, step).calls
    ensures Effect(r, step).calls[t] == r.calls[t] || Effect(r, step).calls[t] == Sent(r.calls[t])
  {}

  lemma SameStaysRequested(run: seq<Step>, t: CallId, c: Call, c': Call)
    requires Requested(run, t, c) && SameRequest(c, c')
    ensures Requested(run, t, c')
  {}

  lemma BeginIsRequest(run: seq<Step>, t: CallId, request: Request)
    requires Begin(t, request) in run
    ensures Requested(run, t, FirstCall(request))
  {}

  lemma SpawnIsRequested(run: seq<Step>, i: nat, s: State, step: Step)
    requires StepAt(run, i, s, step) && Enabled(s, step) && !step.Tick? && MoveOf(s, step).write.SpawnKill?
    ensures var w := MoveOf(s, step).write; Requested(run, w.kill, TKill(FirstKill(w.pc, w.stream)))
  {
    assert step in run;
    if step.ByNew? {
      assert StepAt(run, i, s, ByNew(step.t, NewListen(MoveOf(s, step).write.kill)));
    }
  }

  /** Every call, wherever it is, works on what its request named. */
  lemma {:induction false} CallIsRequested(run: seq<Step>, s: State, t: CallId)
    requires Reached(run, s) && t in s.calls
    ensures Requested(run, t, s.calls[t])
    decreases |run|, 1
  {
    LastStepAt(run, s);
    var before, step := run[..|run| - 1], run[|run| - 1];
    var r := Exec(before).value;
    assert step in run;
    if step.Tick? {
      CallIsRequested(before, r, t);
      RequestedStays(before, run, t, r.calls[t]);
    } else {
      StepIsRequested(run, before, r, step, t);
    }
  }

  lemma {:induction false} StepIsRequested(run: seq<Step>, before: seq<Step>, r: State, step: Step, t: CallId)
    requires run == before + [step] && Reached(before, r) && StepAt(run, |before|, r, step)
    requires Enabled(r, step) && !step.Tick? && t in Effect(r, step).calls
    ensures Requested(run, t, Effect(r, step).calls[t])
    decreases |run|, 0
  {
    CallComesFrom(r, step.t, MoveOf(r, step), t);
    if step.Begin? && t == step.t {
      BeginIsRequest(run, t, step.request);
    } else if t in r.calls {
      CallIsRequested(before, r, t);
      RequestedStays(before, run, t, r.calls[t]);
      StepSameRequest(r, step, t);
      SameStaysRequested(run, t, r.calls[t], Effect(r, step).calls[t]);
    } else {
      SpawnIsRequested(run, |before|, r, step);
    }
  }
}
