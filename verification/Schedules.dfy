/** Schedules that show where the server's load-then-store sequences go wrong. */
module Schedules {
  import opened Domain
  import opened Protocol
  import opened Growth
  import opened Safety
  import opened Admission
  import opened RosterHistory
  import opened Participants
  import opened RecordHistory
  import opened Steps
  import opened Agreement

  lemma PreparedStream(t: CallId, x: Uuid, h: Uuid, cfg: StreamConfig) returns (steps: seq<Step>, s: State)
    requires x != h && cfg.launchMode == ""
    ensures Reached(steps, s) && s.calls.Keys == {t} && NewAt(s, t, NMint)
    ensures s.calls[t].n.stream == x && s.calls[t].n.cfg == cfg && s.calls[t].n.dials == 0
    ensures s.origins.Keys == {x, h} && s.tokens == map[] && s.processes == map[]
    ensures s.live == map[] && s.records == map[] && s.rosters == map[] && s.events == map[] && s.entered == map[]
  {
    steps, s := [], INITIAL;
    steps, s := Enter(steps, s, Begin(t, NewRequest(cfg)));
    steps, s := Enter(steps, s, ByNew(t, NewPrepare(x, h)));
  }

  /** Nothing but call t has run, and it has started a process for stream x. */
  lemma StartedStream(t: CallId, x: Uuid, h: Uuid, token: string, cfg: StreamConfig) returns (steps: seq<Step>, s: State)
    requires x != h && ' ' !in token && cfg.launchMode == ""
    ensures Reached(steps, s) && s.calls.Keys == {t} && NewAt(s, t, NDial)
    ensures s.calls[t].n.stream == x && s.calls[t].n.cfg == cfg && s.calls[t].n.dials == 0
    ensures s.origins.Keys == {x, h} && s.tokens.Keys == {token} && s.processes == map[x := 0]
    ensures s.live == map[] && s.records == map[] && s.rosters == map[] && s.events == map[] && s.entered == map[]
  {
    steps, s := PreparedStream(t, x, h, cfg);
    steps, s := Enter(steps, s, ByNew(t, NewMint(token)));
    steps, s := Enter(steps, s, ByNew(t, NewStart(Some(Endpoint("", 0)))));
  }

  lemma ListenedStream(t: CallId, listener: CallId, x: Uuid, h: Uuid, token: string, cfg: StreamConfig)
    returns (steps: seq<Step>, s: State)
    requires x != h && ' ' !in token && cfg.launchMode == "" && t != listener
    ensures Reached(steps, s) && s.calls.Keys == {t, listener} && NewAt(s, t, NCompose)
    ensures s.calls[t].n.stream == x && s.calls[t].n.cfg == cfg && s.calls[listener] == WaitingListener(x)
    ensures s.origins.Keys == {x, h} && s.tokens.Keys == {token} && s.processes == map[x := 0]
    ensures s.live == map[] && s.records == map[] && s.rosters == map[] && s.events == map[] && s.entered == map[]
  {
    steps, s := StartedStream(t, x, h, token, cfg);
    steps, s := Enter(steps, s, ByNew(t, NewDial(Connected)));
    steps, s := Enter(steps, s, ByNew(t, NewListen(listener)));
  }

  function WaitingListener(x: Uuid): Call {
    TKill(FirstKill(KAwait, x))
  }

  /** The record is stored and the listener waits; the stream is not yet registered. */
  lemma RecordedStream(t: CallId, listener: CallId, x: Uuid, h: Uuid, token: string, cfg: StreamConfig)
    returns (steps: seq<Step>, s: State)
    requires x != h && ' ' !in token && cfg.launchMode == "" && t != listener
    ensures Reached(steps, s) && s.calls.Keys == {t, listener} && NewAt(s, t, NStoreLive) && s.calls[t].n.stream == x
    ensures s.calls[listener] == WaitingListener(x)
    ensures s.origins.Keys == {x, h} && s.tokens.Keys == {token} && s.processes == map[x := 0]
    ensures s.live == map[] && s.rosters == map[] && s.entered == map[] && x in s.records
    ensures s.records[x].join == cfg.join && s.records[x].status == STATUS_RUNNING && Events(s, x) == [Created(s.records[x])]
  {
    steps, s := ListenedStream(t, listener, x, h, token, cfg);
    steps, s := Enter(steps, s, ByNew(t, NewCompose));
    steps, s := Enter(steps, s, ByNew(t, NewStoreRecord));
  }

  /** The interrupt is handled before the registration: the listener's killStream finds no live entry. */
  lemma MissedInterrupt(x: Uuid, h: Uuid, token: string, cfg: StreamConfig) returns (steps: seq<Step>, s: State)
    requires x != h && ' ' !in token && cfg.launchMode == ""
    ensures Reached(steps, s) && NewAt(s, 0, NStoreLive) && s.calls[0].n.stream == x && x in s.records
    ensures KillAt(s, 1, KLoadRecord) && s.calls[1].k.stream == x
  {
    steps, s := RecordedStream(0, 1, x, h, token, cfg);
    steps, s := Enter(steps, s, ByKill(1, Interrupt));
    steps, s := Enter(steps, s, ByKill(1, KillLoadLive));
  }

  /** The process dies after the record store: the listener finishes the record, then NewStream registers. */
  lemma EarlyInterrupt(x: Uuid, h: Uuid, token: string, cfg: StreamConfig) returns (steps: seq<Step>, s: State)
    requires x != h && ' ' !in token && cfg.launchMode == ""
    ensures Reached(steps, s) && LiveButFinished(s, x)
  {
    steps, s := MissedInterrupt(x, h, token, cfg);
    steps, s := FinishRecord(steps, s, 1, x);
    steps, s := Enter(steps, s, ByNew(0, NewStoreLive));
  }

  /** Call 0 has created stream x and returned; call 1 listens for its interrupt. */
  lemma OpenStream(x: Uuid, h: Uuid, token: string, cfg: StreamConfig) returns (steps: seq<Step>, s: State)
    requires x != h && ' ' !in token && cfg.launchMode == ""
    ensures Reached(steps, s) && s.calls.Keys == {0, 1} && NewAt(s, 0, NDone) && s.calls[1] == WaitingListener(x)
    ensures s.origins.Keys == {x, h} && s.tokens.Keys == {token} && s.processes == map[x := 0]
    ensures s.live == map[x := Module(0, x)] && s.rosters == map[] && s.entered == map[] && x in s.records
    ensures s.records[x].join == cfg.join && s.records[x].status == STATUS_RUNNING
    ensures Events(s, x) == [Created(s.records[x]), Registered]
  {
    steps, s := RecordedStream(0, 1, x, h, token, cfg);
    steps, s := Enter(steps, s, ByNew(0, NewStoreLive));
  }

  /** Stream x has been finished inside the window of patch 2, which is about to store. */
  lemma FinishedInsidePatch(x: Uuid, h: Uuid, token: string, cfg: StreamConfig, patch: PatchConfig)
    returns (steps: seq<Step>, s: State)
    requires x != h && ' ' !in token && cfg.launchMode == ""
    ensures Reached(steps, s) && s.calls.Keys == {0, 1, 2} && NewAt(s, 0, NDone) && KillAt(s, 1, KDone)
    ensures PatchAt(s, 2, PStoreRecord) && s.calls[2].p.stream == x
    ensures s.calls[2].p.copy.Some? && s.calls[2].p.copy.value.status == STATUS_RUNNING && s.calls[2].p.seen == 2
    ensures x !in s.live && |Events(s, x)| == 4 && Events(s, x)[3].Finished?
  {
    steps, s := OpenStream(x, h, token, cfg);
    steps, s := LoadedPatch(steps, s, 2, x, patch);
    steps, s := InterruptedStream(steps, s, 1, x);
    steps, s := DeletedStream(steps, s, 1, x);
    steps, s := FinishRecord(steps, s, 1, x);
  }

  /** A patch loads the running record, the stream is finished, and the patch stores what it had loaded:
      at rest the record says running and nothing is live. */
  lemma PatchAroundFinish(x: Uuid, h: Uuid, token: string, cfg: StreamConfig, patch: PatchConfig)
    returns (steps: seq<Step>, s: State)
    requires x != h && ' ' !in token && cfg.launchMode == ""
    ensures Reached(steps, s) && Quiescent(s, x) && x in s.records
    ensures s.records[x].status == STATUS_RUNNING && x !in s.live
    ensures Finishes(Events(s, x)) && !FinishApplied(Events(s, x)) && !PatchesApart(Events(s, x))
  {
    steps, s := FinishedInsidePatch(x, h, token, cfg, patch);
    steps, s := Enter(steps, s, ByPatch(2, PatchStoreRecord));
    FinishedExactly(steps, s, x);
    assert Events(s, x)[3].Finished? && Events(s, x)[4].Patched?;
  }

  lemma InterruptedStream(steps: seq<Step>, s: State, t: CallId, x: Uuid) returns (steps': seq<Step>, s': State)
    requires Reached(steps, s) && t in s.calls && s.calls[t] == WaitingListener(x)
    ensures Reached(steps', s') && KillAt(s', t, KLoadLive) && s'.calls == s.calls[t := s'.calls[t]]
    ensures s'.calls[t].k.stream == x && s'.live == s.live && s'.records == s.records && s'.events == s.events
  {
    steps', s' := Enter(steps, s, ByKill(t, Interrupt));
  }

  /** Two joins load the same roster, then both store: the first is admitted and not in the roster. */
  lemma Race(steps: seq<Step>, s: State, t: CallId, u: CallId) returns (steps': seq<Step>, s': State)
    requires Reached(steps, s) && t != u && JoinAt(s, t, JLoadRoster) && JoinAt(s, u, JLoadRoster)
    requires s.calls[t].j.stream == s.calls[u].j.stream
    ensures Reached(steps', s') && JoinAt(s', t, JUnregister) && HasEntered(s'.calls[t].j)
    ensures s'.calls[t].j.me == s.calls[t].j.me && s'.calls[t].j.stream == s.calls[t].j.stream
    ensures Roster(s', s.calls[t].j.stream) == Roster(s, s.calls[t].j.stream) + [Persisted(s.calls[u].j.me)]
    ensures Entered(s', s.calls[t].j.stream)
            == Entered(s, s.calls[t].j.stream) + [Persisted(s.calls[t].j.me), Persisted(s.calls[u].j.me)]
  {
    steps', s' := LoadedTwice(steps, s, t, u);
    steps', s' := Enter(steps', s', ByJoin(t, JoinStoreRoster));
    steps', s' := Enter(steps', s', ByJoin(u, JoinStoreRoster));
  }

  /** Such a race is reachable, and loses an admitted participant. */
  lemma LostJoin(x: Uuid, h: Uuid, token: string, cfg: StreamConfig, ids: (Uuid, Uuid), tokens: (string, string))
    returns (steps: seq<Step>, s: State)
    requires x != h && ' ' !in token && cfg.launchMode == "" && cfg.join.policy.Auto?
    requires ids.0 != ids.1 && ids.0 !in {x, h} && ids.1 !in {x, h}
    requires tokens.0 != tokens.1 && token != tokens.0 && token != tokens.1 && ' ' !in tokens.0 && ' ' !in tokens.1
    ensures Reached(steps, s) && Overwritten(steps, x)
    ensures JoinAt(s, 2, JUnregister) && HasEntered(s.calls[2].j) && s.calls[2].j.stream == x
    ensures s.calls[2].j.me.uuid == ids.0 && !Lists(Roster(s, x), ids.0)
  {
    steps, s := OpenStream(x, h, token, cfg);
    steps, s := ArrivedJoin(steps, s, 2, x, ids.0, tokens.0);
    steps, s := ArrivedJoin(steps, s, 3, x, ids.1, tokens.1);
    steps, s := Race(steps, s, 2, 3);
    RosterIsHistoryExactly(steps, s, x);
  }

  /** A join that has stored into the roster and still has to leave the pending map. */
  lemma StoredJoin(steps: seq<Step>, s: State, t: CallId, x: Uuid) returns (steps': seq<Step>, s': State)
    requires Reached(steps, s) && JoinAt(s, t, JLoadRoster) && s.calls[t].j.stream == x
    ensures Reached(steps', s') && JoinAt(s', t, JUnregister) && s'.calls == s.calls[t := s'.calls[t]]
    ensures s'.calls[t].j.stream == x && s'.calls[t].j.me.uuid == s.calls[t].j.me.uuid
    ensures s'.live == s.live && Lists(Roster(s', x), s.calls[t].j.me.uuid)
  {
    steps', s' := Enter(steps, s, ByJoin(t, JoinLoadRoster));
    steps', s' := Enter(steps', s', ByJoin(t, JoinStoreRoster));
    var r := Roster(s', x);
    assert r[|r| - 1].uuid == s.calls[t].j.me.uuid;
  }

  /** A listing has begun its range over the pending map. */
  lemma BegunListing(steps: seq<Step>, s: State, t: CallId, x: Uuid) returns (steps': seq<Step>, s': State)
    requires Reached(steps, s) && t !in s.calls && x in s.live
    ensures Reached(steps', s') && ListAt(s', t, LVisit) && s'.calls[t].l.stream == x && s'.calls[t].l.found == []
    ensures s'.calls[t].l.range == PendingOn(s.pending, x) && s'.pending == s.pending && s'.rosters == s.rosters
  {
    steps', s' := Enter(steps, s, Begin(t, ListRequest(x)));
    steps', s' := Enter(steps', s', ByList(t, ListLoadLive));
    steps', s' := Enter(steps', s', ByList(t, ListRange));
  }

  lemma VisitedOne(steps: seq<Step>, s: State, t: CallId, x: Uuid, id: Uuid) returns (steps': seq<Step>, s': State)
    requires Reached(steps, s) && ListAt(s, t, LVisit) && s.calls[t].l.stream == x && s.calls[t].l.found == []
    requires (x, id) in s.pending && s.calls[t].l.range == {id}
    ensures Reached(steps', s') && ListAt(s', t, LDone) && s'.calls[t].l.stream == x
    ensures Lists(s'.calls[t].l.found, id) && s'.calls[t].l.roster == Roster(s, x)
  {
    VisitAppends(steps, s, t, id);
    steps', s' := Enter(steps, s, ByList(t, ListVisit(id)));
    steps', s' := Enter(steps', s', ByList(t, ListRangeEnd));
    steps', s' := Enter(steps', s', ByList(t, ListLoadRoster));
  }

  lemma LingeringJoin(x: Uuid, h: Uuid, token: string, cfg: StreamConfig, id: Uuid, mine: string)
    returns (steps: seq<Step>, s: State)
    requires x != h && ' ' !in token && cfg.launchMode == "" && cfg.join.policy.Auto?
    requires id !in {x, h} && mine != token && ' ' !in mine
    ensures Reached(steps, s) && s.calls.Keys == {0, 1, 2} && s.calls[0].TNew? && s.calls[1].TKill? && x in s.live
    ensures JoinAt(s, 2, JUnregister) && s.calls[2].j.stream == x && s.calls[2].j.me.uuid == id
    ensures Lists(Roster(s, x), id)
  {
    steps, s := OpenStream(x, h, token, cfg);
    steps, s := ArrivedJoin(steps, s, 2, x, id, mine);
    steps, s := StoredJoin(steps, s, 2, x);
  }

  /** A listing that runs between a join's roster store and its deferred delete shows the participant twice. */
  lemma ListedBoth(x: Uuid, h: Uuid, token: string, cfg: StreamConfig, id: Uuid, mine: string)
    returns (steps: seq<Step>, s: State)
    requires x != h && ' ' !in token && cfg.launchMode == "" && cfg.join.policy.Auto?
    requires id !in {x, h} && mine != token && ' ' !in mine
    ensures Reached(steps, s) && ListAt(s, 3, LDone) && s.calls[3].l.stream == x
    ensures Lists(s.calls[3].l.found, id) && Lists(s.calls[3].l.roster, id)
  {
    steps, s := LingeringJoin(x, h, token, cfg, id, mine);
    OnlyOneWaits(steps, s, x, id);
    steps, s := BegunListing(steps, s, 3, x);
    steps, s := VisitedOne(steps, s, 3, x, id);
  }

  lemma OnlyOneWaits(steps: seq<Step>, s: State, x: Uuid, id: Uuid)
    requires Reached(steps, s) && s.calls.Keys == {0, 1, 2} && s.calls[0].TNew? && s.calls[1].TKill?
    requires JoinAt(s, 2, JUnregister) && s.calls[2].j.stream == x && s.calls[2].j.me.uuid == id
    ensures PendingOn(s.pending, x) == {id} && (x, id) in s.pending
  {
    forall p: Uuid ensures (x, p) in s.pending <==> p == id {
      PendingExactly(steps, s, x, p);
      if p == id { assert WaitingOn(s, 2, x, id); }
    }
    assert forall p :: p in PendingOn(s.pending, x) <==> (x, p) in s.pending;
  }
}
