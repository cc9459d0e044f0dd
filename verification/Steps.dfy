/** Single steps and short stretches of one call, from any reached state. */
module Steps {
  import opened Domain
  import opened Protocol
  import opened Safety

  lemma Enter(steps: seq<Step>, s: State, step: Step) returns (steps': seq<Step>, s': State)
    requires Reached(steps, s) && Enabled(s, step)
    ensures steps' == steps + [step] && s' == Effect(s, step) && Reached(steps', s')
  {
    steps', s' := steps + [step], Effect(s, step);
    assert steps'[..|steps|] == steps;
  }

  lemma StampedFinish(steps: seq<Step>, s: State, t: CallId, x: Uuid) returns (steps': seq<Step>, s': State)
    requires Reached(steps, s) && KillAt(s, t, KLoadRecord) && s.calls[t].k.stream == x && x in s.records
    ensures Reached(steps', s') && KillAt(s', t, KStoreRecord) && s'.calls == s.calls[t := s'.calls[t]]
    ensures s'.calls[t].k.stream == x && s'.calls[t].k.copy == Some(s.records[x]) && s'.calls[t].k.at == s.clock
    ensures s'.calls[t].k.found == s.calls[t].k.found && s'.calls[t].k.seen == |Events(s, x)|
    ensures SameRecords(s, s') && s'.live == s.live && s'.processes == s.processes && s'.events == s.events
  {
    steps', s' := Enter(steps, s, ByKill(t, KillLoadRecord));
    steps', s' := Enter(steps', s', ByKill(t, KillStamp));
  }

  /** A killStream past the live table finishes the record. */
  lemma FinishRecord(steps: seq<Step>, s: State, t: CallId, x: Uuid) returns (steps': seq<Step>, s': State)
    requires Reached(steps, s) && KillAt(s, t, KLoadRecord) && s.calls[t].k.stream == x && x in s.records
    ensures Reached(steps', s') && KillAt(s', t, KDone) && s'.calls == s.calls[t := s'.calls[t]]
    ensures s'.calls[t].k.stream == x && s'.live == s.live && s'.records == s.records[x := Finish(s.records[x], s.clock)]
    ensures s'.rosters == s.rosters && s'.pending == s.pending && s'.processes == s.processes
    ensures Events(s', x) == Events(s, x) + [Finished(!s.calls[t].k.found, |Events(s, x)|, s.clock)]
  {
    steps', s' := StampedFinish(steps, s, t, x);
    steps', s' := Enter(steps', s', ByKill(t, KillStoreRecord));
  }

  /** What a killStream leaves alone until it stores the record. */
  ghost predicate SameRecords(s: State, s': State) {
    s'.clock == s.clock && s'.records == s.records && s'.rosters == s.rosters && s'.pending == s.pending
  }

  lemma FoundStream(steps: seq<Step>, s: State, t: CallId, x: Uuid) returns (steps': seq<Step>, s': State)
    requires Reached(steps, s) && KillAt(s, t, KLoadLive) && s.calls[t].k.stream == x && x in s.live
    ensures Reached(steps', s') && KillAt(s', t, KStop) && s'.calls == s.calls[t := s'.calls[t]]
    ensures s'.calls[t].k.stream == x && s'.calls[t].k.found && s'.calls[t].k.process == s.live[x].process
    ensures SameRecords(s, s') && s'.live == s.live && s'.processes == s.processes && s'.events == s.events
  {
    steps', s' := Enter(steps, s, ByKill(t, KillLoadLive));
  }

  lemma StoppedStream(steps: seq<Step>, s: State, t: CallId, x: Uuid) returns (steps': seq<Step>, s': State)
    requires Reached(steps, s) && KillAt(s, t, KStop) && s.calls[t].k.stream == x
    ensures Reached(steps', s') && KillAt(s', t, KDelete) && s'.calls == s.calls[t := s'.calls[t]]
    ensures s'.calls[t].k.stream == x && s'.calls[t].k.found == s.calls[t].k.found
    ensures SameRecords(s, s') && s'.live == s.live && s'.events == s.events
    ensures var p := s.calls[t].k.process; s'.processes == s.processes[p := Stops(s, p) + 1]
  {
    steps', s' := Enter(steps, s, ByKill(t, KillStop));
  }

  /** A killStream finds the live entry, stops its process and deletes it. */
  lemma DeletedStream(steps: seq<Step>, s: State, t: CallId, x: Uuid) returns (steps': seq<Step>, s': State)
    requires Reached(steps, s) && KillAt(s, t, KLoadLive) && s.calls[t].k.stream == x && x in s.live
    ensures Reached(steps', s') && KillAt(s', t, KLoadRecord) && s'.calls == s.calls[t := s'.calls[t]]
    ensures s'.calls[t].k.stream == x && s'.calls[t].k.found
    ensures SameRecords(s, s') && s'.live == s.live - {x} && Events(s', x) == Events(s, x) + [Deleted(t)]
    ensures var p := s.live[x].process; s'.processes == s.processes[p := Stops(s, p) + 1]
  {
    steps', s' := FoundStream(steps, s, t, x);
    steps', s' := StoppedStream(steps', s', t, x);
    steps', s' := Enter(steps', s', ByKill(t, KillDelete));
  }

  lemma LoadedPatch(steps: seq<Step>, s: State, t: CallId, x: Uuid, patch: PatchConfig)
    returns (steps': seq<Step>, s': State)
    requires Reached(steps, s) && t !in s.calls && x in s.live && x in s.records
    ensures Reached(steps', s') && PatchAt(s', t, PStoreRecord) && s'.calls == s.calls[t := s'.calls[t]]
    ensures s'.calls[t].p.stream == x && s'.calls[t].p.copy == Some(s.records[x]) && s'.calls[t].p.seen == |Events(s, x)|
    ensures s'.live == s.live && s'.records == s.records && s'.events == s.events
  {
    steps', s' := Enter(steps, s, Begin(t, PatchRequest(x, patch)));
    steps', s' := Enter(steps', s', ByPatch(t, PatchLoadRecord));
    steps', s' := Enter(steps', s', ByPatch(t, PatchLoadLive));
  }

  lemma LoadedJoin(steps: seq<Step>, s: State, t: CallId, x: Uuid) returns (steps': seq<Step>, s': State)
    requires Reached(steps, s) && t !in s.calls && x in s.records
    ensures Reached(steps', s') && JoinAt(s', t, JLoadLive) && s' == s.(calls := s.calls[t := s'.calls[t]])
    ensures s'.calls[t].j.stream == x && s'.calls[t].j.snapshot == Some(s.records[x])
  {
    steps', s' := Enter(steps, s, Begin(t, JoinRequest(x, "", "", "", "")));
    steps', s' := Enter(steps', s', ByJoin(t, JoinLoadRecord));
  }

  lemma NamedJoin(steps: seq<Step>, s: State, t: CallId, x: Uuid, id: Uuid) returns (steps': seq<Step>, s': State)
    requires Reached(steps, s) && t !in s.calls && x in s.live && x in s.records && id !in s.origins
    ensures Reached(steps', s') && s'.live == s.live && s'.records == s.records
    ensures JoinAt(s', t, JRegister) && s'.calls == s.calls[t := s'.calls[t]] && s'.calls[t].j.stream == x
    ensures s'.calls[t].j.me.uuid == id
    ensures s'.calls[t].j.snapshot == Some(s.records[x])
    ensures s'.origins.Keys == s.origins.Keys + {id} && s'.tokens == s.tokens
    ensures s'.rosters == s.rosters && s'.entered == s.entered
  {
    steps', s' := LoadedJoin(steps, s, t, x);
    steps', s' := Enter(steps', s', ByJoin(t, JoinLoadLive(id)));
  }

  lemma AllowedJoin(steps: seq<Step>, s: State, t: CallId, x: Uuid, id: Uuid) returns (steps': seq<Step>, s': State)
    requires Reached(steps, s) && t !in s.calls && x in s.live && x in s.records && s.records[x].join.policy.Auto?
    requires id !in s.origins
    ensures Reached(steps', s') && s'.live == s.live && s'.records == s.records
    ensures JoinAt(s', t, JMint) && s'.calls == s.calls[t := s'.calls[t]] && s'.calls[t].j.stream == x
    ensures s'.calls[t].j.me.uuid == id && s'.origins.Keys == s.origins.Keys + {id} && s'.tokens == s.tokens
    ensures s'.rosters == s.rosters && s'.entered == s.entered
  {
    steps', s' := NamedJoin(steps, s, t, x, id);
    steps', s' := Enter(steps', s', ByJoin(t, JoinRegister));
    steps', s' := Enter(steps', s', ByJoin(t, JoinSwitch));
  }

  /** A new join on a live stream with policy auto, up to its roster load. */
  lemma ArrivedJoin(steps: seq<Step>, s: State, t: CallId, x: Uuid, id: Uuid, token: string)
    returns (steps': seq<Step>, s': State)
    requires Reached(steps, s) && t !in s.calls && x in s.live && x in s.records && s.records[x].join.policy.Auto?
    requires id !in s.origins && token !in s.tokens && ' ' !in token
    ensures Reached(steps', s') && s'.live == s.live && s'.records == s.records
    ensures JoinAt(s', t, JLoadRoster) && s'.calls == s.calls[t := s'.calls[t]] && s'.calls[t].j.stream == x
    ensures s'.calls[t].j.me.uuid == id
    ensures s'.origins.Keys == s.origins.Keys + {id} && s'.tokens.Keys == s.tokens.Keys + {token}
    ensures s'.rosters == s.rosters && s'.entered == s.entered
  {
    steps', s' := AllowedJoin(steps, s, t, x, id);
    steps', s' := Enter(steps', s', ByJoin(t, JoinMint(token)));
  }

  /** Both joins hold the roster as it is. */
  lemma LoadedTwice(steps: seq<Step>, s: State, t: CallId, u: CallId) returns (steps': seq<Step>, s': State)
    requires Reached(steps, s) && t != u && JoinAt(s, t, JLoadRoster) && JoinAt(s, u, JLoadRoster)
    requires s.calls[t].j.stream == s.calls[u].j.stream
    ensures Reached(steps', s') && JoinAt(s', t, JStoreRoster) && JoinAt(s', u, JStoreRoster)
    ensures s'.rosters == s.rosters && s'.entered == s.entered
    ensures var x := s.calls[t].j.stream;
            forall c <- {t, u} ::
              s'.calls[c].j.me == s.calls[c].j.me && s'.calls[c].j.stream == x && s'.calls[c].j.copy == Roster(s, x)
  {
    steps', s' := Enter(steps, s, ByJoin(t, JoinLoadRoster));
    steps', s' := Enter(steps', s', ByJoin(u, JoinLoadRoster));
  }
}
