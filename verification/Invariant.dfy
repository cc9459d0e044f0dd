/** The inductive invariant of the protocol. Every clause about a call, a UUID, a token, a roster or a record
    is stated for that one thing and survives growth, so a step has to account only for what it touches. */
module Invariant {
  import opened Domain
  import opened Protocol
  import opened Growth

  // ---------- the clauses ----------

  /** The call that generated a UUID is known, and it kept the UUID. */
  ghost predicate OriginOk(s: State, u: Uuid, o: Origin) {
    match o
    case OfParticipant(t) => t in s.calls && s.calls[t].TJoin? && Named(s.calls[t].j) && s.calls[t].j.me.uuid == u
    case OfStream(t) => t in s.calls && s.calls[t].TNew? && Prepared(s.calls[t].n) && s.calls[t].n.stream == u
    case OfHost(t) => t in s.calls && s.calls[t].TNew? && Prepared(s.calls[t].n) && s.calls[t].n.host == u
  }

  predicate CreatedBy(s: State, stream: Uuid, t: CallId) {
    stream in s.origins && s.origins[stream] == OfStream(t)
  }

  predicate JoinedBy(s: State, participant: Uuid, t: CallId) {
    participant in s.origins && s.origins[participant] == OfParticipant(t)
  }

  /** p is a participant that its own join has stored into the roster of the stream. */
  ghost predicate MemberOk(s: State, stream: Uuid, p: Participant) {
    && p.uuid in s.origins && s.origins[p.uuid].OfParticipant?
    && var t := s.origins[p.uuid].join;
       && t in s.calls && s.calls[t].TJoin?
       && var j := s.calls[t].j;
          HasEntered(j) && j.stream == stream && Persisted(j.me) == p
  }

  ghost predicate NoDuplicates(ps: seq<Participant>) {
    forall i, k :: 0 <= i < k < |ps| ==> ps[i].uuid != ps[k].uuid
  }

  ghost predicate RosterOk(s: State, stream: Uuid, ps: seq<Participant>) {
    NoDuplicates(ps) && forall i :: 0 <= i < |ps| ==> MemberOk(s, stream, ps[i])
  }

  /** info is a version of the record that the stream's own NewStream composed. */
  ghost predicate VersionOk(s: State, stream: Uuid, info: StreamInfo) {
    && stream in s.origins && s.origins[stream].OfStream?
    && ConsistentStatus(info)
    && info.startedAt <= s.clock
    && var t := s.origins[stream].creator;
       && t in s.calls && s.calls[t].TNew? && Recorded(s.calls[t].n) && s.calls[t].n.info.Some?
       && IdentityOf(info) == IdentityOf(s.calls[t].n.info.value)
  }

  ghost predicate ComposedOk(s: State, n: NewCall) {
    n.info.Some? ==>
      && n.info.value == Composed(n, n.info.value.startedAt)
      && n.info.value.startedAt <= s.clock
  }

  ghost predicate TokenOk(s: State, token: string, signed: Signed) {
    && ' ' !in token
    && var c := signed.claims;
       && CreatedBy(s, c.stream, signed.key)
       && c.participant in s.origins
       && if c.host then s.origins[c.participant] == OfHost(signed.key)
          else s.origins[c.participant].OfParticipant?
               && var t := s.origins[c.participant].join;
                  t in s.calls && s.calls[t].TJoin? && Minted(s.calls[t].j) && s.calls[t].j.stream == c.stream
  }

  ghost predicate HasToken(s: State, token: string, signed: Signed) {
    token in s.tokens && s.tokens[token] == signed
  }

  /** The join that received v from decision d, and that decision, name each other. */
  ghost predicate ReceivedFrom(s: State, t: CallId, j: JoinCall) {
    && j.decider in s.calls && s.calls[j.decider].TDecide?
    && var d := s.calls[j.decider].d;
       && d.pc == DSent && d.channel == t
       && d.stream == j.stream && d.participant == j.me.uuid && Some(d.allowed) == j.received
  }

  ghost predicate SendsTo(s: State, t: CallId, d: DecideCall) {
    && d.channel in s.calls && s.calls[d.channel].TJoin?
    && var j := s.calls[d.channel].j;
       && Named(j) && j.stream == d.stream && j.me.uuid == d.participant
       && (d.pc == DSent ==> j.received == Some(d.allowed) && j.decider == t)
  }

  ghost predicate JoinOk(s: State, t: CallId, j: JoinCall) {
    && (Named(j) ==>
          && j.me.channel == Some(t) && j.snapshot.Some?
          && JoinedBy(s, j.me.uuid, t) && CreatedBy(s, j.stream, j.key))
    && (Minted(j) ==> HasToken(s, j.token, JoinToken(j)))
    && (j.received.Some? ==> ReceivedFrom(s, t, j))
    && (j.snapshot.Some? ==> VersionOk(s, j.stream, j.snapshot.value))
    && (j.pc == JStoreRoster ==> RosterOk(s, j.stream, j.copy))
  }

  ghost predicate CallOk(s: State, t: CallId, c: Call) {
    && Shaped(c)
    && match c
       case TJoin(j) => JoinOk(s, t, j)
       case TDecide(d) => d.pc == DSend || d.pc == DSent ==> SendsTo(s, t, d)
       case TNew(n) =>
         && (Prepared(n) ==> CreatedBy(s, n.stream, t) && n.host in s.origins && s.origins[n.host] == OfHost(t))
         && (Started(n) ==> n.stream in s.processes)
         && ComposedOk(s, n)
       case TPatch(p) => p.copy.Some? ==> VersionOk(s, p.stream, p.copy.value)
       case TKill(k) =>
         && (k.found ==> k.process == k.stream && k.stream in s.processes)
         && (k.copy.Some? ==> VersionOk(s, k.stream, k.copy.value))
         && (k.pc == KStoreRecord ==> k.copy.value.startedAt <= k.at <= s.clock)
       case _ => true
  }

  ghost predicate LiveOk(s: State, stream: Uuid, m: Module) {
    CreatedBy(s, stream, m.key) && m.process == stream && NewAt(s, m.key, NDone)
  }

  ghost predicate ProcessKnown(s: State, p: Uuid) {
    && p in s.origins && s.origins[p].OfStream?
    && var t := s.origins[p].creator;
       t in s.calls && s.calls[t].TNew? && (Started(s.calls[t].n) || (s.calls[t].n.pc == NFailed && s.calls[t].n.dials > 0))
  }

  /** A pending entry is what its join registered. */
  ghost predicate PendingOk(s: State, k: (Uuid, Uuid), p: Participant) {
    && k.1 in s.origins && s.origins[k.1].OfParticipant?
    && var t := s.origins[k.1].join;
       && t in s.calls && s.calls[t].TJoin?
       && var j := s.calls[t].j;
          Named(j) && j.stream == k.0 && j.me.uuid == k.1 && p == j.me.(status := Pending)
  }

  ghost predicate CallsOk(s: State) { forall t <- s.calls :: CallOk(s, t, s.calls[t]) }

  ghost predicate OriginsOk(s: State) { forall u <- s.origins :: OriginOk(s, u, s.origins[u]) }

  ghost predicate LiveEntriesOk(s: State) { forall x <- s.live :: LiveOk(s, x, s.live[x]) }

  ghost predicate ProcessesOk(s: State) { forall p <- s.processes :: ProcessKnown(s, p) }

  ghost predicate RostersOk(s: State) { forall x <- s.rosters :: RosterOk(s, x, s.rosters[x]) }

  ghost predicate RecordsOk(s: State) { forall x <- s.records :: VersionOk(s, x, s.records[x]) }

  ghost predicate TokensOk(s: State) { forall x <- s.tokens :: TokenOk(s, x, s.tokens[x]) }

  ghost predicate PendingEntriesOk(s: State) { forall k <- s.pending :: PendingOk(s, k, s.pending[k]) }

  ghost predicate Inv(s: State) {
    && CallsOk(s)
    && OriginsOk(s)
    && LiveEntriesOk(s)
    && ProcessesOk(s)
    && RostersOk(s)
    && RecordsOk(s)
    && TokensOk(s)
    && PendingEntriesOk(s)
  }

  // ---------- the clauses survive growth ----------

  lemma OriginStays(s: State, s': State, u: Uuid, o: Origin)
    requires OriginOk(s, u, o) && Grows(s, s')
    ensures OriginOk(s', u, o)
  {}

  lemma MemberStays(s: State, s': State, stream: Uuid, p: Participant)
    requires MemberOk(s, stream, p) && Grows(s, s')
    ensures MemberOk(s', stream, p)
  {}

  lemma RosterStays(s: State, s': State, stream: Uuid, ps: seq<Participant>)
    requires RosterOk(s, stream, ps) && Grows(s, s')
    ensures RosterOk(s', stream, ps)
  {
    forall i | 0 <= i < |ps| ensures MemberOk(s', stream, ps[i]) { MemberStays(s, s', stream, ps[i]); }
  }

  lemma VersionStays(s: State, s': State, stream: Uuid, info: StreamInfo)
    requires VersionOk(s, stream, info) && Grows(s, s')
    ensures VersionOk(s', stream, info)
  {}

  lemma TokenStays(s: State, s': State, token: string, signed: Signed)
    requires TokenOk(s, token, signed) && Grows(s, s')
    ensures TokenOk(s', token, signed)
  {}

  lemma ReceivedStays(s: State, s': State, t: CallId, j: JoinCall)
    requires ReceivedFrom(s, t, j) && Grows(s, s')
    ensures ReceivedFrom(s', t, j)
  {}

  lemma SendsStays(s: State, s': State, t: CallId, d: DecideCall)
    requires SendsTo(s, t, d) && Grows(s, s')
    ensures SendsTo(s', t, d)
  {}

  lemma LiveStays(s: State, s': State, stream: Uuid, m: Module)
    requires LiveOk(s, stream, m) && Grows(s, s')
    ensures LiveOk(s', stream, m)
  {}

  lemma ProcessStays(s: State, s': State, p: Uuid)
    requires ProcessKnown(s, p) && Grows(s, s')
    ensures ProcessKnown(s', p)
  {}

  lemma PendingStays(s: State, s': State, k: (Uuid, Uuid), p: Participant)
    requires PendingOk(s, k, p) && Grows(s, s')
    ensures PendingOk(s', k, p)
  {}

  lemma JoinStays(s: State, s': State, t: CallId, j: JoinCall)
    requires JoinOk(s, t, j) && Grows(s, s')
    ensures JoinOk(s', t, j)
  {
    if j.received.Some? { ReceivedStays(s, s', t, j); }
    if j.snapshot.Some? { VersionStays(s, s', j.stream, j.snapshot.value); }
    if j.pc == JStoreRoster { RosterStays(s, s', j.stream, j.copy); }
  }

  lemma CallStays(s: State, s': State, t: CallId, c: Call)
    requires CallOk(s, t, c) && Grows(s, s')
    ensures CallOk(s', t, c)
  {
    match c {
      case TJoin(j) => JoinStays(s, s', t, j);
      case TDecide(d) => if d.pc == DSend || d.pc == DSent { SendsStays(s, s', t, d); }
      case TNew(n) =>
      case TPatch(p) => if p.copy.Some? { VersionStays(s, s', p.stream, p.copy.value); }
      case TKill(k) => if k.copy.Some? { VersionStays(s, s', k.stream, k.copy.value); }
      case _ =>
    }
  }

  // ---------- a step keeps the invariant when its call and its write are in order ----------

  /** The call grows and the write overwrites nothing that must stay. */
  ghost predicate Advances(s: State, t: CallId, m: Move) {
    && (t in s.calls ==> CallGrows(s.calls[t], m.call))
    && match m.write
       case NameParticipant(id) => id !in s.origins
       case NameStream(stream, host) => stream != host && stream !in s.origins && host !in s.origins
       case ReleaseDecider(d) => d != t && DecideAt(s, d, DSend)
       case PutToken(token, signed) => token in s.tokens ==> s.tokens[token] == signed
       case PutProcess(p) => p !in s.processes
       case SpawnKill(kill, pc, _) => kill != t && kill !in s.calls && (pc == KAwait || pc == KLoadLive)
       case _ => true
  }

  /** What was written is in order in the state it leads to. */
  ghost predicate WriteOk(s: State, s': State, t: CallId, w: Write) {
    match w
    case NameParticipant(id) => OriginOk(s', id, OfParticipant(t))
    case PutPending(stream, p) => PendingOk(s', (stream, p.uuid), p)
    case ReleaseDecider(d) => d in s.calls && CallOk(s', d, Sent(s.calls[d]))
    case PutToken(token, signed) => TokenOk(s', token, signed)
    case PutRoster(stream, roster, _) => RosterOk(s', stream, roster)
    case NameStream(stream, host) => OriginOk(s', stream, OfStream(t)) && OriginOk(s', host, OfHost(t))
    case PutProcess(p) => ProcessKnown(s', p)
    case StopProcess(p) => p in s.processes
    case PutRecord(stream, info, _) => VersionOk(s', stream, info)
    case PutLive(stream, module_) => LiveOk(s', stream, module_)
    case _ => true
  }

  ghost predicate InOrder(s: State, t: CallId, m: Move) {
    var s' := Perform(s, t, m);
    Advances(s, t, m) && CallOk(s', t, m.call) && WriteOk(s, s', t, m.write)
  }

  lemma CallGrowsReflexive(c: Call)
    ensures CallGrows(c, c)
  {}

  lemma PerformGrows(s: State, t: CallId, m: Move)
    requires Advances(s, t, m)
    ensures Grows(s, Perform(s, t, m))
  {
    var s' := Perform(s, t, m);
    forall u <- s.calls ensures u in s'.calls && CallGrows(s.calls[u], s'.calls[u]) {
      CallGrowsReflexive(s.calls[u]);
    }
  }

  // A table keeps its clause when what is new in it is in order.

  lemma CallsKeep(s: State, s': State)
    requires CallsOk(s) && Grows(s, s')
    requires forall t <- s'.calls :: (t in s.calls && s'.calls[t] == s.calls[t]) || CallOk(s', t, s'.calls[t])
    ensures CallsOk(s')
  {
    forall t <- s'.calls ensures CallOk(s', t, s'.calls[t]) {
      if t in s.calls && s'.calls[t] == s.calls[t] { CallStays(s, s', t, s.calls[t]); }
    }
  }

  lemma OriginsKeep(s: State, s': State)
    requires OriginsOk(s) && Grows(s, s')
    requires forall u <- s'.origins :: (u in s.origins && s'.origins[u] == s.origins[u]) || OriginOk(s', u, s'.origins[u])
    ensures OriginsOk(s')
  {
    forall u <- s'.origins ensures OriginOk(s', u, s'.origins[u]) {
      if u in s.origins && s'.origins[u] == s.origins[u] { OriginStays(s, s', u, s.origins[u]); }
    }
  }

  lemma LiveEntriesKeep(s: State, s': State)
    requires LiveEntriesOk(s) && Grows(s, s')
    requires forall x <- s'.live :: (x in s.live && s'.live[x] == s.live[x]) || LiveOk(s', x, s'.live[x])
    ensures LiveEntriesOk(s')
  {
    forall x <- s'.live ensures LiveOk(s', x, s'.live[x]) {
      if x in s.live && s'.live[x] == s.live[x] { LiveStays(s, s', x, s.live[x]); }
    }
  }

  lemma ProcessesKeep(s: State, s': State)
    requires ProcessesOk(s) && Grows(s, s')
    requires forall p <- s'.processes :: p in s.processes || ProcessKnown(s', p)
    ensures ProcessesOk(s')
  {
    forall p <- s'.processes ensures ProcessKnown(s', p) {
      if p in s.processes { ProcessStays(s, s', p); }
    }
  }

  lemma RostersKeep(s: State, s': State)
    requires RostersOk(s) && Grows(s, s')
    requires forall x <- s'.rosters :: (x in s.rosters && s'.rosters[x] == s.rosters[x]) || RosterOk(s', x, s'.rosters[x])
    ensures RostersOk(s')
  {
    forall x <- s'.rosters ensures RosterOk(s', x, s'.rosters[x]) {
      if x in s.rosters && s'.rosters[x] == s.rosters[x] { RosterStays(s, s', x, s.rosters[x]); }
    }
  }

  lemma RecordsKeep(s: State, s': State)
    requires RecordsOk(s) && Grows(s, s')
    requires forall x <- s'.records :: (x in s.records && s'.records[x] == s.records[x]) || VersionOk(s', x, s'.records[x])
    ensures RecordsOk(s')
  {
    forall x <- s'.records ensures VersionOk(s', x, s'.records[x]) {
      if x in s.records && s'.records[x] == s.records[x] { VersionStays(s, s', x, s.records[x]); }
    }
  }

  lemma TokensKeep(s: State, s': State)
    requires TokensOk(s) && Grows(s, s')
    requires forall x <- s'.tokens :: (x in s.tokens && s'.tokens[x] == s.tokens[x]) || TokenOk(s', x, s'.tokens[x])
    ensures TokensOk(s')
  {
    forall x <- s'.tokens ensures TokenOk(s', x, s'.tokens[x]) {
      if x in s.tokens && s'.tokens[x] == s.tokens[x] { TokenStays(s, s', x, s.tokens[x]); }
    }
  }

  lemma PendingEntriesKeep(s: State, s': State)
    requires PendingEntriesOk(s) && Grows(s, s')
    requires forall k <- s'.pending :: (k in s.pending && s'.pending[k] == s.pending[k]) || PendingOk(s', k, s'.pending[k])
    ensures PendingEntriesOk(s')
  {
    forall k <- s'.pending ensures PendingOk(s', k, s'.pending[k]) {
      if k in s.pending && s'.pending[k] == s.pending[k] { PendingStays(s, s', k, s.pending[k]); }
    }
  }

  lemma PerformKeepsCalls(s: State, t: CallId, m: Move)
    requires CallsOk(s) && InOrder(s, t, m)
    ensures CallsOk(Perform(s, t, m))
  {
    PerformGrows(s, t, m);
    CallsKeep(s, Perform(s, t, m));
  }

  lemma PerformKeepsOrigins(s: State, t: CallId, m: Move)
    requires OriginsOk(s) && InOrder(s, t, m)
    ensures OriginsOk(Perform(s, t, m))
  {
    PerformGrows(s, t, m);
    OriginsKeep(s, Perform(s, t, m));
  }

  lemma PerformKeepsLiveEntries(s: State, t: CallId, m: Move)
    requires LiveEntriesOk(s) && InOrder(s, t, m)
    ensures LiveEntriesOk(Perform(s, t, m))
  {
    PerformGrows(s, t, m);
    LiveEntriesKeep(s, Perform(s, t, m));
  }

  lemma PerformKeepsProcesses(s: State, t: CallId, m: Move)
    requires ProcessesOk(s) && InOrder(s, t, m)
    ensures ProcessesOk(Perform(s, t, m))
  {
    PerformGrows(s, t, m);
    ProcessesKeep(s, Perform(s, t, m));
  }

  lemma PerformKeepsRosters(s: State, t: CallId, m: Move)
    requires RostersOk(s) && InOrder(s, t, m)
    ensures RostersOk(Perform(s, t, m))
  {
    PerformGrows(s, t, m);
    RostersKeep(s, Perform(s, t, m));
  }

  lemma PerformKeepsRecords(s: State, t: CallId, m: Move)
    requires RecordsOk(s) && InOrder(s, t, m)
    ensures RecordsOk(Perform(s, t, m))
  {
    PerformGrows(s, t, m);
    RecordsKeep(s, Perform(s, t, m));
  }

  lemma PerformKeepsTokens(s: State, t: CallId, m: Move)
    requires TokensOk(s) && InOrder(s, t, m)
    ensures TokensOk(Perform(s, t, m))
  {
    PerformGrows(s, t, m);
    TokensKeep(s, Perform(s, t, m));
  }

  lemma PerformKeepsPendingEntries(s: State, t: CallId, m: Move)
    requires PendingEntriesOk(s) && InOrder(s, t, m)
    ensures PendingEntriesOk(Perform(s, t, m))
  {
    PerformGrows(s, t, m);
    PendingEntriesKeep(s, Perform(s, t, m));
  }

  lemma PerformKeeps(s: State, t: CallId, m: Move)
    requires Inv(s) && InOrder(s, t, m)
    ensures Inv(Perform(s, t, m)) && Grows(s, Perform(s, t, m))
  {
    PerformGrows(s, t, m);
    PerformKeepsCalls(s, t, m);
    PerformKeepsOrigins(s, t, m);
    PerformKeepsLiveEntries(s, t, m);
    PerformKeepsProcesses(s, t, m);
    PerformKeepsRosters(s, t, m);
    PerformKeepsRecords(s, t, m);
    PerformKeepsTokens(s, t, m);
    PerformKeepsPendingEntries(s, t, m);
  }

  lemma TickKeepsAccess(s: State, s': State)
    requires OriginsOk(s) && LiveEntriesOk(s) && ProcessesOk(s) && TokensOk(s)
    requires s' == s.(clock := s'.clock) && Grows(s, s')
    ensures OriginsOk(s') && LiveEntriesOk(s') && ProcessesOk(s') && TokensOk(s')
  {
    OriginsKeep(s, s');
    LiveEntriesKeep(s, s');
    ProcessesKeep(s, s');
    TokensKeep(s, s');
  }

  lemma TickKeepsContents(s: State, s': State)
    requires CallsOk(s) && RostersOk(s) && RecordsOk(s) && PendingEntriesOk(s)
    requires s' == s.(clock := s'.clock) && Grows(s, s')
    ensures CallsOk(s') && RostersOk(s') && RecordsOk(s') && PendingEntriesOk(s')
  {
    CallsKeep(s, s');
    RostersKeep(s, s');
    RecordsKeep(s, s');
    PendingEntriesKeep(s, s');
  }

  lemma TickGrows(s: State, now: Time)
    requires s.clock <= now
    ensures Grows(s, s.(clock := now))
  {
    forall t <- s.calls ensures CallGrows(s.calls[t], s.calls[t]) { CallGrowsReflexive(s.calls[t]); }
  }

  lemma TickKeeps(s: State, now: Time)
    requires Inv(s) && s.clock <= now
    ensures Inv(s.(clock := now)) && Grows(s, s.(clock := now))
  {
    var s' := s.(clock := now);
    TickGrows(s, now);
    TickKeepsAccess(s, s');
    TickKeepsContents(s, s');
  }
}
