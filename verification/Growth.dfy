/** What no step undoes: who generated which UUID, what a call has fixed, what was minted, stored and logged.
    Everything proved about a call in progress is stated so that it survives such growth. */
module Growth {
  import opened Domain
  import opened Protocol

  /** The join has generated its participant (and made that participant's channel). */
  predicate Named(j: JoinCall) { j.me.channel.Some? }

  predicate Minted(j: JoinCall) { j.me.status.Active? }

  predicate HasEntered(j: JoinCall) { j.result.Admitted? }

  predicate Prepared(n: NewCall) { n.pc != NPrepare }

  /** The NewStream call has started its process, and not given up on it. */
  predicate Started(n: NewCall) {
    n.pc != NPrepare && n.pc != NMint && n.pc != NStart && n.pc != NFailed
  }

  /** The NewStream call has written the record. */
  predicate Recorded(n: NewCall) { n.pc == NStoreLive || n.pc == NDone }

  /** The killStream has deleted the live entry it had found, or had found none. */
  predicate PastDelete(k: KillCall) {
    k.pc == KLoadRecord || k.pc == KStamp || k.pc == KStoreRecord || k.pc == KDone
  }

  ghost predicate Extends<K, V>(m: map<K, V>, m': map<K, V>) {
    forall k <- m :: k in m' && m'[k] == m[k]
  }

  /** How far a join has come; the order of JoinParticipant's statements. */
  function Progress(pc: JoinPc): nat {
    match pc
    case JLoadRecord => 0
    case JLoadLive => 1
    case JRegister => 2
    case JSwitch => 3
    case JReceive => 4
    case JMint => 5
    case JLoadRoster => 6
    case JStoreRoster => 7
    case JUnregister => 8
    case JReturned => 9
  }

  ghost predicate JoinGrows(j: JoinCall, j': JoinCall) {
    && j'.stream == j.stream && j'.code == j.code && Progress(j.pc) <= Progress(j'.pc)
    && (Named(j) ==> Named(j') && j'.me.(status := j.me.status) == j.me && j'.snapshot == j.snapshot && j'.key == j.key)
    && (j.received.Some? ==> j'.received == j.received && j'.decider == j.decider)
    && (Minted(j) ==> j'.me == j.me && j'.token == j.token && j'.received == j.received)
    && (j.result != Undecided ==> j'.result == j.result && j'.received == j.received && j'.me == j.me)
  }

  ghost predicate DecideGrows(d: DecideCall, d': DecideCall) {
    && d'.stream == d.stream && d'.participant == d.participant && d'.allowed == d.allowed
    && (d.pc == DSend ==> (d'.pc == DSend || d'.pc == DSent) && d'.channel == d.channel)
    && (d.pc == DSent ==> d' == d)
  }

  ghost predicate NewGrows(n: NewCall, n': NewCall) {
    && n'.cfg == n.cfg && n.dials <= n'.dials
    && (Prepared(n) ==> Prepared(n') && n'.stream == n.stream && n'.host == n.host)
    && (n.info.Some? ==> n'.info == n.info)
    && (Recorded(n) ==> Recorded(n'))
    && (n.pc == NDone || n.pc == NFailed ==> n' == n)
    && (Started(n) && n'.pc == NFailed ==> n'.dials > 0)
    && (n.pc != NPrepare && n.pc != NMint && n.pc != NStart ==> n'.pc != NPrepare && n'.pc != NMint && n'.pc != NStart)
  }

  ghost predicate PatchGrows(p: PatchCall, p': PatchCall) {
    p'.stream == p.stream && p'.cfg == p.cfg
  }

  ghost predicate KillGrows(k: KillCall, k': KillCall) {
    && k'.stream == k.stream
    && (PastDelete(k) ==> PastDelete(k') && k'.found == k.found)
    && (k.pc == KDone ==> k' == k)
  }

  ghost predicate StopGrows(o: StopCall, o': StopCall) {
    && o.visited <= o'.visited
    && (o.pc != OStart ==> o'.pc != OStart && o'.range == o.range)
    && (o.pc == ODone ==> o' == o)
  }

  ghost predicate ListGrows(l: ListCall, l': ListCall) {
    && l'.stream == l.stream && l.found <= l'.found
    && (l.pc == LVisit || l.pc == LRoster || l.pc == LDone ==>
          && l'.range == l.range && l'.entered == l.entered
          && (l'.pc == LVisit || l'.pc == LRoster || l'.pc == LDone))
    && (l.pc == LDone ==> l' == l)
  }

  ghost predicate CallGrows(c: Call, c': Call) {
    match c
    case TJoin(j) => c'.TJoin? && JoinGrows(j, c'.j)
    case TDecide(d) => c'.TDecide? && DecideGrows(d, c'.d)
    case TNew(n) => c'.TNew? && NewGrows(n, c'.n)
    case TPatch(p) => c'.TPatch? && PatchGrows(p, c'.p)
    case TKill(k) => c'.TKill? && KillGrows(k, c'.k)
    case TStop(o) => c'.TStop? && StopGrows(o, c'.o)
    case TList(l) => c'.TList? && ListGrows(l, c'.l)
  }

  ghost predicate CallsGrow(s: State, s': State) {
    forall t <- s.calls :: t in s'.calls && CallGrows(s.calls[t], s'.calls[t])
  }

  ghost predicate LogsGrow(s: State, s': State) {
    && (forall stream: Uuid :: Events(s, stream) <= Events(s', stream))
    && (forall stream: Uuid :: Entered(s, stream) <= Entered(s', stream))
  }

  ghost predicate Grows(s: State, s': State) {
    && s.clock <= s'.clock
    && CallsGrow(s, s')
    && Extends(s.origins, s'.origins)
    && Extends(s.tokens, s'.tokens)
    && s.records.Keys <= s'.records.Keys
    && s.processes.Keys <= s'.processes.Keys
    && (forall p: Uuid :: Stops(s, p) <= Stops(s', p))
    && LogsGrow(s, s')
  }

  // ---------- what the program counter says about a call ----------

  /** The policy snapshot the join loaded lets it in: section by section of JoinParticipant's switch. */
  predicate Justified(j: JoinCall) {
    && j.snapshot.Some?
    && var join := j.snapshot.value.join;
       || join.policy.Auto?
       || (join.policy.ByCode? && join.code == j.code)
       || (join.policy.HostResolve? && j.received == Some(true))
  }

  predicate RefusedBy(j: JoinCall, join: JoinInfo) {
    || (join.policy.ByCode? && join.code != j.code && j.result == Refused(InvalidCode))
    || (join.policy.OtherPolicy? && j.result == Refused(UnknownPolicy))
  }

  predicate JoinShaped(j: JoinCall) {
    && var at := Progress(j.pc);
    && (at <= 1 ==> !Named(j))
    && (2 <= at <= 8 ==> Named(j) && j.snapshot.Some?)
    && (at <= 4 ==> j.received.None?)
    && (at == 4 ==> j.snapshot.value.join.policy.HostResolve?)
    && (5 <= at <= 7 || HasEntered(j) ==> Justified(j))
    && (at <= 7 <==> j.result == Undecided)
    && (Minted(j) <==> 6 <= at <= 7 || HasEntered(j))
    && !j.me.status.Blocked?
    && (j.received.Some? ==>
          && Named(j) && j.snapshot.Some? && j.snapshot.value.join.policy.HostResolve?
          && (j.received.value || j.result == Denied))
    && (j.result == Denied ==> j.received == Some(false))
    && (HasEntered(j) ==> Named(j))
    && (at == 9 && !Named(j) ==> j.result == Refused(StreamNotRunning))
    && (Named(j) && j.result.Refused? ==> j.snapshot.Some? && RefusedBy(j, j.snapshot.value.join))
  }

  predicate NewShaped(n: NewCall) {
    && (n.info.Some? <==> n.pc in {NStoreRecord, NStoreLive, NDone})
    && n.dials <= DIAL_ATTEMPTS
    && (n.pc == NDial ==> n.dials < DIAL_ATTEMPTS)
    && (n.pc == NAbort ==> n.dials > 0)
    && (n.pc in {NPrepare, NMint, NStart} ==> n.dials == 0)
  }

  predicate PatchShaped(p: PatchCall) {
    && (p.pc == PStoreRecord ==> p.copy.Some?)
  }

  predicate KillShaped(k: KillCall) {
    && (k.pc in {KStop, KDelete} ==> k.found)
    && (k.pc in {KCheck, KAwait, KLoadLive, KFailed} ==> !k.found)
    && (k.pc in {KStamp, KStoreRecord} ==> k.copy.Some?)
  }

  predicate Shaped(c: Call) {
    match c
    case TJoin(j) => JoinShaped(j)
    case TNew(n) => NewShaped(n)
    case TPatch(p) => PatchShaped(p)
    case TKill(k) => KillShaped(k)
    case _ => true
  }

  // ---------- growth over several steps ----------

  lemma CallGrowsTransitive(a: Call, b: Call, c: Call)
    requires CallGrows(a, b) && CallGrows(b, c)
    ensures CallGrows(a, c)
  {}

  lemma GrowsTransitive(a: State, b: State, c: State)
    requires Grows(a, b) && Grows(b, c)
    ensures Grows(a, c)
  {
    forall t <- a.calls ensures t in c.calls && CallGrows(a.calls[t], c.calls[t]) {
      CallGrowsTransitive(a.calls[t], b.calls[t], c.calls[t]);
    }
    forall stream: Uuid ensures Events(a, stream) <= Events(c, stream) && Entered(a, stream) <= Entered(c, stream) {
      assert Events(a, stream) <= Events(b, stream) <= Events(c, stream);
      assert Entered(a, stream) <= Entered(b, stream) <= Entered(c, stream);
    }
    forall p: Uuid ensures Stops(a, p) <= Stops(c, p) {
      assert Stops(a, p) <= Stops(b, p) <= Stops(c, p);
    }
  }

  lemma GrowsReflexive(s: State)
    ensures Grows(s, s)
  {
    forall t <- s.calls ensures CallGrows(s.calls[t], s.calls[t]) {}
  }
}
