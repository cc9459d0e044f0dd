/** The server as a concurrent program: every operation is a call with a program counter, and one step
    of the system is one load, store, delete, mint, process action or channel rendezvous of one call.
    Any interleaving of any number of calls is a sequence of steps. */
module Protocol {
  import opened Domain

  // ---------- calls in progress ----------

  datatype JoinPc =
    | JLoadRecord | JLoadLive | JRegister | JSwitch | JReceive
    | JMint | JLoadRoster | JStoreRoster | JUnregister | JReturned

  datatype JoinError = StreamNotRunning | InvalidCode | UnknownPolicy

  datatype JoinResult = Undecided | Refused(error: JoinError) | Denied | Admitted

  datatype JoinCall = JoinCall(
    pc: JoinPc,
    stream: Uuid,
    code: string,
    snapshot: Option<StreamInfo>,  // the stream record this join loaded
    key: CallId,                   // the signing key of the module it loaded
    me: Participant,
    received: Option<bool>,        // what came through the channel
    decider: CallId,               // and from which decision (history)
    token: string,
    copy: seq<Participant>,        // the roster it loaded
    seen: nat,                     // how many joins had entered the roster at that moment (history)
    result: JoinResult)

  datatype DecidePc = DLoadLive | DLoadPending | DSend | DSent | DFailed

  datatype DecideCall = DecideCall(
    pc: DecidePc, stream: Uuid, participant: Uuid, allowed: bool, channel: CallId)

  datatype NewPc =
    | NPrepare | NMint | NStart | NDial | NAbort | NListen | NCompose
    | NStoreRecord | NStoreLive | NDone | NFailed

  datatype NewCall = NewCall(
    pc: NewPc, cfg: StreamConfig, stream: Uuid, host: Uuid, token: string,
    dials: nat, endpoint: Endpoint, info: Option<StreamInfo>)

  datatype Endpoint = Endpoint(ip: string, port: int)

  datatype DialOutcome = DialFailed | CloseFailed | Connected

  datatype PatchPc = PLoadRecord | PLoadLive | PStoreRecord | PDone | PFailed

  datatype PatchCall = PatchCall(
    pc: PatchPc, stream: Uuid, cfg: PatchConfig, copy: Option<StreamInfo>,
    seen: nat)  // length of the stream's history when the record was loaded (history)

  /** FinishStream (starting at KCheck) and the interrupt listener (starting at KAwait);
      from KLoadLive on, both run killStream. */
  datatype KillPc =
    | KCheck | KAwait | KLoadLive | KStop | KDelete | KLoadRecord | KStamp | KStoreRecord | KDone | KFailed

  datatype KillCall = KillCall(
    pc: KillPc, stream: Uuid, found: bool, process: Uuid, copy: Option<StreamInfo>,
    seen: nat,  // length of the stream's history when the record was loaded (history)
    at: Time)

  datatype StopPc = OStart | OLoop | OWait | ODone

  /** Stop: ranges over the live table, one killStream per key it visits. */
  datatype StopCall = StopCall(
    pc: StopPc,
    range: set<Uuid>,    // the keys live when the range began
    visited: set<Uuid>,
    kill: CallId)        // the killStream it waits for

  datatype ListPc = LLoadLive | LRange | LVisit | LRoster | LDone | LFailed

  /** StreamParticipants: ranges over the pending map, then loads the roster. */
  datatype ListCall = ListCall(
    pc: ListPc, stream: Uuid,
    range: set<Uuid>,         // who was pending when the range began
    entered: nat,             // how many joins had entered the roster at that moment (history)
    found: seq<Participant>,  // the pending participants visited
    roster: seq<Participant>)

  datatype Call =
    | TJoin(j: JoinCall) | TDecide(d: DecideCall) | TNew(n: NewCall) | TPatch(p: PatchCall) | TKill(k: KillCall)
    | TStop(o: StopCall) | TList(l: ListCall)

  // ---------- the state ----------

  /** What happened to one stream, in order. Created, Patched and Finished are record stores; seen is the length
      the history had when the stored copy was loaded. A finish is blind when its killStream had not found the
      stream in the live table. */
  datatype Event =
    | Created(info: StreamInfo)
    | Registered
    | Patched(seen: nat, cfg: PatchConfig)
    | Deleted(caller: CallId)
    | Finished(blind: bool, seen: nat, at: Time)

  datatype Origin = OfParticipant(join: CallId) | OfStream(creator: CallId) | OfHost(creator: CallId)

  datatype State = State(
    clock: Time,
    records: map<Uuid, StreamInfo>,
    live: map<Uuid, Module>,
    rosters: map<Uuid, seq<Participant>>,
    pending: map<(Uuid, Uuid), Participant>,
    tokens: map<string, Signed>,
    processes: map<Uuid, nat>,            // started stream processes, with the number of Stop calls on each
    calls: map<CallId, Call>,             // running and returned calls
    // history: never read by a step
    origins: map<Uuid, Origin>,           // which call generated each UUID, and what for
    entered: map<Uuid, seq<Participant>>, // participants stored into each stream's roster, in store order
    events: map<Uuid, seq<Event>>)

  const INITIAL: State :=
    State(0, map[], map[], map[], map[], map[], map[], map[], map[], map[], map[])

  function Roster(s: State, stream: Uuid): seq<Participant> {
    if stream in s.rosters then s.rosters[stream] else []
  }

  function Entered(s: State, stream: Uuid): seq<Participant> {
    if stream in s.entered then s.entered[stream] else []
  }

  function Events(s: State, stream: Uuid): seq<Event> {
    if stream in s.events then s.events[stream] else []
  }

  predicate Lists(ps: seq<Participant>, participant: Uuid) {
    exists i :: 0 <= i < |ps| && ps[i].uuid == participant
  }

  /** The participants of the stream in the pending map. */
  function PendingOn(pending: map<(Uuid, Uuid), Participant>, stream: Uuid): set<Uuid> {
    set k | k in pending && k.0 == stream :: k.1
  }

  function Stops(s: State, process: Uuid): nat {
    if process in s.processes then s.processes[process] else 0
  }

  // ---------- steps ----------

  /** A client's request, or the interrupt listener that NewStream spawns. */
  datatype Request =
    | JoinRequest(stream: Uuid, code: string, name: string, avatarId: string, ip: string)
    | DecideRequest(stream: Uuid, participant: Uuid, allowed: bool)
    | NewRequest(cfg: StreamConfig)
    | PatchRequest(stream: Uuid, patch: PatchConfig)
    | FinishRequest(stream: Uuid)
    | StopRequest
    | ListRequest(stream: Uuid)

  datatype JoinAction =
    | JoinLoadRecord | JoinLoadLive(id: Uuid) | JoinRegister | JoinSwitch
    | JoinMint(token: string) | JoinLoadRoster | JoinStoreRoster | JoinUnregister

  datatype DecideAction = DecideLoadLive | DecideLoadPending

  datatype NewAction =
    | NewPrepare(stream: Uuid, host: Uuid) | NewMint(token: string) | NewStart(started: Option<Endpoint>)
    | NewDial(outcome: DialOutcome) | NewAbort | NewListen(listener: CallId) | NewCompose
    | NewStoreRecord | NewStoreLive

  datatype PatchAction = PatchLoadRecord | PatchLoadLive | PatchStoreRecord

  datatype KillAction =
    | FinishCheck | Interrupt | KillLoadLive | KillStop | KillDelete
    | KillLoadRecord | KillStamp | KillStoreRecord

  datatype StopAction = StopRange | StopVisit(stream: Uuid, kill: CallId) | StopReturn | StopEnd

  datatype ListAction = ListLoadLive | ListRange | ListVisit(participant: Uuid) | ListRangeEnd | ListLoadRoster

  datatype Step =
    | Tick(now: Time)
    | Begin(t: CallId, request: Request)
    | ByJoin(t: CallId, join: JoinAction)
    | ByDecide(t: CallId, decide: DecideAction)
    | Rendezvous(t: CallId, d: CallId)
    | ByNew(t: CallId, create: NewAction)
    | ByPatch(t: CallId, patch: PatchAction)
    | ByKill(t: CallId, kill: KillAction)
    | ByStop(t: CallId, stop: StopAction)
    | ByList(t: CallId, list: ListAction)

  predicate JoinAt(s: State, t: CallId, pc: JoinPc) {
    t in s.calls && s.calls[t].TJoin? && s.calls[t].j.pc == pc
  }

  predicate DecideAt(s: State, t: CallId, pc: DecidePc) {
    t in s.calls && s.calls[t].TDecide? && s.calls[t].d.pc == pc
  }

  predicate NewAt(s: State, t: CallId, pc: NewPc) {
    t in s.calls && s.calls[t].TNew? && s.calls[t].n.pc == pc
  }

  predicate PatchAt(s: State, t: CallId, pc: PatchPc) {
    t in s.calls && s.calls[t].TPatch? && s.calls[t].p.pc == pc
  }

  predicate KillAt(s: State, t: CallId, pc: KillPc) {
    t in s.calls && s.calls[t].TKill? && s.calls[t].k.pc == pc
  }

  predicate StopAt(s: State, t: CallId, pc: StopPc) {
    t in s.calls && s.calls[t].TStop? && s.calls[t].o.pc == pc
  }

  predicate ListAt(s: State, t: CallId, pc: ListPc) {
    t in s.calls && s.calls[t].TList? && s.calls[t].l.pc == pc
  }

  /** Signing is deterministic, and different contents or keys give different strings;
      a token is base64url text with dots, so it holds no space. */
  predicate CanMint(s: State, token: string, signed: Signed) {
    ' ' !in token && (token in s.tokens ==> s.tokens[token] == signed)
  }

  function FirstCall(request: Request): Call {
    match request
    case JoinRequest(stream, code, name, avatarId, ip) =>
      TJoin(JoinCall(JLoadRecord, stream, code, None, 0, Participant("", name, avatarId, ip, Pending, None),
                     None, 0, "", [], 0, Undecided))
    case DecideRequest(stream, participant, allowed) =>
      TDecide(DecideCall(DLoadLive, stream, participant, allowed, 0))
    case NewRequest(cfg) => TNew(NewCall(NPrepare, cfg, "", "", "", 0, Endpoint("", 0), None))
    case PatchRequest(stream, patch) => TPatch(PatchCall(PLoadRecord, stream, patch, None, 0))
    case FinishRequest(stream) => TKill(FirstKill(KCheck, stream))
    case StopRequest => TStop(StopCall(OStart, {}, {}, 0))
    case ListRequest(stream) => TList(ListCall(LLoadLive, stream, {}, 0, [], []))
  }

  function FirstKill(pc: KillPc, stream: Uuid): KillCall {
    KillCall(pc, stream, false, "", None, 0, 0)
  }

  predicate JoinEnabled(s: State, t: CallId, a: JoinAction) {
    match a
    case JoinLoadRecord => JoinAt(s, t, JLoadRecord)
    case JoinLoadLive(id) => JoinAt(s, t, JLoadLive) && id !in s.origins
    case JoinRegister => JoinAt(s, t, JRegister)
    case JoinSwitch => JoinAt(s, t, JSwitch) && s.calls[t].j.snapshot.Some?
    case JoinMint(token) => JoinAt(s, t, JMint) && CanMint(s, token, JoinToken(s.calls[t].j))
    case JoinLoadRoster => JoinAt(s, t, JLoadRoster)
    case JoinStoreRoster => JoinAt(s, t, JStoreRoster)
    case JoinUnregister => JoinAt(s, t, JUnregister)
  }

  predicate DecideEnabled(s: State, t: CallId, a: DecideAction) {
    match a
    case DecideLoadLive => DecideAt(s, t, DLoadLive)
    case DecideLoadPending => DecideAt(s, t, DLoadPending)
  }

  predicate NewEnabled(s: State, t: CallId, a: NewAction) {
    match a
    case NewPrepare(stream, host) =>
      NewAt(s, t, NPrepare) && stream !in s.origins && host !in s.origins && stream != host
    case NewMint(token) => NewAt(s, t, NMint) && CanMint(s, token, HostToken(t, s.calls[t].n))
    case NewStart(_) => NewAt(s, t, NStart)
    case NewDial(_) => NewAt(s, t, NDial)
    case NewAbort => NewAt(s, t, NAbort)
    case NewListen(listener) => NewAt(s, t, NListen) && listener !in s.calls
    case NewCompose => NewAt(s, t, NCompose)
    case NewStoreRecord => NewAt(s, t, NStoreRecord) && s.calls[t].n.info.Some?
    case NewStoreLive => NewAt(s, t, NStoreLive)
  }

  predicate PatchEnabled(s: State, t: CallId, a: PatchAction) {
    match a
    case PatchLoadRecord => PatchAt(s, t, PLoadRecord)
    case PatchLoadLive => PatchAt(s, t, PLoadLive)
    case PatchStoreRecord => PatchAt(s, t, PStoreRecord) && s.calls[t].p.copy.Some?
  }

  predicate KillEnabled(s: State, t: CallId, a: KillAction) {
    match a
    case FinishCheck => KillAt(s, t, KCheck)
    case Interrupt => KillAt(s, t, KAwait)
    case KillLoadLive => KillAt(s, t, KLoadLive)
    case KillStop => KillAt(s, t, KStop)
    case KillDelete => KillAt(s, t, KDelete)
    case KillLoadRecord => KillAt(s, t, KLoadRecord)
    case KillStamp => KillAt(s, t, KStamp)
    case KillStoreRecord => KillAt(s, t, KStoreRecord) && s.calls[t].k.copy.Some?
  }

  /** A range visits each key at most once, and ends when no key that was there from its beginning is unvisited. */
  predicate StopEnabled(s: State, t: CallId, a: StopAction) {
    match a
    case StopRange => StopAt(s, t, OStart)
    case StopVisit(x, kill) => StopAt(s, t, OLoop) && x in s.live && x !in s.calls[t].o.visited && kill !in s.calls
    case StopReturn => StopAt(s, t, OWait) && KillAt(s, s.calls[t].o.kill, KDone)
    case StopEnd => StopAt(s, t, OLoop) && forall x <- s.calls[t].o.range :: x in s.live ==> x in s.calls[t].o.visited
  }

  predicate ListEnabled(s: State, t: CallId, a: ListAction) {
    match a
    case ListLoadLive => ListAt(s, t, LLoadLive)
    case ListRange => ListAt(s, t, LRange)
    case ListVisit(id) =>
      ListAt(s, t, LVisit) && (s.calls[t].l.stream, id) in s.pending && !Lists(s.calls[t].l.found, id)
    case ListRangeEnd =>
      ListAt(s, t, LVisit) &&
      forall id <- s.calls[t].l.range :: (s.calls[t].l.stream, id) in s.pending ==> Lists(s.calls[t].l.found, id)
    case ListLoadRoster => ListAt(s, t, LRoster)
  }

  predicate Enabled(s: State, step: Step) {
    match step
    case Tick(now) => s.clock <= now
    case Begin(t, _) => t !in s.calls
    case ByJoin(t, a) => JoinEnabled(s, t, a)
    case ByDecide(t, a) => DecideEnabled(s, t, a)
    case Rendezvous(t, d) => JoinAt(s, t, JReceive) && DecideAt(s, d, DSend) && s.calls[d].d.channel == t
    case ByNew(t, a) => NewEnabled(s, t, a)
    case ByPatch(t, a) => PatchEnabled(s, t, a)
    case ByKill(t, a) => KillEnabled(s, t, a)
    case ByStop(t, a) => StopEnabled(s, t, a)
    case ByList(t, a) => ListEnabled(s, t, a)
  }

  // ---------- one step: the call moves, and performs at most one shared write ----------

  datatype Write =
    | NoWrite
    | NameParticipant(id: Uuid)
    | PutPending(stream: Uuid, participant: Participant)
    | DropPending(stream: Uuid, id: Uuid)
    | ReleaseDecider(d: CallId)
    | PutToken(token: string, signed: Signed)
    | PutRoster(stream: Uuid, roster: seq<Participant>, joiner: Participant)
    | NameStream(stream: Uuid, host: Uuid)
    | PutProcess(stream: Uuid)
    | StopProcess(stream: Uuid)
    | SpawnKill(kill: CallId, pc: KillPc, stream: Uuid)
    | PutRecord(stream: Uuid, info: StreamInfo, event: Event)
    | PutLive(stream: Uuid, module_: Module)
    | DropLive(stream: Uuid)

  datatype Move = Move(call: Call, write: Write)

  function Sent(c: Call): Call {
    if c.TDecide? then TDecide(c.d.(pc := DSent)) else c
  }

  function CallsAfter(s: State, t: CallId, m: Move): map<CallId, Call> {
    var others := match m.write
      case ReleaseDecider(d) => if d in s.calls then s.calls[d := Sent(s.calls[d])] else s.calls
      case SpawnKill(kill, pc, stream) => s.calls[kill := TKill(FirstKill(pc, stream))]
      case _ => s.calls;
    others[t := m.call]
  }

  function OriginsAfter(s: State, t: CallId, w: Write): map<Uuid, Origin> {
    match w
    case NameParticipant(id) => s.origins[id := OfParticipant(t)]
    case NameStream(stream, host) => s.origins[stream := OfStream(t)][host := OfHost(t)]
    case _ => s.origins
  }

  function PendingAfter(s: State, w: Write): map<(Uuid, Uuid), Participant> {
    match w
    case PutPending(stream, p) => s.pending[(stream, p.uuid) := p]
    case DropPending(stream, id) => s.pending - {(stream, id)}
    case _ => s.pending
  }

  function ProcessesAfter(s: State, w: Write): map<Uuid, nat> {
    match w
    case PutProcess(stream) => s.processes[stream := 0]
    case StopProcess(stream) => s.processes[stream := Stops(s, stream) + 1]
    case _ => s.processes
  }

  function LiveAfter(s: State, w: Write): map<Uuid, Module> {
    match w
    case PutLive(stream, m) => s.live[stream := m]
    case DropLive(stream) => s.live - {stream}
    case _ => s.live
  }

  function EventsAfter(s: State, t: CallId, w: Write): map<Uuid, seq<Event>> {
    match w
    case PutRecord(stream, _, event) => s.events[stream := Events(s, stream) + [event]]
    case PutLive(stream, _) => s.events[stream := Events(s, stream) + [Registered]]
    case DropLive(stream) => s.events[stream := Events(s, stream) + [Deleted(t)]]
    case _ => s.events
  }

  function Perform(s: State, t: CallId, m: Move): State {
    var w := m.write;
    s.(calls := CallsAfter(s, t, m),
       origins := OriginsAfter(s, t, w),
       pending := PendingAfter(s, w),
       tokens := if w.PutToken? then s.tokens[w.token := w.signed] else s.tokens,
       rosters := if w.PutRoster? then s.rosters[w.stream := w.roster] else s.rosters,
       entered := if w.PutRoster? then s.entered[w.stream := Entered(s, w.stream) + [w.joiner]] else s.entered,
       processes := ProcessesAfter(s, w),
       records := if w.PutRecord? then s.records[w.stream := w.info] else s.records,
       live := LiveAfter(s, w),
       events := EventsAfter(s, t, w))
  }

  function JoinMove(s: State, t: CallId, a: JoinAction): Move
    requires JoinEnabled(s, t, a)
  {
    var j := s.calls[t].j;
    match a
    case JoinLoadRecord => Move(TJoin(j.(snapshot := Lookup(s.records, j.stream), pc := JLoadLive)), NoWrite)
    case JoinLoadLive(id) =>
      if j.stream !in s.live || j.snapshot.None? then
        Move(TJoin(j.(result := Refused(StreamNotRunning), pc := JReturned)), NoWrite)
      else
        Move(TJoin(j.(key := s.live[j.stream].key, me := j.me.(uuid := id, channel := Some(t)), pc := JRegister)),
             NameParticipant(id))
    case JoinRegister => Move(TJoin(j.(pc := JSwitch)), PutPending(j.stream, j.me))
    case JoinSwitch => Move(TJoin(AfterSwitch(j, j.snapshot.value.join)), NoWrite)
    case JoinMint(token) =>
      Move(TJoin(j.(token := token, me := j.me.(status := Active), pc := JLoadRoster)), PutToken(token, JoinToken(j)))
    case JoinLoadRoster =>
      Move(TJoin(j.(copy := Roster(s, j.stream), seen := |Entered(s, j.stream)|, pc := JStoreRoster)), NoWrite)
    case JoinStoreRoster =>
      Move(TJoin(j.(result := Admitted, pc := JUnregister)),
           PutRoster(j.stream, j.copy + [Persisted(j.me)], Persisted(j.me)))
    case JoinUnregister => Move(TJoin(j.(pc := JReturned)), DropPending(j.stream, j.me.uuid))
  }

  function AfterSwitch(j: JoinCall, join: JoinInfo): JoinCall {
    match join.policy
    case Auto => j.(pc := JMint)
    case ByCode => if join.code != j.code then j.(result := Refused(InvalidCode), pc := JUnregister) else j.(pc := JMint)
    case HostResolve => j.(pc := JReceive)
    case OtherPolicy(_) => j.(result := Refused(UnknownPolicy), pc := JUnregister)
  }

  /** The value goes through the channel: the join continues with it, the decision returns. */
  function ExchangeMove(j: JoinCall, d: CallId, allowed: bool): Move {
    var j' := j.(received := Some(allowed), decider := d);
    Move(TJoin(if allowed then j'.(pc := JMint) else j'.(result := Denied, pc := JUnregister)), ReleaseDecider(d))
  }

  function DecideMove(s: State, t: CallId, a: DecideAction): Move
    requires DecideEnabled(s, t, a)
  {
    var d := s.calls[t].d;
    match a
    case DecideLoadLive => Move(TDecide(d.(pc := if d.stream in s.live then DLoadPending else DFailed)), NoWrite)
    case DecideLoadPending =>
      var found := Lookup(s.pending, (d.stream, d.participant));
      Move(TDecide(if found.Some? && found.value.channel.Some?
                   then d.(channel := found.value.channel.value, pc := DSend)
                   else d.(pc := DFailed)), NoWrite)
  }

  function NewMove(s: State, t: CallId, a: NewAction): Move
    requires NewEnabled(s, t, a)
  {
    var n := s.calls[t].n;
    match a
    case NewPrepare(stream, host) =>
      var known := LaunchMode(n.cfg) == MODE_STANDALONE || LaunchMode(n.cfg) == MODE_DOCKER;
      Move(TNew(n.(stream := stream, host := host, pc := if known then NMint else NFailed)), NameStream(stream, host))
    case NewMint(token) => Move(TNew(n.(token := token, pc := NStart)), PutToken(token, HostToken(t, n)))
    case NewStart(started) =>
      if started.Some? then Move(TNew(n.(endpoint := started.value, pc := NDial)), PutProcess(n.stream))
      else Move(TNew(n.(pc := NFailed)), NoWrite)
    case NewDial(outcome) => Move(TNew(AfterDial(n, outcome)), NoWrite)
    case NewAbort => Move(TNew(n.(pc := NFailed)), StopProcess(n.stream))
    case NewListen(listener) => Move(TNew(n.(pc := NCompose)), SpawnKill(listener, KAwait, n.stream))
    case NewCompose => Move(TNew(n.(info := Some(Composed(n, s.clock)), pc := NStoreRecord)), NoWrite)
    case NewStoreRecord => Move(TNew(n.(pc := NStoreLive)), PutRecord(n.stream, n.info.value, Created(n.info.value)))
    case NewStoreLive => Move(TNew(n.(pc := NDone)), PutLive(n.stream, Module(t, n.stream)))
  }

  const DIAL_ATTEMPTS: nat := 6

  function AfterDial(n: NewCall, outcome: DialOutcome): NewCall {
    var n' := n.(dials := n.dials + 1);
    match outcome
    case Connected => n'.(pc := NListen)
    case CloseFailed => n'.(pc := NAbort)
    case DialFailed => if n'.dials < DIAL_ATTEMPTS then n' else n'.(pc := NAbort)
  }

  function LaunchMode(cfg: StreamConfig): string {
    if cfg.launchMode == "" then MODE_STANDALONE else cfg.launchMode
  }

  function Composed(n: NewCall, now: Time): StreamInfo {
    StreamInfo(n.stream, n.cfg.name, n.cfg.description, n.endpoint.ip, n.endpoint.port, LaunchMode(n.cfg),
               now, None, n.cfg.subject, STATUS_RUNNING, n.cfg.join,
               HostInfo(n.host, n.cfg.hostName, n.cfg.hostAvatarId, n.cfg.hostIp))
  }

  function JoinToken(j: JoinCall): Signed {
    Signed(j.key, Claims(j.stream, j.me.uuid, false))
  }

  function HostToken(t: CallId, n: NewCall): Signed {
    Signed(t, Claims(n.stream, n.host, true))
  }

  function PatchMove(s: State, t: CallId, a: PatchAction): Move
    requires PatchEnabled(s, t, a)
  {
    var p := s.calls[t].p;
    match a
    case PatchLoadRecord =>
      Move(TPatch(p.(copy := Lookup(s.records, p.stream), seen := |Events(s, p.stream)|, pc := PLoadLive)), NoWrite)
    case PatchLoadLive =>
      Move(TPatch(p.(pc := if p.stream !in s.live || p.copy.None? then PFailed else PStoreRecord)), NoWrite)
    case PatchStoreRecord =>
      Move(TPatch(p.(pc := PDone)), PutRecord(p.stream, ApplyPatch(p.copy.value, p.cfg), Patched(p.seen, p.cfg)))
  }

  function KillMove(s: State, t: CallId, a: KillAction): Move
    requires KillEnabled(s, t, a)
  {
    var k := s.calls[t].k;
    match a
    case FinishCheck => Move(TKill(k.(pc := if k.stream in s.live then KLoadLive else KFailed)), NoWrite)
    case Interrupt => Move(TKill(k.(pc := KLoadLive)), NoWrite)
    case KillLoadLive =>
      Move(TKill(if k.stream in s.live
                 then k.(found := true, process := s.live[k.stream].process, pc := KStop)
                 else k.(pc := KLoadRecord)), NoWrite)
    case KillStop => Move(TKill(k.(pc := KDelete)), StopProcess(k.process))
    case KillDelete => Move(TKill(k.(pc := KLoadRecord)), DropLive(k.stream))
    case KillLoadRecord =>
      Move(TKill(if k.stream in s.records
                 then k.(copy := Some(s.records[k.stream]), seen := |Events(s, k.stream)|, pc := KStamp)
                 else k.(pc := KDone)), NoWrite)
    case KillStamp => Move(TKill(k.(at := s.clock, pc := KStoreRecord)), NoWrite)
    case KillStoreRecord =>
      Move(TKill(k.(pc := KDone)), PutRecord(k.stream, Finish(k.copy.value, k.at), Finished(!k.found, k.seen, k.at)))
  }

  function StopMove(s: State, t: CallId, a: StopAction): Move
    requires StopEnabled(s, t, a)
  {
    var o := s.calls[t].o;
    match a
    case StopRange => Move(TStop(o.(range := s.live.Keys, pc := OLoop)), NoWrite)
    case StopVisit(x, kill) =>
      Move(TStop(o.(visited := o.visited + {x}, kill := kill, pc := OWait)), SpawnKill(kill, KLoadLive, x))
    case StopReturn => Move(TStop(o.(pc := OLoop)), NoWrite)
    case StopEnd => Move(TStop(o.(pc := ODone)), NoWrite)
  }

  function ListMove(s: State, t: CallId, a: ListAction): Move
    requires ListEnabled(s, t, a)
  {
    var l := s.calls[t].l;
    match a
    case ListLoadLive => Move(TList(l.(pc := if l.stream in s.live then LRange else LFailed)), NoWrite)
    case ListRange =>
      Move(TList(l.(range := PendingOn(s.pending, l.stream), entered := |Entered(s, l.stream)|, pc := LVisit)), NoWrite)
    case ListVisit(id) =>
      Move(TList(l.(found := l.found + [Persisted(s.pending[(l.stream, id)])])), NoWrite)
    case ListRangeEnd => Move(TList(l.(pc := LRoster)), NoWrite)
    case ListLoadRoster => Move(TList(l.(roster := Roster(s, l.stream), pc := LDone)), NoWrite)
  }

  function MoveOf(s: State, step: Step): Move
    requires Enabled(s, step) && !step.Tick?
  {
    match step
    case Begin(_, request) => Move(FirstCall(request), NoWrite)
    case ByJoin(t, a) => JoinMove(s, t, a)
    case ByDecide(t, a) => DecideMove(s, t, a)
    case Rendezvous(t, d) => ExchangeMove(s.calls[t].j, d, s.calls[d].d.allowed)
    case ByNew(t, a) => NewMove(s, t, a)
    case ByPatch(t, a) => PatchMove(s, t, a)
    case ByKill(t, a) => KillMove(s, t, a)
    case ByStop(t, a) => StopMove(s, t, a)
    case ByList(t, a) => ListMove(s, t, a)
  }

  function Effect(s: State, step: Step): State
    requires Enabled(s, step)
  {
    if step.Tick? then s.(clock := step.now) else Perform(s, step.t, MoveOf(s, step))
  }

  function Next(s: State, step: Step): Option<State> {
    if Enabled(s, step) then Some(Effect(s, step)) else None
  }

  /** The state after a run from empty storage; None when some step of it was not enabled. */
  function Exec(steps: seq<Step>): Option<State> {
    if steps == [] then Some(INITIAL)
    else match Exec(steps[..|steps| - 1])
      case None => None
      case Some(s) => Next(s, steps[|steps| - 1])
  }
}
