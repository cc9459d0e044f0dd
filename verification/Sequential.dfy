/** What each operation does when nothing interferes, as a function of the shared tables. */
module Sequential {
  import opened Domain
  import opened Protocol

  /** The tables the operations share. */
  datatype World = World(
    records: map<Uuid, StreamInfo>,
    live: map<Uuid, Module>,
    rosters: map<Uuid, seq<Participant>>,
    pending: map<(Uuid, Uuid), Participant>,
    processes: map<Uuid, nat>)

  function WorldOf(s: State): World {
    World(s.records, s.live, s.rosters, s.pending, s.processes)
  }

  function RosterIn(w: World, stream: Uuid): seq<Participant> {
    if stream in w.rosters then w.rosters[stream] else []
  }

  function StoppedOnce(processes: map<Uuid, nat>, process: Uuid): map<Uuid, nat> {
    processes[process := if process in processes then processes[process] + 1 else 1]
  }

  /** killStream */
  function Killed(w: World, stream: Uuid, now: Time): World {
    w.(processes := if stream in w.live then StoppedOnce(w.processes, w.live[stream].process) else w.processes,
       live := w.live - {stream},
       records := if stream in w.records then w.records[stream := Finish(w.records[stream], now)] else w.records)
  }

  /** PatchStream */
  function PatchedIn(w: World, stream: Uuid, cfg: PatchConfig): World {
    w.(records := if stream in w.live && stream in w.records
                  then w.records[stream := ApplyPatch(w.records[stream], cfg)] else w.records)
  }

  /** Every part of a patch that is present is what the record has after it, and all else is as before. */
  predicate TakesEffect(cfg: PatchConfig, was: StreamInfo, now: StreamInfo) {
    && now.name == (if cfg.name.Some? then cfg.name.value else was.name)
    && now.description == (if cfg.description.Some? then cfg.description.value else was.description)
    && now.join == (if cfg.join.Some? then cfg.join.value else was.join)
    && now.host.username == (if cfg.host.Some? then cfg.host.value.username else was.host.username)
    && now.host.avatarId == (if cfg.host.Some? then cfg.host.value.avatarId else was.host.avatarId)
    && now.host.uuid == was.host.uuid && now.host.ip == was.host.ip
    && now.uuid == was.uuid && now.ip == was.ip && now.port == was.port && now.launchMode == was.launchMode
    && now.startedAt == was.startedAt && now.finishedAt == was.finishedAt
    && now.subject == was.subject && now.status == was.status
  }

  /** What JoinParticipant answers; decision is the value the host sends, if it comes to that. */
  function Verdict(w: World, stream: Uuid, code: string, decision: bool): JoinResult {
    if stream !in w.live || stream !in w.records then Refused(StreamNotRunning)
    else
      var join := w.records[stream].join;
      match join.policy
      case Auto => Admitted
      case ByCode => if join.code == code then Admitted else Refused(InvalidCode)
      case HostResolve => if decision then Admitted else Denied
      case OtherPolicy(_) => Refused(UnknownPolicy)
  }

  /** The participant as the roster keeps it. */
  function Entrant(id: Uuid, name: string, avatarId: string, ip: string): Participant {
    Participant(id, name, avatarId, ip, Active, None)
  }

  /** JoinParticipant */
  function JoinedIn(w: World, stream: Uuid, code: string, decision: bool, p: Participant): World {
    w.(rosters := if Verdict(w, stream, code, decision).Admitted?
                  then w.rosters[stream := RosterIn(w, stream) + [p]] else w.rosters)
  }

  /** NewStream: a process that is up and connected gets a record and a live entry. */
  function Opened(w: World, stream: Uuid, host: Uuid, cfg: StreamConfig, key: CallId, endpoint: Endpoint, now: Time): World {
    w.(processes := w.processes[stream := 0],
       records := w.records[stream :=
         StreamInfo(stream, cfg.name, cfg.description, endpoint.ip, endpoint.port,
                    if cfg.launchMode == "" then "standalone_app" else cfg.launchMode, now, None,
                    cfg.subject, STATUS_RUNNING, cfg.join, HostInfo(host, cfg.hostName, cfg.hostAvatarId, cfg.hostIp))],
       live := w.live[stream := Module(key, stream)])
  }

  /** Some dial within the attempts connects, all before it having failed to. */
  predicate Connects(dial: nat -> DialOutcome, attempts: nat) {
    exists i: nat :: i < attempts && dial(i).Connected? && forall k: nat :: k < i ==> dial(k).DialFailed?
  }

  predicate KnownMode(cfg: StreamConfig) {
    cfg.launchMode in {"", "standalone_app", "docker_container"}
  }

  /** NewStream: whether the stream comes up. */
  predicate ComesUp(cfg: StreamConfig, started: Option<Endpoint>, dial: nat -> DialOutcome) {
    KnownMode(cfg) && started.Some? && Connects(dial, 6)
  }

  // ---------- connecting ----------

  /** The dials of a NewStream call, one after the other. */
  function DialAll(n: NewCall, dial: nat -> DialOutcome): NewCall
    decreases DIAL_ATTEMPTS - n.dials
  {
    if n.pc == NDial && n.dials < DIAL_ATTEMPTS then DialAll(AfterDial(n, dial(n.dials)), dial) else n
  }

  /** The call goes on to listen if a dial connects, and gives its process up otherwise. */
  lemma {:induction false} DialAllConnects(n: NewCall, dial: nat -> DialOutcome)
    requires n.pc == NDial && n.dials < 6 && forall k: nat :: k < n.dials ==> dial(k).DialFailed?
    ensures DialAll(n, dial).pc == if Connects(dial, 6) then NListen else NAbort
    decreases DIAL_ATTEMPTS - n.dials
  {
    var n' := AfterDial(n, dial(n.dials));
    if n'.pc == NDial { DialAllConnects(n', dial); }
  }

  // ---------- killStream run twice ----------

  /** Killing again moves the finishing time, and changes nothing else. */
  lemma KillIsIdempotent(w: World, stream: Uuid, now: Time, later: Time)
    ensures var once := Killed(w, stream, now);
            Killed(once, stream, later)
            == if stream in once.records
               then once.(records := once.records[stream := once.records[stream].(finishedAt := Some(later))])
               else once
  {
    var once := Killed(w, stream, now);
    assert once.live - {stream} == once.live;
  }

  // ---------- Stop ----------

  /** killStream of one stream after the other. */
  function KilledAll(w: World, order: seq<Uuid>, times: seq<Time>): World
    requires |order| == |times|
  {
    if order == [] then w
    else Killed(KilledAll(w, order[..|order| - 1], times[..|order| - 1]), order[|order| - 1], times[|order| - 1])
  }

  lemma {:induction false} KilledAllKills(w: World, order: seq<Uuid>, times: seq<Time>, x: Uuid)
    requires |order| == |times|
    ensures var w' := KilledAll(w, order, times);
            && (x in w'.live <==> x in w.live && x !in order)
            && (x in w'.records <==> x in w.records)
            && (x in w.records && x in order ==> w'.records[x].status == STATUS_FINISHED)
            && (x in w.records && x !in order ==> w'.records[x] == w.records[x])
  {
    if order != [] {
      var n := |order| - 1;
      KilledAllKills(w, order[..n], times[..n], x);
      assert order == order[..n] + [order[n]];
    }
  }

  /** Every record runs exactly when its stream is live. */
  predicate AtRest(w: World) {
    && (forall x <- w.live :: x in w.records)
    && (forall x <- w.records :: w.records[x].status == STATUS_RUNNING <==> x in w.live)
    && (forall x <- w.records :: w.records[x].status == STATUS_RUNNING || w.records[x].status == STATUS_FINISHED)
  }

  predicate AllOver(w: World) {
    w.live == map[] && forall x <- w.records :: w.records[x].status == STATUS_FINISHED
  }

  /** Stop, from tables at rest, ends with no live stream and every record finished. */
  lemma StopEndsAll(w: World, order: seq<Uuid>, times: seq<Time>)
    requires |order| == |times| && AtRest(w) && forall x <- w.live :: x in order
    ensures AllOver(KilledAll(w, order, times))
  {
    var w' := KilledAll(w, order, times);
    forall x ensures x !in w'.live { KilledAllKills(w, order, times, x); }
    forall x <- w'.records ensures w'.records[x].status == STATUS_FINISHED { KilledAllKills(w, order, times, x); }
  }
}
