/** The server object, its operations written as they are and run one at a time. */
module Server {
  import opened Domain
  import opened Storage
  import opened Protocol
  import opened Sequential

  datatype PatchParticipantConfig = PatchParticipantConfig(name: Option<string>, avatarId: Option<string>)

  /** Dials until an attempt gets through; what counts then is whether that connection also closes. */
  method ConnectToStream(dial: nat -> DialOutcome, tryCount: nat) returns (ok: bool, dials: nat)
    ensures ok <==> Connects(dial, tryCount)
    ensures dials <= tryCount && forall k: nat :: k + 1 < dials ==> dial(k).DialFailed?
    ensures !ok && dials < tryCount ==> dials > 0 && dial(dials - 1).CloseFailed?
  {
    dials := 0;
    for i := 0 to tryCount
      invariant dials == i && forall k: nat :: k < i ==> dial(k).DialFailed?
    {
      dials := dials + 1;
      var outcome := dial(i);
      if !outcome.DialFailed? {
        return outcome.Connected?, dials;
      }
    }
    return false, dials;
  }

  class Server {
    const streamStorage: Bucket<StreamInfo>
    const participantStorage: Bucket<seq<Participant>>
    var streams: map<Uuid, Module>
    var pendingParticipants: map<(Uuid, Uuid), Participant>
    var processes: map<Uuid, nat>
    var clock: Time

    ghost predicate Valid()
      reads this, streamStorage, participantStorage
    {
      && streamStorage as object != participantStorage as object
      && streamStorage as object != this && participantStorage as object != this
      && streamStorage.Valid() && participantStorage.Valid()
    }

    ghost function Tables(): World
      reads this, streamStorage, participantStorage
    {
      World(streamStorage.Contents(), streams, participantStorage.Contents(), pendingParticipants, processes)
    }

    constructor ()
      ensures Valid() && Tables() == World(map[], map[], map[], map[], map[])
    {
      streamStorage := new Bucket();
      participantStorage := new Bucket();
      streams, pendingParticipants, processes := map[], map[], map[];
      clock := 0;
    }

    /** Time passes; it does not run backwards. */
    method Now() returns (now: Time)
      modifies `clock
      ensures now == clock >= old(clock)
    {
      var later: nat :| true;
      clock := clock + later;
      now := clock;
    }

    method KillStream(stream: Uuid)
      requires Valid()
      modifies this, streamStorage
      ensures Valid() && clock >= old(clock)
      ensures Tables() == Killed(old(Tables()), stream, clock)
      ensures Tables().records == if stream in old(Tables()).records
                                  then old(Tables()).records[stream :=
                                    old(Tables()).records[stream].(status := "finished", finishedAt := Some(clock))]
                                  else old(Tables()).records
    {
      if stream in streams {
        processes := StoppedOnce(processes, streams[stream].process);
        streams := streams - {stream};
      }
      assert streams == old(streams) - {stream};
      var info := streamStorage.Load(stream);
      if info.None? {
        return;
      }
      var now := Now();
      streamStorage.Store(stream, Finish(info.value, now));
    }

    method FinishStream(stream: Uuid) returns (ok: bool)
      requires Valid()
      modifies this, streamStorage
      ensures Valid() && ok == (stream in old(streams))
      ensures Tables() == if ok then Killed(old(Tables()), stream, clock) else old(Tables())
    {
      if stream !in streams {
        return false;
      }
      KillStream(stream);
      return true;
    }

    /** Kills the live streams in whatever order the map gives them. */
    method Stop()
      requires Valid()
      modifies this, streamStorage
      ensures Valid()
      ensures exists order: seq<Uuid>, times: seq<Time> ::
                |order| == |times| && (forall x :: x in order <==> x in old(streams))
                && Tables() == KilledAll(old(Tables()), order, times)
      ensures AtRest(old(Tables())) ==> AllOver(Tables())
    {
      var todo := streams.Keys;
      ghost var order: seq<Uuid>, times: seq<Time> := [], [];
      while todo != {}
        invariant Valid() && |order| == |times|
        invariant forall x :: x in old(streams) <==> x in todo || x in order
        invariant Tables() == KilledAll(old(Tables()), order, times)
      {
        var x :| x in todo;
        KillStream(x);
        AppendKill(old(Tables()), order, times, x, clock);
        order, times := order + [x], times + [clock];
        todo := todo - {x};
      }
      if AtRest(old(Tables())) { StopEndsAll(old(Tables()), order, times); }
    }

    method PatchStream(stream: Uuid, cfg: PatchConfig) returns (patched: Option<StreamInfo>)
      requires Valid()
      modifies streamStorage
      ensures Valid() && Tables() == PatchedIn(old(Tables()), stream, cfg)
      ensures patched == if stream in old(streams) then Lookup(streamStorage.Contents(), stream) else None
      ensures patched.Some? <==> stream in streams && stream in old(Tables()).records
      ensures patched.Some? ==>
                && TakesEffect(cfg, old(Tables()).records[stream], patched.value)
                && Tables().records == old(Tables()).records[stream := patched.value]
    {
      var loaded := streamStorage.Load(stream);
      if stream !in streams || loaded.None? {
        return None;
      }
      var info := loaded.value;
      if cfg.name.Some? {
        info := info.(name := cfg.name.value);
      }
      if cfg.description.Some? {
        info := info.(description := cfg.description.value);
      }
      if cfg.join.Some? {
        info := info.(join := cfg.join.value);
      }
      if cfg.host.Some? {
        info := info.(host := info.host.(username := cfg.host.value.username, avatarId := cfg.host.value.avatarId));
      }
      streamStorage.Store(stream, info);
      return Some(info);
    }

    /** Starts the process and connects to it; a process that cannot be connected to is stopped. */
    method StartStreamAndConnect(stream: Uuid, started: Option<Endpoint>, dial: nat -> DialOutcome)
      returns (endpoint: Option<Endpoint>)
      requires Valid() && stream !in processes
      modifies `processes
      ensures endpoint == if Connects(dial, 6) then started else None
      ensures processes == if started.None? then old(processes)
                           else old(processes)[stream := if Connects(dial, 6) then 0 else 1]
    {
      if started.None? {
        return None;
      }
      processes := processes[stream := 0];
      var connected, _ := ConnectToStream(dial, DIAL_ATTEMPTS);
      if !connected {
        processes := StoppedOnce(processes, stream);
        return None;
      }
      return started;
    }

    /** stream and host are the UUIDs this call generates, key its key pair. */
    method NewStream(cfg: StreamConfig, stream: Uuid, host: Uuid, key: CallId,
                     started: Option<Endpoint>, dial: nat -> DialOutcome)
      returns (token: Option<Signed>)
      requires Valid() && stream !in processes
      modifies this, streamStorage
      ensures Valid() && clock >= old(clock)
      ensures token == if ComesUp(cfg, started, dial) then Some(Signed(key, Claims(stream, host, true))) else None
      ensures token.Some? ==> Tables() == Opened(old(Tables()), stream, host, cfg, key, started.value, clock)
      ensures token.None? ==> Tables() == old(Tables()).(processes := processes)
      ensures token.None? ==>
                processes == if started.Some? && KnownMode(cfg)
                             then old(processes)[stream := 1] else old(processes)
    {
      var mode := cfg.launchMode;
      if mode == "" {
        mode := MODE_STANDALONE;
      }
      if mode != MODE_STANDALONE && mode != MODE_DOCKER {
        return None;
      }
      var minted := Signed(key, Claims(stream, host, true));
      var startInfo := StartStreamAndConnect(stream, started, dial);
      if startInfo.None? {
        return None;
      }
      var now := Now();
      var info := StreamInfo(stream, cfg.name, cfg.description, startInfo.value.ip, startInfo.value.port, mode,
                             now, None, cfg.subject, STATUS_RUNNING, cfg.join,
                             HostInfo(host, cfg.hostName, cfg.hostAvatarId, cfg.hostIp));
      streamStorage.Store(stream, info);
      streams := streams[stream := Module(key, stream)];
      return Some(minted);
    }

    /** id is the UUID this call generates; decision is what comes through its channel if it waits for the host. */
    method JoinParticipant(stream: Uuid, code: string, name: string, avatarId: string, ip: string,
                           id: Uuid, join: CallId, decision: bool)
      returns (result: JoinResult, token: Option<Signed>)
      requires Valid() && (stream, id) !in pendingParticipants
      modifies `pendingParticipants, participantStorage
      ensures Valid() && result == Verdict(old(Tables()), stream, code, decision)
      ensures Tables() == JoinedIn(old(Tables()), stream, code, decision, Entrant(id, name, avatarId, ip))
      ensures token == if result.Admitted? then Some(Signed(streams[stream].key, Claims(stream, id, false))) else None
    {
      var loaded := streamStorage.Load(stream);
      if stream !in streams || loaded.None? {
        return Refused(StreamNotRunning), None;
      }
      var info := loaded.value;
      var pInfo := Participant(id, name, avatarId, ip, Pending, Some(join));
      pendingParticipants := pendingParticipants[(stream, id) := pInfo];
      result, token := Decide(stream, info, code, pInfo, decision);
      pendingParticipants := pendingParticipants - {(stream, id)};
      assert pendingParticipants == old(pendingParticipants);
    }

    /** JoinParticipant between the registration and the deferred delete. */
    method Decide(stream: Uuid, info: StreamInfo, code: string, p: Participant, decision: bool)
      returns (result: JoinResult, token: Option<Signed>)
      requires Valid() && stream in streams && Lookup(streamStorage.Contents(), stream) == Some(info)
      modifies participantStorage
      ensures Valid() && result == Verdict(old(Tables()), stream, code, decision)
      ensures Tables() == JoinedIn(old(Tables()), stream, code, decision, Persisted(p.(status := Active)))
      ensures token == if result.Admitted? then Some(Signed(streams[stream].key, Claims(stream, p.uuid, false))) else None
    {
      var joinAllowed := false;
      match info.join.policy {
        case Auto =>
          joinAllowed := true;
        case ByCode =>
          if info.join.code != code {
            return Refused(InvalidCode), None;
          }
          joinAllowed := true;
        case HostResolve =>
          joinAllowed := decision;
        case OtherPolicy(_) =>
          return Refused(UnknownPolicy), None;
      }
      if !joinAllowed {
        return Denied, None;
      }

      token := Some(Signed(streams[stream].key, Claims(stream, p.uuid, false)));
      var pInfo := p.(status := Active);
      var participants: seq<Participant> := [];
      var loaded := participantStorage.Load(stream);
      if loaded.Some? {
        participants := loaded.value;
      }
      participants := participants + [Persisted(pInfo)];
      participantStorage.Store(stream, participants);
      return Admitted, token;
    }

    /** The pending participants, in whatever order the map gives them, then the roster. */
    method StreamParticipants(stream: Uuid) returns (participants: Option<seq<Participant>>)
      requires Valid()
      ensures participants.None? <==> stream !in streams
      ensures participants.Some? ==>
                exists ids :: ListsPending(pendingParticipants, stream, ids)
                           && participants.value == Shown(pendingParticipants, stream, ids) + RosterIn(Tables(), stream)
                           && |Shown(pendingParticipants, stream, ids)| == |ids|
                           && forall i :: 0 <= i < |ids| ==>
                                Shown(pendingParticipants, stream, ids)[i]
                                == pendingParticipants[(stream, ids[i])].(channel := None)
      ensures participants.Some? && PendingOn(pendingParticipants, stream) == {} ==>
                participants.value == RosterIn(Tables(), stream)
    {
      if stream !in streams {
        return None;
      }
      var found, ids := RangePending(stream);
      var stored := participantStorage.Load(stream);
      if stored.Some? {
        found := found + stored.value;
      }
      ShownAt(pendingParticipants, stream, ids);
      assert ids != [] ==> ids[0] in ids;
      assert forall id :: (stream, id) in pendingParticipants ==> id in PendingOn(pendingParticipants, stream);
      return Some(found);
    }

    /** The range over the pending map. */
    method RangePending(stream: Uuid) returns (found: seq<Participant>, ghost ids: seq<Uuid>)
      ensures ListsPending(pendingParticipants, stream, ids) && found == Shown(pendingParticipants, stream, ids)
    {
      found, ids := [], [];
      var todo := set k | k in pendingParticipants && k.0 == stream;
      while todo != {}
        invariant forall k <- todo :: k in pendingParticipants && k.0 == stream
        invariant forall k <- pendingParticipants :: k.0 == stream ==> k in todo || k.1 in ids
        invariant forall id <- ids :: (stream, id) in pendingParticipants && (stream, id) !in todo
        invariant forall i, k :: 0 <= i < k < |ids| ==> ids[i] != ids[k]
        invariant found == Shown(pendingParticipants, stream, ids)
      {
        var k :| k in todo;
        found := found + [Persisted(pendingParticipants[k])];
        ids := ids + [k.1];
        todo := todo - {k};
      }
    }

    /** Finds the participant in its own copy of the roster, patches it there and returns it. Nothing is stored. */
    method PatchParticipant(stream: Uuid, participant: Uuid, cfg: PatchParticipantConfig)
      returns (patched: Option<Participant>)
      requires Valid()
      ensures patched.Some? <==> stream in streams && exists p <- RosterIn(Tables(), stream) :: p.uuid == participant
      ensures patched.Some? ==>
                exists i :: 0 <= i < |RosterIn(Tables(), stream)| && IsFirst(RosterIn(Tables(), stream), participant, i)
                         && var p := RosterIn(Tables(), stream)[i];
                            && patched.value.name == (if cfg.name.Some? then cfg.name.value else p.name)
                            && patched.value.avatarId == (if cfg.avatarId.Some? then cfg.avatarId.value else p.avatarId)
                            && patched.value.uuid == p.uuid && patched.value.ip == p.ip
                            && patched.value.status == p.status && patched.value.channel == p.channel
    {
      if stream !in streams {
        return None;
      }
      var loaded := participantStorage.Load(stream);
      if loaded.None? {
        return None;
      }
      var participants := loaded.value;
      for i := 0 to |participants|
        invariant forall k :: 0 <= k < i ==> participants[k].uuid != participant
      {
        if participants[i].uuid == participant {
          var p := participants[i];
          if cfg.avatarId.Some? {
            p := p.(avatarId := cfg.avatarId.value);
          }
          if cfg.name.Some? {
            p := p.(name := cfg.name.value);
          }
          assert IsFirst(participants, participant, i);
          return Some(p);
        }
      }
      return None;
    }
  }

  /** ids names each pending participant of the stream once. */
  ghost predicate ListsPending(pending: map<(Uuid, Uuid), Participant>, stream: Uuid, ids: seq<Uuid>) {
    && (forall id :: id in ids <==> (stream, id) in pending)
    && (forall i, k :: 0 <= i < k < |ids| ==> ids[i] != ids[k])
  }

  function Shown(pending: map<(Uuid, Uuid), Participant>, stream: Uuid, ids: seq<Uuid>): seq<Participant> {
    if ids == [] then []
    else
      var k := (stream, ids[|ids| - 1]);
      Shown(pending, stream, ids[..|ids| - 1]) + if k in pending then [Persisted(pending[k])] else []
  }

  /** One for each, in order, without its channel. */
  lemma {:induction false} ShownAt(pending: map<(Uuid, Uuid), Participant>, stream: Uuid, ids: seq<Uuid>)
    requires forall id <- ids :: (stream, id) in pending
    ensures |Shown(pending, stream, ids)| == |ids|
    ensures forall i :: 0 <= i < |ids| ==>
              Shown(pending, stream, ids)[i] == pending[(stream, ids[i])].(channel := None)
  {
    if ids != [] { ShownAt(pending, stream, ids[..|ids| - 1]); }
  }

  predicate IsFirst(ps: seq<Participant>, participant: Uuid, i: nat) {
    i < |ps| && ps[i].uuid == participant && forall k :: 0 <= k < i ==> ps[k].uuid != participant
  }

  lemma AppendKill(w: World, order: seq<Uuid>, times: seq<Time>, x: Uuid, now: Time)
    requires |order| == |times|
    ensures KilledAll(w, order + [x], times + [now]) == Killed(KilledAll(w, order, times), x, now)
  {
    assert (order + [x])[..|order|] == order && (times + [now])[..|times|] == times;
  }
}
