/** The entities of the code-cord server.

    A Go string is the sequence of its bytes; a byte is written as the character with the same code.
    Optional values (a nil pointer, a missing map entry) are Option values. */
module Domain {
  type Uuid = string

  /** One running call of a server operation (a goroutine). */
  type CallId = nat

  /** Instants of the server's clock. */
  type Time = int

  datatype Option<+T> = None | Some(value: T)

  function Lookup<K, V>(m: map<K, V>, k: K): Option<V> {
    if k in m then Some(m[k]) else None
  }

  // service/stream.go: launch modes and stream statuses
  const MODE_STANDALONE := "standalone_app"
  const MODE_DOCKER := "docker_container"
  const STATUS_RUNNING := "running"
  const STATUS_FINISHED := "finished"

  /** A join policy: the strings "auto", "by_code" and "host_resolve", or any other string. */
  datatype JoinPolicy = Auto | ByCode | HostResolve | OtherPolicy(text: string)

  datatype JoinInfo = JoinInfo(code: string, policy: JoinPolicy)

  datatype HostInfo = HostInfo(uuid: Uuid, username: string, avatarId: string, ip: string)

  /** The record a stream has in storage. */
  datatype StreamInfo = StreamInfo(
    uuid: Uuid,
    name: string,
    description: string,
    ip: string,
    port: int,
    launchMode: string,
    startedAt: Time,
    finishedAt: Option<Time>,
    subject: string,
    status: string,
    join: JoinInfo,
    host: HostInfo)

  datatype ParticipantStatus = Active | Blocked | Pending

  /** A participant. The channel on which its join waits for the host is named after that join;
      it is not part of what storage keeps. */
  datatype Participant = Participant(
    uuid: Uuid,
    name: string,
    avatarId: string,
    ip: string,
    status: ParticipantStatus,
    channel: Option<CallId>)

  /** What encoding a participant keeps: everything but the channel. */
  function Persisted(p: Participant): Participant {
    p.(channel := None)
  }

  datatype StreamConfig = StreamConfig(
    name: string,
    description: string,
    subject: string,
    join: JoinInfo,
    launchMode: string,
    hostName: string,
    hostAvatarId: string,
    hostIp: string)

  datatype HostPatch = HostPatch(username: string, avatarId: string)

  datatype PatchConfig = PatchConfig(
    name: Option<string>,
    description: Option<string>,
    join: Option<JoinInfo>,
    host: Option<HostPatch>)

  function ApplyPatch(info: StreamInfo, cfg: PatchConfig): StreamInfo {
    info.(
      name := if cfg.name.Some? then cfg.name.value else info.name,
      description := if cfg.description.Some? then cfg.description.value else info.description,
      join := if cfg.join.Some? then cfg.join.value else info.join,
      host := if cfg.host.Some?
              then info.host.(username := cfg.host.value.username, avatarId := cfg.host.value.avatarId)
              else info.host)
  }

  function Finish(info: StreamInfo, now: Time): StreamInfo {
    info.(finishedAt := Some(now), status := STATUS_FINISHED)
  }

  /** The part of a record that no operation may change once the record is written. */
  datatype Identity = Identity(
    uuid: Uuid, ip: string, port: int, launchMode: string,
    startedAt: Time, subject: string, hostUuid: Uuid, hostIp: string)

  function IdentityOf(info: StreamInfo): Identity {
    Identity(info.uuid, info.ip, info.port, info.launchMode,
             info.startedAt, info.subject, info.host.uuid, info.host.ip)
  }

  /** The two states a record can be in, and when. */
  predicate ConsistentStatus(info: StreamInfo) {
    || (info.status == STATUS_RUNNING && info.finishedAt.None?)
    || (info.status == STATUS_FINISHED && info.finishedAt.Some? && info.startedAt <= info.finishedAt.value)
  }

  /** A signed access token's content: section 4 of RFC 7519 calls these the claims. */
  datatype Claims = Claims(stream: Uuid, participant: Uuid, host: bool)

  /** An ideal signature: the claims together with the key pair that signed them.
      A key pair is named after the NewStream call that generated it. */
  datatype Signed = Signed(key: CallId, claims: Claims)

  /** An entry of the live table. */
  datatype Module = Module(key: CallId, process: Uuid)
}
