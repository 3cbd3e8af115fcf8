/** The vocabulary shared by the server and the desktop client: what travels
    over the gateway and what a room looks like on the wire. */
module Protocol {

  datatype Option<+T> = None | Some(value: T) {
    function GetOr(default: T): T {
      if Some? then value else default
    }
  }

  type UserId = string
  type SessionId = nat
  type ChannelId = int
  type Timestamp = int

  /** What a publication carries: a screen, or a face. */
  datatype Source = Screen | Camera

  datatype Publication = Publication(source: Source, since: Timestamp)

  datatype UserSummary = UserSummary(id: UserId, name: string)

  datatype RoomParticipant = RoomParticipant(user: UserSummary, publications: seq<Publication>)

  datatype RoomState = RoomState(
    channel: ChannelId, guild: int, name: string, participants: seq<RoomParticipant>)

  datatype LeaveReason = Left | AccessRevoked | ReplicaStale

  /** The dispatch events that exist in the protocol. */
  datatype Event =
    | Ready(sessionId: SessionId, room: Option<RoomState>)
    | Resumed(replayed: nat)
    | RoomJoin(state: RoomState)
    | RoomLeave(channel: ChannelId, reason: LeaveReason)
    | ParticipantAdd(channel: ChannelId, participant: RoomParticipant)
    | ParticipantRemove(channel: ChannelId, user: UserId)
    | ShareStart(channel: ChannelId, user: UserId, source: Source, startedAt: Timestamp)
    | ShareStop(channel: ChannelId, user: UserId, source: Source)

  /** One numbered dispatch. */
  datatype Frame = Frame(s: nat, event: Event)

  /** Everything the server can put on a socket. */
  datatype Message =
    | Hello
    | Dispatch(frame: Frame)
    | HeartbeatAck
    | InvalidSession
    | Reconnect

  /** Everything a client can put on a socket. */
  datatype Request =
    | Identify
    | Resume(sessionId: SessionId, lastSeq: nat)
    | Heartbeat

  // Close codes, in the private range of section 7.4.2 of RFC 6455.
  const CLOSE_AUTH_FAILED := 4001
  const CLOSE_MALFORMED := 4002
  const CLOSE_IDENTIFY_TIMEOUT := 4003
  const CLOSE_SESSION_TAKEN := 4004
  const CLOSE_OUTDATED_CLIENT := 4010
}
