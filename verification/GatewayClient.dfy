/** The desktop side of the gateway: what one client remembers between sockets
    and how every frame, close and timer changes it. */
module GatewayClients {
  import opened Protocol

  /** The part of the client that outlives a socket. `applied` is what has been
      handed to the room store since the last READY. */
  datatype Memory = Memory(sessionId: Option<SessionId>, lastSeq: nat, applied: seq<Event>)

  const BLANK := Memory(None, 0, [])

  function OnDispatch(m: Memory, frame: Frame): Memory {
    match frame.event
    case Ready(id, _) => Memory(Some(id), frame.s, [frame.event])
    case _ => m.(lastSeq := frame.s, applied := m.applied + [frame.event])
  }

  function Forgotten(m: Memory): Memory {
    m.(sessionId := None, lastSeq := 0)
  }

  /** Codes after which the session cannot be resumed. */
  predicate EndsSession(code: int) {
    code == CLOSE_AUTH_FAILED || code == CLOSE_MALFORMED
    || code == CLOSE_IDENTIFY_TIMEOUT || code == CLOSE_SESSION_TAKEN
  }

  function OnClose(m: Memory, code: int): Memory {
    if EndsSession(code) then Forgotten(m) else m
  }

  /** What goes back when HELLO arrives: a session we still remember is resumed
      from the last number seen. */
  function Greeting(m: Memory): Request {
    if m.sessionId.Some? then Resume(m.sessionId.value, m.lastSeq) else Identify
  }

  datatype Status = Idle | Connecting | Identifying | Resuming | ReadyToUse | Reconnecting | Closed

  const MAX_MISSED_ACKS := 2
  const SESSION_STABLE_MS := 60_000

  class GatewayClient {
    var memory: Memory
    var status: Status
    /** A socket is attached; what was written to it; whether we asked to close it. */
    var socket: bool
    var sent: seq<Request>
    var closing: bool
    var stopped: bool
    var attempt: nat
    var missedAcks: nat
    var readyAt: Option<Timestamp>
    var reconnectNow: bool
    var heartbeatTimer: bool
    var retryTimer: bool

    /** Never stranded: a client that was not stopped is either on a socket or
        waiting to open one, never both; a stopped one holds neither. */
    ghost predicate Valid()
      reads this
    {
      && (stopped ==> !socket && !retryTimer)
      && (!stopped ==> socket != retryTimer)
      && (heartbeatTimer ==> socket)
      && (stopped <==> status.Idle? || status.Closed?)
      && (status.Reconnecting? <==> retryTimer)
      && missedAcks <= MAX_MISSED_ACKS
    }

    constructor ()
      ensures Valid() && memory == BLANK && stopped && status == Idle
    {
      memory, status := BLANK, Idle;
      socket, sent, closing := false, [], false;
      stopped, attempt, missedAcks := true, 0, 0;
      readyAt, reconnectNow := None, false;
      heartbeatTimer, retryTimer := false, false;
    }

    /** A second start is ignored; a start without a token stops again at once. */
    method Start(token: bool)
      requires Valid()
      modifies this
      ensures Valid()
      ensures memory == old(memory)
      ensures old(stopped) ==> stopped == !token && socket == token && attempt == 0
      ensures old(stopped) && token ==> status == Connecting && sent == [] && missedAcks == 0
      ensures old(stopped) && !token ==> status == Closed
      ensures !old(stopped) ==> unchanged(this)
    {
      if !stopped {
        return;
      }
      stopped := false;
      attempt := 0;
      Open(token);
    }

    method Open(token: bool)
      requires !stopped && !socket && !retryTimer && !heartbeatTimer && missedAcks <= MAX_MISSED_ACKS
      modifies this
      ensures Valid()
      ensures memory == old(memory) && attempt == old(attempt)
      ensures stopped == !token && socket == token
      ensures !token ==> status == Closed
      ensures token ==> status == Connecting && sent == [] && missedAcks == 0
    {
      if !token {
        stopped := true;
        status := Closed;
        return;
      }
      missedAcks := 0;
      status := Connecting;
      socket, sent, closing := true, [], false;
    }

    method Stop()
      requires Valid()
      modifies this
      ensures Valid()
      ensures stopped && memory == Forgotten(old(memory))
      ensures status == Closed && !socket && !heartbeatTimer && !retryTimer && readyAt == None
    {
      stopped := true;
      heartbeatTimer := false;
      retryTimer := false;
      memory := memory.(sessionId := None, lastSeq := 0);
      readyAt := None;
      socket := false;
      status := Closed;
    }

    /** One server frame. Only a dispatch or an invalid session touches what is
        remembered, and only the handshake frames are answered. */
    method HandleFrame(m: Message, token: bool, now: Timestamp)
      requires Valid() && socket
      modifies this
      ensures Valid() && socket && stopped == old(stopped)
      ensures memory == match m
                        case Dispatch(frame) => OnDispatch(old(memory), frame)
                        case InvalidSession => Memory(None, 0, old(memory).applied)
                        case _ => old(memory)
      ensures sent == old(sent) +
                      match m
                      case Hello =>
                        if !token then []
                        else if old(memory).sessionId.None? then [Identify]
                        else [Resume(old(memory).sessionId.value, old(memory).lastSeq)]
                      case InvalidSession => if token then [Identify] else []
                      case _ => []
      ensures status ==
                if m.Dispatch? && (m.frame.event.Ready? || m.frame.event.Resumed?) then ReadyToUse
                else if sent == old(sent) then old(status)
                else if m.Hello? && old(memory).sessionId.Some? then Resuming
                else Identifying
      ensures readyAt == if m.Dispatch? && (m.frame.event.Ready? || m.frame.event.Resumed?) then Some(now)
                         else old(readyAt)
      ensures missedAcks == if m.Hello? || m.HeartbeatAck? then 0 else old(missedAcks)
      ensures heartbeatTimer == (old(heartbeatTimer) || m.Hello?)
      ensures reconnectNow == (old(reconnectNow) || m.Reconnect?) && attempt == old(attempt)
      ensures closing == (old(closing) || m.Reconnect?
                          || (!token && (m.InvalidSession? || (m.Hello? && old(memory).sessionId.None?))))
    {
      match m {
        case Hello =>
          missedAcks := 0;
          if memory.sessionId.Some? {
            if token {
              sent := sent + [Resume(memory.sessionId.value, memory.lastSeq)];
              status := Resuming;
            }
          } else {
            SendIdentify(token);
          }
          heartbeatTimer := true;
        case Dispatch(frame) =>
          memory := memory.(lastSeq := frame.s);
          if frame.event.Ready? {
            memory := memory.(sessionId := Some(frame.event.sessionId), applied := []);
            readyAt := Some(now);
            status := ReadyToUse;
          } else if frame.event.Resumed? {
            readyAt := Some(now);
            status := ReadyToUse;
          }
          memory := memory.(applied := memory.applied + [frame.event]);
        case HeartbeatAck =>
          missedAcks := 0;
        case InvalidSession =>
          memory := memory.(sessionId := None, lastSeq := 0);
          SendIdentify(token);
        case Reconnect =>
          reconnectNow := true;
          closing := true;
      }
    }

    method SendIdentify(token: bool)
      requires Valid() && socket
      modifies this`sent, this`status, this`closing
      ensures Valid()
      ensures sent == old(sent) + if token then [Identify] else []
      ensures closing == (old(closing) || !token) && status == if token then Identifying else old(status)
    {
      if !token {
        closing := true;
        return;
      }
      sent := sent + [Identify];
      status := Identifying;
    }

    /** Losing the socket. The session survives unless the code says otherwise,
        and unless the code is fatal a retry is already scheduled. */
    method HandleClose(code: int, now: Timestamp)
      requires Valid() && socket
      modifies this
      ensures Valid() && !socket
      ensures memory == OnClose(old(memory), code)
      ensures code == 4001 || code == 4002 || code == 4003 || code == 4004 ==>
                memory.sessionId == None && memory.lastSeq == 0
      ensures code != 4001 && code != 4002 && code != 4003 && code != 4004 ==> memory == old(memory)
      ensures stopped <==> code == 4001 || code == 4010
      ensures stopped ==> status == Closed && !retryTimer
      ensures !stopped ==> status == Reconnecting && retryTimer
      ensures !stopped ==>
                && readyAt == None && !reconnectNow
                && var settled := old(readyAt).Some? && now - old(readyAt).value > 60_000;
                   attempt == (if settled then 0 else old(attempt)) + if old(reconnectNow) then 0 else 1
    {
      heartbeatTimer := false;
      socket := false;
      if code == CLOSE_OUTDATED_CLIENT {
        stopped := true;
        status := Closed;
        return;
      }
      if code == CLOSE_AUTH_FAILED {
        stopped := true;
        memory := memory.(sessionId := None, lastSeq := 0);
        status := Closed;
        return;
      }
      if code == CLOSE_MALFORMED || code == CLOSE_IDENTIFY_TIMEOUT || code == CLOSE_SESSION_TAKEN {
        memory := memory.(sessionId := None, lastSeq := 0);
      }
      if readyAt.Some? && now - readyAt.value > SESSION_STABLE_MS {
        attempt := 0;
      }
      readyAt := None;
      if reconnectNow {
        reconnectNow := false;
      } else {
        attempt := attempt + 1;
      }
      status := Reconnecting;
      retryTimer := true;
    }

    method RetryFires(token: bool)
      requires Valid() && retryTimer
      modifies this
      ensures Valid()
      ensures memory == old(memory) && attempt == old(attempt)
      ensures stopped == !token && socket == token
      ensures token ==> status == Connecting && sent == [] && missedAcks == 0
      ensures !token ==> status == Closed
    {
      retryTimer := false;
      if !stopped {
        Open(token);
      }
    }

    /** The heartbeat timer. Two unanswered beats in a row close the socket. */
    method Beat()
      requires Valid() && heartbeatTimer
      modifies this
      ensures Valid() && memory == old(memory)
      ensures socket && status == old(status) && attempt == old(attempt)
      ensures heartbeatTimer == (old(missedAcks) < 2)
      ensures old(missedAcks) >= 2 ==> closing && sent == old(sent)
      ensures old(missedAcks) < 2 ==>
                sent == old(sent) + [Heartbeat] && missedAcks == old(missedAcks) + 1
    {
      heartbeatTimer := false;
      if missedAcks >= MAX_MISSED_ACKS {
        closing := true;
        return;
      }
      missedAcks := missedAcks + 1;
      sent := sent + [Heartbeat];
      heartbeatTimer := true;
    }
  }
}
