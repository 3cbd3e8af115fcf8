/** One gateway connection: the three frames a client may send, the handshake
    that binds the connection to a session, and the parting disconnect. */
module Connections {
  import opened Protocol
  import opened Sessions

  /** What the checks on a presented payload find out. */
  datatype Credentials = Credentials(supportedClient: bool, authenticToken: bool)

  /** A text frame once its envelope has been looked at. A payload that does not
      parse is absent. */
  datatype Inbound =
    | Malformed
    | ServerOpcode
    | HeartbeatFrame
    | IdentifyFrame(credentials: Option<Credentials>)
    | ResumeFrame(presented: Option<Presented>)

  datatype Presented = Presented(lastSeq: nat, authenticToken: bool)

  /** Whether the frame keeps the connection alive, or the code it closes with. */
  datatype Reply = Alive | Close(code: int)

  /** A handshake frame whose payload parsed and whose token verified; for an IDENTIFY
      the client must also be one that is still supported. */
  predicate Authentic(frame: Inbound) {
    || (frame.IdentifyFrame? && frame.credentials.Some?
        && frame.credentials.value.supportedClient && frame.credentials.value.authenticToken)
    || (frame.ResumeFrame? && frame.presented.Some? && frame.presented.value.authenticToken)
  }

  predicate Replayable(capacity: nat, log: seq<Event>, n: nat) {
    Evicted(capacity, |log|) <= n <= |log|
  }

  /** The replayed frames and the RESUMED that follows them are, together, the
      suffix of the new log after what the client had seen. */
  lemma HandshakeIsOneSuffix(log: seq<Event>, n: nat, resumed: Event)
    requires n <= |log|
    ensures Dispatches(Frames(log)[n..]) + [Message.Dispatch(Frames(log + [resumed])[|log|])]
         == Dispatches(Frames(log + [resumed])[n..])
  {
    FramesGrow(log, resumed);
    assert Frames(log + [resumed])[n..] == Frames(log)[n..] + [Frame(|log| + 1, resumed)];
  }

  class Connection {
    var session: Session?

    constructor ()
      ensures session == null
    {
      session := null;
    }

    /** READY is numbered 1 because the session is not reachable by anyone else
        until it has been dispatched. */
    method Identify(ready: Event, outbox: Outbox, capacity: nat)
      requires session == null
      modifies this, outbox
      ensures session != null && fresh(session) && session.Valid() && session.capacity == capacity
      ensures session.outbox == outbox && session.log == [ready]
      ensures outbox.sent == old(outbox.sent) + [Message.Dispatch(Frame(1, ready))]
    {
      var created := new Session(outbox, capacity);
      created.Dispatch(ready);
      session := created;
    }

    /** A granted RESUME leaves this socket with exactly the frames after `n` of
        the session's log, RESUMED last, and the session bound to it. A refused
        one answers INVALID_SESSION and asks for a session with too wide a gap to
        be forgotten. `found` is what the registry holds for this user. */
    method ResumeSession(found: Session?, n: nat, outbox: Outbox) returns (forget: bool)
      requires session == null && (found != null ==> found.Valid())
      modifies this, outbox, found
      ensures found != null ==> found.Valid()
      ensures session == if found != null && Replayable(found.capacity, old(found.log), n) then found else null
      ensures forget <==> found != null && session == null
      ensures session == null ==> outbox.sent == old(outbox.sent) + [InvalidSession]
      ensures session == null && found != null ==> unchanged(found)
      ensures session != null ==>
                && session.outbox == outbox && session.connected
                && session.log == old(found.log) + [Resumed(|old(found.log)| - n)]
                && outbox.sent == old(outbox.sent) + Dispatches(Frames(session.log)[n..])
    {
      forget := false;
      if found == null {
        outbox.sent := outbox.sent + [InvalidSession];
        return;
      }
      var missed := found.ReplayAfter(n);
      if missed.None? {
        forget := true;
        outbox.sent := outbox.sent + [InvalidSession];
        return;
      }
      ghost var log := found.log;
      found.Reconnect(outbox);
      ReplayTo(found, missed.value);
      HandshakeIsOneSuffix(log, n, Resumed(|missed.value|));
      found.Dispatch(Resumed(|missed.value|));
      session := found;
    }

    /** What one text frame does. Once identified, a connection never changes
        the session it serves. */
    method Handle(frame: Inbound, found: Session?, ready: Event, outbox: Outbox, capacity: nat)
      returns (reply: Reply, forget: bool)
      requires found != null ==> found.Valid()
      modifies this, outbox, found
      ensures frame.HeartbeatFrame? ==> reply.Alive?
      ensures frame.IdentifyFrame? ==>
                (reply.Alive? <==>
                  && old(session) == null && frame.credentials.Some?
                  && frame.credentials.value.supportedClient && frame.credentials.value.authenticToken)
      ensures frame.ResumeFrame? ==>
                (reply.Alive? <==>
                  old(session) == null && frame.presented.Some? && frame.presented.value.authenticToken)
      ensures frame.Malformed? || frame.ServerOpcode? ==> reply == Close(4002)
      ensures frame.IdentifyFrame? && (old(session) != null || frame.credentials.None?) ==> reply == Close(4002)
      ensures frame.ResumeFrame? && (old(session) != null || frame.presented.None?) ==> reply == Close(4002)
      ensures old(session) == null && frame.IdentifyFrame? && frame.credentials.Some? ==>
                && (!frame.credentials.value.supportedClient ==> reply == Close(4010))
                && (frame.credentials.value.supportedClient && !frame.credentials.value.authenticToken ==>
                      reply == Close(4001))
      ensures old(session) == null && frame.ResumeFrame? && frame.presented.Some? ==>
                (!frame.presented.value.authenticToken ==> reply == Close(4001))
      ensures old(session) == null && session != null ==> Authentic(frame)
      ensures found != null ==> found.Valid() && (session != found ==> unchanged(found))
      ensures session != null && session != old(session) ==> session == found || fresh(session)
      ensures session != null && session != old(session) ==> session.Valid()
      ensures old(session) != null ==> session == old(session)
      ensures reply.Close? ==> session == old(session) && !forget && outbox.sent == old(outbox.sent)
                               && (found != null ==> unchanged(found))
      ensures reply.Alive? && frame.HeartbeatFrame? ==>
                outbox.sent == old(outbox.sent) + [HeartbeatAck] && session == old(session) && !forget
      ensures reply.Alive? && frame.IdentifyFrame? ==>
                && session != null && fresh(session) && session.Valid() && session.capacity == capacity
                && session.outbox == outbox && session.log == [ready]
                && outbox.sent == old(outbox.sent) + [Message.Dispatch(Frame(1, ready))]
                && !forget && (found != null ==> unchanged(found))
      ensures reply.Alive? && frame.ResumeFrame? ==>
                && (session != null <==>
                      found != null && Replayable(found.capacity, old(found.log), frame.presented.value.lastSeq))
                && (session != null ==>
                      && session == found && session.outbox == outbox
                      && |session.log| == |old(found.log)| + 1
                      && outbox.sent == old(outbox.sent)
                           + Dispatches(Frames(session.log)[frame.presented.value.lastSeq..]))
                && (session == null ==> outbox.sent == old(outbox.sent) + [InvalidSession])
                && (forget <==> found != null && session == null)
    {
      forget := false;
      match frame {
        case Malformed => reply := Close(CLOSE_MALFORMED);
        case ServerOpcode => reply := Close(CLOSE_MALFORMED);
        case HeartbeatFrame =>
          outbox.sent := outbox.sent + [HeartbeatAck];
          reply := Alive;
        case IdentifyFrame(credentials) =>
          if session != null || credentials.None? {
            return Close(CLOSE_MALFORMED), false;
          }
          if !credentials.value.supportedClient {
            return Close(CLOSE_OUTDATED_CLIENT), false;
          }
          if !credentials.value.authenticToken {
            return Close(CLOSE_AUTH_FAILED), false;
          }
          Identify(ready, outbox, capacity);
          reply := Alive;
        case ResumeFrame(presented) =>
          if session != null || presented.None? {
            return Close(CLOSE_MALFORMED), false;
          }
          if !presented.value.authenticToken {
            return Close(CLOSE_AUTH_FAILED), false;
          }
          forget := ResumeSession(found, presented.value.lastSeq, outbox);
          reply := Alive;
      }
    }

    /** The receiving loop: frame by frame until one of them closes the socket, and then
        the parting disconnect. `founds` is what the registry holds for each frame. No
        run of frames gets a session served without an authentic handshake among them,
        and nothing after a frame that closes is looked at. */
    method Serve(
      frames: seq<Inbound>, founds: seq<Session?>, ready: Event, outbox: Outbox, capacity: nat, now: Timestamp)
      returns (handled: nat, closed: Reply)
      requires session == null && |founds| == |frames|
      requires forall i :: 0 <= i < |founds| && founds[i] != null ==> founds[i].Valid()
      modifies this, outbox, set i | 0 <= i < |founds| && founds[i] != null :: founds[i]
      ensures handled <= |frames| && (closed.Alive? ==> handled == |frames|) && (closed.Close? ==> handled > 0)
      ensures session != null ==>
                && session.Valid() && session.outbox == null && !session.connected
                && exists i :: 0 <= i < handled && Authentic(frames[i])
      ensures (forall i :: 0 <= i < |frames| ==> !Authentic(frames[i])) ==>
                session == null && forall i :: 0 <= i < |founds| && founds[i] != null ==> unchanged(founds[i])
    {
      handled, closed := 0, Alive;
      ghost var authentic := false;
      while handled < |frames| && closed.Alive?
        invariant handled <= |frames| && (closed.Close? ==> handled > 0)
        invariant forall i :: 0 <= i < |founds| && founds[i] != null ==> founds[i].Valid()
        invariant authentic <==> exists i :: 0 <= i < handled && Authentic(frames[i])
        invariant session != null ==> authentic && session.Valid()
        invariant session != null ==>
                    fresh(session) || exists i :: 0 <= i < |founds| && founds[i] != null && session == founds[i]
        invariant !authentic ==> forall i :: 0 <= i < |founds| && founds[i] != null ==> unchanged(founds[i])
        decreases |frames| - handled
      {
        var forget;
        closed, forget := Handle(frames[handled], founds[handled], ready, outbox, capacity);
        authentic := authentic || Authentic(frames[handled]);
        handled := handled + 1;
      }
      Finish(now);
    }

    /** The socket is gone: whatever session this connection was serving loses
        its outbox, even if a newer connection has taken it over meanwhile. */
    method Finish(now: Timestamp)
      requires session != null ==> session.Valid()
      modifies session
      ensures session != null ==>
                session.Valid() && !session.connected && session.outbox == null && session.log == old(session.log)
    {
      if session != null {
        session.Disconnect(now);
      }
    }
  }

  /** Replayed frames keep the numbers they were dispatched with. */
  method ReplayTo(session: Session, missed: seq<Frame>)
    requires session.outbox != null
    modifies session.outbox
    ensures session.outbox.sent == old(session.outbox.sent) + Dispatches(missed)
  {
    var i := 0;
    while i < |missed|
      invariant 0 <= i <= |missed|
      invariant session.outbox.sent == old(session.outbox.sent) + Dispatches(missed[..i])
    {
      session.SendText(Message.Dispatch(missed[i]));
      assert Dispatches(missed[..i + 1]) == Dispatches(missed[..i]) + [Message.Dispatch(missed[i])];
      i := i + 1;
    }
    assert missed[..i] == missed;
  }
}
