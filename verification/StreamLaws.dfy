/** What each step of the stream says, asks and registers, told from the state before
    it: the protocol as a reader of the wire sees it. */
module StreamLaws {
  import opened Protocol
  import opened Sessions
  import opened GatewayClients
  import opened Streams

  // ---------------------------------------------------------------------------
  // What the server says
  // ---------------------------------------------------------------------------

  /** A RESUME that can be granted: the session is reachable, the number was given out,
      and no more than `capacity` events came after it. */
  predicate Grantable(n: Net, capacity: nat, id: SessionId, lastSeq: nat) {
    && id in n.registry && id in n.sessions
    && lastSeq <= |n.sessions[id].log| && (capacity == 0 || |n.sessions[id].log| - lastSeq <= capacity)
  }

  /** The answer to a RESUME: the log after the number, RESUMED at its end. */
  function Resumption(log: seq<Event>, lastSeq: nat): seq<Message>
    requires lastSeq <= |log|
  {
    Dispatches(Frames(log + [Resumed(|log| - lastSeq)])[lastSeq..])
  }

  /** What the server puts on socket `c` when it reads a frame there. */
  function Answers(
    n: Net, capacity: nat, c: ConnId, r: Request, newId: SessionId, room: Option<RoomState>): seq<Message>
    requires c in n.links
  {
    if r.Heartbeat? then [HeartbeatAck]
    else if n.links[c].session.Some? then []
    else if r.Identify? then [Dispatch(Frame(1, Ready(newId, room)))]
    else if Grantable(n, capacity, r.sessionId, r.lastSeq) then Resumption(n.sessions[r.sessionId].log, r.lastSeq)
    else [InvalidSession]
  }

  /** In one step: its answer to the socket it reads from, a published event to the
      outbox of its session, RECONNECT to the outbox of an evicted one, and nothing else
      to anybody. */
  function Says(n: Net, capacity: nat, step: Step, c: ConnId): seq<Message>
    requires Enabled(n, step) && c in n.links
  {
    match step
    case Receive(at, newId, room) => if at == c then Answers(n, capacity, c, n.links[c].up[0], newId, room) else []
    case Publish(id, e) =>
      if n.sessions[id].outbox == Some(c) then [Dispatch(Frame(|n.sessions[id].log| + 1, e))] else []
    case Evict(id) => if n.sessions[id].outbox == Some(c) then [Reconnect] else []
    case _ => []
  }

  lemma GrantableIff(n: Net, capacity: nat, id: SessionId, lastSeq: nat)
    requires Inv(n, capacity) && id in n.registry && id in n.sessions
    ensures Grantable(n, capacity, id, lastSeq) <==> Replay(n.sessions[id].ring, lastSeq).Some?
    ensures Grantable(n, capacity, id, lastSeq) ==>
              Replay(n.sessions[id].ring, lastSeq) == Some(Frames(n.sessions[id].log)[lastSeq..])
  {
    assert SessionOk(n, capacity, id);
    ReplayIsLogSuffix(n.sessions[id].ring, capacity, n.sessions[id].log, lastSeq);
  }

  lemma ResumptionIs(log: seq<Event>, lastSeq: nat)
    requires lastSeq <= |log|
    ensures Dispatches(Frames(log)[lastSeq..]) + [Dispatch(Frame(|log| + 1, Resumed(|log| - lastSeq)))]
         == Resumption(log, lastSeq)
  {
    var resumed := Resumed(|log| - lastSeq);
    FramesGrow(log, resumed);
    assert Frames(log + [resumed])[lastSeq..] == Frames(log)[lastSeq..] + [Frame(|log| + 1, resumed)];
  }

  lemma GrantedDown(n: Net, capacity: nat, c: ConnId, id: SessionId, missed: seq<Frame>)
    requires SessionsOk(n, capacity) && c in n.links && id in n.sessions
    ensures var n1 := Streams.Send(Bind(n, c, id), c, Dispatches(missed));
            DispatchTo(n1, capacity, id, Resumed(|missed|)).links[c].down
            == n.links[c].down + (Dispatches(missed)
                                  + [Dispatch(Frame(|n.sessions[id].log| + 1, Resumed(|missed|)))])
  {
    assert SessionOk(n, capacity, id);
  }

  lemma ResumeAnswered(n: Net, capacity: nat, c: ConnId, id: SessionId, lastSeq: nat)
    requires Inv(n, capacity) && c in n.links && n.links[c].session.None?
    ensures AnswerResume(n, capacity, c, id, lastSeq).links[c].down ==
            n.links[c].down + if Grantable(n, capacity, id, lastSeq) then Resumption(n.sessions[id].log, lastSeq)
                              else [InvalidSession]
  {
    if id in n.registry && id in n.sessions {
      GrantableIff(n, capacity, id, lastSeq);
      if Grantable(n, capacity, id, lastSeq) {
        GrantedDown(n, capacity, c, id, Frames(n.sessions[id].log)[lastSeq..]);
        ResumptionIs(n.sessions[id].log, lastSeq);
      }
    }
  }

  lemma ResumeLeavesOthers(n: Net, capacity: nat, c: ConnId, id: SessionId, lastSeq: nat)
    requires SessionsOk(n, capacity) && c in n.links && n.links[c].session.None?
    ensures AnswerResume(n, capacity, c, id, lastSeq).links.Keys == n.links.Keys
    ensures forall k :: k in n.links && k != c ==> AnswerResume(n, capacity, c, id, lastSeq).links[k] == n.links[k]
  {
  }

  lemma ReceiveSays(n: Net, capacity: nat, at: ConnId, newId: SessionId, room: Option<RoomState>, c: ConnId)
    requires Inv(n, capacity) && Enabled(n, Receive(at, newId, room)) && c in n.links
    ensures c in Serve(n, capacity, at, newId, room).links
    ensures Serve(n, capacity, at, newId, room).links[c].down ==
            n.links[c].down + Says(n, capacity, Receive(at, newId, room), c)
  {
    var heard, r := Heard(n, at), n.links[at].up[0];
    HeardKeepsInv(n, capacity, at);
    if n.links[at].session.None? {
      if r.Resume? {
        ResumeAnswered(heard, capacity, at, r.sessionId, r.lastSeq);
        ResumeLeavesOthers(heard, capacity, at, r.sessionId, r.lastSeq);
      } else if r.Identify? {
        IdentifyShape(heard, capacity, at, newId, room);
      }
    }
  }

  lemma StepSays(n: Net, capacity: nat, step: Step, c: ConnId)
    requires Inv(n, capacity) && Enabled(n, step) && c in n.links
    ensures c in Apply(n, capacity, step).links
    ensures Apply(n, capacity, step).links[c].down ==
            (if step.Deliver? && n.conn == Some(c) then n.links[c].down[1..] else n.links[c].down)
            + Says(n, capacity, step, c)
  {
    match step
    case Receive(at, newId, room) => ReceiveSays(n, capacity, at, newId, room, c);
    case Publish(id, e) => assert SessionOk(n, capacity, id);
    case Evict(id) => assert SessionOk(n, capacity, id);
    case _ =>
  }

  // ---------------------------------------------------------------------------
  // What the client asks and remembers
  // ---------------------------------------------------------------------------

  /** What the client writes in one step: after HELLO a RESUME of what it remembers, an
      IDENTIFY when it remembers no session or is told that the session is invalid, and
      heartbeats. Without a token it writes neither. */
  function Asks(n: Net, step: Step): seq<Request>
    requires Enabled(n, step)
  {
    match step
    case Deliver(token) =>
      var m := n.links[n.conn.value].down[0];
      if !token then []
      else if m.Hello? && n.memory.sessionId.Some? then [Resume(n.memory.sessionId.value, n.memory.lastSeq)]
      else if m.Hello? || m.InvalidSession? then [Identify]
      else []
    case Beat => [Heartbeat]
    case _ => []
  }

  lemma DeliverAsks(n: Net, token: bool, c: ConnId)
    requires Enabled(n, Deliver(token)) && c in n.links
    ensures c in TakeFrame(n, token).links
    ensures TakeFrame(n, token).links[c].up ==
            n.links[c].up + if n.conn == Some(c) then Asks(n, Deliver(token)) else []
  {
  }

  lemma ServeAsksNothing(n: Net, capacity: nat, at: ConnId, newId: SessionId, room: Option<RoomState>, c: ConnId)
    requires Enabled(n, Receive(at, newId, room)) && c in n.links
    ensures c in Serve(n, capacity, at, newId, room).links
    ensures Serve(n, capacity, at, newId, room).links[c].up ==
            if at == c then n.links[c].up[1..] else n.links[c].up
  {
  }

  lemma StepAsks(n: Net, capacity: nat, step: Step, c: ConnId)
    requires Enabled(n, step) && c in n.links
    ensures c in Apply(n, capacity, step).links
    ensures Apply(n, capacity, step).links[c].up ==
            (if step.Receive? && step.at == c then n.links[c].up[1..] else n.links[c].up)
            + if n.conn == Some(c) then Asks(n, step) else []
  {
    match step
    case Deliver(token) => DeliverAsks(n, token, c);
    case Receive(at, newId, room) => ServeAsksNothing(n, capacity, at, newId, room, c);
    case _ =>
  }

  /** The client forgets its session exactly when it is told that it is invalid, or loses
      the socket with one of the four codes that say so; takes up another exactly with a
      READY; and its position moves with each dispatch. */
  lemma StepRemembers(n: Net, capacity: nat, step: Step)
    requires Enabled(n, step)
    ensures var was, now := n.memory, Apply(n, capacity, step).memory;
            if step.Deliver? && n.links[n.conn.value].down[0].Dispatch?
            then var frame := n.links[n.conn.value].down[0].frame;
                 && now.lastSeq == frame.s
                 && now.sessionId == (if frame.event.Ready? then Some(frame.event.sessionId) else was.sessionId)
                 && now.applied == (if frame.event.Ready? then [] else was.applied) + [frame.event]
            else if (step.Deliver? && n.links[n.conn.value].down[0].InvalidSession?)
                    || (step.Lose? && 4001 <= step.code <= 4004)
            then now == Memory(None, 0, was.applied)
            else now == was
  {
    if step.Receive? {
      ServingLeavesMemory(n, capacity, step.at, step.newId, step.room);
    }
  }

  // ---------------------------------------------------------------------------
  // What can be reached
  // ---------------------------------------------------------------------------

  /** A session becomes reachable with its READY; and stops being so when the sweep
      forgets it, the connection limit evicts it, or a RESUME cannot be granted. */
  lemma StepRegisters(n: Net, capacity: nat, step: Step, id: SessionId)
    requires Inv(n, capacity) && Enabled(n, step)
    ensures id in Apply(n, capacity, step).registry <==>
            if step.Receive? && n.links[step.at].session.None? && n.links[step.at].up[0].Identify? && step.newId == id
            then true
            else
              && id in n.registry
              && !(step.Forget? && step.who == id) && !(step.Evict? && step.who == id)
              && !(step.Receive? && n.links[step.at].session.None? && id in n.sessions
                   && n.links[step.at].up[0].Resume? && n.links[step.at].up[0].sessionId == id
                   && !Grantable(n, capacity, id, n.links[step.at].up[0].lastSeq))
  {
    if step.Receive? && n.links[step.at].session.None? {
      var r := n.links[step.at].up[0];
      HeardKeepsInv(n, capacity, step.at);
      if r.Resume? && r.sessionId in n.registry && r.sessionId in n.sessions {
        GrantableIff(Heard(n, step.at), capacity, r.sessionId, r.lastSeq);
      }
    }
  }

  /** Nothing waits for anything else: a socket can be lost at any moment, its server's end
      can finish at any moment, what is in flight can arrive in order, every reachable
      session can be published to or evicted, and any session can be forgotten. */
  lemma NothingWaits(n: Net, c: ConnId, id: SessionId, e: Event, code: int, token: bool, room: Option<RoomState>)
    requires !e.Ready? && c in n.links && id !in n.sessions
    ensures n.conn == Some(c) ==>
              && Enabled(n, Lose(code)) && Enabled(n, Beat) && (n.links[c].down != [] ==> Enabled(n, Deliver(token)))
    ensures n.links[c].serving ==>
              Enabled(n, EndServing(c)) && (n.links[c].up != [] ==> Enabled(n, Receive(c, id, room)))
    ensures forall k :: k in n.registry && k in n.sessions ==>
              Enabled(n, Publish(k, e)) && Enabled(n, Evict(k)) && Enabled(n, Forget(k))
    ensures n.conn.None? ==> forall k :: k !in n.links ==> Enabled(n, Open(k))
  {
  }
}
