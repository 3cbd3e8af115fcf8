/** The resumable stream as one system: a server holding sessions, any number of
    connections that lose frames by dying, and one client hopping between them. */
module Streams {
  import opened Protocol
  import opened Sessions
  import opened GatewayClients

  type ConnId = nat

  /** One socket: what is in flight each way, which session the server's end has
      bound to it, and whether that end is still serving. */
  datatype Link = Link(
    down: seq<Message>, up: seq<Request>, session: Option<SessionId>, serving: bool)

  /** A session as the server holds it, next to its full log. */
  datatype Served = Served(log: seq<Event>, ring: Ring, outbox: Option<ConnId>)

  datatype Net = Net(
    sessions: map<SessionId, Served>,
    registry: set<SessionId>,          // sessions a RESUME or a publish can still reach
    links: map<ConnId, Link>,
    memory: Memory,
    conn: Option<ConnId>)              // the client's current socket

  const INIT := Net(map[], {}, map[], BLANK, None)

  datatype Step =
    | Open(c: ConnId)                          // client opens a socket, server greets
    | Deliver(token: bool)                     // next frame reaches the client
    | Beat                                     // client sends a heartbeat
    | Lose(code: int)                          // client loses its socket and all in flight
    | Receive(at: ConnId, newId: SessionId, room: Option<RoomState>)
    | EndServing(at: ConnId)                   // server's end of a socket finishes
    | Publish(to: SessionId, event: Event)
    | Forget(who: SessionId)                   // TTL sweep or unfillable gap
    | Evict(who: SessionId)                    // connection limit

  // ---------------------------------------------------------------------------
  // Steps
  // ---------------------------------------------------------------------------

  function Send(n: Net, c: ConnId, ms: seq<Message>): Net
    requires c in n.links
  {
    n.(links := n.links[c := n.links[c].(down := n.links[c].down + ms)])
  }

  /** Logs an event and hands its frame to the attached socket, if any. */
  function DispatchTo(n: Net, capacity: nat, id: SessionId, e: Event): Net
    requires id in n.sessions
  {
    var v := n.sessions[id];
    var ring := Record(v.ring, capacity, e);
    var n' := n.(sessions := n.sessions[id := Served(v.log + [e], ring, v.outbox)]);
    if v.outbox.Some? && v.outbox.value in n'.links
    then Send(n', v.outbox.value, [Dispatch(Frame(ring.lastSeq, e))])
    else n'
  }

  function Detach(n: Net, id: SessionId): Net
    requires id in n.sessions
  {
    n.(sessions := n.sessions[id := n.sessions[id].(outbox := None)])
  }

  function Bind(n: Net, c: ConnId, id: SessionId): Net
    requires c in n.links && id in n.sessions
  {
    n.(sessions := n.sessions[id := n.sessions[id].(outbox := Some(c))],
       links := n.links[c := n.links[c].(session := Some(id))])
  }

  function FinishServing(n: Net, c: ConnId): Net
    requires c in n.links
  {
    var n' := n.(links := n.links[c := n.links[c].(serving := false)]);
    var s := n.links[c].session;
    if s.Some? && s.value in n'.sessions then Detach(n', s.value) else n'
  }

  function AnswerIdentify(n: Net, capacity: nat, c: ConnId, newId: SessionId, room: Option<RoomState>): Net
    requires c in n.links && newId !in n.sessions
  {
    var n1 := n.(sessions := n.sessions[newId := Served([], EMPTY_RING, None)]);
    var n2 := DispatchTo(Bind(n1, c, newId), capacity, newId, Ready(newId, room));
    n2.(registry := n2.registry + {newId})
  }

  function AnswerResume(n: Net, capacity: nat, c: ConnId, id: SessionId, lastSeq: nat): Net
    requires c in n.links
  {
    if id !in n.registry || id !in n.sessions then Send(n, c, [InvalidSession])
    else
      match Replay(n.sessions[id].ring, lastSeq)
      case None => Send(n.(registry := n.registry - {id}), c, [InvalidSession])
      case Some(missed) =>
        var n1 := Send(Bind(n, c, id), c, Dispatches(missed));
        DispatchTo(n1, capacity, id, Resumed(|missed|))
  }

  predicate Enabled(n: Net, step: Step) {
    match step
    case Open(c) => n.conn.None? && c !in n.links
    case Deliver(_) => n.conn.Some? && n.conn.value in n.links && n.links[n.conn.value].down != []
    case Beat => n.conn.Some? && n.conn.value in n.links
    case Lose(_) => n.conn.Some?
    case Receive(c, newId, _) =>
      c in n.links && n.links[c].serving && n.links[c].up != [] && newId !in n.sessions
    case EndServing(c) => c in n.links && n.links[c].serving
    case Publish(id, e) => id in n.registry && id in n.sessions && !e.Ready?
    case Forget(id) => true
    case Evict(id) => id in n.registry && id in n.sessions
  }

  function Ask(n: Net, c: ConnId, r: seq<Request>): Net
    requires c in n.links
  {
    n.(links := n.links[c := n.links[c].(up := n.links[c].up + r)])
  }

  function TakeFrame(n: Net, token: bool): Net
    requires Enabled(n, Deliver(token))
  {
    var c := n.conn.value;
    var m := n.links[c].down[0];
    var n' := n.(links := n.links[c := n.links[c].(down := n.links[c].down[1..])]);
    match m
    case Hello => if token then Ask(n', c, [Greeting(n.memory)]) else n'
    case Dispatch(frame) => n'.(memory := OnDispatch(n.memory, frame))
    case InvalidSession =>
      var n'' := n'.(memory := Forgotten(n.memory));
      if token then Ask(n'', c, [Identify]) else n''
    case _ => n'
  }

  function Serve(n: Net, capacity: nat, c: ConnId, newId: SessionId, room: Option<RoomState>): Net
    requires c in n.links && n.links[c].up != [] && newId !in n.sessions
  {
    var r := n.links[c].up[0];
    var n' := n.(links := n.links[c := n.links[c].(up := n.links[c].up[1..])]);
    match r
    case Heartbeat => Send(n', c, [HeartbeatAck])
    case Identify =>
      if n.links[c].session.Some? then FinishServing(n', c)
      else AnswerIdentify(n', capacity, c, newId, room)
    case Resume(id, lastSeq) =>
      if n.links[c].session.Some? then FinishServing(n', c)
      else AnswerResume(n', capacity, c, id, lastSeq)
  }

  function Apply(n: Net, capacity: nat, step: Step): Net
    requires Enabled(n, step)
  {
    match step
    case Open(c) => n.(links := n.links[c := Link([Hello], [], None, true)], conn := Some(c))
    case Deliver(token) => TakeFrame(n, token)
    case Beat => Ask(n, n.conn.value, [Heartbeat])
    case Lose(code) => n.(conn := None, memory := OnClose(n.memory, code))
    case Receive(c, newId, room) => Serve(n, capacity, c, newId, room)
    case EndServing(c) => FinishServing(n, c)
    case Publish(id, e) => DispatchTo(n, capacity, id, e)
    case Forget(id) => n.(registry := n.registry - {id})
    case Evict(id) =>
      var v := n.sessions[id];
      var n' := if v.outbox.Some? && v.outbox.value in n.links then Send(n, v.outbox.value, [Reconnect]) else n;
      Detach(n'.(registry := n'.registry - {id}), id)
  }

  ghost predicate Runs(n: Net, capacity: nat, steps: seq<Step>, n': Net)
    decreases |steps|
  {
    if steps == [] then n' == n
    else Enabled(n, steps[0]) && Runs(Apply(n, capacity, steps[0]), capacity, steps[1..], n')
  }

  // ---------------------------------------------------------------------------
  // What is in flight
  // ---------------------------------------------------------------------------

  /** The numbered frames in flight towards the client, in order. */
  function Carried(down: seq<Message>): seq<Frame> {
    if down == [] then []
    else (if down[0].Dispatch? then [down[0].frame] else []) + Carried(down[1..])
  }

  /** Server frames that the client answers with a handshake. */
  function Calls(down: seq<Message>): nat {
    if down == [] then 0
    else (if down[0].Hello? || down[0].InvalidSession? then 1 else 0) + Calls(down[1..])
  }

  function Replies(up: seq<Request>): nat {
    if up == [] then 0 else (if up[0].Heartbeat? then 0 else 1) + Replies(up[1..])
  }

  lemma {:induction false} CarriedAppend(a: seq<Message>, b: seq<Message>)
    ensures Carried(a + b) == Carried(a) + Carried(b)
  {
    if a == [] {
      assert a + b == b;
    } else {
      var head := if a[0].Dispatch? then [a[0].frame] else [];
      assert (a + b)[1..] == a[1..] + b;
      CarriedAppend(a[1..], b);
      assert (head + Carried(a[1..])) + Carried(b) == head + (Carried(a[1..]) + Carried(b));
    }
  }

  lemma {:induction false} CallsAppend(a: seq<Message>, b: seq<Message>)
    ensures Calls(a + b) == Calls(a) + Calls(b)
  {
    if a == [] {
      assert a + b == b;
    } else {
      assert (a + b)[1..] == a[1..] + b;
      CallsAppend(a[1..], b);
    }
  }

  lemma {:induction false} RepliesAppend(a: seq<Request>, b: seq<Request>)
    ensures Replies(a + b) == Replies(a) + Replies(b)
  {
    if a == [] {
      assert a + b == b;
    } else {
      assert (a + b)[1..] == a[1..] + b;
      RepliesAppend(a[1..], b);
    }
  }

  lemma {:induction false} DispatchesCarry(frames: seq<Frame>)
    ensures Carried(Dispatches(frames)) == frames && Calls(Dispatches(frames)) == 0
  {
    if frames != [] {
      assert Dispatches(frames)[1..] == Dispatches(frames[1..]);
      DispatchesCarry(frames[1..]);
    }
  }

  lemma {:induction false} ReplyCounted(up: seq<Request>, r: Request)
    requires r in up && !r.Heartbeat?
    ensures Replies(up) >= 1
  {
    if up[0] != r {
      ReplyCounted(up[1..], r);
    }
  }

  // ---------------------------------------------------------------------------
  // The invariant
  // ---------------------------------------------------------------------------

  ghost predicate SessionOk(n: Net, capacity: nat, id: SessionId)
    requires id in n.sessions
  {
    var v := n.sessions[id];
    && Refines(v.ring, capacity, v.log)
    && v.log != [] && v.log[0].Ready? && v.log[0].sessionId == id
    && (forall i :: 1 <= i < |v.log| ==> !v.log[i].Ready?)
    && (v.outbox.Some? ==> v.outbox.value in n.links && n.links[v.outbox.value].session == Some(id))
  }

  ghost predicate SessionsOk(n: Net, capacity: nat) {
    forall id :: id in n.sessions ==> SessionOk(n, capacity, id)
  }

  /** What the client has applied is exactly the log up to the number it holds. */
  ghost predicate MemoryOk(n: Net) {
    n.memory.sessionId.Some? ==>
      && n.memory.sessionId.value in n.sessions
      && var log := n.sessions[n.memory.sessionId.value].log;
         1 <= n.memory.lastSeq <= |log| && n.memory.applied == log[..n.memory.lastSeq]
  }

  /** How far into a bound session the client has read. */
  function Position(m: Memory, id: SessionId): nat {
    if m.sessionId == Some(id) then m.lastSeq else 0
  }

  /** A socket that no session is bound to carries no dispatch, and a pending
      handshake speaks for the client as it is now. */
  ghost predicate Unbound(n: Net, l: Link) {
    && Carried(l.down) == []
    && Calls(l.down) + Replies(l.up) <= 1
    && (Identify in l.up ==> n.memory.sessionId.None?)
    && (forall r :: r in l.up && r.Resume? ==> n.memory.sessionId == Some(r.sessionId) && n.memory.lastSeq == r.lastSeq)
  }

  /** A bound socket carries the next frames of its session and nothing else; if
      it is the session's outbox, it carries all of them. */
  ghost predicate Bound(n: Net, c: ConnId, l: Link, id: SessionId) {
    && id in n.sessions
    && Calls(l.down) + Replies(l.up) == 0
    && (n.memory.sessionId.Some? ==> n.memory.sessionId.value == id)
    && var log, p, flight := n.sessions[id].log, Position(n.memory, id), Carried(l.down);
       && p + |flight| <= |log|
       && flight == Frames(log)[p..p + |flight|]
       && (n.sessions[id].outbox == Some(c) ==> p + |flight| == |log|)
  }

  ghost predicate ConnOk(n: Net) {
    n.conn.Some? ==>
      && n.conn.value in n.links
      && var l := n.links[n.conn.value];
         match l.session
         case None => Unbound(n, l)
         case Some(id) => Bound(n, n.conn.value, l, id)
  }

  ghost predicate Inv(n: Net, capacity: nat) {
    SessionsOk(n, capacity) && MemoryOk(n) && ConnOk(n)
  }

  // ---------------------------------------------------------------------------
  // Every step keeps it
  // ---------------------------------------------------------------------------

  lemma RunGrows(log: seq<Event>, e: Event, p: nat, k: nat)
    requires p + k <= |log|
    ensures Frames(log + [e])[p..p + k] == Frames(log)[p..p + k]
    ensures p + k == |log| ==>
              Frames(log + [e])[p..p + k + 1] == Frames(log)[p..p + k] + [Frame(|log| + 1, e)]
  {
    FramesGrow(log, e);
  }

  lemma CarriedOne(down: seq<Message>, m: Message)
    ensures Carried(down + [m]) == Carried(down) + if m.Dispatch? then [m.frame] else []
    ensures Calls(down + [m]) == Calls(down) + if m.Hello? || m.InvalidSession? then 1 else 0
  {
    CarriedAppend(down, [m]);
    CallsAppend(down, [m]);
    assert [m][1..] == [];
  }

  lemma DispatchKeepsSessions(n: Net, capacity: nat, id: SessionId, e: Event)
    requires SessionsOk(n, capacity) && id in n.sessions && !e.Ready?
    ensures SessionsOk(DispatchTo(n, capacity, id, e), capacity)
  {
    var n' := DispatchTo(n, capacity, id, e);
    RecordRefines(n.sessions[id].ring, capacity, n.sessions[id].log, e);
    forall k | k in n'.sessions ensures SessionOk(n', capacity, k) {
      assert SessionOk(n, capacity, k);
    }
  }

  lemma DispatchKeepsConn(n: Net, capacity: nat, id: SessionId, e: Event)
    requires id in n.sessions && SessionOk(n, capacity, id) && ConnOk(n)
    ensures ConnOk(DispatchTo(n, capacity, id, e))
  {
    if n.conn.Some? && n.links[n.conn.value].session == Some(id) {
      DispatchKeepsBound(n, capacity, id, e, n.conn.value);
    }
  }

  lemma DispatchKeepsBound(n: Net, capacity: nat, id: SessionId, e: Event, c: ConnId)
    requires id in n.sessions && SessionOk(n, capacity, id) && c in n.links && Bound(n, c, n.links[c], id)
    ensures var n' := DispatchTo(n, capacity, id, e); Bound(n', c, n'.links[c], id)
  {
    var l, log := n.links[c], n.sessions[id].log;
    RunGrows(log, e, Position(n.memory, id), |Carried(l.down)|);
    var frame := Frame(n.sessions[id].ring.lastSeq + 1, e);
    CarriedOne(l.down, Dispatch(frame));
    var n' := DispatchTo(n, capacity, id, e);
    assert n'.sessions[id].log == log + [e] && n'.sessions[id].outbox == n.sessions[id].outbox;
    assert n'.links[c].down == if n.sessions[id].outbox == Some(c) then l.down + [Dispatch(frame)] else l.down;
  }

  lemma DispatchKeepsMemory(n: Net, capacity: nat, id: SessionId, e: Event)
    requires MemoryOk(n) && id in n.sessions
    ensures MemoryOk(DispatchTo(n, capacity, id, e))
  {
  }

  lemma DispatchKeepsInv(n: Net, capacity: nat, id: SessionId, e: Event)
    requires Inv(n, capacity) && id in n.sessions && !e.Ready?
    ensures Inv(DispatchTo(n, capacity, id, e), capacity)
  {
    assert SessionOk(n, capacity, id);
    DispatchKeepsSessions(n, capacity, id, e);
    DispatchKeepsConn(n, capacity, id, e);
    DispatchKeepsMemory(n, capacity, id, e);
  }

  /** Sending on a socket touches no session. */
  lemma SendKeepsSessions(n: Net, capacity: nat, c: ConnId, ms: seq<Message>)
    requires SessionsOk(n, capacity) && c in n.links
    ensures SessionsOk(Send(n, c, ms), capacity)
  {
    var n' := Send(n, c, ms);
    forall k | k in n'.sessions ensures SessionOk(n', capacity, k) {
      assert SessionOk(n, capacity, k);
    }
  }

  lemma NoticeKeepsConn(n: Net, c: ConnId, m: Message)
    requires ConnOk(n) && c in n.links && (m.HeartbeatAck? || m.Reconnect?)
    ensures ConnOk(Send(n, c, [m]))
  {
    CarriedOne(n.links[c].down, m);
  }

  /** A control frame that asks for nothing changes nothing. */
  lemma NoticeKeepsInv(n: Net, capacity: nat, c: ConnId, m: Message)
    requires Inv(n, capacity) && c in n.links && (m.HeartbeatAck? || m.Reconnect?)
    ensures Inv(Send(n, c, [m]), capacity)
  {
    SendKeepsSessions(n, capacity, c, [m]);
    NoticeKeepsConn(n, c, m);
  }

  lemma DetachKeepsInv(n: Net, capacity: nat, id: SessionId)
    requires Inv(n, capacity) && id in n.sessions
    ensures Inv(Detach(n, id), capacity)
  {
    var n' := Detach(n, id);
    forall k | k in n'.sessions ensures SessionOk(n', capacity, k) {
      assert SessionOk(n, capacity, k);
    }
  }

  lemma FinishKeepsInv(n: Net, capacity: nat, c: ConnId)
    requires Inv(n, capacity) && c in n.links
    ensures Inv(FinishServing(n, c), capacity)
  {
    var n' := n.(links := n.links[c := n.links[c].(serving := false)]);
    forall k | k in n'.sessions ensures SessionOk(n', capacity, k) {
      assert SessionOk(n, capacity, k);
    }
    assert Inv(n', capacity);
    var s := n.links[c].session;
    if s.Some? && s.value in n'.sessions {
      DetachKeepsInv(n', capacity, s.value);
    }
  }

  lemma OpenKeepsInv(n: Net, capacity: nat, c: ConnId)
    requires Inv(n, capacity) && Enabled(n, Open(c))
    ensures Inv(Apply(n, capacity, Open(c)), capacity)
  {
    var n' := Apply(n, capacity, Open(c));
    assert [Hello][1..] == [];
    forall k | k in n'.sessions ensures SessionOk(n', capacity, k) {
      assert SessionOk(n, capacity, k);
    }
  }

  lemma LoseKeepsInv(n: Net, capacity: nat, code: int)
    requires Inv(n, capacity) && n.conn.Some?
    ensures Inv(Apply(n, capacity, Lose(code)), capacity)
  {
    var n' := Apply(n, capacity, Lose(code));
    forall k | k in n'.sessions ensures SessionOk(n', capacity, k) {
      assert SessionOk(n, capacity, k);
    }
  }

  lemma ForgetKeepsInv(n: Net, capacity: nat, id: SessionId)
    requires Inv(n, capacity)
    ensures Inv(n.(registry := n.registry - {id}), capacity)
  {
    var n' := n.(registry := n.registry - {id});
    forall k | k in n'.sessions ensures SessionOk(n', capacity, k) {
      assert SessionOk(n, capacity, k);
    }
  }

  lemma EvictKeepsInv(n: Net, capacity: nat, id: SessionId)
    requires Inv(n, capacity) && Enabled(n, Evict(id))
    ensures Inv(Apply(n, capacity, Evict(id)), capacity)
  {
    var v := n.sessions[id];
    var n' := n;
    if v.outbox.Some? && v.outbox.value in n.links {
      NoticeKeepsInv(n, capacity, v.outbox.value, Reconnect);
      n' := Send(n, v.outbox.value, [Reconnect]);
    }
    ForgetKeepsInv(n', capacity, id);
    DetachKeepsInv(n'.(registry := n'.registry - {id}), capacity, id);
  }

  /** Asking is harmless when the request is a heartbeat, or when it is the one
      reply an unbound socket still owes and it says what the client remembers. */
  lemma AskKeepsInv(n: Net, capacity: nat, c: ConnId, r: Request)
    requires Inv(n, capacity) && n.conn == Some(c)
    requires r.Heartbeat? || (n.links[c].session.None? && Calls(n.links[c].down) + Replies(n.links[c].up) == 0
                              && r == Greeting(n.memory))
    ensures Inv(Ask(n, c, [r]), capacity)
  {
    var n' := Ask(n, c, [r]);
    RepliesAppend(n.links[c].up, [r]);
    assert [r][1..] == [];
    assert forall x :: x in n'.links[c].up ==> x in n.links[c].up || x == r;
    forall k | k in n'.sessions ensures SessionOk(n', capacity, k) {
      assert SessionOk(n, capacity, k);
    }
  }

  // Delivery, one frame kind at a time. `Popped` is the net with the head of the
  // client's socket removed.

  function Popped(n: Net, c: ConnId): Net
    requires c in n.links && n.links[c].down != []
  {
    n.(links := n.links[c := n.links[c].(down := n.links[c].down[1..])])
  }

  lemma PoppedKeepsSessions(n: Net, capacity: nat, c: ConnId)
    requires SessionsOk(n, capacity) && c in n.links && n.links[c].down != []
    ensures SessionsOk(Popped(n, c), capacity)
  {
    var n' := Popped(n, c);
    forall k | k in n'.sessions ensures SessionOk(n', capacity, k) {
      assert SessionOk(n, capacity, k);
    }
  }

  lemma PopControlKeepsInv(n: Net, capacity: nat, token: bool)
    requires Inv(n, capacity) && Enabled(n, Deliver(token))
    requires !n.links[n.conn.value].down[0].Dispatch?
    ensures Inv(Popped(n, n.conn.value), capacity)
  {
    PoppedKeepsSessions(n, capacity, n.conn.value);
  }

  lemma DeliverDispatchKeepsInv(n: Net, capacity: nat, token: bool)
    requires Inv(n, capacity) && Enabled(n, Deliver(token))
    requires n.links[n.conn.value].down[0].Dispatch?
    ensures Inv(TakeFrame(n, token), capacity)
  {
    var c := n.conn.value;
    PoppedKeepsSessions(n, capacity, c);
    var l := n.links[c];
    var id := l.session.value;
    assert SessionOk(n, capacity, id);
    var log, p, flight := n.sessions[id].log, Position(n.memory, id), Carried(l.down);
    assert flight[0] == Frame(p + 1, log[p]);
    assert Carried(l.down[1..]) == flight[1..];
    assert flight[1..] == Frames(log)[p + 1..p + |flight|];
    assert log[..p] + [log[p]] == log[..p + 1];
    var n' := TakeFrame(n, token);
    assert n'.memory.sessionId == Some(id) && n'.memory.lastSeq == p + 1;
    assert n'.memory.applied == log[..p + 1];
    TakenKeepsSessions(n, capacity, token);
  }

  lemma TakenKeepsSessions(n: Net, capacity: nat, token: bool)
    requires Enabled(n, Deliver(token)) && n.links[n.conn.value].down[0].Dispatch?
    requires SessionsOk(Popped(n, n.conn.value), capacity)
    ensures SessionsOk(TakeFrame(n, token), capacity)
  {
    var n' := TakeFrame(n, token);
    forall k | k in n'.sessions ensures SessionOk(n', capacity, k) {
      assert SessionOk(Popped(n, n.conn.value), capacity, k);
    }
  }

  lemma DeliverHelloKeepsInv(n: Net, capacity: nat, token: bool)
    requires Inv(n, capacity) && Enabled(n, Deliver(token))
    requires n.links[n.conn.value].down[0].Hello?
    ensures Inv(TakeFrame(n, token), capacity)
  {
    PopControlKeepsInv(n, capacity, token);
    if token {
      AskKeepsInv(Popped(n, n.conn.value), capacity, n.conn.value, Greeting(n.memory));
    }
  }

  lemma ForgottenKeepsInv(n: Net, capacity: nat)
    requires Inv(n, capacity) && n.conn.Some?
    requires n.links[n.conn.value].session.None? && Replies(n.links[n.conn.value].up) == 0
    ensures Inv(n.(memory := Forgotten(n.memory)), capacity)
  {
    var n' := n.(memory := Forgotten(n.memory));
    var l := n.links[n.conn.value];
    forall r | r in l.up && r.Resume? ensures false {
      ReplyCounted(l.up, r);
    }
    forall k | k in n'.sessions ensures SessionOk(n', capacity, k) {
      assert SessionOk(n, capacity, k);
    }
  }

  lemma DeliverInvalidKeepsInv(n: Net, capacity: nat, token: bool)
    requires Inv(n, capacity) && Enabled(n, Deliver(token))
    requires n.links[n.conn.value].down[0].InvalidSession?
    ensures Inv(TakeFrame(n, token), capacity)
  {
    PopControlKeepsInv(n, capacity, token);
    var n1 := Popped(n, n.conn.value);
    ForgottenKeepsInv(n1, capacity);
    if token {
      AskKeepsInv(n1.(memory := Forgotten(n.memory)), capacity, n.conn.value, Identify);
    }
  }

  lemma DeliverKeepsInv(n: Net, capacity: nat, token: bool)
    requires Inv(n, capacity) && Enabled(n, Deliver(token))
    ensures Inv(TakeFrame(n, token), capacity)
  {
    match n.links[n.conn.value].down[0] {
      case Hello => DeliverHelloKeepsInv(n, capacity, token);
      case Dispatch(_) => DeliverDispatchKeepsInv(n, capacity, token);
      case InvalidSession => DeliverInvalidKeepsInv(n, capacity, token);
      case _ => PopControlKeepsInv(n, capacity, token);
    }
  }

  // The server's side of a request. `Heard` is the net with the head of a
  // socket's upstream removed.

  function Heard(n: Net, c: ConnId): Net
    requires c in n.links && n.links[c].up != []
  {
    n.(links := n.links[c := n.links[c].(up := n.links[c].up[1..])])
  }

  lemma HeardKeepsInv(n: Net, capacity: nat, c: ConnId)
    requires Inv(n, capacity) && c in n.links && n.links[c].up != []
    ensures Inv(Heard(n, c), capacity)
  {
    var n' := Heard(n, c);
    var up := n.links[c].up;
    assert forall r :: r in up[1..] ==> r in up;
    forall k | k in n'.sessions ensures SessionOk(n', capacity, k) {
      assert SessionOk(n, capacity, k);
    }
  }

  /** No session is attached to a socket that nothing was bound to. */
  lemma UnboundHasNoOutbox(n: Net, capacity: nat, c: ConnId, id: SessionId)
    requires SessionsOk(n, capacity) && c in n.links && n.links[c].session.None? && id in n.sessions
    ensures n.sessions[id].outbox != Some(c)
  {
    assert SessionOk(n, capacity, id);
  }

  /** A socket free for a handshake: unbound, and if it is the client's, with no
      other handshake under way. */
  ghost predicate Idle(n: Net, c: ConnId) {
    && c in n.links && n.links[c].session.None?
    && (n.conn == Some(c) ==> Calls(n.links[c].down) + Replies(n.links[c].up) == 0)
  }

  lemma IdentifySessions(n: Net, capacity: nat, c: ConnId, newId: SessionId, room: Option<RoomState>)
    requires SessionsOk(n, capacity) && c in n.links && n.links[c].session.None? && newId !in n.sessions
    ensures SessionsOk(AnswerIdentify(n, capacity, c, newId, room), capacity)
  {
    var n' := AnswerIdentify(n, capacity, c, newId, room);
    RecordRefines(EMPTY_RING, capacity, [], Ready(newId, room));
    assert [] + [Ready(newId, room)] == [Ready(newId, room)];
    forall k | k in n'.sessions ensures SessionOk(n', capacity, k) {
      if k != newId {
        UnboundHasNoOutbox(n, capacity, c, k);
        assert SessionOk(n, capacity, k);
      }
    }
  }

  /** What answering an IDENTIFY changes: one new session, one frame on the socket
      that asked. */
  ghost predicate Identified(n: Net, n': Net, c: ConnId, newId: SessionId, ready: Event)
    requires c in n.links
  {
    var l := n.links[c];
    && n'.memory == n.memory && n'.conn == n.conn
    && n'.links == n.links[c := l.(session := Some(newId), down := l.down + [Dispatch(Frame(1, ready))])]
    && n'.sessions.Keys == n.sessions.Keys + {newId}
    && (forall k :: k in n.sessions ==> n'.sessions[k] == n.sessions[k])
    && n'.sessions[newId].log == [ready] && n'.sessions[newId].outbox == Some(c)
  }

  lemma IdentifyShape(n: Net, capacity: nat, c: ConnId, newId: SessionId, room: Option<RoomState>)
    requires c in n.links && newId !in n.sessions
    ensures Identified(n, AnswerIdentify(n, capacity, c, newId, room), c, newId, Ready(newId, room))
  {
  }

  lemma IdentifiedConn(n: Net, n': Net, c: ConnId, newId: SessionId, ready: Event)
    requires ConnOk(n) && Idle(n, c) && newId !in n.sessions && Identified(n, n', c, newId, ready)
    requires n.conn == Some(c) ==> n.memory.sessionId.None?
    ensures ConnOk(n')
  {
    CarriedOne(n.links[c].down, Dispatch(Frame(1, ready)));
    assert Frames([ready])[0..1] == [Frame(1, ready)];
  }

  lemma IdentifiedMemory(n: Net, n': Net, c: ConnId, newId: SessionId, ready: Event)
    requires c in n.links && MemoryOk(n) && newId !in n.sessions && Identified(n, n', c, newId, ready)
    ensures MemoryOk(n')
  {
  }

  lemma IdentifyConn(n: Net, capacity: nat, c: ConnId, newId: SessionId, room: Option<RoomState>)
    requires ConnOk(n) && MemoryOk(n) && Idle(n, c) && newId !in n.sessions
    requires n.conn == Some(c) ==> n.memory.sessionId.None?
    ensures ConnOk(AnswerIdentify(n, capacity, c, newId, room))
    ensures MemoryOk(AnswerIdentify(n, capacity, c, newId, room))
  {
    var n', ready := AnswerIdentify(n, capacity, c, newId, room), Ready(newId, room);
    IdentifyShape(n, capacity, c, newId, room);
    IdentifiedConn(n, n', c, newId, ready);
    IdentifiedMemory(n, n', c, newId, ready);
  }

  lemma InvalidKeepsConn(n: Net, c: ConnId)
    requires ConnOk(n) && Idle(n, c)
    ensures ConnOk(Send(n, c, [InvalidSession]))
  {
    CarriedOne(n.links[c].down, InvalidSession);
  }

  lemma InvalidKeepsInv(n: Net, capacity: nat, c: ConnId)
    requires Inv(n, capacity) && Idle(n, c)
    ensures Inv(Send(n, c, [InvalidSession]), capacity)
  {
    InvalidKeepsConn(n, c);
    SendKeepsSessions(n, capacity, c, [InvalidSession]);
  }

  /** The net after the missed frames went out and before RESUMED does. */
  function Replayed(n: Net, c: ConnId, id: SessionId, missed: seq<Frame>): Net
    requires c in n.links && id in n.sessions
  {
    Send(Bind(n, c, id), c, Dispatches(missed))
  }

  lemma ReplayedSessions(n: Net, capacity: nat, c: ConnId, id: SessionId, missed: seq<Frame>)
    requires SessionsOk(n, capacity) && c in n.links && n.links[c].session.None? && id in n.sessions
    ensures SessionsOk(Replayed(n, c, id, missed), capacity)
  {
    var n' := Replayed(n, c, id, missed);
    forall k | k in n'.sessions ensures SessionOk(n', capacity, k) {
      UnboundHasNoOutbox(n, capacity, c, k);
      assert SessionOk(n, capacity, k);
    }
  }

  /** What the missed frames change: the session is bound, and they follow what the
      socket already carried. */
  ghost predicate ReplayedTo(n: Net, n': Net, c: ConnId, id: SessionId, missed: seq<Frame>)
    requires c in n.links && id in n.sessions
  {
    var l := n.links[c];
    && n'.memory == n.memory && n'.conn == n.conn
    && n'.links.Keys == n.links.Keys
    && (forall k :: k in n.links && k != c ==> n'.links[k] == n.links[k])
    && n'.sessions == n.sessions[id := n.sessions[id].(outbox := Some(c))]
    && n'.links[c].up == l.up && n'.links[c].session == Some(id)
    && Carried(n'.links[c].down) == Carried(l.down) + missed
    && Calls(n'.links[c].down) == Calls(l.down)
  }

  lemma ReplayedShape(n: Net, c: ConnId, id: SessionId, missed: seq<Frame>)
    requires c in n.links && id in n.sessions
    ensures ReplayedTo(n, Replayed(n, c, id, missed), c, id, missed)
  {
    var down := n.links[c].down;
    CarriedAppend(down, Dispatches(missed));
    CallsAppend(down, Dispatches(missed));
    DispatchesCarry(missed);
  }

  lemma ReplayedToConn(n: Net, n': Net, c: ConnId, id: SessionId, missed: seq<Frame>)
    requires ConnOk(n) && MemoryOk(n) && Idle(n, c) && id in n.sessions && ReplayedTo(n, n', c, id, missed)
    requires n.conn == Some(c) ==>
               && n.memory.sessionId == Some(id)
               && missed == Frames(n.sessions[id].log)[n.memory.lastSeq..]
    ensures ConnOk(n') && MemoryOk(n')
  {
  }

  lemma ReplayedConn(n: Net, c: ConnId, id: SessionId, missed: seq<Frame>)
    requires ConnOk(n) && MemoryOk(n) && Idle(n, c) && id in n.sessions
    requires n.conn == Some(c) ==>
               && n.memory.sessionId == Some(id)
               && missed == Frames(n.sessions[id].log)[n.memory.lastSeq..]
    ensures ConnOk(Replayed(n, c, id, missed)) && MemoryOk(Replayed(n, c, id, missed))
  {
    ReplayedShape(n, c, id, missed);
    ReplayedToConn(n, Replayed(n, c, id, missed), c, id, missed);
  }

  lemma ResumeKeepsInv(n: Net, capacity: nat, c: ConnId, id: SessionId, lastSeq: nat)
    requires Inv(n, capacity) && Idle(n, c)
    requires n.conn == Some(c) ==> n.memory.sessionId == Some(id) && n.memory.lastSeq == lastSeq
    ensures Inv(AnswerResume(n, capacity, c, id, lastSeq), capacity)
  {
    if id !in n.registry || id !in n.sessions {
      InvalidKeepsInv(n, capacity, c);
    } else {
      assert SessionOk(n, capacity, id);
      ReplayIsLogSuffix(n.sessions[id].ring, capacity, n.sessions[id].log, lastSeq);
      match Replay(n.sessions[id].ring, lastSeq) {
        case None =>
          ForgetKeepsInv(n, capacity, id);
          InvalidKeepsInv(n.(registry := n.registry - {id}), capacity, c);
        case Some(missed) =>
          ReplayedSessions(n, capacity, c, id, missed);
          ReplayedConn(n, c, id, missed);
          DispatchKeepsInv(Replayed(n, c, id, missed), capacity, id, Resumed(|missed|));
      }
    }
  }

  lemma HeardIsIdle(n: Net, capacity: nat, c: ConnId)
    requires Inv(n, capacity) && c in n.links && n.links[c].up != []
    requires !n.links[c].up[0].Heartbeat? && n.links[c].session.None?
    ensures Idle(Heard(n, c), c)
  {
  }

  lemma ServeKeepsInv(n: Net, capacity: nat, c: ConnId, newId: SessionId, room: Option<RoomState>)
    requires Inv(n, capacity) && Enabled(n, Receive(c, newId, room))
    ensures Inv(Serve(n, capacity, c, newId, room), capacity)
  {
    HeardKeepsInv(n, capacity, c);
    var n' := Heard(n, c);
    var r := n.links[c].up[0];
    assert r in n.links[c].up;
    if r.Heartbeat? {
      NoticeKeepsInv(n', capacity, c, HeartbeatAck);
    } else if n.links[c].session.Some? {
      FinishKeepsInv(n', capacity, c);
    } else {
      HeardIsIdle(n, capacity, c);
      if r.Identify? {
        IdentifySessions(n', capacity, c, newId, room);
        IdentifyConn(n', capacity, c, newId, room);
      } else {
        ResumeKeepsInv(n', capacity, c, r.sessionId, r.lastSeq);
      }
    }
  }

  lemma StepKeepsInv(n: Net, capacity: nat, step: Step)
    requires Inv(n, capacity) && Enabled(n, step)
    ensures Inv(Apply(n, capacity, step), capacity)
  {
    match step {
      case Open(c) => OpenKeepsInv(n, capacity, c);
      case Deliver(token) => DeliverKeepsInv(n, capacity, token);
      case Beat => AskKeepsInv(n, capacity, n.conn.value, Heartbeat);
      case Lose(code) => LoseKeepsInv(n, capacity, code);
      case Receive(c, newId, room) => ServeKeepsInv(n, capacity, c, newId, room);
      case EndServing(c) => FinishKeepsInv(n, capacity, c);
      case Publish(id, e) => DispatchKeepsInv(n, capacity, id, e);
      case Forget(id) => ForgetKeepsInv(n, capacity, id);
      case Evict(id) => EvictKeepsInv(n, capacity, id);
    }
  }

  lemma InitInv(capacity: nat)
    ensures Inv(INIT, capacity)
  {
  }

  lemma {:induction false} RunKeepsInv(n: Net, capacity: nat, steps: seq<Step>, n': Net)
    requires Inv(n, capacity) && Runs(n, capacity, steps, n')
    ensures Inv(n', capacity)
    decreases |steps|
  {
    if steps != [] {
      StepKeepsInv(n, capacity, steps[0]);
      RunKeepsInv(Apply(n, capacity, steps[0]), capacity, steps[1..], n');
    }
  }

  // ---------------------------------------------------------------------------
  // The theorems
  // ---------------------------------------------------------------------------

  /** End-to-end delivery. Whatever was dispatched, delivered, lost, resumed,
      evicted, taken over or forgotten, what a client has applied since READY is
      entry 1 to entry `lastSeq` of its session's log: no gap, repeat or reorder. */
  lemma EveryRunDeliversAPrefix(capacity: nat, steps: seq<Step>, n: Net, id: SessionId)
    requires Runs(INIT, capacity, steps, n)
    requires n.memory.sessionId == Some(id)
    ensures id in n.sessions
    ensures 1 <= n.memory.lastSeq <= |n.sessions[id].log|
    ensures n.memory.applied == n.sessions[id].log[..n.memory.lastSeq]
  {
    InitInv(capacity);
    RunKeepsInv(INIT, capacity, steps, n);
  }

  /** Delivers everything in flight to the client. */
  function Drain(n: Net): Net
    requires n.conn.Some? && n.conn.value in n.links
    decreases |n.links[n.conn.value].down|
  {
    if n.links[n.conn.value].down == [] then n else Drain(TakeFrame(n, true))
  }

  /** A client whose socket is its session's outbox holds the whole log as soon
      as nothing is in flight. */
  lemma {:induction false} DrainDeliversEverything(n: Net, capacity: nat, id: SessionId)
    requires Inv(n, capacity) && n.conn.Some? && n.links[n.conn.value].session == Some(id)
    requires n.sessions[id].outbox == n.conn
    ensures var n' := Drain(n);
            && n'.sessions == n.sessions
            && n'.memory.sessionId == Some(id)
            && n'.memory.applied == n.sessions[id].log
            && n'.memory.lastSeq == |n.sessions[id].log|
    decreases |n.links[n.conn.value].down|
  {
    assert SessionOk(n, capacity, id);
    var log := n.sessions[id].log;
    if n.links[n.conn.value].down == [] {
      assert log[..|log|] == log;
    } else {
      DeliverKeepsInv(n, capacity, true);
      DrainDeliversEverything(TakeFrame(n, true), capacity, id);
    }
  }

  /** A RESUME is granted exactly when the session is registered, nothing after the
      number was evicted, and the number is one that was given out. */
  lemma ResumeAcceptedIff(n: Net, capacity: nat, c: ConnId, id: SessionId, lastSeq: nat)
    requires Inv(n, capacity) && c in n.links && n.links[c].session.None?
    ensures var n' := AnswerResume(n, capacity, c, id, lastSeq);
            var log := if id in n.sessions then n.sessions[id].log else [];
            if id in n.sessions && id in n.registry && Evicted(capacity, |log|) <= lastSeq <= |log|
            then && n'.links[c].session == Some(id)
                 && n'.sessions[id].outbox == Some(c)
                 && n'.sessions[id].log == log + [Resumed(|log| - lastSeq)]
            else n'.links[c].session.None? && n'.sessions == n.sessions
  {
    if id in n.sessions {
      assert SessionOk(n, capacity, id);
      ReplayIsLogSuffix(n.sessions[id].ring, capacity, n.sessions[id].log, lastSeq);
    }
  }

  lemma ClientResumeAcceptedIff(n: Net, capacity: nat, c: ConnId, id: SessionId)
    requires Inv(n, capacity) && Idle(n, c) && n.conn == Some(c) && n.memory.sessionId == Some(id)
    ensures id in n.sessions
    ensures var n', log := AnswerResume(n, capacity, c, id, n.memory.lastSeq), n.sessions[id].log;
            && n'.conn == n.conn
            && (n'.links[c].session == Some(id) <==>
                id in n.registry && Evicted(capacity, |log|) <= n.memory.lastSeq)
            && (n'.links[c].session == Some(id) ==>
                && n'.sessions[id].outbox == Some(c)
                && n'.sessions[id].log == log + [Resumed(|log| - n.memory.lastSeq)])
  {
    assert id in n.sessions && SessionOk(n, capacity, id);
    ResumeAcceptedIff(n, capacity, c, id, n.memory.lastSeq);
  }

  /** A RESUME sent by the client is accepted exactly when the session is still
      registered and nothing the client lacks has been evicted. Then draining the
      socket brings it the whole log, RESUMED last. */
  lemma ResumeCatchesUp(n: Net, capacity: nat, c: ConnId, id: SessionId)
    requires Inv(n, capacity) && Idle(n, c) && n.conn == Some(c) && n.memory.sessionId == Some(id)
    ensures id in n.sessions
    ensures var n', log := AnswerResume(n, capacity, c, id, n.memory.lastSeq), n.sessions[id].log;
            && (n'.links[c].session == Some(id) <==>
                id in n.registry && Evicted(capacity, |log|) <= n.memory.lastSeq)
            && (n'.links[c].session == Some(id) ==>
                Drain(n').memory.applied == log + [Resumed(|log| - n.memory.lastSeq)])
  {
    ClientResumeAcceptedIff(n, capacity, c, id);
    ResumeKeepsInv(n, capacity, c, id, n.memory.lastSeq);
    var n' := AnswerResume(n, capacity, c, id, n.memory.lastSeq);
    if n'.links[c].session == Some(id) {
      DrainDeliversEverything(n', capacity, id);
    }
  }

  lemma ServingLeavesMemory(n: Net, capacity: nat, c: ConnId, newId: SessionId, room: Option<RoomState>)
    requires Enabled(n, Receive(c, newId, room))
    ensures Serve(n, capacity, c, newId, room).memory == n.memory
  {
  }

  lemma DeliveryNeverRewinds(n: Net, capacity: nat, token: bool)
    requires Inv(n, capacity) && Enabled(n, Deliver(token))
    requires n.memory.sessionId.Some? && TakeFrame(n, token).memory.sessionId == n.memory.sessionId
    ensures n.memory.applied <= TakeFrame(n, token).memory.applied
    ensures n.memory.lastSeq <= TakeFrame(n, token).memory.lastSeq
  {
    if n.links[n.conn.value].down[0].Dispatch? {
      var id := n.memory.sessionId.value;
      assert SessionOk(n, capacity, id);
      assert Carried(n.links[n.conn.value].down)[0] == Frames(n.sessions[id].log)[n.memory.lastSeq];
    }
  }

  /** While a client keeps its session, what it has applied only ever grows. */
  lemma ProgressNeverRewinds(n: Net, capacity: nat, step: Step)
    requires Inv(n, capacity) && Enabled(n, step)
    requires n.memory.sessionId.Some? && Apply(n, capacity, step).memory.sessionId == n.memory.sessionId
    ensures n.memory.applied <= Apply(n, capacity, step).memory.applied
    ensures n.memory.lastSeq <= Apply(n, capacity, step).memory.lastSeq
  {
    match step {
      case Deliver(token) => DeliveryNeverRewinds(n, capacity, token);
      case Receive(c, newId, room) => ServingLeavesMemory(n, capacity, c, newId, room);
      case _ =>
    }
  }
}
