/** Being cut off without losing the socket: which steps leave a session unable to
    reach the socket its client is still on, and what such a client can still hear. */
module LateDisconnect {
  import opened Protocol
  import opened Sessions
  import opened GatewayClients
  import opened Streams

  /** The client's socket serves this session. */
  predicate Serves(n: Net, id: SessionId) {
    && n.conn.Some? && n.conn.value in n.links && n.links[n.conn.value].session == Some(id)
    && id in n.sessions
  }

  /** And the session sends to that socket, and can be found to be sent to. */
  predicate Heeded(n: Net, id: SessionId) {
    Serves(n, id) && n.sessions[id].outbox == n.conn && id in n.registry
  }

  /** Or not. */
  predicate Unheeded(n: Net, id: SessionId) {
    Serves(n, id) && !Heeded(n, id)
  }

  /** The steps that take a session's outbox away, or the session out of the registry:
      the server's end of any socket bound to it finishes, a handshake repeated on such
      a socket finishes it, a RESUME on another socket is granted or finds the gap too
      wide, the sweep forgets it, or the connection limit evicts it. */
  predicate Silences(n: Net, capacity: nat, step: Step, id: SessionId)
    requires Enabled(n, step)
  {
    match step
    case EndServing(c) => n.links[c].session == Some(id)
    case Receive(c, _, _) =>
      var r := n.links[c].up[0];
      if n.links[c].session.Some? then n.links[c].session == Some(id) && !r.Heartbeat?
      else r.Resume? && r.sessionId == id && id in n.registry && id in n.sessions
    case Evict(who) => who == id
    case Forget(who) => who == id
    case _ => false
  }

  /** While the client does not lose its socket, one step leaves it heeded
      exactly when it is not one of those. */
  lemma StaysHeededIff(n: Net, capacity: nat, step: Step, id: SessionId)
    requires Enabled(n, step) && !step.Lose? && Heeded(n, id)
    ensures Heeded(Apply(n, capacity, step), id) <==> !Silences(n, capacity, step, id)
    ensures Heeded(Apply(n, capacity, step), id) || Unheeded(Apply(n, capacity, step), id)
  {
  }

  predicate KeepsSocket(steps: seq<Step>) {
    forall i :: 0 <= i < |steps| ==> !steps[i].Lose?
  }

  /** Some step of the run is one of those. */
  ghost predicate SilencesIn(n: Net, capacity: nat, steps: seq<Step>, n': Net, id: SessionId)
    requires Runs(n, capacity, steps, n')
    decreases |steps|
  {
    steps != [] &&
    (Silences(n, capacity, steps[0], id) || SilencesIn(Apply(n, capacity, steps[0]), capacity, steps[1..], n', id))
  }

  /** The last number the client can still get from the socket it is on. */
  function InReach(n: Net, id: SessionId): nat
    requires n.conn.Some? && n.conn.value in n.links
  {
    Position(n.memory, id) + |Carried(n.links[n.conn.value].down)|
  }

  /** The client's end of its socket is as it was, but for control frames. */
  ghost predicate Untold(n: Net, n': Net, id: SessionId) {
    && n'.conn == n.conn && n'.memory == n.memory && Unheeded(n, id) && Unheeded(n', id)
    && Carried(n'.links[n.conn.value].down) == Carried(n.links[n.conn.value].down)
  }

  lemma UnheededDispatch(n: Net, capacity: nat, k: SessionId, e: Event, id: SessionId)
    requires SessionsOk(n, capacity) && k in n.sessions && k in n.registry && Unheeded(n, id)
    ensures Untold(n, DispatchTo(n, capacity, k, e), id)
  {
    assert SessionOk(n, capacity, k);
  }

  lemma UnheededNotice(n: Net, c: ConnId, m: Message, id: SessionId)
    requires c in n.links && !m.Dispatch? && Unheeded(n, id)
    ensures Untold(n, Send(n, c, [m]), id)
  {
    CarriedOne(n.links[c].down, m);
  }

  lemma UnheededEvict(n: Net, capacity: nat, k: SessionId, id: SessionId)
    requires Enabled(n, Evict(k)) && Unheeded(n, id)
    ensures Untold(n, Apply(n, capacity, Evict(k)), id)
  {
    var v := n.sessions[k];
    if v.outbox.Some? && v.outbox.value in n.links {
      UnheededNotice(n, v.outbox.value, Reconnect, id);
    }
  }

  lemma UnheededIdentify(
    n: Net, capacity: nat, c: ConnId, newId: SessionId, room: Option<RoomState>, id: SessionId)
    requires c in n.links && n.links[c].session.None? && newId !in n.sessions && Unheeded(n, id)
    ensures Untold(n, AnswerIdentify(n, capacity, c, newId, room), id)
  {
    IdentifyShape(n, capacity, c, newId, room);
  }

  lemma UnheededResume(n: Net, capacity: nat, c: ConnId, k: SessionId, lastSeq: nat, id: SessionId)
    requires SessionsOk(n, capacity) && c in n.links && n.links[c].session.None? && Unheeded(n, id)
    ensures Untold(n, AnswerResume(n, capacity, c, k, lastSeq), id)
  {
    if k !in n.registry || k !in n.sessions {
      UnheededNotice(n, c, InvalidSession, id);
    } else if Replay(n.sessions[k].ring, lastSeq).None? {
      UnheededNotice(n.(registry := n.registry - {k}), c, InvalidSession, id);
    } else {
      var missed := Replay(n.sessions[k].ring, lastSeq).value;
      ReplayedShape(n, c, k, missed);
    }
  }

  lemma UnheededServe(
    n: Net, capacity: nat, c: ConnId, newId: SessionId, room: Option<RoomState>, id: SessionId)
    requires Inv(n, capacity) && Enabled(n, Receive(c, newId, room)) && Unheeded(n, id)
    ensures Untold(n, Serve(n, capacity, c, newId, room), id)
  {
    var n' := Heard(n, c);
    HeardKeepsInv(n, capacity, c);
    match n.links[c].up[0]
    case Heartbeat => UnheededNotice(n', c, HeartbeatAck, id);
    case Identify =>
      if n.links[c].session.None? {
        UnheededIdentify(n', capacity, c, newId, room, id);
      }
    case Resume(k, lastSeq) =>
      if n.links[c].session.None? {
        UnheededResume(n', capacity, c, k, lastSeq, id);
      }
  }

  lemma UnheededDeliver(n: Net, capacity: nat, token: bool, id: SessionId)
    requires Inv(n, capacity) && Enabled(n, Deliver(token)) && Unheeded(n, id)
    ensures Unheeded(TakeFrame(n, token), id) && InReach(TakeFrame(n, token), id) == InReach(n, id)
  {
    var down, log := n.links[n.conn.value].down, n.sessions[id].log;
    assert SessionOk(n, capacity, id);
    if down[0].Dispatch? {
      assert Carried(down)[0] == down[0].frame == Frames(log)[Position(n.memory, id)];
      assert Carried(down) == [down[0].frame] + Carried(down[1..]);
    }
  }

  /** Whatever is published, a socket its session no longer heeds brings the client
      nothing beyond what was already in flight. */
  lemma {:induction false} SilentFromThenOn(n: Net, capacity: nat, steps: seq<Step>, n': Net, id: SessionId)
    requires Inv(n, capacity) && Runs(n, capacity, steps, n') && KeepsSocket(steps) && Unheeded(n, id)
    ensures Unheeded(n', id) && InReach(n', id) == InReach(n, id)
    decreases |steps|
  {
    if steps != [] {
      UnheededStep(n, capacity, steps[0], id);
      StepKeepsInv(n, capacity, steps[0]);
      SilentFromThenOn(Apply(n, capacity, steps[0]), capacity, steps[1..], n', id);
    }
  }

  lemma UnheededStep(n: Net, capacity: nat, step: Step, id: SessionId)
    requires Inv(n, capacity) && Enabled(n, step) && !step.Lose? && Unheeded(n, id)
    ensures Unheeded(Apply(n, capacity, step), id) && InReach(Apply(n, capacity, step), id) == InReach(n, id)
  {
    match step
    case Deliver(token) => UnheededDeliver(n, capacity, token, id);
    case Receive(c, newId, room) => UnheededServe(n, capacity, c, newId, room, id);
    case Publish(k, e) => UnheededDispatch(n, capacity, k, e, id);
    case Evict(k) => UnheededEvict(n, capacity, k, id);
    case _ =>
  }

  /** Over every run in which the client keeps its socket, it is still heeded at the end
      exactly when no step of the run was one of those. */
  lemma {:induction false} StaysHeededOverRunIff(
    n: Net, capacity: nat, steps: seq<Step>, n': Net, id: SessionId)
    requires Inv(n, capacity) && Runs(n, capacity, steps, n') && KeepsSocket(steps) && Heeded(n, id)
    ensures Heeded(n', id) <==> !SilencesIn(n, capacity, steps, n', id)
    ensures Heeded(n', id) || Unheeded(n', id)
    decreases |steps|
  {
    if steps != [] {
      var next := Apply(n, capacity, steps[0]);
      StaysHeededIff(n, capacity, steps[0], id);
      StepKeepsInv(n, capacity, steps[0]);
      if Heeded(next, id) {
        StaysHeededOverRunIff(next, capacity, steps[1..], n', id);
      } else {
        SilentFromThenOn(next, capacity, steps[1..], n', id);
      }
    }
  }

  /** Something can still happen, with the client on its socket, that brings it more
      than what is in flight now. */
  ghost predicate MoreCanCome(n: Net, capacity: nat, id: SessionId)
    requires Serves(n, id)
  {
    exists steps, n' :: Runs(n, capacity, steps, n') && KeepsSocket(steps) && Serves(n', id)
                        && InReach(n', id) > InReach(n, id)
  }

  /** So being heeded is exactly what it takes to hear anything more. */
  lemma MoreCanComeIffHeeded(n: Net, capacity: nat, id: SessionId)
    requires Inv(n, capacity) && Serves(n, id)
    ensures MoreCanCome(n, capacity, id) <==> Heeded(n, id)
  {
    if Heeded(n, id) {
      var step := Publish(id, Resumed(0));
      var n' := Apply(n, capacity, step);
      StepKeepsInv(n, capacity, step);
      RunsOne(n, capacity, step, [], n');
      HeededReach(n, capacity, id);
      HeededReach(n', capacity, id);
      assert Runs(n, capacity, [step] + [], n') && KeepsSocket([step] + []);
    } else if MoreCanCome(n, capacity, id) {
      var steps, n' :| Runs(n, capacity, steps, n') && KeepsSocket(steps) && Serves(n', id)
                       && InReach(n', id) > InReach(n, id);
      SilentFromThenOn(n, capacity, steps, n', id);
      assert false;
    }
  }

  /** A heeded client can get the whole log. */
  lemma HeededReach(n: Net, capacity: nat, id: SessionId)
    requires Inv(n, capacity) && Heeded(n, id)
    ensures InReach(n, id) == |n.sessions[id].log|
  {
    assert SessionOk(n, capacity, id);
  }

  /** The end of an older socket. Over any later run that detaches nothing else, the
      client can get the whole log exactly when the older socket was not bound to
      the same session; otherwise it can get what was dispatched before and nothing
      since, on a socket that stays open. */
  lemma LateDisconnectSilencesTheClient(
    n: Net, capacity: nat, stale: ConnId, id: SessionId, steps: seq<Step>, n': Net)
    requires Inv(n, capacity) && Heeded(n, id) && Enabled(n, EndServing(stale))
    requires Runs(Apply(n, capacity, EndServing(stale)), capacity, steps, n') && KeepsSocket(steps)
    requires !SilencesIn(Apply(n, capacity, EndServing(stale)), capacity, steps, n', id)
    ensures n'.conn == n.conn
    ensures if n.links[stale].session == Some(id)
            then Unheeded(n', id) && InReach(n', id) == |n.sessions[id].log|
            else Heeded(n', id) && InReach(n', id) == |n'.sessions[id].log|
  {
    var next := Apply(n, capacity, EndServing(stale));
    StaysHeededIff(n, capacity, EndServing(stale), id);
    StepKeepsInv(n, capacity, EndServing(stale));
    RunKeepsInv(next, capacity, steps, n');
    KeepsItsSocket(next, capacity, steps, n');
    if n.links[stale].session == Some(id) {
      SilentFromThenOn(next, capacity, steps, n', id);
    } else {
      StaysHeededOverRunIff(next, capacity, steps, n', id);
    }
  }

  lemma {:induction false} KeepsItsSocket(n: Net, capacity: nat, steps: seq<Step>, n': Net)
    requires Runs(n, capacity, steps, n') && KeepsSocket(steps) && n.conn.Some?
    ensures n'.conn == n.conn
    decreases |steps|
  {
    if steps != [] {
      KeepsItsSocket(Apply(n, capacity, steps[0]), capacity, steps[1..], n');
    }
  }

  lemma RunsOne(n: Net, capacity: nat, step: Step, rest: seq<Step>, n': Net)
    requires Enabled(n, step) && Runs(Apply(n, capacity, step), capacity, rest, n')
    ensures Runs(n, capacity, [step] + rest, n')
  {
    assert ([step] + rest)[1..] == rest;
  }

  lemma OneFrame(m: Message)
    ensures [m][1..] == [] && [] + [m] == [m]
  {
  }

  lemma OneRequest(r: Request)
    ensures [r][1..] == [] && [] + [r] == [r]
  {
  }

  /** A client that has read its READY and lost the socket, whose server end has
      not noticed. */
  function Dropped(capacity: nat): Net {
    var ready := Ready(7, None);
    Net(map[7 := Served([ready], Record(EMPTY_RING, capacity, ready), Some(0))], {7},
        map[0 := Link([], [], Some(7), true)], Memory(Some(7), 1, [ready]), None)
  }

  /** The same client with READY still in flight. */
  function Greeted(capacity: nat): Net {
    var ready := Ready(7, None);
    Net(map[7 := Served([ready], Record(EMPTY_RING, capacity, ready), Some(0))], {7},
        map[0 := Link([Dispatch(Frame(1, ready))], [], Some(7), true)], BLANK, Some(0))
  }

  lemma DroppedIsReached(capacity: nat, rest: seq<Step>, n: Net)
    requires Runs(Dropped(capacity), capacity, rest, n)
    ensures Runs(Greeted(capacity), capacity, [Deliver(true)] + ([Lose(1006)] + rest), n)
  {
    OneFrame(Dispatch(Frame(1, Ready(7, None))));
    var read := Dropped(capacity).(conn := Some(0));
    assert Apply(read, capacity, Lose(1006)) == Dropped(capacity);
    RunsOne(read, capacity, Lose(1006), rest, n);
    assert Apply(Greeted(capacity), capacity, Deliver(true)) == read;
    RunsOne(Greeted(capacity), capacity, Deliver(true), [Lose(1006)] + rest, n);
  }

  lemma GreetedIsReached(capacity: nat, rest: seq<Step>, n: Net)
    requires Runs(Greeted(capacity), capacity, rest, n)
    ensures Runs(INIT, capacity, [Open(0)] + ([Deliver(true)] + ([Receive(0, 7, None)] + rest)), n)
  {
    var ready := Ready(7, None);
    OneFrame(Hello);
    OneFrame(Dispatch(Frame(1, ready)));
    OneRequest(Identify);
    var n1 := INIT.(links := map[0 := Link([Hello], [], None, true)], conn := Some(0));
    var n2 := INIT.(links := map[0 := Link([], [Identify], None, true)], conn := Some(0));
    assert [] + [ready] == [ready];
    assert Apply(n2, capacity, Receive(0, 7, None)) == Greeted(capacity);
    RunsOne(n2, capacity, Receive(0, 7, None), rest, n);
    assert Apply(n1, capacity, Deliver(true)) == n2;
    RunsOne(n1, capacity, Deliver(true), [Receive(0, 7, None)] + rest, n);
    assert Apply(INIT, capacity, Open(0)) == n1;
    RunsOne(INIT, capacity, Open(0), [Deliver(true)] + ([Receive(0, 7, None)] + rest), n);
  }

  /** And asking to resume on a second socket, the first still held. */
  function Asking(capacity: nat): Net {
    Dropped(capacity).(links := map[0 := Link([], [], Some(7), true), 1 := Link([], [Resume(7, 1)], None, true)],
                       conn := Some(1))
  }

  lemma AskingIsReached(capacity: nat, rest: seq<Step>, n: Net)
    requires Runs(Asking(capacity), capacity, rest, n)
    ensures Runs(Dropped(capacity), capacity, [Open(1)] + ([Deliver(true)] + rest), n)
  {
    OneFrame(Hello);
    OneRequest(Resume(7, 1));
    var n6 := Dropped(capacity).(
      links := map[0 := Link([], [], Some(7), true), 1 := Link([Hello], [], None, true)], conn := Some(1));
    assert Apply(n6, capacity, Deliver(true)) == Asking(capacity);
    RunsOne(n6, capacity, Deliver(true), rest, n);
    assert Apply(Dropped(capacity), capacity, Open(1)) == n6;
    RunsOne(Dropped(capacity), capacity, Open(1), [Deliver(true)] + rest, n);
  }

  /** The run from the start to there, continued. */
  lemma RunToAsking(capacity: nat, rest: seq<Step>, n: Net) returns (steps: seq<Step>)
    requires Runs(Asking(capacity), capacity, rest, n)
    ensures Runs(INIT, capacity, steps, n)
  {
    AskingIsReached(capacity, rest, n);
    var asking := [Open(1)] + ([Deliver(true)] + rest);
    DroppedIsReached(capacity, asking, n);
    var dropped := [Deliver(true)] + ([Lose(1006)] + asking);
    GreetedIsReached(capacity, dropped, n);
    steps := [Open(0)] + ([Deliver(true)] + ([Receive(0, 7, None)] + dropped));
  }

  /** A granted RESUME touches one session and one socket. */
  lemma ResumeFrame(n: Net, capacity: nat, c: ConnId, id: SessionId, lastSeq: nat)
    requires c in n.links && id in n.registry && id in n.sessions && Replay(n.sessions[id].ring, lastSeq).Some?
    ensures var n' := AnswerResume(n, capacity, c, id, lastSeq);
            && n'.conn == n.conn && n'.memory == n.memory && n'.registry == n.registry
            && n'.links.Keys == n.links.Keys && n'.links[c].serving == n.links[c].serving
            && (forall k :: k in n.links && k != c ==> n'.links[k] == n.links[k])
  {
  }

  /** The client's RESUME, heard and granted: its socket is heeded, and every other
      socket is as it was. */
  lemma ResumeIsGranted(n: Net, capacity: nat, c: ConnId, newId: SessionId, id: SessionId, lastSeq: nat)
    requires Inv(n, capacity) && Enabled(n, Receive(c, newId, None)) && n.conn == Some(c)
    requires n.links[c].session.None? && n.links[c].up[0] == Resume(id, lastSeq)
    requires id in n.registry && id in n.sessions
    requires Evicted(capacity, |n.sessions[id].log|) <= lastSeq <= |n.sessions[id].log|
    ensures var n', log := Apply(n, capacity, Receive(c, newId, None)), n.sessions[id].log;
            && Heeded(n', id) && n'.memory == n.memory && n'.conn == n.conn
            && n'.sessions[id].log == log + [Resumed(|log| - lastSeq)]
            && n'.links[c].serving && n'.links.Keys == n.links.Keys
            && forall k :: k in n.links && k != c ==> n'.links[k] == n.links[k]
  {
    var heard := Heard(n, c);
    HeardKeepsInv(n, capacity, c);
    assert heard.sessions == n.sessions && heard.links[c].session.None?;
    GrantedIsHeeded(heard, capacity, c, id, lastSeq);
    assert forall k :: k in n.links && k != c ==> heard.links[k] == n.links[k];
  }

  lemma GrantedIsHeeded(n: Net, capacity: nat, c: ConnId, id: SessionId, lastSeq: nat)
    requires Inv(n, capacity) && n.conn == Some(c) && c in n.links && n.links[c].session.None?
    requires id in n.registry && id in n.sessions
    requires Evicted(capacity, |n.sessions[id].log|) <= lastSeq <= |n.sessions[id].log|
    ensures var n', log := AnswerResume(n, capacity, c, id, lastSeq), n.sessions[id].log;
            && Heeded(n', id) && n'.memory == n.memory && n'.conn == n.conn
            && n'.sessions[id].log == log + [Resumed(|log| - lastSeq)]
            && n'.links[c].serving == n.links[c].serving && n'.links.Keys == n.links.Keys
            && forall k :: k in n.links && k != c ==> n'.links[k] == n.links[k]
  {
    assert SessionOk(n, capacity, id);
    ReplayIsLogSuffix(n.sessions[id].ring, capacity, n.sessions[id].log, lastSeq);
    ResumeAcceptedIff(n, capacity, c, id, lastSeq);
    ResumeFrame(n, capacity, c, id, lastSeq);
  }

  lemma AskingIsInv(capacity: nat)
    ensures Inv(Asking(capacity), capacity)
  {
    var start := RunToAsking(capacity, [], Asking(capacity));
    InitInv(capacity);
    RunKeepsInv(INIT, capacity, start, Asking(capacity));
  }

  lemma ResumeIsServed(capacity: nat)
    ensures Inv(Asking(capacity), capacity) && Enabled(Asking(capacity), Receive(1, 8, None))
    ensures var n := Apply(Asking(capacity), capacity, Receive(1, 8, None));
            && Heeded(n, 7) && n.memory.sessionId == Some(7) && n.conn == Some(1)
            && n.sessions[7].log == [Ready(7, None)] + [Resumed(0)]
            && n.links[1].serving && 0 in n.links && n.links[0].serving && n.links[0].session == Some(7)
  {
    AskingIsInv(capacity);
    ResumeIsGranted(Asking(capacity), capacity, 1, 8, 7, 1);
  }

  lemma EndThenPublish(n: Net, capacity: nat, stale: ConnId, id: SessionId, e: Event) returns (n': Net)
    requires Inv(n, capacity) && Heeded(n, id) && !e.Ready? && n.links[n.conn.value].serving
    requires stale != n.conn.value && Enabled(n, EndServing(stale)) && n.links[stale].session == Some(id)
    ensures Runs(n, capacity, [EndServing(stale)] + ([Publish(id, e)] + []), n')
    ensures Unheeded(n', id) && n'.links[n'.conn.value].serving && n'.memory == n.memory
    ensures n'.sessions[id].log == n.sessions[id].log + [e] && InReach(n', id) == |n.sessions[id].log|
  {
    var mid := Apply(n, capacity, EndServing(stale));
    n' := Apply(mid, capacity, Publish(id, e));
    var tail := [Publish(id, e)] + [];
    RunsOne(mid, capacity, Publish(id, e), [], n');
    RunsOne(n, capacity, EndServing(stale), tail, n');
    LateDisconnectSilencesTheClient(n, capacity, stale, id, tail, n');
  }

  lemma EndingFromAsking(capacity: nat, e: Event) returns (n: Net)
    requires !e.Ready?
    ensures Runs(Asking(capacity), capacity,
                 [Receive(1, 8, None)] + ([EndServing(0)] + ([Publish(7, e)] + [])), n)
    ensures Unheeded(n, 7) && n.links[n.conn.value].serving && n.memory.sessionId == Some(7)
    ensures n.sessions[7].log == [Ready(7, None)] + [Resumed(0)] + [e] && InReach(n, 7) == 2
  {
    var asking, resume := Asking(capacity), Receive(1, 8, None);
    ResumeIsServed(capacity);
    StepKeepsInv(asking, capacity, resume);
    n := EndThenPublish(Apply(asking, capacity, resume), capacity, 0, 7, e);
    RunsOne(asking, capacity, resume, [EndServing(0)] + ([Publish(7, e)] + []), n);
  }

  /** And it happens: identify, lose the socket, resume on another, and only then
      does the first one's server end finish. The next event never comes. */
  lemma LateDisconnectHappens(capacity: nat, e: Event) returns (steps: seq<Step>, n: Net)
    requires !e.Ready?
    ensures Runs(INIT, capacity, steps, n)
    ensures Unheeded(n, 7) && n.links[n.conn.value].serving && n.memory.sessionId == Some(7)
    ensures n.sessions[7].log == [Ready(7, None), Resumed(0), e] && InReach(n, 7) == 2
  {
    n := EndingFromAsking(capacity, e);
    steps := RunToAsking(capacity, [Receive(1, 8, None)] + ([EndServing(0)] + ([Publish(7, e)] + [])), n);
  }
}
