/** The two halves put together: webhooks and evictions change the table and publish,
    the stream loses sockets and resumes, and the client folds what it is delivered.
    Every session here belongs to one viewer, and the table is looked at for one room. */
module LiveView {
  import opened Basics
  import opened Protocol
  import opened Sessions
  import opened GatewayClients
  import opened Streams
  import opened RoomStore
  import opened RoomLaws
  import opened Presence
  import opened RoomView
  import opened ViewRuns

  /** `sights` is history: for each session, how what its log folds to stands to the
      room. */
  datatype World = World(net: Net, table: Table, sights: map<SessionId, Sight>)

  /** `ids` lists the viewer's registered sessions, as the hub keeps them. */
  datatype Move =
    | Network(step: Streams.Step)
    | Hook(tick: Tick, ids: seq<SessionId>)
    | Announce(event: Event, ids: seq<SessionId>)

  function SightOn(x: World, id: SessionId): Sight {
    if id in x.sights then x.sights[id] else Elsewhere
  }

  /** One event to each listed session. */
  function PublishEach(n: Net, capacity: nat, ids: seq<SessionId>, e: Event): Net
    decreases |ids|
  {
    if ids == [] then n
    else if ids[0] in n.sessions then PublishEach(DispatchTo(n, capacity, ids[0], e), capacity, ids[1..], e)
    else PublishEach(n, capacity, ids[1..], e)
  }

  function PublishAll(n: Net, capacity: nat, ids: seq<SessionId>, events: seq<Event>): Net
    decreases |events|
  {
    if events == [] then n
    else PublishAll(PublishEach(n, capacity, ids, events[0]), capacity, ids, events[1..])
  }

  /** The registered sessions, each once. */
  ghost predicate ListsRegistry(ids: seq<SessionId>, n: Net) {
    && (forall i, j :: 0 <= i < j < |ids| ==> ids[i] != ids[j])
    && (forall id :: id in ids <==> id in n.registry)
  }

  /** What may happen: any network step, any change and any end of its handler, and any
      ROOM_JOIN or ROOM_LEAVE. Rooms that are sent carry no person's source twice. */
  ghost predicate Allowed(x: World, m: Move) {
    match m
    case Network(step) =>
      && Streams.Enabled(x.net, step) && !step.Publish?
      && (step.Receive? && step.room.Some? ==> StateOk(step.room.value))
    case Hook(_, ids) => ListsRegistry(ids, x.net)
    case Announce(e, ids) => ListsRegistry(ids, x.net) && EventOk(e) && (e.RoomJoin? || e.RoomLeave?)
  }

  /** A session's sight of room `c` after a snapshot, or after being told to leave. */
  function SightAfterEvent(sight: Sight, e: Event, t: Table, c: ChannelId): Sight {
    match e
    case Ready(_, _) => SightOf(RoomStore.Apply(EMPTY_ROOM, e), t, c)
    case RoomJoin(_) => SightOf(RoomStore.Apply(EMPTY_ROOM, e), t, c)
    case RoomLeave(d, _) => if d == c then Elsewhere else sight
    case _ => sight
  }

  function Perform(x: World, capacity: nat, m: Move, c: ChannelId, v: UserId): World
    requires m.Network? ==> Streams.Enabled(x.net, m.step)
  {
    match m
    case Network(step) =>
      var n' := Streams.Apply(x.net, capacity, step);
      x.(net := n',
         sights := if step.Receive? && step.newId in n'.sessions
                   then x.sights[step.newId :=
                     SightAfterEvent(Elsewhere, Ready(step.newId, step.room), x.table, c)]
                   else x.sights)
    case Hook(tick, ids) =>
      World(PublishAll(x.net, capacity, ids, HeardBy(x.table, tick, v)), Next(x.table, tick),
            map id | id in x.net.registry :: SightAfter(x.table, tick, c, v, SightOn(x, id)))
    case Announce(e, ids) =>
      World(PublishEach(x.net, capacity, ids, e), x.table,
            map id | id in x.net.registry :: SightAfterEvent(SightOn(x, id), e, x.table, c))
  }

  /** A snapshot sent with the room as it is: nobody is off. */
  lemma FreshSnapshotIsRight(sight: Sight, e: Event, state: RoomState, t: Table)
    requires e == RoomJoin(state) || (e.Ready? && e.room == Some(state))
    requires Lists(state.participants, t, state.channel)
    ensures SightAfterEvent(sight, e, t, state.channel) == Looking(map[])
  {
    SnapshotAgrees(state, t);
    RightSight(FromState(state), t, state.channel);
  }

  /** A run with all the moments it passes through. */
  ghost predicate Trace(xs: seq<World>, capacity: nat, moves: seq<Move>, c: ChannelId, v: UserId) {
    && |xs| == |moves| + 1
    && forall i :: 0 <= i < |moves| ==>
         Allowed(xs[i], moves[i]) && xs[i + 1] == Perform(xs[i], capacity, moves[i], c, v)
  }

  /** What a client shows after folding some events. */
  function View(events: seq<Event>): Room {
    ApplyAll(EMPTY_ROOM, events)
  }

  /** What the log of any registered session folds to stands to the room as the history
      says. */
  ghost predicate LogsAgree(x: World, c: ChannelId) {
    && x.net.registry <= x.net.sessions.Keys && x.sights.Keys <= x.net.sessions.Keys
    && forall id :: id in x.net.registry ==> LogAgrees(x, c, id)
  }

  ghost predicate LogAgrees(x: World, c: ChannelId, id: SessionId)
    requires id in x.net.sessions
  {
    WellFormed(View(x.net.sessions[id].log)) && Sees(View(x.net.sessions[id].log), x.table, c, SightOn(x, id))
  }

  lemma ViewSnoc(log: seq<Event>, e: Event)
    ensures View(log + [e]) == RoomStore.Apply(View(log), e)
  {
    ApplyAllAppend(EMPTY_ROOM, log, [e]);
    ApplyOne(View(log), e);
  }

  // ---------------------------------------------------------------------------
  // Publishing
  // ---------------------------------------------------------------------------

  lemma {:induction false} PublishEachKeepsInv(n: Net, capacity: nat, ids: seq<SessionId>, e: Event)
    requires Inv(n, capacity) && !e.Ready?
    ensures Inv(PublishEach(n, capacity, ids, e), capacity)
    decreases |ids|
  {
    if ids != [] {
      if ids[0] in n.sessions {
        DispatchKeepsInv(n, capacity, ids[0], e);
        PublishEachKeepsInv(DispatchTo(n, capacity, ids[0], e), capacity, ids[1..], e);
      } else {
        PublishEachKeepsInv(n, capacity, ids[1..], e);
      }
    }
  }

  lemma {:induction false} PublishEachGrows(n: Net, capacity: nat, ids: seq<SessionId>, e: Event)
    requires forall i, j :: 0 <= i < j < |ids| ==> ids[i] != ids[j]
    ensures var n' := PublishEach(n, capacity, ids, e);
            && n'.registry == n.registry && n'.sessions.Keys == n.sessions.Keys
            && (forall id :: id in n.sessions ==>
                  n'.sessions[id].log == if id in ids then n.sessions[id].log + [e] else n.sessions[id].log)
    decreases |ids|
  {
    if ids != [] {
      var rest := ids[1..];
      assert forall id :: id in ids <==> id == ids[0] || id in rest;
      assert ids[0] !in rest;
      PublishEachGrows(if ids[0] in n.sessions then DispatchTo(n, capacity, ids[0], e) else n, capacity, rest, e);
    }
  }

  lemma PublishEachLogs(n: Net, capacity: nat, ids: seq<SessionId>, e: Event)
    requires forall i, j :: 0 <= i < j < |ids| ==> ids[i] != ids[j]
    requires Inv(n, capacity) && !e.Ready?
    ensures var n' := PublishEach(n, capacity, ids, e);
            && Inv(n', capacity)
            && n'.registry == n.registry && n'.sessions.Keys == n.sessions.Keys
            && (forall id :: id in n.sessions ==>
                  n'.sessions[id].log == if id in ids then n.sessions[id].log + [e] else n.sessions[id].log)
  {
    PublishEachKeepsInv(n, capacity, ids, e);
    PublishEachGrows(n, capacity, ids, e);
  }

  lemma {:induction false} PublishAllLogs(n: Net, capacity: nat, ids: seq<SessionId>, events: seq<Event>)
    requires forall i, j :: 0 <= i < j < |ids| ==> ids[i] != ids[j]
    requires Inv(n, capacity) && forall i :: 0 <= i < |events| ==> !events[i].Ready?
    ensures var n' := PublishAll(n, capacity, ids, events);
            && Inv(n', capacity)
            && n'.registry == n.registry && n'.sessions.Keys == n.sessions.Keys
            && (forall id :: id in n.sessions ==>
                  n'.sessions[id].log == if id in ids then n.sessions[id].log + events else n.sessions[id].log)
    decreases |events|
  {
    if events != [] {
      PublishEachLogs(n, capacity, ids, events[0]);
      var n1 := PublishEach(n, capacity, ids, events[0]);
      PublishAllLogs(n1, capacity, ids, events[1..]);
      forall log: seq<Event> ensures log + [events[0]] + events[1..] == log + events {
      }
    }
  }

  // ---------------------------------------------------------------------------
  // Network steps
  // ---------------------------------------------------------------------------

  /** A network step either leaves a session's log alone, ends a registered one with
      RESUMED, or starts a new one with READY. */
  ghost predicate LogMoves(n: Net, n': Net, step: Streams.Step, id: SessionId)
    requires id in n'.sessions
  {
    var log' := n'.sessions[id].log;
    if id !in n.sessions then step.Receive? && id == step.newId && log' == [Ready(id, step.room)] && id in n'.registry
    else
      || log' == n.sessions[id].log
      || (id in n'.registry && exists k :: log' == n.sessions[id].log + [Resumed(k)])
  }

  lemma ResumeLogs(n: Net, capacity: nat, c: ConnId, id: SessionId, lastSeq: nat)
    requires c in n.links && n.registry <= n.sessions.Keys
    ensures var n' := AnswerResume(n, capacity, c, id, lastSeq);
            && n'.registry <= n.registry && n'.sessions.Keys == n.sessions.Keys
            && (forall x :: x in n.sessions && x != id ==> n'.sessions[x].log == n.sessions[x].log)
            && (id in n.sessions ==>
                  || n'.sessions[id].log == n.sessions[id].log
                  || (id in n'.registry && exists k :: n'.sessions[id].log == n.sessions[id].log + [Resumed(k)]))
  {
  }

  lemma ServeLogs(n: Net, capacity: nat, step: Streams.Step)
    requires step.Receive? && Streams.Enabled(n, step) && n.registry <= n.sessions.Keys
    ensures var n' := Streams.Apply(n, capacity, step);
            && n'.registry <= n'.sessions.Keys && n.sessions.Keys <= n'.sessions.Keys
            && n'.registry <= n.registry + (n'.sessions.Keys - n.sessions.Keys)
            && forall id :: id in n'.sessions ==> LogMoves(n, n', step, id)
  {
    var c, r := step.at, n.links[step.at].up[0];
    var n0 := Heard(n, c);
    if r.Resume? && n.links[c].session.None? {
      ResumeLogs(n0, capacity, c, r.sessionId, r.lastSeq);
    } else if r.Identify? && n.links[c].session.None? {
      assert [] + [Ready(step.newId, step.room)] == [Ready(step.newId, step.room)];
    }
  }

  lemma NetworkLogs(n: Net, capacity: nat, step: Streams.Step)
    requires Streams.Enabled(n, step) && !step.Publish? && n.registry <= n.sessions.Keys
    ensures var n' := Streams.Apply(n, capacity, step);
            && n'.registry <= n'.sessions.Keys && n.sessions.Keys <= n'.sessions.Keys
            && n'.registry <= n.registry + (n'.sessions.Keys - n.sessions.Keys)
            && forall id :: id in n'.sessions ==> LogMoves(n, n', step, id)
  {
    if step.Receive? {
      ServeLogs(n, capacity, step);
    }
  }

  // ---------------------------------------------------------------------------
  // Every move keeps the logs in agreement with the table
  // ---------------------------------------------------------------------------

  lemma GreetedAgrees(id: SessionId, room: Option<RoomState>, t: Table, c: ChannelId)
    requires room.Some? ==> StateOk(room.value)
    ensures var log := [Ready(id, room)];
            && WellFormed(View(log))
            && Sees(View(log), t, c, SightAfterEvent(Elsewhere, Ready(id, room), t, c))
  {
    ApplyOne(EMPTY_ROOM, Ready(id, room));
    EverySnapshotIsWellFormed(EMPTY_ROOM, [Ready(id, room)]);
    SightOfSees(View([Ready(id, room)]), t, c);
  }

  lemma NetworkAgrees(x: World, capacity: nat, m: Move, c: ChannelId, v: UserId)
    requires Inv(x.net, capacity) && LogsAgree(x, c) && m.Network? && Allowed(x, m)
    ensures LogsAgree(Perform(x, capacity, m, c, v), c)
  {
    NetworkLogs(x.net, capacity, m.step);
    var x' := Perform(x, capacity, m, c, v);
    forall id | id in x'.net.registry ensures LogAgrees(x', c, id) {
      assert LogMoves(x.net, x'.net, m.step, id);
      if id !in x.net.sessions {
        GreetedAgrees(id, m.step.room, x.table, c);
      } else {
        assert LogAgrees(x, c, id) && SightOn(x', id) == SightOn(x, id);
        if x'.net.sessions[id].log != x.net.sessions[id].log {
          var k :| x'.net.sessions[id].log == x.net.sessions[id].log + [Resumed(k)];
          ViewSnoc(x.net.sessions[id].log, Resumed(k));
        }
      }
    }
  }

  lemma HeardIsNoReady(t: Table, tick: Tick, v: UserId)
    ensures forall i :: 0 <= i < |HeardBy(t, tick, v)| ==> !HeardBy(t, tick, v)[i].Ready?
  {
    HeardIs(t, tick, v);
    SaidIsOk(t, tick);
  }

  /** One change, told to every registered session's log and to no other. */
  lemma HookLogs(x: World, capacity: nat, m: Move, c: ChannelId, v: UserId)
    requires Inv(x.net, capacity) && m.Hook? && Allowed(x, m)
    ensures var n' := Perform(x, capacity, m, c, v).net;
            && Inv(n', capacity) && n'.registry == x.net.registry && n'.sessions.Keys == x.net.sessions.Keys
            && forall id :: id in x.net.sessions ==>
                 n'.sessions[id].log == x.net.sessions[id].log +
                   if id in x.net.registry then HeardBy(x.table, m.tick, v) else []
  {
    HeardIsNoReady(x.table, m.tick, v);
    PublishAllLogs(x.net, capacity, m.ids, HeardBy(x.table, m.tick, v));
  }

  lemma HookAgrees(x: World, capacity: nat, m: Move, c: ChannelId, v: UserId)
    requires Inv(x.net, capacity) && LogsAgree(x, c) && m.Hook? && Allowed(x, m)
    ensures LogsAgree(Perform(x, capacity, m, c, v), c)
  {
    var x' := Perform(x, capacity, m, c, v);
    HookLogs(x, capacity, m, c, v);
    forall id | id in x'.net.registry ensures LogAgrees(x', c, id) {
      var log := x.net.sessions[id].log;
      assert LogAgrees(x, c, id);
      ApplyAllAppend(EMPTY_ROOM, log, HeardBy(x.table, m.tick, v));
      ChangeTracked(View(log), x.table, m.tick, c, v, SightOn(x, id));
    }
  }

  lemma AnnouncedAgrees(room: Room, e: Event, t: Table, c: ChannelId, sight: Sight)
    requires WellFormed(room) && Sees(room, t, c, sight) && EventOk(e) && (e.RoomJoin? || e.RoomLeave?)
    ensures WellFormed(RoomStore.Apply(room, e))
    ensures Sees(RoomStore.Apply(room, e), t, c, SightAfterEvent(sight, e, t, c))
  {
    ApplyKeepsWellFormed(room, e);
    SightOfSees(RoomStore.Apply(room, e), t, c);
  }

  lemma AnnounceAgrees(x: World, capacity: nat, m: Move, c: ChannelId, v: UserId)
    requires Inv(x.net, capacity) && LogsAgree(x, c) && m.Announce? && Allowed(x, m)
    ensures LogsAgree(Perform(x, capacity, m, c, v), c) && Inv(Perform(x, capacity, m, c, v).net, capacity)
  {
    PublishEachLogs(x.net, capacity, m.ids, m.event);
    var x' := Perform(x, capacity, m, c, v);
    forall id | id in x'.net.registry ensures LogAgrees(x', c, id) {
      assert LogAgrees(x, c, id);
      ViewSnoc(x.net.sessions[id].log, m.event);
      AnnouncedAgrees(View(x.net.sessions[id].log), m.event, x.table, c, SightOn(x, id));
    }
  }

  lemma MoveAgrees(x: World, capacity: nat, m: Move, c: ChannelId, v: UserId)
    requires Inv(x.net, capacity) && LogsAgree(x, c) && Allowed(x, m)
    ensures Inv(Perform(x, capacity, m, c, v).net, capacity) && LogsAgree(Perform(x, capacity, m, c, v), c)
  {
    match m
    case Network(step) =>
      NetworkAgrees(x, capacity, m, c, v);
      StepKeepsInv(x.net, capacity, step);
    case Hook(_, _) =>
      HookLogs(x, capacity, m, c, v);
      HookAgrees(x, capacity, m, c, v);
    case Announce(_, _) => AnnounceAgrees(x, capacity, m, c, v);
  }

  /** Over every run of webhooks, evictions, announcements, publishing, socket loss and
      resumes, at every moment of it, what the log of any registered session folds to
      shows everybody in the room as the table has them, except those the history says,
      as it says. */
  lemma {:induction false} RunsAgree(
    xs: seq<World>, capacity: nat, moves: seq<Move>, c: ChannelId, v: UserId, k: nat)
    requires Trace(xs, capacity, moves, c, v) && k < |xs|
    requires Inv(xs[0].net, capacity) && LogsAgree(xs[0], c)
    ensures Inv(xs[k].net, capacity) && LogsAgree(xs[k], c)
    decreases k
  {
    if k > 0 {
      RunsAgree(xs, capacity, moves, c, v, k - 1);
      MoveAgrees(xs[k - 1], capacity, moves[k - 1], c, v);
    }
  }

  /** The client's snapshot against the server's table across disconnects. Start
      anywhere, lose and resume sockets at any moment while webhooks, evictions and
      announcements keep coming: whenever the client's socket is its registered
      session's outbox, delivering what is in flight makes the snapshot it holds,
      whatever it held before READY, stand to the room as the history says; it equals the
      table exactly when it is of the room and nobody is off. */
  lemma ClientConvergesToTable(
    xs: seq<World>, capacity: nat, moves: seq<Move>, c: ChannelId, v: UserId, table: Table, k: nat, id: SessionId,
    before: Room)
    requires Trace(xs, capacity, moves, c, v) && xs[0] == World(INIT, table, map[]) && k < |xs|
    requires id in xs[k].net.registry && id in xs[k].net.sessions
    requires xs[k].net.conn.Some? && xs[k].net.sessions[id].outbox == xs[k].net.conn
    ensures xs[k].net.conn.value in xs[k].net.links
    ensures var room := ApplyAll(before, Drain(xs[k].net).memory.applied);
            && Sees(room, xs[k].table, c, SightOn(xs[k], id))
            && (Agrees(room, xs[k].table, c) <==> SightOn(xs[k], id) == Looking(map[]))
  {
    var x := xs[k];
    InitInv(capacity);
    RunsAgree(xs, capacity, moves, c, v, k);
    assert SessionOk(x.net, capacity, id) && LogAgrees(x, c, id);
    DrainDeliversEverything(x.net, capacity, id);
    var log := x.net.sessions[id].log;
    assert RoomStore.Apply(before, log[0]) == RoomStore.Apply(EMPTY_ROOM, log[0]);
    AgreesIffNobodyOff(View(log), x.table, c, SightOn(x, id));
  }

  // ---------------------------------------------------------------------------
  // What a client shows in between
  // ---------------------------------------------------------------------------

  /** A lost publisher as if only the screen had stopped. */
  function Half(tick: Tick): Tick
    requires !tick.change.RoomFinished?
  {
    Tick(Unpublished(tick.change.channel, tick.change.user, Screen), tick.now, tick.outcome)
  }

  /** Between the two SHARE_STOPs of one lost publisher. */
  ghost predicate Midway(x: World, m: Move, room: Room, c: ChannelId, v: UserId, id: SessionId) {
    && m.Hook? && m.tick.change.PublisherGone?
    && Sees(room, Next(x.table, Half(m.tick)), c, SightAfter(x.table, Half(m.tick), c, v, SightOn(x, id)))
  }

  /** The room stands as it did at moment `j`, or between it and the next one, no later
      than moment `k`. */
  ghost predicate WasSo(
    xs: seq<World>, moves: seq<Move>, room: Room, c: ChannelId, v: UserId, id: SessionId, j: nat, k: nat)
    requires |xs| == |moves| + 1 && k < |xs|
  {
    && j <= k
    && (Sees(room, xs[j].table, c, SightOn(xs[j], id)) || (j < k && Midway(xs[j], moves[j], room, c, v, id)))
  }

  lemma HeardShape(t: Table, tick: Tick, v: UserId)
    ensures var w, events := tick.change, HeardBy(t, tick, v);
            || |events| <= 1
            || (&& w.PublisherGone? && w.user in t && Reaches(t, tick, v)
                && events == [ShareStop(w.channel, w.user, Screen), ShareStop(w.channel, w.user, Camera)])
  {
    HeardIs(t, tick, v);
    if tick.change.PublisherGone? && tick.change.user in t {
      var row := t[tick.change.user];
      StopsOf(tick.change.channel, tick.change.user);
      assert row.screenSince.Some? && row.cameraSince.Some? ==> LiveSources(row) == [Screen, Camera];
      assert row.screenSince.None? || row.cameraSince.None? ==> |LiveSources(row)| <= 1;
      assert LiveSources(row) == [] || LiveSources(row) == [Screen] || LiveSources(row) == [Camera]
          || LiveSources(row) == [Screen, Camera];
    }
  }

  lemma MidwayIsSo(x: World, m: Move, c: ChannelId, v: UserId, id: SessionId, log: seq<Event>)
    requires WellFormed(View(log)) && Sees(View(log), x.table, c, SightOn(x, id)) && m.Hook?
    requires |HeardBy(x.table, m.tick, v)| > 1
    ensures Midway(x, m, View(log + [HeardBy(x.table, m.tick, v)[0]]), c, v, id)
  {
    var w, half := m.tick.change, Half(m.tick);
    HeardShape(x.table, m.tick, v);
    HeardIs(x.table, half, v);
    ViewSnoc(log, ShareStop(w.channel, w.user, Screen));
    ApplyOne(View(log), ShareStop(w.channel, w.user, Screen));
    ChangeTracked(View(log), x.table, half, c, v, SightOn(x, id));
  }

  /** A session's log after a move: the same, one event longer, or the two stops of a
      lost publisher longer; and only registered sessions grow. */
  ghost predicate Grows(x: World, x': World, m: Move, v: UserId, id: SessionId)
    requires id in x'.net.sessions
  {
    var log' := x'.net.sessions[id].log;
    if id !in x.net.sessions then |log'| == 1 && id in x'.net.registry
    else
      var log := x.net.sessions[id].log;
      || log' == log
      || (id in x'.net.registry && |log'| == |log| + 1 && log <= log')
      || (&& id in x'.net.registry && id in x.net.registry && m.Hook?
          && var events := HeardBy(x.table, m.tick, v);
             |events| == 2 && log' == log + events)
  }

  lemma MoveGrows(x: World, capacity: nat, m: Move, c: ChannelId, v: UserId, id: SessionId)
    requires Inv(x.net, capacity) && LogsAgree(x, c) && Allowed(x, m)
    requires id in Perform(x, capacity, m, c, v).net.sessions
    ensures Grows(x, Perform(x, capacity, m, c, v), m, v, id)
  {
    match m
    case Network(step) =>
      NetworkLogs(x.net, capacity, step);
      assert LogMoves(x.net, Streams.Apply(x.net, capacity, step), step, id);
    case Hook(tick, _) =>
      HookLogs(x, capacity, m, c, v);
      HeardShape(x.table, tick, v);
    case Announce(e, _) => PublishEachLogs(x.net, capacity, m.ids, e);
  }

  lemma HalfPrefix(x: World, x': World, m: Move, c: ChannelId, v: UserId, id: SessionId, p: nat)
    requires LogsAgree(x, c) && m.Hook? && Allowed(x, m) && id in x.net.registry && id in x'.net.sessions
    requires var events := HeardBy(x.table, m.tick, v);
             |events| == 2 && x'.net.sessions[id].log == x.net.sessions[id].log + events
    requires p == |x.net.sessions[id].log| + 1
    ensures Midway(x, m, View(x'.net.sessions[id].log[..p]), c, v, id)
  {
    var log, events := x.net.sessions[id].log, HeardBy(x.table, m.tick, v);
    assert LogAgrees(x, c, id);
    MidwayIsSo(x, m, c, v, id, log);
    assert (log + events)[..p] == log + [events[0]];
  }

  /** What one move adds folds to the room after it, or to halfway there. */
  lemma NewPrefix(x: World, x': World, m: Move, c: ChannelId, v: UserId, id: SessionId, p: nat)
    requires LogsAgree(x, c) && LogsAgree(x', c) && Allowed(x, m) && id in x'.net.sessions
    requires Grows(x, x', m, v, id) && 1 <= p <= |x'.net.sessions[id].log|
    requires id in x.net.sessions ==> p > |x.net.sessions[id].log|
    ensures var room := View(x'.net.sessions[id].log[..p]);
            if p == |x'.net.sessions[id].log| then Sees(room, x'.table, c, SightOn(x', id))
            else Midway(x, m, room, c, v, id)
  {
    var log' := x'.net.sessions[id].log;
    if p == |log'| {
      assert log'[..p] == log' && LogAgrees(x', c, id);
    } else {
      HalfPrefix(x, x', m, c, v, id, p);
    }
  }

  lemma NewPrefixWasSo(
    xs: seq<World>, capacity: nat, moves: seq<Move>, c: ChannelId, v: UserId, k: nat, id: SessionId, p: nat)
    returns (j: nat)
    requires Trace(xs, capacity, moves, c, v) && 0 < k < |xs|
    requires Inv(xs[k - 1].net, capacity) && LogsAgree(xs[k - 1], c) && LogsAgree(xs[k], c)
    requires id in xs[k].net.sessions && 1 <= p <= |xs[k].net.sessions[id].log|
    requires id in xs[k - 1].net.sessions ==> p > |xs[k - 1].net.sessions[id].log|
    ensures WasSo(xs, moves, View(xs[k].net.sessions[id].log[..p]), c, v, id, j, k)
  {
    MoveGrows(xs[k - 1], capacity, moves[k - 1], c, v, id);
    NewPrefix(xs[k - 1], xs[k], moves[k - 1], c, v, id, p);
    j := if p == |xs[k].net.sessions[id].log| then k else k - 1;
  }

  /** Every prefix of every session's log folds to what the room once was. */
  lemma {:induction false} PrefixesWereSo(
    xs: seq<World>, capacity: nat, moves: seq<Move>, c: ChannelId, v: UserId, table: Table, k: nat,
    id: SessionId, p: nat)
    returns (j: nat)
    requires Trace(xs, capacity, moves, c, v) && xs[0] == World(INIT, table, map[]) && k < |xs|
    requires id in xs[k].net.sessions && 1 <= p <= |xs[k].net.sessions[id].log|
    ensures WasSo(xs, moves, View(xs[k].net.sessions[id].log[..p]), c, v, id, j, k)
    decreases k
  {
    j := 0;
    if k > 0 {
      InitInv(capacity);
      RunsAgree(xs, capacity, moves, c, v, k - 1);
      RunsAgree(xs, capacity, moves, c, v, k);
      if id in xs[k - 1].net.sessions && p <= |xs[k - 1].net.sessions[id].log| {
        LogsOnlyGrow(xs, capacity, moves, c, v, k, id);
        assert xs[k].net.sessions[id].log[..p] == xs[k - 1].net.sessions[id].log[..p];
        j := PrefixesWereSo(xs, capacity, moves, c, v, table, k - 1, id, p);
      } else {
        j := NewPrefixWasSo(xs, capacity, moves, c, v, k, id, p);
      }
    }
  }

  lemma LogsOnlyGrow(
    xs: seq<World>, capacity: nat, moves: seq<Move>, c: ChannelId, v: UserId, k: nat, id: SessionId)
    requires Trace(xs, capacity, moves, c, v) && 0 < k < |xs|
    requires Inv(xs[k - 1].net, capacity) && LogsAgree(xs[k - 1], c)
    requires id in xs[k].net.sessions && id in xs[k - 1].net.sessions
    ensures xs[k - 1].net.sessions[id].log <= xs[k].net.sessions[id].log
  {
    MoveGrows(xs[k - 1], capacity, moves[k - 1], c, v, id);
  }

  /** The client is never wrong, only late. At any moment of any run a client with a
      session shows what a client that had heard everything would have shown at some
      earlier moment, or between the two halves of one lost publisher: the table of that
      moment, but for whom the history of that moment names. */
  lemma ClientIsNeverWrongOnlyLate(
    xs: seq<World>, capacity: nat, moves: seq<Move>, c: ChannelId, v: UserId, table: Table, k: nat, id: SessionId)
    returns (j: nat)
    requires Trace(xs, capacity, moves, c, v) && xs[0] == World(INIT, table, map[]) && k < |xs|
    requires xs[k].net.memory.sessionId == Some(id)
    ensures WasSo(xs, moves, View(xs[k].net.memory.applied), c, v, id, j, k)
  {
    InitInv(capacity);
    RunsAgree(xs, capacity, moves, c, v, k);
    j := PrefixesWereSo(xs, capacity, moves, c, v, table, k, id, xs[k].net.memory.lastSeq);
  }
}
