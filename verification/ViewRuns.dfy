/** A snapshot of one room over whole runs: exactly whom it shows otherwise than the
    table has them, and as what; and what somebody who is not there yet gets to see. */
module ViewRuns {
  import opened Basics
  import opened Protocol
  import opened RoomStore
  import opened RoomLaws
  import opened Presence
  import opened RoomView

  // ---------------------------------------------------------------------------
  // What a snapshot shows otherwise
  // ---------------------------------------------------------------------------

  /** What somebody is shown with; nothing when they are not shown. */
  type Look = Option<set<Publication>>

  function LookOf(room: Room, u: UserId): Look {
    if u in room.participants then Some(Elements(room.participants[u].publications)) else None
  }

  /** The same, as the table has it for one room. */
  function RowLook(t: Table, c: ChannelId, u: UserId): Look {
    if InRoom(t, c, u) then Some(OnAir(t[u])) else None
  }

  /** How a snapshot stands to one room: it is of some other room or of none, or it is
      of this one and shows everybody as the table has them, but for those in `off`. */
  datatype Sight = Elsewhere | Looking(off: map<UserId, Look>)

  function SeenLook(t: Table, c: ChannelId, off: map<UserId, Look>, u: UserId): Look {
    if u in off then off[u] else RowLook(t, c, u)
  }

  ghost predicate Sees(room: Room, t: Table, c: ChannelId, sight: Sight) {
    match sight
    case Elsewhere => room.channel != Some(c)
    case Looking(off) =>
      && room.channel == Some(c)
      && (forall u :: LookOf(room, u) == SeenLook(t, c, off, u))
      && (forall u :: u in off ==> off[u] != RowLook(t, c, u))
  }

  lemma AgreesEverywhere(room: Room, t: Table, c: ChannelId)
    ensures Agrees(room, t, c) <==> room.channel == Some(c) && forall u :: LookOf(room, u) == RowLook(t, c, u)
  {
    var shown, rows := Shown(room), Rows(t, c);
    assert forall u :: u in rows <==> InRoom(t, c, u);
    assert forall u :: u in shown ==> shown[u] == Elements(room.participants[u].publications);
    if Agrees(room, t, c) {
      forall u ensures LookOf(room, u) == RowLook(t, c, u) {
        assert u in shown <==> u in rows;
      }
    }
    if forall u :: LookOf(room, u) == RowLook(t, c, u) {
      forall u ensures u in shown <==> u in rows {
        assert LookOf(room, u) == RowLook(t, c, u);
      }
      forall u | u in shown ensures shown[u] == rows[u] {
        assert LookOf(room, u) == RowLook(t, c, u);
      }
    }
  }

  /** So the snapshot is right exactly when it is of the room and nobody is off. */
  lemma AgreesIffNobodyOff(room: Room, t: Table, c: ChannelId, sight: Sight)
    requires Sees(room, t, c, sight)
    ensures Agrees(room, t, c) <==> sight == Looking(map[])
  {
    AgreesEverywhere(room, t, c);
    if Agrees(room, t, c) {
      forall u ensures u !in sight.off {
        assert LookOf(room, u) == RowLook(t, c, u);
      }
    }
  }

  /** The sight of a snapshot as it is. */
  function SightOf(room: Room, t: Table, c: ChannelId): Sight {
    if room.channel != Some(c) then Elsewhere
    else Looking(map u | u in room.participants.Keys + Members(t, c) && LookOf(room, u) != RowLook(t, c, u)
                   :: LookOf(room, u))
  }

  lemma SightOfSees(room: Room, t: Table, c: ChannelId)
    ensures Sees(room, t, c, SightOf(room, t, c))
  {
  }

  // ---------------------------------------------------------------------------
  // One change
  // ---------------------------------------------------------------------------

  datatype Tick = Tick(change: Change, now: Timestamp, outcome: Outcome)

  function Next(t: Table, tick: Tick): Table {
    After(t, tick.change, tick.now)
  }

  /** What one user's sessions receive of it. */
  function HeardBy(t: Table, tick: Tick, v: UserId): seq<Event> {
    Received(Posted(t, tick.change, tick.now, tick.outcome), v)
  }

  /** Whether a change says anything to one user: with the room listed, to whoever is in
      the room it names, after the write except for a departure; to the one who departs
      also when it is not; an eviction to the evicted alone. */
  predicate Reaches(t: Table, tick: Tick, v: UserId) {
    var w := tick.change;
    match w
    case Evicted(_, u) => u == v
    case Departed(c, u) => !tick.outcome.Failed? && (u == v || (tick.outcome.Complete? && InRoom(t, c, v)))
    case RoomFinished(_) => false
    case _ => tick.outcome.Complete? && InRoom(Next(t, tick), w.channel, v)
  }

  /** What it says. */
  function Said(t: Table, tick: Tick): seq<Event> {
    match tick.change
    case Joined(c, u, name) => [ParticipantAdd(c, RoomParticipant(UserSummary(u, name), []))]
    case Departed(c, u) => [ParticipantRemove(c, u)]
    case PublisherGone(c, u) => if u in t then StopEvents(c, u, LiveSources(t[u])) else []
    case Published(c, u, s) =>
      if u in t then [ShareStart(c, u, s, Since(Next(t, tick)[u], s).GetOr(tick.now))] else []
    case Unpublished(c, u, s) => if u in t then [ShareStop(c, u, s)] else []
    case RoomFinished(_) => []
    case Evicted(c, _) => [RoomLeave(c, AccessRevoked)]
  }

  lemma HeardIs(t: Table, tick: Tick, v: UserId)
    ensures HeardBy(t, tick, v) == if Reaches(t, tick, v) then Said(t, tick) else []
  {
    var w, now := tick.change, tick.now;
    if w.PublisherGone? && w.user in t {
      var to := Members(After(t, w, now), w.channel);
      ReceivedStops(to, w.channel, w.user, LiveSources(t[w.user]), v);
      ReaddressedStops(to, {}, w.channel, w.user, LiveSources(t[w.user]));
      ReceivedStops({}, w.channel, w.user, LiveSources(t[w.user]), v);
    } else if Emitted(t, w, now) != [] {
      var p := Emitted(t, w, now)[0];
      var to := if w.Departed? then {w.user} else {};
      ReceivedOne(p, v);
      ReaddressedOne(p, to);
      ReceivedOne(Posting(to, p.event), v);
    }
  }

  /** One source of what somebody is shown with, as an event sets it. */
  function With(ps: set<Publication>, s: Source, since: Option<Timestamp>): set<Publication> {
    (set p | p in ps && p.source != s) + if since.Some? then {Publication(s, since.value)} else {}
  }

  function Share(look: Look, s: Source, since: Option<Timestamp>): Look {
    if look.Some? then Some(With(look.value, s, since)) else None
  }

  /** What a user who is told is shown of the person the change is about. A lost
      publisher stops what the row had on the air, which need not be what is shown. */
  function Told(look: Look, t: Table, tick: Tick): Look {
    match tick.change
    case Joined(_, _, _) => Some({})
    case Departed(_, _) => None
    case Published(_, u, s) => if u in t then Share(look, s, Since(Next(t, tick)[u], s)) else look
    case Unpublished(_, u, s) => if u in t then Share(look, s, None) else look
    case PublisherGone(_, u) =>
      if u !in t then look
      else
        var left := if t[u].screenSince.Some? then Share(look, Screen, None) else look;
        if t[u].cameraSince.Some? then Share(left, Camera, None) else left
    case _ => look
  }

  function LookAfter(t: Table, tick: Tick, c: ChannelId, v: UserId, off: map<UserId, Look>, u: UserId): Look {
    if About(tick.change, u) && tick.change.channel == c && Reaches(t, tick, v)
    then Told(SeenLook(t, c, off, u), t, tick)
    else SeenLook(t, c, off, u)
  }

  /** How the snapshot of user `v` stands to room `c` after a change: everybody stays as
      they were shown, except the one the change is about if it names the room and
      reaches `v`; and whoever is then shown otherwise than the new table has them is
      off. Being evicted from the room ends looking at it. */
  function SightAfter(t: Table, tick: Tick, c: ChannelId, v: UserId, sight: Sight): Sight {
    if sight.Elsewhere? || (tick.change == Evicted(c, v)) then Elsewhere
    else
      Looking(map u | u in sight.off.Keys + Members(t, c) + Members(Next(t, tick), c)
                      && LookAfter(t, tick, c, v, sight.off, u) != RowLook(Next(t, tick), c, u)
                :: LookAfter(t, tick, c, v, sight.off, u))
  }

  lemma LookOutside(t: Table, tick: Tick, c: ChannelId, v: UserId, off: map<UserId, Look>, u: UserId)
    requires u !in off.Keys + Members(t, c) + Members(Next(t, tick), c)
    ensures LookAfter(t, tick, c, v, off, u) == None == RowLook(Next(t, tick), c, u)
  {
  }

  /** Events of other rooms, and those of this one that leave it standing. */
  lemma OtherRoom(room: Room, e: Event, c: ChannelId)
    requires Incremental(e) || e.RoomLeave?
    ensures room.channel != Some(c) ==> Apply(room, e).channel != Some(c)
    ensures Incremental(e) ==> Apply(room, e).channel == room.channel
    ensures !e.Resumed? && room.channel != Some(e.channel) ==> Apply(room, e) == room
  {
  }

  predicate SaidOk(events: seq<Event>, c: ChannelId) {
    forall i :: 0 <= i < |events| ==>
      && (Incremental(events[i]) || events[i].RoomLeave?) && !events[i].Resumed?
      && events[i].channel == c && EventOk(events[i])
  }

  lemma {:induction false} StopsAreSaid(c: ChannelId, u: UserId, sources: seq<Source>)
    ensures SaidOk(StopEvents(c, u, sources), c)
  {
    if sources != [] {
      StopsAreSaid(c, u, sources[1..]);
    }
  }

  lemma SaidIsOk(t: Table, tick: Tick)
    ensures SaidOk(Said(t, tick), tick.change.channel)
  {
    if tick.change.PublisherGone? && tick.change.user in t {
      StopsAreSaid(tick.change.channel, tick.change.user, LiveSources(t[tick.change.user]));
    }
  }

  lemma {:induction false} OtherRoomStays(room: Room, events: seq<Event>, d: ChannelId, c: ChannelId)
    requires SaidOk(events, d)
    ensures room.channel != Some(c) ==> ApplyAll(room, events).channel != Some(c)
    ensures room.channel != Some(d) ==> ApplyAll(room, events) == room
    decreases |events|
  {
    if events != [] {
      OtherRoom(room, events[0], c);
      OtherRoom(room, events[0], d);
      OtherRoomStays(Apply(room, events[0]), events[1..], d, c);
    }
  }

  /** A snapshot of the room after one event about one person. */
  ghost predicate OneLook(room: Room, room': Room, u: UserId, look: Look) {
    && room'.channel == room.channel && LookOf(room', u) == look
    && forall x :: x != u ==> LookOf(room', x) == LookOf(room, x)
  }

  lemma ShareLooks(room: Room, c: ChannelId, u: UserId, s: Source, since: Option<Timestamp>)
    requires WellFormed(room) && room.channel == Some(c)
    ensures OneLook(room, SetPublishing(room, c, u, s, since), u, Share(LookOf(room, u), s, since))
  {
    if u in room.participants {
      var room', ps := SetPublishing(room, c, u, s, since), room.participants[u].publications;
      SharedShows(room, c, u, s, since);
      SharedElements(ps, room'.participants[u].publications, s, since);
    }
  }

  lemma SharedElements(ps: seq<Publication>, ps': seq<Publication>, s: Source, since: Option<Timestamp>)
    requires forall p: Publication :: p in ps' <==> if p.source == s then since == Some(p.since) else p in ps
    ensures Elements(ps') == With(Elements(ps), s, since)
  {
    var with := With(Elements(ps), s, since);
    forall p: Publication ensures p in Elements(ps') <==> p in with {
      assert p in Elements(ps) <==> p in ps;
      assert since == Some(p.since) && p.source == s <==> since.Some? && p == Publication(s, since.value);
    }
  }

  lemma StopsLook(room: Room, c: ChannelId, u: UserId, row: Row)
    requires WellFormed(room) && room.channel == Some(c)
    ensures var left := if row.screenSince.Some? then Share(LookOf(room, u), Screen, None) else LookOf(room, u);
            OneLook(room, ApplyAll(room, StopEvents(c, u, LiveSources(row))), u,
                    if row.cameraSince.Some? then Share(left, Camera, None) else left)
  {
    StopsOf(c, u);
    var room1 := if row.screenSince.Some? then SetPublishing(room, c, u, Screen, None) else room;
    ShareLooks(room, c, u, Screen, None);
    ShareKeepsWellFormed(room, c, u, Screen, None);
    ShareLooks(room1, c, u, Camera, None);
    ApplyOne(room, ShareStop(c, u, Screen));
    ApplyOne(room, ShareStop(c, u, Camera));
    ApplyOne(room1, ShareStop(c, u, Camera));
    var both := [ShareStop(c, u, Screen), ShareStop(c, u, Camera)];
    assert both[1..] == [ShareStop(c, u, Camera)];
  }

  lemma StopsOf(c: ChannelId, u: UserId)
    ensures StopEvents(c, u, []) == []
    ensures StopEvents(c, u, [Screen]) == [ShareStop(c, u, Screen)]
    ensures StopEvents(c, u, [Camera]) == [ShareStop(c, u, Camera)]
    ensures StopEvents(c, u, [Screen, Camera]) == [ShareStop(c, u, Screen), ShareStop(c, u, Camera)]
  {
    assert [Screen, Camera][1..] == [Camera] && [Screen][1..] == [] && [Camera][1..] == [];
  }

  lemma PersonLooks(room: Room, c: ChannelId, u: UserId, name: string)
    requires room.channel == Some(c)
    ensures OneLook(room, Add(room, c, RoomParticipant(UserSummary(u, name), [])), u, Some({}))
    ensures OneLook(room, Remove(room, c, u), u, None)
  {
    assert Elements<Publication>([]) == {};
  }

  /** What is said changes the one it is about as it should. */
  lemma SaidLooks(room: Room, t: Table, tick: Tick)
    requires WellFormed(room) && room.channel == Some(tick.change.channel)
    requires !tick.change.RoomFinished? && !tick.change.Evicted?
    ensures var u := tick.change.user;
            OneLook(room, ApplyAll(room, Said(t, tick)), u, Told(LookOf(room, u), t, tick))
  {
    var c, u := tick.change.channel, tick.change.user;
    match tick.change {
      case Joined(_, _, name) =>
        PersonLooks(room, c, u, name);
        ApplyOne(room, ParticipantAdd(c, RoomParticipant(UserSummary(u, name), [])));
      case Departed(_, _) =>
        PersonLooks(room, c, u, "");
        ApplyOne(room, ParticipantRemove(c, u));
      case PublisherGone(_, _) => if u in t { StopsLook(room, c, u, t[u]); }
      case Published(_, _, s) =>
        if u in t {
          var since := Since(Started(t[u], s, tick.now), s);
          ShareLooks(room, c, u, s, since);
          ApplyOne(room, ShareStart(c, u, s, since.value));
        }
      case Unpublished(_, _, s) =>
        ShareLooks(room, c, u, s, None);
        ApplyOne(room, ShareStop(c, u, s));
    }
  }

  /** One change, whoever it is about, whatever room it names and however its handler
      ends: the snapshot stands to the room exactly as `SightAfter` says. */
  lemma ChangeTracked(room: Room, t: Table, tick: Tick, c: ChannelId, v: UserId, sight: Sight)
    requires WellFormed(room) && Sees(room, t, c, sight)
    ensures WellFormed(ApplyAll(room, HeardBy(t, tick, v)))
    ensures Sees(ApplyAll(room, HeardBy(t, tick, v)), Next(t, tick), c, SightAfter(t, tick, c, v, sight))
  {
    var w, room', said := tick.change, ApplyAll(room, HeardBy(t, tick, v)), Said(t, tick);
    HeardIs(t, tick, v);
    SaidIsOk(t, tick);
    EverySnapshotIsWellFormed(room, HeardBy(t, tick, v));
    OtherRoomStays(room, said, w.channel, c);
    if sight.Elsewhere? {
    } else if w == Evicted(c, v) {
      ApplyOne(room, RoomLeave(c, AccessRevoked));
    } else {
      if Reaches(t, tick, v) && w.channel == c {
        SaidLooks(room, t, tick);
      }
      SeesAfter(room', t, tick, c, v, sight.off);
    }
  }

  lemma SeesAfter(room': Room, t: Table, tick: Tick, c: ChannelId, v: UserId, off: map<UserId, Look>)
    requires room'.channel == Some(c) && tick.change != Evicted(c, v)
    requires forall u :: LookOf(room', u) == LookAfter(t, tick, c, v, off, u)
    ensures Sees(room', Next(t, tick), c, SightAfter(t, tick, c, v, Looking(off)))
  {
    var off' := SightAfter(t, tick, c, v, Looking(off)).off;
    forall u ensures LookOf(room', u) == SeenLook(Next(t, tick), c, off', u) {
      if u !in off.Keys + Members(t, c) + Members(Next(t, tick), c) {
        LookOutside(t, tick, c, v, off, u);
      }
    }
  }

  /** A change of the room that is told: it names the room, reaches the viewer, and is not
      somebody's eviction. */
  predicate Tells(t: Table, tick: Tick, c: ChannelId, v: UserId) {
    tick.change.channel == c && !tick.change.Evicted? && Reaches(t, tick, v)
  }

  lemma WithIsOnAir(row: Row, row': Row, s: Source)
    requires forall x :: x != s ==> Since(row', x) == Since(row, x)
    ensures With(OnAir(row), s, Since(row', s)) == OnAir(row')
  {
    forall p: Publication ensures p in With(OnAir(row), s, Since(row', s)) <==> p in OnAir(row') {
      OnAirOf(row, p);
      OnAirOf(row', p);
    }
  }

  lemma NewcomerLook(c: ChannelId, now: Timestamp)
    ensures OnAir(Row(c, false, None, None, now)) == {}
  {
  }

  /** Told of somebody who is shown right, a viewer shows them right. */
  lemma ToldIsRight(t: Table, tick: Tick)
    requires !tick.change.RoomFinished? && !tick.change.Evicted?
    ensures var c, u := tick.change.channel, tick.change.user;
            Told(RowLook(t, c, u), t, tick) == RowLook(Next(t, tick), c, u)
  {
    var w := tick.change;
    NewcomerLook(w.channel, tick.now);
    if InRoom(t, w.channel, w.user) {
      var row, row' := t[w.user], if w.user in Next(t, tick) then Next(t, tick)[w.user] else t[w.user];
      match w {
        case Joined(_, _, _) =>
        case Departed(_, _) =>
        case Published(_, _, s) => WithIsOnAir(row, row', s);
        case Unpublished(_, _, s) => WithIsOnAir(row, row', s);
        case PublisherGone(_, _) =>
          var left := if row.screenSince.Some? then Stopped(row, Screen) else row;
          if row.screenSince.Some? { WithIsOnAir(row, left, Screen); }
          if row.cameraSince.Some? { WithIsOnAir(left, Stopped(left, Camera), Camera); }
          OnAirDiffers(row', if row.cameraSince.Some? then Stopped(left, Camera) else left);
      }
    }
  }

  lemma SameRowsSameLooks(t: Table, t': Table, c: ChannelId)
    ensures Rows(t', c) == Rows(t, c) <==> forall u :: RowLook(t', c, u) == RowLook(t, c, u)
  {
    var rows, rows' := Rows(t, c), Rows(t', c);
    assert forall u :: u in rows <==> InRoom(t, c, u);
    assert forall u :: u in rows' <==> InRoom(t', c, u);
    assert forall u :: u in rows ==> rows[u] == OnAir(t[u]);
    assert forall u :: u in rows' ==> rows'[u] == OnAir(t'[u]);
    if rows == rows' {
      forall u ensures RowLook(t', c, u) == RowLook(t, c, u) {
        assert u in rows <==> u in rows';
      }
    }
    if forall u :: RowLook(t', c, u) == RowLook(t, c, u) {
      forall u ensures u in rows <==> u in rows' {
        assert RowLook(t', c, u) == RowLook(t, c, u);
      }
      forall u | u in rows ensures rows[u] == rows'[u] {
        assert RowLook(t', c, u) == RowLook(t, c, u);
      }
    }
  }

  /** A snapshot that is right stays right exactly when the change does not evict its
      owner from the room, and does not touch the room without telling them. */
  lemma StaysRightIff(t: Table, tick: Tick, c: ChannelId, v: UserId)
    ensures SightAfter(t, tick, c, v, Looking(map[])) == Looking(map[]) <==>
            tick.change != Evicted(c, v) && (Touches(t, tick.change, c) ==> Tells(t, tick, c, v))
  {
    var t' := Next(t, tick);
    RowsChangeIff(t, tick.change, tick.now, c);
    SameRowsSameLooks(t, t', c);
    if tick.change != Evicted(c, v) {
      NobodyOffIff(t, tick, c, v);
      if Tells(t, tick, c, v) {
        ToldIsRight(t, tick);
        OthersKeepTheirLook(t, tick, c);
      } else {
        assert forall u :: LookAfter(t, tick, c, v, map[], u) == RowLook(t, c, u);
      }
    }
  }

  lemma OthersKeepTheirLook(t: Table, tick: Tick, c: ChannelId)
    requires !tick.change.RoomFinished?
    ensures forall u :: u != tick.change.user ==> RowLook(Next(t, tick), c, u) == RowLook(t, c, u)
  {
  }

  lemma NobodyOffIff(t: Table, tick: Tick, c: ChannelId, v: UserId)
    requires tick.change != Evicted(c, v)
    ensures SightAfter(t, tick, c, v, Looking(map[])) == Looking(map[]) <==>
            forall u :: LookAfter(t, tick, c, v, map[], u) == RowLook(Next(t, tick), c, u)
  {
    var off := SightAfter(t, tick, c, v, Looking(map[])).off;
    forall u ensures u in off <==> LookAfter(t, tick, c, v, map[], u) != RowLook(Next(t, tick), c, u) {
      if u !in Members(t, c) + Members(Next(t, tick), c) {
        LookOutside(t, tick, c, v, map[], u);
      }
    }
    if forall u :: LookAfter(t, tick, c, v, map[], u) == RowLook(Next(t, tick), c, u) {
      assert off == map[];
    }
  }

  // ---------------------------------------------------------------------------
  // Runs
  // ---------------------------------------------------------------------------

  function TableAfter(t: Table, ticks: seq<Tick>): Table
    decreases |ticks|
  {
    if ticks == [] then t else TableAfter(Next(t, ticks[0]), ticks[1..])
  }

  /** Everything one user receives over a run, in order. */
  function Stream(t: Table, ticks: seq<Tick>, v: UserId): seq<Event>
    decreases |ticks|
  {
    if ticks == [] then [] else HeardBy(t, ticks[0], v) + Stream(Next(t, ticks[0]), ticks[1..], v)
  }

  function SightOver(t: Table, ticks: seq<Tick>, c: ChannelId, v: UserId, sight: Sight): Sight
    decreases |ticks|
  {
    if ticks == [] then sight
    else SightOver(Next(t, ticks[0]), ticks[1..], c, v, SightAfter(t, ticks[0], c, v, sight))
  }

  lemma {:induction false} ApplyAllAppend(room: Room, a: seq<Event>, b: seq<Event>)
    ensures ApplyAll(room, a + b) == ApplyAll(ApplyAll(room, a), b)
    decreases |a|
  {
    if a == [] {
      assert a + b == b;
    } else {
      assert (a + b)[1..] == a[1..] + b;
      ApplyAllAppend(Apply(room, a[0]), a[1..], b);
    }
  }

  lemma {:induction false} RunTracked(room: Room, t: Table, ticks: seq<Tick>, c: ChannelId, v: UserId, sight: Sight)
    requires WellFormed(room) && Sees(room, t, c, sight)
    ensures WellFormed(ApplyAll(room, Stream(t, ticks, v)))
    ensures Sees(ApplyAll(room, Stream(t, ticks, v)), TableAfter(t, ticks), c, SightOver(t, ticks, c, v, sight))
    decreases |ticks|
  {
    if ticks != [] {
      var t1 := Next(t, ticks[0]);
      ChangeTracked(room, t, ticks[0], c, v, sight);
      ApplyAllAppend(room, HeardBy(t, ticks[0], v), Stream(t1, ticks[1..], v));
      RunTracked(ApplyAll(room, HeardBy(t, ticks[0], v)), t1, ticks[1..], c, v, SightAfter(t, ticks[0], c, v, sight));
    }
  }

  /** Any snapshot, over any run of changes: joins, moves, departures, share changes that
      name any room, lost publishers, finished rooms, evictions, and handlers that fail
      or cannot list the room. It shows everybody in the room as the table has them,
      except exactly those it says, as it says; and is right exactly when it is of the
      room and there is nobody like that. */
  lemma ViewFollowsTable(room: Room, t: Table, ticks: seq<Tick>, c: ChannelId, v: UserId)
    requires WellFormed(room)
    ensures var room', sight := ApplyAll(room, Stream(t, ticks, v)), SightOver(t, ticks, c, v, SightOf(room, t, c));
            && WellFormed(room') && Sees(room', TableAfter(t, ticks), c, sight)
            && (Agrees(room', TableAfter(t, ticks), c) <==> sight == Looking(map[]))
  {
    SightOfSees(room, t, c);
    RunTracked(room, t, ticks, c, v, SightOf(room, t, c));
    AgreesIffNobodyOff(ApplyAll(room, Stream(t, ticks, v)), TableAfter(t, ticks), c,
                       SightOver(t, ticks, c, v, SightOf(room, t, c)));
  }

  /** A snapshot that is right has nobody off. */
  lemma RightSight(room: Room, t: Table, c: ChannelId)
    ensures Agrees(room, t, c) <==> SightOf(room, t, c) == Looking(map[])
  {
    SightOfSees(room, t, c);
    AgreesIffNobodyOff(room, t, c, SightOf(room, t, c));
  }

  // ---------------------------------------------------------------------------
  // When share changes name the room their row is in
  // ---------------------------------------------------------------------------

  /** A share change that names another room than the one its row is in. */
  predicate Stray(t: Table, w: Change, c: ChannelId) {
    w.channel != c && Touches(t, w, c) && (w.PublisherGone? || w.Published? || w.Unpublished?)
  }

  /** Who is gone after a change: whoever it removes without telling, until a join
      or a departure that names the room says so. */
  function GoneAfter(t: Table, w: Change, c: ChannelId, gone: set<UserId>): set<UserId> {
    match w
    case Joined(d, u, _) => if d == c then gone - {u} else if InRoom(t, c, u) then gone + {u} else gone
    case Departed(d, u) => if d == c then gone - {u} else if InRoom(t, c, u) then gone + {u} else gone
    case Evicted(_, u) => if InRoom(t, c, u) then gone + {u} else gone
    case _ => gone
  }

  function GoneOver(t: Table, ticks: seq<Tick>, c: ChannelId, gone: set<UserId>): set<UserId>
    decreases |ticks|
  {
    if ticks == [] then gone
    else GoneOver(Next(t, ticks[0]), ticks[1..], c, GoneAfter(t, ticks[0].change, c, gone))
  }

  /** Everybody off is shown, and is in the room no more. */
  predicate AllGone(t: Table, c: ChannelId, sight: Sight, gone: set<UserId>) {
    && sight.Looking? && sight.off.Keys == gone
    && forall u :: u in sight.off ==> sight.off[u].Some? && !InRoom(t, c, u)
  }

  /** The viewer stays, the handler does its work, and no share change is stray. */
  ghost predicate OrderlyTick(t: Table, tick: Tick, c: ChannelId, v: UserId) {
    tick.outcome.Complete? && Stays(t, tick.change, tick.now, c, v) && !Stray(t, tick.change, c)
  }

  ghost predicate Orderly(t: Table, ticks: seq<Tick>, c: ChannelId, v: UserId)
    decreases |ticks|
  {
    ticks == [] || (OrderlyTick(t, ticks[0], c, v) && Orderly(Next(t, ticks[0]), ticks[1..], c, v))
  }

  /** What is off about one person after an orderly change. */
  lemma OrderlyAt(t: Table, tick: Tick, c: ChannelId, v: UserId, sight: Sight, gone: set<UserId>, u: UserId)
    requires AllGone(t, c, sight, gone) && OrderlyTick(t, tick, c, v)
    ensures var look := LookAfter(t, tick, c, v, sight.off, u);
            && (look != RowLook(Next(t, tick), c, u) <==> u in GoneAfter(t, tick.change, c, gone))
            && (u in GoneAfter(t, tick.change, c, gone) ==> look.Some? && !InRoom(Next(t, tick), c, u))
  {
    NewcomerLook(c, tick.now);
    if Tells(t, tick, c, v) {
      OthersKeepTheirLook(t, tick, c);
      ToldIsRight(t, tick);
    } else {
      RowsChangeIff(t, tick.change, tick.now, c);
      SameRowsSameLooks(t, Next(t, tick), c);
    }
  }

  lemma OrderlyOffAreGone(t: Table, tick: Tick, c: ChannelId, v: UserId, sight: Sight, gone: set<UserId>)
    requires AllGone(t, c, sight, gone) && OrderlyTick(t, tick, c, v)
    ensures AllGone(Next(t, tick), c, SightAfter(t, tick, c, v, sight), GoneAfter(t, tick.change, c, gone))
  {
    assert tick.change != Evicted(c, v);
    var off := SightAfter(t, tick, c, v, sight).off;
    forall u ensures u in off <==> u in GoneAfter(t, tick.change, c, gone)
             ensures u in off ==> off[u].Some? && !InRoom(Next(t, tick), c, u) {
      OrderlyAt(t, tick, c, v, sight, gone, u);
      if u !in sight.off.Keys + Members(t, c) + Members(Next(t, tick), c) {
        LookOutside(t, tick, c, v, sight.off, u);
      }
    }
  }

  /** Over every orderly run the only people a right snapshot comes to show otherwise are
      those removed without a word: evicted, or moved by a change that named another
      room. */
  lemma {:induction false} OrderlyRunsShowTheGone(
    t: Table, ticks: seq<Tick>, c: ChannelId, v: UserId, sight: Sight, gone: set<UserId>)
    requires AllGone(t, c, sight, gone) && Orderly(t, ticks, c, v)
    ensures AllGone(TableAfter(t, ticks), c, SightOver(t, ticks, c, v, sight), GoneOver(t, ticks, c, gone))
    decreases |ticks|
  {
    if ticks != [] {
      OrderlyOffAreGone(t, ticks[0], c, v, sight, gone);
      OrderlyRunsShowTheGone(Next(t, ticks[0]), ticks[1..], c, v, SightAfter(t, ticks[0], c, v, sight),
                             GoneAfter(t, ticks[0].change, c, gone));
    }
  }

  lemma OrderlyView(room: Room, t: Table, ticks: seq<Tick>, c: ChannelId, v: UserId)
    requires WellFormed(room) && Agrees(room, t, c) && Orderly(t, ticks, c, v)
    ensures var room', t', gone := ApplyAll(room, Stream(t, ticks, v)), TableAfter(t, ticks), GoneOver(t, ticks, c, {});
            && (forall u :: u in gone ==> u in room'.participants && !InRoom(t', c, u))
            && (forall u :: u !in gone ==> LookOf(room', u) == RowLook(t', c, u))
            && (Agrees(room', t', c) <==> gone == {})
  {
    RightSight(room, t, c);
    ViewFollowsTable(room, t, ticks, c, v);
    OrderlyRunsShowTheGone(t, ticks, c, v, Looking(map[]), {});
    GoneAreShown(ApplyAll(room, Stream(t, ticks, v)), TableAfter(t, ticks), c,
                 SightOver(t, ticks, c, v, Looking(map[])), GoneOver(t, ticks, c, {}));
  }

  lemma GoneAreShown(room: Room, t: Table, c: ChannelId, sight: Sight, gone: set<UserId>)
    requires Sees(room, t, c, sight) && AllGone(t, c, sight, gone)
    ensures forall u :: u in gone ==> u in room.participants && !InRoom(t, c, u)
    ensures forall u :: u !in gone ==> LookOf(room, u) == RowLook(t, c, u)
    ensures sight == Looking(map[]) <==> gone == {}
  {
    forall u ensures u in gone ==> u in room.participants && !InRoom(t, c, u)
             ensures u !in gone ==> LookOf(room, u) == RowLook(t, c, u) {
      assert LookOf(room, u) == SeenLook(t, c, sight.off, u);
    }
    assert gone == {} ==> sight.off == map[];
  }

  /** An eviction leaves the others looking at somebody who is gone, until the
      departure comes back as a webhook. */
  lemma DepartureRepairsEviction(room: Room, t: Table, c: ChannelId, v: UserId, u: UserId, now: Timestamp)
    requires WellFormed(room) && Agrees(room, t, c) && v in Members(t, c) && u in Members(t, c) && u != v
    ensures var evicted := [Tick(Evicted(c, u), now, Complete)];
            !Agrees(ApplyAll(room, Stream(t, evicted, v)), TableAfter(t, evicted), c)
    ensures var both := [Tick(Evicted(c, u), now, Complete), Tick(Departed(c, u), now, Complete)];
            Agrees(ApplyAll(room, Stream(t, both, v)), TableAfter(t, both), c)
  {
    var first, second := Tick(Evicted(c, u), now, Complete), Tick(Departed(c, u), now, Complete);
    assert [first][1..] == [] && [first, second][1..] == [second] && [second][1..] == [];
    var t1 := Next(t, first);
    assert Orderly(t1, [second], c, v);
    assert GoneOver(t, [first], c, {}) == {u};
    assert GoneOver(t1, [second], c, {u}) == {};
    OrderlyView(room, t, [first], c, v);
    OrderlyView(room, t, [first, second], c, v);
  }

  // ---------------------------------------------------------------------------
  // Somebody who is not there yet
  // ---------------------------------------------------------------------------

  lemma AbsentHearsNothing(t: Table, tick: Tick, v: UserId)
    requires v !in t && !About(tick.change, v)
    ensures HeardBy(t, tick, v) == [] && v !in Next(t, tick)
  {
    HeardIs(t, tick, v);
  }

  /** A viewer with no row of their own hears nothing about the others: their
      snapshot stays right exactly when the change does not touch the room. */
  lemma AbsentViewerIsNotTold(room: Room, t: Table, tick: Tick, c: ChannelId, v: UserId)
    requires Agrees(room, t, c) && v !in t && !About(tick.change, v)
    ensures var room' := ApplyAll(room, HeardBy(t, tick, v));
            room' == room && (Agrees(room', Next(t, tick), c) <==> !Touches(t, tick.change, c))
  {
    AbsentHearsNothing(t, tick, v);
    RowsChangeIff(t, tick.change, tick.now, c);
  }

  lemma {:induction false} AbsentOverRun(t: Table, ticks: seq<Tick>, v: UserId)
    requires v !in t && forall i :: 0 <= i < |ticks| ==> !About(ticks[i].change, v)
    ensures Stream(t, ticks, v) == [] && v !in TableAfter(t, ticks)
    decreases |ticks|
  {
    if ticks != [] {
      AbsentHearsNothing(t, ticks[0], v);
      AbsentOverRun(Next(t, ticks[0]), ticks[1..], v);
    }
  }

  lemma ArrivalAgreesIff(room: Room, t: Table, c: ChannelId, v: UserId, name: string, now: Timestamp)
    requires WellFormed(room) && room.channel == Some(c) && v !in room.participants && v !in t
    ensures var arrival := Tick(Joined(c, v, name), now, Complete);
            Agrees(ApplyAll(room, HeardBy(t, arrival, v)), Next(t, arrival), c) <==> Agrees(room, t, c)
  {
    var arrival := Tick(Joined(c, v, name), now, Complete);
    var room', t' := ApplyAll(room, HeardBy(t, arrival, v)), Next(t, arrival);
    HeardIs(t, arrival, v);
    SaidLooks(room, t, arrival);
    ToldIsRight(t, arrival);
    AgreesEverywhere(room, t, c);
    AgreesEverywhere(room', t', c);
    assert LookOf(room, v) == RowLook(t, c, v);
    assert forall u :: u != v ==> LookOf(room', u) == LookOf(room, u) && RowLook(t', c, u) == RowLook(t, c, u);
  }

  /** A viewer who is given a snapshot first and arrives later: after their own
      arrival the view is right exactly when the room's rows are the ones it was
      given, whatever happened in between. */
  lemma ArrivalSeesTheRoomIff(
    room: Room, t: Table, ticks: seq<Tick>, c: ChannelId, v: UserId, name: string, now: Timestamp)
    requires WellFormed(room) && Agrees(room, t, c) && v !in t
    requires forall i :: 0 <= i < |ticks| ==> !About(ticks[i].change, v)
    ensures var t1, arrival := TableAfter(t, ticks), Tick(Joined(c, v, name), now, Complete);
            var room' := ApplyAll(ApplyAll(room, Stream(t, ticks, v)), HeardBy(t1, arrival, v));
            Agrees(room', Next(t1, arrival), c) <==> Rows(t1, c) == Rows(t, c)
  {
    AbsentOverRun(t, ticks, v);
    KnownShows(room, t, c, v);
    ArrivalAgreesIff(room, TableAfter(t, ticks), c, v, name, now);
  }

  ghost predicate Untouched(t: Table, ticks: seq<Tick>, c: ChannelId)
    decreases |ticks|
  {
    ticks == [] || (!Touches(t, ticks[0].change, c) && Untouched(Next(t, ticks[0]), ticks[1..], c))
  }

  /** In particular when no change in between touched the room. */
  lemma {:induction false} UntouchedKeepsRows(t: Table, ticks: seq<Tick>, c: ChannelId)
    requires Untouched(t, ticks, c)
    ensures Rows(TableAfter(t, ticks), c) == Rows(t, c)
    decreases |ticks|
  {
    if ticks != [] {
      RowsChangeIff(t, ticks[0].change, ticks[0].now, c);
      UntouchedKeepsRows(Next(t, ticks[0]), ticks[1..], c);
    }
  }

  /** So somebody who joins between a viewer's ROOM_JOIN snapshot and that viewer's
      own arrival stays invisible to them, even once the viewer has arrived. */
  lemma EarlierJoinStaysInvisible(
    room: Room, t: Table, c: ChannelId, u: UserId, v: UserId, name: string, vname: string, now: Timestamp)
    requires WellFormed(room) && Agrees(room, t, c) && u !in t && v !in t && u != v
    ensures var ticks := [Tick(Joined(c, u, name), now, Complete), Tick(Joined(c, v, vname), now, Complete)];
            var room' := ApplyAll(room, Stream(t, ticks, v));
            && u in Members(TableAfter(t, ticks), c) && v in Members(TableAfter(t, ticks), c)
            && v in room'.participants && u !in room'.participants
  {
    var first, second := Tick(Joined(c, u, name), now, Complete), Tick(Joined(c, v, vname), now, Complete);
    var t1 := Next(t, first);
    assert [first, second][1..] == [second];
    AbsentHearsNothing(t, first, v);
    OneTick(t1, second, v);
    HeardIs(t1, second, v);
    SaidLooks(room, t1, second);
    KnownShows(room, t, c, u);
    assert LookOf(ApplyAll(room, Said(t1, second)), u) == LookOf(room, u);
  }

  lemma OneTick(t: Table, tick: Tick, v: UserId)
    ensures TableAfter(t, [tick]) == Next(t, tick)
    ensures Stream(t, [tick], v) == HeardBy(t, tick, v)
  {
    assert [tick][1..] == [];
  }
}
