/** The viewer's snapshot against the server's table, change by change. */
module RoomView {
  import opened Basics
  import opened Protocol
  import opened Publications
  import opened RoomStore
  import opened RoomLaws
  import opened Presence

  /** What the client shows: per person, the sources on the air and since when. */
  function Shown(room: Room): map<UserId, set<Publication>> {
    map u | u in room.participants :: set p | p in room.participants[u].publications
  }

  function OnAir(row: Row): set<Publication> {
    set p | p in WirePublications(row)
  }

  /** The same, as the table has it for one room. */
  function Rows(t: Table, c: ChannelId): map<UserId, set<Publication>> {
    map u | u in t && t[u].channel == c :: OnAir(t[u])
  }

  ghost predicate Agrees(room: Room, t: Table, c: ChannelId) {
    room.channel == Some(c) && Shown(room) == Rows(t, c)
  }

  // ---------------------------------------------------------------------------
  // One event against one row
  // ---------------------------------------------------------------------------

  lemma OnAirOf(row: Row, p: Publication)
    ensures p in OnAir(row) <==> Since(row, p.source) == Some(p.since)
  {
  }

  /** Replacing one source of a list with at most one entry each. */
  lemma ReplacedElements(ps: seq<Publication>, s: Source, since: Option<Timestamp>, p: Publication)
    requires OnePerSource(ps)
    ensures var others := NotOfSource(ps, s);
            var ps' := if since.None? then others else others + [Publication(s, since.value)];
            p in ps' <==> if p.source == s then since == Some(p.since) else p in ps
  {
    NotOfSourceLaw(ps, s);
  }

  lemma FindElement(ps: seq<Publication>, p: Publication)
    requires OnePerSource(ps)
    ensures p in ps <==> Find(ps, p.source) == Some(p)
  {
    FindLaw(ps, p.source);
    if p in ps {
      var i :| 0 <= i < |ps| && ps[i] == p;
      var q := Find(ps, p.source).value;
      var j :| 0 <= j < |ps| && ps[j] == q;
    }
  }

  /** After a share event a known person shows the event's source as the event
      says, and the other source as before. */
  lemma SharedShows(room: Room, c: ChannelId, u: UserId, s: Source, since: Option<Timestamp>)
    requires room.channel == Some(c) && u in room.participants
    requires OnePerSource(room.participants[u].publications)
    ensures var room' := SetPublishing(room, c, u, s, since);
            && room'.channel == room.channel
            && room'.participants.Keys == room.participants.Keys
            && (forall x :: x in room.participants && x != u ==> room'.participants[x] == room.participants[x])
            && (forall p: Publication :: p in room'.participants[u].publications <==>
                  if p.source == s then since == Some(p.since) else p in room.participants[u].publications)
  {
    var ps := room.participants[u].publications;
    var room' := SetPublishing(room, c, u, s, since);
    forall p: Publication
      ensures p in room'.participants[u].publications <==>
                if p.source == s then since == Some(p.since) else p in ps
    {
      ReplacedElements(ps, s, since, p);
      FindElement(ps, p);
      FindLaw(ps, s);
    }
  }

  /** One person's row changes as their shown publications do; then agreement
      carries over. */
  lemma AgreementCarries(room: Room, room': Room, t: Table, t': Table, c: ChannelId, u: UserId)
    requires Agrees(room, t, c) && room'.channel == Some(c)
    requires forall x :: x != u ==> (x in t' <==> x in t) && (x in t ==> t'[x] == t[x])
    requires forall x :: x != u ==> (x in room'.participants <==> x in room.participants)
    requires forall x :: x != u && x in room.participants ==> room'.participants[x] == room.participants[x]
    requires u in room'.participants <==> u in t' && t'[u].channel == c
    requires u in room'.participants ==> Elements(room'.participants[u].publications) == OnAir(t'[u])
    ensures Agrees(room', t', c)
  {
    var shown, rows := Shown(room'), Rows(t', c);
    forall x ensures x in shown <==> x in rows {
      assert x in Shown(room) <==> x in Rows(t, c);
    }
    forall x | x in shown ensures shown[x] == rows[x] {
      if x == u {
        assert shown[u] == Elements(room'.participants[u].publications);
      } else {
        assert Shown(room)[x] == Rows(t, c)[x];
      }
    }
  }

  lemma KnownShows(room: Room, t: Table, c: ChannelId, u: UserId)
    requires Agrees(room, t, c)
    ensures u in room.participants <==> u in t && t[u].channel == c
    ensures u in room.participants ==> forall p :: p in room.participants[u].publications <==> p in OnAir(t[u])
  {
    assert u in Shown(room) <==> u in Rows(t, c);
    if u in room.participants {
      assert Shown(room)[u] == Rows(t, c)[u];
    }
  }

  // ---------------------------------------------------------------------------
  // Changes made in the viewer's own room
  // ---------------------------------------------------------------------------

  lemma ShareAgrees(room: Room, t: Table, c: ChannelId, u: UserId, s: Source, row: Row, since: Option<Timestamp>)
    requires WellFormed(room) && Agrees(room, t, c) && u in t
    requires row.channel == t[u].channel && Since(row, s) == since
    requires forall x :: x != s ==> Since(row, x) == Since(t[u], x)
    ensures Agrees(SetPublishing(room, c, u, s, since), t[u := row], c)
  {
    KnownShows(room, t, c, u);
    var room' := SetPublishing(room, c, u, s, since);
    if u in room.participants {
      SharedShows(room, c, u, s, since);
      forall p: Publication ensures p in Elements(room'.participants[u].publications) <==> p in OnAir(row) {
        OnAirOf(row, p);
        OnAirOf(t[u], p);
      }
    }
    AgreementCarries(room, room', t, t[u := row], c, u);
  }

  lemma JoinAgrees(room: Room, t: Table, c: ChannelId, u: UserId, name: string, now: Timestamp)
    requires WellFormed(room) && Agrees(room, t, c)
    ensures Agrees(Add(room, c, RoomParticipant(UserSummary(u, name), [])), After(t, Joined(c, u, name), now), c)
  {
    var p := RoomParticipant(UserSummary(u, name), []);
    var room' := Add(room, c, p);
    assert Elements(room'.participants[u].publications) == {};
    AgreementCarries(room, room', t, After(t, Joined(c, u, name), now), c, u);
  }

  lemma LeaveAgrees(room: Room, t: Table, c: ChannelId, u: UserId, now: Timestamp)
    requires WellFormed(room) && Agrees(room, t, c)
    ensures Agrees(Remove(room, c, u), After(t, Departed(c, u), now), c)
  {
    KnownShows(room, t, c, u);
    AgreementCarries(room, Remove(room, c, u), t, After(t, Departed(c, u), now), c, u);
  }

  lemma GoneAgrees(room: Room, t: Table, c: ChannelId, u: UserId, now: Timestamp)
    requires WellFormed(room) && Agrees(room, t, c) && u in t
    ensures Agrees(SetPublishing(SetPublishing(room, c, u, Screen, None), c, u, Camera, None),
                   After(t, PublisherGone(c, u), now), c)
  {
    var row1 := Stopped(t[u], Screen);
    ShareAgrees(room, t, c, u, Screen, row1, None);
    ShareKeepsWellFormed(room, c, u, Screen, None);
    var room1, t1 := SetPublishing(room, c, u, Screen, None), t[u := row1];
    ShareAgrees(room1, t1, c, u, Camera, Cleared(t[u]), None);
    assert t1[u := Cleared(t[u])] == t[u := Cleared(t[u])];
  }

  /** Stopping a source nobody shows is no change, so the sources that were not
      live need no event. */
  lemma StopOfNothing(room: Room, t: Table, c: ChannelId, u: UserId, s: Source)
    requires WellFormed(room) && Agrees(room, t, c) && u in t && Since(t[u], s).None?
    ensures SetPublishing(room, c, u, s, None) == room
  {
    KnownShows(room, t, c, u);
    if u in room.participants {
      FindLaw(room.participants[u].publications, s);
      if HasSource(room.participants[u].publications, s) {
        OnAirOf(t[u], Find(room.participants[u].publications, s).value);
      }
    }
  }

  // ---------------------------------------------------------------------------
  // What a viewer receives
  // ---------------------------------------------------------------------------

  function StopEvents(c: ChannelId, u: UserId, sources: seq<Source>): seq<Event> {
    if sources == [] then [] else [ShareStop(c, u, sources[0])] + StopEvents(c, u, sources[1..])
  }

  lemma {:induction false} ReceivedStops(to: set<UserId>, c: ChannelId, u: UserId, sources: seq<Source>, v: UserId)
    ensures Received(StopsFor(to, c, u, sources), v) == if v in to then StopEvents(c, u, sources) else []
  {
    if sources != [] {
      ReceivedStops(to, c, u, sources[1..], v);
      var ps := StopsFor(to, c, u, sources);
      assert ps[1..] == StopsFor(to, c, u, sources[1..]);
    }
  }

  lemma ReceivedOne(p: Posting, v: UserId)
    ensures Received([p], v) == if v in p.to then [p.event] else []
  {
    assert [p][1..] == [];
  }

  lemma ApplyOne(room: Room, e: Event)
    ensures ApplyAll(room, [e]) == Apply(room, e)
  {
    assert [e][1..] == [];
  }

  lemma ApplyStops(room: Room, t: Table, c: ChannelId, u: UserId)
    requires WellFormed(room) && Agrees(room, t, c) && u in t
    ensures ApplyAll(room, StopEvents(c, u, LiveSources(t[u])))
         == SetPublishing(SetPublishing(room, c, u, Screen, None), c, u, Camera, None)
  {
    var row := t[u];
    var room1 := SetPublishing(room, c, u, Screen, None);
    var t1 := t[u := Stopped(row, Screen)];
    ShareAgrees(room, t, c, u, Screen, Stopped(row, Screen), None);
    ShareKeepsWellFormed(room, c, u, Screen, None);
    if row.screenSince.None? {
      StopOfNothing(room, t, c, u, Screen);
    }
    if row.cameraSince.None? {
      StopOfNothing(room1, t1, c, u, Camera);
    }
    assert [Screen][1..] == [] && [Camera][1..] == [] && [Screen, Camera][1..] == [Camera];
    assert StopEvents(c, u, []) == [];
    ApplyOne(room, ShareStop(c, u, Screen));
    ApplyOne(room1, ShareStop(c, u, Camera));
    assert StopEvents(c, u, [Screen]) == [ShareStop(c, u, Screen)];
    assert StopEvents(c, u, [Camera]) == [ShareStop(c, u, Camera)];
    var both := StopEvents(c, u, [Screen, Camera]);
    assert both == [ShareStop(c, u, Screen), ShareStop(c, u, Camera)];
    assert both[1..] == [ShareStop(c, u, Camera)];
  }

  /** The viewer is in the room before and after, whoever the change is about. */
  ghost predicate Stays(t: Table, w: Change, now: Timestamp, c: ChannelId, v: UserId) {
    && v in Members(t, c)
    && v in Members(After(t, w, now), c)
  }

  lemma JoinReceived(t: Table, c: ChannelId, v: UserId, u: UserId, name: string, now: Timestamp)
    requires v in Members(After(t, Joined(c, u, name), now), c)
    ensures Received(Emitted(t, Joined(c, u, name), now), v)
         == [ParticipantAdd(c, RoomParticipant(UserSummary(u, name), []))]
  {
    ReceivedOne(Emitted(t, Joined(c, u, name), now)[0], v);
  }

  lemma LeaveReceived(t: Table, c: ChannelId, v: UserId, u: UserId, now: Timestamp)
    requires v in Members(After(t, Departed(c, u), now), c)
    ensures Received(Emitted(t, Departed(c, u), now), v) == [ParticipantRemove(c, u)]
  {
    ReceivedOne(Emitted(t, Departed(c, u), now)[0], v);
  }

  lemma StopReceived(t: Table, c: ChannelId, v: UserId, u: UserId, s: Source, now: Timestamp)
    requires v in Members(After(t, Unpublished(c, u, s), now), c) && u in t
    ensures Received(Emitted(t, Unpublished(c, u, s), now), v) == [ShareStop(c, u, s)]
  {
    ReceivedOne(Emitted(t, Unpublished(c, u, s), now)[0], v);
  }

  lemma OwnJoinAgrees(room: Room, t: Table, c: ChannelId, v: UserId, u: UserId, name: string, now: Timestamp)
    requires WellFormed(room) && Agrees(room, t, c) && Stays(t, Joined(c, u, name), now, c, v)
    ensures var w := Joined(c, u, name);
            Agrees(ApplyAll(room, Received(Emitted(t, w, now), v)), After(t, w, now), c)
  {
    JoinReceived(t, c, v, u, name, now);
    ApplyOne(room, ParticipantAdd(c, RoomParticipant(UserSummary(u, name), [])));
    JoinAgrees(room, t, c, u, name, now);
  }

  lemma OwnLeaveAgrees(room: Room, t: Table, c: ChannelId, v: UserId, u: UserId, now: Timestamp)
    requires WellFormed(room) && Agrees(room, t, c) && Stays(t, Departed(c, u), now, c, v)
    ensures var w := Departed(c, u);
            Agrees(ApplyAll(room, Received(Emitted(t, w, now), v)), After(t, w, now), c)
  {
    LeaveReceived(t, c, v, u, now);
    ApplyOne(room, ParticipantRemove(c, u));
    LeaveAgrees(room, t, c, u, now);
  }

  lemma OwnGoneAgrees(room: Room, t: Table, c: ChannelId, v: UserId, u: UserId, now: Timestamp)
    requires WellFormed(room) && Agrees(room, t, c) && Stays(t, PublisherGone(c, u), now, c, v) && u in t
    ensures var w := PublisherGone(c, u);
            Agrees(ApplyAll(room, Received(Emitted(t, w, now), v)), After(t, w, now), c)
  {
    ReceivedStops(Members(After(t, PublisherGone(c, u), now), c), c, u, LiveSources(t[u]), v);
    ApplyStops(room, t, c, u);
    GoneAgrees(room, t, c, u, now);
  }

  lemma ShareReceived(t: Table, c: ChannelId, v: UserId, u: UserId, s: Source, now: Timestamp)
    requires v in Members(After(t, Published(c, u, s), now), c) && u in t
    ensures Received(Emitted(t, Published(c, u, s), now), v)
         == [ShareStart(c, u, s, Since(Started(t[u], s, now), s).value)]
  {
    ReceivedOne(Emitted(t, Published(c, u, s), now)[0], v);
  }

  lemma StartApplied(room: Room, c: ChannelId, u: UserId, s: Source, at: Timestamp)
    ensures ApplyAll(room, [ShareStart(c, u, s, at)]) == SetPublishing(room, c, u, s, Some(at))
  {
    ApplyOne(room, ShareStart(c, u, s, at));
  }

  lemma StopApplied(room: Room, c: ChannelId, u: UserId, s: Source)
    ensures ApplyAll(room, [ShareStop(c, u, s)]) == SetPublishing(room, c, u, s, None)
  {
    ApplyOne(room, ShareStop(c, u, s));
  }

  lemma OwnShareAgrees(room: Room, t: Table, c: ChannelId, v: UserId, u: UserId, s: Source, now: Timestamp)
    requires WellFormed(room) && Agrees(room, t, c) && Stays(t, Published(c, u, s), now, c, v) && u in t
    ensures var w := Published(c, u, s);
            Agrees(ApplyAll(room, Received(Emitted(t, w, now), v)), After(t, w, now), c)
  {
    var row := Started(t[u], s, now);
    var since := Since(row, s);
    assert After(t, Published(c, u, s), now) == t[u := row];
    ShareReceived(t, c, v, u, s, now);
    StartApplied(room, c, u, s, since.value);
    ShareAgrees(room, t, c, u, s, row, since);
  }

  lemma OwnStopAgrees(room: Room, t: Table, c: ChannelId, v: UserId, u: UserId, s: Source, now: Timestamp)
    requires WellFormed(room) && Agrees(room, t, c) && Stays(t, Unpublished(c, u, s), now, c, v) && u in t
    ensures var w := Unpublished(c, u, s);
            Agrees(ApplyAll(room, Received(Emitted(t, w, now), v)), After(t, w, now), c)
  {
    var row := Stopped(t[u], s);
    assert After(t, Unpublished(c, u, s), now) == t[u := row];
    StopReceived(t, c, v, u, s, now);
    StopApplied(room, c, u, s);
    ShareAgrees(room, t, c, u, s, row, None);
  }

  /** A webhook that names the viewer's room keeps the view equal to the table. */
  lemma OwnRoomAgrees(room: Room, t: Table, w: Change, now: Timestamp, c: ChannelId, v: UserId)
    requires WellFormed(room) && Agrees(room, t, c) && Stays(t, w, now, c, v) && w.channel == c && !w.Evicted?
    ensures Agrees(ApplyAll(room, Received(Emitted(t, w, now), v)), After(t, w, now), c)
  {
    match w {
      case Joined(_, u, name) => OwnJoinAgrees(room, t, c, v, u, name, now);
      case Departed(_, u) => OwnLeaveAgrees(room, t, c, v, u, now);
      case PublisherGone(_, u) => if u in t { OwnGoneAgrees(room, t, c, v, u, now); }
      case Published(_, u, s) => if u in t { OwnShareAgrees(room, t, c, v, u, s, now); }
      case Unpublished(_, u, s) => if u in t { OwnStopAgrees(room, t, c, v, u, s, now); }
      case RoomFinished(_) =>
    }
  }

  // ---------------------------------------------------------------------------
  // Changes the viewer is not told of
  // ---------------------------------------------------------------------------

  predicate InRoom(t: Table, c: ChannelId, u: UserId) {
    u in t && t[u].channel == c
  }

  /** Whether a change makes room `c` look different, as can be told from the change
      and the table before it. Rows are found by user alone, so a change that names
      another room may. */
  predicate Touches(t: Table, w: Change, c: ChannelId) {
    match w
    case Joined(d, u, _) =>
      if d == c then !InRoom(t, c, u) || t[u].screenSince.Some? || t[u].cameraSince.Some? else InRoom(t, c, u)
    case Departed(_, u) => InRoom(t, c, u)
    case Evicted(_, u) => InRoom(t, c, u)
    case PublisherGone(_, u) => InRoom(t, c, u) && (t[u].screenSince.Some? || t[u].cameraSince.Some?)
    case Published(_, u, s) => InRoom(t, c, u) && Since(t[u], s).None?
    case Unpublished(_, u, s) => InRoom(t, c, u) && Since(t[u], s).Some?
    case RoomFinished(d) => d == c && Members(t, c) != {}
  }

  /** Two rows show the same exactly when their clocks are the same. */
  lemma OnAirDiffers(a: Row, b: Row)
    ensures OnAir(a) == OnAir(b) <==> a.screenSince == b.screenSince && a.cameraSince == b.cameraSince
  {
    forall s: Source | Since(a, s) != Since(b, s) ensures OnAir(a) != OnAir(b) {
      var row := if Since(a, s).Some? then a else b;
      var p := Publication(s, Since(row, s).value);
      OnAirOf(a, p);
      OnAirOf(b, p);
    }
    assert Since(a, Screen) == a.screenSince && Since(a, Camera) == a.cameraSince;
    assert Since(b, Screen) == b.screenSince && Since(b, Camera) == b.cameraSince;
  }

  /** Changing one user's row changes the room's rows exactly when that row does. */
  lemma OneRowChanges(t: Table, t': Table, c: ChannelId, u: UserId)
    requires forall x :: x != u ==> (x in t' <==> x in t) && (x in t ==> t'[x] == t[x])
    ensures Rows(t', c) == Rows(t, c) <==>
            && (InRoom(t', c, u) <==> InRoom(t, c, u))
            && (InRoom(t, c, u) ==> OnAir(t'[u]) == OnAir(t[u]))
  {
    var rows, rows' := Rows(t, c), Rows(t', c);
    assert u in rows <==> InRoom(t, c, u);
    assert u in rows' <==> InRoom(t', c, u);
    if InRoom(t, c, u) && InRoom(t', c, u) {
      assert rows[u] == OnAir(t[u]) && rows'[u] == OnAir(t'[u]);
    }
    forall x | x != u ensures (x in rows' <==> x in rows) && (x in rows ==> rows'[x] == rows[x]) {
      assert x in rows <==> InRoom(t, c, x);
    }
  }

  lemma FinishedRows(t: Table, d: ChannelId, c: ChannelId, now: Timestamp)
    ensures Rows(After(t, RoomFinished(d), now), c) == Rows(t, c) <==> !(d == c && Members(t, c) != {})
  {
    if d == c && Members(t, c) != {} {
      var u :| u in Members(t, c);
      assert u in Rows(t, c) && u !in Rows(After(t, RoomFinished(d), now), c);
    }
  }

  /** The room looks different after a change exactly when the change touches it. */
  lemma RowsChangeIff(t: Table, w: Change, now: Timestamp, c: ChannelId)
    ensures Rows(After(t, w, now), c) == Rows(t, c) <==> !Touches(t, w, c)
  {
    if w.RoomFinished? {
      FinishedRows(t, w.channel, c, now);
    } else {
      var u, t' := w.user, After(t, w, now);
      OneRowChanges(t, t', c, u);
      if InRoom(t, c, u) && InRoom(t', c, u) {
        OnAirDiffers(t[u], t'[u]);
      }
    }
  }

  /** A change that touches the room without telling its viewers: one that names
      another room, or an eviction. */
  predicate Unseen(t: Table, w: Change, c: ChannelId) {
    (w.channel != c || w.Evicted?) && Touches(t, w, c)
  }

  lemma NotTold(t: Table, w: Change, now: Timestamp, c: ChannelId, v: UserId)
    requires Stays(t, w, now, c, v) && (w.channel != c || w.Evicted?)
    ensures Received(Emitted(t, w, now), v) == []
  {
    if w.PublisherGone? && w.user in t {
      ReceivedStops(Members(After(t, w, now), w.channel), w.channel, w.user, LiveSources(t[w.user]), v);
    } else if Emitted(t, w, now) != [] {
      ReceivedOne(Emitted(t, w, now)[0], v);
    }
  }

  /** View agreement, one change. For a viewer who stays in the room, the snapshot
      equals the table afterwards exactly when the change did not touch the room
      from another one, and was not the eviction of somebody in it. */
  lemma ViewAgreesIff(room: Room, t: Table, w: Change, now: Timestamp, c: ChannelId, v: UserId)
    requires WellFormed(room) && Agrees(room, t, c) && Stays(t, w, now, c, v)
    ensures Agrees(ApplyAll(room, Received(Emitted(t, w, now), v)), After(t, w, now), c) <==> !Unseen(t, w, c)
  {
    if w.channel == c && !w.Evicted? {
      OwnRoomAgrees(room, t, w, now, c, v);
    } else {
      NotTold(t, w, now, c, v);
      RowsChangeIff(t, w, now, c);
    }
  }

  /** A handler that fails after its write tells nobody, and is run again when the
      webhook is sent again. The second run leaves the snapshot equal to the table
      exactly when it was not a lost publisher with something on the air: by then
      the row no longer says what was. */
  lemma RetryRepairsIff(room: Room, t: Table, w: Change, first: Timestamp, now: Timestamp, c: ChannelId, v: UserId)
    requires WellFormed(room) && Agrees(room, t, c) && w.channel == c && !w.Evicted?
    requires Stays(t, w, first, c, v) && Stays(After(t, w, first), w, now, c, v)
    ensures var t1 := After(t, w, first);
            Agrees(ApplyAll(room, Received(Emitted(t1, w, now), v)), After(t1, w, now), c) <==>
              !(w.PublisherGone? && Touches(t, w, c))
  {
    var t1 := After(t, w, first);
    match w {
      case Joined(_, u, name) =>
        JoinReceived(t1, c, v, u, name, now);
        ApplyOne(room, ParticipantAdd(c, RoomParticipant(UserSummary(u, name), [])));
        JoinAgrees(room, t, c, u, name, now);
        assert After(t1, w, now) == After(t, w, now);
      case Departed(_, u) =>
        LeaveReceived(t1, c, v, u, now);
        ApplyOne(room, ParticipantRemove(c, u));
        LeaveAgrees(room, t, c, u, now);
        assert After(t1, w, now) == After(t, w, now);
      case PublisherGone(_, u) =>
        RowsChangeIff(t, w, first, c);
        RetriedGone(t, c, u, first, now, v);
      case Published(_, u, s) => if u in t { RetriedShare(room, t, c, u, s, first, now, v); }
      case Unpublished(_, u, s) => if u in t { RetriedStop(room, t, c, u, s, first, now, v); }
      case RoomFinished(_) =>
    }
  }

  lemma RetriedGone(t: Table, c: ChannelId, u: UserId, first: Timestamp, now: Timestamp, v: UserId)
    ensures var w := PublisherGone(c, u);
            var t1 := After(t, w, first);
            After(t1, w, now) == t1 && Received(Emitted(t1, w, now), v) == []
  {
    var w := PublisherGone(c, u);
    var t1 := After(t, w, first);
    if u in t {
      ReceivedStops(Members(After(t1, w, now), c), c, u, LiveSources(t1[u]), v);
      assert LiveSources(t1[u]) == [];
    }
  }

  lemma RetriedShare(
    room: Room, t: Table, c: ChannelId, u: UserId, s: Source, first: Timestamp, now: Timestamp, v: UserId)
    requires WellFormed(room) && Agrees(room, t, c) && u in t && v in Members(t, c)
    ensures var w := Published(c, u, s);
            var t1 := After(t, w, first);
            Agrees(ApplyAll(room, Received(Emitted(t1, w, now), v)), After(t1, w, now), c)
  {
    var w := Published(c, u, s);
    var t1 := After(t, w, first);
    assert After(t1, w, now) == t1;
    ShareReceived(t1, c, v, u, s, now);
    ShareReceived(t, c, v, u, s, first);
    OwnShareAgrees(room, t, c, v, u, s, first);
  }

  lemma RetriedStop(
    room: Room, t: Table, c: ChannelId, u: UserId, s: Source, first: Timestamp, now: Timestamp, v: UserId)
    requires WellFormed(room) && Agrees(room, t, c) && u in t && v in Members(t, c)
    ensures var w := Unpublished(c, u, s);
            var t1 := After(t, w, first);
            Agrees(ApplyAll(room, Received(Emitted(t1, w, now), v)), After(t1, w, now), c)
  {
    var w := Unpublished(c, u, s);
    var t1 := After(t, w, first);
    assert After(t1, w, now) == t1;
    StopReceived(t1, c, v, u, s, now);
    StopReceived(t, c, v, u, s, first);
    OwnStopAgrees(room, t, c, v, u, s, first);
  }

  // ---------------------------------------------------------------------------
  // Where a view starts
  // ---------------------------------------------------------------------------

  /** A listing of the room as the server sends it: each row once, in some order. */
  ghost predicate Lists(ps: seq<RoomParticipant>, t: Table, c: ChannelId) {
    && (forall i, j :: 0 <= i < j < |ps| ==> ps[i].user.id != ps[j].user.id)
    && (forall i :: 0 <= i < |ps| ==> ps[i].user.id in Members(t, c) && ps[i] == ToWire(ps[i].user, t[ps[i].user.id]))
    && (forall u :: u in Members(t, c) ==> exists i :: 0 <= i < |ps| && ps[i].user.id == u)
  }

  ghost predicate Names(ps: seq<RoomParticipant>, u: UserId) {
    exists i :: 0 <= i < |ps| && ps[i].user.id == u
  }

  lemma NamesCons(ps: seq<RoomParticipant>, u: UserId)
    requires ps != []
    ensures Names(ps, u) <==> u == ps[0].user.id || Names(ps[1..], u)
  {
    if Names(ps[1..], u) {
      var k :| 0 <= k < |ps[1..]| && ps[1..][k].user.id == u;
      assert ps[k + 1].user.id == u;
    }
    if Names(ps, u) && u != ps[0].user.id {
      var k :| 0 <= k < |ps| && ps[k].user.id == u;
      assert ps[1..][k - 1].user.id == u;
    }
  }

  /** Entering a listing adds exactly the people it names and leaves everybody
      it does not name alone. */
  lemma {:induction false} EnterAllNames(room: Room, ps: seq<RoomParticipant>)
    ensures var room' := EnterAll(room, ps);
            && room'.channel == room.channel
            && (forall u :: u in room'.participants <==> u in room.participants || Names(ps, u))
            && (forall u :: u in room.participants && !Names(ps, u) ==>
                  room'.participants[u] == room.participants[u])
    decreases |ps|
  {
    if ps != [] {
      EnterAllNames(Enter(room, ps[0]), ps[1..]);
      forall u ensures Names(ps, u) <==> u == ps[0].user.id || Names(ps[1..], u) {
        NamesCons(ps, u);
      }
    }
  }

  lemma {:induction false} EnterAllEntersEach(room: Room, ps: seq<RoomParticipant>, i: nat)
    requires i < |ps| && ps[i].user.id !in room.participants
    requires forall j, k :: 0 <= j < k < |ps| ==> ps[j].user.id != ps[k].user.id
    ensures ps[i].user.id in EnterAll(room, ps).participants
    ensures EnterAll(room, ps).participants[ps[i].user.id] == ps[i]
    decreases |ps|
  {
    var next := Enter(room, ps[0]);
    if i == 0 {
      assert !Names(ps[1..], ps[0].user.id);
      EnterAllNames(next, ps[1..]);
    } else {
      EnterAllEntersEach(next, ps[1..], i - 1);
    }
  }

  lemma WireIsOnePerSource(user: UserSummary, row: Row)
    ensures OnePerSource(ToWire(user, row).publications)
  {
  }

  function Shell(state: RoomState): Room {
    EMPTY_ROOM.(channel := Some(state.channel), guild := Some(state.guild), name := Some(state.name))
  }

  lemma ListedRow(shell: Room, ps: seq<RoomParticipant>, t: Table, c: ChannelId, u: UserId)
    requires Lists(ps, t, c) && shell.participants == map[] && u in Members(t, c)
    ensures u in EnterAll(shell, ps).participants
    ensures Elements(EnterAll(shell, ps).participants[u].publications) == OnAir(t[u])
  {
    var i :| 0 <= i < |ps| && ps[i].user.id == u;
    EnterAllEntersEach(shell, ps, i);
    assert ps[i] == ToWire(ps[i].user, t[u]);
  }

  lemma ListedNames(ps: seq<RoomParticipant>, t: Table, c: ChannelId, u: UserId)
    requires Lists(ps, t, c)
    ensures u in Members(t, c) <==> Names(ps, u)
    ensures u in Members(t, c) <==> u in Rows(t, c)
  {
  }

  lemma ListedKeys(shell: Room, ps: seq<RoomParticipant>, t: Table, c: ChannelId)
    requires Lists(ps, t, c) && shell.participants == map[]
    ensures EnterAll(shell, ps).participants.Keys == Members(t, c)
  {
    EnterAllNames(shell, ps);
    forall u ensures u in EnterAll(shell, ps).participants <==> u in Members(t, c) {
      ListedNames(ps, t, c, u);
    }
  }

  lemma ShowsRows(room: Room, t: Table, c: ChannelId)
    requires room.participants.Keys == Members(t, c)
    requires forall u :: u in Members(t, c) ==> Elements(room.participants[u].publications) == OnAir(t[u])
    ensures Shown(room) == Rows(t, c)
  {
    assert Shown(room).Keys == Rows(t, c).Keys;
    forall u | u in Members(t, c) ensures Shown(room)[u] == Rows(t, c)[u] {
      assert Shown(room)[u] == Elements(room.participants[u].publications);
    }
  }

  /** Entering a listing of a room shows that room. */
  lemma ListingShows(shell: Room, ps: seq<RoomParticipant>, t: Table, c: ChannelId)
    requires Lists(ps, t, c) && shell.participants == map[]
    ensures Shown(EnterAll(shell, ps)) == Rows(t, c)
    ensures EnterAll(shell, ps).channel == shell.channel
  {
    EnterAllNames(shell, ps);
    ListedKeys(shell, ps, t, c);
    forall u | u in Members(t, c) ensures Elements(EnterAll(shell, ps).participants[u].publications) == OnAir(t[u]) {
      ListedRow(shell, ps, t, c, u);
    }
    ShowsRows(EnterAll(shell, ps), t, c);
  }

  /** A snapshot built from a listing of the room starts in agreement. */
  lemma SnapshotAgrees(state: RoomState, t: Table)
    requires Lists(state.participants, t, state.channel)
    ensures WellFormed(FromState(state)) && Agrees(FromState(state), t, state.channel)
  {
    ListingShows(Shell(state), state.participants, t, state.channel);
    forall i | 0 <= i < |state.participants| ensures OnePerSource(state.participants[i].publications) {
      WireIsOnePerSource(state.participants[i].user, t[state.participants[i].user.id]);
    }
    FromStateWellFormed(state);
  }

  /** A READY is built from a listing and its session attached later; the session
      hears nothing in between. A change in between leaves it right exactly when the
      change does not touch the room. */
  lemma ReadyStaysFreshIff(state: RoomState, t: Table, w: Change, now: Timestamp)
    requires Lists(state.participants, t, state.channel)
    ensures Agrees(FromState(state), After(t, w, now), state.channel) <==> !Touches(t, w, state.channel)
  {
    SnapshotAgrees(state, t);
    RowsChangeIff(t, w, now, state.channel);
  }
}
