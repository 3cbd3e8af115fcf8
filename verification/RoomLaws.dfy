/** What the reducer guarantees: applying twice is applying once, the snapshot is
    always coherent, and tiles never jump. */
module RoomLaws {
  import opened Basics
  import opened Protocol
  import opened Publications
  import opened RoomStore

  // ---------------------------------------------------------------------------
  // Lists
  // ---------------------------------------------------------------------------

  lemma {:induction false} WithoutLaw(ids: seq<string>, id: string)
    ensures forall t :: t in Without(ids, id) <==> t in ids && t != id
    ensures NoDup(ids) ==> NoDup(Without(ids, id))
  {
    if ids != [] {
      var rest := Without(ids[1..], id);
      WithoutLaw(ids[1..], id);
      assert forall t :: t in ids <==> t == ids[0] || t in ids[1..];
      if ids[0] == id {
        assert Without(ids, id) == rest;
      } else {
        NoDupCons(ids[0], ids[1..]);
        NoDupCons(ids[0], rest);
        assert ids == [ids[0]] + ids[1..];
      }
    }
  }

  /** After the call the tile is there exactly when asked for; the others are as
      they were. */
  lemma WithTileLaw(tiles: seq<PublicationId>, id: PublicationId, live: bool)
    ensures forall t :: t in WithTile(tiles, id, live) <==> if t == id then live else t in tiles
    ensures NoDup(tiles) ==> NoDup(WithTile(tiles, id, live))
  {
    WithoutLaw(tiles, id);
  }

  // ---------------------------------------------------------------------------
  // Publications of one person
  // ---------------------------------------------------------------------------

  predicate OnePerSource(ps: seq<Publication>) {
    forall i, j :: 0 <= i < j < |ps| ==> ps[i].source != ps[j].source
  }

  lemma {:induction false} NotOfSourceLaw(ps: seq<Publication>, s: Source)
    ensures forall p :: p in NotOfSource(ps, s) <==> p in ps && p.source != s
    ensures OnePerSource(ps) ==> OnePerSource(NotOfSource(ps, s))
    ensures forall x :: HasSource(NotOfSource(ps, s), x) <==> HasSource(ps, x) && x != s
  {
    if ps != [] {
      NotOfSourceLaw(ps[1..], s);
      var rest := NotOfSource(ps[1..], s);
      forall x ensures HasSource(NotOfSource(ps, s), x) <==> HasSource(ps, x) && x != s {
        HasSourceCons(ps, x);
        if ps[0].source != s {
          HasSourceCons([ps[0]] + rest, x);
          assert ([ps[0]] + rest)[1..] == rest;
        } else {
          assert NotOfSource(ps, s) == rest;
        }
      }
    }
  }

  lemma HasSourceCons(ps: seq<Publication>, x: Source)
    requires ps != []
    ensures HasSource(ps, x) <==> ps[0].source == x || HasSource(ps[1..], x)
  {
    if HasSource(ps[1..], x) {
      var i :| 0 <= i < |ps[1..]| && ps[1..][i].source == x;
      assert ps[i + 1].source == x;
    }
    if HasSource(ps, x) && ps[0].source != x {
      var i :| 0 <= i < |ps| && ps[i].source == x;
      assert ps[1..][i - 1].source == x;
    }
  }

  lemma {:induction false} FindLaw(ps: seq<Publication>, s: Source)
    ensures Find(ps, s).Some? <==> HasSource(ps, s)
    ensures Find(ps, s).Some? ==> Find(ps, s).value in ps && Find(ps, s).value.source == s
  {
    if ps != [] {
      FindLaw(ps[1..], s);
      HasSourceCons(ps, s);
    }
  }

  lemma {:induction false} FindReplaced(ps: seq<Publication>, s: Source, p: Publication)
    requires p.source == s
    ensures Find(NotOfSource(ps, s), s) == None
    ensures Find(NotOfSource(ps, s) + [p], s) == Some(p)
  {
    if ps == [] {
      assert NotOfSource(ps, s) + [p] == [p];
    } else {
      FindReplaced(ps[1..], s, p);
      var rest := NotOfSource(ps[1..], s);
      if ps[0].source != s {
        assert NotOfSource(ps, s) == [ps[0]] + rest;
        assert ([ps[0]] + rest)[1..] == rest;
        assert (([ps[0]] + rest) + [p])[1..] == rest + [p];
      } else {
        assert NotOfSource(ps, s) == rest;
      }
    }
  }

  // ---------------------------------------------------------------------------
  // Idempotence
  // ---------------------------------------------------------------------------

  lemma SetPublishingTwice(room: Room, channel: ChannelId, id: UserId, s: Source, since: Option<Timestamp>)
    ensures var once := SetPublishing(room, channel, id, s, since);
            SetPublishing(once, channel, id, s, since) == once
  {
    if room.channel == Some(channel) && id in room.participants {
      FindReplaced(room.participants[id].publications, s, Publication(s, since.GetOr(0)));
    }
  }

  /** Applying any event twice equals applying it once, from any snapshot. */
  lemma ApplyTwiceIsOnce(room: Room, e: Event)
    ensures Apply(Apply(room, e), e) == Apply(room, e)
  {
    match e {
      case ShareStart(channel, id, s, at) => SetPublishingTwice(room, channel, id, s, Some(at));
      case ShareStop(channel, id, s) => SetPublishingTwice(room, channel, id, s, None);
      case _ =>
    }
  }

  // ---------------------------------------------------------------------------
  // Well-formedness
  // ---------------------------------------------------------------------------

  predicate Live(room: Room, u: UserId, s: Source) {
    u in room.participants && HasSource(room.participants[u].publications, s)
  }

  ghost predicate IsTile(t: PublicationId) {
    exists u, s :: t == TileId(u, s)
  }

  ghost predicate TilesExact(room: Room) {
    && NoDup(room.tiles)
    && (forall t :: t in room.tiles ==> IsTile(t))
    && (forall u, s :: TileId(u, s) in room.tiles <==> Live(room, u, s))
  }

  ghost predicate PeopleExact(room: Room) {
    && NoDup(room.ids)
    && (forall u :: u in room.ids <==> u in room.participants)
    && (forall u :: u in room.participants ==>
          room.participants[u].user.id == u && OnePerSource(room.participants[u].publications))
  }

  /** `ids` lists the participants once each, and `tiles` lists exactly the live
      publications of the people present, once each. */
  ghost predicate WellFormed(room: Room) {
    PeopleExact(room) && TilesExact(room)
  }

  /** No event carries two publications of one source for one person. */
  predicate EventOk(e: Event) {
    match e
    case Ready(_, state) => state.Some? ==> StateOk(state.value)
    case RoomJoin(state) => StateOk(state)
    case ParticipantAdd(_, p) => OnePerSource(p.publications)
    case _ => true
  }

  predicate StateOk(state: RoomState) {
    forall i :: 0 <= i < |state.participants| ==> OnePerSource(state.participants[i].publications)
  }

  /** Two people have the same publications exactly when the two lists hold the same
      ones, in whatever order, clocks included. */
  lemma SamePublicationsIff(known: RoomParticipant, given: RoomParticipant)
    requires OnePerSource(known.publications) && OnePerSource(given.publications)
    ensures SamePublications(known, given) <==> Elements(known.publications) == Elements(given.publications)
  {
    CountedElements(known.publications);
    CountedElements(given.publications);
    var a, b := Elements(known.publications), Elements(given.publications);
    if SamePublications(known, given) {
      assert a <= b && |a| == |b|;
      SameSize(a, b);
    }
    if a == b {
      forall i | 0 <= i < |known.publications| ensures known.publications[i] in given.publications {
        assert known.publications[i] in a;
      }
    }
  }

  lemma {:induction false} CountedElements(ps: seq<Publication>)
    requires OnePerSource(ps)
    ensures |Elements(ps)| == |ps|
  {
    if ps != [] {
      CountedElements(ps[1..]);
      assert Elements(ps) == {ps[0]} + Elements(ps[1..]);
      forall i | 0 <= i < |ps[1..]| ensures ps[1..][i] != ps[0] {
        assert ps[0].source != ps[i + 1].source;
      }
    }
  }

  lemma SameSize<T>(a: set<T>, b: set<T>)
    requires a <= b && |a| == |b|
    ensures a == b
  {
    assert |b - a| == |b| - |a|;
  }

  /** Replacing one person's publications, with the tiles following suit. */
  lemma ReplaceKeepsTiles(room: Room, room': Room, id: UserId)
    requires TilesExact(room)
    requires forall u :: u != id ==> (u in room'.participants <==> u in room.participants)
    requires forall u :: u != id && u in room.participants ==> room'.participants[u] == room.participants[u]
    requires NoDup(room'.tiles)
    requires forall t :: t in room'.tiles ==> t in room.tiles || IsTile(t)
    requires forall s :: TileId(id, s) in room'.tiles <==> Live(room', id, s)
    requires forall u, s :: u != id ==> (TileId(u, s) in room'.tiles <==> TileId(u, s) in room.tiles)
    ensures TilesExact(room')
  {
    forall u, s ensures TileId(u, s) in room'.tiles <==> Live(room', u, s) {
      if u != id {
        assert Live(room', u, s) <==> Live(room, u, s);
      }
    }
  }

  lemma TwoTilesLaw(tiles: seq<PublicationId>, id: UserId, screen: bool, camera: bool)
    requires NoDup(tiles)
    ensures var tiles' := WithTile(WithTile(tiles, TileId(id, Screen), screen), TileId(id, Camera), camera);
            && NoDup(tiles')
            && (forall t :: t in tiles' ==> t in tiles || IsTile(t))
            && (forall s :: TileId(id, s) in tiles' <==> if s.Screen? then screen else camera)
            && (forall u, s :: u != id ==> (TileId(u, s) in tiles' <==> TileId(u, s) in tiles))
  {
    TileIdsDistinct();
    WithTileLaw(tiles, TileId(id, Screen), screen);
    WithTileLaw(WithTile(tiles, TileId(id, Screen), screen), TileId(id, Camera), camera);
  }

  lemma AddKeepsWellFormed(room: Room, channel: ChannelId, p: RoomParticipant)
    requires WellFormed(room) && OnePerSource(p.publications)
    ensures WellFormed(Add(room, channel, p))
  {
    var room' := Add(room, channel, p);
    if room' != room {
      TwoTilesLaw(room.tiles, p.user.id, HasSource(p.publications, Screen), HasSource(p.publications, Camera));
      ReplaceKeepsTiles(room, room', p.user.id);
    }
  }

  lemma RemoveKeepsWellFormed(room: Room, channel: ChannelId, id: UserId)
    requires WellFormed(room)
    ensures WellFormed(Remove(room, channel, id))
  {
    var room' := Remove(room, channel, id);
    if room' != room {
      TwoTilesLaw(room.tiles, id, false, false);
      WithoutLaw(room.ids, id);
      ReplaceKeepsTiles(room, room', id);
    }
  }

  lemma HasSourceSnoc(ps: seq<Publication>, p: Publication, x: Source)
    ensures HasSource(ps + [p], x) <==> HasSource(ps, x) || p.source == x
  {
    if HasSource(ps, x) {
      var i :| 0 <= i < |ps| && ps[i].source == x;
      assert (ps + [p])[i].source == x;
    }
    assert (ps + [p])[|ps|] == p;
  }

  /** What a share event leaves of a person's publications. */
  lemma ReplacedPublications(ps: seq<Publication>, s: Source, since: Option<Timestamp>)
    requires OnePerSource(ps)
    ensures var others := NotOfSource(ps, s);
            var ps' := if since.None? then others else others + [Publication(s, since.value)];
            OnePerSource(ps') && forall x :: HasSource(ps', x) <==> if x == s then since.Some? else HasSource(ps, x)
  {
    NotOfSourceLaw(ps, s);
    var others := NotOfSource(ps, s);
    assert forall i :: 0 <= i < |others| ==> others[i] in others;
    if since.Some? {
      forall x ensures HasSource(others + [Publication(s, since.value)], x) <==> HasSource(others, x) || x == s {
        HasSourceSnoc(others, Publication(s, since.value), x);
      }
    }
  }

  lemma ShareKeepsWellFormed(room: Room, channel: ChannelId, id: UserId, s: Source, since: Option<Timestamp>)
    requires WellFormed(room)
    ensures WellFormed(SetPublishing(room, channel, id, s, since))
  {
    var room' := SetPublishing(room, channel, id, s, since);
    if room' != room {
      ReplacedPublications(room.participants[id].publications, s, since);
      WithTileLaw(room.tiles, TileId(id, s), since.Some?);
      TileIdsDistinct();
      ReplaceKeepsTiles(room, room', id);
    }
  }

  // Snapshots

  lemma {:induction false} OfSourceLaw(ps: seq<Publication>, s: Source)
    ensures forall i :: 0 <= i < |OfSource(ps, s)| ==> OfSource(ps, s)[i].source == s && OfSource(ps, s)[i] in ps
    ensures OfSource(ps, s) != [] <==> HasSource(ps, s)
    ensures OnePerSource(ps) ==> |OfSource(ps, s)| <= 1
  {
    if ps != [] {
      OfSourceLaw(ps[1..], s);
      HasSourceCons(ps, s);
      if OnePerSource(ps) {
        forall i | 0 <= i < |ps[1..]| ensures ps[1..][i].source != ps[0].source {
          assert ps[0].source != ps[i + 1].source;
        }
      }
    }
  }

  lemma {:induction false} TilesForLaw(id: UserId, ps: seq<Publication>)
    ensures |TilesFor(id, ps)| == |ps|
    ensures forall i :: 0 <= i < |ps| ==> TilesFor(id, ps)[i] == TileId(id, ps[i].source)
  {
    if ps != [] {
      TilesForLaw(id, ps[1..]);
    }
  }

  lemma SortedTiles(id: UserId, ps: seq<Publication>)
    requires OnePerSource(ps)
    ensures var ts := TilesFor(id, Sorted(ps));
            && NoDup(ts)
            && (forall i :: 0 <= i < |ts| ==> exists s :: ts[i] == TileId(id, s))
            && (forall s :: TileId(id, s) in ts <==> HasSource(ps, s))
  {
    OfSourceLaw(ps, Screen);
    OfSourceLaw(ps, Camera);
    TilesForLaw(id, Sorted(ps));
    TileIdsDistinct();
    var ts := TilesFor(id, Sorted(ps));
    forall s ensures TileId(id, s) in ts <==> HasSource(ps, s) {
      if HasSource(ps, s) {
        var k := if s.Screen? then 0 else |OfSource(ps, Screen)|;
        assert ts[k] == TileId(id, s);
      }
    }
  }

  lemma NewTilesAreOwn(room: Room, id: UserId, ts: seq<PublicationId>)
    requires WellFormed(room) && id !in room.participants
    requires forall i :: 0 <= i < |ts| ==> exists s :: ts[i] == TileId(id, s)
    ensures forall s :: TileId(id, s) !in room.tiles
    ensures forall t :: t in room.tiles + ts ==> t in room.tiles || (t in ts && exists s :: t == TileId(id, s))
  {
    forall s ensures TileId(id, s) !in room.tiles {
      assert !Live(room, id, s);
    }
  }

  lemma EnterKeepsWellFormed(room: Room, p: RoomParticipant)
    requires WellFormed(room) && OnePerSource(p.publications)
    ensures WellFormed(Enter(room, p))
  {
    var id := p.user.id;
    if id !in room.participants {
      var room' := Enter(room, p);
      SortedTiles(id, p.publications);
      TileIdsDistinct();
      NewTilesAreOwn(room, id, TilesFor(id, Sorted(p.publications)));
      ReplaceKeepsTiles(room, room', id);
    }
  }

  lemma {:induction false} EnterAllKeepsWellFormed(room: Room, ps: seq<RoomParticipant>)
    requires WellFormed(room)
    requires forall i :: 0 <= i < |ps| ==> OnePerSource(ps[i].publications)
    ensures WellFormed(EnterAll(room, ps))
    decreases |ps|
  {
    if ps != [] {
      EnterKeepsWellFormed(room, ps[0]);
      EnterAllKeepsWellFormed(Enter(room, ps[0]), ps[1..]);
    }
  }

  lemma ApplyKeepsWellFormed(room: Room, e: Event)
    requires WellFormed(room) && EventOk(e)
    ensures WellFormed(Apply(room, e))
  {
    match e {
      case Ready(_, state) => if state.Some? { FromStateWellFormed(state.value); }
      case RoomJoin(state) => FromStateWellFormed(state);
      case ParticipantAdd(channel, p) => AddKeepsWellFormed(room, channel, p);
      case ParticipantRemove(channel, id) => RemoveKeepsWellFormed(room, channel, id);
      case ShareStart(channel, id, s, at) => ShareKeepsWellFormed(room, channel, id, s, Some(at));
      case ShareStop(channel, id, s) => ShareKeepsWellFormed(room, channel, id, s, None);
      case _ =>
    }
  }

  lemma FromStateWellFormed(state: RoomState)
    requires StateOk(state)
    ensures WellFormed(FromState(state))
  {
    EnterAllKeepsWellFormed(
      EMPTY_ROOM.(channel := Some(state.channel), guild := Some(state.guild), name := Some(state.name)),
      state.participants);
  }

  /** The snapshot is well formed after any sequence of events. */
  lemma {:induction false} EverySnapshotIsWellFormed(room: Room, events: seq<Event>)
    requires WellFormed(room) && forall i :: 0 <= i < |events| ==> EventOk(events[i])
    ensures WellFormed(ApplyAll(room, events))
    decreases |events|
  {
    if events != [] {
      ApplyKeepsWellFormed(room, events[0]);
      EverySnapshotIsWellFormed(Apply(room, events[0]), events[1..]);
    }
  }

  // ---------------------------------------------------------------------------
  // Tile stability
  // ---------------------------------------------------------------------------

  function Keep(tiles: seq<PublicationId>, kept: set<PublicationId>): seq<PublicationId> {
    if tiles == [] then []
    else (if tiles[0] in kept then [tiles[0]] else []) + Keep(tiles[1..], kept)
  }

  lemma {:induction false} KeepAppend(a: seq<PublicationId>, b: seq<PublicationId>, kept: set<PublicationId>)
    ensures Keep(a + b, kept) == Keep(a, kept) + Keep(b, kept)
  {
    if a == [] {
      assert a + b == b;
    } else {
      assert (a + b)[1..] == a[1..] + b;
      KeepAppend(a[1..], b, kept);
    }
  }

  lemma {:induction false} KeepTwice(a: seq<PublicationId>, k1: set<PublicationId>, k2: set<PublicationId>)
    ensures Keep(Keep(a, k1), k2) == Keep(a, k1 * k2)
    ensures forall t :: t in Keep(a, k1) <==> t in a && t in k1
  {
    if a != [] {
      KeepTwice(a[1..], k1, k2);
      var head := if a[0] in k1 then [a[0]] else [];
      assert Keep(a, k1) == head + Keep(a[1..], k1);
      KeepAppend(head, Keep(a[1..], k1), k2);
      if a[0] in k1 {
        assert head[1..] == [];
      }
    }
  }

  lemma {:induction false} KeepAll(a: seq<PublicationId>, kept: set<PublicationId>)
    requires forall t :: t in a ==> t in kept
    ensures Keep(a, kept) == a
  {
    if a != [] {
      KeepAll(a[1..], kept);
    }
  }

  lemma {:induction false} WithoutIsKeep(a: seq<PublicationId>, id: PublicationId, kept: set<PublicationId>)
    requires forall t :: t in a ==> (t in kept <==> t != id)
    ensures Without(a, id) == Keep(a, kept)
  {
    if a != [] {
      WithoutIsKeep(a[1..], id, kept);
    }
  }

  /** `now` is the kept part of `before`, in its order, followed by tiles that
      were not kept. */
  ghost predicate Stable(before: seq<PublicationId>, now: seq<PublicationId>, kept: set<PublicationId>) {
    exists later :: now == Keep(before, kept) + later && forall t :: t in later ==> t !in kept
  }

  lemma StableCompose(a: seq<PublicationId>, b: seq<PublicationId>, c: seq<PublicationId>,
                      k1: set<PublicationId>, k2: set<PublicationId>)
    requires Stable(a, b, k1) && Stable(b, c, k2)
    ensures Stable(a, c, k1 * k2)
  {
    var l1 :| b == Keep(a, k1) + l1 && forall t :: t in l1 ==> t !in k1;
    var l2 :| c == Keep(b, k2) + l2 && forall t :: t in l2 ==> t !in k2;
    KeepAppend(Keep(a, k1), l1, k2);
    KeepTwice(a, k1, k2);
    KeepTwice(l1, k2, k2);
    var later := Keep(l1, k2) + l2;
    assert c == Keep(a, k1 * k2) + later;
  }

  lemma WithTileStable(tiles: seq<PublicationId>, id: PublicationId, live: bool)
    ensures var now := WithTile(tiles, id, live);
            Stable(tiles, now, Elements(tiles) * Elements(now))
  {
    var now := WithTile(tiles, id, live);
    var kept := Elements(tiles) * Elements(now);
    WithTileLaw(tiles, id, live);
    if live || id !in tiles {
      KeepAll(tiles, kept);
      var later := if id in tiles || !live then [] else [id];
      assert now == Keep(tiles, kept) + later;
    } else {
      WithoutIsKeep(tiles, id, kept);
      assert now == Keep(tiles, kept) + [];
    }
  }

  lemma TwoTilesStable(tiles: seq<PublicationId>, a: PublicationId, x: bool, b: PublicationId, y: bool)
    requires a != b
    ensures var now := WithTile(WithTile(tiles, a, x), b, y);
            Stable(tiles, now, Elements(tiles) * Elements(now))
  {
    var mid := WithTile(tiles, a, x);
    var now := WithTile(mid, b, y);
    WithTileStable(tiles, a, x);
    WithTileStable(mid, b, y);
    WithTileLaw(tiles, a, x);
    WithTileLaw(mid, b, y);
    StableCompose(tiles, mid, now, Elements(tiles) * Elements(mid), Elements(mid) * Elements(now));
    assert Elements(tiles) * Elements(mid) * (Elements(mid) * Elements(now)) == Elements(tiles) * Elements(now);
  }

  /** Events that change the room rather than replace it. */
  predicate Incremental(e: Event) {
    e.ParticipantAdd? || e.ParticipantRemove? || e.ShareStart? || e.ShareStop? || e.Resumed?
  }

  lemma EventStable(room: Room, e: Event)
    requires Incremental(e)
    ensures var now := Apply(room, e).tiles;
            Stable(room.tiles, now, Elements(room.tiles) * Elements(now))
  {
    var now := Apply(room, e).tiles;
    TileIdsDistinct();
    if now == room.tiles {
      KeepAll(now, Elements(now) * Elements(now));
      assert now == Keep(now, Elements(now) * Elements(now)) + [];
    } else {
      match e {
        case ParticipantAdd(_, p) =>
          TwoTilesStable(room.tiles, TileId(p.user.id, Screen), HasSource(p.publications, Screen),
                         TileId(p.user.id, Camera), HasSource(p.publications, Camera));
        case ParticipantRemove(_, id) =>
          TwoTilesStable(room.tiles, TileId(id, Screen), false, TileId(id, Camera), false);
        case ShareStart(_, id, s, _) => WithTileStable(room.tiles, TileId(id, s), true);
        case ShareStop(_, id, s) => WithTileStable(room.tiles, TileId(id, s), false);
      }
    }
  }

  /** The tiles on the grid at every moment of a run. */
  function Surviving(room: Room, events: seq<Event>): set<PublicationId>
    decreases |events|
  {
    if events == [] then Elements(room.tiles)
    else Elements(room.tiles) * Surviving(Apply(room, events[0]), events[1..])
  }

  /** Over any run of participant and share events the tiles that stay keep their
      order and come first; whatever arrived or came back is after all of them. */
  lemma {:induction false} TilesNeverJump(room: Room, events: seq<Event>)
    requires forall i :: 0 <= i < |events| ==> Incremental(events[i])
    ensures Stable(room.tiles, ApplyAll(room, events).tiles, Surviving(room, events))
    decreases |events|
  {
    if events == [] {
      KeepAll(room.tiles, Elements(room.tiles));
      assert room.tiles == Keep(room.tiles, Elements(room.tiles)) + [];
    } else {
      var next := Apply(room, events[0]);
      EventStable(room, events[0]);
      TilesNeverJump(next, events[1..]);
      var k1, k2 := Elements(room.tiles) * Elements(next.tiles), Surviving(next, events[1..]);
      StableCompose(room.tiles, next.tiles, ApplyAll(room, events).tiles, k1, k2);
      SurvivingIsPresent(next, events[1..]);
      assert k1 * k2 == Elements(room.tiles) * k2;
    }
  }

  lemma SurvivingIsPresent(room: Room, events: seq<Event>)
    ensures Surviving(room, events) <= Elements(room.tiles)
  {
  }
}
