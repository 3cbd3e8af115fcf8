/** What a snapshot looks like in full: its names, the order of its people and of their
    tiles, and what each event leaves as it was. */
module SnapshotLaws {
  import opened Basics
  import opened Protocol
  import opened Publications
  import opened RoomStore
  import opened RoomLaws

  // ---------------------------------------------------------------------------
  // A room as it is listed
  // ---------------------------------------------------------------------------

  /** One person's tiles as they come with a snapshot: the screen before the face. */
  function TilesOf(p: RoomParticipant): seq<PublicationId> {
    (if HasSource(p.publications, Screen) then [TileId(p.user.id, Screen)] else [])
    + (if HasSource(p.publications, Camera) then [TileId(p.user.id, Camera)] else [])
  }

  /** The people listed, each where they are first named. */
  function Firsts(ps: seq<RoomParticipant>, seen: set<UserId>): seq<RoomParticipant>
    decreases |ps|
  {
    if ps == [] then []
    else if ps[0].user.id in seen then Firsts(ps[1..], seen)
    else [ps[0]] + Firsts(ps[1..], seen + {ps[0].user.id})
  }

  function IdsOf(ps: seq<RoomParticipant>): seq<UserId> {
    if ps == [] then [] else [ps[0].user.id] + IdsOf(ps[1..])
  }

  function AllTiles(ps: seq<RoomParticipant>): seq<PublicationId> {
    if ps == [] then [] else TilesOf(ps[0]) + AllTiles(ps[1..])
  }

  lemma ScreenFirst(id: UserId, ps: seq<Publication>)
    requires OnePerSource(ps)
    ensures TilesFor(id, Sorted(ps)) ==
            (if HasSource(ps, Screen) then [TileId(id, Screen)] else [])
            + (if HasSource(ps, Camera) then [TileId(id, Camera)] else [])
  {
    OfSourceLaw(ps, Screen);
    OfSourceLaw(ps, Camera);
    TilesForLaw(id, Sorted(ps));
  }

  /** The same room by name, with the same reason to have left before. */
  predicate SameRoom(room: Room, room': Room) {
    && room'.channel == room.channel && room'.guild == room.guild && room'.name == room.name
    && room'.lastLeave == room.lastLeave
  }

  lemma EnterMeans(room: Room, p: RoomParticipant)
    requires OnePerSource(p.publications)
    ensures var room' := Enter(room, p);
            if p.user.id in room.participants then room' == room
            else && room'.ids == room.ids + [p.user.id] && room'.tiles == room.tiles + TilesOf(p)
                 && room'.participants == room.participants[p.user.id := p]
                 && room'.participants.Keys == room.participants.Keys + {p.user.id}
    ensures SameRoom(room, Enter(room, p))
  {
    ScreenFirst(p.user.id, p.publications);
  }

  lemma Associate<T>(a: seq<T>, b: seq<T>, c: seq<T>)
    ensures (a + b) + c == a + (b + c)
  {
  }

  /** Entering a listing adds the people it names first, in order, with their tiles. */
  lemma {:induction false} EnterAllInOrder(room: Room, ps: seq<RoomParticipant>)
    requires forall i :: 0 <= i < |ps| ==> OnePerSource(ps[i].publications)
    ensures var room', firsts := EnterAll(room, ps), Firsts(ps, room.participants.Keys);
            && room'.ids == room.ids + IdsOf(firsts)
            && room'.tiles == room.tiles + AllTiles(firsts)
            && SameRoom(room, room')
    decreases |ps|
  {
    if ps != [] {
      var p, next := ps[0], Enter(room, ps[0]);
      EnterMeans(room, p);
      EnterAllInOrder(next, ps[1..]);
      if p.user.id !in room.participants {
        var firsts := Firsts(ps[1..], next.participants.Keys);
        assert ([p] + firsts)[1..] == firsts;
        Associate(room.ids, [p.user.id], IdsOf(firsts));
        Associate(room.tiles, TilesOf(p), AllTiles(firsts));
      }
    }
  }

  lemma {:induction false} EnterAllKeepsPeople(room: Room, ps: seq<RoomParticipant>, u: UserId)
    requires u in room.participants
    ensures u in EnterAll(room, ps).participants && EnterAll(room, ps).participants[u] == room.participants[u]
    decreases |ps|
  {
    if ps != [] {
      EnterAllKeepsPeople(Enter(room, ps[0]), ps[1..], u);
    }
  }

  lemma {:induction false} FirstsAreHeld(room: Room, ps: seq<RoomParticipant>, p: RoomParticipant)
    requires p in Firsts(ps, room.participants.Keys)
    requires forall i :: 0 <= i < |ps| ==> OnePerSource(ps[i].publications)
    ensures p.user.id in EnterAll(room, ps).participants && EnterAll(room, ps).participants[p.user.id] == p
    decreases |ps|
  {
    var next := Enter(room, ps[0]);
    EnterMeans(room, ps[0]);
    if ps[0].user.id in room.participants || p != ps[0] {
      FirstsAreHeld(next, ps[1..], p);
    } else {
      EnterAllKeepsPeople(next, ps[1..], p.user.id);
    }
  }

  /** A snapshot has the room's channel, guild and name, its people in the order of the
      listing, whoever is named twice as they were named first, and person by person
      their tiles, the screen before the face. No reason to have left remains. */
  lemma SnapshotMeans(state: RoomState)
    requires StateOk(state)
    ensures var room, firsts := FromState(state), Firsts(state.participants, {});
            && room.channel == Some(state.channel) && room.guild == Some(state.guild)
            && room.name == Some(state.name) && room.lastLeave == None
            && room.ids == IdsOf(firsts) && room.tiles == AllTiles(firsts)
            && forall p :: p in firsts ==> p.user.id in room.participants && room.participants[p.user.id] == p
  {
    var shell := EMPTY_ROOM.(
      channel := Some(state.channel), guild := Some(state.guild), name := Some(state.name));
    assert shell.participants.Keys == {};
    EnterAllInOrder(shell, state.participants);
    forall p | p in Firsts(state.participants, {})
      ensures p.user.id in FromState(state).participants && FromState(state).participants[p.user.id] == p
    {
      FirstsAreHeld(shell, state.participants, p);
    }
  }

  // ---------------------------------------------------------------------------
  // What an event leaves as it was
  // ---------------------------------------------------------------------------

  predicate OthersAlike(room: Room, room': Room, u: UserId) {
    && (forall x :: x in room.participants && x != u ==>
          x in room'.participants && room'.participants[x] == room.participants[x])
    && (forall x :: x in room'.participants && x != u ==> x in room.participants)
  }

  lemma NewTiles(tiles: seq<PublicationId>, id: UserId, screen: bool, camera: bool)
    requires TileId(id, Screen) !in tiles && TileId(id, Camera) !in tiles
    ensures WithTile(WithTile(tiles, TileId(id, Screen), screen), TileId(id, Camera), camera)
         == tiles + ((if screen then [TileId(id, Screen)] else []) + (if camera then [TileId(id, Camera)] else []))
  {
    TileIdsDistinct();
    assert screen ==> TileId(id, Camera) !in tiles + [TileId(id, Screen)];
  }

  /** Somebody new comes last, as the event has them, with their screen before their
      face. Somebody known keeps their place; whoever has the same publications already
      stays as they are, name included, and is replaced otherwise. */
  lemma AddMeans(room: Room, p: RoomParticipant)
    requires WellFormed(room) && room.channel.Some?
    ensures var room', u := Add(room, room.channel.value, p), p.user.id;
            && SameRoom(room, room') && OthersAlike(room, room', u) && u in room'.participants
            && (u !in room.participants ==>
                  room'.ids == room.ids + [u] && room'.tiles == room.tiles + TilesOf(p) && room'.participants[u] == p)
            && (u in room.participants ==>
                  && room'.ids == room.ids
                  && room'.participants[u] ==
                       if SamePublications(room.participants[u], p) then room.participants[u] else p)
  {
    var u := p.user.id;
    if u !in room.participants {
      assert !Live(room, u, Screen) && !Live(room, u, Camera);
      NewTiles(room.tiles, u, HasSource(p.publications, Screen), HasSource(p.publications, Camera));
    }
  }

  /** Removing somebody takes them and closes the gap, and leaves everybody else. */
  lemma RemoveMeans(room: Room, u: UserId)
    requires WellFormed(room) && room.channel.Some?
    ensures var room' := Remove(room, room.channel.value, u);
            && SameRoom(room, room') && OthersAlike(room, room', u) && u !in room'.participants
            && room'.ids == Keep(room.ids, Elements(room.ids) - {u})
  {
    if u in room.participants {
      WithoutIsKeep(room.ids, u, Elements(room.ids) - {u});
    } else {
      KeepAll(room.ids, Elements(room.ids) - {u});
    }
  }

  /** A share keeps everybody's place and everybody's name; a tile that goes on the air
      comes last. */
  lemma ShareMeans(room: Room, u: UserId, s: Source, since: Option<Timestamp>)
    requires WellFormed(room) && room.channel.Some?
    ensures var room' := SetPublishing(room, room.channel.value, u, s, since);
            && SameRoom(room, room') && OthersAlike(room, room', u) && room'.ids == room.ids
            && (u in room'.participants <==> u in room.participants)
            && (u in room.participants ==> room'.participants[u].user == room.participants[u].user)
            && (u in room.participants && since.Some? && !Live(room, u, s) ==>
                  room'.tiles == room.tiles + [TileId(u, s)])
            && (u in room.participants && since.Some? && Live(room, u, s) ==> room'.tiles == room.tiles)
  {
    if u in room.participants {
      FindLaw(room.participants[u].publications, s);
      assert TileId(u, s) in room.tiles <==> Live(room, u, s);
    }
  }

  /** READY and ROOM_JOIN replace the snapshot, whatever it was; leaving the room empties
      it but for the reason; RESUMED and whatever names another room change nothing. */
  lemma OtherEventsMean(room: Room, e: Event)
    ensures e.RoomJoin? ==> Apply(room, e) == FromState(e.state)
    ensures e.Ready? ==> Apply(room, e) == if e.room.Some? then FromState(e.room.value) else EMPTY_ROOM
    ensures e.RoomLeave? && room.channel == Some(e.channel) ==>
              && Apply(room, e).channel == None && Apply(room, e).guild == None && Apply(room, e).name == None
              && Apply(room, e).ids == [] && Apply(room, e).participants == map[] && Apply(room, e).tiles == []
              && Apply(room, e).lastLeave == Some(e.reason)
    ensures e.Resumed? ==> Apply(room, e) == room
    ensures !e.Resumed? && !e.RoomJoin? && !e.Ready? && room.channel != Some(e.channel) ==> Apply(room, e) == room
  {
  }
}
