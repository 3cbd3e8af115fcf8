/** The client's view of the room: a reducer from dispatch events to a snapshot. */
module RoomStore {
  import opened Protocol
  import opened Publications

  /** The snapshot, normalised by user id. `ids` is insertion order; `tiles` is
      what is on the air, by publication. */
  datatype Room = Room(
    channel: Option<ChannelId>,
    guild: Option<int>,
    name: Option<string>,
    ids: seq<UserId>,
    participants: map<UserId, RoomParticipant>,
    tiles: seq<PublicationId>,
    lastLeave: Option<LeaveReason>)

  const EMPTY_ROOM := Room(None, None, None, [], map[], [], None)

  /** Screen before camera, always. */
  const SOURCE_ORDER: seq<Source> := [Screen, Camera]

  function OfSource(ps: seq<Publication>, s: Source): seq<Publication> {
    if ps == [] then []
    else (if ps[0].source == s then [ps[0]] else []) + OfSource(ps[1..], s)
  }

  function NotOfSource(ps: seq<Publication>, s: Source): seq<Publication> {
    if ps == [] then []
    else (if ps[0].source != s then [ps[0]] else []) + NotOfSource(ps[1..], s)
  }

  /** A stable sort by source order. */
  function Sorted(ps: seq<Publication>): seq<Publication> {
    OfSource(ps, Screen) + OfSource(ps, Camera)
  }

  function Find(ps: seq<Publication>, s: Source): Option<Publication> {
    if ps == [] then None
    else if ps[0].source == s then Some(ps[0])
    else Find(ps[1..], s)
  }

  predicate HasSource(ps: seq<Publication>, s: Source) {
    exists i :: 0 <= i < |ps| && ps[i].source == s
  }

  function TilesFor(id: UserId, ps: seq<Publication>): seq<PublicationId> {
    if ps == [] then [] else [TileId(id, ps[0].source)] + TilesFor(id, ps[1..])
  }

  /** One participant of a snapshot; a repeated id is skipped. */
  function Enter(room: Room, p: RoomParticipant): Room {
    var id := p.user.id;
    if id in room.participants then room
    else room.(ids := room.ids + [id],
               participants := room.participants[id := p],
               tiles := room.tiles + TilesFor(id, Sorted(p.publications)))
  }

  function EnterAll(room: Room, ps: seq<RoomParticipant>): Room
    decreases |ps|
  {
    if ps == [] then room else EnterAll(Enter(room, ps[0]), ps[1..])
  }

  function FromState(state: RoomState): Room {
    EnterAll(EMPTY_ROOM.(channel := Some(state.channel), guild := Some(state.guild), name := Some(state.name)),
             state.participants)
  }

  function Without(ids: seq<string>, id: string): seq<string> {
    if ids == [] then []
    else (if ids[0] != id then [ids[0]] else []) + Without(ids[1..], id)
  }

  /** Adds at the end, removes in place. */
  function WithTile(tiles: seq<PublicationId>, id: PublicationId, live: bool): seq<PublicationId> {
    if live == (id in tiles) then tiles
    else if live then tiles + [id]
    else Without(tiles, id)
  }

  predicate SamePublications(known: RoomParticipant, given: RoomParticipant) {
    && |known.publications| == |given.publications|
    && forall i :: 0 <= i < |known.publications| ==> known.publications[i] in given.publications
  }

  function Add(room: Room, channel: ChannelId, p: RoomParticipant): Room {
    var id := p.user.id;
    if room.channel != Some(channel) then room
    else if id in room.participants && SamePublications(room.participants[id], p) then room
    else
      room.(participants := room.participants[id := p],
            ids := if id in room.participants then room.ids else room.ids + [id],
            tiles := WithTile(WithTile(room.tiles, TileId(id, Screen), HasSource(p.publications, Screen)),
                              TileId(id, Camera), HasSource(p.publications, Camera)))
  }

  function Remove(room: Room, channel: ChannelId, id: UserId): Room {
    if room.channel != Some(channel) || id !in room.participants then room
    else
      room.(participants := room.participants - {id},
            ids := Without(room.ids, id),
            tiles := WithTile(WithTile(room.tiles, TileId(id, Screen), false), TileId(id, Camera), false))
  }

  /** `since` is the server's start time, or nothing for a stop. Only the event's
      own source changes. */
  function SetPublishing(room: Room, channel: ChannelId, id: UserId, s: Source, since: Option<Timestamp>): Room {
    if room.channel != Some(channel) || id !in room.participants then room
    else
      var p := room.participants[id];
      var current := Find(p.publications, s);
      if (since.None? && current.None?)
         || (since.Some? && current.Some? && current.value.since == since.value) then room
      else
        var others := NotOfSource(p.publications, s);
        var publications := if since.None? then others else others + [Publication(s, since.value)];
        room.(participants := room.participants[id := p.(publications := publications)],
              tiles := WithTile(room.tiles, TileId(id, s), since.Some?))
  }

  function Apply(room: Room, e: Event): Room {
    match e
    case Ready(_, state) => if state.None? then EMPTY_ROOM else FromState(state.value)
    case RoomJoin(state) => FromState(state)
    case RoomLeave(channel, reason) =>
      if room.channel != Some(channel) then room else EMPTY_ROOM.(lastLeave := Some(reason))
    case ParticipantAdd(channel, p) => Add(room, channel, p)
    case ParticipantRemove(channel, id) => Remove(room, channel, id)
    case ShareStart(channel, id, s, at) => SetPublishing(room, channel, id, s, Some(at))
    case ShareStop(channel, id, s) => SetPublishing(room, channel, id, s, None)
    case Resumed(_) => room
  }

  function ApplyAll(room: Room, events: seq<Event>): Room
    decreases |events|
  {
    if events == [] then room else ApplyAll(Apply(room, events[0]), events[1..])
  }

  // ---------------------------------------------------------------------------
  // The loops of the source, against the functions above
  // ---------------------------------------------------------------------------

  method AppendTiles(tiles: seq<PublicationId>, id: UserId, ps: seq<Publication>) returns (out: seq<PublicationId>)
    ensures out == tiles + TilesFor(id, ps)
  {
    out := tiles;
    var k := 0;
    while k < |ps|
      invariant 0 <= k <= |ps|
      invariant out + TilesFor(id, ps[k..]) == tiles + TilesFor(id, ps)
    {
      ghost var rest := ps[k..];
      assert rest[1..] == ps[k + 1..];
      out := out + [TileId(id, ps[k].source)];
      k := k + 1;
    }
  }

  method RoomFromState(state: RoomState) returns (room: Room)
    ensures room == FromState(state)
  {
    room := EMPTY_ROOM.(channel := Some(state.channel), guild := Some(state.guild), name := Some(state.name));
    var i := 0;
    while i < |state.participants|
      invariant 0 <= i <= |state.participants|
      invariant EnterAll(room, state.participants[i..]) == FromState(state)
    {
      var p := state.participants[i];
      ghost var rest := state.participants[i..];
      assert rest[0] == p && rest[1..] == state.participants[i + 1..];
      if p.user.id !in room.participants {
        var tiles := AppendTiles(room.tiles, p.user.id, Sorted(p.publications));
        room := room.(ids := room.ids + [p.user.id],
                      participants := room.participants[p.user.id := p],
                      tiles := tiles);
      }
      i := i + 1;
    }
  }

  method AddParticipant(room: Room, channel: ChannelId, p: RoomParticipant) returns (room': Room)
    ensures room' == Add(room, channel, p)
  {
    var id := p.user.id;
    if room.channel != Some(channel) {
      return room;
    }
    if id in room.participants && SamePublications(room.participants[id], p) {
      return room;
    }
    var tiles := room.tiles;
    for i := 0 to |SOURCE_ORDER|
      invariant i == 0 ==> tiles == room.tiles
      invariant i == 1 ==> tiles == WithTile(room.tiles, TileId(id, Screen), HasSource(p.publications, Screen))
      invariant i == 2 ==>
                  tiles == WithTile(WithTile(room.tiles, TileId(id, Screen), HasSource(p.publications, Screen)),
                                             TileId(id, Camera), HasSource(p.publications, Camera))
    {
      tiles := WithTile(tiles, TileId(id, SOURCE_ORDER[i]), HasSource(p.publications, SOURCE_ORDER[i]));
    }
    var ids := if id in room.participants then room.ids else room.ids + [id];
    return room.(participants := room.participants[id := p], ids := ids, tiles := tiles);
  }

  method RemoveParticipant(room: Room, channel: ChannelId, id: UserId) returns (room': Room)
    ensures room' == Remove(room, channel, id)
  {
    if room.channel != Some(channel) || id !in room.participants {
      return room;
    }
    var tiles := room.tiles;
    for i := 0 to |SOURCE_ORDER|
      invariant i == 0 ==> tiles == room.tiles
      invariant i == 1 ==> tiles == WithTile(room.tiles, TileId(id, Screen), false)
      invariant i == 2 ==> tiles == WithTile(WithTile(room.tiles, TileId(id, Screen), false), TileId(id, Camera), false)
    {
      tiles := WithTile(tiles, TileId(id, SOURCE_ORDER[i]), false);
    }
    return room.(participants := room.participants - {id}, ids := Without(room.ids, id), tiles := tiles);
  }
}
