/** `room_presence` and what writes it: the webhook handlers and the eviction of the
    revocation sweep. Who is in which room, what each writer does to the table, and
    whom it tells what. */
module Presence {
  import opened Protocol

  datatype Row = Row(
    channel: ChannelId,
    publishing: bool,
    screenSince: Option<Timestamp>,
    cameraSince: Option<Timestamp>,
    joinedAt: Timestamp)

  /** At most one row per user: the primary key. */
  type Table = map<UserId, Row>

  function Since(row: Row, s: Source): Option<Timestamp> {
    match s
    case Screen => row.screenSince
    case Camera => row.cameraSince
  }

  /** `COALESCE`: a source already on the air keeps its clock. */
  function Started(row: Row, s: Source, now: Timestamp): Row {
    match s
    case Screen => row.(screenSince := Some(row.screenSince.GetOr(now)), publishing := true)
    case Camera => row.(cameraSince := Some(row.cameraSince.GetOr(now)), publishing := true)
  }

  function Stopped(row: Row, s: Source): Row {
    match s
    case Screen => row.(screenSince := None, publishing := row.cameraSince.Some?)
    case Camera => row.(cameraSince := None, publishing := row.screenSince.Some?)
  }

  function Cleared(row: Row): Row {
    row.(screenSince := None, cameraSince := None, publishing := false)
  }

  /** What was live, in tile order. */
  function LiveSources(row: Row): seq<Source> {
    (if row.screenSince.Some? then [Screen] else []) + (if row.cameraSince.Some? then [Camera] else [])
  }

  function WirePublications(row: Row): seq<Publication> {
    (if row.screenSince.Some? then [Publication(Screen, row.screenSince.value)] else [])
    + (if row.cameraSince.Some? then [Publication(Camera, row.cameraSince.value)] else [])
  }

  function ToWire(user: UserSummary, row: Row): RoomParticipant {
    RoomParticipant(user, WirePublications(row))
  }

  /** What travels about a row: the person as they are named, the screen before the face,
      each with its own clock and only when it is on the air. */
  lemma WireMeans(user: UserSummary, row: Row)
    ensures var p := ToWire(user, row);
            && p.user == user
            && (forall x :: x in p.publications <==> Since(row, x.source) == Some(x.since))
            && (forall i, j :: 0 <= i < j < |p.publications| ==>
                  p.publications[i].source == Screen && p.publications[j].source == Camera)
  {
  }

  function Members(t: Table, c: ChannelId): set<UserId> {
    set u | u in t && t[u].channel == c
  }

  // ---------------------------------------------------------------------------
  // Changes
  // ---------------------------------------------------------------------------

  /** A verified webhook of one of our rooms, after routing; or an eviction, with the
      room the sweep found the person in. */
  datatype Change =
    | Joined(channel: ChannelId, user: UserId, name: string)
    | Departed(channel: ChannelId, user: UserId)
    | PublisherGone(channel: ChannelId, user: UserId)
    | Published(channel: ChannelId, user: UserId, source: Source)
    | Unpublished(channel: ChannelId, user: UserId, source: Source)
    | RoomFinished(channel: ChannelId)
    | Evicted(channel: ChannelId, user: UserId)

  /** One event and the users whose sessions receive it. */
  datatype Posting = Posting(to: set<UserId>, event: Event)

  /** The table after a change. Apart from a join, rows are found by user alone. */
  function After(t: Table, w: Change, now: Timestamp): Table {
    match w
    case Joined(c, u, _) => t[u := Row(c, false, None, None, now)]
    case Departed(_, u) => t - {u}
    case PublisherGone(_, u) => if u in t then t[u := Cleared(t[u])] else t
    case Published(_, u, s) => if u in t then t[u := Started(t[u], s, now)] else t
    case Unpublished(_, u, s) => if u in t then t[u := Stopped(t[u], s)] else t
    case RoomFinished(c) => t - Members(t, c)
    case Evicted(_, u) => t - {u}
  }

  predicate About(w: Change, u: UserId) {
    !w.RoomFinished? && w.user == u
  }

  /** What a change makes of each row. A join replaces it, with nothing on the air; a
      share started keeps the clock it had and takes the time otherwise; a share stopped,
      or all of them, lose it, and the flag follows; nothing else of the row moves, and
      nobody else's row does. */
  lemma RowsAfter(t: Table, w: Change, now: Timestamp, u: UserId)
    requires FlagsDerived(t)
    ensures var t' := After(t, w, now);
            if w.RoomFinished?
            then (u in t' <==> u in t && t[u].channel != w.channel) && (u in t' ==> t'[u] == t[u])
            else if !About(w, u) then (u in t' <==> u in t) && (u in t ==> t'[u] == t[u])
            else if w.Joined? then u in t' && t'[u] == Row(w.channel, false, None, None, now)
            else if w.Departed? || w.Evicted? then u !in t'
            else
              && (u in t' <==> u in t)
              && (u in t ==>
                    && t'[u].channel == t[u].channel && t'[u].joinedAt == t[u].joinedAt
                    && t'[u].publishing == (t'[u].screenSince.Some? || t'[u].cameraSince.Some?)
                    && forall s :: Since(t'[u], s) ==
                         if w.PublisherGone? then None
                         else if w.source != s then Since(t[u], s)
                         else if w.Unpublished? then None
                         else if Since(t[u], s).Some? then Since(t[u], s) else Some(now))
  {
    if About(w, u) && u in t && !w.Joined? && !w.Departed? && !w.Evicted? {
      assert Since(t[u], Screen) == t[u].screenSince && Since(t[u], Camera) == t[u].cameraSince;
    }
  }

  function StopsFor(to: set<UserId>, c: ChannelId, u: UserId, sources: seq<Source>): seq<Posting> {
    if sources == [] then []
    else [Posting(to, ShareStop(c, u, sources[0]))] + StopsFor(to, c, u, sources[1..])
  }

  /** Who is told what. Everybody is counted after the write, except for a
      departure, which the one who leaves must still hear about. Of an eviction only
      the evicted one is told. */
  function Emitted(t: Table, w: Change, now: Timestamp): seq<Posting> {
    var t' := After(t, w, now);
    match w
    case Joined(c, u, name) =>
      [Posting(Members(t', c), ParticipantAdd(c, RoomParticipant(UserSummary(u, name), [])))]
    case Departed(c, u) => [Posting(Members(t, c) + {u}, ParticipantRemove(c, u))]
    case PublisherGone(c, u) =>
      if u in t then StopsFor(Members(t', c), c, u, LiveSources(t[u])) else []
    case Published(c, u, s) =>
      if u in t then [Posting(Members(t', c), ShareStart(c, u, s, Since(t'[u], s).GetOr(now)))] else []
    case Unpublished(c, u, s) =>
      if u in t then [Posting(Members(t', c), ShareStop(c, u, s))] else []
    case RoomFinished(_) => []
    case Evicted(c, u) => [Posting({u}, RoomLeave(c, AccessRevoked))]
  }

  /** How a handler ends. `Failed`: something between its write and its event does, a
      lookup, the share sessions, the audience; it stops there, and the webhook comes
      again. `Unlisted`: the room's members cannot be listed, so it tells nobody, or
      only the one who departs, and ends well all the same. */
  datatype Outcome = Complete | Unlisted | Failed

  function Readdressed(ps: seq<Posting>, to: set<UserId>): seq<Posting> {
    if ps == [] then [] else [Posting(to, ps[0].event)] + Readdressed(ps[1..], to)
  }

  /** What a handler posts. An eviction needs no listing and nothing before it. */
  function Posted(t: Table, w: Change, now: Timestamp, outcome: Outcome): seq<Posting> {
    if w.Evicted? then Emitted(t, w, now)
    else
      match outcome
      case Complete => Emitted(t, w, now)
      case Unlisted => Readdressed(Emitted(t, w, now), if w.Departed? then {w.user} else {})
      case Failed => []
  }

  lemma ReaddressedOne(p: Posting, to: set<UserId>)
    ensures Readdressed([p], to) == [Posting(to, p.event)]
  {
    assert [p][1..] == [];
  }

  lemma {:induction false} ReaddressedStops(
    from: set<UserId>, to: set<UserId>, c: ChannelId, u: UserId, sources: seq<Source>)
    ensures Readdressed(StopsFor(from, c, u, sources), to) == StopsFor(to, c, u, sources)
  {
    if sources != [] {
      ReaddressedStops(from, to, c, u, sources[1..]);
      assert StopsFor(from, c, u, sources)[1..] == StopsFor(from, c, u, sources[1..]);
    }
  }

  /** What one user's sessions receive out of some postings. */
  function Received(ps: seq<Posting>, v: UserId): seq<Event> {
    if ps == [] then []
    else (if v in ps[0].to then [ps[0].event] else []) + Received(ps[1..], v)
  }

  /** `publishing` is never a second truth. */
  ghost predicate FlagsDerived(t: Table) {
    forall u :: u in t ==> t[u].publishing == (t[u].screenSince.Some? || t[u].cameraSince.Some?)
  }

  /** Every write of the table keeps the flag equal to "some source is live". */
  lemma FlagsStayDerived(t: Table, w: Change, now: Timestamp)
    requires FlagsDerived(t)
    ensures FlagsDerived(After(t, w, now))
  {
  }

  // ---------------------------------------------------------------------------
  // The table and the handlers as the server runs them
  // ---------------------------------------------------------------------------

  /** The statements on `room_presence`, each atomic. */
  class PresenceTable {
    var rows: Table

    constructor ()
      ensures rows == map[]
    {
      rows := map[];
    }

    method Join(u: UserId, c: ChannelId, now: Timestamp)
      modifies this
      ensures rows == old(rows)[u := Row(c, false, None, None, now)]
    {
      rows := rows[u := Row(c, false, None, None, now)];
    }

    method Leave(u: UserId) returns (left: Option<ChannelId>)
      modifies this
      ensures rows == old(rows) - {u}
      ensures left == if u in old(rows) then Some(old(rows)[u].channel) else None
    {
      left := if u in rows then Some(rows[u].channel) else None;
      rows := rows - {u};
    }

    method StartPublication(u: UserId, s: Source, now: Timestamp) returns (since: Option<Timestamp>)
      modifies this
      ensures u in old(rows) ==>
                rows == old(rows)[u := Started(old(rows)[u], s, now)] && since == Since(rows[u], s) && since.Some?
      ensures u !in old(rows) ==> rows == old(rows) && since == None
    {
      if u !in rows {
        return None;
      }
      var row := rows[u];
      if s.Screen? {
        row := row.(screenSince := Some(row.screenSince.GetOr(now)), publishing := true);
      } else {
        row := row.(cameraSince := Some(row.cameraSince.GetOr(now)), publishing := true);
      }
      rows := rows[u := row];
      since := Since(row, s);
    }

    method StopPublication(u: UserId, s: Source) returns (stillPublishing: Option<bool>)
      modifies this
      ensures u in old(rows) ==>
                rows == old(rows)[u := Stopped(old(rows)[u], s)] && stillPublishing == Some(rows[u].publishing)
      ensures u !in old(rows) ==> rows == old(rows) && stillPublishing == None
    {
      if u !in rows {
        return None;
      }
      var row := rows[u];
      if s.Screen? {
        row := row.(screenSince := None, publishing := row.cameraSince.Some?);
      } else {
        row := row.(cameraSince := None, publishing := row.screenSince.Some?);
      }
      rows := rows[u := row];
      stillPublishing := Some(row.publishing);
    }

    /** Answers with what was live before, which the new row no longer says. */
    method ClearPublications(u: UserId) returns (sources: Option<seq<Source>>)
      modifies this
      ensures u in old(rows) ==>
                rows == old(rows)[u := Cleared(old(rows)[u])] && sources == Some(LiveSources(old(rows)[u]))
      ensures u !in old(rows) ==> rows == old(rows) && sources == None
    {
      if u !in rows {
        return None;
      }
      sources := Some(LiveSources(rows[u]));
      rows := rows[u := rows[u].(screenSince := None, cameraSince := None, publishing := false)];
    }

    method ClearChannel(c: ChannelId)
      modifies this
      ensures rows == old(rows) - Members(old(rows), c)
    {
      rows := map u | u in rows && rows[u].channel != c :: rows[u];
    }
  }

  /** What runs on each change. */
  class RoomHandlers {
    const presence: PresenceTable
    var posted: seq<Posting>

    constructor (presence: PresenceTable)
      ensures this.presence == presence && posted == []
    {
      this.presence := presence;
      posted := [];
    }

    /** To whoever is in the room now, or to nobody when that cannot be told. */
    method PublishToRoom(c: ChannelId, e: Event, outcome: Outcome)
      modifies this
      ensures posted == old(posted) + [Posting(if outcome.Unlisted? then {} else Members(presence.rows, c), e)]
    {
      var members := if outcome.Unlisted? then {} else Members(presence.rows, c);
      posted := posted + [Posting(members, e)];
    }

    method OnJoin(c: ChannelId, u: UserId, name: string, now: Timestamp, outcome: Outcome)
      modifies this, presence
      ensures presence.rows == After(old(presence.rows), Joined(c, u, name), now)
      ensures posted == old(posted) + Posted(old(presence.rows), Joined(c, u, name), now, outcome)
    {
      presence.Join(u, c, now);
      if outcome.Failed? {
        return;
      }
      var added := ParticipantAdd(c, RoomParticipant(UserSummary(u, name), []));
      PublishToRoom(c, added, outcome);
      ReaddressedOne(Posting(Members(presence.rows, c), added), {});
    }

    method OnLeave(c: ChannelId, u: UserId, now: Timestamp, outcome: Outcome)
      modifies this, presence
      ensures presence.rows == After(old(presence.rows), Departed(c, u), now)
      ensures posted == old(posted) + Posted(old(presence.rows), Departed(c, u), now, outcome)
    {
      var recipients := if outcome.Unlisted? then {} else Members(presence.rows, c);
      if u !in recipients {
        recipients := recipients + {u};
      }
      assert recipients == if outcome.Unlisted? then {u} else Members(presence.rows, c) + {u};
      var _ := presence.Leave(u);
      if outcome.Failed? {
        return;
      }
      posted := posted + [Posting(recipients, ParticipantRemove(c, u))];
      ReaddressedOne(Posting(Members(old(presence.rows), c) + {u}, ParticipantRemove(c, u)), {u});
    }

    method OnShareStart(c: ChannelId, u: UserId, s: Source, now: Timestamp, outcome: Outcome)
      modifies this, presence
      ensures presence.rows == After(old(presence.rows), Published(c, u, s), now)
      ensures posted == old(posted) + Posted(old(presence.rows), Published(c, u, s), now, outcome)
    {
      var started := presence.StartPublication(u, s, now);
      if started.None? || outcome.Failed? {
        return;
      }
      PublishToRoom(c, ShareStart(c, u, s, started.value), outcome);
      ReaddressedOne(Posting(Members(presence.rows, c), ShareStart(c, u, s, started.value)), {});
    }

    method OnShareStop(c: ChannelId, u: UserId, s: Source, now: Timestamp, outcome: Outcome)
      modifies this, presence
      ensures presence.rows == After(old(presence.rows), Unpublished(c, u, s), now)
      ensures posted == old(posted) + Posted(old(presence.rows), Unpublished(c, u, s), now, outcome)
    {
      var stopped := presence.StopPublication(u, s);
      if stopped.None? || outcome.Failed? {
        return;
      }
      PublishToRoom(c, ShareStop(c, u, s), outcome);
      ReaddressedOne(Posting(Members(presence.rows, c), ShareStop(c, u, s)), {});
    }

    method OnPublisherGone(c: ChannelId, u: UserId, now: Timestamp, outcome: Outcome)
      modifies this, presence
      ensures presence.rows == After(old(presence.rows), PublisherGone(c, u), now)
      ensures posted == old(posted) + Posted(old(presence.rows), PublisherGone(c, u), now, outcome)
    {
      var cleared := presence.ClearPublications(u);
      if cleared.None? || outcome.Failed? {
        return;
      }
      ghost var members := Members(presence.rows, c);
      ghost var to := if outcome.Unlisted? then {} else members;
      var sources := cleared.value;
      ReaddressedStops(members, {}, c, u, sources);
      var i := 0;
      while i < |sources|
        invariant 0 <= i <= |sources|
        invariant presence.rows == After(old(presence.rows), PublisherGone(c, u), now)
        invariant posted + StopsFor(to, c, u, sources[i..]) == old(posted) + StopsFor(to, c, u, sources)
      {
        ghost var rest := sources[i..];
        assert rest[1..] == sources[i + 1..];
        PublishToRoom(c, ShareStop(c, u, sources[i]), outcome);
        i := i + 1;
      }
    }

    /** Nobody is told: the room is gone for everyone who was in it. */
    method OnRoomFinished(c: ChannelId, now: Timestamp, outcome: Outcome)
      modifies this, presence
      ensures presence.rows == After(old(presence.rows), RoomFinished(c), now)
      ensures posted == old(posted) + Posted(old(presence.rows), RoomFinished(c), now, outcome)
    {
      presence.ClearChannel(c);
    }

    /** The sweep's eviction. The others in the room are not told here: they hear of
        it when the departure comes back as a webhook. */
    method OnEvict(c: ChannelId, u: UserId, now: Timestamp, outcome: Outcome)
      modifies this, presence
      ensures presence.rows == After(old(presence.rows), Evicted(c, u), now)
      ensures posted == old(posted) + Posted(old(presence.rows), Evicted(c, u), now, outcome)
    {
      var _ := presence.Leave(u);
      posted := posted + [Posting({u}, RoomLeave(c, AccessRevoked))];
    }

    /** One change of the table, whoever makes it. */
    method HandleChange(w: Change, now: Timestamp, outcome: Outcome)
      modifies this, presence
      ensures presence.rows == After(old(presence.rows), w, now)
      ensures posted == old(posted) + Posted(old(presence.rows), w, now, outcome)
    {
      match w {
        case Joined(c, u, name) => OnJoin(c, u, name, now, outcome);
        case Departed(c, u) => OnLeave(c, u, now, outcome);
        case PublisherGone(c, u) => OnPublisherGone(c, u, now, outcome);
        case Published(c, u, s) => OnShareStart(c, u, s, now, outcome);
        case Unpublished(c, u, s) => OnShareStop(c, u, s, now, outcome);
        case RoomFinished(c) => OnRoomFinished(c, now, outcome);
        case Evicted(c, u) => OnEvict(c, u, now, outcome);
      }
    }
  }
}
