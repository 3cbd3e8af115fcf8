/** Live revocation: each Discord event is written to the replica and followed,
    or not, by a sweep of the occupied rooms. */
module Revocation {
  import opened Protocol
  import opened Permissions
  import opened Replica

  newtype Int64 = x: int | -0x8000_0000_0000_0000 <= x < 0x8000_0000_0000_0000

  /** A presence row, joined with the user's Discord id. Both columns are BIGINT. */
  datatype Occupant = Occupant(channel: Int64, discord: Int64)

  type Rooms = map<UserId, Occupant>

  datatype World = World(replica: State, rooms: Rooms)

  /** Snowflakes are unsigned in Discord's terms; one that does not fit is 0. */
  function ToInt64(id: nat): Int64 {
    if id < 0x8000_0000_0000_0000 then id as Int64 else 0
  }

  /** Whether the replica lets this occupant be in this room. */
  predicate Allowed(s: State, o: Occupant) {
    && o.channel >= 0 && o.discord >= 0
    && var m := PermissionsOf(s, o.discord as nat, o.channel as nat);
       m.Some? && CanJoinRoom(m.value)
  }

  predicate InGuild(s: State, o: Occupant, g: nat) {
    && o.channel >= 0
    && var info := ChannelInfo(s, o.channel as nat);
       info.Some? && info.value.0 == g
  }

  /** A sweep of one room removes who is not allowed, and leaves rows alone whose
      ids are not snowflakes. */
  predicate SweptFrom(s: State, o: Occupant, c: Int64) {
    o.channel == c && c >= 0 && o.discord >= 0 && !Allowed(s, o)
  }

  function SweepChannel(s: State, rooms: Rooms, c: Int64): Rooms {
    map u | u in rooms && !SweptFrom(s, rooms[u], c) :: rooms[u]
  }

  function SweepGuild(s: State, rooms: Rooms, g: nat): Rooms {
    map u | u in rooms && !(InGuild(s, rooms[u], g) && SweptFrom(s, rooms[u], rooms[u].channel)) :: rooms[u]
  }

  datatype Notice = Notice(user: UserId, channel: Int64, reason: LeaveReason)

  /** Whoever went was told, with the room they were in, and nobody else was. */
  ghost predicate ToldExactly(rooms: Rooms, rooms': Rooms, notices: seq<Notice>, notices': seq<Notice>) {
    && (forall u :: u in rooms' ==> u in rooms && rooms'[u] == rooms[u])
    && notices <= notices'
    && (forall u :: u in rooms && u !in rooms' ==> Notice(u, rooms[u].channel, AccessRevoked) in notices'[|notices|..])
    && (forall n :: n in notices'[|notices|..] ==>
          n.user in rooms && n.user !in rooms' && n == Notice(n.user, rooms[n.user].channel, AccessRevoked))
  }

  lemma ToldInTurn(r0: Rooms, r1: Rooms, r2: Rooms, n0: seq<Notice>, n1: seq<Notice>, n2: seq<Notice>)
    requires ToldExactly(r0, r1, n0, n1) && ToldExactly(r1, r2, n1, n2)
    ensures ToldExactly(r0, r2, n0, n2)
  {
    var first, second := n1[|n0|..], n2[|n1|..];
    assert n2[|n0|..] == first + second;
    forall u | u in r0 && u !in r2 ensures Notice(u, r0[u].channel, AccessRevoked) in first + second {
      if u in r1 {
        assert Notice(u, r1[u].channel, AccessRevoked) in second;
      } else {
        assert Notice(u, r0[u].channel, AccessRevoked) in first;
      }
    }
    forall n: Notice | n in first + second
      ensures n.user in r0 && n.user !in r2 && n == Notice(n.user, r0[n.user].channel, AccessRevoked)
    {
      assert n in first || n in second;
    }
  }

  // ---------------------------------------------------------------------------
  // The sweeps as the bot runs them
  // ---------------------------------------------------------------------------

  class Sweeper {
    const replica: State
    var rooms: Rooms
    var notices: seq<Notice>

    constructor (replica: State, rooms: Rooms)
      ensures this.replica == replica && this.rooms == rooms && notices == []
    {
      this.replica, this.rooms, notices := replica, rooms, [];
    }

    method Evict(u: UserId, c: Int64)
      modifies this
      ensures rooms == old(rooms) - {u}
      ensures notices == old(notices) + [Notice(u, c, AccessRevoked)]
    {
      rooms := rooms - {u};
      notices := notices + [Notice(u, c, AccessRevoked)];
    }

    /** `before` and `told` are where the sweep began. */
    method Recheck(u: UserId, c: Int64, ghost before: Rooms, ghost told: seq<Notice>)
      requires u in rooms && rooms[u].channel == c && c >= 0
      requires ToldExactly(before, rooms, told, notices)
      modifies this
      ensures rooms == if SweptFrom(replica, old(rooms)[u], c) then old(rooms) - {u} else old(rooms)
      ensures ToldExactly(before, rooms, told, notices)
    {
      if rooms[u].discord < 0 {
        return;
      }
      var m := PermissionsOf(replica, rooms[u].discord as nat, c as nat);
      if m.None? || !CanJoinRoom(m.value) {
        ghost var rooms1, told1 := rooms, notices;
        Evict(u, c);
        assert notices[|told1|..] == [Notice(u, c, AccessRevoked)];
        ToldInTurn(before, rooms1, rooms, told, told1, notices);
      }
    }

    /** Everybody listed in the room is rechecked once; exactly those not allowed
        go, and each of them is told. */
    method Sweep(c: Int64)
      modifies this
      ensures rooms == SweepChannel(replica, old(rooms), c)
      ensures ToldExactly(old(rooms), rooms, old(notices), notices)
      ensures forall u :: u in rooms <==>
                && u in old(rooms)
                && (old(rooms)[u].channel != c || c < 0 || old(rooms)[u].discord < 0 || Allowed(replica, old(rooms)[u]))
    {
      if c < 0 {
        return;
      }
      var todo := set u | u in rooms && rooms[u].channel == c;
      while todo != {}
        invariant ToldExactly(old(rooms), rooms, old(notices), notices)
        invariant todo <= rooms.Keys
        invariant forall u :: u in todo ==> rooms[u].channel == c
        invariant forall u :: u in old(rooms) && u !in todo ==>
                    (u in rooms <==> !SweptFrom(replica, old(rooms)[u], c))
        decreases |todo|
      {
        var u :| u in todo;
        todo := todo - {u};
        Recheck(u, c, old(rooms), old(notices));
      }
    }

    /** The occupied rooms of one guild, room by room. */
    method SweepAll(g: nat)
      modifies this
      ensures rooms == SweepGuild(replica, old(rooms), g)
      ensures ToldExactly(old(rooms), rooms, old(notices), notices)
      ensures forall u :: u in rooms <==>
                && u in old(rooms)
                && (|| old(rooms)[u].channel < 0 || old(rooms)[u].discord < 0 || Allowed(replica, old(rooms)[u])
                    || ChannelInfo(replica, old(rooms)[u].channel as nat).None?
                    || ChannelInfo(replica, old(rooms)[u].channel as nat).value.0 != g)
    {
      var occupied := set u | u in rooms :: rooms[u].channel;
      while occupied != {}
        invariant ToldExactly(old(rooms), rooms, old(notices), notices)
        invariant forall u :: u in old(rooms) && u !in rooms ==>
                    InGuild(replica, old(rooms)[u], g) && SweptFrom(replica, old(rooms)[u], old(rooms)[u].channel)
        invariant forall u :: u in rooms && InGuild(replica, rooms[u], g)
                                && SweptFrom(replica, rooms[u], rooms[u].channel)
                    ==> rooms[u].channel in occupied
        decreases |occupied|
      {
        var c :| c in occupied;
        occupied := occupied - {c};
        if c >= 0 {
          var info := ChannelInfo(replica, c as nat);
          if info.Some? && info.value.0 == g {
            ghost var before, told := rooms, notices;
            Sweep(c);
            ToldInTurn(old(rooms), before, rooms, old(notices), told, notices);
          }
        }
      }
    }
  }

  // ---------------------------------------------------------------------------
  // Events
  // ---------------------------------------------------------------------------

  datatype DiscordEvent =
    | GuildCreate(data: GuildData)
    | GuildDelete(guild: nat, unavailable: bool)
    | MemberAddition(guild: nat, user: nat, roleIds: seq<nat>)
    | MemberUpdate(guild: nat, user: nat, roleIds: seq<nat>)
    | MemberRemoval(guild: nat, user: nat)
    | RoleCreate(guild: nat, role: Role)
    | RoleUpdate(guild: nat, role: Role)
    | RoleDelete(guild: nat, roleId: nat)
    | ChannelRefresh(guild: nat, channel: Channel, voice: bool)    // create and update alike
    | ChannelDelete(guild: nat, channelId: nat)

  function WriteOf(e: DiscordEvent): Option<Write> {
    match e
    case GuildCreate(data) => Some(ReplaceGuild(data))
    case GuildDelete(g, unavailable) => if unavailable then None else Some(RemoveGuild(g))
    case MemberAddition(g, u, roleIds) => Some(UpsertMember(g, u, roleIds))
    case MemberUpdate(g, u, roleIds) => Some(UpsertMember(g, u, roleIds))
    case MemberRemoval(g, u) => Some(RemoveMember(g, u))
    case RoleCreate(g, role) => Some(UpsertRole(g, role))
    case RoleUpdate(g, role) => Some(UpsertRole(g, role))
    case RoleDelete(g, id) => Some(RemoveRole(g, id))
    case ChannelRefresh(g, c, voice) => if voice then Some(UpsertChannel(g, c)) else None
    case ChannelDelete(g, c) => Some(RemoveChannel(g, c))
  }

  function ReplicaAfter(s: State, e: DiscordEvent): State {
    if WriteOf(e).Some? then Written(s, WriteOf(e).value) else s
  }

  /** A joining member and a new role are not followed by any sweep. */
  function RoomsAfter(s': State, rooms: Rooms, e: DiscordEvent): Rooms {
    match e
    case MemberAddition(_, _, _) => rooms
    case RoleCreate(_, _) => rooms
    case GuildDelete(g, unavailable) => if unavailable then rooms else SweepGuild(s', rooms, g)
    case ChannelRefresh(_, c, voice) => if voice then SweepChannel(s', rooms, ToInt64(c.id)) else rooms
    case ChannelDelete(_, c) => SweepChannel(s', rooms, ToInt64(c))
    case GuildCreate(data) => SweepGuild(s', rooms, data.id)
    case _ => SweepGuild(s', rooms, e.guild)
  }

  function Handle(w: World, e: DiscordEvent): World {
    var s' := ReplicaAfter(w.replica, e);
    World(s', RoomsAfter(s', w.rooms, e))
  }

  /** The event handlers: write the replica, then sweep what the write may have
      closed to somebody. */
  class Bot {
    const replica: DiscordReplica
    var rooms: Rooms
    var notices: seq<Notice>

    function Now(): World
      reads this, replica
    {
      World(replica.Value(), rooms)
    }

    constructor (replica: DiscordReplica, rooms: Rooms)
      ensures this.replica == replica && this.rooms == rooms && notices == []
    {
      this.replica, this.rooms, notices := replica, rooms, [];
    }

    method SweepRoom(c: nat)
      modifies this
      ensures rooms == SweepChannel(replica.Value(), old(rooms), ToInt64(c))
      ensures ToldExactly(old(rooms), rooms, old(notices), notices)
    {
      var sweeper := new Sweeper(replica.Value(), rooms);
      sweeper.Sweep(ToInt64(c));
      rooms, notices := sweeper.rooms, notices + sweeper.notices;
    }

    method SweepRoomsOf(g: nat)
      modifies this
      ensures rooms == SweepGuild(replica.Value(), old(rooms), g)
      ensures ToldExactly(old(rooms), rooms, old(notices), notices)
    {
      var sweeper := new Sweeper(replica.Value(), rooms);
      sweeper.SweepAll(g);
      rooms, notices := sweeper.rooms, notices + sweeper.notices;
    }

    method HandleEvent(e: DiscordEvent)
      modifies this, replica
      ensures Now() == Handle(old(Now()), e)
      ensures ToldExactly(old(rooms), rooms, old(notices), notices)
    {
      match e {
        case GuildCreate(data) =>
          replica.PutGuild(data);
          SweepRoomsOf(data.id);
        case GuildDelete(g, unavailable) =>
          if unavailable {
            return;
          }
          replica.TakeGuild(g);
          SweepRoomsOf(g);
        case MemberAddition(g, u, roleIds) =>
          replica.PutMember(g, u, roleIds);
        case MemberUpdate(g, u, roleIds) =>
          replica.PutMember(g, u, roleIds);
          SweepRoomsOf(g);
        case MemberRemoval(g, u) =>
          replica.TakeMember(g, u);
          SweepRoomsOf(g);
        case RoleCreate(g, role) =>
          replica.PutRoleOf(g, role);
        case RoleUpdate(g, role) =>
          replica.PutRoleOf(g, role);
          SweepRoomsOf(g);
        case RoleDelete(g, id) =>
          replica.TakeRole(g, id);
          SweepRoomsOf(g);
        case ChannelRefresh(g, c, voice) =>
          if !voice {
            return;
          }
          replica.PutChannel(g, c);
          SweepRoom(c.id);
        case ChannelDelete(g, c) =>
          replica.TakeChannel(g, c);
          SweepRoom(c);
      }
    }
  }

  /** A channel event sweeps the room of that number, or room 0 when the number does not
      fit the column. */
  lemma ChannelEventSweeps(w: World, e: DiscordEvent, u: UserId)
    requires (e.ChannelRefresh? && e.voice) || e.ChannelDelete?
    requires u in w.rooms && u !in Handle(w, e).rooms
    ensures var c := if e.ChannelRefresh? then e.channel.id else e.channelId;
            w.rooms[u].channel as int == if c < 0x8000_0000_0000_0000 then c else 0
  {
  }

  // ---------------------------------------------------------------------------
  // What an event means
  // ---------------------------------------------------------------------------

  /** Being allowed is Discord's rule for the two bits of a voice channel, in the guild
      that holds the channel, for one of its members; or a bypass of it. */
  lemma AllowedIff(s: State, o: Occupant, g: nat)
    requires Coherent(s) && o.channel >= 0 && o.discord >= 0 && Hosts(s, g, o.channel as nat)
    ensures Allowed(s, o) <==>
            && o.discord as nat in s.guilds[g].members
            && var data, u := s.guilds[g], o.discord as nat;
               var guild, member := Guild(g, data.owner, data.roles), Member(u, data.members[u]);
               var ows := data.channels[o.channel as nat].overwrites;
               || Bypasses(guild, member)
               || (Rule(guild, member, ows, 10) && Rule(guild, member, ows, 20))
  {
    var data, u := s.guilds[g], o.discord as nat;
    if u in data.members {
      CanJoinRoomIff(Guild(g, data.owner, data.roles), Member(u, data.members[u]),
                     data.channels[o.channel as nat].overwrites);
    }
  }

  lemma UnknownRoomAllowsNobody(s: State, o: Occupant, c: nat)
    requires Coherent(s) && o.channel as int == c && forall g :: !Hosts(s, g, c)
    ensures !Allowed(s, o)
  {
    assert forall d :: d in s.index ==> Hosts(s, s.index[d], d);
  }

  /** After any event the members of each guild and their roles: an announced guild has
      the ones announced, an added or updated member exactly the roles given, a removed
      one is no member, and a deleted role is on nobody's list. Otherwise nothing
      changed, and a passing outage changes nothing. */
  lemma EventMembers(w: World, e: DiscordEvent, g: nat, u: nat)
    ensures var was, now := ListedRoles(w.replica, g, u), ListedRoles(Handle(w, e).replica, g, u);
            if e.GuildCreate? && e.data.id == g
            then now == if u in e.data.members then Some(e.data.members[u]) else None
            else if e.GuildDelete? && e.guild == g && !e.unavailable then now == None
            else if (e.MemberAddition? || e.MemberUpdate?) && e.guild == g && e.user == u && g in w.replica.guilds
            then now == Some(e.roleIds)
            else if e.MemberRemoval? && e.guild == g && e.user == u then now == None
            else if e.RoleDelete? && e.guild == g
            then (now.Some? <==> was.Some?)
                 && (now.Some? ==> forall r :: r in now.value <==> r in was.value && r != e.roleId)
            else now == was
  {
    if WriteOf(e).Some? {
      MembersAfter(w.replica, WriteOf(e).value, g, u);
    }
  }

  /** And what each role grants: a created or updated one exactly its bits, a deleted one
      nothing. */
  lemma EventGrants(w: World, e: DiscordEvent, g: nat, role: nat)
    ensures var was, now := Grants(w.replica, g, role), Grants(Handle(w, e).replica, g, role);
            if e.GuildCreate? && e.data.id == g then now == RoleMask(e.data.roles, role)
            else if e.GuildDelete? && e.guild == g && !e.unavailable then now == {}
            else if (e.RoleCreate? || e.RoleUpdate?) && e.guild == g && e.role.id == role && g in w.replica.guilds
            then now == e.role.permissions
            else if e.RoleDelete? && e.guild == g && e.roleId == role then now == {}
            else now == was
  {
    if WriteOf(e).Some? {
      GrantsAfter(w.replica, WriteOf(e).value, g, role);
    }
  }

  /** And which channels each guild holds, and who owns it. */
  lemma EventChannels(w: World, e: DiscordEvent, g: nat, c: nat)
    ensures var was, now := ChannelOf(w.replica, g, c), ChannelOf(Handle(w, e).replica, g, c);
            if e.GuildCreate? && e.data.id == g
            then now == if c in e.data.channels then Some(e.data.channels[c]) else None
            else if e.GuildDelete? && e.guild == g && !e.unavailable then now == None
            else if e.ChannelRefresh? && e.voice && e.guild == g && e.channel.id == c && g in w.replica.guilds
            then now == Some(e.channel)
            else if e.ChannelDelete? && e.guild == g && e.channelId == c then now == None
            else now == was
    ensures OwnerOf(Handle(w, e).replica, g) ==
            if e.GuildCreate? && e.data.id == g then Some(e.data.owner)
            else if e.GuildDelete? && e.guild == g && !e.unavailable then None
            else OwnerOf(w.replica, g)
  {
    if WriteOf(e).Some? {
      ChannelsAfter(w.replica, WriteOf(e).value, g, c);
    }
  }

  /** Whose row is the member's, in a room of the guild. */
  predicate IsMemberIn(s: State, o: Occupant, g: nat, u: nat) {
    o.channel >= 0 && o.discord as int == u && Hosts(s, g, o.channel as nat)
  }

  /** A member who leaves a guild or is kicked may do nothing in it any more and is in
      none of its rooms; nobody else's permissions change; and from a safe state nobody
      else goes. */
  lemma RemovalEvictsTheMember(w: World, g: nat, u: nat)
    requires Coherent(w.replica)
    ensures var w' := Handle(w, MemberRemoval(g, u));
            && (forall x: nat, c: nat :: PermissionsOf(w'.replica, x, c) ==
                  if x == u && Hosts(w.replica, g, c) then None else PermissionsOf(w.replica, x, c))
            && (forall k :: k in w'.rooms ==> !IsMemberIn(w.replica, w.rooms[k], g, u))
            && (Safe(w) ==> forall k :: k in w.rooms && !IsMemberIn(w.replica, w.rooms[k], g, u) ==> k in w'.rooms)
  {
    var s, s' := w.replica, Written(w.replica, RemoveMember(g, u));
    forall x: nat, c: nat ensures PermissionsOf(s', x, c) ==
                                  if x == u && Hosts(s, g, c) then None else PermissionsOf(s, x, c) {
      RemovedMemberMayNothing(s, g, u, x, c);
    }
    forall k | k in w.rooms && IsMemberIn(s, w.rooms[k], g, u)
      ensures InGuild(s', w.rooms[k], g) && SweptFrom(s', w.rooms[k], w.rooms[k].channel)
    {
      assert Hosts(s', g, w.rooms[k].channel as nat);
    }
  }

  /** Nobody is in a room they may not join. */
  ghost predicate Safe(w: World) {
    forall u :: u in w.rooms ==> Allowed(w.replica, w.rooms[u])
  }

  function OnlyAllowed(s: State, rooms: Rooms): Rooms {
    map u | u in rooms && Allowed(s, rooms[u]) :: rooms[u]
  }

  /** What each event must satisfy for its handling to be complete. The first two
      have no sweep behind them; a deleted guild and a dropped channel leave the
      index before the sweep looks for their rooms. */
  ghost predicate Covered(s: State, e: DiscordEvent) {
    && (WriteOf(e).Some? ==> !Clashes(s, WriteOf(e).value))
    && match e
       case MemberAddition(g, u, _) => g in s.guilds ==> u !in s.guilds[g].members
       case RoleCreate(g, role) => g in s.guilds ==> RoleMask(s.guilds[g].roles, role.id) <= role.permissions
       case GuildDelete(g, unavailable) => unavailable || g !in s.guilds || s.guilds[g].channels == map[]
       case GuildCreate(data) => data.id in s.guilds ==> s.guilds[data.id].channels.Keys <= data.channels.Keys
       case _ => true
  }

  /** Rooms of other guilds do not notice. */
  lemma OtherGuildUnchanged(s: State, s': State, o: Occupant, g: nat)
    requires Coherent(s) && Coherent(s')
    requires forall h :: h != g ==> (h in s'.guilds <==> h in s.guilds)
    requires forall h :: h != g && h in s.guilds ==> s'.guilds[h] == s.guilds[h]
    requires Allowed(s, o) && !InGuild(s, o, g)
    ensures Allowed(s', o)
  {
    var c := o.channel as nat;
    var h := s.index[c];
    assert Hosts(s, h, c) && h != g;
    assert Hosts(s', h, c);
  }

  /** A write about one guild followed by a sweep of that guild. */
  lemma GuildSweepComplete(w: World, s': State, g: nat)
    requires Safe(w) && Coherent(w.replica) && Coherent(s')
    requires forall h :: h != g ==> (h in s'.guilds <==> h in w.replica.guilds)
    requires forall h :: h != g && h in w.replica.guilds ==> s'.guilds[h] == w.replica.guilds[h]
    requires forall c :: Hosts(w.replica, g, c) ==> Hosts(s', g, c)
    ensures SweepGuild(s', w.rooms, g) == OnlyAllowed(s', w.rooms)
  {
    forall u | u in w.rooms
      ensures Allowed(s', w.rooms[u]) <==>
              !(InGuild(s', w.rooms[u], g) && SweptFrom(s', w.rooms[u], w.rooms[u].channel))
    {
      var o := w.rooms[u];
      assert Allowed(w.replica, o);
      if InGuild(w.replica, o, g) {
        assert Hosts(w.replica, g, o.channel as nat);
        assert Hosts(s', g, o.channel as nat);
      } else {
        OtherGuildUnchanged(w.replica, s', o, g);
      }
    }
  }

  /** A write about one channel followed by a sweep of that channel. */
  lemma ChannelSweepComplete(w: World, s': State, c: nat)
    requires Safe(w) && forall u :: u in w.rooms && w.rooms[u].channel as int != c ==> Allowed(s', w.rooms[u])
    ensures SweepChannel(s', w.rooms, ToInt64(c)) == OnlyAllowed(s', w.rooms)
  {
    forall u | u in w.rooms ensures Allowed(s', w.rooms[u]) <==> !SweptFrom(s', w.rooms[u], ToInt64(c)) {
      assert Allowed(w.replica, w.rooms[u]);
    }
  }

  lemma OtherChannelUnchanged(s: State, e: DiscordEvent, o: Occupant, c: nat)
    requires Coherent(s) && Coherent(ReplicaAfter(s, e)) && Allowed(s, o) && o.channel as int != c
    requires (e.ChannelRefresh? && e.channel.id == c) || (e.ChannelDelete? && e.channelId == c)
    ensures Allowed(ReplicaAfter(s, e), o)
  {
    var x := o.channel as nat;
    assert Hosts(s, s.index[x], x);
    assert Hosts(ReplicaAfter(s, e), s.index[x], x);
  }

  lemma ChannelEventComplete(w: World, e: DiscordEvent)
    requires Safe(w) && Coherent(w.replica) && Coherent(ReplicaAfter(w.replica, e))
    requires (e.ChannelRefresh? && e.voice) || e.ChannelDelete?
    ensures Handle(w, e).rooms == OnlyAllowed(ReplicaAfter(w.replica, e), w.rooms)
  {
    var c := if e.ChannelRefresh? then e.channel.id else e.channelId;
    forall u | u in w.rooms && w.rooms[u].channel as int != c ensures Allowed(ReplicaAfter(w.replica, e), w.rooms[u]) {
      assert Allowed(w.replica, w.rooms[u]);
      OtherChannelUnchanged(w.replica, e, w.rooms[u], c);
    }
    ChannelSweepComplete(w, ReplicaAfter(w.replica, e), c);
  }

  /** A member who was not one before was in no room of the guild. */
  lemma AdditionKeepsAllowed(s: State, e: DiscordEvent, o: Occupant)
    requires e.MemberAddition? && Covered(s, e) && Allowed(s, o)
    ensures Allowed(ReplicaAfter(s, e), o)
  {
  }

  /** A new role only ever grants. */
  lemma RoleCreateKeepsAllowed(s: State, e: DiscordEvent, o: Occupant)
    requires e.RoleCreate? && Covered(s, e) && Allowed(s, o)
    ensures Allowed(ReplicaAfter(s, e), o)
  {
    var g := s.index[o.channel as nat];
    if g == e.guild {
      var data := s.guilds[g];
      var guild := Guild(data.id, data.owner, data.roles);
      PutRoleExtendsIff(guild, e.role);
      MoreRolesNeverRevoke(guild, guild.(roles := PutRole(data.roles, e.role)),
                           Member(o.discord as nat, data.members[o.discord as nat]),
                           data.channels[o.channel as nat].overwrites);
    }
  }

  lemma NoSweepNeeded(w: World, s': State)
    requires forall u :: u in w.rooms ==> Allowed(s', w.rooms[u])
    ensures w.rooms == OnlyAllowed(s', w.rooms)
  {
  }

  /** Revocation completeness. From a state where everybody present is allowed,
      handling any covered event leaves exactly the people the new replica allows:
      whoever lost access is out, nobody else is. */
  lemma HandlingRevokesExactly(w: World, e: DiscordEvent)
    requires Safe(w) && Coherent(w.replica) && Covered(w.replica, e)
    ensures var w' := Handle(w, e);
            && Coherent(w'.replica)
            && w'.rooms == OnlyAllowed(w'.replica, w.rooms)
            && Safe(w')
  {
    var s, s' := w.replica, ReplicaAfter(w.replica, e);
    if WriteOf(e).Some? {
      WriteCoherentIff(s, WriteOf(e).value);
    }
    match e {
      case MemberAddition(_, _, _) =>
        forall u | u in w.rooms ensures Allowed(s', w.rooms[u]) {
          AdditionKeepsAllowed(s, e, w.rooms[u]);
        }
        NoSweepNeeded(w, s');
      case RoleCreate(_, _) =>
        forall u | u in w.rooms ensures Allowed(s', w.rooms[u]) {
          RoleCreateKeepsAllowed(s, e, w.rooms[u]);
        }
        NoSweepNeeded(w, s');
      case GuildDelete(g, unavailable) =>
        if unavailable {
          NoSweepNeeded(w, s');
        } else {
          GuildSweepComplete(w, s', g);
        }
      case ChannelRefresh(_, _, voice) =>
        if voice {
          ChannelEventComplete(w, e);
        } else {
          NoSweepNeeded(w, s');
        }
      case ChannelDelete(_, _) => ChannelEventComplete(w, e);
      case GuildCreate(data) => GuildSweepComplete(w, s', data.id);
      case _ => GuildSweepComplete(w, s', e.guild);
    }
  }

  /** A member announced again, which no sweep follows, keeps the state safe
      exactly when the roles announced admit them wherever they already are. */
  lemma AdditionSafeIff(w: World, g: nat, user: nat, roleIds: seq<nat>)
    requires Safe(w) && Coherent(w.replica)
    ensures Safe(Handle(w, MemberAddition(g, user, roleIds))) <==>
            forall u :: u in w.rooms && w.rooms[u].discord as int == user && InGuild(w.replica, w.rooms[u], g) ==>
              RolesAdmit(w.replica, w.rooms[u], roleIds)
  {
    var s' := ReplicaAfter(w.replica, MemberAddition(g, user, roleIds));
    forall u | u in w.rooms
      ensures Allowed(s', w.rooms[u]) <==>
              (w.rooms[u].discord as int == user && InGuild(w.replica, w.rooms[u], g) ==>
                 RolesAdmit(w.replica, w.rooms[u], roleIds))
    {
      assert Allowed(w.replica, w.rooms[u]);
    }
  }

  /** Whether some role list would let an occupant be where they are. */
  predicate RolesAdmit(s: State, o: Occupant, roleIds: seq<nat>) {
    && o.channel >= 0 && o.discord >= 0 && o.channel as nat in s.index
    && var g := s.index[o.channel as nat];
    && Hosts(s, g, o.channel as nat)
    && var data := s.guilds[g];
       CanJoinRoom(Resolve(Guild(data.id, data.owner, data.roles), Member(o.discord as nat, roleIds),
                           data.channels[o.channel as nat].overwrites))
  }

  ghost predicate CoveredRun(w: World, es: seq<DiscordEvent>)
    decreases |es|
  {
    es == [] || (Covered(w.replica, es[0]) && CoveredRun(Handle(w, es[0]), es[1..]))
  }

  function HandleAll(w: World, es: seq<DiscordEvent>): World
    decreases |es|
  {
    if es == [] then w else HandleAll(Handle(w, es[0]), es[1..])
  }

  /** Over every run of covered events nobody stays in a room they may not join. */
  lemma {:induction false} NobodyOverstays(w: World, es: seq<DiscordEvent>)
    requires Safe(w) && Coherent(w.replica) && CoveredRun(w, es)
    ensures Safe(HandleAll(w, es)) && Coherent(HandleAll(w, es).replica)
    decreases |es|
  {
    if es != [] {
      HandlingRevokesExactly(w, es[0]);
      NobodyOverstays(Handle(w, es[0]), es[1..]);
    }
  }

  /** Deleting a guild evicts nobody: the sweep looks for the guild's rooms in an
      index that no longer has them. Safety survives exactly when nobody was in
      one of its rooms. */
  lemma GuildDeleteEvictsNobody(w: World, g: nat)
    requires Safe(w) && Coherent(w.replica)
    ensures var w' := Handle(w, GuildDelete(g, false));
            && w'.rooms == w.rooms
            && (Safe(w') <==> forall u :: u in w.rooms ==> !InGuild(w.replica, w.rooms[u], g))
  {
    var s' := ReplicaAfter(w.replica, GuildDelete(g, false));
    RemoveGuildCoherent(w.replica, g);
    forall u | u in w.rooms
      ensures !InGuild(s', w.rooms[u], g)
      ensures Allowed(s', w.rooms[u]) <==> !InGuild(w.replica, w.rooms[u], g)
    {
      assert Allowed(w.replica, w.rooms[u]);
    }
    assert SweepGuild(s', w.rooms, g) == w.rooms;
  }

  /** Re-announcing a guild leaves its dropped channels occupied: safety survives
      exactly when nobody was in one of them. */
  lemma GuildCreateMissesDroppedChannels(w: World, data: GuildData)
    requires Safe(w) && Coherent(w.replica) && !Clashes(w.replica, ReplaceGuild(data))
    ensures Safe(Handle(w, GuildCreate(data))) <==>
            forall u :: u in w.rooms && InGuild(w.replica, w.rooms[u], data.id) ==>
              w.rooms[u].channel as nat in data.channels
  {
    var w' := Handle(w, GuildCreate(data));
    WriteCoherentIff(w.replica, ReplaceGuild(data));
    forall u | u in w.rooms
      ensures u in w'.rooms && !Allowed(w'.replica, w.rooms[u]) <==>
              InGuild(w.replica, w.rooms[u], data.id) && w.rooms[u].channel as nat !in data.channels
    {
      DroppedRoomStays(w, data, u);
    }
  }

  lemma DroppedRoomStays(w: World, data: GuildData, u: UserId)
    requires Safe(w) && Coherent(w.replica) && u in w.rooms
    requires Coherent(Written(w.replica, ReplaceGuild(data)))
    ensures var w' := Handle(w, GuildCreate(data));
            u in w'.rooms && !Allowed(w'.replica, w.rooms[u]) <==>
              InGuild(w.replica, w.rooms[u], data.id) && w.rooms[u].channel as nat !in data.channels
  {
    var s', o := Written(w.replica, ReplaceGuild(data)), w.rooms[u];
    assert Allowed(w.replica, o);
    if !InGuild(w.replica, o, data.id) {
      OtherGuildUnchanged(w.replica, s', o, data.id);
    } else if o.channel as nat in data.channels {
      KeptChannelStaysInGuild(w.replica, data, o);
    } else {
      DroppedChannelIsUnknown(w.replica, data, o);
    }
  }

  lemma KeptChannelStaysInGuild(s: State, data: GuildData, o: Occupant)
    requires Coherent(Written(s, ReplaceGuild(data))) && o.channel >= 0 && o.channel as nat in data.channels
    ensures InGuild(Written(s, ReplaceGuild(data)), o, data.id)
  {
    assert Hosts(Written(s, ReplaceGuild(data)), data.id, o.channel as nat);
  }

  lemma DroppedChannelIsUnknown(s: State, data: GuildData, o: Occupant)
    requires Coherent(s) && Coherent(Written(s, ReplaceGuild(data)))
    requires InGuild(s, o, data.id) && o.channel as nat !in data.channels
    ensures !InGuild(Written(s, ReplaceGuild(data)), o, data.id)
    ensures !Allowed(Written(s, ReplaceGuild(data)), o)
  {
    var s', c := Written(s, ReplaceGuild(data)), o.channel as nat;
    assert Hosts(s, data.id, c);
    assert c in s'.index ==> Hosts(s', s'.index[c], c);
  }
}
