/** The in-memory mirror of the Discord state, with the channel-to-guild index
    that every permission check goes through. */
module Replica {
  import opened Protocol
  import opened Permissions

  datatype Channel = Channel(id: nat, name: string, overwrites: seq<Overwrite>)

  datatype GuildData = GuildData(
    id: nat, owner: nat, roles: seq<Role>, members: map<nat, seq<nat>>, channels: map<nat, Channel>)

  datatype State = State(guilds: map<nat, GuildData>, index: map<nat, nat>)

  datatype Write =
    | ReplaceGuild(data: GuildData)
    | RemoveGuild(guild: nat)
    | UpsertMember(guild: nat, user: nat, roleIds: seq<nat>)
    | RemoveMember(guild: nat, user: nat)
    | UpsertRole(guild: nat, role: Role)
    | RemoveRole(guild: nat, roleId: nat)
    | UpsertChannel(guild: nat, channel: Channel)
    | RemoveChannel(guild: nat, channelId: nat)

  function DropRole(roles: seq<Role>, id: nat): seq<Role> {
    if roles == [] then [] else (if roles[0].id != id then [roles[0]] else []) + DropRole(roles[1..], id)
  }

  function DropId(ids: seq<nat>, id: nat): seq<nat> {
    if ids == [] then [] else (if ids[0] != id then [ids[0]] else []) + DropId(ids[1..], id)
  }

  function Unindexed(index: map<nat, nat>, g: nat): map<nat, nat> {
    map c | c in index && index[c] != g :: index[c]
  }

  function Indexed(channels: map<nat, Channel>, g: nat): map<nat, nat> {
    map c | c in channels :: g
  }

  function Written(s: State, w: Write): State {
    match w
    case ReplaceGuild(data) =>
      State(s.guilds[data.id := data], Unindexed(s.index, data.id) + Indexed(data.channels, data.id))
    case RemoveGuild(g) => State(s.guilds - {g}, Unindexed(s.index, g))
    case UpsertMember(g, u, roleIds) =>
      if g !in s.guilds then s
      else s.(guilds := s.guilds[g := s.guilds[g].(members := s.guilds[g].members[u := roleIds])])
    case RemoveMember(g, u) =>
      if g !in s.guilds then s
      else s.(guilds := s.guilds[g := s.guilds[g].(members := s.guilds[g].members - {u})])
    case UpsertRole(g, role) =>
      if g !in s.guilds then s
      else s.(guilds := s.guilds[g := s.guilds[g].(roles := PutRole(s.guilds[g].roles, role))])
    case RemoveRole(g, id) =>
      if g !in s.guilds then s
      else
        var members := map u | u in s.guilds[g].members :: DropId(s.guilds[g].members[u], id);
        s.(guilds := s.guilds[g := s.guilds[g].(roles := DropRole(s.guilds[g].roles, id), members := members)])
    case UpsertChannel(g, c) =>
      if g !in s.guilds then s
      else State(s.guilds[g := s.guilds[g].(channels := s.guilds[g].channels[c.id := c])], s.index[c.id := g])
    case RemoveChannel(g, c) =>
      State(if g in s.guilds then s.guilds[g := s.guilds[g].(channels := s.guilds[g].channels - {c})] else s.guilds,
            s.index - {c})
  }

  /** What a member of one guild may do in one of its channels. */
  function In(g: GuildData, u: nat, c: nat): Option<Mask>
    requires c in g.channels
  {
    if u !in g.members then None
    else Some(Resolve(Guild(g.id, g.owner, g.roles), Member(u, g.members[u]), g.channels[c].overwrites))
  }

  function PermissionsOf(s: State, u: nat, c: nat): Option<Mask> {
    if c !in s.index then None
    else
      var g := s.index[c];
      if g !in s.guilds || c !in s.guilds[g].channels then None else In(s.guilds[g], u, c)
  }

  function ChannelInfo(s: State, c: nat): Option<(nat, string)> {
    if c !in s.index then None
    else
      var g := s.index[c];
      if g !in s.guilds || c !in s.guilds[g].channels then None
      else Some((g, s.guilds[g].channels[c].name))
  }

  // ---------------------------------------------------------------------------
  // What a write changes, and what it leaves
  // ---------------------------------------------------------------------------

  /** The role list of a member of a mirrored guild. */
  function ListedRoles(s: State, g: nat, u: nat): Option<seq<nat>> {
    if g in s.guilds && u in s.guilds[g].members then Some(s.guilds[g].members[u]) else None
  }

  /** What a role of a mirrored guild grants. */
  function Grants(s: State, g: nat, role: nat): Mask {
    if g in s.guilds then RoleMask(s.guilds[g].roles, role) else {}
  }

  function ChannelOf(s: State, g: nat, c: nat): Option<Channel> {
    if g in s.guilds && c in s.guilds[g].channels then Some(s.guilds[g].channels[c]) else None
  }

  function OwnerOf(s: State, g: nat): Option<nat> {
    if g in s.guilds then Some(s.guilds[g].owner) else None
  }

  lemma {:induction false} DroppedId(ids: seq<nat>, id: nat, x: nat)
    ensures x in DropId(ids, id) <==> x in ids && x != id
  {
    if ids != [] {
      DroppedId(ids[1..], id, x);
      assert x in ids <==> x == ids[0] || x in ids[1..];
    }
  }

  lemma {:induction false} DroppedRole(roles: seq<Role>, id: nat, x: nat)
    ensures RoleMask(DropRole(roles, id), x) == if x == id then {} else RoleMask(roles, x)
  {
    if roles != [] {
      DroppedRole(roles[1..], id, x);
      var rest := DropRole(roles[1..], id);
      if roles[0].id != id {
        assert DropRole(roles, id) == [roles[0]] + rest;
        assert ([roles[0]] + rest)[1..] == rest;
      } else {
        assert DropRole(roles, id) == rest;
      }
    }
  }

  /** Whether a write is about this guild. */
  predicate AboutGuild(w: Write, g: nat) {
    if w.ReplaceGuild? then w.data.id == g else w.guild == g
  }

  /** Who is a member afterwards, and with which roles. A removed role leaves every
      list; nobody else's list changes. */
  lemma MembersAfter(s: State, w: Write, g: nat, u: nat)
    ensures var was, now := ListedRoles(s, g, u), ListedRoles(Written(s, w), g, u);
            if AboutGuild(w, g) && w.ReplaceGuild?
            then now == if u in w.data.members then Some(w.data.members[u]) else None
            else if AboutGuild(w, g) && w.RemoveGuild? then now == None
            else if AboutGuild(w, g) && w.UpsertMember? && w.user == u && g in s.guilds then now == Some(w.roleIds)
            else if AboutGuild(w, g) && w.RemoveMember? && w.user == u then now == None
            else if AboutGuild(w, g) && w.RemoveRole?
            then (now.Some? <==> was.Some?)
                 && (now.Some? ==> forall r :: r in now.value <==> r in was.value && r != w.roleId)
            else now == was
  {
    if w.RemoveRole? && g == w.guild && ListedRoles(s, g, u).Some? {
      forall r ensures r in DropId(s.guilds[g].members[u], w.roleId) <==>
                       r in s.guilds[g].members[u] && r != w.roleId {
        DroppedId(s.guilds[g].members[u], w.roleId, r);
      }
    }
  }

  /** What each role grants afterwards: a written one exactly its bits, a removed one
      nothing, every other one what it did. */
  lemma GrantsAfter(s: State, w: Write, g: nat, role: nat)
    ensures var was, now := Grants(s, g, role), Grants(Written(s, w), g, role);
            if AboutGuild(w, g) && w.ReplaceGuild? then now == RoleMask(w.data.roles, role)
            else if AboutGuild(w, g) && w.RemoveGuild? then now == {}
            else if AboutGuild(w, g) && w.UpsertRole? && role == w.role.id && g in s.guilds
            then now == w.role.permissions
            else if AboutGuild(w, g) && w.RemoveRole? && role == w.roleId then now == {}
            else now == was
  {
    if g in s.guilds && w.UpsertRole? {
      PutRoleMask(s.guilds[g].roles, w.role, role);
    }
    if g in s.guilds && w.RemoveRole? {
      DroppedRole(s.guilds[g].roles, w.roleId, role);
    }
  }

  /** Which channels each guild holds afterwards, and who owns it. */
  lemma ChannelsAfter(s: State, w: Write, g: nat, c: nat)
    ensures var was, now := ChannelOf(s, g, c), ChannelOf(Written(s, w), g, c);
            if AboutGuild(w, g) && w.ReplaceGuild?
            then now == if c in w.data.channels then Some(w.data.channels[c]) else None
            else if AboutGuild(w, g) && w.RemoveGuild? then now == None
            else if AboutGuild(w, g) && w.UpsertChannel? && c == w.channel.id && g in s.guilds
            then now == Some(w.channel)
            else if AboutGuild(w, g) && w.RemoveChannel? && c == w.channelId then now == None
            else now == was
    ensures OwnerOf(Written(s, w), g) ==
            if AboutGuild(w, g) && w.ReplaceGuild? then Some(w.data.owner)
            else if AboutGuild(w, g) && w.RemoveGuild? then None
            else OwnerOf(s, g)
  {
  }

  /** Where the index sends a channel afterwards. The last write about it decides, also
      when another guild holds it too. */
  lemma IndexAfter(s: State, w: Write, c: nat)
    ensures var was, now := if c in s.index then Some(s.index[c]) else None,
                            if c in Written(s, w).index then Some(Written(s, w).index[c]) else None;
            if w.ReplaceGuild? && c in w.data.channels then now == Some(w.data.id)
            else if w.ReplaceGuild? then now == if was == Some(w.data.id) then None else was
            else if w.RemoveGuild? then now == if was == Some(w.guild) then None else was
            else if w.UpsertChannel? && c == w.channel.id && w.guild in s.guilds then now == Some(w.guild)
            else if w.RemoveChannel? && c == w.channelId then now == None
            else now == was
  {
  }

  /** A member who is gone may do nothing anywhere in the guild; for everybody else, and
      everywhere else, nothing changes. */
  lemma RemovedMemberMayNothing(s: State, g: nat, u: nat, x: nat, c: nat)
    requires Coherent(s)
    ensures PermissionsOf(Written(s, RemoveMember(g, u)), x, c) ==
            if x == u && Hosts(s, g, c) then None else PermissionsOf(s, x, c)
  {
    assert c in s.index ==> Hosts(s, s.index[c], c);
  }

  /** A member who is written may do exactly what the roles given to them allow. */
  lemma WrittenMemberMay(s: State, g: nat, u: nat, roleIds: seq<nat>, x: nat, c: nat)
    requires Coherent(s)
    ensures PermissionsOf(Written(s, UpsertMember(g, u, roleIds)), x, c) ==
            if x == u && Hosts(s, g, c)
            then Some(Resolve(Guild(g, s.guilds[g].owner, s.guilds[g].roles), Member(u, roleIds),
                              s.guilds[g].channels[c].overwrites))
            else PermissionsOf(s, x, c)
  {
    assert c in s.index ==> Hosts(s, s.index[c], c);
  }

  // ---------------------------------------------------------------------------
  // Index against scan
  // ---------------------------------------------------------------------------

  predicate Hosts(s: State, g: nat, c: nat) {
    g in s.guilds && c in s.guilds[g].channels
  }

  /** The index sends a channel to a guild exactly when that guild is mirrored and
      holds it, and guilds sit under their own ids. */
  ghost predicate Coherent(s: State) {
    && (forall c :: c in s.index ==> Hosts(s, s.index[c], c))
    && (forall g, c :: Hosts(s, g, c) ==> c in s.index && s.index[c] == g)
    && (forall g :: g in s.guilds ==> s.guilds[g].id == g)
  }

  /** A write about a channel that another mirrored guild also holds. */
  ghost predicate Clashes(s: State, w: Write) {
    match w
    case ReplaceGuild(data) => exists g, c :: g != data.id && Hosts(s, g, c) && c in data.channels
    case UpsertChannel(g, c) => g in s.guilds && exists h :: h != g && Hosts(s, h, c.id)
    case RemoveChannel(g, c) => exists h :: h != g && Hosts(s, h, c)
    case _ => false
  }

  /** The index stays right exactly when each channel belongs to one guild. */
  lemma ReplaceCoherentIff(s: State, data: GuildData)
    requires Coherent(s)
    ensures Coherent(Written(s, ReplaceGuild(data))) <==> !Clashes(s, ReplaceGuild(data))
  {
    var s' := Written(s, ReplaceGuild(data));
    if g, c :| g != data.id && Hosts(s, g, c) && c in data.channels {
      assert Hosts(s', g, c) && s'.index[c] == data.id;
    } else {
      forall g, c | Hosts(s', g, c) ensures c in s'.index && s'.index[c] == g {
        if g != data.id {
          assert Hosts(s, g, c);
        }
      }
    }
  }

  lemma UpsertChannelCoherentIff(s: State, g: nat, c: Channel)
    requires Coherent(s)
    ensures Coherent(Written(s, UpsertChannel(g, c))) <==> !Clashes(s, UpsertChannel(g, c))
  {
    var s' := Written(s, UpsertChannel(g, c));
    if g in s.guilds {
      if h :| h != g && Hosts(s, h, c.id) {
        assert Hosts(s', h, c.id) && s'.index[c.id] == g;
      } else {
        forall h, x | Hosts(s', h, x) ensures x in s'.index && s'.index[x] == h {
          if x != c.id {
            assert Hosts(s, h, x);
          } else {
            assert h == g || Hosts(s, h, x);
          }
        }
        forall x | x in s'.index ensures Hosts(s', s'.index[x], x) {
          if x != c.id {
            assert Hosts(s, s.index[x], x);
          }
        }
      }
    }
  }

  lemma RemoveChannelCoherentIff(s: State, g: nat, c: nat)
    requires Coherent(s)
    ensures Coherent(Written(s, RemoveChannel(g, c))) <==> !Clashes(s, RemoveChannel(g, c))
  {
    var s' := Written(s, RemoveChannel(g, c));
    if h :| h != g && Hosts(s, h, c) {
      assert Hosts(s', h, c) && c !in s'.index;
    } else {
      forall h, x | Hosts(s', h, x) ensures x in s'.index && s'.index[x] == h {
        assert Hosts(s, h, x);
      }
      forall x | x in s'.index ensures Hosts(s', s'.index[x], x) {
        assert Hosts(s, s.index[x], x);
      }
    }
  }

  lemma RemoveGuildCoherent(s: State, g: nat)
    requires Coherent(s)
    ensures Coherent(Written(s, RemoveGuild(g)))
  {
    var s' := Written(s, RemoveGuild(g));
    forall h, x | Hosts(s', h, x) ensures x in s'.index && s'.index[x] == h {
      assert Hosts(s, h, x);
    }
  }

  /** Writes that touch neither the channels nor the id of any guild. */
  lemma SameChannelsCoherent(s: State, s': State)
    requires Coherent(s) && s'.index == s.index && s'.guilds.Keys == s.guilds.Keys
    requires forall g :: g in s.guilds ==>
               s'.guilds[g].channels == s.guilds[g].channels && s'.guilds[g].id == s.guilds[g].id
    ensures Coherent(s')
  {
    forall g, c ensures Hosts(s', g, c) <==> Hosts(s, g, c) {
    }
  }

  lemma WriteCoherentIff(s: State, w: Write)
    requires Coherent(s)
    ensures Coherent(Written(s, w)) <==> !Clashes(s, w)
  {
    match w {
      case ReplaceGuild(data) => ReplaceCoherentIff(s, data);
      case RemoveGuild(g) => RemoveGuildCoherent(s, g);
      case UpsertChannel(g, c) => UpsertChannelCoherentIff(s, g, c);
      case RemoveChannel(g, c) => RemoveChannelCoherentIff(s, g, c);
      case _ => SameChannelsCoherent(s, Written(s, w));
    }
  }

  /** A run of writes, each about channels no other guild holds. */
  ghost predicate CleanRun(s: State, ws: seq<Write>)
    decreases |ws|
  {
    ws == [] || (!Clashes(s, ws[0]) && CleanRun(Written(s, ws[0]), ws[1..]))
  }

  function WrittenAll(s: State, ws: seq<Write>): State
    decreases |ws|
  {
    if ws == [] then s else WrittenAll(Written(s, ws[0]), ws[1..])
  }

  /** Index refines scan. After any clean run of writes the indexed lookups answer
      as a search of every guild would: with the guild that holds the channel, if
      there is one, and with nothing otherwise. */
  lemma {:induction false} IndexAnswersAsScan(s: State, ws: seq<Write>, u: nat, c: nat)
    requires Coherent(s) && CleanRun(s, ws)
    ensures var s' := WrittenAll(s, ws);
            && Coherent(s')
            && (forall g :: Hosts(s', g, c) ==>
                  && PermissionsOf(s', u, c) == In(s'.guilds[g], u, c)
                  && ChannelInfo(s', c) == Some((g, s'.guilds[g].channels[c].name)))
            && ((forall g :: !Hosts(s', g, c)) ==> PermissionsOf(s', u, c) == None && ChannelInfo(s', c) == None)
    decreases |ws|
  {
    if ws != [] {
      WriteCoherentIff(s, ws[0]);
      IndexAnswersAsScan(Written(s, ws[0]), ws[1..], u, c);
    }
  }

  // ---------------------------------------------------------------------------
  // The replica object
  // ---------------------------------------------------------------------------

  class DiscordReplica {
    var guilds: map<nat, GuildData>
    var index: map<nat, nat>

    function Value(): State
      reads this
    {
      State(guilds, index)
    }

    constructor ()
      ensures Value() == State(map[], map[])
    {
      guilds, index := map[], map[];
    }

    method PutGuild(data: GuildData)
      modifies this
      ensures Value() == Written(old(Value()), ReplaceGuild(data))
    {
      index := map c | c in index && index[c] != data.id :: index[c];
      index := IndexAll(index, data.channels.Keys, data.id);
      guilds := guilds[data.id := data];
    }

    method TakeGuild(g: nat)
      modifies this
      ensures Value() == Written(old(Value()), RemoveGuild(g))
    {
      index := map c | c in index && index[c] != g :: index[c];
      guilds := guilds - {g};
    }

    method PutMember(g: nat, u: nat, roleIds: seq<nat>)
      modifies this
      ensures Value() == Written(old(Value()), UpsertMember(g, u, roleIds))
    {
      if g in guilds {
        guilds := guilds[g := guilds[g].(members := guilds[g].members[u := roleIds])];
      }
    }

    method TakeMember(g: nat, u: nat)
      modifies this
      ensures Value() == Written(old(Value()), RemoveMember(g, u))
    {
      if g in guilds {
        guilds := guilds[g := guilds[g].(members := guilds[g].members - {u})];
      }
    }

    method PutRoleOf(g: nat, role: Role)
      modifies this
      ensures Value() == Written(old(Value()), UpsertRole(g, role))
    {
      if g in guilds {
        var roles := Upsert(guilds[g].roles, role);
        guilds := guilds[g := guilds[g].(roles := roles)];
      }
    }

    method TakeRole(g: nat, id: nat)
      modifies this
      ensures Value() == Written(old(Value()), RemoveRole(g, id))
    {
      if g in guilds {
        var members := map u | u in guilds[g].members :: DropId(guilds[g].members[u], id);
        guilds := guilds[g := guilds[g].(roles := DropRole(guilds[g].roles, id), members := members)];
      }
    }

    method PutChannel(g: nat, c: Channel)
      modifies this
      ensures Value() == Written(old(Value()), UpsertChannel(g, c))
    {
      if g !in guilds {
        return;
      }
      index := index[c.id := g];
      guilds := guilds[g := guilds[g].(channels := guilds[g].channels[c.id := c])];
    }

    method TakeChannel(g: nat, c: nat)
      modifies this
      ensures Value() == Written(old(Value()), RemoveChannel(g, c))
    {
      index := index - {c};
      if g in guilds {
        guilds := guilds[g := guilds[g].(channels := guilds[g].channels - {c})];
      }
    }
  }

  method IndexAll(index: map<nat, nat>, channels: set<nat>, g: nat) returns (out: map<nat, nat>)
    ensures out == index + map c | c in channels :: g
  {
    out := index;
    var todo := channels;
    while todo != {}
      invariant todo <= channels
      invariant forall c :: c in out <==> c in index || c in channels - todo
      invariant forall c :: c in out ==> out[c] == if c in channels - todo then g else index[c]
      decreases |todo|
    {
      var c :| c in todo;
      out := out[c := g];
      todo := todo - {c};
    }
  }

  lemma PutFurther(roles: seq<Role>, role: Role, i: nat)
    requires i < |roles| && roles[i].id != role.id
    ensures roles[..i] + PutRole(roles[i..], role) == roles[..i + 1] + PutRole(roles[i + 1..], role)
  {
    assert roles[i..][1..] == roles[i + 1..] && roles[..i + 1] == roles[..i] + [roles[i]];
  }

  lemma PutHere(roles: seq<Role>, role: Role, i: nat)
    requires i < |roles| && roles[i].id == role.id
    ensures roles[..i] + PutRole(roles[i..], role) == roles[i := role]
  {
    assert roles[i..][1..] == roles[i + 1..];
    assert roles[i := role] == roles[..i] + ([role] + roles[i + 1..]);
  }

  /** Find the role and overwrite it in place, or push it. */
  method Upsert(roles: seq<Role>, role: Role) returns (out: seq<Role>)
    ensures out == PutRole(roles, role)
  {
    var i := 0;
    while i < |roles| && roles[i].id != role.id
      invariant 0 <= i <= |roles|
      invariant PutRole(roles, role) == roles[..i] + PutRole(roles[i..], role)
    {
      PutFurther(roles, role, i);
      i := i + 1;
    }
    if i < |roles| {
      PutHere(roles, role, i);
      out := roles[i := role];
    } else {
      out := roles + [role];
    }
  }
}
