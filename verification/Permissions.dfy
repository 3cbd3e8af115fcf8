/** Discord's channel permission algorithm (Discord developer documentation,
    "Permissions", overwrite resolution).

    A 64-bit mask is modelled as the set of its one-bits: `|` is union, `& !` is
    difference, and the all-ones mask is the set of all 64. */
module Permissions {
  import opened Protocol

  newtype Bit = b: int | 0 <= b < 64

  type Mask = set<Bit>

  const ALL: Mask := set b: Bit | 0 <= b <= 63
  const ADMINISTRATOR: Bit := 3
  const STREAM: Bit := 9
  const VIEW_CHANNEL: Bit := 10
  const CONNECT: Bit := 20

  datatype Role = Role(id: nat, permissions: Mask)

  datatype OverwriteKind = ForRole | ForMember

  datatype Overwrite = Overwrite(target: nat, kind: OverwriteKind, allow: Mask, deny: Mask)

  datatype Guild = Guild(id: nat, owner: nat, roles: seq<Role>)

  datatype Member = Member(user: nat, roleIds: seq<nat>)

  predicate CanView(m: Mask) {
    VIEW_CHANNEL in m
  }

  predicate CanJoinRoom(m: Mask) {
    CanView(m) && CONNECT in m
  }

  predicate CanPublish(m: Mask) {
    CanJoinRoom(m) && STREAM in m
  }

  // ---------------------------------------------------------------------------
  // The algorithm
  // ---------------------------------------------------------------------------

  /** Permissions of the first role with an id, or none. */
  function RoleMask(roles: seq<Role>, id: nat): Mask {
    if roles == [] then {}
    else if roles[0].id == id then roles[0].permissions
    else RoleMask(roles[1..], id)
  }

  function UnionOfRoles(roles: seq<Role>, ids: seq<nat>): Mask {
    if ids == [] then {} else RoleMask(roles, ids[0]) + UnionOfRoles(roles, ids[1..])
  }

  function Base(guild: Guild, member: Member): Mask {
    RoleMask(guild.roles, guild.id) + UnionOfRoles(guild.roles, member.roleIds)
  }

  /** The first overwrite for a target, or none. */
  function FindOverwrite(ows: seq<Overwrite>, kind: OverwriteKind, target: nat): Option<Overwrite> {
    if ows == [] then None
    else if ows[0].kind == kind && ows[0].target == target then Some(ows[0])
    else FindOverwrite(ows[1..], kind, target)
  }

  /** Whether an overwrite is for one of the member's own roles, @everyone apart. */
  predicate Counts(o: Overwrite, guild: Guild, member: Member) {
    o.kind.ForRole? && o.target != guild.id && o.target in member.roleIds
  }

  function RoleAllow(ows: seq<Overwrite>, guild: Guild, member: Member): Mask {
    if ows == [] then {}
    else (if Counts(ows[0], guild, member) then ows[0].allow else {}) + RoleAllow(ows[1..], guild, member)
  }

  function RoleDeny(ows: seq<Overwrite>, guild: Guild, member: Member): Mask {
    if ows == [] then {}
    else (if Counts(ows[0], guild, member) then ows[0].deny else {}) + RoleDeny(ows[1..], guild, member)
  }

  function Override(base: Mask, o: Option<Overwrite>): Mask {
    if o.Some? then (base - o.value.deny) + o.value.allow else base
  }

  function Resolve(guild: Guild, member: Member, ows: seq<Overwrite>): Mask {
    if member.user == guild.owner then ALL
    else
      var base := Base(guild, member);
      if ADMINISTRATOR in base then ALL
      else
        var everyone := Override(base, FindOverwrite(ows, ForRole, guild.id));
        var roles := (everyone - RoleDeny(ows, guild, member)) + RoleAllow(ows, guild, member);
        Override(roles, FindOverwrite(ows, ForMember, member.user))
  }

  /** The loops of the source: accumulate, then apply. */
  method ResolvePermissions(guild: Guild, member: Member, ows: seq<Overwrite>) returns (m: Mask)
    ensures m == Resolve(guild, member, ows)
  {
    if member.user == guild.owner {
      return ALL;
    }
    var base := AccumulateBase(guild, member);
    if ADMINISTRATOR in base {
      return ALL;
    }
    base := Override(base, FindOverwrite(ows, ForRole, guild.id));
    var allow, deny := AccumulateRoles(guild, member, ows);
    base := (base - deny) + allow;
    return Override(base, FindOverwrite(ows, ForMember, member.user));
  }

  method AccumulateBase(guild: Guild, member: Member) returns (base: Mask)
    ensures base == Base(guild, member)
  {
    base := RoleMask(guild.roles, guild.id);
    var ids := member.roleIds;
    var i := 0;
    while i < |ids|
      invariant 0 <= i <= |ids|
      invariant base + UnionOfRoles(guild.roles, ids[i..]) == Base(guild, member)
    {
      ghost var rest := ids[i..];
      assert rest[1..] == ids[i + 1..];
      base := base + RoleMask(guild.roles, ids[i]);
      i := i + 1;
    }
  }

  method AccumulateRoles(guild: Guild, member: Member, ows: seq<Overwrite>) returns (allow: Mask, deny: Mask)
    ensures allow == RoleAllow(ows, guild, member) && deny == RoleDeny(ows, guild, member)
  {
    allow, deny := {}, {};
    var i := 0;
    while i < |ows|
      invariant 0 <= i <= |ows|
      invariant allow + RoleAllow(ows[i..], guild, member) == RoleAllow(ows, guild, member)
      invariant deny + RoleDeny(ows[i..], guild, member) == RoleDeny(ows, guild, member)
    {
      ghost var rest := ows[i..];
      assert rest[1..] == ows[i + 1..];
      if Counts(ows[i], guild, member) {
        allow := allow + ows[i].allow;
        deny := deny + ows[i].deny;
      }
      i := i + 1;
    }
  }

  // ---------------------------------------------------------------------------
  // What the result means
  // ---------------------------------------------------------------------------

  /** @everyone or one of the member's roles grants the bit in the guild. */
  ghost predicate GrantedByRoles(guild: Guild, member: Member, b: Bit) {
    || b in RoleMask(guild.roles, guild.id)
    || exists id :: id in member.roleIds && b in RoleMask(guild.roles, id)
  }

  /** An overwrite for some role the member lists, @everyone's own apart, allows the
      bit. */
  ghost predicate AllowedByRole(ows: seq<Overwrite>, guild: Guild, member: Member, b: Bit) {
    exists o, id :: o in ows && id in member.roleIds && id != guild.id
                    && o.kind == ForRole && o.target == id && b in o.allow
  }

  ghost predicate DeniedByRole(ows: seq<Overwrite>, guild: Guild, member: Member, b: Bit) {
    exists o, id :: o in ows && id in member.roleIds && id != guild.id
                    && o.kind == ForRole && o.target == id && b in o.deny
  }

  /** One layer: its allow wins, then its deny, then whatever is below. */
  predicate Layer(allow: bool, deny: bool, below: bool) {
    allow || (!deny && below)
  }

  predicate OverwriteLayer(o: Option<Overwrite>, b: Bit, below: bool) {
    if o.Some? then Layer(b in o.value.allow, b in o.value.deny, below) else below
  }

  /** Discord's layered rule for one bit: the member's overwrite over the roles'
      overwrites over everyone's overwrite over what the roles grant. */
  ghost predicate Rule(guild: Guild, member: Member, ows: seq<Overwrite>, b: Bit) {
    var everyone := OverwriteLayer(FindOverwrite(ows, ForRole, guild.id), b, GrantedByRoles(guild, member, b));
    var roles := Layer(AllowedByRole(ows, guild, member, b), DeniedByRole(ows, guild, member, b), everyone);
    OverwriteLayer(FindOverwrite(ows, ForMember, member.user), b, roles)
  }

  lemma {:induction false} UnionHas(roles: seq<Role>, ids: seq<nat>, b: Bit)
    ensures b in UnionOfRoles(roles, ids) <==> exists id :: id in ids && b in RoleMask(roles, id)
  {
    if ids != [] {
      UnionHas(roles, ids[1..], b);
      if b in UnionOfRoles(roles, ids[1..]) {
        var id :| id in ids[1..] && b in RoleMask(roles, id);
        assert id in ids;
      }
      assert ids[0] in ids;
      assert forall id :: id in ids ==> id == ids[0] || id in ids[1..];
    }
  }

  lemma {:induction false} RoleOverwritesHave(ows: seq<Overwrite>, guild: Guild, member: Member, b: Bit)
    ensures b in RoleAllow(ows, guild, member) <==> AllowedByRole(ows, guild, member, b)
    ensures b in RoleDeny(ows, guild, member) <==> DeniedByRole(ows, guild, member, b)
  {
    if ows != [] {
      RoleOverwritesHave(ows[1..], guild, member, b);
      assert forall o :: o in ows <==> o == ows[0] || o in ows[1..];
    }
  }

  /** Owner and administrators bypass every layer. */
  ghost predicate Bypasses(guild: Guild, member: Member) {
    member.user == guild.owner || GrantedByRoles(guild, member, 3)
  }

  /** Permission meaning: everything for the owner and for administrators; for
      anybody else every bit follows the layered rule. */
  lemma ResolveMeans(guild: Guild, member: Member, ows: seq<Overwrite>, b: Bit)
    ensures if Bypasses(guild, member) then Resolve(guild, member, ows) == ALL
            else b in Resolve(guild, member, ows) <==> Rule(guild, member, ows, b)
  {
    UnionHas(guild.roles, member.roleIds, ADMINISTRATOR);
    UnionHas(guild.roles, member.roleIds, b);
    RoleOverwritesHave(ows, guild, member, b);
  }

  // ---------------------------------------------------------------------------
  // Order does not matter
  // ---------------------------------------------------------------------------

  predicate SameElements<T(==)>(a: seq<T>, b: seq<T>) {
    (forall x :: x in a ==> x in b) && (forall x :: x in b ==> x in a)
  }

  predicate DistinctRoles(roles: seq<Role>) {
    forall i, j :: 0 <= i < j < |roles| ==> roles[i].id != roles[j].id
  }

  predicate DistinctOverwrites(ows: seq<Overwrite>) {
    forall i, j :: 0 <= i < j < |ows| ==> ows[i].kind != ows[j].kind || ows[i].target != ows[j].target
  }

  lemma {:induction false} RoleMaskOf(roles: seq<Role>, r: Role)
    requires DistinctRoles(roles) && r in roles
    ensures RoleMask(roles, r.id) == r.permissions
  {
    if roles[0] != r {
      var k :| 0 <= k < |roles| && roles[k] == r;
      RoleMaskOf(roles[1..], r);
    }
  }

  lemma {:induction false} RoleMaskMissing(roles: seq<Role>, id: nat)
    requires forall i :: 0 <= i < |roles| ==> roles[i].id != id
    ensures RoleMask(roles, id) == {}
  {
    if roles != [] {
      RoleMaskMissing(roles[1..], id);
    }
  }

  lemma RoleMaskOrder(a: seq<Role>, b: seq<Role>, id: nat)
    requires DistinctRoles(a) && DistinctRoles(b) && SameElements(a, b)
    ensures RoleMask(a, id) == RoleMask(b, id)
  {
    if i :| 0 <= i < |a| && a[i].id == id {
      RoleMaskOf(a, a[i]);
      RoleMaskOf(b, a[i]);
    } else {
      RoleMaskMissing(a, id);
      forall i | 0 <= i < |b| ensures b[i].id != id {
        assert b[i] in a;
      }
      RoleMaskMissing(b, id);
    }
  }

  lemma {:induction false} FindOverwriteOf(ows: seq<Overwrite>, o: Overwrite)
    requires DistinctOverwrites(ows) && o in ows
    ensures FindOverwrite(ows, o.kind, o.target) == Some(o)
  {
    if ows[0] != o {
      var k :| 0 <= k < |ows| && ows[k] == o;
      FindOverwriteOf(ows[1..], o);
    }
  }

  lemma {:induction false} FindOverwriteMissing(ows: seq<Overwrite>, kind: OverwriteKind, target: nat)
    requires forall i :: 0 <= i < |ows| ==> ows[i].kind != kind || ows[i].target != target
    ensures FindOverwrite(ows, kind, target) == None
  {
    if ows != [] {
      FindOverwriteMissing(ows[1..], kind, target);
    }
  }

  lemma FindOverwriteOrder(a: seq<Overwrite>, b: seq<Overwrite>, kind: OverwriteKind, target: nat)
    requires DistinctOverwrites(a) && DistinctOverwrites(b) && SameElements(a, b)
    ensures FindOverwrite(a, kind, target) == FindOverwrite(b, kind, target)
  {
    if i :| 0 <= i < |a| && a[i].kind == kind && a[i].target == target {
      FindOverwriteOf(a, a[i]);
      FindOverwriteOf(b, a[i]);
    } else {
      FindOverwriteMissing(a, kind, target);
      forall i | 0 <= i < |b| ensures b[i].kind != kind || b[i].target != target {
        assert b[i] in a;
      }
      FindOverwriteMissing(b, kind, target);
    }
  }

  /** The same roles, overwrites and role list in any order, repeats in the role
      list included, give the same permissions. */
  lemma ResolveIgnoresOrder(
    guild: Guild, roles: seq<Role>, member: Member, roleIds: seq<nat>, a: seq<Overwrite>, b: seq<Overwrite>)
    requires DistinctRoles(guild.roles) && DistinctRoles(roles) && SameElements(guild.roles, roles)
    requires DistinctOverwrites(a) && DistinctOverwrites(b) && SameElements(a, b)
    requires SameElements(member.roleIds, roleIds)
    ensures Resolve(guild, member, a) == Resolve(guild.(roles := roles), member.(roleIds := roleIds), b)
  {
    var guild', member' := guild.(roles := roles), member.(roleIds := roleIds);
    forall id ensures RoleMask(guild.roles, id) == RoleMask(roles, id) {
      RoleMaskOrder(guild.roles, roles, id);
    }
    FindOverwriteOrder(a, b, ForRole, guild.id);
    FindOverwriteOrder(a, b, ForMember, member.user);
    assert forall o :: Counts(o, guild, member) <==> Counts(o, guild', member');
    forall bit: Bit ensures bit in Resolve(guild, member, a) <==> bit in Resolve(guild', member', b) {
      ResolveMeans(guild, member, a, bit);
      ResolveMeans(guild', member', b, bit);
      assert GrantedByRoles(guild, member, ADMINISTRATOR) <==> GrantedByRoles(guild', member', ADMINISTRATOR);
      assert GrantedByRoles(guild, member, bit) <==> GrantedByRoles(guild', member', bit);
    }
  }

  // ---------------------------------------------------------------------------
  // More permissions never take any away
  // ---------------------------------------------------------------------------

  /** A guild whose roles grant at least as much, role by role. */
  ghost predicate Extends(guild: Guild, guild': Guild) {
    && guild'.id == guild.id && guild'.owner == guild.owner
    && forall id :: RoleMask(guild.roles, id) <= RoleMask(guild'.roles, id)
  }

  lemma GrantsExtend(guild: Guild, guild': Guild, member: Member, b: Bit)
    requires Extends(guild, guild') && GrantedByRoles(guild, member, b)
    ensures GrantedByRoles(guild', member, b)
  {
    if b in RoleMask(guild.roles, guild.id) {
      assert RoleMask(guild.roles, guild.id) <= RoleMask(guild'.roles, guild.id);
    } else {
      var id :| id in member.roleIds && b in RoleMask(guild.roles, id);
      assert RoleMask(guild.roles, id) <= RoleMask(guild'.roles, id);
    }
  }

  /** Monotonicity: granting more to roles never removes a resolved bit from
      anybody in any channel, also when it turns them into an administrator. */
  lemma MoreRolesNeverRevoke(guild: Guild, guild': Guild, member: Member, ows: seq<Overwrite>)
    requires Extends(guild, guild')
    ensures Resolve(guild, member, ows) <= Resolve(guild', member, ows)
  {
    forall b: Bit | b in Resolve(guild, member, ows) ensures b in Resolve(guild', member, ows) {
      ResolveMeans(guild, member, ows, b);
      ResolveMeans(guild', member, ows, b);
      if GrantedByRoles(guild, member, ADMINISTRATOR) {
        GrantsExtend(guild, guild', member, ADMINISTRATOR);
      }
      if GrantedByRoles(guild, member, b) {
        GrantsExtend(guild, guild', member, b);
      }
      assert forall o :: Counts(o, guild, member) <==> Counts(o, guild', member);
    }
  }

  /** So nobody loses a right in any channel: to see it, to join its room, to publish
      there. */
  lemma RightsOnlyGrow(guild: Guild, guild': Guild, member: Member, ows: seq<Overwrite>)
    requires Extends(guild, guild')
    ensures CanView(Resolve(guild, member, ows)) ==> CanView(Resolve(guild', member, ows))
    ensures CanJoinRoom(Resolve(guild, member, ows)) ==> CanJoinRoom(Resolve(guild', member, ows))
    ensures CanPublish(Resolve(guild, member, ows)) ==> CanPublish(Resolve(guild', member, ows))
  {
    MoreRolesNeverRevoke(guild, guild', member, ows);
  }

  /** Who may see the channel, and who may be in its room: Discord's bits 10 and 20, and no
      third one. */
  lemma CanJoinRoomIff(guild: Guild, member: Member, ows: seq<Overwrite>)
    ensures CanView(Resolve(guild, member, ows)) <==> Bypasses(guild, member) || Rule(guild, member, ows, 10)
    ensures CanJoinRoom(Resolve(guild, member, ows)) <==>
            Bypasses(guild, member) || (Rule(guild, member, ows, 10) && Rule(guild, member, ows, 20))
  {
    ResolveMeans(guild, member, ows, VIEW_CHANNEL);
    ResolveMeans(guild, member, ows, CONNECT);
  }

  /** Who may publish: the layered rule for each of the three bits, the third being 9, or
      a bypass. */
  lemma CanPublishIff(guild: Guild, member: Member, ows: seq<Overwrite>)
    ensures CanPublish(Resolve(guild, member, ows)) <==>
            || Bypasses(guild, member)
            || (Rule(guild, member, ows, 10) && Rule(guild, member, ows, 20) && Rule(guild, member, ows, 9))
  {
    ResolveMeans(guild, member, ows, VIEW_CHANNEL);
    ResolveMeans(guild, member, ows, CONNECT);
    ResolveMeans(guild, member, ows, STREAM);
  }

  /** Writing a role over the first of its id, or at the end when it is new. */
  function PutRole(roles: seq<Role>, r: Role): seq<Role> {
    if roles == [] then [r]
    else if roles[0].id == r.id then [r] + roles[1..]
    else [roles[0]] + PutRole(roles[1..], r)
  }

  lemma {:induction false} PutRoleMask(roles: seq<Role>, r: Role, id: nat)
    ensures RoleMask(PutRole(roles, r), id) == if id == r.id then r.permissions else RoleMask(roles, id)
  {
    if roles == [] {
      assert [r][1..] == [];
    } else if roles[0].id != r.id {
      PutRoleMask(roles[1..], r, id);
      assert PutRole(roles, r)[1..] == PutRole(roles[1..], r);
    } else {
      assert PutRole(roles, r)[1..] == roles[1..];
    }
  }

  /** Writing a role extends the guild exactly when the role keeps every bit it
      had; a new id had none. */
  lemma PutRoleExtendsIff(guild: Guild, r: Role)
    ensures Extends(guild, guild.(roles := PutRole(guild.roles, r)))
       <==> RoleMask(guild.roles, r.id) <= r.permissions
  {
    forall id ensures RoleMask(PutRole(guild.roles, r), id)
                   == if id == r.id then r.permissions else RoleMask(guild.roles, id) {
      PutRoleMask(guild.roles, r, id);
    }
    var guild' := guild.(roles := PutRole(guild.roles, r));
    if Extends(guild, guild') {
      assert RoleMask(guild.roles, r.id) <= RoleMask(guild'.roles, r.id);
    }
  }
}
