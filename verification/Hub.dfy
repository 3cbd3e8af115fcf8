/** The session registry: two maps that must agree, a connection limit that drops
    the oldest, and a sweep of sessions whose socket has been gone too long. */
module Hubs {
  import opened Basics
  import opened Protocol

  datatype Entry = Entry(user: UserId, connected: bool, disconnectedAt: Option<Timestamp>)

  /** Sessions by id, and each user's session ids, oldest first. */
  datatype Registry = Registry(sessions: map<SessionId, Entry>, byUser: map<UserId, seq<SessionId>>)

  const EMPTY := Registry(map[], map[])

  function Owned(r: Registry, u: UserId): seq<SessionId> {
    if u in r.byUser then r.byUser[u] else []
  }

  function Retain(ids: seq<SessionId>, gone: set<SessionId>): seq<SessionId> {
    if ids == [] then []
    else (if ids[0] in gone then [] else [ids[0]]) + Retain(ids[1..], gone)
  }

  /** How many of a user's oldest sessions a new one pushes out. */
  function Excess(r: Registry, limit: nat, u: UserId): (n: nat)
    ensures n <= |Owned(r, u)| + 1
  {
    if |Owned(r, u)| + 1 > limit then |Owned(r, u)| + 1 - limit else 0
  }

  function Attached(r: Registry, limit: nat, id: SessionId, u: UserId): Registry {
    var owned := Owned(r, u) + [id];
    var n := Excess(r, limit, u);
    Registry((r.sessions - Elements(owned[..n]))[id := Entry(u, true, None)], r.byUser[u := owned[n..]])
  }

  /** The registry without some sessions; a user left with none goes too. */
  function Dropped(r: Registry, gone: set<SessionId>): Registry {
    Registry(r.sessions - gone,
             map u | u in r.byUser && Retain(r.byUser[u], gone) != [] :: Retain(r.byUser[u], gone))
  }

  /** Forgetting one session touches its own user's list only, whatever the others
      hold. */
  function Forgotten(r: Registry, id: SessionId): Registry {
    if id !in r.sessions then r
    else
      var u := r.sessions[id].user;
      var left := Retain(Owned(r, u), {id});
      Registry(r.sessions - {id},
               if u !in r.byUser then r.byUser else if left == [] then r.byUser - {u} else r.byUser[u := left])
  }

  /** Forgetting several: every user who loses a session is left with the others, or
      without a list when there are none. */
  function Swept(r: Registry, gone: set<SessionId>): Registry {
    Registry(r.sessions - gone,
             map u | u in r.byUser && (LosesNothing(r, gone, u) || Left(r, gone, u) != []) :: Left(r, gone, u))
  }

  predicate LosesNothing(r: Registry, gone: set<SessionId>, u: UserId) {
    Mine(r, u) * gone == {}
  }

  function Left(r: Registry, gone: set<SessionId>, u: UserId): seq<SessionId> {
    Retain(Owned(r, u), Mine(r, u) * gone)
  }

  function Expired(r: Registry, cutoff: Timestamp): set<SessionId> {
    set id | id in r.sessions && !r.sessions[id].connected
             && r.sessions[id].disconnectedAt.Some? && r.sessions[id].disconnectedAt.value <= cutoff
  }

  /** The registered sessions of one user. */
  function Mine(r: Registry, u: UserId): set<SessionId> {
    set id | id in r.sessions && r.sessions[id].user == u
  }

  ghost predicate ListsOk(r: Registry, limit: nat) {
    forall u :: u in r.byUser ==> r.byUser[u] != [] && NoDup(r.byUser[u]) && |r.byUser[u]| <= limit
  }

  /** The per-user lists partition the session map: each holds, once each, exactly
      the user's sessions. */
  ghost predicate Coherent(r: Registry, limit: nat) {
    && ListsOk(r, limit)
    && forall u :: Elements(Owned(r, u)) == Mine(r, u)
  }

  lemma {:induction false} RetainLaw(ids: seq<SessionId>, gone: set<SessionId>)
    ensures Elements(Retain(ids, gone)) == Elements(ids) - gone
    ensures |Retain(ids, gone)| <= |ids|
    ensures NoDup(ids) ==> NoDup(Retain(ids, gone))
  {
    if ids != [] {
      var rest := Retain(ids[1..], gone);
      RetainLaw(ids[1..], gone);
      assert Elements(ids) == {ids[0]} + Elements(ids[1..]);
      if ids[0] in gone {
        assert Retain(ids, gone) == rest;
      } else {
        assert Elements([ids[0]] + rest) == {ids[0]} + Elements(rest);
        if NoDup(ids) {
          assert forall i :: 0 <= i < |rest| ==> rest[i] in Elements(rest);
          assert ids[0] !in Elements(ids[1..]);
        }
      }
    }
  }

  lemma {:induction false} RetainTwice(ids: seq<SessionId>, a: set<SessionId>, b: set<SessionId>)
    ensures Retain(Retain(ids, a), b) == Retain(ids, a + b)
  {
    if ids != [] {
      RetainTwice(ids[1..], a, b);
      var rest := Retain(ids[1..], a);
      if ids[0] in a {
        assert Retain(ids, a) == rest;
      } else {
        assert Retain(ids, a) == [ids[0]] + rest;
        assert ([ids[0]] + rest)[1..] == rest;
      }
    }
  }

  lemma {:induction false} RetainAll(ids: seq<SessionId>, gone: set<SessionId>)
    requires forall id :: id in ids ==> id !in gone
    ensures Retain(ids, gone) == ids
  {
    if ids != [] {
      RetainAll(ids[1..], gone);
    }
  }

  lemma RetainTail(ids: seq<SessionId>)
    requires NoDup(ids) && ids != []
    ensures Retain(ids, {ids[0]}) == ids[1..]
  {
    RetainAll(ids[1..], {ids[0]});
  }

  // ---------------------------------------------------------------------------
  // Attach
  // ---------------------------------------------------------------------------

  /** The sessions a new one pushes out: the user's oldest, at the limit. */
  function PushedOut(r: Registry, limit: nat, u: UserId): set<SessionId> {
    if |Owned(r, u)| == limit && Owned(r, u) != [] then {Owned(r, u)[0]} else {}
  }

  lemma AttachShape(r: Registry, limit: nat, id: SessionId, u: UserId)
    requires Coherent(r, limit) && limit >= 1
    ensures var r', owned := Attached(r, limit, id, u), Owned(r, u);
            && r'.sessions == (r.sessions - PushedOut(r, limit, u))[id := Entry(u, true, None)]
            && r'.byUser == r.byUser[u := (if |owned| == limit then owned[1..] else owned) + [id]]
  {
    var owned := Owned(r, u);
    var all, n := owned + [id], Excess(r, limit, u);
    assert |owned| <= limit;
    if |owned| == limit {
      assert n == 1 && all[..1] == [owned[0]] && all[1..] == owned[1..] + [id];
    } else {
      assert n == 0 && all[0..] == all;
    }
    assert Elements(all[..n]) == PushedOut(r, limit, u);
  }

  lemma PushedOutIsMine(r: Registry, limit: nat, u: UserId)
    requires Coherent(r, limit)
    ensures PushedOut(r, limit, u) <= Mine(r, u)
    ensures limit >= 1 && |Owned(r, u)| == limit ==>
              Elements(Owned(r, u)[1..]) == Elements(Owned(r, u)) - PushedOut(r, limit, u)
  {
    var owned := Owned(r, u);
    assert Elements(owned) == Mine(r, u);
    if owned != [] {
      assert owned[0] in Elements(owned);
      assert NoDup(owned);
      assert Elements(owned) == {owned[0]} + Elements(owned[1..]);
    }
  }

  lemma AttachListsOk(r: Registry, limit: nat, id: SessionId, u: UserId)
    requires Coherent(r, limit) && id !in r.sessions && limit >= 1
    ensures ListsOk(Attached(r, limit, id, u), limit)
  {
    AttachShape(r, limit, id, u);
    assert Elements(Owned(r, u)) == Mine(r, u);
    assert id !in Elements(Owned(r, u));
  }

  lemma AttachPartition(r: Registry, limit: nat, id: SessionId, u: UserId, x: UserId)
    requires Coherent(r, limit) && id !in r.sessions && limit >= 1
    ensures Elements(Owned(Attached(r, limit, id, u), x)) == Mine(Attached(r, limit, id, u), x)
  {
    AttachShape(r, limit, id, u);
    PushedOutIsMine(r, limit, u);
    var r', owned := Attached(r, limit, id, u), Owned(r, u);
    assert Elements(Owned(r, x)) == Mine(r, x);
    if x == u {
      var front := if |owned| == limit then owned[1..] else owned;
      assert Elements(front + [id]) == Elements(front) + {id};
      assert Mine(r', u) == Mine(r, u) - PushedOut(r, limit, u) + {id};
    } else {
      assert Mine(r', x) == Mine(r, x);
    }
  }

  /** With room for at least one, a coherent registry stays coherent and exactly
      the oldest session goes, and only when the user was at the limit. */
  lemma AttachDropsExactlyTheOldest(r: Registry, limit: nat, id: SessionId, u: UserId)
    requires Coherent(r, limit) && id !in r.sessions && limit >= 1
    ensures var r', owned := Attached(r, limit, id, u), Owned(r, u);
            && Coherent(r', limit)
            && r'.sessions.Keys == r.sessions.Keys - PushedOut(r, limit, u) + {id}
            && Owned(r', u) == (if |owned| == limit then owned[1..] else owned) + [id]
            && (forall x :: x != u ==> Owned(r', x) == Owned(r, x))
  {
    AttachShape(r, limit, id, u);
    AttachListsOk(r, limit, id, u);
    forall x ensures Elements(Owned(Attached(r, limit, id, u), x)) == Mine(Attached(r, limit, id, u), x) {
      AttachPartition(r, limit, id, u, x);
    }
  }

  /** With a limit of zero the new session is dropped from its user's list and
      inserted in the session map all the same. */
  lemma AttachCoherentIff(r: Registry, limit: nat, id: SessionId, u: UserId)
    requires Coherent(r, limit) && id !in r.sessions
    ensures Coherent(Attached(r, limit, id, u), limit) <==> limit >= 1
  {
    if limit >= 1 {
      AttachDropsExactlyTheOldest(r, limit, id, u);
    } else {
      assert Attached(r, limit, id, u).byUser[u] == [];
    }
  }

  // ---------------------------------------------------------------------------
  // Forget and sweep
  // ---------------------------------------------------------------------------

  lemma DropOwned(r: Registry, gone: set<SessionId>, u: UserId)
    ensures Owned(Dropped(r, gone), u) == Retain(Owned(r, u), gone)
    ensures Mine(Dropped(r, gone), u) == Mine(r, u) - gone
  {
  }

  /** Dropping any sessions keeps the two maps in agreement. */
  lemma DropKeepsCoherent(r: Registry, limit: nat, gone: set<SessionId>)
    requires Coherent(r, limit)
    ensures Coherent(Dropped(r, gone), limit)
  {
    var r' := Dropped(r, gone);
    forall u ensures Elements(Owned(r', u)) == Mine(r', u) {
      DropOwned(r, gone, u);
      RetainLaw(Owned(r, u), gone);
      assert Elements(Owned(r, u)) == Mine(r, u);
    }
    forall u | u in r'.byUser ensures NoDup(r'.byUser[u]) && |r'.byUser[u]| <= limit {
      RetainLaw(r.byUser[u], gone);
    }
  }

  /** A user has no list left exactly when every session of theirs was dropped. */
  lemma EmptiedIff(r: Registry, limit: nat, gone: set<SessionId>, u: UserId)
    requires Coherent(r, limit) && u in r.byUser
    ensures u !in Dropped(r, gone).byUser <==> Mine(r, u) <= gone
  {
    RetainLaw(r.byUser[u], gone);
    assert Elements(Owned(r, u)) == Mine(r, u);
    var kept := Retain(r.byUser[u], gone);
    if kept != [] {
      assert kept[0] in Elements(kept);
      assert kept[0] in Mine(r, u) && kept[0] !in gone;
    } else {
      forall id | id in Mine(r, u) ensures id in gone {
        assert id in gone + Elements(kept);
      }
    }
  }

  lemma SweepNothing(r: Registry)
    ensures Swept(r, {}) == r
  {
    forall u | u in r.byUser ensures Left(r, {}, u) == r.byUser[u] {
      RetainAll(r.byUser[u], Mine(r, u) * {});
    }
  }

  /** On registries in agreement a sweep drops exactly the sessions. */
  lemma SweepIsDrop(r: Registry, limit: nat, gone: set<SessionId>)
    requires Coherent(r, limit)
    ensures Swept(r, gone) == Dropped(r, gone)
  {
    forall u | u in r.byUser ensures Left(r, gone, u) == Retain(r.byUser[u], gone) {
      assert Elements(Owned(r, u)) == Mine(r, u);
      assert forall id :: id in r.byUser[u] ==> id in Mine(r, u);
      RetainSame(r.byUser[u], Mine(r, u) * gone, gone);
    }
    forall u | u in r.byUser && LosesNothing(r, gone, u) ensures Left(r, gone, u) != [] {
      RetainAll(r.byUser[u], Mine(r, u) * gone);
    }
  }

  lemma NextLeft(r: Registry, gone: set<SessionId>, id: SessionId, x: UserId)
    requires id in r.sessions && id !in gone
    ensures x == r.sessions[id].user ==>
              Left(r, gone + {id}, x) == Retain(Left(r, gone, x), {id}) && !LosesNothing(r, gone + {id}, x)
    ensures x != r.sessions[id].user ==>
              Left(r, gone + {id}, x) == Left(r, gone, x)
              && LosesNothing(r, gone + {id}, x) == LosesNothing(r, gone, x)
  {
    if x == r.sessions[id].user {
      assert Mine(r, x) * (gone + {id}) == Mine(r, x) * gone + {id};
      RetainTwice(Owned(r, x), Mine(r, x) * gone, {id});
      assert id in Mine(r, x) * (gone + {id});
    } else {
      assert Mine(r, x) * (gone + {id}) == Mine(r, x) * gone;
    }
  }

  /** One more session of a sweep. */
  lemma NextSwept(r: Registry, gone: set<SessionId>, id: SessionId)
    requires id in r.sessions && id !in gone
    ensures Forgotten(Swept(r, gone), id) == Swept(r, gone + {id})
  {
    var r1, r2 := Forgotten(Swept(r, gone), id), Swept(r, gone + {id});
    assert r1.sessions == r2.sessions;
    forall x ensures x in r1.byUser <==> x in r2.byUser
             ensures x in r1.byUser ==> r1.byUser[x] == r2.byUser[x] {
      NextLeft(r, gone, id, x);
    }
    assert r1.byUser == r2.byUser;
  }

  // ---------------------------------------------------------------------------
  // Runs
  // ---------------------------------------------------------------------------

  datatype Step =
    | Attach(id: SessionId, user: UserId)
    | Forget(gone: SessionId)
    | Sweep(cutoff: Timestamp)
    | Touch(at: SessionId, connected: bool, when: Option<Timestamp>)   // a socket comes or goes

  /** A session as it was attached. */
  datatype Birth = Birth(id: SessionId, user: UserId)

  predicate Enabled(births: seq<Birth>, step: Step) {
    step.Attach? ==> forall i :: 0 <= i < |births| ==> births[i].id != step.id
  }

  function Apply(r: Registry, limit: nat, step: Step): Registry {
    match step
    case Attach(id, u) => Attached(r, limit, id, u)
    case Forget(id) => Dropped(r, {id})
    case Sweep(cutoff) => Dropped(r, Expired(r, cutoff))
    case Touch(id, connected, when) =>
      if id in r.sessions then r.(sessions := r.sessions[id := Entry(r.sessions[id].user, connected, when)]) else r
  }

  function Record(births: seq<Birth>, step: Step): seq<Birth> {
    if step.Attach? then births + [Birth(step.id, step.user)] else births
  }

  /** One user's sessions in the order they were attached. */
  function BornTo(births: seq<Birth>, u: UserId): seq<SessionId> {
    if births == [] then []
    else (if births[0].user == u then [births[0].id] else []) + BornTo(births[1..], u)
  }

  ghost predicate Runs(r: Registry, limit: nat, births: seq<Birth>, steps: seq<Step>, r': Registry, births': seq<Birth>)
    decreases |steps|
  {
    if steps == [] then r' == r && births' == births
    else Enabled(births, steps[0])
         && Runs(Apply(r, limit, steps[0]), limit, Record(births, steps[0]), steps[1..], r', births')
  }

  /** Each list is the user's attach history less what is no longer registered. */
  ghost predicate InOrder(r: Registry, births: seq<Birth>) {
    && (forall u :: Owned(r, u) == Surviving(births, u, r))
    && (forall id :: id in r.sessions ==> exists i :: 0 <= i < |births| && births[i].id == id)
  }

  lemma {:induction false} BornToAppend(births: seq<Birth>, b: Birth, u: UserId)
    ensures BornTo(births + [b], u) == BornTo(births, u) + if b.user == u then [b.id] else []
  {
    if births == [] {
      assert births + [b] == [b] && [b][1..] == [];
    } else {
      var head := if births[0].user == u then [births[0].id] else [];
      var last := if b.user == u then [b.id] else [];
      assert (births + [b])[1..] == births[1..] + [b];
      BornToAppend(births[1..], b, u);
      assert (head + BornTo(births[1..], u)) + last == head + (BornTo(births[1..], u) + last);
    }
  }

  lemma {:induction false} BornToMember(births: seq<Birth>, u: UserId, id: SessionId)
    requires id in BornTo(births, u)
    ensures exists i :: 0 <= i < |births| && births[i].id == id
  {
    if births[0].user != u || births[0].id != id {
      BornToMember(births[1..], u, id);
      var i :| 0 <= i < |births[1..]| && births[1..][i].id == id;
      assert births[i + 1].id == id;
    }
  }

  /** Only membership in the list decides what is retained. */
  lemma {:induction false} RetainSame(ids: seq<SessionId>, a: set<SessionId>, b: set<SessionId>)
    requires forall id :: id in ids ==> (id in a <==> id in b)
    ensures Retain(ids, a) == Retain(ids, b)
  {
    if ids != [] {
      RetainSame(ids[1..], a, b);
    }
  }

  /** Who is left without sessions by a sweep. */
  lemma SweptOffline(r: Registry, limit: nat, cutoff: Timestamp)
    requires Coherent(r, limit)
    ensures forall u :: u in r.byUser && u !in Dropped(r, Expired(r, cutoff)).byUser <==>
              && u in r.byUser
              && forall id :: id in r.sessions && r.sessions[id].user == u ==>
                   && !r.sessions[id].connected && r.sessions[id].disconnectedAt.Some?
                   && r.sessions[id].disconnectedAt.value <= cutoff
  {
    var gone := Expired(r, cutoff);
    forall u | u in r.byUser
      ensures u !in Dropped(r, gone).byUser <==>
              forall id :: id in r.sessions && r.sessions[id].user == u ==>
                && !r.sessions[id].connected && r.sessions[id].disconnectedAt.Some?
                && r.sessions[id].disconnectedAt.value <= cutoff
    {
      EmptiedIff(r, limit, gone, u);
      if Mine(r, u) <= gone {
        forall id | id in r.sessions && r.sessions[id].user == u ensures id in gone {
          assert id in Mine(r, u);
        }
      }
    }
  }

  lemma {:induction false} RetainAppend(a: seq<SessionId>, b: seq<SessionId>, gone: set<SessionId>)
    ensures Retain(a + b, gone) == Retain(a, gone) + Retain(b, gone)
  {
    if a == [] {
      assert a + b == b;
    } else {
      assert (a + b)[1..] == a[1..] + b;
      RetainAppend(a[1..], b, gone);
    }
  }

  /** The part of a user's attach history that is still registered. */
  function Surviving(births: seq<Birth>, u: UserId, r: Registry): seq<SessionId> {
    Retain(BornTo(births, u), Elements(BornTo(births, u)) - r.sessions.Keys)
  }

  lemma SurvivingAfter(births: seq<Birth>, u: UserId, r: Registry, r': Registry, gone: set<SessionId>)
    requires forall id :: id in BornTo(births, u) ==> (id in r'.sessions <==> id in r.sessions && id !in gone)
    ensures Surviving(births, u, r') == Retain(Surviving(births, u, r), gone)
  {
    var born := BornTo(births, u);
    RetainTwice(born, Elements(born) - r.sessions.Keys, gone);
    RetainSame(born, Elements(born) - r.sessions.Keys + gone, Elements(born) - r'.sessions.Keys);
  }

  lemma DropKeepsOrder(r: Registry, births: seq<Birth>, gone: set<SessionId>)
    requires InOrder(r, births)
    ensures InOrder(Dropped(r, gone), births)
  {
    var r' := Dropped(r, gone);
    forall u ensures Owned(r', u) == Surviving(births, u, r') {
      DropOwned(r, gone, u);
      SurvivingAfter(births, u, r, r', gone);
    }
  }

  lemma AttachOrderOwn(r: Registry, limit: nat, births: seq<Birth>, id: SessionId, u: UserId)
    requires Coherent(r, limit) && limit >= 1 && InOrder(r, births) && Enabled(births, Attach(id, u))
    requires id !in r.sessions
    ensures Owned(Attached(r, limit, id, u), u) == Surviving(births + [Birth(id, u)], u, Attached(r, limit, id, u))
  {
    var r', was := Attached(r, limit, id, u), BornTo(births, u);
    AttachDropsExactlyTheOldest(r, limit, id, u);
    BornToAppend(births, Birth(id, u), u);
    if id in was {
      BornToMember(births, u, id);
    }
    SurvivingAfter(births, u, r, r', PushedOut(r, limit, u));
    RetainPushedOut(r, limit, u);
    var gone := Elements(was + [id]) - r'.sessions.Keys;
    RetainAppend(was, [id], gone);
    RetainAll([id], gone);
    RetainSame(was, gone, Elements(was) - r'.sessions.Keys);
  }

  lemma RetainPushedOut(r: Registry, limit: nat, u: UserId)
    requires Coherent(r, limit) && limit >= 1
    ensures Retain(Owned(r, u), PushedOut(r, limit, u))
         == if |Owned(r, u)| == limit then Owned(r, u)[1..] else Owned(r, u)
  {
    if |Owned(r, u)| == limit {
      RetainTail(Owned(r, u));
    } else {
      RetainAll(Owned(r, u), {});
    }
  }

  lemma OthersUntouched(r: Registry, limit: nat, births: seq<Birth>, id: SessionId, u: UserId, x: UserId)
    requires Coherent(r, limit) && limit >= 1 && InOrder(r, births) && Enabled(births, Attach(id, u))
    requires id !in r.sessions && x != u
    ensures Owned(Attached(r, limit, id, u), x) == Surviving(births + [Birth(id, u)], x, Attached(r, limit, id, u))
  {
    var r', born := Attached(r, limit, id, u), BornTo(births, x);
    AttachDropsExactlyTheOldest(r, limit, id, u);
    BornToAppend(births, Birth(id, u), x);
    assert BornTo(births + [Birth(id, u)], x) == born;
    if id in born {
      BornToMember(births, x, id);
    }
    var out := PushedOut(r, limit, u);
    PushedOutIsMine(r, limit, u);
    SurvivingAfter(births, x, r, r', out);
    assert Elements(Owned(r, x)) == Mine(r, x);
    assert Mine(r, x) * Mine(r, u) == {};
    RetainAll(Owned(r, x), out) by {
      forall s | s in Owned(r, x) ensures s !in out {
        assert s in Elements(Owned(r, x));
      }
    }
  }

  lemma AttachKeepsOrder(r: Registry, limit: nat, births: seq<Birth>, id: SessionId, u: UserId)
    requires Coherent(r, limit) && limit >= 1 && InOrder(r, births) && Enabled(births, Attach(id, u))
    ensures id !in r.sessions
    ensures InOrder(Attached(r, limit, id, u), births + [Birth(id, u)])
  {
    assert id !in r.sessions;
    var r', births' := Attached(r, limit, id, u), births + [Birth(id, u)];
    forall x ensures Owned(r', x) == Surviving(births', x, r') {
      if x == u {
        AttachOrderOwn(r, limit, births, id, u);
      } else {
        OthersUntouched(r, limit, births, id, u, x);
      }
    }
    forall s | s in r'.sessions ensures exists i :: 0 <= i < |births'| && births'[i].id == s {
      if s == id {
        assert births'[|births|].id == id;
      } else {
        var i :| 0 <= i < |births| && births[i].id == s;
        assert births'[i].id == s;
      }
    }
  }

  lemma TouchKeeps(r: Registry, limit: nat, births: seq<Birth>, step: Step)
    requires Coherent(r, limit) && InOrder(r, births) && step.Touch?
    ensures Coherent(Apply(r, limit, step), limit) && InOrder(Apply(r, limit, step), births)
  {
    var r' := Apply(r, limit, step);
    assert r'.sessions.Keys == r.sessions.Keys;
    forall u ensures Owned(r', u) == Owned(r, u) && Mine(r', u) == Mine(r, u)
                     && Surviving(births, u, r') == Surviving(births, u, r) {
    }
  }

  /** Registry coherence over every run of attach, forget and sweep, with sockets
      coming and going in between: the lists partition the sessions, stay within
      the limit, and hold the user's surviving sessions in attach order. */
  lemma {:induction false} RegistryStaysCoherent(
    r: Registry, limit: nat, births: seq<Birth>, steps: seq<Step>, r': Registry, births': seq<Birth>)
    requires limit >= 1 && Coherent(r, limit) && InOrder(r, births) && Runs(r, limit, births, steps, r', births')
    ensures Coherent(r', limit) && InOrder(r', births')
    decreases |steps|
  {
    if steps != [] {
      match steps[0] {
        case Attach(id, u) =>
          AttachKeepsOrder(r, limit, births, id, u);
          AttachDropsExactlyTheOldest(r, limit, id, u);
        case Forget(id) =>
          DropKeepsCoherent(r, limit, {id});
          DropKeepsOrder(r, births, {id});
        case Sweep(cutoff) =>
          DropKeepsCoherent(r, limit, Expired(r, cutoff));
          DropKeepsOrder(r, births, Expired(r, cutoff));
        case Touch(_, _, _) => TouchKeeps(r, limit, births, steps[0]);
      }
      RegistryStaysCoherent(Apply(r, limit, steps[0]), limit, Record(births, steps[0]), steps[1..], r', births');
    }
  }

  /** So it is over every run of a hub that starts empty. */
  lemma EveryRegistryIsCoherent(limit: nat, steps: seq<Step>, r: Registry, births: seq<Birth>)
    requires limit >= 1 && Runs(EMPTY, limit, [], steps, r, births)
    ensures Coherent(r, limit) && InOrder(r, births)
  {
    assert forall u :: Elements(Owned(EMPTY, u)) == Mine(EMPTY, u);
    RegistryStaysCoherent(EMPTY, limit, [], steps, r, births);
  }

  // ---------------------------------------------------------------------------
  // The hub object
  // ---------------------------------------------------------------------------

  class Hub {
    const limit: nat
    const ttl: nat
    var sessions: map<SessionId, Entry>
    var byUser: map<UserId, seq<SessionId>>

    function Value(): Registry
      reads this
    {
      Registry(sessions, byUser)
    }

    constructor (limit: nat, ttl: nat)
      ensures this.limit == limit && this.ttl == ttl && Value() == EMPTY
    {
      this.limit, this.ttl := limit, ttl;
      sessions, byUser := map[], map[];
    }

    /** Publishes a session; `evicted` are the ones told to reconnect and cut. */
    method AttachSession(id: SessionId, u: UserId) returns (evicted: seq<SessionId>)
      modifies this
      ensures Value() == Attached(old(Value()), limit, id, u)
      ensures evicted == (Owned(old(Value()), u) + [id])[..Excess(old(Value()), limit, u)]
    {
      var owned := if u in byUser then byUser[u] else [];
      evicted, owned := CutOldest(owned + [id]);
      byUser := byUser[u := owned];
      sessions := sessions - Elements(evicted);
      sessions := sessions[id := Entry(u, true, None)];
    }

    /** Takes ids from the front until the rest is within the limit. */
    method CutOldest(all: seq<SessionId>) returns (evicted: seq<SessionId>, owned: seq<SessionId>)
      ensures var n := if |all| > limit then |all| - limit else 0;
              evicted == all[..n] && owned == all[n..]
    {
      evicted, owned := [], all;
      while |owned| > limit
        invariant evicted + owned == all
        invariant |all| > limit ==> |owned| >= limit
        invariant |all| <= limit ==> evicted == []
      {
        evicted := evicted + [owned[0]];
        owned := owned[1..];
      }
      assert evicted == all[..|evicted|] && owned == all[|evicted|..];
    }

    /** A session id is no capability for another user. */
    method Resumable(id: SessionId, u: UserId) returns (ok: bool)
      ensures ok <==> id in sessions && sessions[id].user == u
    {
      ok := id in sessions && sessions[id].user == u;
    }

    /** Forgets one session; true when its user has none left. On a coherent registry
        that drops exactly the session; the code runs on any. */
    method ForgetSession(id: SessionId) returns (emptied: bool)
      modifies this
      ensures Value() == Forgotten(old(Value()), id)
      ensures Coherent(old(Value()), limit) ==> Value() == Dropped(old(Value()), {id})
      ensures emptied ==> id in old(sessions) && old(sessions)[id].user in old(byUser)
      ensures byUser.Keys == old(byUser).Keys - (if emptied then {old(sessions)[id].user} else {})
    {
      if Coherent(Value(), limit) {
        OnlyOwnerChanges(Value(), limit, id);
      }
      emptied := false;
      if id !in sessions {
        return;
      }
      var u := sessions[id].user;
      sessions := sessions - {id};
      if u in byUser {
        var left := Retain(byUser[u], {id});
        if left == [] {
          byUser := byUser - {u};
          emptied := true;
        } else {
          byUser := byUser[u := left];
        }
      }
    }

    /** Drops exactly the disconnected sessions whose socket went before the
        cutoff, and answers with exactly the users who are left with none. */
    method SweepExpired(now: Timestamp) returns (offline: set<UserId>)
      modifies this
      ensures Value() == Swept(old(Value()), Expired(old(Value()), now - ttl))
      ensures Coherent(old(Value()), limit) ==> Value() == Dropped(old(Value()), Expired(old(Value()), now - ttl))
      ensures offline == old(byUser).Keys - byUser.Keys
      ensures forall id :: id in sessions <==>
                && id in old(sessions)
                && (|| old(sessions)[id].connected || old(sessions)[id].disconnectedAt.None?
                    || old(sessions)[id].disconnectedAt.value > now - ttl)
      ensures forall id :: id in sessions ==> sessions[id] == old(sessions)[id]
      ensures Coherent(old(Value()), limit) ==> forall u :: u in offline <==>
                && u in old(byUser)
                && forall id :: id in old(sessions) && old(sessions)[id].user == u ==>
                     && !old(sessions)[id].connected && old(sessions)[id].disconnectedAt.Some?
                     && old(sessions)[id].disconnectedAt.value <= now - ttl
    {
      var expired := Expired(Value(), now - ttl);
      if Coherent(Value(), limit) {
        SweepIsDrop(Value(), limit, expired);
        SweptOffline(Value(), limit, now - ttl);
      }
      offline := ForgetEach(expired);
    }

    /** Forgets some sessions one by one, and names the users left with none. */
    method ForgetEach(ids: set<SessionId>) returns (offline: set<UserId>)
      requires ids <= sessions.Keys
      modifies this
      ensures Value() == Swept(old(Value()), ids)
      ensures offline == old(byUser).Keys - byUser.Keys
    {
      ghost var before, gone := Value(), {};
      var todo := ids;
      offline := {};
      SweepNothing(before);
      while todo != {}
        invariant gone + todo == ids && gone !! todo
        invariant Value() == Swept(before, gone)
        invariant byUser.Keys <= before.byUser.Keys && offline == before.byUser.Keys - byUser.Keys
        decreases todo
      {
        var id :| id in todo;
        var left := ForgetNext(id, before, gone);
        offline := offline + left;
        todo, gone := todo - {id}, gone + {id};
      }
      assert gone == ids;
    }

    /** One turn of the sweep: forgets a session, and names its user when that
        was their last. */
    method ForgetNext(id: SessionId, ghost before: Registry, ghost gone: set<SessionId>) returns (left: set<UserId>)
      requires id in before.sessions && id !in gone && Value() == Swept(before, gone)
      modifies this
      ensures Value() == Swept(before, gone + {id})
      ensures left <= old(byUser).Keys && byUser.Keys == old(byUser).Keys - left
    {
      NextSwept(before, gone, id);
      var u := sessions[id].user;
      var emptied := ForgetSession(id);
      left := if emptied then {u} else {};
    }
  }

  /** Dropping one session changes only its owner's list. */
  lemma OnlyOwnerChanges(r: Registry, limit: nat, id: SessionId)
    requires Coherent(r, limit)
    ensures id !in r.sessions ==> Dropped(r, {id}) == r
    ensures id in r.sessions ==>
              var u := r.sessions[id].user;
              && u in r.byUser
              && Dropped(r, {id}) ==
                   Registry(r.sessions - {id},
                            if Retain(r.byUser[u], {id}) == [] then r.byUser - {u}
                            else r.byUser[u := Retain(r.byUser[u], {id})])
  {
    forall u | u in r.byUser && (id !in r.sessions || u != r.sessions[id].user)
      ensures Retain(r.byUser[u], {id}) == r.byUser[u]
    {
      assert Elements(Owned(r, u)) == Mine(r, u);
      assert id !in Elements(r.byUser[u]);
      RetainAll(r.byUser[u], {id});
    }
    if id in r.sessions {
      var u := r.sessions[id].user;
      assert Elements(Owned(r, u)) == Mine(r, u);
      assert id in Elements(Owned(r, u));
    }
  }
}
