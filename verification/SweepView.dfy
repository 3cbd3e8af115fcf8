/** A revocation sweep seen from the rooms it sweeps: the people it evicts, row by
    row, and what the others are left looking at. */
module SweepView {
  import opened Basics
  import opened Protocol
  import opened RoomStore
  import opened RoomLaws
  import opened Presence
  import opened RoomView
  import opened ViewRuns
  import Replica
  import Revocation

  /** Every present user's Discord id; channels fit the column they come from. */
  ghost predicate Known(t: Table, discord: map<UserId, Revocation.Int64>) {
    forall u :: u in t ==> u in discord && -0x8000_0000_0000_0000 <= t[u].channel < 0x8000_0000_0000_0000
  }

  /** The table as the sweep reads it. */
  function RoomsOf(t: Table, discord: map<UserId, Revocation.Int64>): Revocation.Rooms
    requires Known(t, discord)
  {
    map u | u in t :: Revocation.Occupant(t[u].channel as Revocation.Int64, discord[u])
  }

  /** The evictions of some people, one by one. */
  function Evictions(t: Table, us: seq<UserId>, now: Timestamp): seq<Tick> {
    if us == [] then []
    else [Tick(Evicted(if us[0] in t then t[us[0]].channel else 0, us[0]), now, Complete)] + Evictions(t, us[1..], now)
  }

  lemma {:induction false} EvictionsRemove(t: Table, t0: Table, us: seq<UserId>, now: Timestamp)
    ensures TableAfter(t, Evictions(t0, us, now)) == t - Elements(us)
    decreases |us|
  {
    if us == [] {
      assert t - Elements(us) == t;
    } else {
      var first := Evictions(t0, us, now)[0];
      assert Evictions(t0, us, now)[1..] == Evictions(t0, us[1..], now);
      EvictionsRemove(t - {us[0]}, t0, us[1..], now);
      assert Elements(us) == {us[0]} + Elements(us[1..]);
      assert t - {us[0]} - Elements(us[1..]) == t - Elements(us);
    }
  }

  /** Whoever of them was in the room is shown on. */
  lemma {:induction false} EvictionsLeaveGone(
    t: Table, t0: Table, us: seq<UserId>, now: Timestamp, c: ChannelId, v: UserId, gone: set<UserId>)
    requires NoDup(us) && v in Members(t, c) && v !in us
    ensures Orderly(t, Evictions(t0, us, now), c, v)
    ensures GoneOver(t, Evictions(t0, us, now), c, gone) == gone + Elements(us) * Members(t, c)
    decreases |us|
  {
    if us != [] {
      var ticks, t1 := Evictions(t0, us, now), t - {us[0]};
      assert ticks[1..] == Evictions(t0, us[1..], now);
      assert us == [us[0]] + us[1..];
      NoDupCons(us[0], us[1..]);
      var next := GoneAfter(t, ticks[0].change, c, gone);
      EvictionsLeaveGone(t1, t0, us[1..], now, c, v, next);
      assert Elements(us) == {us[0]} + Elements(us[1..]);
      assert Members(t1, c) == Members(t, c) - {us[0]};
    }
  }

  /** A guild sweep, as evictions in any order. The table it leaves is the one the
      sweep promises; and for everybody who may stay, the view is right exactly when
      nobody of their room was evicted, and otherwise shows the evicted on. */
  lemma SweepLeavesOthersLooking(
    s: Replica.State, t: Table, discord: map<UserId, Revocation.Int64>, g: nat, us: seq<UserId>, now: Timestamp,
    room: Room, c: ChannelId, v: UserId)
    requires Known(t, discord) && NoDup(us)
    requires Elements(us) == t.Keys - Revocation.SweepGuild(s, RoomsOf(t, discord), g).Keys
    requires WellFormed(room) && Agrees(room, t, c) && v in Members(t, c) && v !in us
    ensures var ticks := Evictions(t, us, now);
            var room', t' := ApplyAll(room, Stream(t, ticks, v)), TableAfter(t, ticks);
            && Known(t', discord) && RoomsOf(t', discord) == Revocation.SweepGuild(s, RoomsOf(t, discord), g)
            && (forall u :: u in room'.participants <==> InRoom(t', c, u) || u in Elements(us) * Members(t, c))
            && (Agrees(room', t', c) <==> Elements(us) * Members(t, c) == {})
  {
    EvictionsRemove(t, t, us, now);
    SweptTable(s, t, discord, g, us);
    EvictionsLeaveGone(t, t, us, now, c, v, {});
    OrderlyView(room, t, Evictions(t, us, now), c, v);
    var room', t' := ApplyAll(room, Stream(t, Evictions(t, us, now), v)), TableAfter(t, Evictions(t, us, now));
    assert {} + Elements(us) * Members(t, c) == Elements(us) * Members(t, c);
    forall u ensures u in room'.participants <==> InRoom(t', c, u) || u in Elements(us) * Members(t, c) {
      assert u !in Elements(us) * Members(t, c) ==> LookOf(room', u) == RowLook(t', c, u);
    }
  }

  lemma SweptTable(s: Replica.State, t: Table, discord: map<UserId, Revocation.Int64>, g: nat, us: seq<UserId>)
    requires Known(t, discord)
    requires Elements(us) == t.Keys - Revocation.SweepGuild(s, RoomsOf(t, discord), g).Keys
    ensures Known(t - Elements(us), discord)
    ensures RoomsOf(t - Elements(us), discord) == Revocation.SweepGuild(s, RoomsOf(t, discord), g)
  {
  }
}
