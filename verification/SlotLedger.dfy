/** Admission control for publishing: who holds a screen or camera slot in each
    room, claimed all at once or not at all. */
module SlotLedgers {
  import opened Protocol

  datatype RoomSlots = RoomSlots(screens: set<UserId>, cameras: set<UserId>) {
    function Holders(source: Source): set<UserId> {
      match source
      case Screen => screens
      case Camera => cameras
    }

    function With(source: Source, holders: set<UserId>): RoomSlots {
      match source
      case Screen => this.(screens := holders)
      case Camera => this.(cameras := holders)
    }

    predicate Empty() {
      screens == {} && cameras == {}
    }
  }

  datatype Limits = Limits(publishers: nat, cameras: nat) {
    function Ceiling(source: Source): nat {
      match source
      case Screen => publishers
      case Camera => cameras
    }
  }

  type Grants = map<ChannelId, RoomSlots>

  const NO_SLOTS := RoomSlots({}, {})

  function RoomIn(g: Grants, c: ChannelId): RoomSlots {
    if c in g then g[c] else NO_SLOTS
  }

  /** What anybody can observe of the ledger. */
  function Holding(g: Grants, c: ChannelId, s: Source): set<UserId> {
    RoomIn(g, c).Holders(s)
  }

  /** Whether there is room for everything wanted; a slot already held does not
      need another. */
  predicate Admits(g: Grants, limits: Limits, c: ChannelId, u: UserId, wanted: seq<Source>) {
    forall s | s in wanted :: u in Holding(g, c, s) || |Holding(g, c, s)| < limits.Ceiling(s)
  }

  /** Room by room: each wanted source that the caller does not hold has fewer holders than
      its own ceiling. */
  lemma AdmitsIff(g: Grants, limits: Limits, c: ChannelId, u: UserId, wanted: seq<Source>)
    ensures Admits(g, limits, c, u, wanted) <==>
            && (Screen in wanted && c in g ==> u in g[c].screens || |g[c].screens| < limits.publishers)
            && (Camera in wanted && c in g ==> u in g[c].cameras || |g[c].cameras| < limits.cameras)
            && (Screen in wanted && c !in g ==> limits.publishers > 0)
            && (Camera in wanted && c !in g ==> limits.cameras > 0)
  {
    assert Holding(g, c, Screen) == RoomIn(g, c).screens && Holding(g, c, Camera) == RoomIn(g, c).cameras;
  }

  function Settle(g: Grants, c: ChannelId, room: RoomSlots): Grants {
    if room.Empty() then g - {c} else g[c := room]
  }

  function Moved(holders: set<UserId>, u: UserId, take: bool): set<UserId> {
    if take then holders + {u} else holders - {u}
  }

  function Claimed(g: Grants, limits: Limits, c: ChannelId, u: UserId, wanted: seq<Source>): Grants {
    var room := RoomIn(g, c);
    if Admits(g, limits, c, u, wanted) then
      Settle(g, c, RoomSlots(Moved(room.screens, u, Screen in wanted), Moved(room.cameras, u, Camera in wanted)))
    else
      g[c := room]
  }

  function Released(g: Grants, c: ChannelId, u: UserId, sources: set<Source>): Grants {
    if c !in g then g
    else
      Settle(g, c, RoomSlots(if Screen in sources then g[c].screens - {u} else g[c].screens,
                             if Camera in sources then g[c].cameras - {u} else g[c].cameras))
  }

  datatype Step =
    | Claim(channel: ChannelId, user: UserId, wanted: seq<Source>)
    | ReleasePublication(channel: ChannelId, user: UserId, source: Source)
    | ReleasePublisher(channel: ChannelId, user: UserId)
    | ForgetRoom(channel: ChannelId)

  function Apply(g: Grants, limits: Limits, step: Step): Grants {
    match step
    case Claim(c, u, wanted) => Claimed(g, limits, c, u, wanted)
    case ReleasePublication(c, u, s) => Released(g, c, u, {s})
    case ReleasePublisher(c, u) => Released(g, c, u, {Screen, Camera})
    case ForgetRoom(c) => g - {c}
  }

  function ApplyAll(g: Grants, limits: Limits, steps: seq<Step>): Grants
    decreases |steps|
  {
    if steps == [] then g else ApplyAll(Apply(g, limits, steps[0]), limits, steps[1..])
  }

  // ---------------------------------------------------------------------------
  // One claim
  // ---------------------------------------------------------------------------

  lemma SettleHolding(g: Grants, c: ChannelId, room: RoomSlots, d: ChannelId, s: Source)
    ensures Holding(Settle(g, c, room), d, s) == if d == c then room.Holders(s) else Holding(g, d, s)
  {
  }

  lemma ClaimHolding(
    g: Grants, limits: Limits, c: ChannelId, u: UserId, wanted: seq<Source>, d: ChannelId, s: Source)
    ensures Holding(Claimed(g, limits, c, u, wanted), d, s)
         == if d == c && Admits(g, limits, c, u, wanted)
            then Moved(Holding(g, c, s), u, s in wanted) else Holding(g, d, s)
  {
    var room := RoomIn(g, c);
    if Admits(g, limits, c, u, wanted) {
      SettleHolding(g, c, RoomSlots(Moved(room.screens, u, Screen in wanted), Moved(room.cameras, u, Camera in wanted)),
                    d, s);
    }
  }

  /** A refusal changes no holder set anywhere; a success makes the caller's
      sources in that room exactly the wanted ones and moves nobody else. */
  lemma ClaimIsAllOrNothing(g: Grants, limits: Limits, c: ChannelId, u: UserId, wanted: seq<Source>)
    ensures var g' := Claimed(g, limits, c, u, wanted);
            && (forall d, s, x :: (d != c || x != u) ==> (x in Holding(g', d, s) <==> x in Holding(g, d, s)))
            && (Admits(g, limits, c, u, wanted) ==> forall s :: u in Holding(g', c, s) <==> s in wanted)
            && (!Admits(g, limits, c, u, wanted) ==> forall s :: u in Holding(g', c, s) <==> u in Holding(g, c, s))
  {
    forall d, s ensures Holding(Claimed(g, limits, c, u, wanted), d, s)
                     == if d == c && Admits(g, limits, c, u, wanted)
                        then Moved(Holding(g, c, s), u, s in wanted) else Holding(g, d, s)
    {
      ClaimHolding(g, limits, c, u, wanted, d, s);
    }
  }

  predicate WithinCeilings(g: Grants, limits: Limits) {
    forall c | c in g :: Fits(g[c], limits)
  }

  lemma MovedFits(holders: set<UserId>, u: UserId, take: bool, ceiling: nat)
    requires |holders| <= ceiling
    requires take ==> u in holders || |holders| < ceiling
    ensures |Moved(holders, u, take)| <= ceiling
  {
    if take && u in holders {
      assert holders + {u} == holders;
    }
    SmallerSet(holders - {u}, holders);
  }

  lemma {:induction false} SmallerSet<T>(a: set<T>, b: set<T>)
    requires a <= b
    ensures |a| <= |b|
    decreases a
  {
    if a != {} {
      var x :| x in a;
      SmallerSet(a - {x}, b - {x});
    }
  }

  predicate Fits(room: RoomSlots, limits: Limits) {
    |room.screens| <= limits.publishers && |room.cameras| <= limits.cameras
  }

  lemma ClaimFits(g: Grants, limits: Limits, c: ChannelId, u: UserId, wanted: seq<Source>)
    requires Fits(RoomIn(g, c), limits) && Admits(g, limits, c, u, wanted)
    ensures var room := RoomIn(g, c);
            Fits(RoomSlots(Moved(room.screens, u, Screen in wanted), Moved(room.cameras, u, Camera in wanted)), limits)
  {
    var room := RoomIn(g, c);
    assert Holding(g, c, Screen) == room.screens && Holding(g, c, Camera) == room.cameras;
    MovedFits(room.screens, u, Screen in wanted, limits.publishers);
    MovedFits(room.cameras, u, Camera in wanted, limits.cameras);
  }

  lemma StepKeepsCeilings(g: Grants, limits: Limits, step: Step)
    requires WithinCeilings(g, limits)
    ensures WithinCeilings(Apply(g, limits, step), limits)
  {
    match step
    case Claim(c, u, wanted) =>
      if Admits(g, limits, c, u, wanted) {
        ClaimFits(g, limits, c, u, wanted);
      }
    case ReleasePublication(c, u, _) => ReleaseFits(g, limits, c, u);
    case ReleasePublisher(c, u) => ReleaseFits(g, limits, c, u);
    case ForgetRoom(c) =>
  }

  lemma ReleaseFits(g: Grants, limits: Limits, c: ChannelId, u: UserId)
    requires WithinCeilings(g, limits)
    ensures c in g ==> |g[c].screens - {u}| <= limits.publishers && |g[c].cameras - {u}| <= limits.cameras
  {
    if c in g {
      SmallerSet(g[c].screens - {u}, g[c].screens);
      SmallerSet(g[c].cameras - {u}, g[c].cameras);
    }
  }

  /** Over every run of claims, releases and closed rooms, no room ever has more
      holders of a source than that source's ceiling. */
  lemma {:induction false} CeilingsHoldOverEveryRun(g: Grants, limits: Limits, steps: seq<Step>)
    requires WithinCeilings(g, limits)
    ensures forall c, s :: |Holding(ApplyAll(g, limits, steps), c, s)| <= limits.Ceiling(s)
    decreases |steps|
  {
    if steps == [] {
      forall c, s ensures |Holding(g, c, s)| <= limits.Ceiling(s) {
      }
    } else {
      StepKeepsCeilings(g, limits, steps[0]);
      CeilingsHoldOverEveryRun(Apply(g, limits, steps[0]), limits, steps[1..]);
    }
  }

  // ---------------------------------------------------------------------------
  // Giving back
  // ---------------------------------------------------------------------------

  /** The steps that take a slot from a user. */
  predicate GivesBack(step: Step, c: ChannelId, u: UserId, s: Source) {
    match step
    case Claim(_, _, _) => false
    case ReleasePublication(d, x, r) => d == c && x == u && r == s
    case ReleasePublisher(d, x) => d == c && x == u
    case ForgetRoom(d) => d == c
  }

  /** Who holds what after a step: a release takes exactly its own slots, a closed room
      all of its, an admitted claim sets exactly the caller's, and nothing else moves
      anybody in any room. */
  lemma HoldsAfterIff(g: Grants, limits: Limits, step: Step, c: ChannelId, u: UserId, s: Source)
    ensures u in Holding(Apply(g, limits, step), c, s) <==>
            if GivesBack(step, c, u, s) then false
            else if step.Claim? && step.channel == c && step.user == u && Admits(g, limits, c, u, step.wanted)
            then s in step.wanted
            else u in Holding(g, c, s)
  {
    if step.Claim? {
      ClaimIsAllOrNothing(g, limits, step.channel, step.user, step.wanted);
    }
  }

  /** What a release leaves of one room's holders. */
  lemma ReleaseHolding(g: Grants, limits: Limits, step: Step, c: ChannelId, u: UserId, s: Source)
    requires GivesBack(step, c, u, s) && !step.ForgetRoom?
    ensures Holding(Apply(g, limits, step), c, s) == Holding(g, c, s) - {u}
  {
    forall x ensures x in Holding(Apply(g, limits, step), c, s) <==> x in Holding(g, c, s) - {u} {
      HoldsAfterIff(g, limits, step, c, x, s);
    }
  }

  /** After any run, however full the room: once somebody who holds a slot gives it
      back, anybody's claim of that source is admitted, and takes it. */
  lemma ReleasedSlotIsClaimable(
    limits: Limits, steps: seq<Step>, release: Step, c: ChannelId, u: UserId, s: Source, next: UserId)
    requires var g := ApplyAll(map[], limits, steps); u in Holding(g, c, s) && GivesBack(release, c, u, s)
    requires !release.ForgetRoom?
    ensures var g' := Apply(ApplyAll(map[], limits, steps), limits, release);
            && Admits(g', limits, c, next, [s])
            && next in Holding(Apply(g', limits, Claim(c, next, [s])), c, s)
  {
    var g := ApplyAll(map[], limits, steps);
    var g' := Apply(g, limits, release);
    CeilingsHoldOverEveryRun(map[], limits, steps);
    ReleaseHolding(g, limits, release, c, u, s);
    assert |Holding(g', c, s)| == |Holding(g, c, s)| - 1;
    assert Admits(g', limits, c, next, [s]);
    HoldsAfterIff(g', limits, Claim(c, next, [s]), c, next, s);
  }

  // ---------------------------------------------------------------------------
  // Renewal
  // ---------------------------------------------------------------------------

  /** A step that gives back nothing of this user's in this room. */
  predicate Spares(step: Step, c: ChannelId, u: UserId, held: seq<Source>) {
    match step
    case Claim(d, x, wanted) => d != c || x != u || forall s | s in held :: s in wanted
    case ReleasePublication(d, x, s) => d != c || x != u || s !in held
    case ReleasePublisher(d, x) => d != c || x != u
    case ForgetRoom(d) => d != c
  }

  predicate Holds(g: Grants, c: ChannelId, u: UserId, held: seq<Source>) {
    forall s | s in held :: u in Holding(g, c, s)
  }

  lemma SparingKeepsHolding(g: Grants, limits: Limits, step: Step, c: ChannelId, u: UserId, held: seq<Source>)
    requires Holds(g, c, u, held) && Spares(step, c, u, held)
    ensures Holds(Apply(g, limits, step), c, u, held)
  {
    match step
    case Claim(d, x, wanted) => ClaimIsAllOrNothing(g, limits, d, x, wanted);
    case ReleasePublication(d, x, s) =>
    case ReleasePublisher(d, x) =>
    case ForgetRoom(d) =>
  }

  /** However full the room has become, renewing a token for what one already
      holds is never refused and leaves the holder sets as they are. */
  lemma {:induction false} RenewalIsNeverRefused(
    g: Grants, limits: Limits, steps: seq<Step>, c: ChannelId, u: UserId, held: seq<Source>)
    requires Holds(g, c, u, held)
    requires forall i :: 0 <= i < |steps| ==> Spares(steps[i], c, u, held)
    ensures Holds(ApplyAll(g, limits, steps), c, u, held)
    ensures Admits(ApplyAll(g, limits, steps), limits, c, u, held)
    decreases |steps|
  {
    if steps != [] {
      assert Spares(steps[0], c, u, held);
      SparingKeepsHolding(g, limits, steps[0], c, u, held);
      RenewalIsNeverRefused(Apply(g, limits, steps[0]), limits, steps[1..], c, u, held);
    }
  }

  // ---------------------------------------------------------------------------
  // Empty entries
  // ---------------------------------------------------------------------------

  /** No room is listed without holders. */
  predicate Tidy(g: Grants) {
    forall c | c in g :: !g[c].Empty()
  }

  /** The one step that leaves an entry with nobody in it: a refusal in a room
      that was not listed, which takes a source with no slots at all. */
  lemma StepKeepsTidyIff(g: Grants, limits: Limits, step: Step)
    requires Tidy(g)
    ensures Tidy(Apply(g, limits, step)) <==>
            !(step.Claim? && step.channel !in g && exists s | s in step.wanted :: limits.Ceiling(s) == 0)
  {
    match step
    case Claim(c, u, wanted) =>
      if c !in g {
        forall s ensures Holding(g, c, s) == {} {
        }
        assert Admits(g, limits, c, u, wanted) <==> forall s | s in wanted :: limits.Ceiling(s) > 0;
        if exists s | s in wanted :: limits.Ceiling(s) == 0 {
          assert Claimed(g, limits, c, u, wanted)[c].Empty();
        }
      }
    case ReleasePublication(c, u, s) =>
    case ReleasePublisher(c, u) =>
    case ForgetRoom(c) =>
  }

  lemma {:induction false} PositiveCeilingsStayTidy(g: Grants, limits: Limits, steps: seq<Step>)
    requires Tidy(g) && limits.publishers >= 1 && limits.cameras >= 1
    ensures Tidy(ApplyAll(g, limits, steps))
    decreases |steps|
  {
    if steps != [] {
      StepKeepsTidyIff(g, limits, steps[0]);
      PositiveCeilingsStayTidy(Apply(g, limits, steps[0]), limits, steps[1..]);
    }
  }

  predicate EndsTidy(limits: Limits, steps: seq<Step>) {
    Tidy(ApplyAll(map[], limits, steps))
  }

  /** The ledger never accumulates empty rooms, on any run, exactly when both
      ceilings are at least one. */
  lemma TidyOverEveryRunIff(limits: Limits)
    ensures (forall steps :: EndsTidy(limits, steps))
            <==> limits.publishers >= 1 && limits.cameras >= 1
  {
    if limits.publishers >= 1 && limits.cameras >= 1 {
      forall steps ensures EndsTidy(limits, steps) {
        PositiveCeilingsStayTidy(map[], limits, steps);
      }
    } else {
      var s := if limits.publishers == 0 then Screen else Camera;
      var step := Claim(0, "a", [s]);
      assert s in step.wanted && limits.Ceiling(s) == 0;
      var none: Grants := map[];
      StepKeepsTidyIff(none, limits, step);
      assert !Tidy(Apply(none, limits, step));
      assert [step][1..] == [] && ApplyAll(none, limits, [step]) == ApplyAll(Apply(none, limits, step), limits, []);
      assert !EndsTidy(limits, [step]);
    }
  }

  // ---------------------------------------------------------------------------
  // The ledger object
  // ---------------------------------------------------------------------------

  class Ledger {
    const limits: Limits
    var grants: Grants

    constructor (limits: Limits)
      ensures this.limits == limits && grants == map[]
    {
      this.limits := limits;
      grants := map[];
    }

    /** Refuses before it changes anything. */
    method ClaimPublications(c: ChannelId, u: UserId, wanted: seq<Source>) returns (ok: bool)
      modifies this
      ensures ok == Admits(old(grants), limits, c, u, wanted)
      ensures grants == Claimed(old(grants), limits, c, u, wanted)
    {
      var room := if c in grants then grants[c] else NO_SLOTS;
      grants := grants[c := room];
      var i := 0;
      while i < |wanted|
        invariant 0 <= i <= |wanted|
        invariant grants == old(grants)[c := room]
        invariant forall j :: 0 <= j < i ==>
                    u in room.Holders(wanted[j]) || |room.Holders(wanted[j])| < limits.Ceiling(wanted[j])
      {
        var s := wanted[i];
        if u !in room.Holders(s) && |room.Holders(s)| >= limits.Ceiling(s) {
          assert s in wanted && Holding(old(grants), c, s) == room.Holders(s);
          return false;
        }
        i := i + 1;
      }
      var was, order := room, [Screen, Camera];
      i := 0;
      while i < 2
        invariant 0 <= i <= 2
        invariant room.screens == if i >= 1 then Moved(was.screens, u, Screen in wanted) else was.screens
        invariant room.cameras == if i >= 2 then Moved(was.cameras, u, Camera in wanted) else was.cameras
      {
        var s := order[i];
        if s in wanted {
          room := room.With(s, room.Holders(s) + {u});
        } else {
          room := room.With(s, room.Holders(s) - {u});
        }
        i := i + 1;
      }
      grants := if room.Empty() then grants - {c} else grants[c := room];
      ok := true;
    }

    /** One publication stopped. */
    method ReleaseOne(c: ChannelId, u: UserId, s: Source)
      modifies this
      ensures grants == Released(old(grants), c, u, {s})
      ensures forall x, d, r :: x in Holding(grants, d, r) <==>
                x in Holding(old(grants), d, r) && !(d == c && x == u && r == s)
    {
      if c in grants {
        var room := grants[c].With(s, grants[c].Holders(s) - {u});
        grants := if room.Empty() then grants - {c} else grants[c := room];
      }
    }

    /** The person left, or lost access. */
    method ReleaseEverything(c: ChannelId, u: UserId)
      modifies this
      ensures grants == Released(old(grants), c, u, {Screen, Camera})
      ensures forall x, d, r :: x in Holding(grants, d, r) <==>
                x in Holding(old(grants), d, r) && !(d == c && x == u)
    {
      if c in grants {
        var room := grants[c];
        room := room.(screens := room.screens - {u});
        room := room.(cameras := room.cameras - {u});
        grants := if room.Empty() then grants - {c} else grants[c := room];
      }
    }

    /** The room was closed. */
    method Forget(c: ChannelId)
      modifies this
      ensures grants == old(grants) - {c}
    {
      grants := grants - {c};
    }
  }
}
