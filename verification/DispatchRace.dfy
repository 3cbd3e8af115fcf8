/** `Session::dispatch` without the atomicity: taking a number and pushing the
    frame are separate steps, and many threads are between the two at once.
    Frames are represented by their numbers. */
module DispatchRace {
  import opened Basics

  datatype Race = Race(
    lastSeq: nat,
    pending: set<nat>,      // numbers taken whose frame is not pushed yet
    buffer: seq<nat>,
    evicted: set<nat>,      // numbers that were buffered and dropped
    evictedThrough: nat)

  datatype Step = Take | Push(n: nat)

  const START := Race(0, {}, [], {}, 0)

  predicate Enabled(r: Race, step: Step) {
    step.Push? ==> step.n in r.pending
  }

  function Apply(r: Race, capacity: nat, step: Step): Race
    requires Enabled(r, step)
  {
    match step
    case Take => r.(lastSeq := r.lastSeq + 1, pending := r.pending + {r.lastSeq + 1})
    case Push(n) =>
      var pending := r.pending - {n};
      if |r.buffer| == capacity && |r.buffer| > 0 then
        Race(r.lastSeq, pending, r.buffer[1..] + [n], r.evicted + {r.buffer[0]}, r.buffer[0])
      else
        Race(r.lastSeq, pending, r.buffer + [n], r.evicted, r.evictedThrough)
  }

  /** A schedule: each step enabled when its turn comes. */
  ghost predicate Runs(r: Race, capacity: nat, steps: seq<Step>, r': Race)
    decreases |steps|
  {
    if steps == [] then r' == r
    else Enabled(r, steps[0]) && Runs(Apply(r, capacity, steps[0]), capacity, steps[1..], r')
  }

  /** A number is in exactly one place, and only numbers already given out are
      anywhere. */
  ghost predicate Conserved(r: Race) {
    && (forall n :: n in r.pending || n in r.buffer || n in r.evicted <==> 1 <= n <= r.lastSeq)
    && (forall n :: n in r.pending ==> n !in r.buffer && n !in r.evicted)
    && (forall n :: n in r.buffer ==> n !in r.evicted)
    && NoDup(r.buffer)
  }

  ghost predicate Inv(r: Race, capacity: nat) {
    && Conserved(r)
    && |r.buffer| <= capacity
    && (r.evicted != {} ==> r.evictedThrough in r.evicted)
    && (r.evicted == {} ==> r.evictedThrough == 0)
  }

  lemma TakePreserves(r: Race, capacity: nat)
    requires Inv(r, capacity)
    ensures Inv(Apply(r, capacity, Take), capacity)
  {
  }

  lemma PushPreserves(r: Race, capacity: nat, n: nat)
    requires capacity >= 1 && Inv(r, capacity) && n in r.pending
    ensures Inv(Apply(r, capacity, Push(n)), capacity)
  {
    var r' := Apply(r, capacity, Push(n));
    if |r.buffer| == capacity {
      var tail := r.buffer[1..];
      assert r.buffer == [r.buffer[0]] + tail;
      assert r'.buffer == tail + [n];
      assert forall m :: m in r.buffer <==> m == r.buffer[0] || m in tail;
      assert r.buffer[0] !in tail;
      assert forall m :: m in r'.buffer <==> m in tail || m == n;
    } else {
      assert forall m :: m in r'.buffer <==> m in r.buffer || m == n;
    }
  }

  lemma StartIsConserved(capacity: nat)
    ensures Inv(START, capacity)
  {
  }

  lemma {:induction false} RunConserves(r: Race, capacity: nat, steps: seq<Step>, r': Race)
    requires capacity >= 1 && Inv(r, capacity) && Runs(r, capacity, steps, r')
    ensures Inv(r', capacity)
    decreases |steps|
  {
    if steps != [] {
      match steps[0] {
        case Take => TakePreserves(r, capacity);
        case Push(n) => PushPreserves(r, capacity, n);
      }
      RunConserves(Apply(r, capacity, steps[0]), capacity, steps[1..], r');
    }
  }

  /** Conservation over every interleaving: each number handed out is pending,
      buffered or evicted, never two of them, and the buffer stays bounded. */
  lemma EveryNumberIsConserved(capacity: nat, steps: seq<Step>, r: Race)
    requires capacity >= 1 && Runs(START, capacity, steps, r)
    ensures Conserved(r) && |r.buffer| <= capacity
  {
    StartIsConserved(capacity);
    RunConserves(START, capacity, steps, r);
  }

  // ---------------------------------------------------------------------------
  // A replay, read while others dispatch
  // ---------------------------------------------------------------------------

  /** One replay on a session that others dispatch to: the last number is looked at
      in `counted`, the eviction mark in `tested`, and only then the buffer is locked,
      in `read`. The schedules say what other threads did up to each of them. */
  datatype Inquiry = Inquiry(
    toCount: seq<Step>, counted: Race, toTest: seq<Step>, tested: Race, toRead: seq<Step>, read: Race)

  ghost predicate Happens(q: Inquiry, capacity: nat) {
    && Runs(START, capacity, q.toCount, q.counted)
    && Runs(q.counted, capacity, q.toTest, q.tested)
    && Runs(q.tested, capacity, q.toRead, q.read)
  }

  /** The code's own test for "this gap can be replayed". */
  predicate Accepts(q: Inquiry, n: nat) {
    q.tested.evictedThrough <= n <= q.counted.lastSeq
  }

  /** What it then answers with. */
  function Replayed(q: Inquiry, n: nat): seq<nat> {
    Above(q.read.buffer, n)
  }

  function Above(buffer: seq<nat>, n: nat): seq<nat> {
    if buffer == [] then []
    else (if buffer[0] > n then [buffer[0]] else []) + Above(buffer[1..], n)
  }

  lemma {:induction false} InAbove(buffer: seq<nat>, n: nat, m: nat)
    ensures m in Above(buffer, n) <==> m in buffer && m > n
  {
    if buffer != [] {
      InAbove(buffer[1..], n, m);
      assert buffer == [buffer[0]] + buffer[1..];
    }
  }

  /** Numbers above `n` that were dropped: a replay after `n` cannot carry them. */
  ghost function Lost(r: Race, n: nat): set<nat> {
    set m | m in r.evicted && m > n
  }

  lemma HappensSoundly(q: Inquiry, capacity: nat)
    requires capacity >= 1 && Happens(q, capacity)
    ensures Inv(q.counted, capacity) && Inv(q.tested, capacity) && Inv(q.read, capacity)
    ensures q.counted.lastSeq <= q.tested.lastSeq <= q.read.lastSeq
  {
    StartIsConserved(capacity);
    RunConserves(START, capacity, q.toCount, q.counted);
    RunConserves(q.counted, capacity, q.toTest, q.tested);
    RunConserves(q.tested, capacity, q.toRead, q.read);
    NumbersOnlyGrow(q.counted, capacity, q.toTest, q.tested);
    NumbersOnlyGrow(q.tested, capacity, q.toRead, q.read);
  }

  lemma {:induction false} NumbersOnlyGrow(r: Race, capacity: nat, steps: seq<Step>, r': Race)
    requires Runs(r, capacity, steps, r')
    ensures r.lastSeq <= r'.lastSeq
    decreases |steps|
  {
    if steps != [] {
      NumbersOnlyGrow(Apply(r, capacity, steps[0]), capacity, steps[1..], r');
    }
  }

  /** Of the numbers above `n`, a replay fails to carry exactly those that are pending
      or dropped when the buffer is read. */
  lemma ReplayMissesPendingAndLost(q: Inquiry, capacity: nat, n: nat, m: nat)
    requires capacity >= 1 && Happens(q, capacity) && n < m <= q.read.lastSeq
    ensures m !in Replayed(q, n) <==> m in q.read.pending || m in Lost(q.read, n)
  {
    HappensSoundly(q, capacity);
    InAbove(q.read.buffer, n, m);
  }

  /** The numbers in the order they reach the buffer. */
  function Pushed(steps: seq<Step>): seq<nat> {
    if steps == [] then []
    else (if steps[0].Push? then [steps[0].n] else []) + Pushed(steps[1..])
  }

  /** How many of them no longer fit. */
  function Overflow(capacity: nat, p: seq<nat>): nat {
    if |p| > capacity then |p| - capacity else 0
  }

  /** The buffer is the end of the push order, what was dropped is the beginning,
      and the mark is the last one dropped, whatever its number. */
  ghost predicate Follows(r: Race, capacity: nat, p: seq<nat>) {
    var k := Overflow(capacity, p);
    && r.buffer == p[k..]
    && r.evicted == Elements(p[..k])
    && r.evictedThrough == if k > 0 then p[k - 1] else 0
  }

  lemma PushFollows(r: Race, capacity: nat, p: seq<nat>, n: nat)
    requires capacity >= 1 && Follows(r, capacity, p) && n in r.pending
    ensures Follows(Apply(r, capacity, Push(n)), capacity, p + [n])
  {
    var k, q := Overflow(capacity, p), p + [n];
    if |p| >= capacity {
      assert r.buffer[0] == p[k] && q[k + 1..] == p[k..][1..] + [n];
      assert q[..k + 1] == p[..k] + [p[k]];
    } else {
      assert q[0..] == p[0..] + [n];
    }
  }

  lemma {:induction false} RunFollows(r: Race, capacity: nat, p: seq<nat>, steps: seq<Step>, r': Race)
    requires capacity >= 1 && Follows(r, capacity, p) && Runs(r, capacity, steps, r')
    ensures Follows(r', capacity, p + Pushed(steps))
    decreases |steps|
  {
    if steps == [] {
      assert p + [] == p;
    } else {
      PushedCons(steps);
      var next, rest := Apply(r, capacity, steps[0]), Pushed(steps[1..]);
      if steps[0].Push? {
        PushFollows(r, capacity, p, steps[0].n);
        RunFollows(next, capacity, p + [steps[0].n], steps[1..], r');
        OneMore(p, steps[0].n, rest);
      } else {
        RunFollows(next, capacity, p, steps[1..], r');
      }
    }
  }

  lemma PushedCons(steps: seq<Step>)
    requires steps != []
    ensures Pushed(steps) == if steps[0].Push? then [steps[0].n] + Pushed(steps[1..]) else Pushed(steps[1..])
  {
  }

  lemma OneMore(p: seq<nat>, n: nat, rest: seq<nat>)
    ensures (p + [n]) + rest == p + ([n] + rest)
  {
  }

  /** The number dropped last. */
  function Mark(capacity: nat, p: seq<nat>): nat {
    var k := Overflow(capacity, p);
    if k > 0 then p[k - 1] else 0
  }

  /** A number above `n` no longer fits. */
  ghost predicate DropsAbove(capacity: nat, p: seq<nat>, n: nat) {
    exists i :: 0 <= i < Overflow(capacity, p) && p[i] > n
  }

  function PushedToTest(q: Inquiry): seq<nat> {
    Pushed(q.toCount) + Pushed(q.toTest)
  }

  function PushedToRead(q: Inquiry): seq<nat> {
    PushedToTest(q) + Pushed(q.toRead)
  }

  lemma HappensFollows(q: Inquiry, capacity: nat)
    requires capacity >= 1 && Happens(q, capacity)
    ensures Follows(q.tested, capacity, PushedToTest(q)) && Follows(q.read, capacity, PushedToRead(q))
  {
    RunFollows(START, capacity, [], q.toCount, q.counted);
    assert [] + Pushed(q.toCount) == Pushed(q.toCount);
    RunFollows(q.counted, capacity, Pushed(q.toCount), q.toTest, q.tested);
    RunFollows(q.tested, capacity, PushedToTest(q), q.toRead, q.read);
  }

  lemma LostIff(r: Race, capacity: nat, p: seq<nat>, n: nat)
    requires Follows(r, capacity, p)
    ensures Lost(r, n) != {} <==> DropsAbove(capacity, p, n)
  {
    var gone := p[..Overflow(capacity, p)];
    if Lost(r, n) != {} {
      var m :| m in Lost(r, n);
      var i :| 0 <= i < |gone| && gone[i] == m;
      assert p[i] > n;
    }
    if DropsAbove(capacity, p, n) {
      var i :| 0 <= i < Overflow(capacity, p) && p[i] > n;
      assert gone[i] in Lost(r, n);
    }
  }

  /** Over every run: the replay after `n`, once accepted, owes a frame that is gone
      exactly when some number above `n` is among those that no longer fitted by the
      time the buffer was read. */
  lemma ReplayLosesIff(q: Inquiry, capacity: nat, n: nat)
    requires capacity >= 1 && Happens(q, capacity) && Accepts(q, n)
    ensures Lost(q.read, n) != {} <==> DropsAbove(capacity, PushedToRead(q), n)
  {
    HappensFollows(q, capacity);
    LostIff(q.read, capacity, PushedToRead(q), n);
  }

  /** Over every run: some number is accepted and its replay silently incomplete
      exactly when the last number dropped by the time of the test had been given out
      when they were counted, and some number above it is dropped by the time of the
      read. */
  lemma SilentLossIff(q: Inquiry, capacity: nat)
    requires capacity >= 1 && Happens(q, capacity)
    ensures (exists n :: Accepts(q, n) && Lost(q.read, n) != {}) <==>
            var mark := Mark(capacity, PushedToTest(q));
            mark <= q.counted.lastSeq && DropsAbove(capacity, PushedToRead(q), mark)
  {
    HappensFollows(q, capacity);
    var p, mark := PushedToRead(q), q.tested.evictedThrough;
    LostIff(q.read, capacity, p, mark);
    if exists n :: Accepts(q, n) && Lost(q.read, n) != {} {
      var n :| Accepts(q, n) && Lost(q.read, n) != {};
      var m :| m in Lost(q.read, n);
      assert m in Lost(q.read, mark);
    }
    if mark <= q.counted.lastSeq && Lost(q.read, mark) != {} {
      assert Accepts(q, mark);
    }
  }

  /** A number dropped before the last dropped one, and larger. */
  ghost predicate DroppedOutOfOrder(capacity: nat, p: seq<nat>) {
    var k := Overflow(capacity, p);
    exists i :: 0 <= i < k - 1 && p[i] > p[k - 1]
  }

  /** With nothing in between: exactly when, among the numbers pushed out of the
      buffer, one that went earlier is larger than the one that went last. */
  lemma UndisturbedLossIff(q: Inquiry, capacity: nat)
    requires capacity >= 1 && Happens(q, capacity) && q.toTest == [] && q.toRead == []
    ensures (exists n :: Accepts(q, n) && Lost(q.read, n) != {}) <==>
            DroppedOutOfOrder(capacity, Pushed(q.toCount))
  {
    var p := Pushed(q.toCount);
    var k := Overflow(capacity, p);
    assert p + [] == p && PushedToTest(q) == p && PushedToRead(q) == p;
    SilentLossIff(q, capacity);
    HappensSoundly(q, capacity);
    HappensFollows(q, capacity);
    if DropsAbove(capacity, p, Mark(capacity, p)) {
      var i :| 0 <= i < k && p[i] > Mark(capacity, p);
      assert i < k - 1;
    }
  }

  /** Pushes happen in number order: a frame is pushed only when every smaller
      number has been. */
  ghost predicate Ordered(r: Race, capacity: nat, steps: seq<Step>)
    decreases |steps|
  {
    steps == [] ||
    (&& Enabled(r, steps[0])
     && (steps[0].Push? ==> forall m :: m in r.pending ==> steps[0].n <= m)
     && Ordered(Apply(r, capacity, steps[0]), capacity, steps[1..]))
  }

  /** Everything evicted is below everything buffered, which is below everything
      pending, and the buffer ascends. */
  ghost predicate InOrder(r: Race) {
    && r.evictedThrough <= r.lastSeq
    && (forall m :: m in r.evicted ==> m <= r.evictedThrough)
    && (forall i :: 0 <= i < |r.buffer| ==> r.evictedThrough < r.buffer[i] <= r.lastSeq)
    && (forall i, j :: 0 <= i < j < |r.buffer| ==> r.buffer[i] < r.buffer[j])
    && (forall i, m :: 0 <= i < |r.buffer| && m in r.pending ==> r.buffer[i] < m)
    && (forall m :: m in r.pending ==> r.evictedThrough < m <= r.lastSeq)
  }

  lemma TakeKeepsOrder(r: Race, capacity: nat)
    requires InOrder(r)
    ensures InOrder(Apply(r, capacity, Take))
  {
  }

  lemma PushKeepsOrder(r: Race, capacity: nat, n: nat)
    requires InOrder(r) && n in r.pending && forall m :: m in r.pending ==> n <= m
    ensures InOrder(Apply(r, capacity, Push(n)))
  {
    var r' := Apply(r, capacity, Push(n));
    forall i, m | 0 <= i < |r'.buffer| && m in r'.pending ensures r'.buffer[i] < m {
      assert m in r.pending;
      assert r'.buffer[i] in r.buffer || r'.buffer[i] == n;
    }
  }

  lemma {:induction false} RunKeepsOrder(r: Race, capacity: nat, steps: seq<Step>, r': Race)
    requires InOrder(r) && Runs(r, capacity, steps, r') && Ordered(r, capacity, steps)
    ensures InOrder(r') && r.evictedThrough <= r'.evictedThrough
    decreases |steps|
  {
    if steps != [] {
      match steps[0] {
        case Take => TakeKeepsOrder(r, capacity);
        case Push(n) => PushKeepsOrder(r, capacity, n);
      }
      RunKeepsOrder(Apply(r, capacity, steps[0]), capacity, steps[1..], r');
    }
  }

  ghost predicate OrderedThroughout(q: Inquiry, capacity: nat) {
    && Ordered(START, capacity, q.toCount)
    && Ordered(q.counted, capacity, q.toTest)
    && Ordered(q.tested, capacity, q.toRead)
  }

  /** When frames are pushed in the order their numbers were taken, an accepted replay
      lacks exactly the numbers that the mark has passed since: those above `n` and at
      most the mark when the buffer is read. */
  lemma OrderedReplayLacks(q: Inquiry, capacity: nat, n: nat)
    requires capacity >= 1 && Happens(q, capacity) && OrderedThroughout(q, capacity) && Accepts(q, n)
    ensures forall m :: m in Lost(q.read, n) <==> n < m <= q.read.evictedThrough
    ensures Lost(q.read, n) != {} <==> q.read.evictedThrough > n
    ensures q.toRead == [] ==> Lost(q.read, n) == {}
  {
    HappensSoundly(q, capacity);
    RunKeepsOrder(START, capacity, q.toCount, q.counted);
    RunKeepsOrder(q.counted, capacity, q.toTest, q.tested);
    RunKeepsOrder(q.tested, capacity, q.toRead, q.read);
    forall m | n < m <= q.read.evictedThrough ensures m in Lost(q.read, n) {
      assert m !in q.read.buffer && m !in q.read.pending;
    }
    assert q.read.evictedThrough > n ==> q.read.evictedThrough in Lost(q.read, n);
  }

  /** One whole dispatch put before a schedule. */
  lemma NextDispatch(r: Race, capacity: nat, next: Race, rest: seq<Step>, r': Race) returns (steps: seq<Step>)
    requires r.pending == {} && next == Apply(Apply(r, capacity, Take), capacity, Push(r.lastSeq + 1))
    requires Runs(next, capacity, rest, r') && Ordered(next, capacity, rest)
    ensures Runs(r, capacity, steps, r') && Ordered(r, capacity, steps)
  {
    RunsTwo(r, capacity, Take, Push(r.lastSeq + 1), rest, r');
    steps := [Take, Push(r.lastSeq + 1)] + rest;
    assert steps[1..] == [Push(r.lastSeq + 1)] + rest;
    assert steps[1..][1..] == rest;
  }

  /** The steps of the fifth dispatch on a session with room for two, one at a time. */
  lemma FourthToFifth() returns (steps: seq<Step>)
    ensures var four, five := Race(4, {}, [3, 4], {1, 2}, 2), Race(5, {}, [4, 5], {1, 2, 3}, 3);
            Runs(four, 2, steps, five) && Ordered(four, 2, steps)
  {
    var four, five := Race(4, {}, [3, 4], {1, 2}, 2), Race(5, {}, [4, 5], {1, 2, 3}, 3);
    assert Apply(four, 2, Take) == Race(5, {5}, [3, 4], {1, 2}, 2);
    steps := NextDispatch(four, 2, five, [], five);
  }

  lemma SecondToFourth() returns (steps: seq<Step>)
    ensures var two, four := Race(2, {}, [1, 2], {}, 0), Race(4, {}, [3, 4], {1, 2}, 2);
            Runs(two, 2, steps, four) && Ordered(two, 2, steps)
  {
    var two, three, four := Race(2, {}, [1, 2], {}, 0), Race(3, {}, [2, 3], {1}, 1), Race(4, {}, [3, 4], {1, 2}, 2);
    assert Apply(two, 2, Take) == Race(3, {3}, [1, 2], {}, 0);
    assert Apply(three, 2, Take) == Race(4, {4}, [2, 3], {1}, 1);
    steps := NextDispatch(three, 2, four, [], four);
    steps := NextDispatch(two, 2, three, steps, four);
  }

  lemma StartToFourth() returns (steps: seq<Step>)
    ensures var four := Race(4, {}, [3, 4], {1, 2}, 2);
            Runs(START, 2, steps, four) && Ordered(START, 2, steps)
  {
    var one, two, four := Race(1, {}, [1], {}, 0), Race(2, {}, [1, 2], {}, 0), Race(4, {}, [3, 4], {1, 2}, 2);
    assert Apply(START, 2, Take) == Race(1, {1}, [], {}, 0);
    assert Apply(one, 2, Take) == Race(2, {2}, [1], {}, 0);
    steps := SecondToFourth();
    steps := NextDispatch(one, 2, two, steps, four);
    steps := NextDispatch(START, 2, one, steps, four);
  }

  /** One dispatch between the test and the read is enough. With room for two and 3
      and 4 in it, a client that has seen 2 is accepted; 5 pushes 3 out; it is sent 4
      and 5 as if nothing were missing. */
  lemma EvictionOvertakesTheReplay() returns (q: Inquiry)
    ensures Happens(q, 2) && OrderedThroughout(q, 2)
    ensures Accepts(q, 2) && Lost(q.read, 2) == {3} && Replayed(q, 2) == [4, 5]
  {
    var four, five := Race(4, {}, [3, 4], {1, 2}, 2), Race(5, {}, [4, 5], {1, 2, 3}, 3);
    var before := StartToFourth();
    var last := FourthToFifth();
    q := Inquiry(before, four, [], four, last, five);
    assert [4, 5][1..] == [5] && [5][1..] == [];
  }

  lemma RunsTwo(r: Race, capacity: nat, a: Step, b: Step, rest: seq<Step>, r': Race)
    requires Enabled(r, a) && Enabled(Apply(r, capacity, a), b)
    requires Runs(Apply(Apply(r, capacity, a), capacity, b), capacity, rest, r')
    ensures Runs(r, capacity, [a, b] + rest, r')
  {
    var all := [a, b] + rest;
    assert all[1..] == [b] + rest;
    assert all[1..][1..] == rest;
  }

  /** Two threads swapping their pushes is enough to lose a frame silently: with
      room for two, frame 2 is dropped, the mark then falls back to 1, and a
      client that has seen 1 is sent 3 and 4 as if nothing were missing. */
  lemma SwappedPushesLoseAFrame() returns (steps: seq<Step>, r: Race)
    ensures Runs(START, 2, steps, r)
    ensures var q := Inquiry(steps, r, [], r, [], r);
            Happens(q, 2) && Accepts(q, 1) && Lost(r, 1) == {2} && Replayed(q, 1) == [3, 4]
  {
    var r2 := Apply(Apply(START, 2, Take), 2, Take);
    assert r2 == Race(2, {1, 2}, [], {}, 0);
    var r4 := Apply(Apply(r2, 2, Push(2)), 2, Push(1));
    assert r4 == Race(2, {}, [2, 1], {}, 0);
    var r6 := Apply(Apply(r4, 2, Take), 2, Push(3));
    assert r6 == Race(3, {}, [1, 3], {2}, 2);
    r := Apply(Apply(r6, 2, Take), 2, Push(4));
    assert r == Race(4, {}, [3, 4], {1, 2}, 1);
    RunsTwo(r6, 2, Take, Push(4), [], r);
    RunsTwo(r4, 2, Take, Push(3), [Take, Push(4)] + [], r);
    steps := [Take, Push(3)] + ([Take, Push(4)] + []);
    RunsTwo(r2, 2, Push(2), Push(1), steps, r);
    steps := [Push(2), Push(1)] + steps;
    RunsTwo(START, 2, Take, Take, steps, r);
    steps := [Take, Take] + steps;
    assert [3, 4][1..] == [4] && [4][1..] == [];
  }
}
