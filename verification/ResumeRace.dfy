/** RESUME without the atomicity. A dispatch takes its number, pushes its frame and
    sends it in three steps; the handshake looks at the last number, at the eviction
    mark and at the buffer in three steps, attaches the new outbox, sends the missed
    frames one by one and dispatches RESUMED. Any number of threads dispatch to the
    session at any point in between. Frames are represented by their numbers. */
module ResumeRace {
  import opened Basics
  import opened Protocol
  import opened Sessions
  import opened GatewayClients
  import Race = DispatchRace

  datatype Phase = Asked | Counted | Granted | HaveRead | Attached | Done | Refused

  /** A session and the handshake of the last socket that asked for it. `wire` is what
      that socket's outbox was given. */
  datatype Handshake = Handshake(
    ring: Race.Race,
    unsent: set<nat>,       // numbers pushed whose own send is still to come
    n: nat,                 // the number the client presented
    phase: Phase,
    missed: seq<nat>,
    sent: nat,              // how many of those went out
    wire: seq<nat>)

  datatype Step =
    // any thread's dispatch
    | Take
    | Push(number: nat)
    | Send(number: nat)
    // the client's socket is replaced, and the new one presents a number
    | Ask(presents: nat)
    // the handshake
    | Count
    | Test
    | Read
    | Attach
    | SendNext
    | Finish                // RESUMED takes its number; it is pushed and sent like any other

  /** A session just identified: its socket is the outbox, and nothing was missed. */
  const OPENED := Handshake(Race.START, {}, 0, Done, [], 0, [])

  predicate Listening(h: Handshake) {
    h.phase.Attached? || h.phase.Done?
  }

  predicate Enabled(h: Handshake, step: Step) {
    match step
    case Take => true
    case Push(k) => k in h.ring.pending
    case Send(k) => k in h.unsent
    case Ask(_) => true
    case Count => h.phase.Asked?
    case Test => h.phase.Counted?
    case Read => h.phase.Granted?
    case Attach => h.phase.HaveRead?
    case SendNext => h.phase.Attached? && h.sent < |h.missed|
    case Finish => h.phase.Attached? && h.sent >= |h.missed|
  }

  function Apply(h: Handshake, capacity: nat, step: Step): Handshake
    requires Enabled(h, step)
  {
    match step
    case Take => h.(ring := Race.Apply(h.ring, capacity, Race.Take))
    case Push(k) => h.(ring := Race.Apply(h.ring, capacity, Race.Push(k)), unsent := h.unsent + {k})
    case Send(k) => h.(unsent := h.unsent - {k}, wire := if Listening(h) then h.wire + [k] else h.wire)
    case Ask(n) => Handshake(h.ring, h.unsent, n, Asked, [], 0, [])
    case Count => h.(phase := if h.n > h.ring.lastSeq then Refused else Counted)
    case Test => h.(phase := if h.n < h.ring.evictedThrough then Refused else Granted)
    case Read => h.(phase := HaveRead, missed := Race.Above(h.ring.buffer, h.n))
    case Attach => h.(phase := Attached)
    case SendNext => h.(wire := h.wire + [h.missed[h.sent]], sent := h.sent + 1)
    case Finish => h.(ring := Race.Apply(h.ring, capacity, Race.Take), phase := Done)
  }

  ghost predicate Runs(h: Handshake, capacity: nat, steps: seq<Step>, h': Handshake)
    decreases |steps|
  {
    if steps == [] then h' == h
    else Enabled(h, steps[0]) && Runs(Apply(h, capacity, steps[0]), capacity, steps[1..], h')
  }

  /** Nothing waits: numbers can be taken, pushed and sent, and sockets replaced, at any
      moment, and a handshake that was not refused can always go on. */
  lemma NothingWaits(h: Handshake, n: nat)
    ensures Enabled(h, Take) && Enabled(h, Ask(n))
    ensures forall k :: k in h.ring.pending ==> Enabled(h, Push(k))
    ensures forall k :: k in h.unsent ==> Enabled(h, Send(k))
    ensures match h.phase
            case Asked => Enabled(h, Count)
            case Counted => Enabled(h, Test)
            case Granted => Enabled(h, Read)
            case HaveRead => Enabled(h, Attach)
            case Attached => Enabled(h, if h.sent < |h.missed| then SendNext else Finish)
            case _ => true
  {
  }

  /** What is still to be replayed. */
  function Rest(h: Handshake): seq<nat> {
    if h.sent <= |h.missed| then h.missed[h.sent..] else []
  }

  /** What is on the wire, and what the handshake is still to put there. */
  function Plan(h: Handshake): seq<nat> {
    h.wire + Rest(h)
  }

  /** No dispatch is under way. */
  predicate Quiet(h: Handshake) {
    h.ring.pending == {} && h.unsent == {}
  }

  // ---------------------------------------------------------------------------
  // What every run keeps
  // ---------------------------------------------------------------------------

  ghost predicate Sound(h: Handshake, capacity: nat) {
    && Race.Inv(h.ring, capacity)
    && (forall k :: k in h.unsent ==> 1 <= k <= h.ring.lastSeq && k !in h.ring.pending)
    && h.sent <= |h.missed| && NoDup(h.missed)
    && (forall k :: k in h.missed ==> h.n < k <= h.ring.lastSeq && k !in h.ring.pending)
    && (forall k :: k in h.wire ==>
          1 <= k <= h.ring.lastSeq && k !in h.ring.pending && (k in h.missed || k !in h.unsent))
    && (forall i :: 0 <= i < h.sent ==> h.missed[i] in h.wire)
    && (!Listening(h) ==> h.wire == [] && h.sent == 0)
    && (!Listening(h) && !h.phase.HaveRead? ==> h.missed == [])
    && (h.phase.Done? ==> h.sent == |h.missed|)
    && (!h.phase.Asked? && !h.phase.Refused? ==> h.n <= h.ring.lastSeq)
  }

  lemma {:induction false} AboveKeepsNoDup(buffer: seq<nat>, n: nat)
    requires NoDup(buffer)
    ensures NoDup(Race.Above(buffer, n))
  {
    if buffer != [] {
      assert buffer == [buffer[0]] + buffer[1..];
      NoDupCons(buffer[0], buffer[1..]);
      AboveKeepsNoDup(buffer[1..], n);
      Race.InAbove(buffer[1..], n, buffer[0]);
      NoDupCons(buffer[0], Race.Above(buffer[1..], n));
    }
  }

  lemma ReadKeepsSound(h: Handshake, capacity: nat)
    requires Sound(h, capacity) && Enabled(h, Read)
    ensures Sound(Apply(h, capacity, Read), capacity)
  {
    AboveKeepsNoDup(h.ring.buffer, h.n);
    forall k: nat ensures k in Race.Above(h.ring.buffer, h.n) <==> k in h.ring.buffer && k > h.n {
      Race.InAbove(h.ring.buffer, h.n, k);
    }
  }

  lemma PushKeepsSound(h: Handshake, capacity: nat, k: nat)
    requires capacity >= 1 && Sound(h, capacity) && Enabled(h, Push(k))
    ensures Sound(Apply(h, capacity, Push(k)), capacity)
  {
    Race.PushPreserves(h.ring, capacity, k);
  }

  lemma SendKeepsSound(h: Handshake, capacity: nat, k: nat)
    requires Sound(h, capacity) && Enabled(h, Send(k))
    ensures Sound(Apply(h, capacity, Send(k)), capacity)
  {
    var h' := Apply(h, capacity, Send(k));
    assert h'.unsent == h.unsent - {k};
    assert forall x :: x in h'.wire ==> x in h.wire || x == k;
  }

  lemma SendNextKeepsSound(h: Handshake, capacity: nat)
    requires Sound(h, capacity) && Enabled(h, SendNext)
    ensures Sound(Apply(h, capacity, SendNext), capacity)
  {
    var h', k := Apply(h, capacity, SendNext), h.missed[h.sent];
    assert k in h.missed;
    assert forall x :: x in h'.wire <==> x in h.wire || x == k;
  }

  lemma StepKeepsSound(h: Handshake, capacity: nat, step: Step)
    requires capacity >= 1 && Sound(h, capacity) && Enabled(h, step)
    ensures Sound(Apply(h, capacity, step), capacity)
  {
    match step
    case Take => Race.TakePreserves(h.ring, capacity);
    case Push(k) => PushKeepsSound(h, capacity, k);
    case Read => ReadKeepsSound(h, capacity);
    case Finish => Race.TakePreserves(h.ring, capacity);
    case Send(k) => SendKeepsSound(h, capacity, k);
    case SendNext => SendNextKeepsSound(h, capacity);
    case _ =>
  }

  lemma {:induction false} RunKeepsSound(h: Handshake, capacity: nat, steps: seq<Step>, h': Handshake)
    requires capacity >= 1 && Sound(h, capacity) && Runs(h, capacity, steps, h')
    ensures Sound(h', capacity)
    decreases |steps|
  {
    if steps != [] {
      StepKeepsSound(h, capacity, steps[0]);
      RunKeepsSound(Apply(h, capacity, steps[0]), capacity, steps[1..], h');
    }
  }

  // ---------------------------------------------------------------------------
  // Three ways to go wrong, each told from the state before the step
  // ---------------------------------------------------------------------------

  datatype Fault = Loss | Repeat | Disorder

  /** Loss: the buffer is read after a frame it owes was dropped from it and sent to
      nobody; or a frame that was not read is sent before the new outbox is there.
      Repeat: a frame that was read, or that the client has, is sent after the attach.
      Disorder: what is read is not ascending; or a frame is sent when a larger one is
      on the wire already, or a smaller one still to be replayed. */
  ghost predicate Faulty(f: Fault, h: Handshake, step: Step) {
    match f
    case Loss =>
      || (step.Read? && exists k :: k in Race.Lost(h.ring, h.n) && k !in h.unsent)
      || (step.Send? && h.phase.HaveRead? && step.number > h.n && step.number !in h.missed)
    case Repeat =>
      step.Send? && Listening(h) && (step.number <= h.n || step.number in h.missed)
    case Disorder =>
      || (step.Read? && !Sorted(Race.Above(h.ring.buffer, h.n)))
      || (step.Send? && Listening(h) && (Lags(h, step.number) || Overtakes(h, step.number)))
  }

  ghost predicate Lags(h: Handshake, k: nat) {
    exists x :: x in h.wire && x > k
  }

  ghost predicate Overtakes(h: Handshake, k: nat) {
    exists x :: x in Rest(h) && x < k
  }

  ghost predicate FaultyIn(f: Fault, h: Handshake, capacity: nat, steps: seq<Step>, h': Handshake)
    requires Runs(h, capacity, steps, h')
    decreases |steps|
  {
    steps != [] &&
    (Faulty(f, h, steps[0]) || FaultyIn(f, Apply(h, capacity, steps[0]), capacity, steps[1..], h'))
  }

  ghost predicate Faultless(h: Handshake, capacity: nat, steps: seq<Step>, h': Handshake)
    requires Runs(h, capacity, steps, h')
  {
    && !FaultyIn(Loss, h, capacity, steps, h')
    && !FaultyIn(Repeat, h, capacity, steps, h')
    && !FaultyIn(Disorder, h, capacity, steps, h')
  }

  ghost predicate Sorted(s: seq<nat>) {
    forall i, j :: 0 <= i < j < |s| ==> s[i] <= s[j]
  }

  /** What each fault is a fault against: everything after `n` is on its way, nothing
      is on its way twice, and it is in order. */
  ghost predicate Fine(f: Fault, h: Handshake) {
    match f
    case Loss => Covered(h)
    case Repeat => NoDup(Plan(h)) && forall k :: k in Plan(h) ==> k > h.n
    case Disorder => Sorted(Plan(h))
  }

  ghost predicate Covered(h: Handshake) {
    forall k :: h.n < k <= h.ring.lastSeq ==> k in Plan(h) || k in h.ring.pending || k in h.unsent
  }

  /** A handshake past the reading of the buffer. */
  predicate HasRead(h: Handshake) {
    h.phase.HaveRead? || Listening(h)
  }

  lemma ReadFineIff(f: Fault, h: Handshake, capacity: nat)
    requires Sound(h, capacity) && Enabled(h, Read)
    ensures Fine(f, Apply(h, capacity, Read)) <==> !Faulty(f, h, Read)
  {
    var h' := Apply(h, capacity, Read);
    assert Plan(h') == Race.Above(h.ring.buffer, h.n);
    AboveKeepsNoDup(h.ring.buffer, h.n);
    forall k: nat ensures k in Plan(h') <==> k in h.ring.buffer && k > h.n {
      Race.InAbove(h.ring.buffer, h.n, k);
    }
    if f.Loss? && exists k :: k in Race.Lost(h.ring, h.n) && k !in h.unsent {
      var k :| k in Race.Lost(h.ring, h.n) && k !in h.unsent;
      assert k !in h.ring.buffer && k !in h.ring.pending;
    }
  }

  /** Sending a frame puts it between what is on the wire and what is to be replayed. */
  lemma SendShifts(h: Handshake, capacity: nat, k: nat)
    requires Enabled(h, Send(k))
    ensures Plan(Apply(h, capacity, Send(k))) == if Listening(h) then h.wire + [k] + Rest(h) else Plan(h)
    ensures forall x :: x in Plan(h) <==> x in h.wire || x in Rest(h)
    ensures forall x :: x in h.wire + [k] + Rest(h) <==> x in Plan(h) || x == k
  {
  }

  lemma SendCoversIff(h: Handshake, capacity: nat, k: nat)
    requires Sound(h, capacity) && HasRead(h) && Enabled(h, Send(k))
    ensures Covered(Apply(h, capacity, Send(k))) <==> Covered(h) && !Faulty(Loss, h, Send(k))
  {
    var h' := Apply(h, capacity, Send(k));
    SendShifts(h, capacity, k);
    if h.phase.HaveRead? {
      assert Plan(h) == h.missed;
    }
    if Covered(h') {
      forall x | h.n < x <= h.ring.lastSeq ensures x in Plan(h) || x in h.ring.pending || x in h.unsent {
        assert x in Plan(h') || x in h'.ring.pending || x in h'.unsent;
      }
    }
  }

  lemma NoDupInsert(a: seq<nat>, k: nat, b: seq<nat>)
    ensures NoDup(a + [k] + b) <==> NoDup(a + b) && k !in a + b
  {
    var all, less := a + [k] + b, a + b;
    if NoDup(all) {
      forall i, j | 0 <= i < j < |less| ensures less[i] != less[j] {
        assert less[i] == all[if i < |a| then i else i + 1] && less[j] == all[if j < |a| then j else j + 1];
      }
      forall i | 0 <= i < |less| ensures less[i] != k {
        assert less[i] == all[if i < |a| then i else i + 1] && all[|a|] == k;
      }
    }
    if NoDup(less) && k !in less {
      forall i, j | 0 <= i < j < |all| ensures all[i] != all[j] {
        assert i != |a| ==> all[i] == less[if i < |a| then i else i - 1];
        assert j != |a| ==> all[j] == less[if j < |a| then j else j - 1];
      }
    }
  }

  lemma SendRepeatsIff(h: Handshake, capacity: nat, k: nat)
    requires Sound(h, capacity) && HasRead(h) && Enabled(h, Send(k))
    ensures Fine(Repeat, Apply(h, capacity, Send(k))) <==> Fine(Repeat, h) && !Faulty(Repeat, h, Send(k))
  {
    SendShifts(h, capacity, k);
    if Listening(h) {
      NoDupInsert(h.wire, k, Rest(h));
      InMissedIff(h, capacity, k);
    }
  }

  /** A frame whose own send is still to come is on the wire, or to go there, exactly
      when it was read. */
  lemma InMissedIff(h: Handshake, capacity: nat, k: nat)
    requires Sound(h, capacity) && k in h.unsent
    ensures k in Plan(h) <==> k in h.missed
  {
    if k in h.missed {
      var i :| 0 <= i < |h.missed| && h.missed[i] == k;
      if i >= h.sent {
        assert Rest(h)[i - h.sent] == k;
      }
    }
  }

  lemma SortedAppend(a: seq<nat>, b: seq<nat>)
    ensures Sorted(a + b) <==> Sorted(a) && Sorted(b) && forall x, y :: x in a && y in b ==> x <= y
  {
    var all := a + b;
    if Sorted(all) {
      forall i, j | 0 <= i < j < |a| ensures a[i] <= a[j] {
        assert all[i] <= all[j];
      }
      forall i, j | 0 <= i < j < |b| ensures b[i] <= b[j] {
        assert all[|a| + i] <= all[|a| + j];
      }
      forall x, y | x in a && y in b ensures x <= y {
        var i :| 0 <= i < |a| && a[i] == x;
        var j :| 0 <= j < |b| && b[j] == y;
        assert all[i] <= all[|a| + j];
      }
    }
    if Sorted(a) && Sorted(b) && forall x, y :: x in a && y in b ==> x <= y {
      forall i, j | 0 <= i < j < |all| ensures all[i] <= all[j] {
        assert i < |a| <= j ==> a[i] in a && b[j - |a|] in b;
      }
    }
  }

  lemma SortedInsert(a: seq<nat>, k: nat, b: seq<nat>)
    ensures Sorted(a + [k] + b) <==>
            Sorted(a + b) && (forall x :: x in a ==> x <= k) && (forall x :: x in b ==> k <= x)
  {
    SortedAppend(a, b);
    SortedAppend(a, [k]);
    SortedAppend(a + [k], b);
    assert k in a + [k] && k in [k];
    assert forall x :: x in a ==> x in a + [k];
    assert forall x :: x in a + [k] ==> x in a || x == k;
  }

  lemma SendDisordersIff(h: Handshake, capacity: nat, k: nat)
    requires Sound(h, capacity) && HasRead(h) && Enabled(h, Send(k))
    ensures Fine(Disorder, Apply(h, capacity, Send(k))) <==> Fine(Disorder, h) && !Faulty(Disorder, h, Send(k))
  {
    SendShifts(h, capacity, k);
    SortedInsert(h.wire, k, Rest(h));
  }

  lemma OtherStepsKeepPlan(h: Handshake, capacity: nat, step: Step)
    requires Sound(h, capacity) && HasRead(h) && Enabled(h, step) && !step.Send? && !step.Ask?
    ensures Plan(Apply(h, capacity, step)) == Plan(h) && HasRead(Apply(h, capacity, step))
    ensures Covered(Apply(h, capacity, step)) <==> Covered(h)
  {
    var h' := Apply(h, capacity, step);
    assert h.ring.lastSeq <= h'.ring.lastSeq;
    if Covered(h') {
      forall x | h.n < x <= h.ring.lastSeq ensures x in Plan(h) || x in h.ring.pending || x in h.unsent {
        assert x in Plan(h') || x in h'.ring.pending || x in h'.unsent;
      }
    }
  }

  /** Each property is kept by a step exactly when the step is not its fault, and once
      broken it stays broken. */
  lemma StepFineIff(f: Fault, h: Handshake, capacity: nat, step: Step)
    requires Sound(h, capacity) && HasRead(h) && Enabled(h, step) && !step.Ask?
    ensures HasRead(Apply(h, capacity, step))
    ensures Fine(f, Apply(h, capacity, step)) <==> Fine(f, h) && !Faulty(f, h, step)
  {
    if step.Send? {
      match f
      case Loss => SendCoversIff(h, capacity, step.number);
      case Repeat => SendRepeatsIff(h, capacity, step.number);
      case Disorder => SendDisordersIff(h, capacity, step.number);
    } else {
      OtherStepsKeepPlan(h, capacity, step);
    }
  }

  /** One socket's run: it is not replaced. */
  predicate OneSocket(steps: seq<Step>) {
    forall i :: 0 <= i < |steps| ==> !steps[i].Ask?
  }

  lemma {:induction false} RunFineIff(f: Fault, h: Handshake, capacity: nat, steps: seq<Step>, h': Handshake)
    requires capacity >= 1 && Sound(h, capacity) && Runs(h, capacity, steps, h') && OneSocket(steps)
    ensures h'.n == h.n
    ensures HasRead(h) ==> (Fine(f, h') <==> Fine(f, h) && !FaultyIn(f, h, capacity, steps, h'))
    ensures !HasRead(h) && HasRead(h') ==> (Fine(f, h') <==> !FaultyIn(f, h, capacity, steps, h'))
    decreases |steps|
  {
    if steps != [] {
      var next := Apply(h, capacity, steps[0]);
      StepKeepsSound(h, capacity, steps[0]);
      RunFineIff(f, next, capacity, steps[1..], h');
      if HasRead(h) {
        StepFineIff(f, h, capacity, steps[0]);
      } else if steps[0].Read? {
        ReadFineIff(f, h, capacity);
      }
    }
  }

  // ---------------------------------------------------------------------------
  // Whole handshakes
  // ---------------------------------------------------------------------------

  /** The numbers after `n` up to `m`, in order. */
  function Range(n: nat, m: nat): seq<nat>
    requires n <= m
  {
    seq(m - n, i requires 0 <= i < m - n => n + 1 + i)
  }

  lemma RangeHolds(n: nat, m: nat)
    requires n <= m
    ensures forall k :: k in Range(n, m) <==> n < k <= m
    ensures NoDup(Range(n, m)) && Sorted(Range(n, m))
  {
    var range := Range(n, m);
    forall k | n < k <= m ensures k in range {
      assert range[k - n - 1] == k;
    }
  }

  /** Ascending numbers above `n` with none left out are a range. */
  lemma {:induction false} NoGapIsRange(s: seq<nat>, n: nat, i: nat)
    requires Sorted(s) && NoDup(s) && (forall x :: x in s ==> x > n) && i <= |s|
    requires forall x, y :: x in s && n < y < x ==> y in s
    ensures forall j :: 0 <= j < i ==> s[j] == n + 1 + j
  {
    if i > 0 {
      NoGapIsRange(s, n, i - 1);
      var x, y := s[i - 1], n + i;
      assert i > 1 ==> s[i - 2] <= x && s[i - 2] != x;
      assert x in s && x >= y;
      forall j | 0 <= j < |s| ensures x > y ==> s[j] != y {
        assert j > i - 1 ==> x <= s[j];
      }
      assert x > y ==> y !in s;
    }
  }

  lemma ExactIff(h: Handshake, capacity: nat)
    requires Sound(h, capacity) && h.phase.Done? && Quiet(h)
    ensures Plan(h) == h.wire
    ensures h.wire == Range(h.n, h.ring.lastSeq) <==> Fine(Loss, h) && Fine(Repeat, h) && Fine(Disorder, h)
  {
    var n, last := h.n, h.ring.lastSeq;
    RangeHolds(n, last);
    assert Plan(h) == h.wire;
    if Fine(Loss, h) && Fine(Repeat, h) && Fine(Disorder, h) {
      assert forall k :: k in h.wire <==> n < k <= last;
      NoGapIsRange(h.wire, n, |h.wire|);
      SameLength(h.wire, n, last);
    }
  }

  lemma SameLength(s: seq<nat>, n: nat, m: nat)
    requires n <= m && (forall j :: 0 <= j < |s| ==> s[j] == n + 1 + j)
    requires forall k :: k in s <==> n < k <= m
    ensures s == Range(n, m)
  {
    if |s| > 0 {
      assert s[|s| - 1] in s;
    }
    if m > n {
      assert m in s;
    }
  }

  /** The run of one socket, after any run of the session before it, up to a moment
      when RESUMED and every other dispatch is through. */
  ghost predicate Resumes(
    capacity: nat, history: seq<Step>, asked: Handshake, steps: seq<Step>, h: Handshake)
  {
    && Runs(OPENED, capacity, history, asked) && asked.phase.Asked?
    && Runs(asked, capacity, steps, h) && OneSocket(steps)
    && h.phase.Done? && Quiet(h)
  }

  lemma ResumesSoundly(capacity: nat, history: seq<Step>, asked: Handshake, steps: seq<Step>, h: Handshake)
    requires capacity >= 1 && Resumes(capacity, history, asked, steps, h)
    ensures Sound(asked, capacity) && Sound(h, capacity) && Plan(h) == h.wire
  {
    RunKeepsSound(OPENED, capacity, history, asked);
    RunKeepsSound(asked, capacity, steps, h);
  }

  lemma FineAtTheEndIff(
    f: Fault, capacity: nat, history: seq<Step>, asked: Handshake, steps: seq<Step>, h: Handshake)
    requires capacity >= 1 && Resumes(capacity, history, asked, steps, h)
    ensures Fine(f, h) <==> !FaultyIn(f, asked, capacity, steps, h)
  {
    ResumesSoundly(capacity, history, asked, steps, h);
    RunFineIff(f, asked, capacity, steps, h);
  }

  /** A whole RESUME, over every run of the session before it and every interleaving
      with other threads, once all of them are through. The client's socket was given
      every number after the one presented exactly when the run holds no loss; none
      of them twice and none up to that one exactly when it holds no repeat; in order
      exactly when it holds no disorder; and so exactly the log after the number
      presented when it holds none of the three. */
  lemma ResumeIsExactIff(
    capacity: nat, history: seq<Step>, asked: Handshake, steps: seq<Step>, h: Handshake)
    requires capacity >= 1 && Resumes(capacity, history, asked, steps, h)
    ensures h.n == asked.n <= h.ring.lastSeq
    ensures (forall k :: h.n < k <= h.ring.lastSeq ==> k in h.wire) <==> !FaultyIn(Loss, asked, capacity, steps, h)
    ensures NoDup(h.wire) && (forall k :: k in h.wire ==> k > h.n) <==> !FaultyIn(Repeat, asked, capacity, steps, h)
    ensures Sorted(h.wire) <==> !FaultyIn(Disorder, asked, capacity, steps, h)
    ensures h.wire == Range(h.n, h.ring.lastSeq) <==> Faultless(asked, capacity, steps, h)
  {
    ResumesSoundly(capacity, history, asked, steps, h);
    RunFineIff(Loss, asked, capacity, steps, h);
    FineAtTheEndIff(Loss, capacity, history, asked, steps, h);
    FineAtTheEndIff(Repeat, capacity, history, asked, steps, h);
    FineAtTheEndIff(Disorder, capacity, history, asked, steps, h);
    ExactIff(h, capacity);
  }

  // ---------------------------------------------------------------------------
  // Undisturbed, it is the session's own replay
  // ---------------------------------------------------------------------------

  /** The numbers of a session's ring, with nothing under way. */
  ghost predicate Stands(r: Race.Race, ring: Ring) {
    && r.lastSeq == ring.lastSeq && r.evictedThrough == ring.evictedThrough && r.pending == {}
    && |r.buffer| == |ring.buffer| && forall i :: 0 <= i < |r.buffer| ==> r.buffer[i] == ring.buffer[i].s
  }

  /** A dispatch whose steps follow each other is the session's dispatch. */
  lemma UndisturbedDispatch(r: Race.Race, ring: Ring, capacity: nat, e: Event)
    requires Stands(r, ring)
    ensures var taken := Race.Apply(r, capacity, Race.Take);
            && Race.Enabled(taken, Race.Push(r.lastSeq + 1))
            && Stands(Race.Apply(taken, capacity, Race.Push(r.lastSeq + 1)), Record(ring, capacity, e))
  {
  }

  function NumbersOf(frames: seq<Frame>): (ks: seq<nat>)
    ensures |ks| == |frames| && forall i :: 0 <= i < |ks| ==> ks[i] == frames[i].s
  {
    seq(|frames|, i requires 0 <= i < |frames| => frames[i].s)
  }

  lemma {:induction false} AboveNumbers(buffer: seq<nat>, frames: seq<Frame>, n: nat)
    requires |buffer| == |frames| && forall i :: 0 <= i < |buffer| ==> buffer[i] == frames[i].s
    ensures Race.Above(buffer, n) == NumbersOf(NumberedAbove(frames, n))
  {
    if buffer != [] {
      AboveNumbers(buffer[1..], frames[1..], n);
      var rest := NumberedAbove(frames[1..], n);
      assert NumbersOf([frames[0]] + rest) == [buffer[0]] + NumbersOf(rest);
    }
  }

  /** A handshake whose first three steps follow each other is refused exactly when the
      session has no replay for the number, and reads exactly that replay otherwise. */
  lemma UndisturbedHandshake(h: Handshake, ring: Ring, capacity: nat)
    requires h.phase.Asked? && Stands(h.ring, ring)
    ensures var counted := Apply(h, capacity, Count);
            if counted.phase.Refused? then Replay(ring, h.n).None?
            else
              var tested := Apply(counted, capacity, Test);
              if tested.phase.Refused? then Replay(ring, h.n).None?
              else Replay(ring, h.n).Some?
                   && Apply(tested, capacity, Read).missed == NumbersOf(Replay(ring, h.n).value)
  {
    AboveNumbers(h.ring.buffer, ring.buffer, h.n);
  }

  // ---------------------------------------------------------------------------
  // What the client makes of it
  // ---------------------------------------------------------------------------

  /** A client taking several frames in turn. */
  function Absorb(m: Memory, frames: seq<Frame>): Memory
    decreases |frames|
  {
    if frames == [] then m else Absorb(OnDispatch(m, frames[0]), frames[1..])
  }

  function Events(frames: seq<Frame>): (e: seq<Event>)
    ensures |e| == |frames|
  {
    seq(|frames|, i requires 0 <= i < |frames| => frames[i].event)
  }

  lemma {:induction false} AbsorbPlain(m: Memory, frames: seq<Frame>)
    requires forall i :: 0 <= i < |frames| ==> !frames[i].event.Ready?
    ensures Absorb(m, frames).applied == m.applied + Events(frames)
    decreases |frames|
  {
    if frames != [] {
      AbsorbPlain(OnDispatch(m, frames[0]), frames[1..]);
      assert Events(frames) == [frames[0].event] + Events(frames[1..]);
    }
  }

  lemma {:induction false} AbsorbPosition(m: Memory, frames: seq<Frame>)
    requires frames != []
    ensures Absorb(m, frames).lastSeq == frames[|frames| - 1].s
    decreases |frames|
  {
    if |frames| > 1 {
      AbsorbPosition(OnDispatch(m, frames[0]), frames[1..]);
    } else {
      assert frames[1..] == [];
    }
  }

  ghost predicate Numbers(ks: seq<nat>, log: seq<Event>) {
    forall i :: 0 <= i < |ks| ==> 1 <= ks[i] <= |log|
  }

  /** The frames that carry these numbers, when `log` holds the events by number. */
  function FramesOf(log: seq<Event>, ks: seq<nat>): seq<Frame>
    requires Numbers(ks, log)
  {
    seq(|ks|, i requires 0 <= i < |ks| => Frame(ks[i], log[ks[i] - 1]))
  }

  /** The number sent last in a run. */
  function LastSent(steps: seq<Step>): Option<nat>
    decreases |steps|
  {
    if steps == [] then None
    else if LastSent(steps[1..]).Some? then LastSent(steps[1..])
    else if steps[0].Send? then Some(steps[0].number)
    else None
  }

  lemma {:induction false} DoneEndsWithLastSent(h: Handshake, capacity: nat, steps: seq<Step>, h': Handshake)
    requires Runs(h, capacity, steps, h') && OneSocket(steps) && h.phase.Done?
    ensures LastSent(steps).None? ==> h'.wire == h.wire
    ensures LastSent(steps).Some? ==> h'.wire != [] && h'.wire[|h'.wire| - 1] == LastSent(steps).value
    decreases |steps|
  {
    if steps != [] {
      DoneEndsWithLastSent(Apply(h, capacity, steps[0]), capacity, steps[1..], h');
    }
  }

  lemma {:induction false} MustBeSent(h: Handshake, capacity: nat, steps: seq<Step>, h': Handshake, k: nat)
    requires Runs(h, capacity, steps, h') && (k in h.ring.pending || k in h.unsent) && Quiet(h')
    ensures LastSent(steps).Some?
    decreases |steps|
  {
    if steps != [] && steps[0] != Send(k) {
      MustBeSent(Apply(h, capacity, steps[0]), capacity, steps[1..], h', k);
    }
  }

  lemma {:induction false} EndsWithLastSent(h: Handshake, capacity: nat, steps: seq<Step>, h': Handshake)
    requires Runs(h, capacity, steps, h') && OneSocket(steps) && !h.phase.Done? && h'.phase.Done? && Quiet(h')
    ensures LastSent(steps).Some? && h'.wire != [] && h'.wire[|h'.wire| - 1] == LastSent(steps).value
    decreases |steps|
  {
    var next := Apply(h, capacity, steps[0]);
    if steps[0].Finish? {
      MustBeSent(next, capacity, steps[1..], h', next.ring.lastSeq);
      DoneEndsWithLastSent(next, capacity, steps[1..], h');
    } else {
      EndsWithLastSent(next, capacity, steps[1..], h');
    }
  }

  lemma FramesOfRange(log: seq<Event>, n: nat, ks: seq<nat>)
    requires n <= |log| && Numbers(ks, log)
    ensures FramesOf(log, ks) == Frames(log)[n..] <==> ks == Range(n, |log|)
  {
    var frames, want := FramesOf(log, ks), Frames(log)[n..];
    assert forall i :: 0 <= i < |want| ==> want[i] == Frame(n + 1 + i, log[n + i]);
    if frames == want {
      forall i | 0 <= i < |ks| ensures ks[i] == n + 1 + i {
        assert frames[i].s == ks[i];
      }
    }
  }

  lemma EventsAfter(log: seq<Event>, n: nat)
    requires n <= |log|
    ensures log[..n] + Events(Frames(log)[n..]) == log
  {
  }

  lemma WireIsNumbered(capacity: nat, h: Handshake, log: seq<Event>)
    requires Sound(h, capacity) && |log| == h.ring.lastSeq
    ensures Numbers(h.wire, log)
  {
    assert forall i :: 0 <= i < |h.wire| ==> h.wire[i] in h.wire;
  }

  lemma AbsorbsTheRest(m: Memory, log: seq<Event>, n: nat)
    requires n <= |log| && m.applied == log[..n] && 1 <= n && forall i :: 1 <= i < |log| ==> !log[i].Ready?
    ensures Absorb(m, Frames(log)[n..]).applied == log
  {
    AbsorbPlain(m, Frames(log)[n..]);
    EventsAfter(log, n);
  }

  /** For whatever events the numbers stand for. The client that held the log up to the
      number it presented was sent the frames after it exactly when the run holds none
      of the three faults, and then holds the whole log. */
  lemma ResumedClientHoldsTheLogIff(
    capacity: nat, history: seq<Step>, asked: Handshake, steps: seq<Step>, h: Handshake, m: Memory, log: seq<Event>)
    requires capacity >= 1 && Resumes(capacity, history, asked, steps, h)
    requires |log| == h.ring.lastSeq && forall i :: 1 <= i < |log| ==> !log[i].Ready?
    requires 1 <= m.lastSeq == h.n <= |log| && m.applied == log[..m.lastSeq]
    ensures Numbers(h.wire, log)
    ensures FramesOf(log, h.wire) == Frames(log)[h.n..] <==> Faultless(asked, capacity, steps, h)
    ensures Faultless(asked, capacity, steps, h) ==> Absorb(m, FramesOf(log, h.wire)).applied == log
  {
    ResumesSoundly(capacity, history, asked, steps, h);
    WireIsNumbered(capacity, h, log);
    ResumeIsExactIff(capacity, history, asked, steps, h);
    FramesOfRange(log, h.n, h.wire);
    AbsorbsTheRest(m, log, h.n);
  }

  /** In every case the position the client ends at is the number sent last. */
  lemma ClientEndsAtLastSent(
    capacity: nat, history: seq<Step>, asked: Handshake, steps: seq<Step>, h: Handshake, m: Memory, log: seq<Event>)
    requires capacity >= 1 && Resumes(capacity, history, asked, steps, h) && |log| == h.ring.lastSeq
    ensures Numbers(h.wire, log)
    ensures Some(Absorb(m, FramesOf(log, h.wire)).lastSeq) == LastSent(steps)
  {
    ResumesSoundly(capacity, history, asked, steps, h);
    WireIsNumbered(capacity, h, log);
    EndsWithLastSent(asked, capacity, steps, h);
    AbsorbPosition(m, FramesOf(log, h.wire));
  }

  // ---------------------------------------------------------------------------
  // When frames are pushed in number order
  // ---------------------------------------------------------------------------

  ghost predicate PushedInOrder(h: Handshake, capacity: nat, steps: seq<Step>, h': Handshake)
    requires Runs(h, capacity, steps, h')
    decreases |steps|
  {
    steps == [] ||
    (&& (steps[0].Push? ==> forall m :: m in h.ring.pending ==> steps[0].number <= m)
     && PushedInOrder(Apply(h, capacity, steps[0]), capacity, steps[1..], h'))
  }

  lemma {:induction false} RunKeepsOrder(h: Handshake, capacity: nat, steps: seq<Step>, h': Handshake)
    requires Race.InOrder(h.ring) && Runs(h, capacity, steps, h') && PushedInOrder(h, capacity, steps, h')
    ensures Race.InOrder(h'.ring)
    decreases |steps|
  {
    if steps != [] {
      if steps[0].Push? {
        Race.PushKeepsOrder(h.ring, capacity, steps[0].number);
      } else if steps[0].Take? || steps[0].Finish? {
        Race.TakeKeepsOrder(h.ring, capacity);
      }
      RunKeepsOrder(Apply(h, capacity, steps[0]), capacity, steps[1..], h');
    }
  }

  lemma {:induction false} AboveKeepsSorted(buffer: seq<nat>, n: nat)
    requires Sorted(buffer)
    ensures Sorted(Race.Above(buffer, n))
  {
    if buffer != [] {
      var rest := buffer[1..];
      AboveKeepsSorted(rest, n);
      assert forall i :: 0 <= i < |rest| ==> rest[i] == buffer[i + 1];
      forall x | x in Race.Above(rest, n) ensures buffer[0] <= x {
        Race.InAbove(rest, n, x);
      }
      SortedAppend([buffer[0]], Race.Above(rest, n));
    }
  }

  /** A buffer filled in order, that has dropped nothing above `n`, holds what follows
      `n` without a gap. */
  lemma OrderedReadIsRange(h: Handshake, capacity: nat)
    requires Sound(h, capacity) && Race.InOrder(h.ring) && h.ring.evictedThrough <= h.n
    ensures var missed := Race.Above(h.ring.buffer, h.n); missed == Range(h.n, h.n + |missed|)
  {
    var buffer, n := h.ring.buffer, h.n;
    var missed := Race.Above(buffer, n);
    AboveKeepsSorted(buffer, n);
    AboveKeepsNoDup(buffer, n);
    forall x: nat ensures x in missed <==> x in buffer && x > n {
      Race.InAbove(buffer, n, x);
    }
    forall x, y | x in missed && n < y < x ensures y in missed {
      assert x in buffer;
      assert y in h.ring.pending || y in h.ring.buffer || y in h.ring.evicted;
    }
    NoGapIsRange(missed, n, |missed|);
  }

  /** With `top` the last number the replay read. A frame up to it is sent after the
      attach; or one above it before the last missed frame is out; or one when a larger
      one is on the wire already. */
  ghost predicate Untimely(h: Handshake, step: Step, top: nat) {
    step.Send? &&
    (|| (Listening(h) && step.number <= top)
     || (step.number > top && (h.phase.HaveRead? || Rest(h) != []))
     || (Listening(h) && Lags(h, step.number)))
  }

  ghost predicate UntimelyIn(h: Handshake, capacity: nat, steps: seq<Step>, h': Handshake, top: nat)
    requires Runs(h, capacity, steps, h')
    decreases |steps|
  {
    steps != [] &&
    (|| Untimely(h, steps[0], top)
     || UntimelyIn(Apply(h, capacity, steps[0]), capacity, steps[1..], h', top))
  }

  ghost predicate AnyFault(h: Handshake, step: Step) {
    Faulty(Loss, h, step) || Faulty(Repeat, h, step) || Faulty(Disorder, h, step)
  }

  lemma FaultlessCons(h: Handshake, capacity: nat, steps: seq<Step>, h': Handshake)
    requires Runs(h, capacity, steps, h') && steps != []
    ensures Faultless(h, capacity, steps, h') <==>
            !AnyFault(h, steps[0]) && Faultless(Apply(h, capacity, steps[0]), capacity, steps[1..], h')
  {
  }

  lemma UntimelyIff(h: Handshake, step: Step, top: nat)
    requires HasRead(h) && Enabled(h, step) && h.n <= top && h.missed == Range(h.n, top)
    ensures Untimely(h, step, top) <==> AnyFault(h, step)
  {
    RangeHolds(h.n, top);
    if step.Send? && step.number > top {
      OvertakesIff(h, step.number, top);
    }
  }

  lemma OvertakesIff(h: Handshake, k: nat, top: nat)
    requires h.n <= top && h.missed == Range(h.n, top) && k > top
    ensures Overtakes(h, k) <==> Rest(h) != []
  {
    RangeHolds(h.n, top);
    if Rest(h) != [] {
      assert Rest(h)[0] in h.missed && Rest(h)[0] in Rest(h);
    }
  }

  lemma StaysRead(h: Handshake, capacity: nat, step: Step)
    requires HasRead(h) && Enabled(h, step) && !step.Ask?
    ensures var h' := Apply(h, capacity, step); HasRead(h') && h'.n == h.n && h'.missed == h.missed
  {
  }

  lemma {:induction false} UntimelyRunIff(h: Handshake, capacity: nat, steps: seq<Step>, h': Handshake, top: nat)
    requires HasRead(h) && Runs(h, capacity, steps, h') && OneSocket(steps)
    requires h.n <= top && h.missed == Range(h.n, top)
    ensures !UntimelyIn(h, capacity, steps, h', top) <==> Faultless(h, capacity, steps, h')
    decreases |steps|
  {
    if steps != [] {
      UntimelyIff(h, steps[0], top);
      StaysRead(h, capacity, steps[0]);
      FaultlessCons(h, capacity, steps, h');
      UntimelyRunIff(Apply(h, capacity, steps[0]), capacity, steps[1..], h', top);
    }
  }

  /** Any run up to the read of the buffer, and any run of the same socket from there to
      a moment when RESUMED and every other dispatch is through. */
  ghost predicate ReadsAndResumes(
    capacity: nat, history: seq<Step>, granted: Handshake, steps: seq<Step>, h: Handshake)
  {
    && Runs(OPENED, capacity, history, granted) && granted.phase.Granted?
    && Runs(Apply(granted, capacity, Read), capacity, steps, h) && OneSocket(steps)
    && h.phase.Done? && Quiet(h)
  }

  lemma OrderedReadIsFine(capacity: nat, history: seq<Step>, granted: Handshake, top: nat)
    requires capacity >= 1 && Runs(OPENED, capacity, history, granted) && granted.phase.Granted?
    requires PushedInOrder(OPENED, capacity, history, granted) && granted.ring.evictedThrough <= granted.n
    requires top == granted.n + |Apply(granted, capacity, Read).missed|
    ensures var read := Apply(granted, capacity, Read);
            && Sound(read, capacity) && read.missed == Range(granted.n, top)
            && forall f :: Fine(f, read)
  {
    OrderedGrant(capacity, history, granted);
    ReadKeepsSound(granted, capacity);
    OrderedReadIsRange(granted, capacity);
    ReadIsFine(granted, capacity, top);
  }

  lemma OrderedGrant(capacity: nat, history: seq<Step>, granted: Handshake)
    requires capacity >= 1 && Runs(OPENED, capacity, history, granted)
    requires PushedInOrder(OPENED, capacity, history, granted)
    ensures Sound(granted, capacity) && Race.InOrder(granted.ring)
  {
    RunKeepsSound(OPENED, capacity, history, granted);
    RunKeepsOrder(OPENED, capacity, history, granted);
  }

  lemma ReadIsFine(granted: Handshake, capacity: nat, top: nat)
    requires Sound(granted, capacity) && granted.phase.Granted?
    requires granted.n <= top && granted.ring.evictedThrough <= granted.n && Race.InOrder(granted.ring)
    requires Race.Above(granted.ring.buffer, granted.n) == Range(granted.n, top)
    ensures forall f :: Fine(f, Apply(granted, capacity, Read))
  {
    RangeHolds(granted.n, top);
    assert !Faulty(Loss, granted, Read) && !Faulty(Repeat, granted, Read) && !Faulty(Disorder, granted, Read);
    forall f ensures Fine(f, Apply(granted, capacity, Read)) {
      ReadFineIff(f, granted, capacity);
    }
  }

  lemma FineReadIsExactIff(read: Handshake, capacity: nat, steps: seq<Step>, h: Handshake)
    requires capacity >= 1 && Sound(read, capacity) && HasRead(read) && forall f :: Fine(f, read)
    requires Runs(read, capacity, steps, h) && OneSocket(steps) && h.phase.Done? && Quiet(h)
    ensures h.n == read.n <= h.ring.lastSeq
    ensures h.wire == Range(h.n, h.ring.lastSeq) <==> Faultless(read, capacity, steps, h)
  {
    RunKeepsSound(read, capacity, steps, h);
    RunFineIff(Loss, read, capacity, steps, h);
    RunFineIff(Repeat, read, capacity, steps, h);
    RunFineIff(Disorder, read, capacity, steps, h);
    ExactIff(h, capacity);
  }

  /** If frames were pushed in number order until the replay was read, and none above
      the number presented had been dropped by then, the replay is the log from there
      to `top`; and the client's socket is given exactly the log after the number
      presented, in order, exactly when no frame up to `top` was sent after the attach,
      none above it before the last missed one, and none after a larger one. */
  lemma OrderedResumeIsExactIff(
    capacity: nat, history: seq<Step>, granted: Handshake, steps: seq<Step>, h: Handshake)
    requires capacity >= 1 && ReadsAndResumes(capacity, history, granted, steps, h)
    requires PushedInOrder(OPENED, capacity, history, granted) && granted.ring.evictedThrough <= granted.n
    ensures var read := Apply(granted, capacity, Read);
            var top := granted.n + |read.missed|;
            && h.n == granted.n <= h.ring.lastSeq && read.missed == Range(granted.n, top)
            && (h.wire == Range(h.n, h.ring.lastSeq) <==> !UntimelyIn(read, capacity, steps, h, top))
  {
    var read := Apply(granted, capacity, Read);
    var top := granted.n + |read.missed|;
    OrderedReadIsFine(capacity, history, granted, top);
    FineReadIsExactIff(read, capacity, steps, h);
    UntimelyRunIff(read, capacity, steps, h, top);
  }

  // ---------------------------------------------------------------------------
  // A socket that may be lost at any moment
  // ---------------------------------------------------------------------------

  /** What was given to a socket can be continued from its last number: it is all the
      numbers after `n` up to that one. */
  ghost predicate Continuable(n: nat, wire: seq<nat>) {
    wire != [] && forall x :: x in wire <==> n < x <= wire[|wire| - 1]
  }

  /** So it was at every moment since the socket had its first frame. */
  ghost predicate AlwaysContinuable(h: Handshake) {
    forall j :: 0 < j <= |h.wire| ==> Continuable(h.n, h.wire[..j])
  }

  /** A frame sent while a smaller number is still on its way. */
  ghost predicate Jumps(h: Handshake, step: Step) {
    step.Send? && exists x :: (x in h.ring.pending || x in h.unsent) && x < step.number
  }

  ghost predicate JumpsIn(h: Handshake, capacity: nat, steps: seq<Step>, h': Handshake)
    requires Runs(h, capacity, steps, h')
    decreases |steps|
  {
    steps != [] && (Jumps(h, steps[0]) || JumpsIn(Apply(h, capacity, steps[0]), capacity, steps[1..], h'))
  }

  /** A socket past its replay that was given the log up to a point, with the rest of
      it still on its way. */
  ghost predicate Straight(h: Handshake, capacity: nat) {
    && Sound(h, capacity) && h.phase.Done?
    && h.wire == Range(h.n, h.n + |h.wire|)
    && forall k :: k in h.ring.pending || k in h.unsent <==> h.n + |h.wire| < k <= h.ring.lastSeq
  }

  lemma OpenedIsStraight(capacity: nat)
    ensures Straight(OPENED, capacity)
  {
  }

  lemma ExactIsStraight(h: Handshake, capacity: nat)
    requires Sound(h, capacity) && h.phase.Done? && Quiet(h) && h.wire == Range(h.n, h.ring.lastSeq)
    ensures Straight(h, capacity)
  {
    var range := Range(h.n, h.ring.lastSeq);
    assert |range| == h.ring.lastSeq - h.n && h.wire == range;
  }

  lemma RangeGrows(n: nat, m: nat)
    requires n <= m
    ensures Range(n, m) + [m + 1] == Range(n, m + 1)
  {
  }

  lemma StraightSend(h: Handshake, capacity: nat, k: nat)
    requires Straight(h, capacity) && Enabled(h, Send(k)) && !Jumps(h, Send(k))
    ensures Straight(Apply(h, capacity, Send(k)), capacity)
  {
    var m := h.n + |h.wire|;
    assert k == m + 1 by {
      assert m + 1 in h.ring.pending || m + 1 in h.unsent;
    }
    RangeGrows(h.n, m);
    SendKeepsSound(h, capacity, k);
  }

  lemma StraightDispatch(h: Handshake, capacity: nat, step: Step)
    requires capacity >= 1 && Straight(h, capacity) && Enabled(h, step) && (step.Take? || step.Push?)
    ensures Straight(Apply(h, capacity, step), capacity)
  {
    var h' := Apply(h, capacity, step);
    StepKeepsSound(h, capacity, step);
    assert h.wire != [] ==> h.wire[|h.wire| - 1] in h.wire;
    assert h.n + |h.wire| <= h.ring.lastSeq;
    assert forall k :: k in h'.ring.pending || k in h'.unsent <==>
                       k in h.ring.pending || k in h.unsent || (step.Take? && k == h'.ring.lastSeq);
  }

  lemma StraightStep(h: Handshake, capacity: nat, step: Step)
    requires capacity >= 1 && Straight(h, capacity) && Enabled(h, step) && !step.Ask? && !Jumps(h, step)
    ensures Straight(Apply(h, capacity, step), capacity)
  {
    if step.Send? {
      StraightSend(h, capacity, step.number);
    } else {
      StraightDispatch(h, capacity, step);
    }
  }

  lemma StraightIsContinuable(h: Handshake, capacity: nat)
    requires Straight(h, capacity)
    ensures AlwaysContinuable(h)
  {
    forall j | 0 < j <= |h.wire| ensures Continuable(h.n, h.wire[..j]) {
      RangeHolds(h.n, h.n + j);
      assert h.wire[..j] == Range(h.n, h.n + j);
    }
  }

  lemma JumpBreaks(h: Handshake, capacity: nat, k: nat)
    requires Straight(h, capacity) && Enabled(h, Send(k)) && Jumps(h, Send(k))
    ensures !Continuable(h.n, Apply(h, capacity, Send(k)).wire)
  {
    var wire := Apply(h, capacity, Send(k)).wire;
    var x :| (x in h.ring.pending || x in h.unsent) && x < k;
    assert wire[|wire| - 1] == k;
    RangeHolds(h.n, h.n + |h.wire|);
    assert x !in wire;
  }

  lemma {:induction false} WireGrows(h: Handshake, capacity: nat, steps: seq<Step>, h': Handshake)
    requires h.phase.Done? && Runs(h, capacity, steps, h') && OneSocket(steps)
    ensures h.wire <= h'.wire && h'.n == h.n
    decreases |steps|
  {
    if steps != [] {
      WireGrows(Apply(h, capacity, steps[0]), capacity, steps[1..], h');
    }
  }

  /** From an IDENTIFY or from an exact RESUME on, over every run of that socket: at
      every moment it could have been lost, the client had all numbers up to the one it
      would present, exactly when no frame was sent while a smaller number was on its
      way. */
  lemma {:induction false} AlwaysContinuableIff(h: Handshake, capacity: nat, steps: seq<Step>, h': Handshake)
    requires capacity >= 1 && Straight(h, capacity) && Runs(h, capacity, steps, h') && OneSocket(steps)
    ensures AlwaysContinuable(h') <==> !JumpsIn(h, capacity, steps, h')
    ensures !JumpsIn(h, capacity, steps, h') ==> Straight(h', capacity)
    decreases |steps|
  {
    if steps == [] {
      StraightIsContinuable(h, capacity);
    } else {
      var next := Apply(h, capacity, steps[0]);
      if Jumps(h, steps[0]) {
        JumpBreaks(h, capacity, steps[0].number);
        WireGrows(next, capacity, steps[1..], h');
        assert next.wire == h'.wire[..|next.wire|];
      } else {
        StraightStep(h, capacity, steps[0]);
        AlwaysContinuableIff(next, capacity, steps[1..], h');
      }
    }
  }

  /** In particular on the socket of an IDENTIFY, from its first frame on. */
  lemma FirstSocketContinuableIff(capacity: nat, steps: seq<Step>, h: Handshake)
    requires capacity >= 1 && Runs(OPENED, capacity, steps, h) && OneSocket(steps)
    ensures AlwaysContinuable(h) <==> !JumpsIn(OPENED, capacity, steps, h)
  {
    OpenedIsStraight(capacity);
    AlwaysContinuableIff(OPENED, capacity, steps, h);
  }

  /** And on the socket of a RESUME without fault, once it is through. */
  lemma ResumedSocketContinuableIff(
    capacity: nat, history: seq<Step>, asked: Handshake, steps: seq<Step>, h: Handshake, more: seq<Step>, h': Handshake)
    requires capacity >= 1 && Resumes(capacity, history, asked, steps, h) && Faultless(asked, capacity, steps, h)
    requires Runs(h, capacity, more, h') && OneSocket(more)
    ensures AlwaysContinuable(h') <==> !JumpsIn(h, capacity, more, h')
  {
    ResumesSoundly(capacity, history, asked, steps, h);
    ResumeIsExactIff(capacity, history, asked, steps, h);
    ExactIsStraight(h, capacity);
    AlwaysContinuableIff(h, capacity, more, h');
  }

  // ---------------------------------------------------------------------------
  // Runs that go wrong
  // ---------------------------------------------------------------------------

  /** One step put before a run. */
  lemma Before(h: Handshake, capacity: nat, step: Step, next: Handshake, rest: seq<Step>, last: Handshake)
    returns (steps: seq<Step>)
    requires Enabled(h, step) && Apply(h, capacity, step) == next && Runs(next, capacity, rest, last)
    ensures Runs(h, capacity, steps, last) && (OneSocket(rest) && !step.Ask? ==> OneSocket(steps))
  {
    steps := [step] + rest;
    assert steps[1..] == rest;
  }

  /** A ring with room to spare. */
  function Roomy(lastSeq: nat, pending: set<nat>, buffer: seq<nat>): Race.Race {
    Race.Race(lastSeq, pending, buffer, {}, 0)
  }

  /** A client on its first socket that has its READY. */
  function Greeted(): Handshake {
    OPENED.(ring := Roomy(1, {}, [1]), wire := [1])
  }

  lemma ToGreeted(capacity: nat, rest: seq<Step>, last: Handshake) returns (steps: seq<Step>)
    requires capacity >= 3 && Runs(Greeted(), capacity, rest, last)
    ensures Runs(OPENED, capacity, steps, last) && (OneSocket(rest) ==> OneSocket(steps))
  {
    var h1 := OPENED.(ring := Roomy(1, {1}, []));
    var h2 := OPENED.(ring := Roomy(1, {}, [1]), unsent := {1});
    steps := Before(h2, capacity, Send(1), Greeted(), rest, last);
    steps := Before(h1, capacity, Push(1), h2, steps, last);
    steps := Before(OPENED, capacity, Take, h1, steps, last);
  }

  /** A client that has its READY and comes back on a new socket. */
  function Back(): Handshake {
    Handshake(Roomy(1, {}, [1]), {}, 1, Asked, [], 0, [])
  }

  lemma BackIsReached(capacity: nat) returns (steps: seq<Step>)
    requires capacity >= 3
    ensures Runs(OPENED, capacity, steps, Back())
  {
    steps := Before(Greeted(), capacity, Ask(1), Back(), [], Back());
    steps := ToGreeted(capacity, steps, Back());
  }

  /** Number 2 is pushed while the client is away; `unsent` says whether its own send is
      over. The replay is read and the new outbox attached. */
  lemma BackToAttached(capacity: nat, unsent: set<nat>, rest: seq<Step>, last: Handshake) returns (steps: seq<Step>)
    requires capacity >= 3 && (unsent == {} || unsent == {2})
    requires Runs(Handshake(Roomy(2, {}, [1, 2]), unsent, 1, Attached, [2], 0, []), capacity, rest, last)
    requires OneSocket(rest)
    ensures Runs(Back(), capacity, steps, last) && OneSocket(steps)
  {
    var h1, h2 := Back().(ring := Roomy(2, {2}, [1])), Back().(ring := Roomy(2, {}, [1, 2]), unsent := {2});
    var h3 := h2.(unsent := unsent);
    var h4, h5, h6 := h3.(phase := Counted), h3.(phase := Granted), h3.(phase := HaveRead, missed := [2]);
    assert [1, 2][1..] == [2] && [2][1..] == [] && Race.Above([1, 2], 1) == [2];
    steps := Before(h6, capacity, Attach, h6.(phase := Attached), rest, last);
    steps := Before(h5, capacity, Read, h6, steps, last);
    steps := Before(h4, capacity, Test, h5, steps, last);
    steps := Before(h3, capacity, Count, h4, steps, last);
    if unsent == {} {
      steps := Before(h2, capacity, Send(2), h3, steps, last);
    }
    steps := Before(h1, capacity, Push(2), h2, steps, last);
    steps := Before(Back(), capacity, Take, h1, steps, last);
  }

  /** A frame that was read for the replay, and whose own send comes after the attach,
      is received twice. */
  lemma LateSendRepeats(capacity: nat) returns (history: seq<Step>, steps: seq<Step>, h: Handshake)
    requires capacity >= 3
    ensures Resumes(capacity, history, Back(), steps, h) && h.wire == [2, 2, 3]
  {
    history := BackIsReached(capacity);
    var h0 := Handshake(Roomy(2, {}, [1, 2]), {2}, 1, Attached, [2], 0, []);
    var h1, h2 := h0.(unsent := {}, wire := [2]), h0.(unsent := {}, wire := [2, 2], sent := 1);
    var h3 := h2.(ring := Roomy(3, {3}, [1, 2]), phase := Done);
    var h4 := h3.(ring := Roomy(3, {}, [1, 2, 3]));
    h := h4.(wire := [2, 2, 3]);
    steps := Before(h4.(unsent := {3}), capacity, Send(3), h, [], h);
    steps := Before(h3, capacity, Push(3), h4.(unsent := {3}), steps, h);
    steps := Before(h2, capacity, Finish, h3, steps, h);
    steps := Before(h1, capacity, SendNext, h2, steps, h);
    steps := Before(h0, capacity, Send(2), h1, steps, h);
    steps := BackToAttached(capacity, {2}, steps, h);
  }

  /** A frame that overtakes the replay is received twice when the socket is lost
      before RESUMED: the client is at the lower number, and the next replay reads the
      frame again. */
  lemma OvertakingFrameRepeats(capacity: nat)
    returns (history: seq<Step>, steps: seq<Step>, lost: Handshake, again: seq<Step>, h: Handshake)
    requires capacity >= 3
    ensures Runs(OPENED, capacity, history, Back()) && Runs(Back(), capacity, steps, lost) && OneSocket(steps)
    ensures lost.wire == [3, 2]
    ensures Runs(Apply(lost, capacity, Ask(2)), capacity, again, h) && h.missed == [3]
  {
    history := BackIsReached(capacity);
    var h0 := Handshake(Roomy(2, {}, [1, 2]), {}, 1, Attached, [2], 0, []);
    var h1, h2 := h0.(ring := Roomy(3, {3}, [1, 2])), h0.(ring := Roomy(3, {}, [1, 2, 3]), unsent := {3});
    var h3 := h2.(unsent := {}, wire := [3]);
    lost := h3.(wire := [3, 2], sent := 1);
    steps := Before(h3, capacity, SendNext, lost, [], lost);
    steps := Before(h2, capacity, Send(3), h3, steps, lost);
    steps := Before(h1, capacity, Push(3), h2, steps, lost);
    steps := Before(h0, capacity, Take, h1, steps, lost);
    steps := BackToAttached(capacity, {}, steps, lost);
    again, h := ReadAgain(capacity, lost);
  }

  lemma ReadAgain(capacity: nat, lost: Handshake) returns (again: seq<Step>, h: Handshake)
    requires lost.ring == Roomy(3, {}, [1, 2, 3])
    ensures Runs(Apply(lost, capacity, Ask(2)), capacity, again, h) && h.missed == [3]
  {
    var h0 := Apply(lost, capacity, Ask(2));
    assert [1, 2, 3][1..] == [2, 3] && [2, 3][1..] == [3] && [3][1..] == [];
    h := h0.(phase := HaveRead, missed := [3]);
    again := Before(h0.(phase := Granted), capacity, Read, h, [], h);
    again := Before(h0.(phase := Counted), capacity, Test, h0.(phase := Granted), again, h);
    again := Before(h0, capacity, Count, h0.(phase := Counted), again, h);
  }

  /** Two threads that swap their sends lose a frame when the socket dies between them:
      the client has 1 and 3, and after the RESUME that presents 3 it is sent 4. */
  lemma SwappedSendsLoseAFrame(capacity: nat)
    returns (steps: seq<Step>, lost: Handshake, again: seq<Step>, h: Handshake)
    requires capacity >= 4
    ensures Runs(OPENED, capacity, steps, lost) && OneSocket(steps) && lost.wire == [1, 3]
    ensures Runs(Apply(lost, capacity, Ask(3)), capacity, again, h) && OneSocket(again)
    ensures h.phase.Done? && Quiet(h) && h.wire == [4]
  {
    lost := OPENED.(ring := Roomy(3, {}, [1, 2, 3]), unsent := {2}, wire := [1, 3]);
    steps := GreetedToSwapped(capacity, lost);
    steps := ToGreeted(capacity, steps, lost);
    again, h := ReadyForFour(capacity);
    again := AskToAttached(capacity, Apply(lost, capacity, Ask(3)), again, h);
  }

  lemma GreetedToSwapped(capacity: nat, lost: Handshake) returns (steps: seq<Step>)
    requires capacity >= 4 && lost == OPENED.(ring := Roomy(3, {}, [1, 2, 3]), unsent := {2}, wire := [1, 3])
    ensures Runs(Greeted(), capacity, steps, lost) && OneSocket(steps)
  {
    var h0 := Greeted();
    var h1, h2 := h0.(ring := Roomy(2, {2}, [1])), h0.(ring := Roomy(3, {2, 3}, [1]));
    var h3, h4 := h0.(ring := Roomy(3, {3}, [1, 2]), unsent := {2}), lost.(unsent := {2, 3}, wire := [1]);
    steps := Before(h4, capacity, Send(3), lost, [], lost);
    steps := Before(h3, capacity, Push(3), h4, steps, lost);
    steps := Before(h2, capacity, Push(2), h3, steps, lost);
    steps := Before(h1, capacity, Take, h2, steps, lost);
    steps := Before(h0, capacity, Take, h1, steps, lost);
  }

  /** With three frames buffered, presenting the third: nothing is missed. */
  function Current(phase: Phase): Handshake {
    Handshake(Roomy(3, {}, [1, 2, 3]), {}, 3, phase, [], 0, [])
  }

  lemma ReadyForFour(capacity: nat) returns (steps: seq<Step>, h: Handshake)
    requires capacity >= 4
    ensures Runs(Current(Attached), capacity, steps, h) && OneSocket(steps)
    ensures h.phase.Done? && Quiet(h) && h.wire == [4]
  {
    var h1 := Current(Done).(ring := Roomy(4, {4}, [1, 2, 3]));
    var h2 := Current(Done).(ring := Roomy(4, {}, [1, 2, 3, 4]), unsent := {4});
    h := h2.(unsent := {}, wire := [4]);
    steps := Before(h2, capacity, Send(4), h, [], h);
    steps := Before(h1, capacity, Push(4), h2, steps, h);
    steps := Before(Current(Attached), capacity, Finish, h1, steps, h);
  }

  /** The send of 2 happens while nobody listens. */
  lemma AskToAttached(capacity: nat, h: Handshake, rest: seq<Step>, last: Handshake) returns (steps: seq<Step>)
    requires h == Current(Asked).(unsent := {2})
    requires Runs(Current(Attached), capacity, rest, last) && OneSocket(rest)
    ensures Runs(h, capacity, steps, last) && OneSocket(steps)
  {
    assert [1, 2, 3][1..] == [2, 3] && [2, 3][1..] == [3] && [3][1..] == [];
    steps := Before(Current(HaveRead), capacity, Attach, Current(Attached), rest, last);
    steps := Before(Current(Granted), capacity, Read, Current(HaveRead), steps, last);
    steps := Before(Current(Counted), capacity, Test, Current(Granted), steps, last);
    steps := Before(Current(Asked), capacity, Count, Current(Counted), steps, last);
    steps := Before(h, capacity, Send(2), Current(Asked), steps, last);
  }
}
