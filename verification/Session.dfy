/** One gateway session: its sequence counter, its bounded resume buffer and the
    outbox of whichever connection currently owns it.

    The reference point is the log: every event ever dispatched to the session,
    in order. The ring is what the server really keeps. */
module Sessions {
  import opened Protocol

  /** What a session remembers for replay. */
  datatype Ring = Ring(lastSeq: nat, buffer: seq<Frame>, evictedThrough: nat)

  const EMPTY_RING := Ring(0, [], 0)

  /** Numbers one event and buffers it, making room first when the buffer is
      exactly at capacity. */
  function Record(r: Ring, capacity: nat, e: Event): Ring {
    var frame := Frame(r.lastSeq + 1, e);
    if |r.buffer| == capacity && |r.buffer| > 0 then
      Ring(r.lastSeq + 1, r.buffer[1..] + [frame], r.buffer[0].s)
    else
      Ring(r.lastSeq + 1, r.buffer + [frame], r.evictedThrough)
  }

  /** The ring after a whole log has been dispatched. */
  function RingOf(capacity: nat, log: seq<Event>): Ring {
    if log == [] then EMPTY_RING
    else Record(RingOf(capacity, log[..|log| - 1]), capacity, log[|log| - 1])
  }

  /** The frames numbered above `n`, in buffer order. */
  function NumberedAbove(buffer: seq<Frame>, n: nat): seq<Frame> {
    if buffer == [] then []
    else (if buffer[0].s > n then [buffer[0]] else []) + NumberedAbove(buffer[1..], n)
  }

  /** What a RESUME presenting `n` gets back; `None` is a gap nobody can fill. */
  function Replay(r: Ring, n: nat): Option<seq<Frame>> {
    if n > r.lastSeq || n < r.evictedThrough then None
    else Some(NumberedAbove(r.buffer, n))
  }

  // ---------------------------------------------------------------------------
  // The log, and how much of it a ring keeps
  // ---------------------------------------------------------------------------

  /** Every frame the session ever produced: entry `i` carries number `i + 1`. */
  function Frames(log: seq<Event>): (f: seq<Frame>)
    ensures |f| == |log|
    ensures forall i :: 0 <= i < |f| ==> f[i] == Frame(i + 1, log[i])
  {
    seq(|log|, i requires 0 <= i < |log| => Frame(i + 1, log[i]))
  }

  /** Frames as they travel. */
  function Dispatches(frames: seq<Frame>): (ms: seq<Message>)
    ensures |ms| == |frames| && forall i :: 0 <= i < |ms| ==> ms[i] == Message.Dispatch(frames[i])
  {
    seq(|frames|, i requires 0 <= i < |frames| => Message.Dispatch(frames[i]))
  }

  /** How many frames survive after `n` dispatches. Capacity zero never evicts:
      the length is compared with the capacity before the push, so a buffer that
      has outgrown it is never seen as full. */
  function Kept(capacity: nat, n: nat): (k: nat)
    ensures k <= n
  {
    if capacity == 0 || n <= capacity then n else capacity
  }

  function Evicted(capacity: nat, n: nat): nat {
    n - Kept(capacity, n)
  }

  lemma FramesGrow(log: seq<Event>, e: Event)
    ensures Frames(log + [e]) == Frames(log) + [Frame(|log| + 1, e)]
  {
  }

  /** Filtering a contiguous run of frames by number is taking a suffix. */
  lemma {:induction false} AboveContiguous(buffer: seq<Frame>, base: nat, n: nat)
    requires forall i :: 0 <= i < |buffer| ==> buffer[i].s == base + i + 1
    requires base <= n <= base + |buffer|
    ensures NumberedAbove(buffer, n) == buffer[n - base..]
  {
    if buffer != [] {
      var rest := buffer[1..];
      if n == base {
        assert forall i :: 0 <= i < |rest| ==> rest[i].s == base + 1 + i + 1;
        AboveAll(rest, base + 1, n);
      } else {
        AboveContiguous(rest, base + 1, n);
      }
    }
  }

  lemma {:induction false} AboveAll(buffer: seq<Frame>, base: nat, n: nat)
    requires forall i :: 0 <= i < |buffer| ==> buffer[i].s == base + i + 1
    requires n <= base
    ensures NumberedAbove(buffer, n) == buffer
  {
    if buffer != [] {
      AboveAll(buffer[1..], base + 1, n);
    }
  }

  /** What a ring must look like to stand for a whole log. */
  ghost predicate Refines(r: Ring, capacity: nat, log: seq<Event>) {
    && r.lastSeq == |log|
    && r.evictedThrough == Evicted(capacity, |log|)
    && r.buffer == Frames(log)[Evicted(capacity, |log|)..]
  }

  /** Recording one event keeps a ring that stands for the log standing for it. */
  lemma RecordRefines(r: Ring, capacity: nat, log: seq<Event>, e: Event)
    requires Refines(r, capacity, log)
    ensures Refines(Record(r, capacity, e), capacity, log + [e])
  {
    FramesGrow(log, e);
  }

  /** The ring refines the log: after any dispatches the buffer is exactly the
      last `Kept` frames of the log, contiguous and in order, and
      `evictedThrough` is the number of the newest frame that was dropped. */
  lemma {:induction false} RingRefinesLog(capacity: nat, log: seq<Event>)
    ensures Refines(RingOf(capacity, log), capacity, log)
  {
    if log != [] {
      var front, e := log[..|log| - 1], log[|log| - 1];
      RingRefinesLog(capacity, front);
      RecordRefines(RingOf(capacity, front), capacity, front, e);
      assert front + [e] == log;
    }
  }

  /** The memory bound holds for every log exactly when the configured capacity
      is at least one. */
  lemma BufferBoundedIffCapacityPositive(capacity: nat)
    ensures (forall log: seq<Event> :: |RingOf(capacity, log).buffer| <= capacity) <==> capacity >= 1
  {
    if capacity >= 1 {
      forall log: seq<Event> ensures |RingOf(capacity, log).buffer| <= capacity {
        RingRefinesLog(capacity, log);
      }
    } else {
      RingRefinesLog(capacity, [Resumed(0)]);
      assert |RingOf(capacity, [Resumed(0)]).buffer| == 1;
    }
  }

  /** A replay succeeds exactly for the numbers between the eviction mark and the
      last one given out, and then it is the exact suffix of the whole log. */
  lemma ReplayIsLogSuffix(r: Ring, capacity: nat, log: seq<Event>, n: nat)
    requires Refines(r, capacity, log)
    ensures Replay(r, n) ==
            if Evicted(capacity, |log|) <= n <= |log| then Some(Frames(log)[n..]) else None
  {
    var drop := Evicted(capacity, |log|);
    if drop <= n <= |log| {
      AboveContiguous(r.buffer, drop, n);
      assert r.buffer[n - drop..] == Frames(log)[n..];
    }
  }

  /** In plain numbers: of a log of length `m` the ring keeps the last `capacity` frames,
      or all of them while there are not more, or always when the capacity is zero. */
  lemma RingKeepsTheNewest(capacity: nat, log: seq<Event>)
    ensures var r := RingOf(capacity, log);
            && r.lastSeq == |log|
            && |r.buffer| == (if capacity == 0 || |log| <= capacity then |log| else capacity)
            && (forall i :: 0 <= i < |r.buffer| ==>
                  var s := |log| - |r.buffer| + i + 1; r.buffer[i].s == s && r.buffer[i].event == log[s - 1])
  {
    RingRefinesLog(capacity, log);
  }

  /** And a replay after `n` is granted exactly when `n` was given out and no more than
      `capacity` events came after it, and brings those, in order. */
  lemma ReplayGrantedIff(capacity: nat, log: seq<Event>, n: nat)
    ensures var replay := Replay(RingOf(capacity, log), n);
            && (replay.Some? <==> n <= |log| && (capacity == 0 || |log| - n <= capacity))
            && (replay.Some? ==>
                  && |replay.value| == |log| - n
                  && forall i :: 0 <= i < |replay.value| ==> replay.value[i] == Frame(n + 1 + i, log[n + i]))
  {
    RingRefinesLog(capacity, log);
    ReplayIsLogSuffix(RingOf(capacity, log), capacity, log, n);
  }

  // ---------------------------------------------------------------------------
  // The session object
  // ---------------------------------------------------------------------------

  /** The channel to one connection's writer task. */
  class Outbox {
    var sent: seq<Message>

    constructor ()
      ensures sent == []
    {
      sent := [];
    }
  }

  class Session {
    const capacity: nat
    var lastSeq: nat
    var buffer: seq<Frame>
    var evictedThrough: nat
    var outbox: Outbox?
    var connected: bool
    var disconnectedAt: Option<Timestamp>
    /** Everything ever dispatched here, in order. */
    ghost var log: seq<Event>

    ghost predicate Valid()
      reads this
    {
      && Refines(Ring(lastSeq, buffer, evictedThrough), capacity, log)
      && connected == (outbox != null)
      && connected == disconnectedAt.None?
    }

    constructor (outbox: Outbox, capacity: nat)
      ensures Valid()
      ensures this.capacity == capacity && this.outbox == outbox && log == []
    {
      this.capacity := capacity;
      lastSeq, buffer, evictedThrough := 0, [], 0;
      this.outbox, connected, disconnectedAt := outbox, true, None;
      log := [];
    }

    /** Marks the socket gone; the session keeps its log and stays resumable. */
    method Disconnect(now: Timestamp)
      requires Valid()
      modifies this`connected, this`outbox, this`disconnectedAt
      ensures Valid() && !connected && outbox == null && disconnectedAt == Some(now)
    {
      connected := false;
      outbox := null;
      disconnectedAt := Some(now);
    }

    /** Attaches a new socket. Nothing is replayed by this step alone. */
    method Reconnect(to: Outbox)
      requires Valid()
      modifies this`connected, this`outbox, this`disconnectedAt
      ensures Valid() && connected && outbox == to && disconnectedAt == None
    {
      outbox := to;
      disconnectedAt := None;
      connected := true;
    }

    method SendText(m: Message)
      modifies outbox
      ensures outbox != null ==> outbox.sent == old(outbox.sent) + [m]
    {
      if outbox != null {
        outbox.sent := outbox.sent + [m];
      }
    }

    /** Puts a numbered frame in the buffer, dropping the oldest when full. */
    method Remember(frame: Frame)
      modifies this`buffer, this`evictedThrough
      ensures Ring(frame.s, buffer, evictedThrough)
           == Record(Ring(frame.s - 1, old(buffer), old(evictedThrough)), capacity, frame.event)
      requires frame.s > 0
    {
      if |buffer| == capacity {
        if |buffer| > 0 {
          evictedThrough := buffer[0].s;
          buffer := buffer[1..];
        }
      }
      buffer := buffer + [frame];
    }

    /** The sequence advances and the frame is logged whether or not anybody is
        listening; the socket, when there is one, gets exactly that frame. */
    method Dispatch(event: Event)
      requires Valid()
      modifies this`lastSeq, this`buffer, this`evictedThrough, this`log, outbox
      ensures Valid()
      ensures log == old(log) + [event]
      ensures outbox != null ==>
                outbox.sent == old(outbox.sent) + [Message.Dispatch(Frames(log)[|log| - 1])]
    {
      RecordRefines(Ring(lastSeq, buffer, evictedThrough), capacity, log, event);
      lastSeq := lastSeq + 1;
      var frame := Frame(lastSeq, event);
      Remember(frame);
      log := log + [event];
      SendText(Message.Dispatch(frame));
    }

    /** The frames a client that has seen `n` is missing, or nothing when they
        are no longer all here. */
    method ReplayAfter(n: nat) returns (missed: Option<seq<Frame>>)
      requires Valid()
      ensures missed.Some? <==> Evicted(capacity, |log|) <= n <= |log|
      ensures missed.Some? ==> missed.value == Frames(log)[n..]
    {
      ReplayIsLogSuffix(Ring(lastSeq, buffer, evictedThrough), capacity, log, n);
      if n > lastSeq {
        return None;
      }
      if n < evictedThrough {
        return None;
      }
      var out := FilterAfter(buffer, n);
      return Some(out);
    }
  }

  lemma NextAbove(buffer: seq<Frame>, n: nat, i: nat)
    requires i < |buffer|
    ensures NumberedAbove(buffer[i..], n) ==
            (if buffer[i].s > n then [buffer[i]] else []) + NumberedAbove(buffer[i + 1..], n)
  {
    assert buffer[i..][1..] == buffer[i + 1..];
  }

  method FilterAfter(buffer: seq<Frame>, n: nat) returns (out: seq<Frame>)
    ensures out == NumberedAbove(buffer, n)
  {
    out := [];
    var i := 0;
    while i < |buffer|
      invariant 0 <= i <= |buffer|
      invariant out + NumberedAbove(buffer[i..], n) == NumberedAbove(buffer, n)
    {
      NextAbove(buffer, n, i);
      if buffer[i].s > n {
        out := out + [buffer[i]];
      }
      i := i + 1;
    }
  }
}
