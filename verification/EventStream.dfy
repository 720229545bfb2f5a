/** api/streaming.py, core/events.py and the event half of sessions/state.py: a numbered ring of events, queues that are
    dropped when they fill up, and a stream that joins the live queue before it looks at the ring.

    An event is its sequence number. Numbering and buffering happen under a lock, delivery to the queues is a later
    step of the event loop, and steps of different emitters interleave freely. */
module EventStream {
  import opened Common

  const RING := 2000
  const QUEUE := 500

  /** The numbers from a up to and including b. */
  function Range(a: int, b: int): (r: seq<int>)
    ensures |r| == Max(0, b - a + 1)
    ensures forall i :: 0 <= i < |r| ==> r[i] == a + i
    ensures forall n :: n in r <==> a <= n <= b
    decreases b - a + 1
  {
    if b < a then [] else Range(a, b - 1) + [b]
  }

  // ---------------------------------------------------------------------
  // The ring and the snapshot a reconnecting stream takes of it
  // ---------------------------------------------------------------------

  datatype Snapshot = Snapshot(cursor: int, oldest: int, serverSeq: int, backlog: seq<int>, complete: bool)

  function After(ring: seq<int>, cursor: int): seq<int> {
    if ring == [] then []
    else After(ring[..|ring| - 1], cursor) + if ring[|ring| - 1] > cursor then [ring[|ring| - 1]] else []
  }

  function Snap(seqNo: nat, ring: seq<int>, cursor: int): Snapshot {
    var oldest := if ring != [] then ring[0] else 0;
    Snapshot(cursor, oldest, seqNo, After(ring, cursor),
             if oldest == 0 then seqNo <= cursor else oldest <= cursor + 1)
  }

  /** The ring holds the newest events without a gap; it is shorter than the history when older ones fell out. */
  ghost predicate Contiguous(seqNo: nat, ring: seq<int>) {
    |ring| <= Min(seqNo, RING) && ring == Range(seqNo - |ring| + 1, seqNo)
  }

  function Appended(seqNo: nat, ring: seq<int>): seq<int> {
    (if |ring| == RING then ring[1..] else ring) + [seqNo + 1]
  }

  class AgentSession {
    var eventSeq: nat
    var events: seq<int>

    constructor ()
      ensures eventSeq == 0 && events == []
    {
      eventSeq, events := 0, [];
    }

    /** The locked half of emit_event. */
    method Append() returns (n: nat)
      requires |events| <= RING
      modifies this
      ensures n == eventSeq == old(eventSeq) + 1
      ensures events == Appended(old(eventSeq), old(events))
      ensures events == (if |old(events)| == 2000 then old(events)[1..] else old(events)) + [n]
    {
      eventSeq := eventSeq + 1;
      events := events + [eventSeq];
      if |events| > RING {
        events := events[1..];
      }
      return eventSeq;
    }

    /** What a stream that was given a cursor reads under the lock before it sends anything. */
    method Resume(cursor: int) returns (s: Snapshot)
      ensures s == Snap(eventSeq, events, cursor)
    {
      var oldest := if events != [] then events[0] else 0;
      var backlog := [];
      for i := 0 to |events|
        invariant backlog == After(events[..i], cursor)
      {
        assert events[..i + 1][..i] == events[..i];
        if events[i] > cursor {
          backlog := backlog + [events[i]];
        }
      }
      assert events[..|events|] == events;
      var complete: bool;
      if oldest == 0 {
        complete := eventSeq <= cursor;
      } else {
        complete := oldest <= cursor + 1;
      }
      return Snapshot(cursor, oldest, eventSeq, backlog, complete);
    }
  }

  lemma AppendKeepsContiguous(seqNo: nat, ring: seq<int>)
    requires Contiguous(seqNo, ring)
    ensures Contiguous(seqNo + 1, Appended(seqNo, ring))
    ensures |ring| == Min(seqNo, RING) ==> |Appended(seqNo, ring)| == Min(seqNo + 1, RING)
  {
    var now := Appended(seqNo, ring);
    assert forall i :: 0 <= i < |now| ==> now[i] == seqNo + 1 - |now| + 1 + i;
  }

  lemma {:induction false} AfterIsTail(ring: seq<int>, a: int, cursor: int)
    requires forall i :: 0 <= i < |ring| ==> ring[i] == a + i
    ensures After(ring, cursor) == Range(Max(a, cursor + 1), a + |ring| - 1)
  {
    if ring != [] {
      hide Range;
      var rest := ring[..|ring| - 1];
      assert forall i :: 0 <= i < |rest| ==> rest[i] == a + i;
      AfterIsTail(rest, a, cursor);
      var b := a + |ring| - 1;
      assert ring[|ring| - 1] == b;
      if b > cursor {
        assert Range(Max(a, cursor + 1), b) == Range(Max(a, cursor + 1), b - 1) + [b];
      } else {
        assert Range(Max(a, cursor + 1), b) == [];
      }
    }
  }

  /** The backlog holds every event after the cursor that the server has numbered. */
  ghost predicate FillsTheGap(s: Snapshot) {
    forall n :: Max(s.cursor, 0) < n <= s.serverSeq ==> n in s.backlog
  }

  /** The flag says complete exactly when nothing is missing, provided the cursor is not negative. */
  lemma CompleteExactly(seqNo: nat, ring: seq<int>, cursor: int)
    requires Contiguous(seqNo, ring)
    ensures var s := Snap(seqNo, ring, cursor); s.complete <==> cursor >= 0 && FillsTheGap(s)
    ensures var s := Snap(seqNo, ring, cursor);
            (s.complete <==> FillsTheGap(s)) <==> (cursor >= 0 || !FillsTheGap(s))
    ensures Snap(seqNo, ring, cursor).backlog == Range(Max(seqNo - |ring| + 1, cursor + 1), seqNo)
  {
    hide Range, After;
    var s := Snap(seqNo, ring, cursor);
    AfterIsTail(ring, seqNo - |ring| + 1, cursor);
    var first := Max(cursor, 0) + 1;
    assert FillsTheGap(s) ==> first <= seqNo ==> first in s.backlog;
  }

  /** A negative cursor is answered as incomplete even when nothing was ever emitted. */
  lemma NegativeCursorReadsIncomplete()
    ensures Contiguous(0, []) && FillsTheGap(Snap(0, [], -1)) && !Snap(0, [], -1).complete
  {
    assert [] == Range(1, 0);
  }

  /** The endpoint's cursor: absent stays absent, and a number is never passed on below zero. */
  function EndpointCursor(raw: Option<int>): Option<int> {
    if raw.None? then None else Some(Max(0, raw.value))
  }

  lemma CompleteThroughTheEndpoint(seqNo: nat, ring: seq<int>, raw: int)
    requires Contiguous(seqNo, ring)
    ensures var s := Snap(seqNo, ring, EndpointCursor(Some(raw)).value); s.complete <==> FillsTheGap(s)
  {
    CompleteExactly(seqNo, ring, Max(0, raw));
  }

  // ---------------------------------------------------------------------
  // Subscribers
  // ---------------------------------------------------------------------

  /** A subscriber's queue, and whether it was detached for being full. */
  datatype Queue = Queue(items: seq<int>, dropped: bool)

  function Offered(q: Queue, n: int): Queue {
    if |q.items| < QUEUE then q.(items := q.items + [n]) else q.(dropped := true)
  }

  class Subscriber {
    var items: seq<int>
    var dropped: bool

    constructor ()
      ensures items == [] && !dropped
    {
      items, dropped := [], false;
    }

    function Now(): Queue
      reads this
    {
      Queue(items, dropped)
    }
  }

  /** The delivering half of a bus, the same for a session and for the job bus. */
  class JobEventBus {
    var subscribers: seq<Subscriber>

    ghost predicate Distinct()
      reads this
    {
      forall i, j :: 0 <= i < j < |subscribers| ==> subscribers[i] != subscribers[j]
    }

    constructor ()
      ensures subscribers == []
    {
      subscribers := [];
    }

    method Subscribe() returns (q: Subscriber)
      requires Distinct()
      modifies this
      ensures fresh(q) && q.Now() == Queue([], false)
      ensures subscribers == old(subscribers) + [q] && Distinct()
    {
      q := new Subscriber();
      subscribers := subscribers + [q];
    }

    method Unsubscribe(q: Subscriber)
      requires Distinct()
      modifies this
      ensures Distinct()
      ensures forall s :: s in subscribers <==> s in old(subscribers) && s != q
    {
      for i := 0 to |subscribers|
        invariant subscribers == old(subscribers)
        invariant forall j :: 0 <= j < i ==> subscribers[j] != q
      {
        if subscribers[i] == q {
          subscribers := subscribers[..i] + subscribers[i + 1..];
          return;
        }
      }
    }

    method OfferAll(n: int) returns (dead: seq<Subscriber>)
      requires Distinct()
      modifies subscribers
      ensures forall q :: q in subscribers && old(|q.items|) < QUEUE ==> q.Now() == Offered(old(q.Now()), n)
      ensures forall q :: q in subscribers && old(|q.items|) >= QUEUE ==> q.Now() == old(q.Now())
      ensures forall q :: q in dead <==> q in subscribers && old(|q.items|) >= QUEUE
    {
      dead := [];
      for i := 0 to |subscribers|
        invariant forall j :: 0 <= j < i && old(|subscribers[j].items|) < QUEUE ==>
                    subscribers[j].Now() == Offered(old(subscribers[j].Now()), n)
        invariant forall j :: 0 <= j < |subscribers| && (i <= j || old(|subscribers[j].items|) >= QUEUE) ==>
                    subscribers[j].Now() == old(subscribers[j].Now())
        invariant forall q :: q in dead <==> q in subscribers[..i] && old(|q.items|) >= QUEUE
      {
        var q := subscribers[i];
        assert subscribers[..i + 1] == subscribers[..i] + [q];
        if |q.items| < QUEUE {
          q.items := q.items + [n];
        } else {
          dead := dead + [q];
        }
      }
    }

    /** _deliver: each queue gets the event or is marked and detached, and none of that depends on any other queue. */
    method Deliver(n: int)
      requires Distinct()
      modifies this, subscribers
      ensures Distinct()
      ensures forall q :: q in old(subscribers) ==> q.Now() == Offered(old(q.Now()), n)
      ensures forall q :: q in subscribers <==> q in old(subscribers) && old(|q.items|) < QUEUE
    {
      ghost var was := subscribers;
      var dead := OfferAll(n);
      label Offered:
      for i := 0 to |dead|
        invariant Distinct()
        invariant forall q :: q in was && q !in dead[..i] ==> q.Now() == old@Offered(q.Now())
        invariant forall q :: q in dead[..i] ==> q.Now() == old@Offered(q.Now()).(dropped := true)
        invariant forall q :: q in subscribers <==> q in was && q !in dead[..i]
      {
        var q := dead[i];
        assert q in dead && q in was;
        assert dead[..i + 1] == dead[..i] + [q];
        q.dropped := true;
        Unsubscribe(q);
      }
      assert dead[..|dead|] == dead;
    }
  }

  // ---------------------------------------------------------------------
  // Emitters, the event loop and any number of streams
  // ---------------------------------------------------------------------

  /** Subscribed; snapshot taken and so many of its events sent; joined to the live queue; gone. */
  datatype Phase = Joined | Replaying(sent: nat) | Live | Closed

  /** `since` is the newest number when the stream subscribed, `live` what it has sent from its queue. */
  datatype Stream = Stream(
    cursor: Option<int>, since: nat, phase: Phase, snap: Option<Snapshot>, attached: bool, queue: Queue,
    sent: seq<int>, live: seq<int>)

  /** `pending` are the events buffered but not yet delivered. */
  datatype State = State(seqNo: nat, ring: seq<int>, pending: set<int>, streams: map<nat, Stream>)
  {
    predicate Has(id: nat) { id in streams }

    function Set(id: nat, s: Stream): State { this.(streams := streams[id := s]) }
  }

  const START := State(0, [], {}, map[])

  datatype Move =
    | Emit
    | Deliver(n: int)
    | Open(id: nat, cursor: Option<int>)
    | Advance(id: nat)
    | Disconnect(id: nat)

  function Delivered(s: Stream, n: int): Stream {
    if !s.attached then s
    else var q := Offered(s.queue, n); s.(queue := q, attached := !q.dropped)
  }

  /** The generator goes on to its next yield: the snapshot, the next event of the backlog, or the next of the queue. */
  function Advanced(s: Stream, seqNo: nat, ring: seq<int>): Stream {
    match s.phase
    case Joined =>
      if s.cursor.None? then s.(phase := Live)
      else s.(phase := Replaying(0), snap := Some(Snap(seqNo, ring, s.cursor.value)))
    case Replaying(i) =>
      if s.snap.Some? && i < |s.snap.value.backlog| then
        s.(phase := Replaying(i + 1), sent := s.sent + [s.snap.value.backlog[i]])
      else s.(phase := Live)
    case Live =>
      if s.queue.items == [] then (if s.queue.dropped then Gone(s) else s)
      else
        var n := s.queue.items[0];
        var next := s.(queue := s.queue.(items := s.queue.items[1..]), sent := s.sent + [n], live := s.live + [n]);
        if s.queue.dropped then Gone(next) else next
    case Closed => s
  }

  function Gone(s: Stream): Stream {
    s.(phase := Closed, attached := false)
  }

  predicate Enabled(s: State, m: Move) {
    match m
    case Emit => true
    case Deliver(n) => n in s.pending
    case Open(id, _) => !s.Has(id)
    case Advance(id) => s.Has(id)
    case Disconnect(id) => s.Has(id)
  }

  function Step(s: State, m: Move): State {
    if !Enabled(s, m) then s
    else
      match m
      case Emit => s.(seqNo := s.seqNo + 1, ring := Appended(s.seqNo, s.ring), pending := s.pending + {s.seqNo + 1})
      case Deliver(n) =>
        s.(pending := s.pending - {n}, streams := map id | id in s.streams :: Delivered(s.streams[id], n))
      case Open(id, cursor) => s.Set(id, Stream(cursor, s.seqNo, Joined, None, true, Queue([], false), [], []))
      case Advance(id) => s.Set(id, Advanced(s.streams[id], s.seqNo, s.ring))
      case Disconnect(id) => s.Set(id, Gone(s.streams[id]))
  }

  function Run(s: State, moves: seq<Move>): State {
    if moves == [] then s else Step(Run(s, moves[..|moves| - 1]), moves[|moves| - 1])
  }

  // ---------------------------------------------------------------------
  // What holds of a stream at every moment
  // ---------------------------------------------------------------------

  ghost predicate NoRepeats(s: seq<int>) {
    forall i, j :: 0 <= i < j < |s| ==> s[i] != s[j]
  }

  /** Everything taken from the queue or still in it, in the order it was delivered. */
  function Taken(s: Stream): seq<int> {
    s.live + s.queue.items
  }

  /** Until it is dropped or closed, a stream has every event emitted since it subscribed, or is about to. */
  ghost predicate NothingMissed(s: Stream, seqNo: nat, pending: set<int>) {
    s.attached ==> forall n :: s.since < n <= seqNo ==> n in pending || n in Taken(s)
  }

  ghost predicate OnceFromTheQueue(s: Stream, seqNo: nat, pending: set<int>) {
    NoRepeats(Taken(s)) && forall n :: n in Taken(s) ==> 0 < n <= seqNo && n !in pending
  }

  /** What it sent is its replay so far followed by what it took from the queue, and the queue waits for the replay. */
  ghost predicate SentInOrder(s: Stream) {
    var replay := if s.snap.Some? then s.snap.value.backlog else [];
    var k := |s.sent| - |s.live|;
    && 0 <= k <= |replay| && s.sent == replay[..k] + s.live
    && (s.phase.Joined? ==> s.snap.None? && s.sent == [])
    && (s.phase.Replaying? ==> s.snap.Some? && s.live == [] && k == s.phase.sent)
    && (s.phase.Live? ==> (s.cursor.Some? <==> s.snap.Some?) && k == |replay|)
    && (s.live != [] ==> k == |replay|)
  }

  /** The snapshot was taken after the subscription, and is what CompleteExactly speaks of. */
  ghost predicate SnapshotKept(s: Stream, seqNo: nat) {
    && s.since <= seqNo
    && (s.attached ==> !s.queue.dropped && s.phase != Closed)
    && |s.queue.items| <= QUEUE
    && (s.snap.Some? ==>
          && s.cursor == Some(s.snap.value.cursor)
          && s.since <= s.snap.value.serverSeq <= seqNo
          && s.snap.value.backlog == Range(s.snap.value.serverSeq - |s.snap.value.backlog| + 1, s.snap.value.serverSeq)
          && (forall n :: n in s.snap.value.backlog ==> n > s.snap.value.cursor)
          && (s.snap.value.complete <==> s.snap.value.cursor >= 0 && FillsTheGap(s.snap.value)))
  }

  ghost predicate StreamInv(s: Stream, seqNo: nat, pending: set<int>) {
    && NothingMissed(s, seqNo, pending)
    && OnceFromTheQueue(s, seqNo, pending)
    && SentInOrder(s)
    && SnapshotKept(s, seqNo)
  }

  ghost predicate Inv(s: State) {
    && Contiguous(s.seqNo, s.ring) && |s.ring| == Min(s.seqNo, RING)
    && (forall n :: n in s.pending ==> 0 < n <= s.seqNo)
    && forall id :: id in s.streams ==> StreamInv(s.streams[id], s.seqNo, s.pending)
  }

  lemma AdvancedKeeps(s: Stream, seqNo: nat, ring: seq<int>, pending: set<int>)
    requires Contiguous(seqNo, ring) && StreamInv(s, seqNo, pending)
    ensures StreamInv(Advanced(s, seqNo, ring), seqNo, pending)
  {
    hide Contiguous, Snap, FillsTheGap, NothingMissed, OnceFromTheQueue, Taken;
    TakenStays(s, seqNo, ring);
    SameBooks(s, Advanced(s, seqNo, ring), seqNo, pending);
    match s.phase {
      case Joined =>
        if s.cursor.Some? {
          SnapFacts(seqNo, ring, s.cursor.value);
        }
      case Replaying(i) => ReplayGoesOn(s, seqNo, ring);
      case Live => LiveGoesOn(s, seqNo, ring);
      case Closed =>
    }
  }

  lemma SameBooks(s: Stream, t: Stream, seqNo: nat, pending: set<int>)
    requires Taken(s) == Taken(t) && s.since == t.since && (t.attached ==> s.attached)
    ensures NothingMissed(s, seqNo, pending) ==> NothingMissed(t, seqNo, pending)
    ensures OnceFromTheQueue(s, seqNo, pending) ==> OnceFromTheQueue(t, seqNo, pending)
  {
  }

  lemma ReplayGoesOn(s: Stream, seqNo: nat, ring: seq<int>)
    requires s.phase.Replaying? && SentInOrder(s) && SnapshotKept(s, seqNo)
    ensures SentInOrder(Advanced(s, seqNo, ring)) && SnapshotKept(Advanced(s, seqNo, ring), seqNo)
  {
    hide FillsTheGap, Range;
    var b, i := s.snap.value.backlog, s.phase.sent;
    assert s.sent == b[..i];
    assert i < |b| ==> b[..i] + [b[i]] == b[..i + 1];
  }

  lemma LiveGoesOn(s: Stream, seqNo: nat, ring: seq<int>)
    requires s.phase.Live? && SentInOrder(s) && SnapshotKept(s, seqNo)
    ensures SentInOrder(Advanced(s, seqNo, ring)) && SnapshotKept(Advanced(s, seqNo, ring), seqNo)
  {
    hide FillsTheGap, Range;
  }

  lemma SnapFacts(seqNo: nat, ring: seq<int>, cursor: int)
    requires Contiguous(seqNo, ring)
    ensures var s := Snap(seqNo, ring, cursor);
            && s.cursor == cursor && s.serverSeq == seqNo && s.backlog == Range(seqNo - |s.backlog| + 1, seqNo)
            && (forall n :: n in s.backlog ==> n > cursor)
            && (s.complete <==> cursor >= 0 && FillsTheGap(s))
  {
    CompleteExactly(seqNo, ring, cursor);
  }

  lemma DeliveredKeeps(s: Stream, seqNo: nat, pending: set<int>, n: int)
    requires StreamInv(s, seqNo, pending) && n in pending && 0 < n <= seqNo
    ensures StreamInv(Delivered(s, n), seqNo, pending - {n})
  {
    hide FillsTheGap;
    var t := Delivered(s, n);
    if t.attached {
      assert Taken(t) == Taken(s) + [n];
    } else {
      assert Taken(t) == Taken(s);
    }
  }

  lemma EmittedKeeps(s: Stream, seqNo: nat, pending: set<int>)
    requires StreamInv(s, seqNo, pending)
    ensures StreamInv(s, seqNo + 1, pending + {seqNo + 1})
  {
    hide FillsTheGap, Taken;
  }

  lemma GoneKeeps(s: Stream, seqNo: nat, pending: set<int>)
    requires StreamInv(s, seqNo, pending)
    ensures StreamInv(Gone(s), seqNo, pending)
  {
    hide FillsTheGap;
    assert Taken(Gone(s)) == Taken(s);
  }

  lemma StepKeepsInv(s: State, m: Move)
    requires Inv(s)
    ensures Inv(Step(s, m))
  {
    hide StreamInv, Contiguous, Appended, Advanced, Delivered, Gone;
    if Enabled(s, m) {
      match m {
        case Emit =>
          AppendKeepsContiguous(s.seqNo, s.ring);
          forall id | id in s.streams ensures StreamInv(s.streams[id], s.seqNo + 1, s.pending + {s.seqNo + 1}) {
            EmittedKeeps(s.streams[id], s.seqNo, s.pending);
          }
        case Deliver(n) =>
          forall id | id in s.streams ensures StreamInv(Delivered(s.streams[id], n), s.seqNo, s.pending - {n}) {
            DeliveredKeeps(s.streams[id], s.seqNo, s.pending, n);
          }
        case Open(id, cursor) => FreshStream(cursor, s.seqNo, s.pending);
        case Advance(id) => AdvancedKeeps(s.streams[id], s.seqNo, s.ring, s.pending);
        case Disconnect(id) => GoneKeeps(s.streams[id], s.seqNo, s.pending);
      }
    }
  }

  lemma FreshStream(cursor: Option<int>, seqNo: nat, pending: set<int>)
    ensures StreamInv(Stream(cursor, seqNo, Joined, None, true, Queue([], false), [], []), seqNo, pending)
  {
  }

  lemma {:induction false} RunKeepsInv(moves: seq<Move>)
    ensures Inv(Run(START, moves))
  {
    hide Step, StreamInv;
    if moves != [] {
      RunKeepsInv(moves[..|moves| - 1]);
      StepKeepsInv(Run(START, moves[..|moves| - 1]), moves[|moves| - 1]);
    }
  }

  // ---------------------------------------------------------------------
  // What a client can rely on
  // ---------------------------------------------------------------------

  /** What is left of the replay. */
  function Unsent(s: Stream): seq<int> {
    if s.snap.Some? && |s.live| <= |s.sent| <= |s.snap.value.backlog| + |s.live|
      then s.snap.value.backlog[|s.sent| - |s.live|..]
    else []
  }

  /** Up to its drop a stream with a complete resume has sent, or will come to, every event after its cursor. */
  lemma EverythingArrives(moves: seq<Move>, id: nat, n: int)
    requires var s := Run(START, moves); id in s.streams && s.streams[id].attached && 0 < n <= s.seqNo
    requires var t := Run(START, moves).streams[id];
             || n > t.since
             || (t.snap.Some? && t.snap.value.complete && n > t.snap.value.cursor)
    ensures var t := Run(START, moves).streams[id];
            || n in t.sent || n in t.queue.items || n in Run(START, moves).pending
            || n in Unsent(t)
  {
    hide Run, Contiguous;
    RunKeepsInv(moves);
    var t := Run(START, moves).streams[id];
    if t.snap.Some? && n in t.snap.value.backlog && n !in t.sent {
      var b, k := t.snap.value.backlog, |t.sent| - |t.live|;
      assert b == b[..k] + b[k..];
    }
  }

  /** A number sent twice was in the replay and came out of the queue again; the queue itself never repeats one. */
  lemma RepeatsAreFromTheReplay(moves: seq<Move>, id: nat, i: nat, j: nat)
    requires var s := Run(START, moves); id in s.streams && i < j < |s.streams[id].sent|
    requires var t := Run(START, moves).streams[id]; t.sent[i] == t.sent[j]
    ensures var t := Run(START, moves).streams[id];
            && t.snap.Some? && t.sent[i] <= t.snap.value.serverSeq
            && i < |t.snap.value.backlog| <= j
  {
    hide Run, Contiguous, FillsTheGap, NothingMissed, Range;
    RunKeepsInv(moves);
    var s := Run(START, moves);
    var t := s.streams[id];
    var replay := if t.snap.Some? then t.snap.value.backlog else [];
    LiveOnce(t, s.seqNo, s.pending);
    if t.snap.Some? {
      RangeAscends(t.snap.value);
    }
    TwoParts(replay, t.live, |t.sent| - |t.live|, t.sent, i, j);
  }

  lemma LiveOnce(s: Stream, seqNo: nat, pending: set<int>)
    requires OnceFromTheQueue(s, seqNo, pending)
    ensures NoRepeats(s.live)
  {
    assert forall l :: 0 <= l < |s.live| ==> Taken(s)[l] == s.live[l];
  }

  lemma RangeAscends(snap: Snapshot)
    requires snap.backlog == Range(snap.serverSeq - |snap.backlog| + 1, snap.serverSeq)
    ensures NoRepeats(snap.backlog) && forall n :: n in snap.backlog ==> n <= snap.serverSeq
  {
  }

  /** A number twice in two parts that each hold it at most once is once in each. */
  lemma TwoParts(replay: seq<int>, live: seq<int>, k: nat, sent: seq<int>, i: nat, j: nat)
    requires NoRepeats(replay) && NoRepeats(live) && k <= |replay| && sent == replay[..k] + live
    requires i < j < |sent| && sent[i] == sent[j]
    ensures i < k <= j && live != [] && sent[i] in replay
  {
    assert forall l :: 0 <= l < |live| ==> sent[k + l] == live[l];
    assert forall l :: 0 <= l < k ==> sent[l] == replay[l];
  }

  /** A queue that was dropped, or whose stream went away, is offered nothing ever again. */
  lemma {:induction false} DetachedForGood(s: State, moves: seq<Move>, id: nat)
    requires id in s.streams && !s.streams[id].attached
    ensures id in Run(s, moves).streams && !Run(s, moves).streams[id].attached
    ensures Taken(Run(s, moves).streams[id]) == Taken(s.streams[id])
  {
    hide Taken, Appended, Snap;
    if moves != [] {
      var before := Run(s, moves[..|moves| - 1]);
      DetachedForGood(s, moves[..|moves| - 1], id);
      TakenStays(before.streams[id], before.seqNo, before.ring);
      assert Gone(before.streams[id]).queue == before.streams[id].queue;
      SameTaken(before.streams[id], Gone(before.streams[id]));
    }
  }

  lemma SameTaken(a: Stream, b: Stream)
    requires a.live == b.live && a.queue.items == b.queue.items
    ensures Taken(a) == Taken(b)
  {
  }

  lemma TakenStays(s: Stream, seqNo: nat, ring: seq<int>)
    ensures Taken(Advanced(s, seqNo, ring)) == Taken(s)
    ensures !s.attached ==> !Advanced(s, seqNo, ring).attached
  {
    if s.phase.Live? && s.queue.items != [] {
      assert [s.queue.items[0]] + s.queue.items[1..] == s.queue.items;
    }
  }

  // ---------------------------------------------------------------------
  // A reader that goes on reading
  // ---------------------------------------------------------------------

  /** The stream is read on, n steps, while nothing else happens. */
  function ReadOn(s: Stream, seqNo: nat, ring: seq<int>, n: nat): Stream {
    if n == 0 then s else Advanced(ReadOn(s, seqNo, ring, n - 1), seqNo, ring)
  }

  lemma {:induction false} ReadOnIsARun(s: State, id: nat, n: nat)
    requires id in s.streams
    ensures Run(s, seq(n, _ => Advance(id))) == s.Set(id, ReadOn(s.streams[id], s.seqNo, s.ring, n))
  {
    hide Advanced;
    var moves: seq<Move> := seq(n, _ => Advance(id));
    if n == 0 {
      assert s.streams == s.streams[id := s.streams[id]];
    } else {
      ReadOnIsARun(s, id, n - 1);
      assert moves[..n - 1] == seq(n - 1, _ => Advance(id));
    }
  }

  lemma {:induction false} ReadOnFurther(s: Stream, seqNo: nat, ring: seq<int>, a: nat, b: nat)
    ensures ReadOn(s, seqNo, ring, a + b) == ReadOn(ReadOn(s, seqNo, ring, a), seqNo, ring, b)
  {
    hide Advanced;
    if b > 0 {
      ReadOnFurther(s, seqNo, ring, a, b - 1);
    }
  }

  /** What a stream owes its reader: the rest of its replay and what waits in its queue. */
  function Owed(s: Stream, seqNo: nat, ring: seq<int>): seq<int> {
    (match s.phase
     case Joined => if s.cursor.Some? then After(ring, s.cursor.value) else []
     case Replaying(i) => if s.snap.Some? && i <= |s.snap.value.backlog| then s.snap.value.backlog[i..] else []
     case _ => []) + s.queue.items
  }

  /** An attached stream that is read on sends exactly that, in that order, and then waits. */
  lemma CatchesUp(s: Stream, seqNo: nat, ring: seq<int>) returns (n: nat)
    requires s.attached && !s.queue.dropped && SentInOrder(s) && s.phase != Closed
    ensures var t := ReadOn(s, seqNo, ring, n);
            && t.phase.Live? && t.attached && t.queue.items == [] && t.sent == s.sent + Owed(s, seqNo, ring)
            && t.snap == if s.phase.Joined? && s.cursor.Some? then Some(Snap(seqNo, ring, s.cursor.value)) else s.snap
  {
    hide After, Snap, Advanced;
    match s.phase {
      case Joined =>
        JoinedGoesOn(s, seqNo, ring);
        assert ReadOn(s, seqNo, ring, 0) == s;
        var t := ReadOn(s, seqNo, ring, 1);
        var m := ReplayedOut(t, seqNo, ring);
        n := 1 + m;
        ReadOnFurther(s, seqNo, ring, 1, m);
      case _ => n := ReplayedOut(s, seqNo, ring);
    }
  }

  lemma JoinedGoesOn(s: Stream, seqNo: nat, ring: seq<int>)
    requires s.phase.Joined?
    ensures Advanced(s, seqNo, ring) ==
            if s.cursor.None? then s.(phase := Live)
            else s.(phase := Replaying(0), snap := Some(Snap(seqNo, ring, s.cursor.value)))
    ensures s.cursor.Some? ==> Snap(seqNo, ring, s.cursor.value).backlog == After(ring, s.cursor.value)
  {
  }

  lemma {:induction false} ReplayedOut(s: Stream, seqNo: nat, ring: seq<int>) returns (n: nat)
    requires s.attached && !s.queue.dropped && (s.phase.Live? || s.phase.Replaying?)
    requires s.phase.Replaying? ==> s.snap.Some? && s.phase.sent <= |s.snap.value.backlog|
    ensures var t := ReadOn(s, seqNo, ring, n);
            && t.phase.Live? && t.attached && t.queue.items == [] && t.snap == s.snap
            && t.sent == s.sent + Owed(s, seqNo, ring)
    decreases s.phase.Replaying?, if s.phase.Replaying? then |s.snap.value.backlog| - s.phase.sent else |s.queue.items|
  {
    if s.phase.Live? && s.queue.items == [] {
      n := 0;
    } else {
      var t := Advanced(s, seqNo, ring);
      OneStepSent(s, seqNo, ring);
      var m := ReplayedOut(t, seqNo, ring);
      n := 1 + m;
      assert ReadOn(s, seqNo, ring, 0) == s && ReadOn(s, seqNo, ring, 1) == t;
      ReadOnFurther(s, seqNo, ring, 1, m);
    }
  }

  /** One step sends the first of what is owed, or ends the replay. */
  lemma OneStepSent(s: Stream, seqNo: nat, ring: seq<int>)
    requires s.attached && !s.queue.dropped && (s.phase.Replaying? || (s.phase.Live? && s.queue.items != []))
    requires s.phase.Replaying? ==> s.snap.Some? && s.phase.sent <= |s.snap.value.backlog|
    ensures var t := Advanced(s, seqNo, ring);
            && t.attached && !t.queue.dropped && t.snap == s.snap
            && t.sent + Owed(t, seqNo, ring) == s.sent + Owed(s, seqNo, ring)
            && (t.phase.Live? || (t.phase.Replaying? && s.phase.Replaying? && t.phase.sent == s.phase.sent + 1
                                  && t.phase.sent <= |t.snap.value.backlog|))
            && (s.phase.Live? ==> |t.queue.items| < |s.queue.items|)
  {
    if s.phase.Replaying? {
      var b, i := s.snap.value.backlog, s.phase.sent;
      if i < |b| {
        assert b[i..] == [b[i]] + b[i + 1..];
      } else {
        assert b[i..] == [];
      }
    } else {
      var items := s.queue.items;
      assert items == [items[0]] + items[1..];
    }
  }

  /** Nothing is held back: once every delivery is made, an attached stream that came with a complete cursor, or with
      none, and is read on has sent every event after that cursor, or since it joined. */
  lemma EverythingIsSent(moves: seq<Move>, id: nat) returns (n: nat)
    requires var s := Run(START, moves); id in s.streams && s.streams[id].attached && s.pending == {}
    ensures var s := Run(START, moves);
            var was, t := s.streams[id], ReadOn(s.streams[id], s.seqNo, s.ring, n);
            && t.phase.Live? && t.queue.items == []
            && (forall e :: was.since < e <= s.seqNo ==> e in t.sent)
            && (t.snap.Some? && t.snap.value.complete ==>
                  forall e :: Max(t.snap.value.cursor, 0) < e <= s.seqNo ==> e in t.sent)
  {
    hide Run, Contiguous, Advanced, After, Snap, Range;
    RunKeepsInv(moves);
    var s := Run(START, moves);
    var was := s.streams[id];
    n := CatchesUp(was, s.seqNo, s.ring);
    var t := ReadOn(was, s.seqNo, s.ring, n);
    if was.phase.Joined? && was.cursor.Some? {
      SnapFacts(s.seqNo, s.ring, was.cursor.value);
      JoinedGoesOn(was, s.seqNo, s.ring);
    }
    AllSent(was, s.seqNo, s.ring, t);
  }

  lemma AllSent(s: Stream, seqNo: nat, ring: seq<int>, t: Stream)
    requires s.attached && StreamInv(s, seqNo, {}) && t.sent == s.sent + Owed(s, seqNo, ring)
    requires if s.phase.Joined? && s.cursor.Some? then
               && t.snap == Some(Snap(seqNo, ring, s.cursor.value))
               && t.snap.value.backlog == After(ring, s.cursor.value) && t.snap.value.serverSeq == seqNo
               && t.snap.value.cursor == s.cursor.value && (t.snap.value.complete ==> FillsTheGap(t.snap.value))
             else t.snap == s.snap
    ensures forall e :: s.since < e <= seqNo ==> e in t.sent
    ensures t.snap.Some? && t.snap.value.complete ==>
              forall e :: Max(t.snap.value.cursor, 0) < e <= seqNo ==> e in t.sent
  {
    hide Snap, After, Range;
    forall e | e in Taken(s)
      ensures e in t.sent
    {
      if e !in s.live {
        assert e in s.queue.items;
      }
    }
    if t.snap.Some? {
      forall e | e in t.snap.value.backlog
        ensures e in t.sent
      {
        var b := t.snap.value.backlog;
        if s.phase.Replaying? && e !in b[..s.phase.sent] {
          assert b == b[..s.phase.sent] + b[s.phase.sent..];
        }
      }
    }
  }

  // ---------------------------------------------------------------------
  // Reconnecting with the last number seen
  // ---------------------------------------------------------------------

  ghost predicate Consecutive(s: seq<int>) {
    forall i :: 0 <= i < |s| ==> s[i] == s[0] + i
  }

  /** Events reach the queues in the order of their numbers: the one delivered is always the oldest pending. */
  ghost predicate DeliversInOrder(moves: seq<Move>) {
    forall k :: 0 <= k < |moves| && moves[k].Deliver? ==>
      forall n :: n in Run(START, moves[..k]).pending ==> moves[k].n <= n
  }

  ghost predicate Frontier(s: State, d: nat) {
    d <= s.seqNo && forall n :: n in s.pending <==> d < n <= s.seqNo
  }

  ghost predicate InSequence(s: Stream, d: nat) {
    var t := Taken(s);
    && Consecutive(t)
    && (t != [] ==> t[0] <= s.since + 1 && t[|t| - 1] <= d)
    && (s.attached ==> if t == [] then d <= s.since else t[|t| - 1] == d)
  }

  ghost predicate Ordered(s: State, d: nat) {
    Frontier(s, d) && forall id :: id in s.streams ==> InSequence(s.streams[id], d)
  }

  lemma DeliveredInSequence(s: Stream, d: nat)
    requires InSequence(s, d)
    ensures InSequence(Delivered(s, d + 1), d + 1)
  {
    var t := Delivered(s, d + 1);
    var was, now := Taken(s), Taken(t);
    if s.attached && |s.queue.items| < QUEUE {
      assert now == was + [d + 1];
    } else {
      assert now == was;
    }
  }

  lemma StepKeepsOrder(s: State, m: Move, d: nat) returns (e: nat)
    requires Inv(s) && Ordered(s, d)
    requires m.Deliver? ==> forall n :: n in s.pending ==> m.n <= n
    ensures Ordered(Step(s, m), e)
  {
    hide Contiguous, Appended, Snap, StreamInv, InSequence, Taken;
    e := if m.Deliver? && Enabled(s, m) then d + 1 else d;
    if Enabled(s, m) {
      match m {
        case Emit =>
        case Deliver(n) =>
          assert d + 1 in s.pending && n == d + 1;
          forall id | id in s.streams ensures InSequence(Delivered(s.streams[id], n), d + 1) {
            DeliveredInSequence(s.streams[id], d);
          }
        case Open(id, cursor) =>
          FreshInSequence(cursor, s.seqNo, d);
        case Advance(id) =>
          AdvancedInSequence(s.streams[id], s.seqNo, s.ring, d);
        case Disconnect(id) =>
          GoneInSequence(s.streams[id], d);
      }
    }
  }

  lemma FreshInSequence(cursor: Option<int>, seqNo: nat, d: nat)
    requires d <= seqNo
    ensures InSequence(Stream(cursor, seqNo, Joined, None, true, Queue([], false), [], []), d)
  {
  }

  lemma AdvancedInSequence(s: Stream, seqNo: nat, ring: seq<int>, d: nat)
    requires InSequence(s, d)
    ensures InSequence(Advanced(s, seqNo, ring), d)
  {
    hide Snap, Taken;
    TakenStays(s, seqNo, ring);
  }

  lemma GoneInSequence(s: Stream, d: nat)
    requires InSequence(s, d)
    ensures InSequence(Gone(s), d)
  {
    assert Taken(Gone(s)) == Taken(s);
  }

  lemma {:induction false} RunKeepsOrder(moves: seq<Move>) returns (d: nat)
    requires DeliversInOrder(moves)
    ensures Ordered(Run(START, moves), d)
  {
    hide Step, Ordered, Inv;
    if moves == [] {
      StartOrdered();
      return 0;
    }
    var rest := moves[..|moves| - 1];
    forall k | 0 <= k < |rest| && rest[k].Deliver?
      ensures forall n :: n in Run(START, rest[..k]).pending ==> rest[k].n <= n
    {
      assert rest[..k] == moves[..k];
    }
    d := RunKeepsOrder(rest);
    RunKeepsInv(rest);
    d := StepKeepsOrder(Run(START, rest), moves[|moves| - 1], d);
  }

  lemma StartOrdered()
    ensures Ordered(Run(START, []), 0)
  {
  }

  /** Every event after the cursor and up to the last number sent was sent: that number is a safe cursor to come back
      with. */
  ghost predicate LastIsSafe(s: Stream) {
    s.snap.Some? && s.sent != [] ==> forall n :: Max(s.snap.value.cursor, 0) < n <= s.sent[|s.sent| - 1] ==> n in s.sent
  }

  /** The newest number the replay accounts for. */
  function Joint(snap: Snapshot): int {
    Max(snap.cursor, snap.serverSeq)
  }

  /** For any stream, dropped and closed ones included: the last number sent is safe exactly when everything between the
      snapshot and that number came out of the queue. */
  lemma SafeExactly(s: Stream, seqNo: nat)
    requires SentInOrder(s) && SnapshotKept(s, seqNo)
    requires s.snap.Some? && s.snap.value.complete && s.sent != []
    ensures LastIsSafe(s) <==> forall n :: Joint(s.snap.value) < n < s.sent[|s.sent| - 1] ==> n in s.live
  {
    hide Range;
    var snap, k := s.snap.value, |s.sent| - |s.live|;
    var b, last := snap.backlog, s.sent[|s.sent| - 1];
    ReplayIsTheGap(snap);
    if s.live == [] {
      assert s.sent == b[..k] && last == b[k - 1];
      forall n | Max(snap.cursor, 0) < n <= last
        ensures n in s.sent
      {
        assert b[n - b[0]] == n && s.sent[n - b[0]] == n;
      }
    } else {
      assert s.sent == b + s.live && last == s.live[|s.live| - 1];
      assert forall n :: n in s.sent <==> n in b || n in s.live;
      assert forall n :: Max(snap.cursor, 0) < n <= last ==> (n in s.sent <==> n <= snap.serverSeq || n in s.live);
      assert last in s.live;
    }
  }

  /** A complete backlog, number by number. */
  lemma ReplayIsTheGap(snap: Snapshot)
    requires snap.backlog == Range(snap.serverSeq - |snap.backlog| + 1, snap.serverSeq)
    requires (forall n :: n in snap.backlog ==> n > snap.cursor) && snap.cursor >= 0 && FillsTheGap(snap)
    ensures forall n :: n in snap.backlog <==> snap.cursor < n <= snap.serverSeq
    ensures forall i :: 0 <= i < |snap.backlog| ==> snap.backlog[i] == snap.backlog[0] + i <= snap.serverSeq
    ensures snap.backlog != [] ==> snap.backlog[0] == snap.cursor + 1
  {
    if snap.backlog != [] {
      assert snap.backlog[0] in snap.backlog;
      assert snap.cursor + 1 in snap.backlog;
    }
  }

  /** Over every run, in whatever order events are delivered: while a stream with a complete resume is attached, the
      last number it sent is a safe cursor exactly when nothing between the snapshot and that number still awaits
      delivery or waits in its queue. The server can check that at any moment. */
  lemma LastSentIsSafeExactly(moves: seq<Move>, id: nat)
    requires var s := Run(START, moves); id in s.streams && s.streams[id].attached
    requires var t := Run(START, moves).streams[id]; t.snap.Some? && t.snap.value.complete && t.sent != []
    ensures var s := Run(START, moves);
            var t := s.streams[id];
            LastIsSafe(t) <==>
            forall n :: Joint(t.snap.value) < n < t.sent[|t.sent| - 1] ==> n !in s.pending && n !in t.queue.items
  {
    hide Run, Contiguous, LastIsSafe;
    RunKeepsInv(moves);
    var s := Run(START, moves);
    var t := s.streams[id];
    SafeExactly(t, s.seqNo);
    SentAreNumbered(t, s.seqNo, s.pending);
    assert t.sent[|t.sent| - 1] in t.sent;
    forall n | Joint(t.snap.value) < n < t.sent[|t.sent| - 1]
      ensures n in t.live <==> n !in s.pending && n !in t.queue.items
    {
      TakenOrPending(t, s.seqNo, s.pending, n);
    }
  }

  lemma SentAreNumbered(s: Stream, seqNo: nat, pending: set<int>)
    requires StreamInv(s, seqNo, pending) && s.snap.Some?
    ensures forall n :: n in s.sent ==> n <= seqNo
  {
    hide FillsTheGap, NothingMissed;
    assert forall n :: n in s.live ==> n in Taken(s);
  }

  lemma TakenOrPending(s: Stream, seqNo: nat, pending: set<int>, n: int)
    requires NothingMissed(s, seqNo, pending) && OnceFromTheQueue(s, seqNo, pending) && s.attached &&
             s.since < n <= seqNo
    ensures n in s.live <==> n !in pending && n !in s.queue.items
  {
    var t := Taken(s);
    assert n in t <==> n in s.live || n in s.queue.items;
    assert forall i :: 0 <= i < |s.live| ==> t[i] == s.live[i];
    assert forall j :: 0 <= j < |s.queue.items| ==> t[|s.live| + j] == s.queue.items[j];
  }

  /** With deliveries in order it always is. */
  lemma LastSentIsASafeCursor(moves: seq<Move>, id: nat)
    requires DeliversInOrder(moves)
    requires var s := Run(START, moves);
             id in s.streams && s.streams[id].snap.Some? && s.streams[id].snap.value.complete
    ensures LastIsSafe(Run(START, moves).streams[id])
  {
    hide Run, Contiguous, DeliversInOrder, NothingMissed, OnceFromTheQueue;
    RunKeepsInv(moves);
    var d := RunKeepsOrder(moves);
    var s := Run(START, moves).streams[id];
    SafeCursor(s, Run(START, moves).seqNo, d);
  }

  lemma SafeCursor(s: Stream, seqNo: nat, d: nat)
    requires SentInOrder(s) && SnapshotKept(s, seqNo) && InSequence(s, d)
    requires s.snap.Some? && s.snap.value.complete
    ensures LastIsSafe(s)
  {
    if s.sent != [] {
      SafeExactly(s, seqNo);
      var last := s.sent[|s.sent| - 1];
      ReplayIsTheGap(s.snap.value);
      forall n | Joint(s.snap.value) < n < last
        ensures n in s.live
      {
        var t := Taken(s);
        assert s.live != [];
        assert last == s.live[|s.live| - 1] == t[|s.live| - 1];
        assert t[n - t[0]] == s.live[n - t[0]] == n;
      }
    }
  }

  // ---------------------------------------------------------------------
  // Which schedules of emitters and deliveries are safe for everybody
  // ---------------------------------------------------------------------

  predicate OfTheServer(m: Move) {
    m.Emit? || m.Deliver?
  }

  /** What the server does in these moves, without the streams' comings and goings. */
  function Schedule(moves: seq<Move>): seq<Move> {
    if moves == [] then []
    else Schedule(moves[..|moves| - 1]) + if OfTheServer(moves[|moves| - 1]) then [moves[|moves| - 1]] else []
  }

  /** Whoever joins, leaves and reads, and whenever: every stream with a complete resume can come back with the last
      number. */
  ghost predicate SafeForEverybody(schedule: seq<Move>) {
    forall moves, id :: Schedule(moves) <= schedule && id in Run(START, moves).streams ==>
      var t := Run(START, moves).streams[id];
      t.snap.Some? && t.snap.value.complete ==> LastIsSafe(t)
  }

  lemma {:induction false} ServerOnly(moves: seq<Move>)
    ensures Run(START, moves).seqNo == Run(START, Schedule(moves)).seqNo
    ensures Run(START, moves).pending == Run(START, Schedule(moves)).pending
  {
    hide Step;
    if moves != [] {
      var rest, last := moves[..|moves| - 1], moves[|moves| - 1];
      ServerOnly(rest);
      var before := Schedule(rest);
      assert (before + [last])[..|before|] == before && before + [] == before;
      SameServer(Run(START, rest), Run(START, before), last);
    }
  }

  /** The numbers and what awaits delivery do not depend on the streams. */
  lemma SameServer(a: State, b: State, m: Move)
    requires a.seqNo == b.seqNo && a.pending == b.pending
    ensures Step(a, m).seqNo == if OfTheServer(m) then Step(b, m).seqNo else b.seqNo
    ensures Step(a, m).pending == if OfTheServer(m) then Step(b, m).pending else b.pending
  {
    hide Appended, Advanced, Delivered, Gone;
  }

  lemma {:induction false} ScheduleOfPrefix(moves: seq<Move>, k: nat)
    requires k <= |moves|
    ensures Schedule(moves[..k]) <= Schedule(moves)
  {
    if k < |moves| {
      ScheduleOfPrefix(moves[..|moves| - 1], k);
      assert moves[..|moves| - 1][..k] == moves[..k];
    } else {
      assert moves[..k] == moves;
    }
  }

  /** A schedule that delivers in order does so whatever streams are woven into it. */
  lemma OrderIsOfTheSchedule(moves: seq<Move>, schedule: seq<Move>)
    requires Schedule(moves) <= schedule && DeliversInOrder(schedule)
    ensures DeliversInOrder(moves)
  {
    hide Run, Step;
    forall k | 0 <= k < |moves| && moves[k].Deliver?
      ensures forall n :: n in Run(START, moves[..k]).pending ==> moves[k].n <= n
    {
      ServerOnly(moves[..k]);
      ScheduleOfPrefix(moves, k + 1);
      var before := Schedule(moves[..k]);
      assert moves[..k + 1][..k] == moves[..k];
      assert Schedule(moves[..k + 1]) == before + [moves[k]];
      assert schedule[|before|] == moves[k] && schedule[..|before|] == before;
    }
  }

  /** One reader woven into a schedule: it joins before anything happens and reads each event as it is delivered. */
  function Watched(schedule: seq<Move>): seq<Move> {
    if schedule == [] then [Open(0, Some(0)), Advance(0), Advance(0)]
    else Watched(schedule[..|schedule| - 1]) + [schedule[|schedule| - 1], Advance(0)]
  }

  /** What the schedule delivers, in its order. */
  function DeliveredBy(schedule: seq<Move>): seq<int> {
    if schedule == [] then []
    else
      var before, last := schedule[..|schedule| - 1], schedule[|schedule| - 1];
      DeliveredBy(before) + if last.Deliver? && last.n in Run(START, before).pending then [last.n] else []
  }

  /** Emissions and deliveries only, and every delivery is of an event that awaits it. */
  ghost predicate ServersOwn(schedule: seq<Move>) {
    forall k :: 0 <= k < |schedule| ==>
      OfTheServer(schedule[k]) && (schedule[k].Deliver? ==> schedule[k].n in Run(START, schedule[..k]).pending)
  }

  lemma ServersOwnPrefix(schedule: seq<Move>, k: nat)
    requires ServersOwn(schedule) && k <= |schedule|
    ensures ServersOwn(schedule[..k])
  {
    hide Run;
    assert forall i :: 0 <= i < k ==> schedule[..k][..i] == schedule[..i];
  }

  lemma NextTwo(s: State, moves: seq<Move>, a: Move, b: Move)
    ensures Run(s, moves + [a, b]) == Step(Step(Run(s, moves), a), b)
  {
    var all := moves + [a, b];
    assert all[..|moves| + 1][..|moves|] == moves && all[..|all| - 1] == all[..|moves| + 1];
  }

  /** The reader sends exactly what is delivered, in that order. */
  lemma {:induction false} WatchedSees(schedule: seq<Move>)
    requires ServersOwn(schedule)
    ensures Schedule(Watched(schedule)) == schedule
    ensures var s := Run(START, Watched(schedule));
            && 0 in s.streams && s.pending == Run(START, schedule).pending && s.seqNo == Run(START, schedule).seqNo
            && s.streams[0] == Watching(DeliveredBy(schedule))
  {
    hide Step, Schedule;
    if schedule == [] {
      WatchBegins();
    } else {
      var before, m := schedule[..|schedule| - 1], schedule[|schedule| - 1];
      ServersOwnPrefix(schedule, |schedule| - 1);
      WatchedSees(before);
      var w := Watched(before);
      NextTwo(START, w, m, Advance(0));
      WatchedSchedule(w, m);
      assert schedule == before + [m];
      WatchedStep(Run(START, w), Run(START, before), DeliveredBy(before), m);
    }
  }

  lemma WatchedSchedule(w: seq<Move>, m: Move)
    requires OfTheServer(m)
    ensures Schedule(w + [m, Advance(0)]) == Schedule(w) + [m]
  {
    var all := w + [m, Advance(0)];
    assert all[..|w| + 1][..|w|] == w && all[..|all| - 1] == all[..|w| + 1];
    assert Schedule(all[..|w| + 1]) == Schedule(w) + [m];
    assert Schedule(all) == Schedule(all[..|w| + 1]) + [];
  }

  /** One step of the schedule, and the reader's next reading. */
  lemma WatchedStep(s: State, plain: State, sent: seq<int>, m: Move)
    requires OfTheServer(m) && 0 in s.streams && s.streams[0] == Watching(sent)
    requires s.pending == plain.pending && s.seqNo == plain.seqNo && (m.Deliver? ==> m.n in s.pending)
    ensures var t := Step(Step(s, m), Advance(0));
            && 0 in t.streams && t.pending == Step(plain, m).pending && t.seqNo == Step(plain, m).seqNo
            && t.streams[0] == Watching(if m.Deliver? then sent + [m.n] else sent)
  {
    hide Appended, Advanced, Delivered;
    ReaderReads(sent, m);
  }

  function Watching(sent: seq<int>): Stream {
    Stream(Some(0), 0, Live, Some(Snapshot(0, 0, 0, [], true)), true, Queue([], false), sent, sent)
  }

  lemma WatchBegins()
    ensures Schedule(Watched([])) == []
    ensures Run(START, Watched([])) == State(0, [], {}, map[0 := Watching([])])
  {
    hide Run;
    var w := Watched([]);
    assert w[..3] == w && w[..2] == [Open(0, Some(0)), Advance(0)] && w[..1] == [Open(0, Some(0))];
    assert Schedule(w[..1][..0]) == [] && w[..2][..1] == w[..1] && w[..3][..2] == w[..2] && w[..1][..0] == [];
    NextState(w, 0);
    assert Run(START, w[..1]) == State(0, [], {}, map[0 := ASKED.(phase := Joined, snap := None)]);
    NextState(w, 1);
    assert Run(START, w[..2]) == State(0, [], {}, map[0 := ASKED]);
    NextState(w, 2);
  }

  /** One delivery, read at once. */
  lemma ReaderReads(sent: seq<int>, m: Move)
    ensures m.Deliver? ==> Advanced(Delivered(Watching(sent), m.n), 0, []) == Watching(sent + [m.n])
    ensures forall seqNo: nat, ring :: Advanced(Watching(sent), seqNo, ring) == Watching(sent)
    ensures m.Deliver? ==> forall seqNo: nat, ring ::
            Advanced(Delivered(Watching(sent), m.n), seqNo, ring) == Watching(sent + [m.n])
  {
    if m.Deliver? {
      var none: seq<int> := [];
      assert [m.n][1..] == none && none + [m.n] == [m.n];
    }
  }

  /** The last number seen is a safe cursor for everybody exactly when the server delivers in order. */
  lemma SafeForEverybodyExactly(schedule: seq<Move>)
    requires ServersOwn(schedule)
    ensures SafeForEverybody(schedule) <==> DeliversInOrder(schedule)
  {
    hide Run, Step, LastIsSafe, DeliversInOrder, Watched, Schedule;
    if DeliversInOrder(schedule) {
      forall moves, id | Schedule(moves) <= schedule && id in Run(START, moves).streams
        ensures var t := Run(START, moves).streams[id]; t.snap.Some? && t.snap.value.complete ==> LastIsSafe(t)
      {
        OrderIsOfTheSchedule(moves, schedule);
        if Run(START, moves).streams[id].snap.Some? && Run(START, moves).streams[id].snap.value.complete {
          LastSentIsASafeCursor(moves, id);
        }
      }
    } else {
      OutOfOrderHurts(schedule);
    }
  }

  lemma OutOfOrderHurts(schedule: seq<Move>)
    requires ServersOwn(schedule) && !DeliversInOrder(schedule)
    ensures !SafeForEverybody(schedule)
  {
    hide Run, Step, Watched, Schedule, DeliveredBy;
    var k, n :| 0 <= k < |schedule| && schedule[k].Deliver? && n in Run(START, schedule[..k]).pending &&
      n < schedule[k].n;
    JumpIsSeen(schedule, k, n);
  }

  /** The reader that is woven in sends the later number first. */
  lemma JumpIsSeen(schedule: seq<Move>, k: nat, n: int)
    requires ServersOwn(schedule) && k < |schedule| && schedule[k].Deliver?
    requires n in Run(START, schedule[..k]).pending && n < schedule[k].n
    ensures !SafeForEverybody(schedule)
  {
    hide Run, Step, Watched, Schedule;
    var before, upTo := schedule[..k], schedule[..k + 1];
    ServersOwnPrefix(schedule, k);
    ServersOwnPrefix(schedule, k + 1);
    WatchedSees(before);
    WatchedSees(upTo);
    RunKeepsInv(Watched(before));
    assert upTo[..|upTo| - 1] == before;
    var sent := DeliveredBy(upTo);
    assert sent == DeliveredBy(before) + [schedule[k].n];
    NotYetSent(Run(START, Watched(before)), DeliveredBy(before), n);
    var t := Run(START, Watched(upTo)).streams[0];
    assert t == Watching(sent) && 0 < n <= sent[|sent| - 1] && n !in t.sent;
    assert !LastIsSafe(t);
    assert Schedule(Watched(upTo)) <= schedule;
  }

  lemma NotYetSent(s: State, sent: seq<int>, n: int)
    requires Inv(s) && 0 in s.streams && s.streams[0] == Watching(sent) && n in s.pending
    ensures n > 0 && n !in sent
  {
    assert Taken(s.streams[0]) == sent;
  }

  const SKIPPING := [
    Open(0, Some(0)), Advance(0), Emit, Emit, Deliver(2), Advance(0), Advance(0), Disconnect(0), Deliver(1),
    Open(1, Some(2)), Advance(1)]
  const ASKED := Stream(Some(0), 0, Replaying(0), Some(Snapshot(0, 0, 0, [], true)), true, Queue([], false), [], [])
  const LEFT := Stream(Some(0), 0, Closed, Some(Snapshot(0, 0, 0, [], true)), false, Queue([], false), [2], [2])
  const BACK := Stream(Some(2), 2, Replaying(0), Some(Snapshot(2, 1, 2, [], true)), true, Queue([], false), [], [])

  /** Out of order it is not: 2 is sent and becomes the cursor while 1 is still on its way, and the client that comes
      back with 2 is told that its resume is complete; no stream has sent 1, and nothing is left that would. */
  lemma OutOfOrderCursorSkips()
    ensures Run(START, SKIPPING) == State(2, [1, 2], {}, map[0 := LEFT, 1 := BACK])
    ensures BACK.cursor == Some(LEFT.sent[|LEFT.sent| - 1]) && LEFT.snap.value.complete && BACK.snap.value.complete
    ensures 1 !in LEFT.sent && 1 !in BACK.sent && 1 !in BACK.snap.value.backlog && 1 !in BACK.queue.items
  {
    hide Run;
    assert SKIPPING[..11] == SKIPPING;
    Skipped();
    NextState(SKIPPING, 7);
    assert Run(START, SKIPPING[..8]) == State(2, [1, 2], {1}, map[0 := LEFT]);
    NextState(SKIPPING, 8);
    var pending: set<int> := {1};
    assert SKIPPING[8] == Deliver(1) && pending - {1} == {} && Delivered(LEFT, 1) == LEFT;
    assert Run(START, SKIPPING[..9]) == State(2, [1, 2], {}, map[0 := LEFT]);
    NextState(SKIPPING, 9);
    var joined := BACK.(phase := Joined, snap := None);
    assert Run(START, SKIPPING[..10]) == State(2, [1, 2], {}, map[0 := LEFT, 1 := joined]);
    NextState(SKIPPING, 10);
    BackAtTwo();
    assert Advanced(joined, 2, [1, 2]) == BACK;
  }

  lemma BackAtTwo()
    ensures Snap(2, [1, 2], 2) == Snapshot(2, 1, 2, [], true)
  {
    assert [1, 2][..1] == [1] && [1][..0] == [];
  }

  lemma Skipped()
    ensures Run(START, SKIPPING[..7]) == State(2, [1, 2], {1}, map[0 := LEFT.(phase := Live, attached := true)])
  {
    hide Run;
    var offered := ASKED.(queue := Queue([2], false));
    TwoEmitted();
    NextState(SKIPPING, 4);
    var pending: set<int> := {1, 2};
    assert SKIPPING[4] == Deliver(2) && pending - {2} == {1} && Delivered(ASKED, 2) == offered;
    assert Run(START, SKIPPING[..5]) == State(2, [1, 2], {1}, map[0 := offered]);
    NextState(SKIPPING, 5);
    var live := offered.(phase := Live);
    assert Run(START, SKIPPING[..6]) == State(2, [1, 2], {1}, map[0 := live]);
    NextState(SKIPPING, 6);
    assert live.queue.items[1..] == [] && live.sent + [2] == [2];
    assert Advanced(live, 2, [1, 2]) == LEFT.(phase := Live, attached := true);
  }

  lemma TwoEmitted()
    ensures Run(START, SKIPPING[..4]) == State(2, [1, 2], {1, 2}, map[0 := ASKED])
  {
    hide Run;
    NextState(SKIPPING, 0);
    assert Run(START, SKIPPING[..1]) == State(0, [], {}, map[0 := ASKED.(phase := Joined, snap := None)]);
    NextState(SKIPPING, 1);
    assert Run(START, SKIPPING[..2]) == State(0, [], {}, map[0 := ASKED]);
    NextState(SKIPPING, 2);
    assert Run(START, SKIPPING[..3]) == State(1, [1], {1}, map[0 := ASKED]);
    NextState(SKIPPING, 3);
  }

  lemma NextState(moves: seq<Move>, k: nat)
    requires k < |moves|
    ensures Run(START, moves[..k + 1]) == Step(Run(START, moves[..k]), moves[k])
    ensures Run(START, moves[..0]) == START
  {
    assert moves[..k + 1][..k] == moves[..k];
  }

  /** What an EventSource would come back with: the last number it was sent, or the cursor it came with. */
  function LastSeen(s: Stream): int
    requires s.snap.Some?
  {
    if s.sent != [] then s.sent[|s.sent| - 1] else s.snap.value.cursor
  }

  /** These streams of one run are one client's: each was opened with what the one before it had seen. */
  ghost predicate OneClient(s: State, ids: seq<nat>) {
    && ids != []
    && (forall i :: 0 <= i < |ids| ==>
      ids[i] in s.streams && s.streams[ids[i]].snap.Some? && s.streams[ids[i]].snap.value.complete)
    && (forall i :: 0 < i < |ids| ==> s.streams[ids[i]].snap.value.cursor == LastSeen(s.streams[ids[i - 1]]))
  }

  /** Over any run that delivers in order, a client that keeps coming back with the last number it saw, and whose
      resumes were all complete, has been sent every event between its first cursor and that number. */
  lemma ReconnectsLoseNothing(moves: seq<Move>, ids: seq<nat>, n: int)
    requires DeliversInOrder(moves) && OneClient(Run(START, moves), ids)
    requires var s := Run(START, moves);
             Max(s.streams[ids[0]].snap.value.cursor, 0) < n <= LastSeen(s.streams[ids[|ids| - 1]])
    ensures exists i :: 0 <= i < |ids| && n in Run(START, moves).streams[ids[i]].sent
  {
    hide Run, DeliversInOrder, LastIsSafe;
    var s := Run(START, moves);
    RunKeepsInv(moves);
    forall i | 0 <= i < |ids|
      ensures LastIsSafe(s.streams[ids[i]]) && s.streams[ids[i]].snap.value.cursor >= 0
    {
      LastSentIsASafeCursor(moves, ids[i]);
    }
    ChainLosesNothing(s, ids, n);
  }

  lemma {:induction false} ChainLosesNothing(s: State, ids: seq<nat>, n: int)
    requires OneClient(s, ids)
    requires forall i :: 0 <= i < |ids| ==> LastIsSafe(s.streams[ids[i]]) && s.streams[ids[i]].snap.value.cursor >= 0
    requires s.streams[ids[0]].snap.value.cursor < n <= LastSeen(s.streams[ids[|ids| - 1]])
    ensures exists i :: 0 <= i < |ids| && n in s.streams[ids[i]].sent
  {
    var last := s.streams[ids[|ids| - 1]];
    if n > last.snap.value.cursor {
      assert n in last.sent;
    } else {
      var rest := ids[..|ids| - 1];
      assert forall i :: 0 <= i < |rest| ==> rest[i] == ids[i];
      ChainLosesNothing(s, rest, n);
      var i :| 0 <= i < |rest| && n in s.streams[rest[i]].sent;
      assert n in s.streams[ids[i]].sent;
    }
  }
}
