/**
 The byte frames that travel through a connection's asynchronous write queue: one tag
 byte, then the data; a header and its payload travel in one frame, with the length of
 the header between them.
 */
module FrameCodec {
  import opened Basics

  datatype Frame =
    | Text(data: Bytes)
    | Binary(data: Bytes)
    | Pair(header: Bytes, payload: Bytes)

  const HEADER_LIMIT: nat := 0x1_0000_0000

  function LengthBytes(n: nat): Bytes {
    [(n / 0x1000000) % 256, (n / 0x10000) % 256, (n / 0x100) % 256, n % 256]
  }

  function ReadLength(b: Bytes): nat
    requires |b| == 4
  {
    (b[0] as int) * 0x1000000 + (b[1] as int) * 0x10000 + (b[2] as int) * 0x100 + b[3] as int
  }

  function Encode(f: Frame): Bytes {
    match f
    case Text(data) => [0] + data
    case Binary(data) => [1] + data
    case Pair(header, payload) => [2] + LengthBytes(|header|) + header + payload
  }

  /** What the writer makes of a queued frame; None where it would index out of range. */
  function Decode(b: Bytes): Option<Frame> {
    if |b| > 0 && b[0] == 2 then
      if |b| < 5 then None
      else
        var n := ReadLength(b[1..5]);
        if 5 + n <= |b| then Some(Pair(b[5..5 + n], b[5 + n..])) else None
    else if |b| > 0 && b[0] == 1 then Some(Binary(b[1..]))
    else if |b| > 0 && b[0] == 0 then Some(Text(b[1..]))
    else Some(Text(b))
  }

  lemma ByteOff(n: nat)
    ensures n == 0x100 * (n / 0x100) + n % 0x100
    ensures n / 0x100 / 0x100 == n / 0x10000 && n / 0x10000 / 0x100 == n / 0x1000000
  {
  }

  /** Four bytes hold a length exactly when it is below 2^32; above, they hold the rest. */
  lemma LengthRoundTrip(n: nat)
    ensures ReadLength(LengthBytes(n)) == n % HEADER_LIMIT
  {
    var a, b, c := n / 0x100, n / 0x10000, n / 0x1000000;
    ByteOff(n);
    ByteOff(a);
    ByteOff(b);
    ByteOff(c);
    var bytes := LengthBytes(n);
    assert bytes[0] == c % 0x100 && bytes[1] == b % 0x100 && bytes[2] == a % 0x100 && bytes[3] == n % 0x100;
    hide LengthBytes;
    var low, high := ReadLength(bytes), c / 0x100;
    assert n == HEADER_LIMIT * high + low && 0 <= low < HEADER_LIMIT;
    QuotientIs(n, HEADER_LIMIT, high);
  }

  lemma Slices(tag: Bytes, l: Bytes, header: Bytes, payload: Bytes, n: nat)
    requires |tag| == 1 && |l| == 4 && n <= |header|
    ensures var b := tag + l + header + payload; b[1..5] == l && b[5..5 + n] == header[..n] && b[5 + n..] == header[n..] + payload
  {
  }

  lemma DecodePair(header: Bytes, payload: Bytes)
    ensures var n, d := |header| % HEADER_LIMIT, Decode(Encode(Pair(header, payload)));
      && n <= |header| && (n == |header| <==> |header| < HEADER_LIMIT)
      && d == Some(Pair(header[..n], header[n..] + payload))
  {
    var n := |header| % HEADER_LIMIT;
    LengthRoundTrip(|header|);
    FourBytes(|header|);
    hide LengthBytes, ReadLength;
    assert n <= |header| && (n == |header| <==> |header| < HEADER_LIMIT);
    Slices([2], LengthBytes(|header|), header, payload, n);
  }

  lemma FourBytes(n: nat)
    ensures |LengthBytes(n)| == 4
  {
  }

  /** The writer reads back exactly the frame that was queued, for every tag, if and only
      if the header's length fits in its four bytes. */
  lemma DecodeEncode(f: Frame)
    ensures Decode(Encode(f)) == Some(f) <==> (f.Pair? ==> |f.header| < HEADER_LIMIT)
  {
    if f.Pair? {
      DecodePair(f.header, f.payload);
      var n := |f.header| % HEADER_LIMIT;
      assert n == |f.header| ==> f.header[..n] == f.header && f.header[n..] + f.payload == f.payload;
    } else {
      assert Encode(f)[1..] == f.data;
    }
  }
}

/**
 One connection of the relay as the threads that write to it see it: the senders, the
 writer goroutine that drains the queue, and the mutex they share. Every step is one
 lock operation, one channel operation or one WebSocket write, so a run of this machine
 is an interleaving at the grain at which the goroutines interleave. A text message is a
 value of H.
 */
module WriteQueue {
  import opened Basics

  const CAPACITY: nat := 128

  datatype Wire<H> = TextMsg(text: H) | BinaryMsg(data: Bytes)

  /** What one call hands over for writing. */
  datatype Unit<H> = Plain(text: H) | Raw(data: Bytes) | Chunk(header: H, payload: Bytes)

  function Wires<H>(u: Unit<H>): seq<Wire<H>> {
    match u
    case Plain(text) => [TextMsg(text)]
    case Raw(data) => [BinaryMsg(data)]
    case Chunk(header, payload) => [TextMsg(header), BinaryMsg(payload)]
  }

  function AllWires<H>(us: seq<Unit<H>>): seq<Wire<H>> {
    Flatten(seq(|us|, i requires 0 <= i < |us| => Wires(us[i])))
  }

  datatype Thread = WriterThread | SenderThread

  /** Held: the thread has written the first `written` messages of `unit`. */
  datatype Lock<H> = Free | Held(owner: Thread, unit: Unit<H>, written: nat)

  /**
   `calls` and `taken` are histories: the units in the order in which senders handed them
   over, and in the order in which the mutex was taken to write them.
   */
  datatype State<H> = State(
    started: bool,
    open: bool,
    stopped: bool,
    queue: seq<Unit<H>>,
    hand: Option<Unit<H>>,
    lock: Lock<H>,
    failed: bool,
    wire: seq<Wire<H>>,
    calls: seq<Unit<H>>,
    taken: seq<Unit<H>>)

  function Init<H>(): State<H> {
    State(false, false, false, [], None, Free, false, [], [], [])
  }

  datatype Action<H> =
    | Start
    | Close
    | Enqueue(unit: Unit<H>)
    | Dequeue
    | LockWriter
    | LockSender(unit: Unit<H>)
    | Write(ok: bool)
    | Unlock

  ghost predicate Enabled<H>(s: State<H>, a: Action<H>) {
    match a
    case Start => true
    case Close => true
    case Enqueue(_) => s.open && |s.queue| < CAPACITY
    case Dequeue => s.started && s.hand.None? && !(s.lock.Held? && s.lock.owner.WriterThread?) && s.queue != []
    case LockWriter => s.hand.Some? && s.lock.Free?
    case LockSender(_) => s.lock.Free?
    case Write(ok) => s.lock.Held? && s.lock.written < |Wires(s.lock.unit)| && (s.failed ==> !ok)
    case Unlock => s.lock.Held? && (s.lock.written == |Wires(s.lock.unit)| || s.failed)
  }

  /**
   startWriter runs once; a stopped writer throws away what it dequeues; a failed write
   is final for the connection, and its thread gives up the rest of its unit.
   */
  function Next<H>(s: State<H>, a: Action<H>): State<H>
    requires Enabled(s, a)
  {
    match a
    case Start => if s.started then s else s.(started := true, open := true)
    case Close => s.(open := false)
    case Enqueue(u) => s.(queue := s.queue + [u], calls := s.calls + [u])
    case Dequeue =>
      s.(queue := s.queue[1..], hand := if s.stopped then None else Some(s.queue[0]))
    case LockWriter =>
      s.(hand := None, lock := Held(WriterThread, s.hand.value, 0), taken := s.taken + [s.hand.value])
    case LockSender(u) =>
      s.(lock := Held(SenderThread, u, 0), calls := s.calls + [u], taken := s.taken + [u])
    case Write(ok) =>
      if ok then
        s.(wire := s.wire + [Wires(s.lock.unit)[s.lock.written]], lock := s.lock.(written := s.lock.written + 1))
      else
        s.(failed := true)
    case Unlock =>
      s.(lock := Free, stopped := s.stopped || (s.lock.owner.WriterThread? && s.lock.written < |Wires(s.lock.unit)|))
  }

  /** A run: the states passed through, one more than the actions. */
  ghost predicate IsRun<H>(states: seq<State<H>>, actions: seq<Action<H>>) {
    && |states| == |actions| + 1
    && forall i :: 0 <= i < |actions| ==> Enabled(states[i], actions[i]) && states[i + 1] == Next(states[i], actions[i])
  }

  ghost predicate IsRunFromStart<H>(states: seq<State<H>>, actions: seq<Action<H>>) {
    IsRun(states, actions) && states[0] == Init()
  }

  // ---- Adjacency ----

  lemma AllWiresAppend<H>(us: seq<Unit<H>>, u: Unit<H>)
    ensures AllWires(us + [u]) == AllWires(us) + Wires(u)
  {
    var a := seq(|us|, i requires 0 <= i < |us| => Wires(us[i]));
    var b := seq(|us| + 1, i requires 0 <= i < |us| + 1 => Wires((us + [u])[i]));
    assert b == a + [Wires(u)];
    FlattenAppend(a, Wires(u));
  }

  /** The wire is what whole units give, then the start of one more unit. */
  ghost predicate Framed<H>(wire: seq<Wire<H>>, whole: seq<Unit<H>>, part: Unit<H>, written: nat) {
    written <= |Wires(part)| && wire == AllWires(whole) + Wires(part)[..written]
  }

  /** Before the first failed write the wire holds the units in the order in which the mutex
      was taken for them, all whole but the one being written. */
  ghost predicate WireInOrder<H>(s: State<H>) {
    match s.lock
    case Free => s.wire == AllWires(s.taken)
    case Held(_, unit, written) =>
      && s.taken != []
      && s.taken[|s.taken| - 1] == unit
      && Framed(s.wire, s.taken[..|s.taken| - 1], unit, written)
  }

  /** At most one unit is cut short, and nothing follows it. */
  ghost predicate WireCut<H>(s: State<H>) {
    exists n, k :: 0 <= n < |s.taken| && 0 <= k < |Wires(s.taken[n])| && Framed(s.wire, s.taken[..n], s.taken[n], k)
  }

  ghost predicate Adjacent<H>(s: State<H>) {
    if s.failed then WireCut(s) else WireInOrder(s)
  }

  lemma CutForGood<H>(s: State<H>, a: Action<H>)
    requires WireCut(s) && s.failed && Enabled(s, a)
    ensures WireCut(Next(s, a))
  {
    hide AllWires, Wires;
    var s' := Next(s, a);
    var n, k :| 0 <= n < |s.taken| && 0 <= k < |Wires(s.taken[n])| && Framed(s.wire, s.taken[..n], s.taken[n], k);
    assert s'.taken[..n] == s.taken[..n] && s'.taken[n] == s.taken[n];
    assert Framed(s'.wire, s'.taken[..n], s'.taken[n], k);
  }

  lemma WriteKeepsOrder<H>(s: State<H>, ok: bool)
    requires WireInOrder(s) && Enabled(s, Write(ok))
    ensures if ok then WireInOrder(Next(s, Write(ok))) else WireCut(Next(s, Write(ok)))
  {
    hide AllWires;
    var unit, written := s.lock.unit, s.lock.written;
    if ok {
      assert Wires(unit)[..written] + [Wires(unit)[written]] == Wires(unit)[..written + 1];
    } else {
      var s' := Next(s, Write(ok));
      assert Framed(s'.wire, s'.taken[..|s.taken| - 1], s'.taken[|s.taken| - 1], written);
    }
  }

  lemma UnlockKeepsOrder<H>(s: State<H>)
    requires WireInOrder(s) && !s.failed && Enabled(s, Unlock)
    ensures WireInOrder(Next(s, Unlock))
  {
    hide AllWires, Wires;
    var n, unit := |s.taken| - 1, s.lock.unit;
    assert s.taken == s.taken[..n] + [unit];
    assert Wires(unit)[..s.lock.written] == Wires(unit);
    AllWiresAppend(s.taken[..n], unit);
  }

  lemma LockKeepsOrder<H>(s: State<H>, a: Action<H>)
    requires WireInOrder(s) && Enabled(s, a) && (a.LockWriter? || a.LockSender?)
    ensures WireInOrder(Next(s, a))
  {
    hide AllWires, Wires;
    assert Next(s, a).taken[..|s.taken|] == s.taken;
  }

  lemma AdjacentStep<H>(s: State<H>, a: Action<H>)
    requires Adjacent(s) && Enabled(s, a)
    ensures Adjacent(Next(s, a))
  {
    hide AllWires, Wires, WireCut;
    if s.failed {
      CutForGood(s, a);
    } else if a.LockWriter? || a.LockSender? {
      LockKeepsOrder(s, a);
    } else if a.Write? {
      WriteKeepsOrder(s, a.ok);
    } else if a.Unlock? {
      UnlockKeepsOrder(s);
    }
  }

  lemma {:induction false} AdjacentAlways<H>(states: seq<State<H>>, actions: seq<Action<H>>, k: nat)
    requires IsRunFromStart(states, actions) && k < |states|
    ensures Adjacent(states[k])
  {
    if k == 0 {
      assert AllWires<H>([]) == [];
    } else {
      AdjacentAlways(states, actions, k - 1);
      AdjacentStep(states[k - 1], actions[k - 1]);
    }
  }

  /** Position i of the wire starts a chunk that some call handed over, and what follows
      the header is that chunk's payload, unless the header is the last thing written. */
  ghost predicate HasPayload<H>(wire: seq<Wire<H>>, handed: seq<Unit<H>>, i: nat) {
    i < |wire| && wire[i].TextMsg? &&
    exists u :: u in handed && u.Chunk? && u.header == wire[i].text &&
      (i + 1 < |wire| ==> wire[i + 1] == BinaryMsg(u.payload))
  }

  ghost predicate HeaderAt<H>(wire: seq<Wire<H>>, isHeader: H -> bool, i: nat) {
    i < |wire| && wire[i].TextMsg? && isHeader(wire[i].text)
  }

  ghost predicate OnlyChunksAreHeaders<H>(us: seq<Unit<H>>, isHeader: H -> bool) {
    forall u :: u in us && u.Plain? ==> !isHeader(u.text)
  }

  lemma {:induction false} WholeUnitsKeepPayloads<H>(us: seq<Unit<H>>, isHeader: H -> bool, i: nat)
    requires OnlyChunksAreHeaders(us, isHeader) && HeaderAt(AllWires(us), isHeader, i)
    ensures HasPayload(AllWires(us), us, i) && i + 1 < |AllWires(us)|
    decreases |us|
  {
    var m := |us| - 1;
    var whole, u := us[..m], us[m];
    assert us == whole + [u];
    AllWiresAppend(whole, u);
    if i < |AllWires(whole)| {
      WholeUnitsKeepPayloads(whole, isHeader, i);
    } else {
      assert u in us;
      assert AllWires(us)[i] == Wires(u)[i - |AllWires(whole)|];
    }
  }

  lemma FramedKeepsPayloads<H>(wire: seq<Wire<H>>, taken: seq<Unit<H>>, n: nat, k: nat, isHeader: H -> bool, i: nat)
    requires n < |taken| && Framed(wire, taken[..n], taken[n], k)
    requires OnlyChunksAreHeaders(taken, isHeader) && HeaderAt(wire, isHeader, i)
    ensures HasPayload(wire, taken, i)
  {
    var whole := taken[..n];
    if i < |AllWires(whole)| {
      WholeUnitsKeepPayloads(whole, isHeader, i);
    } else {
      assert taken[n] in taken;
      assert wire[i] == Wires(taken[n])[i - |AllWires(whole)|];
    }
  }

  /**
   Whatever the interleaving of senders, writer, closing and failing writes: a chunk header
   on the wire is directly followed by the payload it was handed over with. The only header
   without one is the very last message, while its thread still holds the mutex or after
   the connection failed. `isHeader` tells chunk headers from other texts.
   */
  lemma HeadersKeepTheirPayloads<H>(states: seq<State<H>>, actions: seq<Action<H>>, k: nat, isHeader: H -> bool, i: nat)
    requires IsRunFromStart(states, actions) && k < |states|
    requires OnlyChunksAreHeaders(states[k].taken, isHeader) && HeaderAt(states[k].wire, isHeader, i)
    ensures HasPayload(states[k].wire, states[k].taken, i)
    ensures i + 1 == |states[k].wire| ==> states[k].lock.Held? || states[k].failed
  {
    var s := states[k];
    AdjacentAlways(states, actions, k);
    if s.failed {
      var n, j :| 0 <= n < |s.taken| && 0 <= j < |Wires(s.taken[n])| && Framed(s.wire, s.taken[..n], s.taken[n], j);
      FramedKeepsPayloads(s.wire, s.taken, n, j, isHeader, i);
    } else if s.lock.Held? {
      FramedKeepsPayloads(s.wire, s.taken, |s.taken| - 1, s.lock.written, isHeader, i);
    } else {
      WholeUnitsKeepPayloads(s.taken, isHeader, i);
    }
  }

  // ---- Order ----

  function Waiting<H>(s: State<H>): seq<Unit<H>> {
    (if s.hand.Some? then [s.hand.value] else []) + s.queue
  }

  /** Every unit handed over and not thrown away, in the order in which it is written. */
  function Pipeline<H>(s: State<H>): seq<Unit<H>> {
    s.taken + Waiting(s)
  }

  /** A sender that goes past the queue while units of the same kind wait in it. */
  ghost predicate Overtakes<H>(s: State<H>, a: Action<H>, kind: Unit<H> -> bool) {
    a.LockSender? && kind(a.unit) && Only(Waiting(s), kind) != []
  }

  ghost predicate EverOvertakes<H>(states: seq<State<H>>, actions: seq<Action<H>>, k: nat, kind: Unit<H> -> bool)
    requires IsRun(states, actions) && k <= |actions|
  {
    exists i :: 0 <= i < k && Overtakes(states[i], actions[i], kind)
  }

  /** What one step does to the units of a kind: the same unit goes to the end of the calls
      and either to the end of the pipeline or in front of everything that waits. */
  lemma PipelineStep<H>(s: State<H>, a: Action<H>, kind: Unit<H> -> bool)
    requires Enabled(s, a) && !Next(s, a).stopped
    ensures var s' := Next(s, a);
      if a.Enqueue? && kind(a.unit) then
        && Only(s'.calls, kind) == Only(s.calls, kind) + [a.unit]
        && Only(Pipeline(s'), kind) == Only(Pipeline(s), kind) + [a.unit]
      else if a.LockSender? && kind(a.unit) then
        && Only(s'.calls, kind) == Only(s.calls, kind) + [a.unit]
        && Only(Pipeline(s), kind) == Only(s.taken, kind) + Only(Waiting(s), kind)
        && Only(Pipeline(s'), kind) == Only(s.taken, kind) + [a.unit] + Only(Waiting(s), kind)
      else
        && Only(s'.calls, kind) == Only(s.calls, kind)
        && Only(Pipeline(s'), kind) == Only(Pipeline(s), kind)
  {
    hide Only;
    match a
    case Enqueue(u) =>
      assert Pipeline(Next(s, a)) == Pipeline(s) + [u];
      OnlyAppend(s.calls, u, kind);
      OnlyAppend(Pipeline(s), u, kind);
    case LockSender(u) =>
      OnlyAppend(s.calls, u, kind);
      OnlyAppend(s.taken, u, kind);
      OnlyConcat(s.taken, Waiting(s), kind);
      OnlyConcat(s.taken + [u], Waiting(s), kind);
      if !kind(u) {
        assert Only(s.taken + [u], kind) == Only(s.taken, kind);
      }
    case Dequeue => assert Pipeline(Next(s, a)) == Pipeline(s);
    case LockWriter => assert Pipeline(Next(s, a)) == Pipeline(s);
    case _ =>
  }

  /** A stopped writer was stopped by an earlier step. */
  lemma {:induction false} NotStoppedBefore<H>(states: seq<State<H>>, actions: seq<Action<H>>, k: nat, i: nat)
    requires IsRun(states, actions) && i <= k < |states| && !states[k].stopped
    ensures !states[i].stopped
    decreases k - i
  {
    if i < k { NotStoppedBefore(states, actions, k, i + 1); }
  }

  lemma {:induction false} PipelineIsHanded<H(!new)>(states: seq<State<H>>, actions: seq<Action<H>>, k: nat, kind: Unit<H> -> bool)
    requires IsRunFromStart(states, actions) && k < |states| && !states[k].stopped
    ensures forall u :: u in Only(Pipeline(states[k]), kind) ==> u in Only(states[k].calls, kind)
  {
    hide Only, Next, Enabled, Pipeline;
    if k == 0 {
      OrderAtStart(kind);
    } else {
      NotStoppedBefore(states, actions, k, k - 1);
      PipelineIsHanded(states, actions, k - 1, kind);
      PipelineStep(states[k - 1], actions[k - 1], kind);
    }
  }

  lemma {:induction false} InOrderWithoutOvertaking<H>(states: seq<State<H>>, actions: seq<Action<H>>, k: nat, kind: Unit<H> -> bool)
    requires IsRunFromStart(states, actions) && k < |states| && !states[k].stopped
    requires !EverOvertakes(states, actions, k, kind)
    ensures Only(Pipeline(states[k]), kind) == Only(states[k].calls, kind)
  {
    if k > 0 {
      NotStoppedBefore(states, actions, k, k - 1);
      InOrderWithoutOvertaking(states, actions, k - 1, kind);
      PipelineStep(states[k - 1], actions[k - 1], kind);
      assert !Overtakes(states[k - 1], actions[k - 1], kind);
    }
  }

  lemma AppendBoth<T>(a: seq<T>, b: seq<T>, x: T)
    ensures a + [x] == b + [x] <==> a == b
  {
    if a + [x] == b + [x] {
      assert a == (a + [x])[..|a|] && b == (b + [x])[..|b|];
    }
  }

  /** Putting x in front of `waiting` is appending it, if and only if nothing waits. */
  lemma InsertedInOrder<T>(taken: seq<T>, waiting: seq<T>, calls: seq<T>, x: T)
    requires Distinct(calls + [x])
    requires forall y :: y in taken + waiting ==> y in calls
    ensures taken + [x] + waiting == calls + [x] <==> taken + waiting == calls && waiting == []
  {
    if waiting == [] {
      assert taken + [x] + waiting == taken + [x] && taken + waiting == taken;
      AppendBoth(taken, calls, x);
    } else {
      var last := waiting[|waiting| - 1];
      assert last in taken + waiting;
      var i :| 0 <= i < |calls| && calls[i] == last;
      assert (calls + [x])[i] != (calls + [x])[|calls|];
      assert (taken + [x] + waiting)[|taken + [x] + waiting| - 1] == last;
      assert (calls + [x])[|calls + [x]| - 1] == x;
    }
  }

  lemma OrderStep<H(!new)>(s: State<H>, a: Action<H>, kind: Unit<H> -> bool)
    requires Enabled(s, a) && !Next(s, a).stopped && Distinct(Only(Next(s, a).calls, kind))
    requires forall u :: u in Only(Pipeline(s), kind) ==> u in Only(s.calls, kind)
    ensures Only(Pipeline(Next(s, a)), kind) == Only(Next(s, a).calls, kind)
      <==> Only(Pipeline(s), kind) == Only(s.calls, kind) && !Overtakes(s, a, kind)
    ensures Distinct(Only(s.calls, kind))
  {
    hide Only, Next, Enabled, Pipeline, Waiting;
    PipelineStep(s, a, kind);
    var calls, next := Only(s.calls, kind), Only(Next(s, a).calls, kind);
    assert forall i :: 0 <= i < |calls| ==> calls[i] == next[i];
    if a.LockSender? && kind(a.unit) {
      InsertedInOrder(Only(s.taken, kind), Only(Waiting(s), kind), calls, a.unit);
    } else if a.Enqueue? && kind(a.unit) {
      AppendBoth(Only(Pipeline(s), kind), calls, a.unit);
    }
  }

  lemma OrderAtStart<H>(kind: Unit<H> -> bool)
    ensures Only(Pipeline(Init()), kind) == Only(Init<H>().calls, kind)
  {
  }

  /**
   The units of one kind (one transfer, say) are written in the order in which they were
   handed over if and only if no sender ever went past the queue while a unit of that kind
   was waiting in it. One overtaking is never repaired by what follows.
   */
  lemma {:induction false} OrderKeptIffNoOvertaking<H(!new)>(states: seq<State<H>>, actions: seq<Action<H>>, k: nat, kind: Unit<H> -> bool)
    requires IsRunFromStart(states, actions) && k < |states| && !states[k].stopped
    requires Distinct(Only(states[k].calls, kind))
    ensures Only(Pipeline(states[k]), kind) == Only(states[k].calls, kind) <==> !EverOvertakes(states, actions, k, kind)
  {
    if k == 0 {
      OrderAtStart(kind);
    }
    hide Only, Next, Enabled, Pipeline, Waiting;
    if k > 0 {
      var s, a := states[k - 1], actions[k - 1];
      NotStoppedBefore(states, actions, k, k - 1);
      PipelineIsHanded(states, actions, k - 1, kind);
      OrderStep(s, a, kind);
      OrderKeptIffNoOvertaking(states, actions, k - 1, kind);
      assert EverOvertakes(states, actions, k, kind) <==> EverOvertakes(states, actions, k - 1, kind) || Overtakes(s, a, kind);
    }
  }

  predicate AnyUnit<H>(u: Unit<H>) { true }

  /** Once everything handed over has been written, the wire is exactly the calls in order,
      provided no sender went past waiting units. */
  lemma DrainedQueueIsFirstInFirstOut<H(!new)>(states: seq<State<H>>, actions: seq<Action<H>>, k: nat)
    requires IsRunFromStart(states, actions) && k < |states| && !EverOvertakes(states, actions, k, AnyUnit)
    requires var s := states[k]; s.lock.Free? && s.hand.None? && s.queue == [] && !s.failed && !s.stopped
    ensures states[k].wire == AllWires(states[k].calls)
  {
    var s := states[k];
    AdjacentAlways(states, actions, k);
    InOrderWithoutOvertaking(states, actions, k, AnyUnit);
    assert Pipeline(s) == s.taken;
    OnlyAll(s.taken, AnyUnit);
    OnlyAll(s.calls, AnyUnit);
  }

  // ---- Whole calls ----

  ghost predicate Leads<H(!new)>(s: State<H>, actions: seq<Action<H>>, t: State<H>) {
    exists states :: IsRun(states, actions) && states[0] == s && states[|actions|] == t
  }

  /** What is written once the mutex is taken: k messages, then a write fails unless that
      was all of them. */
  function WriteSteps<H>(u: Unit<H>, k: nat): seq<Action<H>>
    requires k <= |Wires(u)|
  {
    (if k == 0 then [] else if k == 1 then [Write(true)] else [Write(true), Write(true)]) +
    (if k < |Wires(u)| then [Write(false), Unlock] else [Unlock])
  }

  /** One call with the mutex held throughout. */
  function SendSteps<H>(u: Unit<H>, k: nat): seq<Action<H>>
    requires k <= |Wires(u)|
  {
    [LockSender(u)] + WriteSteps(u, k)
  }

  /** The writer's turn for one frame. */
  function DrainSteps<H>(u: Unit<H>, k: nat): seq<Action<H>>
    requires k <= |Wires(u)|
  {
    [Dequeue, LockWriter] + WriteSteps(u, k)
  }

  function Written<H>(s: State<H>, u: Unit<H>, k: nat): State<H>
    requires k <= |Wires(u)|
  {
    s.(taken := s.taken + [u], wire := s.wire + Wires(u)[..k], failed := s.failed || k < |Wires(u)|)
  }

  function AfterSend<H>(s: State<H>, u: Unit<H>, k: nat): State<H>
    requires k <= |Wires(u)|
  {
    Written(s, u, k).(calls := s.calls + [u])
  }

  function AfterDrain<H>(s: State<H>, k: nat): State<H>
    requires s.queue != [] && k <= |Wires(s.queue[0])|
  {
    Written(s, s.queue[0], k).(queue := s.queue[1..], stopped := s.stopped || k < |Wires(s.queue[0])|)
  }

  lemma OneMoreStep<H>(states: seq<State<H>>, actions: seq<Action<H>>, a: Action<H>)
    requires IsRun(states, actions) && Enabled(states[|actions|], a)
    ensures IsRun(states + [Next(states[|actions|], a)], actions + [a])
  {
    hide Next, Enabled;
  }

  /** From taking the mutex for u to giving it back, as a run. */
  lemma UnitRun<H(!new)>(s: State<H>, u: Unit<H>, k: nat) returns (states: seq<State<H>>)
    requires s.lock.Held? && s.lock.unit == u && s.lock.written == 0 && k <= |Wires(u)| && (s.failed ==> k == 0)
    ensures IsRun(states, WriteSteps(u, k)) && states[0] == s
    ensures states[|WriteSteps(u, k)|] == s.(lock := Free, wire := s.wire + Wires(u)[..k], failed := s.failed || k < |Wires(u)|,
              stopped := s.stopped || (s.lock.owner.WriterThread? && k < |Wires(u)|))
  {
    var t := WrittenPart(s, k);
    states := PartRun(s, u, k);
    hide IsRun;
    var actions := PartSteps<H>(k);
    if k < |Wires(u)| {
      OneMoreStep(states, actions, Write(false));
      states, actions, t := states + [Next(t, Write(false))], actions + [Write(false)], Next(t, Write(false));
    }
    OneMoreStep(states, actions, Unlock);
    states, actions := states + [Next(t, Unlock)], actions + [Unlock];
    assert actions == WriteSteps(u, k);
  }

  function PartSteps<H>(k: nat): seq<Action<H>> {
    if k == 0 then [] else if k == 1 then [Write(true)] else [Write(true), Write(true)]
  }

  function WrittenPart<H>(s: State<H>, k: nat): State<H>
    requires s.lock.Held? && k <= |Wires(s.lock.unit)|
  {
    s.(lock := s.lock.(written := k), wire := s.wire + Wires(s.lock.unit)[..k])
  }

  /** The first k messages of a unit are written. */
  lemma PartRun<H(!new)>(s: State<H>, u: Unit<H>, k: nat) returns (states: seq<State<H>>)
    requires s.lock.Held? && s.lock.unit == u && s.lock.written == 0 && k <= |Wires(u)| && (s.failed ==> k == 0)
    ensures |states| == k + 1 == |PartSteps<H>(k)| + 1 && IsRun(states, PartSteps(k)) && states[0] == s && states[k] == WrittenPart(s, k)
  {
    states := [s];
    assert s.wire + Wires(u)[..0] == s.wire;
    if k >= 1 {
      assert Wires(u)[..1] == [Wires(u)[0]];
      states := states + [Next(s, Write(true))];
    }
    if k == 2 {
      assert s.wire + [Wires(u)[0]] + [Wires(u)[1]] == s.wire + Wires(u)[..2];
      states := states + [Next(states[1], Write(true))];
    }
  }

  /** A whole call is a run of the machine. */
  lemma SendIsARun<H(!new)>(s: State<H>, u: Unit<H>, k: nat)
    requires s.lock.Free? && k <= |Wires(u)| && (s.failed ==> k == 0)
    ensures Leads(s, SendSteps(u, k), AfterSend(s, u, k))
  {
    var run := UnitRun(Next(s, LockSender(u)), u, k);
    assert IsRun([s] + run, SendSteps(u, k));
  }

  /** A whole turn of the writer is a run of the machine. */
  lemma DrainIsARun<H(!new)>(s: State<H>, k: nat)
    requires s.lock.Free? && s.hand.None? && s.started && s.queue != [] && !s.stopped
    requires k <= |Wires(s.queue[0])| && (s.failed ==> k == 0)
    ensures Leads(s, DrainSteps(s.queue[0], k), AfterDrain(s, k))
  {
    var held := Next(s, Dequeue);
    var run := UnitRun(Next(held, LockWriter), s.queue[0], k);
    assert IsRun([s, held] + run, DrainSteps(s.queue[0], k));
  }
}

/** The relay's end of one WebSocket connection. */
module RelayClients {
  import opened Basics
  import opened FrameCodec
  import Q = WriteQueue

  /** A connection that takes whole messages; once a write has failed, all later ones do. */
  class WebSocket {
    var wire: seq<Q.Wire<Bytes>>
    var failed: bool

    constructor ()
      ensures wire == [] && !failed
    {
      wire, failed := [], false;
    }

    method WriteMessage(m: Q.Wire<Bytes>) returns (ok: bool)
      modifies this
      ensures old(failed) ==> !ok
      ensures failed == !ok
      ensures wire == if ok then old(wire) + [m] else old(wire)
    {
      var netOk: bool := *;
      ok := netOk && !failed;
      if ok { wire := wire + [m]; }
      failed := !ok;
    }
  }

  function UnitOf(f: Frame): Q.Unit<Bytes> {
    match f
    case Text(data) => Q.Plain(data)
    case Binary(data) => Q.Raw(data)
    case Pair(header, payload) => Q.Chunk(header, payload)
  }

  function FrameOf(u: Q.Unit<Bytes>): Frame {
    match u
    case Plain(text) => Text(text)
    case Raw(data) => Binary(data)
    case Chunk(header, payload) => Pair(header, payload)
  }

  /** The unit that the writer will read from the frame of u: u itself, unless a header is too long
      for its length field. */
  function AsQueued(u: Q.Unit<Bytes>): Q.Unit<Bytes> {
    var f := Decode(Encode(FrameOf(u)));
    if f.Some? then UnitOf(f.value) else u
  }

  lemma AsQueuedIs(u: Q.Unit<Bytes>)
    ensures Decode(Encode(FrameOf(u))).Some?
    ensures AsQueued(u) == if u.Chunk? && |u.header| >= HEADER_LIMIT then
        Q.Chunk(u.header[..|u.header| % HEADER_LIMIT], u.header[|u.header| % HEADER_LIMIT..] + u.payload)
      else u
  {
    DecodeEncode(FrameOf(u));
    if u.Chunk? { DecodePair(u.header, u.payload); }
    hide Decode, Encode;
  }

  /** The units that a queue of byte frames stands for. */
  ghost predicate Decodable(queue: seq<Bytes>) {
    forall i :: 0 <= i < |queue| ==> Decode(queue[i]).Some?
  }

  ghost function Units(queue: seq<Bytes>): seq<Q.Unit<Bytes>>
    requires Decodable(queue)
  {
    seq(|queue|, i requires 0 <= i < |queue| => UnitOf(Decode(queue[i]).value))
  }

  /** Fill part of a byte buffer. */
  method CopyInto(dst: array<Byte>, start: nat, src: Bytes)
    requires start + |src| <= dst.Length
    modifies dst
    ensures dst[..] == old(dst[..start]) + src + old(dst[start + |src|..])
  {
    for i := 0 to |src|
      invariant dst[..start] == old(dst[..start])
      invariant dst[start..start + i] == src[..i]
      invariant dst[start + i..] == old(dst[start + i..])
    {
      dst[start + i] := src[i];
    }
    assert dst[..] == dst[..start] + dst[start..start + |src|] + dst[start + |src|..];
  }

  /** [tag][data] */
  method PackTagged(tag: Byte, data: Bytes) returns (frame: Bytes)
    requires tag == 0 || tag == 1
    ensures frame == Encode(if tag == 0 then Text(data) else Binary(data))
  {
    var buf := new Byte[|data| + 1](_ => 0);
    buf[0] := tag;
    CopyInto(buf, 1, data);
    frame := buf[..];
  }

  /** [2][4-byte header length][header][payload] */
  method PackPair(header: Bytes, payload: Bytes) returns (frame: Bytes)
    ensures frame == Encode(Pair(header, payload))
  {
    var n := |header|;
    var buf := new Byte[1 + 4 + n + |payload|](_ => 0);
    buf[0] := 2;
    buf[1] := (n / 0x1000000) % 256;
    buf[2] := (n / 0x10000) % 256;
    buf[3] := (n / 0x100) % 256;
    buf[4] := n % 256;
    assert buf[..5] == [2] + LengthBytes(n);
    CopyInto(buf, 5, header);
    assert buf[..5 + n] == [2] + LengthBytes(n) + header;
    CopyInto(buf, 5 + n, payload);
    frame := buf[..];
  }

  /**
   relayClient: the methods run with the locks of the source, so each is one atomic step.
   `open` says that writeQueue is not nil; `queue` is what the channel holds, which the
   writer goes on draining after the queue was closed.
   */
  class RelayClient {
    const conn: WebSocket
    var started: bool
    var open: bool
    var queue: seq<Bytes>
    var writeErr: bool
    ghost var calls: seq<Q.Unit<Bytes>>
    ghost var taken: seq<Q.Unit<Bytes>>

    ghost predicate Valid()
      reads this, conn
    {
      Decodable(queue) && (writeErr ==> conn.failed)
    }

    /** The state of the write-queue machine between two calls. */
    ghost function View(): Q.State<Bytes>
      requires Valid()
      reads this, conn
    {
      Q.State(started, open, writeErr, Units(queue), None, Q.Free, conn.failed, conn.wire, calls, taken)
    }

    constructor ()
      ensures Valid() && fresh(conn) && View() == Q.Init()
    {
      conn := new WebSocket();
      started, open, queue, writeErr := false, false, [], false;
      calls, taken := [], [];
    }

    method StartWriter()
      requires Valid()
      modifies this
      ensures Valid() && View() == Q.Next(old(View()), Q.Start)
    {
      if !started { started, open := true, true; }
    }

    method CloseWriter()
      requires Valid()
      modifies this
      ensures Valid() && View() == Q.Next(old(View()), Q.Close)
    {
      open := false;
    }

    /** Write the messages of a unit under the mutex, stopping at the first failure. */
    method WriteUnit(u: Q.Unit<Bytes>) returns (ok: bool, ghost k: nat)
      requires Valid()
      modifies this`taken, conn
      ensures Valid() && k <= |Q.Wires(u)| && (old(conn.failed) ==> k == 0)
      ensures View() == Q.Written(old(View()), u, k)
      ensures ok <==> k == |Q.Wires(u)|
    {
      taken := taken + [u];
      var wires := Q.Wires(u);
      k := 0;
      ok := conn.WriteMessage(wires[0]);
      if ok {
        k := 1;
        assert wires[..1] == [wires[0]];
        if u.Chunk? {
          ok := conn.WriteMessage(wires[1]);
          if ok {
            k := 2;
            assert wires[..2] == [wires[0]] + [wires[1]];
          }
        }
      }
    }

    /** A synchronous send, which takes the mutex whatever the queue holds. */
    method WriteNow(u: Q.Unit<Bytes>) returns (ok: bool, ghost k: nat)
      requires Valid()
      modifies this`taken, this`calls, conn
      ensures Valid() && k <= |Q.Wires(u)| && (ok <==> k == |Q.Wires(u)|)
      ensures View() == Q.AfterSend(old(View()), u, k)
      ensures Q.Leads(old(View()), Q.SendSteps(u, k), View())
    {
      ghost var before := View();
      ok, k := WriteUnit(u);
      calls := calls + [u];
      Q.SendIsARun(before, u, k);
    }

    /** The non-blocking channel send of an encoded unit. */
    method TryEnqueue(u: Q.Unit<Bytes>, frame: Bytes) returns (sent: bool)
      requires Valid() && frame == Encode(FrameOf(u))
      modifies this`queue, this`calls
      ensures Valid() && (sent <==> Q.Enabled(old(View()), Q.Enqueue(AsQueued(u))))
      ensures View() == if sent then Q.Next(old(View()), Q.Enqueue(AsQueued(u))) else old(View())
    {
      sent := open && |queue| < Q.CAPACITY;
      if sent {
        AsQueuedIs(u);
        queue, calls := queue + [frame], calls + [AsQueued(u)];
        assert Units(queue) == Units(old(queue)) + [AsQueued(u)];
      }
    }

    method Send(msg: Bytes) returns (ok: bool, ghost k: nat)
      requires Valid()
      modifies this`taken, this`calls, conn
      ensures Valid() && k <= 1 && (ok <==> k == 1)
      ensures View() == Q.AfterSend(old(View()), Q.Plain(msg), k)
      ensures Q.Leads(old(View()), Q.SendSteps(Q.Plain(msg), k), View())
    {
      ok, k := WriteNow(Q.Plain(msg));
    }

    /**
     A chunk is queued whole if the queue is open and has room, and otherwise written at
     once, header and payload under one lock.
     */
    method SendRawHeaderAndBinary(header: Bytes, payload: Bytes) returns (ok: bool, ghost k: nat)
      requires Valid()
      modifies this`queue, this`calls, this`taken, conn
      ensures Valid() && k <= 2
      ensures |header| < HEADER_LIMIT ==> AsQueued(Q.Chunk(header, payload)) == Q.Chunk(header, payload)
      ensures if Q.Enabled(old(View()), Q.Enqueue(AsQueued(Q.Chunk(header, payload)))) then
          View() == Q.Next(old(View()), Q.Enqueue(AsQueued(Q.Chunk(header, payload)))) && ok == !writeErr
        else
          && View() == Q.AfterSend(old(View()), Q.Chunk(header, payload), k) && (ok <==> k == 2)
          && Q.Leads(old(View()), Q.SendSteps(Q.Chunk(header, payload), k), View())
    {
      k := 0;
      AsQueuedIs(Q.Chunk(header, payload));
      hide AsQueued;
      if open {
        var frame := PackPair(header, payload);
        var sent := TryEnqueue(Q.Chunk(header, payload), frame);
        if sent { return !writeErr, 0; }
      }
      ok, k := WriteNow(Q.Chunk(header, payload));
    }

    method SendRawBytes(data: Bytes) returns (ok: bool, ghost k: nat)
      requires Valid()
      modifies this`queue, this`calls, this`taken, conn
      ensures Valid() && k <= 1
      ensures if Q.Enabled(old(View()), Q.Enqueue(Q.Raw(data))) then
          View() == Q.Next(old(View()), Q.Enqueue(Q.Raw(data))) && ok == !writeErr
        else
          && View() == Q.AfterSend(old(View()), Q.Raw(data), k) && (ok <==> k == 1)
          && Q.Leads(old(View()), Q.SendSteps(Q.Raw(data), k), View())
    {
      k := 0;
      if open {
        AsQueuedIs(Q.Raw(data));
        var frame := PackTagged(1, data);
        var sent := TryEnqueue(Q.Raw(data), frame);
        if sent { return !writeErr, 0; }
      }
      ok, k := WriteNow(Q.Raw(data));
    }

    method SendRawJSON(data: Bytes) returns (ok: bool, ghost k: nat)
      requires Valid()
      modifies this`queue, this`calls, this`taken, conn
      ensures Valid() && k <= 1
      ensures if Q.Enabled(old(View()), Q.Enqueue(Q.Plain(data))) then
          View() == Q.Next(old(View()), Q.Enqueue(Q.Plain(data))) && ok == !writeErr
        else
          && View() == Q.AfterSend(old(View()), Q.Plain(data), k) && (ok <==> k == 1)
          && Q.Leads(old(View()), Q.SendSteps(Q.Plain(data), k), View())
    {
      k := 0;
      if open {
        AsQueuedIs(Q.Plain(data));
        var frame := PackTagged(0, data);
        var sent := TryEnqueue(Q.Plain(data), frame);
        if sent { return !writeErr, 0; }
      }
      ok, k := WriteNow(Q.Plain(data));
    }

    /** One round of the writer: a stopped writer throws the frame away, otherwise the frame
        is decoded and its messages are written. */
    method DrainOne() returns (ghost k: nat)
      requires Valid() && started && queue != []
      modifies this`queue, this`taken, this`writeErr, conn
      ensures Valid() && queue == old(queue)[1..] && k <= |Q.Wires(old(View()).queue[0])|
      ensures View() == if old(writeErr) then Q.Next(old(View()), Q.Dequeue) else Q.AfterDrain(old(View()), k)
      ensures !old(writeErr) ==> Q.Leads(old(View()), Q.DrainSteps(old(View()).queue[0], k), View())
    {
      ghost var before := View();
      var frame := queue[0];
      queue := queue[1..];
      assert Units(queue) == before.queue[1..];
      k := 0;
      if !writeErr {
        var decoded := Decode(frame);
        var ok: bool;
        ok, k := WriteUnit(UnitOf(decoded.value));
        if !ok { writeErr := true; }
        Q.DrainIsARun(before, k);
      }
    }

    /** The writer goroutine left alone: it empties the queue. */
    method Drain()
      requires Valid() && started
      modifies this`queue, this`taken, this`writeErr, conn
      ensures Valid() && queue == []
      ensures !conn.failed && !old(writeErr) ==> taken == old(taken) + old(View().queue)
      ensures !conn.failed && !old(writeErr) ==> conn.wire == old(conn.wire) + Q.AllWires(old(View().queue))
    {
      ghost var before := View();
      ghost var i: nat := 0;
      assert before.queue[..0] == [] && Q.AllWires<Bytes>([]) == [];
      hide Q.AllWires;
      while queue != []
        invariant Valid() && i + |queue| == |before.queue|
        invariant Units(queue) == before.queue[i..]
        invariant writeErr ==> old(writeErr) || conn.failed
        invariant !conn.failed && !old(writeErr) ==> !writeErr && taken == before.taken + before.queue[..i]
        invariant !conn.failed && !old(writeErr) ==> conn.wire == before.wire + Q.AllWires(before.queue[..i])
        decreases |queue|
      {
        ghost var u := before.queue[i];
        assert u == Units(queue)[0];
        ghost var k := DrainOne();
        assert before.queue[..i + 1] == before.queue[..i] + [u];
        Q.AllWiresAppend(before.queue[..i], u);
        i := i + 1;
      }
      assert before.queue[..i] == before.queue;
    }
  }
}
