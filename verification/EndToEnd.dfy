/**
 A chunked transfer from its sender, through the hub and its target's write queue, into the
 daemon's file, and the daemon's answer back to the client.
 */
module EndToEnd {
  import opened Basics
  import opened Protocol
  import opened RelayModel
  import opened Reassembly
  import opened Forwarding
  import C = Chunking
  import D = DaemonModel
  import E = RequestEnds
  import Q = WriteQueue
  import W = QueueReading
  import R = Requests
  import S = Senders

  // ---- From the sender's frames to the hub's messages ----

  function AnnounceOf(f: S.Frame): Announce
    requires f.FileTransfer?
  {
    Announce(f.base.mode, f.base.src, f.base.dst, "", true, f.totalChunks, f.totalSize, f.chunkSizeBytes, f.parallelStreams)
  }

  /** What the relay makes of a connection's frames, while chunks have routes: it reads the
      frame after a chunk's header at once, whatever that is; other payloads are dropped. */
  function ReadAll(frames: seq<S.Frame>): seq<Incoming> {
    if frames == [] then []
    else
      match frames[0]
      case FileTransfer(base, _, _, _, _) =>
        [Incoming.FileTransfer(base.id, base.target, base.token, AnnounceOf(frames[0]))] + ReadAll(frames[1..])
      case ChunkHeader(id, index, final, compressed) =>
        if |frames| == 1 then []
        else
          [Incoming.FileChunk(id, index, final, compressed, if frames[1].Payload? then Binary(frames[1].data) else NotBinary)]
          + ReadAll(frames[2..])
      case Payload(_) => ReadAll(frames[1..])
  }

  /** No header waits for its payload. */
  predicate Complete(frames: seq<S.Frame>) {
    frames == [] ||
    if frames[0].ChunkHeader? then |frames| > 1 && Complete(frames[2..]) else Complete(frames[1..])
  }

  lemma {:induction false} ReadConcat(a: seq<S.Frame>, b: seq<S.Frame>)
    requires Complete(a)
    ensures ReadAll(a + b) == ReadAll(a) + ReadAll(b) && (Complete(b) ==> Complete(a + b))
    decreases |a|
  {
    if a == [] {
      assert a + b == b;
    } else {
      var n := if a[0].ChunkHeader? then 2 else 1;
      ReadConcat(a[n..], b);
      assert (a + b)[n..] == a[n..] + b;
    }
  }

  /** The upload that a sender's script amounts to. */
  predicate IsScriptOf(u: Upload, init: S.Frame) {
    && init.FileTransfer? && init.base.id == u.i && init.base.target == u.target && init.base.token == u.token
    && AnnounceOf(init) == u.plan.announce
  }

  function Messages(u: Upload, n: nat): seq<Incoming>
    requires n <= |u.plan.items| + 1
  {
    seq(n, k requires 0 <= k < n => MessageAt(u, k))
  }

  lemma ItemIsRead(u: Upload, n: nat)
    requires n < |u.plan.items| && S.OnWire(u.plan.z, u.plan.items[n].data) != []
    ensures var frames := S.Emit(u.i, u.plan.items[n], u.plan.z); Complete(frames) && ReadAll(frames) == [MessageAt(u, n + 1)]
  {
    var frames := S.Emit(u.i, u.plan.items[n], u.plan.z);
    assert frames[2..] == [];
    hide S.OnWire, S.TryCompress;
  }

  lemma {:induction false} FirstItemsAreRead(u: Upload, init: S.Frame, n: nat)
    requires IsScriptOf(u, init) && n <= |u.plan.items|
    requires forall i :: 0 <= i < n ==> S.OnWire(u.plan.z, u.plan.items[i].data) != []
    ensures var frames := [init] + S.EmitFirst(u.i, u.plan.items, n, u.plan.z);
      Complete(frames) && ReadAll(frames) == Messages(u, n + 1)
  {
    if n == 0 {
      assert [init] + [] == [init] && [init][1..] == [];
    } else {
      FirstItemsAreRead(u, init, n - 1);
      ItemIsRead(u, n - 1);
      var before, item := [init] + S.EmitFirst(u.i, u.plan.items, n - 1, u.plan.z), S.Emit(u.i, u.plan.items[n - 1], u.plan.z);
      ReadConcat(before, item);
      assert [init] + S.EmitFirst(u.i, u.plan.items, n, u.plan.z) == before + item;
      assert Messages(u, n + 1) == Messages(u, n) + [MessageAt(u, n)];
    }
  }

  /** The hub gets from a sender's script exactly the upload's messages, in order, as long as no
      chunk is empty. */
  lemma ScriptIsRead(u: Upload, init: S.Frame)
    requires IsScriptOf(u, init) && S.Lossless(u.plan.z) && forall i :: 0 <= i < |u.plan.items| ==> u.plan.items[i].data != []
    ensures ReadAll(S.Script(init, u.i, u.plan.items, u.plan.z)) == Messages(u, |u.plan.items| + 1)
  {
    forall i | 0 <= i < |u.plan.items| ensures S.OnWire(u.plan.z, u.plan.items[i].data) != [] {
      assert u.plan.items[i].data != [];
    }
    FirstItemsAreRead(u, init, |u.plan.items|);
  }

  /** Of an empty file only the announcement gets through: the hub goes on waiting for the
      payload that its one header lacks. */
  lemma EmptyFileStalls(u: Upload, init: S.Frame, chunkSize: nat)
    requires IsScriptOf(u, init) && chunkSize > 0 && u.plan.items == S.BufferedItems([], chunkSize)
    ensures ReadAll(S.Script(init, u.i, u.plan.items, u.plan.z)) == Messages(u, 1) && |u.plan.items| == 1
  {
    var items, z := u.plan.items, u.plan.z;
    assert items == [S.Item(0, true, [])];
    var header := S.ChunkHeader(u.i, 0, true, false);
    assert S.Emit(u.i, items[0], z) == [header];
    assert S.EmitFirst(u.i, items, 0, z) == [];
    assert S.EmitFirst(u.i, items, 1, z) == [header];
    var frames := S.Script(init, u.i, items, z);
    assert frames == [init, header] && frames[1..] == [header];
  }

  // ---- From the hub's log to the target's queue ----

  /** The units that were handed to connection c, in order. */
  function CallsTo(log: seq<Sent>, c: Conn): seq<Q.Unit<Msg>> {
    if log == [] then []
    else
      var n := |log| - 1;
      CallsTo(log[..n], c) + if log[n].to == c then [log[n].unit] else []
  }

  /** Frames of transfers are sent for the request whose id they carry; a header is never sent
      without its payload. */
  ghost predicate TagFits(s: Sent) {
    match s.unit
    case Plain(FileInit(id, _)) => s.why == ToDaemon(id)
    case Plain(LegacyChunk(id, _, _, _)) => s.why == ToDaemon(id)
    case Plain(ChunkHeader(_, _, _, _)) => false
    case Plain(_) => true
    case Raw(_) => false
    case Chunk(header, _) => header.ChunkHeader? && s.why == ToDaemon(header.id)
  }

  lemma RequestSendsFit(h: Hub, c: Conn, m: Incoming, env: Env)
    requires EnvFor(m, env) && OfRequests(h, m)
    ensures forall s :: s in HandleRequests(h, c, m, env).sends ==> TagFits(s)
  {
    hide FindTarget, Issue, DropRoute, Forget, RoutesOf;
  }

  lemma BatchSendsFit(h: Hub, c: Conn, m: Incoming, env: Env)
    requires EnvFor(m, env) && OfBatches(h, m)
    ensures forall s :: s in HandleBatches(h, c, m, env).sends ==> TagFits(s)
  {
    if m.ExecuteMulti? { FanOutSends(h.batches, h.dir, c, m.batch, env, |m.batch.targets|); }
    hide FanOutFirst, Ordered;
  }

  lemma PairSendsFit(h: Hub, c: Conn, m: Incoming, env: Env)
    requires EnvFor(m, env) && OfPairing(m)
    ensures forall s :: s in HandlePairing(h, c, m, env).sends ==> TagFits(s)
  {
  }

  lemma TunnelSendsFit(h: Hub, c: Conn, m: Incoming, env: Env)
    requires EnvFor(m, env) && OfTunnels(m)
    ensures forall s :: s in HandleTunnels(h, c, m, env).sends ==> TagFits(s)
  {
    hide FindTarget;
  }

  lemma RestSendsFit(h: Hub, c: Conn, m: Incoming, env: Env)
    requires c in h.dir.peers && EnvFor(m, env)
    ensures ClientOnly(m) ==> TagFits(Tell(c, AuthRequiredReply(m), Direct))
    ensures m.Register? ==> forall s :: s in HandleRegister(h.dir, c, m.name, m.token).sends ==> TagFits(s)
    ensures m.Disconnect? ==>
      forall s :: s in HandleDisconnect(c, m.target, FindTarget(h.dir, m.target, m.token), env.oks[0]) ==> TagFits(s)
    ensures forall text :: TagFits(Tell(c, Error(text), Direct))
  {
    hide FindTarget;
  }

  lemma HandleFits(h: Hub, c: Conn, m: Incoming, env: Env)
    requires c in h.dir.peers && EnvFor(m, env)
    ensures forall s :: s in Handle(h, c, m, env).sends ==> TagFits(s)
  {
    hide FindTarget, HandleRequests, HandleBatches, HandlePairing, HandleTunnels, HandleRegister,
         HandleDisconnect, AuthRequiredReply,
         OfRequests, OfBatches, OfPairing, OfTunnels, TagFits;
    if OfRequests(h, m) { RequestSendsFit(h, c, m, env); }
    if OfBatches(h, m) { BatchSendsFit(h, c, m, env); }
    if OfPairing(m) { PairSendsFit(h, c, m, env); }
    if OfTunnels(m) { TunnelSendsFit(h, c, m, env); }
    RestSendsFit(h, c, m, env);
  }

  lemma StepFits(h: Hub, e: Event)
    requires Enabled(h, e)
    ensures forall s :: s in Step(h, e).sends ==> TagFits(s)
  {
    if e.Arrive? {
      HandleFits(WithIds(h, e.env), e.conn, e.message, e.env);
      hide Handle, TagFits;
    } else {
      hide Filled, Ordered;
    }
  }

  lemma {:induction false} LogFits(hubs: seq<Hub>, events: seq<Event>, k: nat)
    requires IsRun(hubs, events) && k < |hubs|
    ensures forall s :: s in hubs[k].log ==> TagFits(s)
  {
    hide IsRun, Enabled, TagFits, Step;
    RunStarts(hubs, events);
    if k > 0 {
      RunSteps(hubs, events, k);
      LogFits(hubs, events, k - 1);
      StepFits(hubs[k - 1], events[k - 1]);
    }
  }

  function UnitsOf(sends: seq<Sent>): seq<Q.Unit<Msg>> {
    seq(|sends|, i requires 0 <= i < |sends| => sends[i].unit)
  }

  /** The units of an upload among those handed to its target are what the hub sent under its
      request. */
  lemma {:induction false} OwnCalls(log: seq<Sent>, target: Conn, p: Plan, kind: Q.Unit<Msg> -> bool)
    requires forall v :: kind(v) <==> Owns(p, v)
    requires forall s :: s in log ==> TagFits(s)
    requires forall s :: s in log && s.why == ToDaemon(p.id) ==> s.to == target && Owns(p, s.unit)
    ensures Only(CallsTo(log, target), kind) == UnitsOf(About(log, ToDaemon(p.id)))
  {
    if log == [] {
      hide TagFits, Owns;
    } else {
      var n := |log| - 1;
      var s := log[n];
      assert log == log[..n] + [s] && s in log;
      assert Owns(p, s.unit) ==> s.why == ToDaemon(p.id);
      assert forall t :: t in log[..n] ==> t in log;
      assert s.why == ToDaemon(p.id) <==> s.to == target && kind(s.unit);
      OwnCalls(log[..n], target, p, kind);
      hide TagFits, Owns, Only, CallsTo, About, UnitsOf;
      OwnCallsNext(log[..n], s, target, p.id, kind);
    }
  }

  lemma CallsToNext(log: seq<Sent>, s: Sent, target: Conn)
    ensures CallsTo(log + [s], target) == CallsTo(log, target) + if s.to == target then [s.unit] else []
  {
    assert (log + [s])[..|log|] == log;
  }

  lemma AboutNext(log: seq<Sent>, s: Sent, why: Why)
    ensures UnitsOf(About(log + [s], why)) == UnitsOf(About(log, why)) + if s.why == why then [s.unit] else []
  {
    assert (log + [s])[..|log|] == log;
    UnitsConcat(About(log, why), if s.why == why then [s] else []);
    assert UnitsOf([s]) == [s.unit] && UnitsOf([]) == [];
  }

  lemma OwnCallsNext(log: seq<Sent>, s: Sent, target: Conn, id: Id, kind: Q.Unit<Msg> -> bool)
    requires Only(CallsTo(log, target), kind) == UnitsOf(About(log, ToDaemon(id)))
    requires s.why == ToDaemon(id) <==> s.to == target && kind(s.unit)
    ensures Only(CallsTo(log + [s], target), kind) == UnitsOf(About(log + [s], ToDaemon(id)))
  {
    hide CallsTo, About, Only, UnitsOf;
    CallsToNext(log, s, target);
    AboutNext(log, s, ToDaemon(id));
    OnlyConcat(CallsTo(log, target), if s.to == target then [s.unit] else [], kind);
    OnlyFew(s.unit, kind);
  }

  lemma UnitsConcat(a: seq<Sent>, b: seq<Sent>)
    ensures UnitsOf(a + b) == UnitsOf(a) + UnitsOf(b)
  {
  }

  lemma OnlyFew<T>(x: T, p: T -> bool)
    ensures Only([x], p) == (if p(x) then [x] else []) && Only<T>([], p) == []
  {
    OnlyAppend([], x, p);
    assert [] + [x] == [x];
  }

  lemma {:induction false} InAbout(log: seq<Sent>, s: Sent)
    requires s in log
    ensures s in About(log, s.why)
  {
    var n := |log| - 1;
    if s != log[n] {
      assert log == log[..n] + [log[n]];
      InAbout(log[..n], s);
    }
  }

  lemma {:induction false} CallsWereSent(log: seq<Sent>, c: Conn, v: Q.Unit<Msg>) returns (s: Sent)
    requires v in CallsTo(log, c)
    ensures s in log && s.to == c && s.unit == v
  {
    var n := |log| - 1;
    if log[n].to == c && log[n].unit == v {
      s := log[n];
    } else {
      s := CallsWereSent(log[..n], c, v);
    }
  }

  lemma OwnUnitsAreOwned(out: seq<Sent>, target: Conn, p: Plan, m: nat)
    requires AreUnits(out, target, p, m)
    ensures forall s :: s in out ==> s.to == target && Owns(p, s.unit)
    ensures UnitsOf(out) == PlanUnits(p, m)
  {
  }

  function PlanUnits(p: Plan, m: nat): seq<Q.Unit<Msg>>
    requires m <= |p.items| + 1
  {
    seq(m, i requires 0 <= i < m => UnitAt(p, i))
  }

  // ---- Into the daemon ----

  lemma {:induction false} SeenIsCounted(p: Plan, units: seq<Q.Unit<Msg>>, n: nat, kind: Q.Unit<Msg> -> bool)
    requires n <= |units| && forall v :: kind(v) <==> Owns(p, v)
    ensures Seen(p, units, n) == |Only(units[..n], kind)| && Only(units[..n], kind) <= Only(units, kind)
    decreases |units| - n
  {
    SeenIs(p, units, n, kind);
    if n < |units| {
      SeenIsCounted(p, units, n + 1, kind);
      assert units[..n + 1] == units[..n] + [units[n]];
      OnlyAppend(units[..n], units[n], kind);
    } else {
      assert units[..n] == units;
    }
  }

  lemma {:induction false} SeenIs(p: Plan, units: seq<Q.Unit<Msg>>, n: nat, kind: Q.Unit<Msg> -> bool)
    requires n <= |units| && forall v :: kind(v) <==> Owns(p, v)
    ensures Seen(p, units, n) == |Only(units[..n], kind)|
  {
    if n > 0 {
      SeenIs(p, units, n - 1, kind);
      assert units[..n] == units[..n - 1] + [units[n - 1]];
      OnlyAppend(units[..n - 1], units[n - 1], kind);
    }
  }

  /** If a plan's units come in order, each is the one that is due. */
  lemma OwnedIsDue(p: Plan, units: seq<Q.Unit<Msg>>, m: nat, kind: Q.Unit<Msg> -> bool, j: nat)
    requires m <= |p.items| + 1 && (forall v :: kind(v) <==> Owns(p, v)) && Only(units, kind) == PlanUnits(p, m)
    requires j < |units| && Owns(p, units[j])
    ensures Seen(p, units, j) <= |p.items| && units[j] == UnitAt(p, Seen(p, units, j))
  {
    hide Owns, UnitAt, Only;
    SeenIsCounted(p, units, j, kind);
    SeenIsCounted(p, units, j + 1, kind);
    assert units[..j + 1] == units[..j] + [units[j]];
    OnlyAppend(units[..j], units[j], kind);
    var own, first := Only(units, kind), Only(units[..j], kind);
    assert (first + [units[j]])[|first|] == own[|first|];
  }

  lemma AllSeen(p: Plan, units: seq<Q.Unit<Msg>>, m: nat, kind: Q.Unit<Msg> -> bool)
    requires m <= |p.items| + 1 && (forall v :: kind(v) <==> Owns(p, v)) && Only(units, kind) == PlanUnits(p, m)
    ensures Seen(p, units, |units|) == m
  {
    hide Owns, UnitAt, Only;
    SeenIsCounted(p, units, |units|, kind);
    assert units[..|units|] == units;
  }

  /** Units of which those of the plan come in order, and the others are foreign to it. */
  lemma OwnedInTurn(p: Plan, units: seq<Q.Unit<Msg>>, m: nat, kind: Q.Unit<Msg> -> bool)
    requires m <= |p.items| + 1 && (forall v :: kind(v) <==> Owns(p, v)) && Only(units, kind) == PlanUnits(p, m)
    requires forall v :: v in units && !Owns(p, v) ==> Foreign(v, {p.id}, p.announce.dst)
    ensures InTurn(p, units) && Seen(p, units, |units|) == m
  {
    hide Owns, Foreign, UnitAt, Only;
    forall j | 0 <= j < |units|
      ensures if Owns(p, units[j]) then Seen(p, units, j) <= |p.items| && units[j] == UnitAt(p, Seen(p, units, j))
              else Foreign(units[j], {p.id}, p.announce.dst)
    {
      if Owns(p, units[j]) { OwnedIsDue(p, units, m, kind, j); }
    }
    AllSeen(p, units, m, kind);
  }

  // ---- The whole way ----

  /** An upload that was forwarded as far as its client has sent it. */
  ghost predicate Uploaded(hubs: seq<Hub>, events: seq<Event>, k: nat, u: Upload) {
    && IsRun(hubs, events) && k < |hubs| && UploadOk(u) && SendsInOrder(events, k, u) && MineCount(events, k, u) > 0
    && u.plan.id in hubs[k].requests.issued
  }

  function TargetOf(h: Hub, u: Upload): Conn
    requires u.plan.id in h.requests.issued
  {
    h.requests.issued[u.plan.id].target
  }

  /** What the target's queue was handed of the upload is the start of its plan. */
  lemma HandedInOrder(hubs: seq<Hub>, events: seq<Event>, k: nat, u: Upload, kind: Q.Unit<Msg> -> bool)
    requires Uploaded(hubs, events, k, u) && forall v :: kind(v) <==> Owns(u.plan, v)
    ensures var h, n := hubs[k], MineCount(events, k, u); var m := |About(h.log, ToDaemon(u.plan.id))|;
      && m <= n && m <= |u.plan.items| + 1
      && Only(CallsTo(h.log, TargetOf(h, u)), kind) == PlanUnits(u.plan, m)
      && (GoesWell(h, u) ==> m == n)
  {
    UploadIsForwardedInOrder(hubs, events, k, u);
    LogFits(hubs, events, k);
    hide IsRun, SendsInOrder, About, TagFits, UploadOk;
    var h, p := hubs[k], u.plan;
    var out, target := About(h.log, ToDaemon(p.id)), TargetOf(h, u);
    OwnUnitsAreOwned(out, target, p, |out|);
    hide AreUnits, Owns;
    forall s | s in h.log && s.why == ToDaemon(p.id) ensures s.to == target && Owns(p, s.unit) { InAbout(h.log, s); }
    OwnCalls(h.log, target, p, kind);
  }

  /** The request was forwarded, and so was every chunk that came. */
  ghost predicate GoesWell(h: Hub, u: Upload)
    requires u.plan.id in h.requests.issued
  {
    h.requests.issued[u.plan.id].forwarded && About(h.log, ChunkFailed(u.plan.id)) == []
  }

  /**
   What happens between the hub and one target's daemon: the hub's run up to its state k, the
   run of the target's queue up to its state j, and what the daemon has read of what was
   written. `before` is what it had read when it was at d, and `got` what it read after that.
   */
  datatype Way = Way(
    hubs: seq<Hub>,
    events: seq<Event>,
    k: nat,
    states: seq<Q.State<Msg>>,
    actions: seq<Q.Action<Msg>>,
    j: nat,
    before: seq<Q.Unit<Msg>>,
    got: seq<Q.Unit<Msg>>,
    d: D.Daemon)

  /** The queue was handed what the hub sent to the target, and the daemon has read from the
      queue's connection, on which writes may have failed. */
  ghost predicate Leads(w: Way, target: Conn) {
    && IsRun(w.hubs, w.events) && w.k < |w.hubs| == |w.events| + 1
    && Q.IsRunFromStart(w.states, w.actions) && w.j < |w.states| == |w.actions| + 1
    && w.states[w.j].calls == CallsTo(w.hubs[w.k].log, target) && W.Reads(w.states[w.j], w.before + w.got)
    && D.Wf(w.d)
  }

  /** What the hub has sent, and what the daemon is when it has read `got`. */
  ghost function Log(w: Way): seq<Sent>
    requires w.k < |w.hubs|
  {
    w.hubs[w.k].log
  }

  ghost function After(w: Way, gunzip: D.Gunzip): D.Daemon
    requires D.Wf(w.d)
  {
    ReceiveFirst(w.d, w.got, |w.got|, gunzip)
  }

  /** The daemon has read all that was handed over. */
  ghost predicate AllRead(w: Way)
    requires w.j < |w.states|
  {
    w.before + w.got == w.states[w.j].taken && Q.Waiting(w.states[w.j]) == [] && !w.states[w.j].stopped
  }

  /** A sender's call for a unit of the plan that reported an error: one in which a write failed,
      or one that queued its unit when the writer had stopped. */
  ghost predicate CallFailed(w: Way, p: Plan)
    requires w.j <= |w.actions| && |w.states| == |w.actions| + 1
  {
    exists v :: Owns(p, v) && (W.SendFailed(w.states, w.actions, w.j, v) || W.QueuedTooLate(w.states, w.actions, w.j, v))
  }

  ghost predicate NoneOf(p: Plan, units: seq<Q.Unit<Msg>>) {
    forall v :: v in units ==> !Owns(p, v)
  }

  ghost predicate IsKind(p: Plan, kind: Q.Unit<Msg> -> bool) {
    forall v :: kind(v) <==> Owns(p, v)
  }

  /** An upload on this way: none of it was read before d, and none of its units overtakes others
      of it. */
  ghost predicate GoesBy(w: Way, u: Upload, kind: Q.Unit<Msg> -> bool) {
    && Uploaded(w.hubs, w.events, w.k, u) && Leads(w, TargetOf(w.hubs[w.k], u))
    && IsKind(u.plan, kind) && !Q.EverOvertakes(w.states, w.actions, w.j, kind) && NoneOf(u.plan, w.before)
  }

  lemma {:induction false} OnlyNone<T>(s: seq<T>, p: T -> bool)
    requires forall x :: x in s ==> !p(x)
    ensures Only(s, p) == []
  {
    if s != [] { OnlyNone(s[..|s| - 1], p); }
  }

  lemma PrefixOfPlan(p: Plan, m: nat, own: seq<Q.Unit<Msg>>)
    requires m <= |p.items| + 1 && own <= PlanUnits(p, m)
    ensures own == PlanUnits(p, |own|)
  {
    hide UnitAt;
  }

  /** How many units were sent for a request. */
  ghost function SentFor(w: Way, r: Id): nat
    requires w.k < |w.hubs|
  {
    |About(Log(w), ToDaemon(r))|
  }

  /** What the daemon has read of an upload is the start of its plan, in order: all that was
      forwarded, if it has read everything, and not all, if a call for one of its units failed. */
  lemma OwnRead(w: Way, u: Upload, kind: Q.Unit<Msg> -> bool) returns (m: nat)
    requires GoesBy(w, u, kind)
    ensures m <= SentFor(w, u.plan.id) && m <= |u.plan.items| + 1 && Only(w.got, kind) == PlanUnits(u.plan, m)
    ensures AllRead(w) ==> m == SentFor(w, u.plan.id)
    ensures CallFailed(w, u.plan) ==> m < SentFor(w, u.plan.id)
  {
    var calls := CallsTo(Log(w), TargetOf(w.hubs[w.k], u));
    HandedInOrder(w.hubs, w.events, w.k, u, kind);
    W.ReadInOrder(w.states, w.actions, w.j, kind, w.before + w.got);
    hide Only, Uploaded, Owns, CallsTo, About, Q.EverOvertakes;
    OnlyConcat(w.before, w.got, kind);
    OnlyNone(w.before, kind);
    assert [] + Only(w.got, kind) == Only(w.got, kind);
    m := |Only(w.got, kind)|;
    PrefixOfPlan(u.plan, SentFor(w, u.plan.id), Only(w.got, kind));
    if AllRead(w) {
      Q.InOrderWithoutOvertaking(w.states, w.actions, w.j, kind);
      assert w.states[w.j].taken + [] == w.states[w.j].taken;
    }
    if CallFailed(w, u.plan) {
      var v :| Owns(u.plan, v) && (W.SendFailed(w.states, w.actions, w.j, v) || W.QueuedTooLate(w.states, w.actions, w.j, v));
      if W.SendFailed(w.states, w.actions, w.j, v) {
        W.FailedSendIsNotRead(w.states, w.actions, w.j, v, kind, w.before + w.got);
      } else {
        W.QueuedTooLateIsNotRead(w.states, w.actions, w.j, v, kind, w.before + w.got);
      }
    }
  }

  lemma ReadWasHanded(w: Way, target: Conn)
    requires Leads(w, target)
    ensures forall v :: v in w.got ==> v in CallsTo(Log(w), target)
  {
    W.PipelineWasHanded(w.states, w.actions, w.j, Q.AnyUnit);
    hide Only, Q.IsRunFromStart, Q.AllWires;
    forall v | v in w.got ensures v in w.states[w.j].calls {
      assert v in w.before + w.got && v in w.states[w.j].taken && v in Q.Pipeline(w.states[w.j]);
    }
  }

  /** No other transfer that is announced in these units has the destination. */
  ghost predicate Elsewhere(units: seq<Q.Unit<Msg>>, ids: set<Id>, dst: string) {
    forall v :: v in units && v.Plain? && v.text.FileInit? ==> v.text.id in ids || v.text.announce.dst != dst
  }

  lemma HandedIsForeign(hubs: seq<Hub>, events: seq<Event>, k: nat, u: Upload, v: Q.Unit<Msg>)
    requires Uploaded(hubs, events, k, u) && v in CallsTo(hubs[k].log, TargetOf(hubs[k], u)) && !Owns(u.plan, v)
    requires v.Plain? && v.text.FileInit? ==> v.text.id == u.plan.id || v.text.announce.dst != u.plan.announce.dst
    ensures Foreign(v, {u.plan.id}, u.plan.announce.dst)
  {
    UploadIsForwardedInOrder(hubs, events, k, u);
    LogFits(hubs, events, k);
    var h, p := hubs[k], u.plan;
    var out := About(h.log, ToDaemon(p.id));
    OwnUnitsAreOwned(out, TargetOf(h, u), p, |out|);
    var s := CallsWereSent(h.log, TargetOf(h, u), v);
    assert TagFits(s);
    hide Uploaded, AreUnits, About;
    if s.why == ToDaemon(p.id) { InAbout(h.log, s); }
  }

  /** The upload is alone at its destination: no live transfer has it when the daemon is at d, and
      none is announced in what it reads after that. */
  ghost predicate AloneAt(w: Way, u: Upload) {
    && Elsewhere(w.got, {u.plan.id}, u.plan.announce.dst)
    && WfPlan(u.plan) && Sequential(u.plan) && Progress(w.d, u.plan, 0)
  }

  /** The upload's units come to the daemon in turn. */
  lemma ReadInTurn(w: Way, u: Upload, kind: Q.Unit<Msg> -> bool)
    requires GoesBy(w, u, kind) && Elsewhere(w.got, {u.plan.id}, u.plan.announce.dst)
    ensures var m := Seen(u.plan, w.got, |w.got|);
      && InTurn(u.plan, w.got) && m <= SentFor(w, u.plan.id)
      && (AllRead(w) ==> m == SentFor(w, u.plan.id))
      && (CallFailed(w, u.plan) ==> m < SentFor(w, u.plan.id))
  {
    var m := OwnRead(w, u, kind);
    ReadWasHanded(w, TargetOf(w.hubs[w.k], u));
    hide Uploaded, Foreign, Owns, Only, Q.EverOvertakes, Leads, CallsTo, About, CallFailed;
    forall v | v in w.got && !Owns(u.plan, v) ensures Foreign(v, {u.plan.id}, u.plan.announce.dst) {
      HandedIsForeign(w.hubs, w.events, w.k, u, v);
    }
    OwnedInTurn(u.plan, w.got, m, kind);
  }

  /**
   A daemon that is at d and reads on, while no other transfer to the same destination is under
   way or announced: nothing is answered before all of the upload has come; then one answer was
   sent, good exactly if the destination can be created, and the destination holds exactly the
   bytes of the upload. The connection may fail at any time. `n` counts the upload's units that
   have come: all that the client has sent, if the daemon has read everything and no forward
   failed, and not all that were sent, if a call for one of them failed.
   */
  lemma UploadArrives(w: Way, u: Upload, kind: Q.Unit<Msg> -> bool) returns (n: nat)
    requires GoesBy(w, u, kind) && AloneAt(w, u)
    ensures var p := u.plan; var r, ok := After(w, p.z.gunzip), p.announce.dst !in w.d.store.readOnly;
      && AnswersFor(r.answers, p.id) == (if n <= |p.items| then [] else [D.Answer(p.id, ok)])
      && (n == |p.items| + 1 && ok ==> p.announce.dst in r.store.disk && r.store.disk[p.announce.dst] == Stored(p))
    ensures n <= |u.plan.items| + 1 && n <= SentFor(w, u.plan.id) <= MineCount(w.events, w.k, u)
    ensures AllRead(w) && GoesWell(w.hubs[w.k], u) ==> n == MineCount(w.events, w.k, u)
    ensures CallFailed(w, u.plan) ==> n < SentFor(w, u.plan.id) && !AllRead(w)
  {
    ReadInTurn(w, u, kind);
    HandedInOrder(w.hubs, w.events, w.k, u, kind);
    n := Seen(u.plan, w.got, |w.got|);
    hide Uploaded, Leads, Q.EverOvertakes, Owns, WfPlan, Progress, D.Wf, AnswersFor, InTurn, About, CallsTo, NoneOf,
         Elsewhere, AllRead, CallFailed, IsKind;
    TransferDelivered(w.d, u.plan, w.got, |w.got|);
  }

  // ---- The answer ----

  /** What has come in under the upload's request are the daemon's answers, so far. */
  ghost predicate HearsTheDaemon(heard: seq<Reply>, answers: seq<D.Answer>) {
    |heard| <= |answers| && forall i :: 0 <= i < |heard| ==> heard[i].FileTransferResult? && heard[i].body.ok == answers[i].ok
  }

  /** The daemon alone answers under the upload's request; and the hub learns that a unit of the
      upload could not be forwarded only if the client's connection broke behind a header, or a call
      for a unit reported an error. */
  ghost predicate Honest(w: Way, u: Upload)
    requires w.k < |w.hubs| == |w.events| + 1 && w.j < |w.states| == |w.actions| + 1 && u.plan.id in w.hubs[w.k].requests.issued
    requires D.Wf(w.d)
  {
    && R.EchoOnly(w.hubs, w.events, w.k, u.plan.id)
    && HearsTheDaemon(R.Heard(w.events, w.k, u.plan.id), AnswersFor(After(w, u.plan.z.gunzip).answers, u.plan.id))
    && (GoesWell(w.hubs[w.k], u) || CallFailed(w, u.plan) || Broke(w.events, w.k, u))
  }

  /** All that the client is told about a transfer: the answer, and the error for a chunk. */
  function ToldOf(log: seq<Sent>, r: Id): seq<Sent> {
    About(log, ToClient(r)) + About(log, ChunkFailed(r))
  }

  /** A result, good or not, to the upload's client under its own id. */
  ghost predicate Tells(s: Sent, u: Upload, ok: bool) {
    s.to == u.c && s.unit.Plain? && s.unit.text.Result? && s.unit.text.id == u.i && s.unit.text.body.ok == ok
  }

  lemma GoesByIs(w: Way, u: Upload, kind: Q.Unit<Msg> -> bool)
    requires GoesBy(w, u, kind)
    ensures Uploaded(w.hubs, w.events, w.k, u) && IsRun(w.hubs, w.events) && u.plan.id in w.hubs[w.k].requests.issued
    ensures w.k < |w.hubs| == |w.events| + 1 && w.j < |w.states| == |w.actions| + 1 && D.Wf(w.d)
  {
  }

  /** What the client is told, from what the daemon has answered. */
  lemma ToldIs(w: Way, u: Upload, kind: Q.Unit<Msg> -> bool, answers: seq<D.Answer>, ok: bool)
    requires GoesBy(w, u, kind) && Honest(w, u) && answers == AnswersFor(After(w, u.plan.z.gunzip).answers, u.plan.id)
    requires answers == [] || answers == [D.Answer(u.plan.id, ok)]
    requires !GoesWell(w.hubs[w.k], u) ==> answers == []
    ensures var told := ToldOf(Log(w), u.plan.id);
      && |told| <= 1
      && (told != [] ==> Tells(told[0], u, true) || Tells(told[0], u, false))
      && (told != [] && Tells(told[0], u, true) ==> answers != [] && ok)
      && (told != [] && Tells(told[0], u, false) ==> !GoesWell(w.hubs[w.k], u) || (answers != [] && !ok))
      && (R.Heard(w.events, w.k, u.plan.id) != [] && u.plan.id !in w.hubs[w.k].requests.lost && GoesWell(w.hubs[w.k], u) ==> told != [])
  {
    hide IsRun, GoesBy, R.EchoOnly, R.Heard, R.Tracks, AnswersFor, About, CallFailed, After, HearsTheDaemon, R.CutsOff, Uploaded;
    GoesByIs(w, u, kind);
    var r, h := u.plan.id, w.hubs[w.k];
    RequestIs(w.hubs, w.events, w.k, u);
    Told(h.requests, About(h.log, ToClient(r)), r, R.Heard(w.events, w.k, r), answers, ok);
    var i := E.EachRequestEndsOnce(w.hubs, w.events, w.k, r);
  }

  /**
   What the client is told, by the answer or by an error, whatever else goes on and wherever a
   write fails or its own connection breaks, is at most one thing. It is told that the upload is
   good only when the destination holds exactly its bytes, and that it is not only when a chunk
   could not be forwarded or read, or the destination cannot be created.
   */
  lemma ClientIsToldTheTruth(w: Way, u: Upload, kind: Q.Unit<Msg> -> bool)
    requires GoesBy(w, u, kind) && AloneAt(w, u) && Honest(w, u)
    ensures var p, told := u.plan, ToldOf(Log(w), u.plan.id); var r := After(w, p.z.gunzip);
      && |told| <= 1
      && (told != [] ==> Tells(told[0], u, true) || Tells(told[0], u, false))
      && (told != [] && Tells(told[0], u, true) ==> p.announce.dst in r.store.disk && r.store.disk[p.announce.dst] == Stored(p))
      && (told != [] && Tells(told[0], u, false) ==> !GoesWell(w.hubs[w.k], u) || p.announce.dst in w.d.store.readOnly)
  {
    hide GoesBy, AloneAt, ToldOf, Tells, After, Stored, AnswersFor, R.EchoOnly, HearsTheDaemon, GoesWell, Broke;
    GoesByIs(w, u, kind);
    var n := UploadArrives(w, u, kind);
    HandedAtMost(w, u, kind);
    ToldIs(w, u, kind, AnswersFor(After(w, u.plan.z.gunzip).answers, u.plan.id), u.plan.announce.dst !in w.d.store.readOnly);
  }

  lemma HandedAtMost(w: Way, u: Upload, kind: Q.Unit<Msg> -> bool)
    requires GoesBy(w, u, kind)
    ensures SentFor(w, u.plan.id) <= |u.plan.items| + 1
    ensures Broke(w.events, w.k, u) ==> SentFor(w, u.plan.id) <= |u.plan.items|
  {
    HandedInOrder(w.hubs, w.events, w.k, u, kind);
    BrokenStops(w.hubs, w.events, w.k, u);
    MineAtMost(w.events, w.k, u);
  }

  lemma {:induction false} MineAtMost(events: seq<Event>, k: nat, u: Upload)
    requires k <= |events| && SendsInOrder(events, k, u)
    ensures MineCount(events, k, u) <= |u.plan.items| + 1
  {
    hide MessageAt, BrokenAt, IsMine;
    if k > 0 { MineAtMost(events, k - 1, u); }
  }

  /**
   The whole round trip: if the client has sent all of an upload, the daemon has read all that
   was handed to its queue, and its answer has come back, then the client has been told exactly
   one thing, unless its request was lost with its connection: that the upload is good, if the
   destination can be created.
   */
  lemma CompleteUploadIsReported(w: Way, u: Upload, kind: Q.Unit<Msg> -> bool)
    requires GoesBy(w, u, kind) && AloneAt(w, u) && Honest(w, u) && AllRead(w) && u.plan.id !in w.hubs[w.k].requests.lost
    requires MineCount(w.events, w.k, u) == |u.plan.items| + 1 && !Broke(w.events, w.k, u)
    requires |R.Heard(w.events, w.k, u.plan.id)| == |AnswersFor(After(w, u.plan.z.gunzip).answers, u.plan.id)|
    ensures var p, told := u.plan, ToldOf(Log(w), u.plan.id); var r, ok := After(w, p.z.gunzip), p.announce.dst !in w.d.store.readOnly;
      && |told| == 1 && Tells(told[0], u, ok)
      && (ok ==> p.announce.dst in r.store.disk && r.store.disk[p.announce.dst] == Stored(p))
  {
    hide GoesBy, AloneAt, ToldOf, Tells, After, Stored, AnswersFor, R.EchoOnly, HearsTheDaemon, GoesWell, MineCount, R.Heard, AllRead, Broke;
    GoesByIs(w, u, kind);
    var n := UploadArrives(w, u, kind);
    ToldIs(w, u, kind, AnswersFor(After(w, u.plan.z.gunzip).answers, u.plan.id), u.plan.announce.dst !in w.d.store.readOnly);
  }

  lemma RequestIs(hubs: seq<Hub>, events: seq<Event>, k: nat, u: Upload)
    requires Uploaded(hubs, events, k, u) && R.EchoOnly(hubs, events, k, u.plan.id)
    ensures var q := hubs[k].requests;
      && q.issued[u.plan.id].request == Request(u.i, u.c)
      && R.Tracks(q, About(hubs[k].log, ToClient(u.plan.id)), u.plan.id, R.Heard(events, k, u.plan.id))
  {
    UploadIsForwardedInOrder(hubs, events, k, u);
    R.TracksAlways(hubs, events, k, u.plan.id);
    hide R.Tracks, IsRun, AreUnits, About;
  }

  /** A request whose one answer, if it has come, is the daemon's. */
  lemma Told(q: RequestTable, out: seq<Sent>, r: Id, heard: seq<Reply>, answers: seq<D.Answer>, ok: bool)
    requires r in q.issued && R.Tracks(q, out, r, heard) && HearsTheDaemon(heard, answers) && (answers == [] || answers == [D.Answer(r, ok)])
    ensures |out| <= 1
    ensures out != [] ==> out[0].to == q.issued[r].request.client && out[0].unit.Plain? && out[0].unit.text.Result?
    ensures out != [] ==> out[0].unit.text.id == q.issued[r].request.serverId
    ensures out != [] && out[0].unit.text.body.ok ==> answers != [] && ok
    ensures out != [] && q.issued[r].forwarded ==> answers != [] && out[0].unit.text.body.ok == ok
    ensures q.issued[r].forwarded && heard != [] && r !in q.lost ==> out != []
  {
    var up := R.UpToEnd(heard);
    hide R.UpToEnd;
    if q.issued[r].forwarded && out != [] {
      assert up == heard && up[..|out|][0] == heard[0];
      assert R.Tells(out[0], q.issued[r].request, heard[0]);
    }
  }

  // ---- A file ----

  /** A file that is not empty, as a sender announces and sends it. */
  function FileUpload(c: Conn, base: S.Base, data: Bytes, chunkSize: nat, z: S.Gzip, req: Id): Upload
    requires chunkSize > 0
  {
    Upload(c, base.id, base.target, base.token,
           Plan(req, AnnounceOf(S.InitFrame(base, |data|, chunkSize)), S.BufferedItems(data, chunkSize), z))
  }

  /** Its frames are read as an upload of the kind that is delivered, and what is delivered
      are the bytes of the file. */
  lemma FileIsAnUpload(c: Conn, base: S.Base, data: Bytes, chunkSize: nat, z: S.Gzip, req: Id)
    requires chunkSize > 0 && data != [] && S.Lossless(z) && req != "" && (base.mode == "scp" || base.mode == "rsync")
    ensures var u := FileUpload(c, base, data, chunkSize, z, req);
      && UploadOk(u) && WfPlan(u.plan) && Sequential(u.plan)
      && Stored(u.plan) == (if base.mode == "scp" then D.File(data) else D.Tree(data))
      && |u.plan.items| == C.ChunkCount(|data|, chunkSize)
      && ReadAll(S.Script(S.InitFrame(base, |data|, chunkSize), base.id, u.plan.items, z)) == Messages(u, |u.plan.items| + 1)
  {
    var u := FileUpload(c, base, data, chunkSize, z, req);
    S.BufferedItemsAreThePayload(data, chunkSize);
    hide S.BufferedItems, S.Joined, C.ChunkCount;
    ScriptIsRead(u, S.InitFrame(base, |data|, chunkSize));
  }
}
