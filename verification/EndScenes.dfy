/** Short runs of the hub with a target's queue and daemon behind it, put together step by step. */
module EndScenes {
  import opened Basics
  import opened Protocol
  import opened RelayModel
  import opened Reassembly
  import opened Forwarding
  import opened EndToEnd
  import D = DaemonModel
  import Q = WriteQueue
  import W = QueueReading
  import R = Requests
  import S = Scenes
  import Z = Senders

  // ---- The hub ----

  /** Connection 1 holds the name "t" under the token "k". */
  ghost predicate TargetIsUp(h: Hub) {
    && "t" in h.dir.clients && h.dir.clients["t"] == 1 && 1 in h.dir.peers && h.dir.peers[1].token == "k"
    && h.batches == Init({}).batches
  }

  /** A transfer to "t" is announced and forwarded. */
  lemma Announces(s: S.Scene, c: Conn, i: Id, a: Announce, req: Id) returns (s': S.Scene)
    requires S.Ok(s) && S.CanSend(S.Now(s), c, req) && TargetIsUp(S.Now(s)) && a.chunked && req !in S.Now(s).requests.issued
    ensures S.Ok(s') && s'.events == s.events + [Arrive(c, Incoming.FileTransfer(i, "t", "k", a), S.Ids(req))]
    ensures s'.hubs == s.hubs + [S.Now(s')]
    ensures var h, h' := S.Now(s), S.Now(s');
      && h'.dir == h.dir && h'.batches == h.batches && h'.used == h.used + {req}
      && h'.requests.issued == h.requests.issued[req := Issued(Request(i, c), 1, Some(a), true)]
      && h'.requests.pending == h.requests.pending[req := Request(i, c)] && h'.requests.lost == h.requests.lost
      && h'.requests.routes == h.requests.routes[c := RoutesOf(h.requests, c)[i := Route(1, req)]]
      && h'.log == h.log + [Tell(1, FileInit(req, a), ToDaemon(req))]
  {
    hide S.Ok;
    s' := S.Requested(s, c, Incoming.FileTransfer(i, "t", "k", a), S.Ids(req));
  }

  /** A chunk is forwarded. */
  lemma SendsChunk(s: S.Scene, c: Conn, i: Id, index: int, final: bool, data: Bytes, req: Id, id: Id) returns (s': S.Scene)
    requires S.Ok(s) && S.CanSend(S.Now(s), c, id) && TargetIsUp(S.Now(s))
    requires i in RoutesOf(S.Now(s).requests, c) && RoutesOf(S.Now(s).requests, c)[i] == Route(1, req)
    ensures S.Ok(s') && s'.events == s.events + [Arrive(c, FileChunk(i, index, final, false, Binary(data)), S.Ids(id))]
    ensures s'.hubs == s.hubs + [S.Now(s')]
    ensures var h, h' := S.Now(s), S.Now(s');
      && h'.dir == h.dir && h'.batches == h.batches && h'.used == h.used + {id}
      && h'.requests.issued == h.requests.issued && h'.requests.pending == h.requests.pending && h'.requests.lost == h.requests.lost
      && h'.requests.routes == (if final then h.requests.routes[c := RoutesOf(h.requests, c) - {i}] else h.requests.routes)
      && h'.log == h.log + [Sent(1, Q.Chunk(ChunkHeader(req, index, final, false), data), ToDaemon(req))]
  {
    hide S.Ok;
    s' := S.Requested(s, c, FileChunk(i, index, final, false, Binary(data)), S.Ids(id));
  }

  /** The target answers. */
  lemma Answers(s: S.Scene, req: Id, ok: bool, id: Id) returns (s': S.Scene)
    requires S.Ok(s) && S.CanSend(S.Now(s), 1, id) && TargetIsUp(S.Now(s)) && req in S.Now(s).requests.pending
    ensures S.Ok(s') && s'.events == s.events + [Arrive(1, Incoming.FileTransferResult(req, Body(ok, "")), S.Ids(id))]
    ensures s'.hubs == s.hubs + [S.Now(s')]
    ensures var h, h' := S.Now(s), S.Now(s');
      && h'.dir == h.dir && h'.batches == h.batches && h'.used == h.used + {id}
      && h'.requests == h.requests.(pending := h.requests.pending - {req})
      && var q := h.requests.pending[req]; h'.log == h.log + [Tell(q.client, Msg.Result(q.serverId, Body(ok, "")), ToClient(req))]
  {
    hide S.Ok;
    s' := S.Requested(s, 1, Incoming.FileTransferResult(req, Body(ok, "")), S.Ids(id));
  }

  // ---- The queue ----

  /** A run of the queue through which everything is written at once. */
  ghost predicate AtOnce(states: seq<Q.State<Msg>>, actions: seq<Q.Action<Msg>>) {
    && Q.IsRunFromStart(states, actions) && |states| == |actions| + 1
    && forall i :: 0 <= i < |states| ==> Q.Waiting(states[i]) == [] && !states[i].failed && !states[i].stopped
  }

  /** Nothing is under way, and these units have been handed over and written. */
  ghost predicate Settled(s: Q.State<Msg>, units: seq<Q.Unit<Msg>>) {
    s.lock.Free? && Q.Waiting(s) == [] && !s.failed && !s.stopped && s.calls == units && s.taken == units
  }

  lemma QueueGoesOn(states: seq<Q.State<Msg>>, actions: seq<Q.Action<Msg>>, a: Q.Action<Msg>)
    requires AtOnce(states, actions) && Q.Enabled(states[|actions|], a) && (a.LockSender? || a == Q.Write(true) || a == Q.Unlock)
    requires a == Q.Unlock ==> states[|actions|].lock.written == |Q.Wires(states[|actions|].lock.unit)|
    ensures AtOnce(states + [Q.Next(states[|actions|], a)], actions + [a])
  {
    hide Q.Next, Q.Enabled, Q.Waiting, Q.IsRunFromStart, Q.Wires;
    QueueRunGoesOn(states, actions, a);
    StaysFine(states[|actions|], a);
  }

  lemma QueueRunGoesOn(states: seq<Q.State<Msg>>, actions: seq<Q.Action<Msg>>, a: Q.Action<Msg>)
    requires Q.IsRunFromStart(states, actions) && |states| == |actions| + 1 && Q.Enabled(states[|actions|], a)
    ensures Q.IsRunFromStart(states + [Q.Next(states[|actions|], a)], actions + [a])
  {
    hide Q.Next, Q.Enabled, Q.Init;
  }

  lemma StaysFine(s: Q.State<Msg>, a: Q.Action<Msg>)
    requires Q.Waiting(s) == [] && !s.failed && !s.stopped && Q.Enabled(s, a) && (a.LockSender? || a == Q.Write(true) || a == Q.Unlock)
    requires a == Q.Unlock ==> s.lock.written == |Q.Wires(s.lock.unit)|
    ensures var t := Q.Next(s, a); Q.Waiting(t) == [] && !t.failed && !t.stopped
  {
  }

  /** One whole unit is written. */
  lemma QueueSends(states: seq<Q.State<Msg>>, actions: seq<Q.Action<Msg>>, u: Q.Unit<Msg>)
    returns (states': seq<Q.State<Msg>>, actions': seq<Q.Action<Msg>>)
    requires AtOnce(states, actions) && states[|actions|].lock.Free?
    ensures AtOnce(states', actions')
    ensures var s, t := states[|actions|], states'[|actions'|];
      t.lock.Free? && t.calls == s.calls + [u] && t.taken == s.taken + [u] && t.started == s.started
  {
    hide AtOnce;
    Fine(states, actions);
    states', actions' := states, actions;
    QueueGoesOn(states', actions', Q.LockSender(u));
    states', actions' := states' + [Q.Next(states'[|actions'|], Q.LockSender(u))], actions' + [Q.LockSender(u)];
    Fine(states', actions');
    QueueGoesOn(states', actions', Q.Write(true));
    states', actions' := states' + [Q.Next(states'[|actions'|], Q.Write(true))], actions' + [Q.Write(true)];
    Fine(states', actions');
    if u.Chunk? {
      QueueGoesOn(states', actions', Q.Write(true));
      states', actions' := states' + [Q.Next(states'[|actions'|], Q.Write(true))], actions' + [Q.Write(true)];
      Fine(states', actions');
    }
    QueueGoesOn(states', actions', Q.Unlock);
    states', actions' := states' + [Q.Next(states'[|actions'|], Q.Unlock)], actions' + [Q.Unlock];
  }

  lemma Fine(states: seq<Q.State<Msg>>, actions: seq<Q.Action<Msg>>)
    requires AtOnce(states, actions)
    ensures |states| == |actions| + 1 && !states[|actions|].failed && !states[|actions|].stopped && Q.Waiting(states[|actions|]) == []
  {
  }

  /** Any units can be written at once. */
  lemma {:induction false} WrittenAtOnce(units: seq<Q.Unit<Msg>>) returns (states: seq<Q.State<Msg>>, actions: seq<Q.Action<Msg>>)
    ensures AtOnce(states, actions) && Settled(states[|actions|], units) && !states[|actions|].started
  {
    if units == [] {
      states, actions := [Q.Init()], [];
    } else {
      var n := |units| - 1;
      states, actions := WrittenAtOnce(units[..n]);
      assert units == units[..n] + [units[n]];
      hide AtOnce;
      states, actions := QueueSends(states, actions, units[n]);
      Fine(states, actions);
    }
  }

  lemma NothingOvertaken(states: seq<Q.State<Msg>>, actions: seq<Q.Action<Msg>>, kind: Q.Unit<Msg> -> bool)
    requires AtOnce(states, actions)
    ensures !Q.EverOvertakes(states, actions, |actions|, kind)
  {
    assert Only<Q.Unit<Msg>>([], kind) == [];
    hide Only;
  }

  /** If all of the first n were sent to c, and the rest were not, these are the calls. */
  lemma {:induction false} CallsAre(log: seq<Sent>, c: Conn, n: nat)
    requires n <= |log| && (forall i :: 0 <= i < n ==> log[i].to == c) && forall i :: n <= i < |log| ==> log[i].to != c
    ensures CallsTo(log, c) == seq(n, i requires 0 <= i < n => log[i].unit)
  {
    if log != [] { CallsAre(log[..|log| - 1], c, if n == |log| then n - 1 else n); }
  }

  /** The hub's run, everything written at once, and read by a daemon that starts at d. */
  lemma AtOnceWay(s: S.Scene, target: Conn, d: D.Daemon) returns (w: Way)
    requires S.Ok(s) && D.Wf(d)
    ensures w.hubs == s.hubs && w.events == s.events && w.k == |s.events| && w.before == [] && w.d == d
    ensures w.got == CallsTo(S.Now(s).log, target)
    ensures Leads(w, target) && AllRead(w)
    ensures AtOnce(w.states, w.actions) && w.j == |w.actions|
  {
    var calls := CallsTo(S.Now(s).log, target);
    var states, actions := WrittenAtOnce(calls);
    w := Way(s.hubs, s.events, |s.events|, states, actions, |actions|, [], calls, d);
    Q.AdjacentAlways(states, actions, |actions|);
    assert w.before + w.got == calls;
    hide CallsTo, Q.AllWires, D.Wf;
  }

  // ---- Common to the runs ----

  /** Nothing is worth compressing. */
  function NoSqueeze(data: Bytes): Option<Bytes> { None }

  function NoGzip(): Z.Gzip { Z.Gzip(NoSqueeze, NoSqueeze) }

  function EmptyDaemon(): D.Daemon { D.Daemon(map[], D.Empty, D.Store(map[], [], {}), []) }

  lemma {:induction false} NoneHeard(events: seq<Event>, k: nat, r: Id)
    requires k <= |events| && forall i :: 0 <= i < k ==> !R.UnderId(events[i], r)
    ensures R.Heard(events, k, r) == []
  {
    if k > 0 { NoneHeard(events, k - 1, r); }
  }

  lemma LeadsAre(w: Way, target: Conn)
    requires Leads(w, target)
    ensures IsRun(w.hubs, w.events)
  {
  }
}
