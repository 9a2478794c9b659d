/**
 The relay as its goroutines meet it, one handler at a time: whatever they meet, what the server's
 methods do is a run of the hub.
 */
module Serving {
  import opened Basics
  import opened Protocol
  import opened RelayModel
  import opened RelayServers
  import N = Names
  import R = Requests

  /** What a goroutine meets: a new connection, a message, the end of a fan-out's loop, a timer, the
      lock after a peer was rejected, the end of a connection. */
  datatype Call =
    | Accepted(conn: Conn, authenticated: bool)
    | Read(conn: Conn, message: Incoming, env: Env)
    | Counted(multi: Id)
    | TimedOut(multi: Id)
    | Rejected(holder: Id)
    | Closed(conn: Conn)

  predicate IsEvent(call: Call, e: Event) {
    match call
    case Accepted(c, auth) => e == Connect(c, auth)
    case Read(c, m, env) => e == Arrive(c, m, env)
    case Counted(m) => e == Arm(m)
    case TimedOut(m) => e == Fire(m)
    case Rejected(holder) => e == PutBack(holder)
    case Closed(c) => e.Down? && e.conn == c
  }

  // ---- What the handlers rely on ----

  /** Names are held, and chunks routed, for connections that were made; ids stand for one thing. */
  ghost predicate Sound(h: Hub) {
    && (forall n :: n in h.dir.clients ==> h.dir.clients[n] in h.dir.peers)
    && h.requests.routes.Keys <= h.dir.peers.Keys
    && R.IdsAreOwn(h)
  }

  lemma SoundAtStart(exempt: set<Name>)
    ensures Sound(Init(exempt))
  {
  }

  lemma MessageRoutes(h: Hub, c: Conn, m: Incoming, env: Env)
    requires EnvFor(m, env) && OfRequests(h, m)
    ensures HandleRequests(h, c, m, env).state.routes.Keys <= h.requests.routes.Keys + {c}
  {
    hide FindTarget, RoutesOf, ErrResult;
  }

  lemma RoutesStep(h: Hub, e: Event)
    requires Enabled(h, e)
    ensures Next(h, e).requests.routes.Keys <= h.requests.routes.Keys + (if e.Arrive? then {e.conn} else {})
  {
    if e.Arrive? {
      var g := WithIds(h, e.env);
      if OfRequests(g, e.message) { MessageRoutes(g, e.conn, e.message, e.env); }
      hide HandleRequests, HandleBatches, HandlePairing, HandleTunnels, HandleRegister, HandleDisconnect,
           OfRequests, OfBatches, OfPairing, OfTunnels;
    } else {
      hide CloseSends, Filled;
    }
  }

  lemma SoundStep(h: Hub, e: Event)
    requires Enabled(h, e) && Sound(h)
    ensures Sound(Next(h, e))
  {
    RoutesStep(h, e);
    N.DirectoryStep(h, e);
    R.StepKeepsIds(h, e);
    hide Next, R.IdsAreOwn;
  }

  // ---- One call ----

  predicate Possible(rs: RelayServer, call: Call)
    reads rs, rs.conns.Values
  {
    match call
    case Accepted(c, _) => c !in rs.conns
    case Read(c, m, env) =>
      && c in rs.conns && rs.conns[c].phase == Up && EnvFor(m, env)
      && (forall i, j :: 0 <= i < j < |env.ids| ==> env.ids[i] != env.ids[j]) && (forall id :: id in env.ids ==> id !in rs.used)
    case Counted(m) => m in rs.arming
    case TimedOut(m) => m in rs.timers
    case Rejected(holder) => holder in rs.held
    case Closed(c) => c in rs.conns && rs.conns[c].phase != Gone
  }

  /** The server's connections are those it had, or new. */
  twostate predicate SameOrNew(rs: RelayServer)
    reads rs
  {
    forall c :: c in rs.conns ==> (c in old(rs.conns) && rs.conns[c] == old(rs.conns[c])) || fresh(rs.conns[c])
  }

  method OnAccept(rs: RelayServer, c: Conn, authenticated: bool)
    requires rs.Valid() && Sound(rs.View()) && c !in rs.conns
    modifies rs
    ensures rs.Valid() && Enabled(old(rs.View()), Connect(c, authenticated))
    ensures rs.View() == Next(old(rs.View()), Connect(c, authenticated)) && SameOrNew(rs)
  {
    assert c !in rs.View().dir.peers && rs.outbox + [] == rs.outbox;
    hide R.IdsAreOwn;
    rs.Accept(c, authenticated);
  }

  method OnRead(rs: RelayServer, c: Conn, m: Incoming, env: Env)
    requires rs.Valid() && Sound(rs.View()) && Possible(rs, Read(c, m, env))
    modifies rs, rs.conns.Values
    ensures rs.Valid() && Enabled(old(rs.View()), Arrive(c, m, env))
    ensures rs.View() == Next(old(rs.View()), Arrive(c, m, env)) && SameOrNew(rs)
  {
    ghost var h := rs.View();
    assert Enabled(h, Arrive(c, m, env));
    var rc := rs.conns[c];
    rs.used := rs.used + set id | id in env.ids;
    assert rs.View() == WithIds(h, env);
    hide rs.Valid, Handle;
    rs.Dispatch(rc, m, env);
  }

  method OnCounted(rs: RelayServer, m: Id)
    requires rs.Valid() && m in rs.arming
    modifies rs
    ensures rs.Valid() && Enabled(old(rs.View()), Arm(m)) && rs.View() == Next(old(rs.View()), Arm(m)) && rs.conns == old(rs.conns)
  {
    hide HandleArm;
    rs.ArmBatch(m);
  }

  method OnTimedOut(rs: RelayServer, m: Id)
    requires rs.Valid() && m in rs.timers
    modifies rs
    ensures rs.Valid() && Enabled(old(rs.View()), Fire(m)) && rs.View() == Next(old(rs.View()), Fire(m)) && rs.conns == old(rs.conns)
  {
    hide HandleFire;
    rs.TimeOut(m);
  }

  method OnRejected(rs: RelayServer, holder: Id)
    requires rs.Valid() && holder in rs.held
    modifies rs
    ensures rs.Valid() && Enabled(old(rs.View()), PutBack(holder))
    ensures rs.View() == Next(old(rs.View()), PutBack(holder)) && rs.conns == old(rs.conns)
  {
    assert rs.outbox + [] == rs.outbox;
    hide HandlePutBack;
    rs.PutBackListener(holder);
  }

  lemma DownIs(h: Hub, c: Conn, order: seq<Id>)
    requires c in h.dir.peers && h.dir.peers[c].phase != Gone && (h.dir.peers[c].registered ==> WalksTunnels(h.tunnels, c, order))
    ensures Enabled(h, Down(c, order)) && Handled(h, HandleDown(h, c, order)) == Next(h, Down(c, order))
  {
    hide WalksTunnels, HandleDown;
  }

  method OnClosed(rs: RelayServer, c: Conn) returns (ghost order: seq<Id>)
    requires rs.Valid() && Possible(rs, Closed(c))
    modifies rs, rs.conns[c]
    ensures rs.Valid() && Enabled(old(rs.View()), Down(c, order))
    ensures rs.View() == Next(old(rs.View()), Down(c, order)) && rs.conns == old(rs.conns)
  {
    ClosedIs(rs, c);
    ghost var h := rs.View();
    var rc := rs.conns[c];
    hide rs.Valid, rs.View, Enabled, Next, WalksTunnels, Handled, HandleDown;
    order := rs.End(rc);
    DownIs(h, c, order);
  }

  lemma ClosedIs(rs: RelayServer, c: Conn)
    requires rs.Valid() && Possible(rs, Closed(c))
    ensures var rc, peers := rs.conns[c], rs.View().dir.peers;
      && rc.number == c && rs.Knows(rc) && c in peers && peers == rs.peers
      && rc.registered == peers[c].registered && rc.phase == peers[c].phase != Gone
  {
    assert rs.conns[c].View() == rs.peers[c];
  }

  /** One handler runs. */
  method Happen(rs: RelayServer, call: Call) returns (ghost e: Event)
    requires rs.Valid() && Sound(rs.View()) && Possible(rs, call)
    modifies rs, rs.conns.Values
    ensures rs.Valid() && IsEvent(call, e) && Enabled(old(rs.View()), e)
    ensures rs.View() == Next(old(rs.View()), e) && Sound(rs.View()) && SameOrNew(rs)
  {
    ghost var h := rs.View();
    hide rs.Valid, rs.View, Sound, Enabled, Next;
    match call {
      case Accepted(c, auth) =>
        e := Connect(c, auth);
        OnAccept(rs, c, auth);
      case Read(c, m, env) =>
        e := Arrive(c, m, env);
        OnRead(rs, c, m, env);
      case Counted(m) =>
        e := Arm(m);
        OnCounted(rs, m);
      case TimedOut(m) =>
        e := Fire(m);
        OnTimedOut(rs, m);
      case Rejected(holder) =>
        e := PutBack(holder);
        OnRejected(rs, holder);
      case Closed(c) =>
        ghost var order := OnClosed(rs, c);
        e := Down(c, order);
    }
    SoundStep(h, e);
  }

  /** Nothing can come of the call. */
  ghost predicate CannotHappen(h: Hub, call: Call) {
    forall e :: IsEvent(call, e) ==> !Enabled(h, e)
  }

  lemma Impossible(rs: RelayServer, call: Call)
    requires rs.Valid() && !Possible(rs, call)
    ensures CannotHappen(rs.View(), call)
  {
    forall e | IsEvent(call, e) ensures !Enabled(rs.View(), e) {
      if call.Closed? && call.conn in rs.conns { assert rs.conns[call.conn].View() == rs.peers[call.conn]; }
      if call.Read? && call.conn in rs.conns { assert rs.conns[call.conn].View() == rs.peers[call.conn]; }
    }
  }

  /** The events are what came of the first n calls, in order: all but those that could not happen. */
  ghost predicate Handles(calls: seq<Call>, n: nat, hubs: seq<Hub>, events: seq<Event>)
    requires n <= |calls| && |hubs| == |events| + 1
  {
    if n == 0 then events == []
    else
      var k := |events|;
      || (CannotHappen(hubs[k], calls[n - 1]) && Handles(calls, n - 1, hubs, events))
      || (k > 0 && IsEvent(calls[n - 1], events[k - 1]) && Handles(calls, n - 1, hubs[..k], events[..k - 1]))
  }

  lemma HandlesMore(calls: seq<Call>, n: nat, hubs: seq<Hub>, events: seq<Event>, e: Event, h: Hub)
    requires n < |calls| && |hubs| == |events| + 1 && Handles(calls, n, hubs, events) && IsEvent(calls[n], e)
    ensures Handles(calls, n + 1, hubs + [h], events + [e])
  {
    hide IsEvent, CannotHappen;
    assert (events + [e])[..|events|] == events && (hubs + [h])[..|events| + 1] == hubs;
  }

  lemma HandlesNone(calls: seq<Call>, n: nat, hubs: seq<Hub>, events: seq<Event>)
    requires n < |calls| && |hubs| == |events| + 1 && Handles(calls, n, hubs, events) && CannotHappen(hubs[|events|], calls[n])
    ensures Handles(calls, n + 1, hubs, events)
  {
    hide IsEvent, CannotHappen;
  }

  /**
   A server from its start, through any calls in any order, of which those that cannot happen do
   not: it has gone through a run of the hub, and is what that run has led to.
   */
  method Serve(exempt: set<Name>, calls: seq<Call>) returns (rs: RelayServer, ghost hubs: seq<Hub>, ghost events: seq<Event>)
    ensures fresh(rs) && rs.Valid() && |hubs| == |events| + 1 && IsRun(hubs, events)
    ensures rs.View() == hubs[|events|] && hubs[0] == Init(exempt) && Handles(calls, |calls|, hubs, events)
  {
    rs := new RelayServer(exempt);
    hubs, events := [Init(exempt)], [];
    SoundAtStart(exempt);
    RunBegins(exempt);
    hide rs.Valid, rs.View, Sound, Enabled, Next, IsRun, Init, Possible, IsEvent, CannotHappen;
    for i := 0 to |calls|
      invariant rs.Valid() && Sound(rs.View()) && |hubs| == |events| + 1 && IsRun(hubs, events) && hubs[0] == Init(exempt)
      invariant rs.View() == hubs[|events|] && Handles(calls, i, hubs, events)
      invariant forall c :: c in rs.conns ==> fresh(rs.conns[c])
    {
      if Possible(rs, calls[i]) {
        ghost var e := Happen(rs, calls[i]);
        RunGoesOn(hubs, events, e, rs.View());
        HandlesMore(calls, i, hubs, events, e, rs.View());
        hubs, events := hubs + [rs.View()], events + [e];
      } else {
        Impossible(rs, calls[i]);
        HandlesNone(calls, i, hubs, events);
      }
    }
  }
}
