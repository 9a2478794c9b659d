/** What the clean-up of a connection removes, and that it removes nothing else. */
module CleanUp {
  import opened Basics
  import opened Protocol
  import opened RelayModel
  import T = Tunnels

  /**
   After a connection is unregistered no request, listener or tunnel mentions it and the name
   it registered last is not its own; every other entry is what it was; and for each of its
   tunnels exactly one close was sent, to the other end.
   */
  lemma UnregisterIsExact(h: Hub, c: Conn, order: seq<Id>)
    requires c in h.dir.peers && WalksTunnels(h.tunnels, c, order)
    ensures var h', name := Unregister(h, c, order).state, h.dir.peers[c].name;
      && (forall n :: n in h'.dir.clients <==> n in h.dir.clients && !(n == name && h.dir.clients[n] == c))
      && (forall n :: n in h'.dir.clients ==> h'.dir.clients[n] == h.dir.clients[n])
      && (forall r :: r in h'.requests.pending <==> r in h.requests.pending && h.requests.pending[r].client != c)
      && (forall r :: r in h'.requests.pending ==> h'.requests.pending[r] == h.requests.pending[r])
      && (forall l :: l in h'.pairing.listeners <==> l in h.pairing.listeners && h.pairing.listeners[l].conn != c)
      && (forall l :: l in h'.pairing.listeners ==> h'.pairing.listeners[l] == h.pairing.listeners[l])
      && (forall t :: t in h'.tunnels.live <==> t in h.tunnels.live && h.tunnels.live[t].client != c && h.tunnels.live[t].daemon != c)
      && (forall t :: t in h'.tunnels.live ==> h'.tunnels.live[t] == h.tunnels.live[t])
      && h'.batches == h.batches && h'.dir.peers == h.dir.peers && h'.requests.routes == h.requests.routes
    ensures forall t :: t in TunnelsOf(h.tunnels, c) ==>
              About(Unregister(h, c, order).sends, ForTunnel(t)) == [Tell(OtherEnd(h.tunnels.live[t], c), Msg.TunnelClose(t), ForTunnel(t))]
    ensures |Unregister(h, c, order).sends| == |TunnelsOf(h.tunnels, c)|
  {
    forall t | t in TunnelsOf(h.tunnels, c)
      ensures About(Unregister(h, c, order).sends, ForTunnel(t)) == [Tell(OtherEnd(h.tunnels.live[t], c), Msg.TunnelClose(t), ForTunnel(t))]
    {
      T.CloseAbout(h.tunnels, c, order, t);
    }
    DistinctCount(order, TunnelsOf(h.tunnels, c));
  }

  /** A request, a listener or a tunnel mentions c. */
  ghost predicate Mentioned(h: Hub, c: Conn) {
    || (exists r :: r in h.requests.pending && h.requests.pending[r].client == c)
    || (exists code :: code in h.pairing.listeners && h.pairing.listeners[code].conn == c)
    || TunnelsOf(h.tunnels, c) != {}
  }

  /** The end of a connection leaves nothing that mentions it, if and only if it had registered
      or nothing mentioned it before; one that had not registered is told to nobody. */
  lemma CleanedUpIff(h: Hub, c: Conn, order: seq<Id>)
    requires Enabled(h, Down(c, order))
    ensures !Mentioned(Next(h, Down(c, order)), c) <==> h.dir.peers[c].registered || !Mentioned(h, c)
    ensures !h.dir.peers[c].registered ==> Step(h, Down(c, order)).sends == []
  {
    if h.dir.peers[c].registered {
      UnregisterIsExact(h.(dir := SetPhase(h.dir, c, Gone)), c, order);
      hide CloseSends;
    }
  }

  lemma {:induction false} DistinctCount(order: seq<Id>, ids: set<Id>)
    requires Distinct(order) && forall id :: id in order <==> id in ids
    ensures |order| == |ids|
    decreases |order|
  {
    if order == [] {
      assert ids == {};
    } else {
      var n := |order| - 1;
      assert order == order[..n] + [order[n]];
      DistinctCount(order[..n], ids - {order[n]});
    }
  }
}

/** RelayServer, with the handlers of wsContext. */
module RelayServers {
  import opened Basics
  import opened Protocol
  import opened RelayModel
  import Q = WriteQueue

  /** relayClient, but for its write queue, and the variables of its read loop. */
  class RelayConn {
    const number: Conn
    const authenticated: bool
    var phase: Phase
    var registered: bool
    var name: Name
    var token: Token
    var chunkRoutes: map<Id, Route>

    constructor (number: Conn, authenticated: bool)
      ensures this.number == number && View() == Peer(authenticated, Up, false, "", "") && chunkRoutes == map[]
    {
      this.number, this.authenticated := number, authenticated;
      phase, registered, name, token, chunkRoutes := Up, false, "", "", map[];
    }

    function View(): Peer
      reads this
    {
      Peer(authenticated, phase, registered, name, token)
    }
  }

  class RelayServer {
    const secretExempt: set<Name>
    var conns: map<Conn, RelayConn>
    var clients: map<Name, Conn>
    var pending: map<Id, Request>
    var pairListeners: map<Code, Listener>
    var multiPending: map<Id, Multi>
    var subToMulti: map<Id, Sub>
    var tunnels: map<Id, Tunnel>
    /** The counts of the fan-out handlers that have let go of the lock and not stored them yet. */
    var arming: map<Id, nat>
    var timers: set<Id>
    /** The listeners that handlers of rejected peers hold. */
    var held: map<Id, Held>
    var outbox: seq<Sent>
    /** Every pair_listen: they are numbered in this order. */
    var listens: seq<Listen>
    /** The ids that newID has returned. */
    var used: set<Id>

    /** The values of the connections, and the histories. */
    ghost var peers: map<Conn, Peer>
    ghost var routes: map<Conn, map<Id, Route>>
    ghost var issued: map<Id, Issued>
    ghost var lost: set<Id>
    ghost var fanned: map<Id, Fanned>
    ghost var early: set<Id>
    ghost var sessions: map<Id, Tunnel>

    constructor (exempt: set<Name>)
      ensures Valid() && conns == map[] && View() == Init(exempt)
    {
      secretExempt := exempt;
      conns, clients, pending, pairListeners, multiPending, subToMulti, tunnels := map[], map[], map[], map[], map[], map[], map[];
      arming, timers, held, outbox := map[], {}, map[], [];
      listens, used := [], {};
      peers, routes, issued, lost, fanned, early, sessions := map[], map[], map[], {}, map[], {}, map[];
    }

    ghost predicate Valid()
      reads this`conns, this`peers, this`routes, conns.Values
    {
      && conns.Keys == peers.Keys
      && (forall c :: c in conns ==> conns[c].number == c && conns[c].View() == peers[c])
      && (forall c :: c in conns ==> conns[c].chunkRoutes == if c in routes then routes[c] else map[])
    }

    ghost function DirView(): Directory
      reads this`peers, this`clients
    {
      Directory(secretExempt, peers, clients)
    }

    ghost function RequestView(): RequestTable
      reads this`pending, this`routes, this`issued, this`lost
    {
      RequestTable(pending, routes, issued, lost)
    }

    ghost function BatchView(): BatchTable
      reads this`multiPending, this`subToMulti, this`arming, this`timers, this`fanned, this`early
    {
      BatchTable(multiPending, subToMulti, arming, timers, fanned, early)
    }

    ghost function PairView(): PairTable
      reads this`pairListeners, this`listens, this`held
    {
      PairTable(pairListeners, listens, held)
    }

    ghost function TunnelView(): TunnelTable
      reads this`tunnels, this`sessions
    {
      TunnelTable(tunnels, sessions)
    }

    ghost function View(): Hub
      reads this
    {
      Hub(DirView(), RequestView(), BatchView(), PairView(), TunnelView(), used, outbox)
    }

    /** Names are held by connections that were made. */
    ghost predicate HoldersKnown()
      reads this`clients, this`conns
    {
      forall n :: n in clients ==> clients[n] in conns
    }

    predicate Knows(rc: RelayConn)
      reads this`conns
    {
      rc.number in conns && conns[rc.number] == rc
    }

    lemma OnlyOne(rc: RelayConn)
      requires Valid() && Knows(rc)
      ensures forall c :: c in conns && c != rc.number ==> conns[c] != rc
    {
    }

    // ---- Connections ----

    method Send(c: Conn, msg: Msg, why: Why)
      modifies this`outbox
      ensures outbox == old(outbox) + [Tell(c, msg, why)]
    {
      outbox := outbox + [Tell(c, msg, why)];
    }

    method Accept(c: Conn, authenticated: bool)
      requires Valid() && c !in conns && c !in routes
      modifies this`conns, this`peers
      ensures Valid() && DirView() == old(DirView()).(peers := old(peers)[c := Peer(authenticated, Up, false, "", "")])
      ensures c in conns && fresh(conns[c]) && conns == old(conns)[c := conns[c]]
    {
      var rc := new RelayConn(c, authenticated);
      conns, peers := conns[c := rc], peers[c := rc.View()];
    }

    method SetName(rc: RelayConn, name: Name, token: Token)
      requires Valid() && Knows(rc)
      modifies rc`name, rc`token, rc`registered, this`peers
      ensures Valid() && peers == old(peers)[rc.number := old(peers)[rc.number].(registered := true, name := name, token := token)]
    {
      OnlyOne(rc);
      rc.name, rc.token, rc.registered := name, token, true;
      peers := peers[rc.number := rc.View()];
    }

    method SetRegistered(rc: RelayConn)
      requires Valid() && Knows(rc)
      modifies rc`registered, this`peers
      ensures Valid() && peers == old(peers)[rc.number := old(peers)[rc.number].(registered := true)]
    {
      OnlyOne(rc);
      rc.registered := true;
      peers := peers[rc.number := rc.View()];
    }

    method Leave(rc: RelayConn, phase: Phase)
      requires Valid() && Knows(rc)
      modifies rc`phase, this`peers
      ensures Valid() && DirView() == SetPhase(old(DirView()), rc.number, phase)
    {
      OnlyOne(rc);
      rc.phase := phase;
      peers := peers[rc.number := rc.View()];
    }

    method AddRoute(rc: RelayConn, id: Id, route: Route)
      requires Valid() && Knows(rc)
      modifies rc`chunkRoutes, this`routes
      ensures Valid() && RequestView() == SetRoute(old(RequestView()), rc.number, id, route)
    {
      routes := routes[rc.number := rc.chunkRoutes[id := route]];
      rc.chunkRoutes := rc.chunkRoutes[id := route];
    }

    method DeleteRoute(rc: RelayConn, id: Id)
      requires Valid() && Knows(rc)
      modifies rc`chunkRoutes, this`routes
      ensures Valid() && RequestView() == DropRoute(old(RequestView()), rc.number, id)
    {
      routes := routes[rc.number := rc.chunkRoutes - {id}];
      rc.chunkRoutes := rc.chunkRoutes - {id};
    }

    method TokenAt(name: Name) returns (token: Token)
      requires Valid() && HoldersKnown() && name in clients
      ensures token == TokenOf(DirView(), clients[name])
    {
      token := conns[clients[name]].token;
    }

    method IsTaken(name: Name, token: Token) returns (taken: bool)
      requires Valid() && HoldersKnown()
      ensures taken <==> name in clients && TokenOf(DirView(), clients[name]) != token
    {
      taken := false;
      if name in clients {
        var held := TokenAt(name);
        taken := held != token;
      }
    }

    method RejectIncomplete(rc: RelayConn)
      requires Valid() && Knows(rc)
      modifies rc`registered, this`peers, this`outbox
      ensures Valid() && DirView() == Marked(old(DirView()), rc.number)
      ensures outbox == old(outbox) + [Tell(rc.number, Error("name and token required"), Direct)]
    {
      hide Valid;
      SetRegistered(rc);
      Send(rc.number, Error("name and token required"), Direct);
    }

    method Reject(rc: RelayConn, text: string)
      requires Valid() && Knows(rc)
      modifies rc`phase, this`peers, this`outbox
      ensures Valid() && DirView() == SetPhase(old(DirView()), rc.number, Closing)
      ensures outbox == old(outbox) + [Tell(rc.number, Error(text), Direct)]
    {
      hide Valid, SetPhase;
      Send(rc.number, Error(text), Direct);
      Leave(rc, Closing);
    }

    /** rc takes the name, from its holder if it has one. */
    method TakeName(rc: RelayConn, name: Name, token: Token)
      requires Valid() && Knows(rc)
      modifies rc, this`peers, this`clients, this`outbox
      ensures Valid() && DirView() == Taken(old(DirView()), rc.number, name, token)
      ensures outbox == old(outbox)
        + (if name in old(clients) then [Tell(old(clients)[name], Error("replaced by new connection"), Direct)] else [])
        + [Tell(rc.number, Registered(name), Direct)]
    {
      hide Valid;
      if name in clients {
        Send(clients[name], Error("replaced by new connection"), Direct);
        clients := clients - {name};
      }
      SetName(rc, name, token);
      clients := clients[name := rc.number];
      Send(rc.number, Registered(name), Direct);
    }

    method HandleRegister(rc: RelayConn, name: Name, token: Token)
      requires Valid() && Knows(rc) && HoldersKnown()
      modifies rc, this`peers, this`clients, this`outbox
      ensures Valid()
      ensures var o := RelayModel.HandleRegister(old(DirView()), rc.number, name, token);
        DirView() == o.state && outbox == old(outbox) + o.sends
    {
      ghost var d := DirView();
      assert rc.authenticated == d.peers[rc.number].authenticated && clients == d.clients && secretExempt == d.exempt;
      RegisterCases(d, rc.number, name, token);
      hide Valid, SetPhase, HoldersKnown, TokenOf, RelayModel.HandleRegister, Marked, Taken, DirView;
      if name == "" || token == "" {
        RejectIncomplete(rc);
      } else if !rc.authenticated && name !in secretExempt {
        Reject(rc, "authentication required: relay secret not provided");
      } else {
        var taken := IsTaken(name, token);
        if taken {
          Reject(rc, "name already registered: " + name);
        } else {
          TakeName(rc, name, token);
        }
      }
    }

    method Find(target: Name, token: Token) returns (found: Found)
      requires Valid() && HoldersKnown()
      ensures found == FindTarget(DirView(), target, token)
    {
      hide Valid, HoldersKnown, TokenOf;
      if target == "" { return Refused("target is required"); }
      if target !in clients { return Refused("target not connected: " + target); }
      var held := TokenAt(target);
      if held != token { return Refused("invalid token for target: " + target); }
      found := Target(clients[target]);
    }

    // ---- Requests ----

    method HandleExecute(c: Conn, id: Id, target: Name, token: Token, job: Job, req: Id, ok: bool)
      requires Valid() && HoldersKnown() && req !in pending
      modifies this`pending, this`issued, this`outbox
      ensures var o := RelayModel.HandleExecute(old(RequestView()), c, id, FindTarget(DirView(), target, token), job, req, ok);
        RequestView() == o.state && outbox == old(outbox) + o.sends
    {
      hide Valid, HoldersKnown, FindTarget;
      var found := Find(target, token);
      if found.Refused? {
        Send(c, ErrResult(id, found.error), Direct);
        return;
      }
      issued := issued[req := Issued(Request(id, c), found.conn, None, ok)];
      pending := pending[req := Request(id, c)];
      Send(found.conn, Command(req, job), ToDaemon(req));
      if !ok {
        pending := pending - {req};
        Send(c, ErrResult(id, "failed to forward command"), ToClient(req));
      }
    }

    method HandleFileTransfer(rc: RelayConn, id: Id, target: Name, token: Token, a: Announce, req: Id, ok: bool)
      requires Valid() && Knows(rc) && HoldersKnown() && req !in pending
      modifies this`pending, this`issued, this`outbox, this`routes, rc`chunkRoutes
      ensures Valid()
      ensures var o := RelayModel.HandleFileTransfer(old(RequestView()), rc.number, id, FindTarget(DirView(), target, token), a, req, ok);
        RequestView() == o.state && outbox == old(outbox) + o.sends
    {
      hide Valid, HoldersKnown, FindTarget;
      var found := Find(target, token);
      if found.Refused? {
        Send(rc.number, ErrResult(id, found.error), Direct);
        return;
      }
      issued := issued[req := Issued(Request(id, rc.number), found.conn, Some(a), ok)];
      pending := pending[req := Request(id, rc.number)];
      Send(found.conn, FileInit(req, a), ToDaemon(req));
      if !ok {
        pending := pending - {req};
        Send(rc.number, ErrResult(id, "failed to forward file transfer"), ToClient(req));
        return;
      }
      if a.chunked { AddRoute(rc, id, Route(found.conn, req)); }
    }

    method CleanupPending(req: Id)
      modifies this`pending, this`lost
      ensures RequestView() == Forget(old(RequestView()), req)
    {
      if req in pending { lost := lost + {req}; }
      pending := pending - {req};
    }

    method GiveUpChunks(rc: RelayConn, id: Id, req: Id, text: string)
      requires Valid() && Knows(rc)
      modifies this`pending, this`lost, this`outbox, this`routes, rc`chunkRoutes
      ensures Valid()
      ensures var o := FailChunk(old(RequestView()), rc.number, id, req, [], text); RequestView() == o.state && outbox == old(outbox) + o.sends
    {
      hide Valid, DropRoute, Forget;
      DeleteRoute(rc, id);
      CleanupPending(req);
      Send(rc.number, ErrResult(id, text), ChunkFailed(req));
    }

    /** Forward one chunk, header and payload as one unit, or one legacy chunk. */
    method Forward(rc: RelayConn, id: Id, unit: Q.Unit<Msg>, final: bool, ok: bool)
      requires Valid() && Knows(rc) && id in rc.chunkRoutes
      modifies this`pending, this`lost, this`outbox, this`routes, rc`chunkRoutes
      ensures Valid()
      ensures var o := ForwardChunk(old(RequestView()), rc.number, id, unit, final, ok); RequestView() == o.state && outbox == old(outbox) + o.sends
    {
      var route := rc.chunkRoutes[id];
      outbox := outbox + [Sent(route.target, unit, ToDaemon(route.req))];
      if !ok {
        GiveUpChunks(rc, id, route.req, "failed to forward file chunk");
        return;
      }
      if final { DeleteRoute(rc, id); }
    }

    method HandleFileChunk(rc: RelayConn, id: Id, index: int, final: bool, compressed: bool, next: NextFrame, ok: bool)
      requires Valid() && Knows(rc)
      modifies this`pending, this`lost, this`outbox, this`routes, rc`chunkRoutes
      ensures Valid()
      ensures var o := RelayModel.HandleFileChunk(old(RequestView()), rc.number, id, index, final, compressed, next, ok);
        RequestView() == o.state && outbox == old(outbox) + o.sends
    {
      if id !in rc.chunkRoutes { return; }
      var req := rc.chunkRoutes[id].req;
      if next.ReadFailed? {
        GiveUpChunks(rc, id, req, "failed to read binary chunk payload");
        return;
      }
      if next.NotBinary? { return; }
      Forward(rc, id, Q.Chunk(ChunkHeader(req, index, final, compressed), next.data), final, ok);
    }

    method HandleOldFileChunk(rc: RelayConn, id: Id, index: int, data: Option<Bytes>, final: bool, ok: bool)
      requires Valid() && Knows(rc)
      modifies this`pending, this`lost, this`outbox, this`routes, rc`chunkRoutes
      ensures Valid()
      ensures var o := RelayModel.HandleOldFileChunk(old(RequestView()), rc.number, id, index, data, final, ok);
        RequestView() == o.state && outbox == old(outbox) + o.sends
    {
      if id !in rc.chunkRoutes { return; }
      Forward(rc, id, Q.Plain(LegacyChunk(rc.chunkRoutes[id].req, index, data, final)), final, ok);
    }

    method HandleStreamChunk(m: Reply)
      requires m.StreamChunk?
      modifies this`outbox
      ensures var o := Relay(RequestView(), m); RequestView() == o.state && outbox == old(outbox) + o.sends
    {
      if m.id !in pending { return; }
      var pr := pending[m.id];
      Send(pr.client, Readdressed(m, pr.serverId), ToClient(m.id));
    }

    /** stream_end, the result of a single target, and the result of a file transfer. */
    method HandleEnd(m: Reply)
      requires !m.StreamChunk?
      modifies this`pending, this`outbox
      ensures var o := Relay(old(RequestView()), m); RequestView() == o.state && outbox == old(outbox) + o.sends
    {
      if m.id !in pending { return; }
      var pr := pending[m.id];
      pending := pending - {m.id};
      Send(pr.client, Readdressed(m, pr.serverId), ToClient(m.id));
    }

    // ---- Batches ----

    method SendMultiResult(m: Id, e: Multi)
      modifies this`outbox
      ensures outbox == old(outbox) + [MultiReply(m, e)]
    {
      var ordered: map<Name, Body> := map[];
      for i := 0 to |e.order|
        invariant forall n :: n in ordered <==> n in e.results && n in e.order[..i]
        invariant forall n :: n in ordered ==> ordered[n] == e.results[n]
      {
        if e.order[i] in e.results { ordered := ordered[e.order[i] := e.results[e.order[i]]]; }
      }
      assert ordered == Ordered(e);
      Send(e.client, MultiResult(e.clientId, ordered, ""), ForMulti(m));
    }

    method HandleSubResult(id: Id, body: Body)
      requires id in subToMulti
      modifies this`subToMulti, this`multiPending, this`early, this`outbox
      ensures var o := RelayModel.HandleSubResult(old(BatchView()), id, body); BatchView() == o.state && outbox == old(outbox) + o.sends
    {
      var info := subToMulti[id];
      subToMulti := subToMulti - {id};
      if info.multi !in multiPending { return; }
      var e := multiPending[info.multi];
      e := e.(results := e.results[info.target := body], remaining := e.remaining - 1);
      if e.remaining <= 0 {
        multiPending := multiPending - {info.multi};
        if info.multi in arming { early := early + {info.multi}; }
        SendMultiResult(info.multi, e);
      } else {
        multiPending := multiPending[info.multi := e];
      }
    }

    /** The loop over the targets, under the read lock. */
    method FanOut(c: Conn, job: Batch, env: Env)
      requires Valid() && HoldersKnown() && EnvFits(job, env)
      modifies this`multiPending, this`subToMulti, this`arming, this`fanned, this`outbox
      ensures var o := FanOutFirst(old(BatchView()), DirView(), c, job, env, |job.targets|);
        BatchView() == o.state && outbox == old(outbox) + o.sends
    {
      hide Valid, HoldersKnown, FanOutTo, FanOutFirst;
      var multiId := env.ids[0];
      ghost var b, d, sent := BatchView(), DirView(), outbox;
      fanned := fanned[multiId := Fanned(c, job.id, job.targets)];
      multiPending, arming := multiPending[multiId := Multi(c, job.id, map[], job.targets, 0, 0)], arming[multiId := 0];
      FanOutBegins(b, d, c, job, env);
      assert outbox + [] == outbox;
      for i := 0 to |job.targets|
        invariant multiId in multiPending && multiId in arming && d == DirView()
        invariant BatchView() == FanOutFirst(b, d, c, job, env, i).state && outbox == sent + FanOutFirst(b, d, c, job, env, i).sends
      {
        FanOutOne(multiId, job, job.targets[i], env.ids[i + 1], env.oks[i + 1]);
        FanOutGoesOn(b, d, c, job, env, i, sent);
      }
    }

    method FanOutOne(multiId: Id, job: Batch, target: Name, sub: Id, ok: bool)
      requires Valid() && HoldersKnown() && multiId in multiPending && multiId in arming
      modifies this`multiPending, this`subToMulti, this`arming, this`outbox
      ensures var o := FanOutTo(old(BatchView()), DirView(), multiId, job, target, sub, ok);
        BatchView() == o.state && outbox == old(outbox) + o.sends
      ensures multiId in multiPending && multiId in arming
    {
      hide Valid, HoldersKnown, TokenOf;
      var entry := multiPending[multiId];
      if target !in clients {
        multiPending := multiPending[multiId := entry.(results := entry.results[target := Body(false, "target not connected")])];
        return;
      }
      var held := TokenAt(target);
      if target !in job.tokens || held != job.tokens[target] {
        multiPending := multiPending[multiId := entry.(results := entry.results[target := Body(false, "invalid token")])];
        return;
      }
      ForwardTo(multiId, job, target, sub, ok);
    }

    method ForwardTo(multiId: Id, job: Batch, target: Name, sub: Id, ok: bool)
      requires target in clients && multiId in multiPending && multiId in arming
      modifies this`multiPending, this`subToMulti, this`arming, this`outbox
      ensures outbox == old(outbox) + [Tell(clients[target], Command(sub, Job(job.cmd, job.timeout, false, "")), ToSub(sub))]
      ensures var b := old(BatchView()); var counted := b.(arming := b.arming[multiId := b.arming[multiId] + 1]);
        BatchView() == if ok then counted.(subs := b.subs[sub := Sub(multiId, target)])
                       else SetFailed(counted.(subs := b.subs - {sub}), multiId, target)
    {
      ghost var was := subToMulti;
      subToMulti := subToMulti[sub := Sub(multiId, target)];
      arming := arming[multiId := arming[multiId] + 1];
      Send(clients[target], Command(sub, Job(job.cmd, job.timeout, false, "")), ToSub(sub));
      if !ok {
        subToMulti := subToMulti - {sub};
        assert subToMulti == was - {sub};
        var entry := multiPending[multiId];
        entry := entry.(results := entry.results[target := Body(false, "forward failed")], failed := entry.failed + 1);
        multiPending := multiPending[multiId := entry];
      }
    }

    method HandleExecuteMulti(c: Conn, job: Batch, env: Env)
      requires Valid() && HoldersKnown() && EnvFits(job, env)
      modifies this`multiPending, this`subToMulti, this`arming, this`fanned, this`outbox
      ensures var o := RelayModel.HandleExecuteMulti(old(BatchView()), DirView(), c, job, env);
        BatchView() == o.state && outbox == old(outbox) + o.sends
    {
      if job.targets == [] || job.cmd == "" {
        Send(c, ErrResult(job.id, "targets and cmd are required"), Direct);
        return;
      }
      FanOut(c, job, env);
    }

    /** What follows the loop, without the lock. */
    method ArmBatch(m: Id)
      requires m in arming
      modifies this`multiPending, this`arming, this`timers, this`outbox
      ensures var o := HandleArm(old(BatchView()), m); BatchView() == o.state && outbox == old(outbox) + o.sends
    {
      var pendingCount := arming[m];
      arming := arming - {m};
      if pendingCount == 0 {
        if m in multiPending {
          var entry := multiPending[m];
          multiPending := multiPending - {m};
          SendMultiResult(m, entry);
        }
        return;
      }
      if m in multiPending { multiPending := multiPending[m := multiPending[m].(remaining := pendingCount)]; }
      timers := timers + {m};
    }

    /** The timer: every target without a result gets one. */
    method TimeOut(m: Id)
      modifies this`multiPending, this`subToMulti, this`timers, this`outbox
      ensures var o := HandleFire(old(BatchView()), m); BatchView() == o.state && outbox == old(outbox) + o.sends
    {
      timers := timers - {m};
      if m !in multiPending { return; }
      var e := multiPending[m];
      multiPending := multiPending - {m};
      DropSubs(m);
      var results := e.results;
      for i := 0 to |e.order|
        invariant forall n :: n in results <==> n in e.results || n in e.order[..i]
        invariant forall n :: n in results ==> results[n] == if n in e.results then e.results[n] else Body(false, "timed out waiting for result")
      {
        if e.order[i] !in results { results := results[e.order[i] := Body(false, "timed out waiting for result")]; }
      }
      assert results == Filled(e).results;
      SendMultiResult(m, e.(results := results));
    }

    method DropSubs(m: Id)
      modifies this`subToMulti
      ensures subToMulti == map s | s in old(subToMulti) && old(subToMulti)[s].multi != m :: old(subToMulti)[s]
    {
      var todo := subToMulti.Keys;
      while todo != {}
        invariant forall s :: s in subToMulti <==> s in old(subToMulti) && (s in todo || old(subToMulti)[s].multi != m)
        invariant forall s :: s in subToMulti ==> subToMulti[s] == old(subToMulti)[s]
        invariant todo <= old(subToMulti).Keys
        decreases todo
      {
        var s :| s in todo;
        todo := todo - {s};
        if subToMulti[s].multi == m { subToMulti := subToMulti - {s}; }
      }
    }

    // ---- Pairing ----

    method HandlePairListen(c: Conn, code: Code, requireKey: bool)
      modifies this`pairListeners, this`listens, this`outbox
      ensures var o := RelayModel.HandlePairListen(old(PairView()), c, code, requireKey); PairView() == o.state && outbox == old(outbox) + o.sends
    {
      if code == "" {
        Send(c, Error("pair_listen requires code"), Direct);
        return;
      }
      pairListeners := pairListeners[code := Listener(c, requireKey, |listens|)];
      listens := listens + [Listen(code, c)];
    }

    method HandlePair(c: Conn, code: Code, token: Token, hostname: string, keyValid: bool, holder: Id)
      modifies this`pairListeners, this`held, this`outbox
      ensures var o := RelayModel.HandlePair(old(PairView()), c, code, token, hostname, keyValid, holder);
        PairView() == o.state && outbox == old(outbox) + o.sends
    {
      if code == "" || token == "" {
        Send(c, Error("pair requires code and token"), Direct);
        return;
      }
      if code !in pairListeners { return; }
      var listener := pairListeners[code];
      pairListeners := pairListeners - {code};
      if listener.requireKey && !keyValid {
        Send(c, Error("pair rejected: activation key required but not provided or invalid"), Direct);
        held := held[holder := Held(code, listener)];
        return;
      }
      Send(listener.conn, PairDone(code, token, hostname), ForListener(listener.stamp));
      Send(c, PairConfirmed(code), Direct);
    }

    /** The rest of the handler of a rejected peer, under the lock again. */
    method PutBackListener(holder: Id)
      requires holder in held
      modifies this`pairListeners, this`held
      ensures PairView() == HandlePutBack(old(PairView()), holder)
    {
      pairListeners := pairListeners[held[holder].code := held[holder].listener];
      held := held - {holder};
    }

    method HandleDisconnect(c: Conn, target: Name, token: Token, ok: bool)
      requires Valid() && HoldersKnown()
      modifies this`outbox
      ensures outbox == old(outbox) + RelayModel.HandleDisconnect(c, target, FindTarget(DirView(), target, token), ok)
    {
      hide Valid, HoldersKnown, FindTarget;
      var found := Find(target, token);
      if found.Refused? {
        Send(c, Error(if target == "" then "disconnect requires target" else found.error), Direct);
        return;
      }
      Send(found.conn, Msg.Disconnect, Direct);
      Send(c, if ok then DisconnectConfirmed(target) else Error("failed to forward disconnect"), Direct);
    }

    // ---- Tunnels ----

    method HandleTunnelOpen(c: Conn, id: Id, target: Name, token: Token, addr: string, ok: bool)
      requires Valid() && HoldersKnown()
      modifies this`tunnels, this`sessions, this`outbox
      ensures var o := RelayModel.HandleTunnelOpen(old(TunnelView()), c, id, target, FindTarget(DirView(), target, token), addr, ok);
        TunnelView() == o.state && outbox == old(outbox) + o.sends
    {
      if target == "" || id == "" || addr == "" {
        Send(c, TunnelOpened(id, "target, tunnel_id, and remote_addr are required"), Direct);
        return;
      }
      hide Valid, HoldersKnown, FindTarget;
      var found := Find(target, token);
      if found.Refused? {
        Send(c, TunnelOpened(id, found.error), Direct);
        return;
      }
      OpenTunnel(c, id, found.conn, addr, ok);
    }

    method OpenTunnel(c: Conn, id: Id, daemon: Conn, addr: string, ok: bool)
      modifies this`tunnels, this`sessions, this`outbox
      ensures TunnelView() == if ok then TunnelTable(old(tunnels)[id := Tunnel(c, daemon)], old(sessions)[id := Tunnel(c, daemon)])
                              else TunnelTable(old(tunnels) - {id}, old(sessions))
      ensures outbox == old(outbox) + [Tell(daemon, Msg.TunnelOpen(id, addr), ForTunnel(id))]
        + if ok then [] else [Tell(c, TunnelOpened(id, "failed to forward tunnel request"), Direct)]
    {
      ghost var was := tunnels;
      tunnels := tunnels[id := Tunnel(c, daemon)];
      Send(daemon, Msg.TunnelOpen(id, addr), ForTunnel(id));
      if ok {
        sessions := sessions[id := Tunnel(c, daemon)];
      } else {
        tunnels := tunnels - {id};
        assert tunnels == was - {id};
        Send(c, TunnelOpened(id, "failed to forward tunnel request"), Direct);
      }
    }

    method HandleTunnelRelay(c: Conn, id: Id, text: string)
      modifies this`outbox
      ensures outbox == old(outbox) + RelayModel.HandleTunnelRelay(TunnelView(), c, id, text)
    {
      if id !in tunnels { return; }
      var ts := tunnels[id];
      var dest := if ts.client == c then ts.daemon else ts.client;
      Send(dest, TunnelMsg(id, text), ForTunnel(id));
    }

    method HandleTunnelClose(c: Conn, id: Id)
      modifies this`tunnels, this`outbox
      ensures var o := RelayModel.HandleTunnelClose(old(TunnelView()), c, id); TunnelView() == o.state && outbox == old(outbox) + o.sends
    {
      if id !in tunnels { return; }
      var ts := tunnels[id];
      tunnels := tunnels - {id};
      var dest := if ts.client == c then ts.daemon else ts.client;
      Send(dest, Msg.TunnelClose(id), ForTunnel(id));
    }

    // ---- Clean-up ----

    method DropRequests(c: Conn)
      modifies this`pending, this`lost
      ensures RequestView() == ForgetRequests(old(RequestView()), c)
    {
      var todo := pending.Keys;
      while todo != {}
        invariant todo <= old(pending).Keys && lost == old(lost)
        invariant forall r :: r in pending <==> r in old(pending) && (r in todo || old(pending)[r].client != c)
        invariant forall r :: r in pending ==> pending[r] == old(pending)[r]
        decreases todo
      {
        var r :| r in todo;
        todo := todo - {r};
        if pending[r].client == c { pending := pending - {r}; }
      }
      lost := lost + RequestsOf(old(RequestView()), c);
      assert pending == old(pending) - RequestsOf(old(RequestView()), c);
    }

    method DropListeners(c: Conn)
      modifies this`pairListeners
      ensures PairView() == ForgetListeners(old(PairView()), c)
    {
      var todo := pairListeners.Keys;
      while todo != {}
        invariant todo <= old(pairListeners).Keys
        invariant forall l :: l in pairListeners <==> l in old(pairListeners) && (l in todo || old(pairListeners)[l].conn != c)
        invariant forall l :: l in pairListeners ==> pairListeners[l] == old(pairListeners)[l]
        decreases todo
      {
        var l :| l in todo;
        todo := todo - {l};
        if pairListeners[l].conn == c { pairListeners := pairListeners - {l}; }
      }
      assert pairListeners == ForgetListeners(old(PairView()), c).listeners;
    }

    /** Walks the tunnels and deletes those of c, telling the other end of each. */
    method CloseTunnels(c: Conn) returns (ghost order: seq<Id>)
      modifies this`tunnels, this`outbox
      ensures WalksTunnels(old(TunnelView()), c, order) && TunnelView() == SeverTunnels(old(TunnelView()), c)
      ensures outbox == old(outbox) + CloseSends(old(TunnelView()), c, order)
    {
      ghost var t := TunnelView();
      var todo := tunnels.Keys;
      order := [];
      assert outbox + CloseSends(t, c, []) == outbox;
      while todo != {}
        invariant todo <= t.live.Keys && Distinct(order)
        invariant forall id :: id in order <==> id in t.live.Keys - todo && id in TunnelsOf(t, c)
        invariant tunnels == t.live - (set id | id in order)
        invariant outbox == old(outbox) + CloseSends(t, c, order)
        decreases todo
      {
        var tid :| tid in todo;
        todo := todo - {tid};
        var ts := tunnels[tid];
        if ts.client == c || ts.daemon == c {
          var other := if ts.client == c then ts.daemon else ts.client;
          Send(other, Msg.TunnelClose(tid), ForTunnel(tid));
          tunnels := tunnels - {tid};
          assert CloseSends(t, c, order + [tid]) == CloseSends(t, c, order) + [Tell(other, Msg.TunnelClose(tid), ForTunnel(tid))];
          order := order + [tid];
        }
      }
      assert (set id | id in order) == TunnelsOf(t, c);
    }

    method DropName(rc: RelayConn)
      requires Valid() && Knows(rc)
      modifies this`clients
      ensures DirView() == ReleaseName(old(DirView()), rc.number)
    {
      if rc.name in clients && clients[rc.name] == rc.number { clients := clients - {rc.name}; }
    }

    method Unregister(rc: RelayConn) returns (ghost order: seq<Id>)
      requires Valid() && Knows(rc)
      modifies this`clients, this`pending, this`lost, this`pairListeners, this`tunnels, this`outbox
      ensures Valid() && WalksTunnels(old(TunnelView()), rc.number, order)
      ensures DirView() == ReleaseName(old(DirView()), rc.number) && RequestView() == ForgetRequests(old(RequestView()), rc.number)
      ensures PairView() == ForgetListeners(old(PairView()), rc.number) && TunnelView() == SeverTunnels(old(TunnelView()), rc.number)
      ensures outbox == old(outbox) + CloseSends(old(TunnelView()), rc.number, order)
    {
      hide Valid, WalksTunnels, CloseSends, ForgetRequests, ForgetListeners, SeverTunnels, ReleaseName;
      DropName(rc);
      DropRequests(rc.number);
      DropListeners(rc.number);
      order := CloseTunnels(rc.number);
    }

    /** The read loop has ended: only a connection that registered is unregistered. */
    method Ended(rc: RelayConn) returns (ghost order: seq<Id>)
      requires Valid() && Knows(rc)
      modifies rc`phase, this`peers, this`clients, this`pending, this`lost, this`pairListeners, this`tunnels, this`outbox
      ensures Valid()
      ensures IsDown(old(DirView()), old(RequestView()), old(PairView()), old(TunnelView()), old(outbox), rc.number, order,
                     DirView(), RequestView(), PairView(), TunnelView(), outbox)
    {
      assert rc.registered == peers[rc.number].registered;
      hide Valid, WalksTunnels, CloseSends, ForgetRequests, ForgetListeners, SeverTunnels, ReleaseName, SetPhase;
      Leave(rc, Gone);
      order := [];
      if rc.registered { order := Unregister(rc); }
    }

    /** The same, as a step of the hub. */
    method End(rc: RelayConn) returns (ghost order: seq<Id>)
      requires Valid() && Knows(rc)
      modifies rc`phase, this`peers, this`clients, this`pending, this`lost, this`pairListeners, this`tunnels, this`outbox
      ensures Valid() && rc.number in old(View()).dir.peers
      ensures old(View()).dir.peers[rc.number].registered ==> WalksTunnels(old(View()).tunnels, rc.number, order)
      ensures View() == Handled(old(View()), HandleDown(old(View()), rc.number, order))
    {
      hide Valid, IsDown, HandleDown, Handled, WalksTunnels, DirView, RequestView, BatchView, PairView, TunnelView;
      ghost var h := View();
      order := Ended(rc);
      PartsMake(h, rc.number, order, View());
    }

    // ---- Dispatch ----

    method DispatchChunks(rc: RelayConn, m: Incoming, env: Env)
      requires Valid() && Knows(rc) && EnvFor(m, env) && (m.FileChunk? || m.OldFileChunk?)
      modifies this`pending, this`lost, this`routes, this`outbox, rc`chunkRoutes
      ensures Valid()
      ensures var h := old(View()); var o := HandleRequests(h, rc.number, m, env); View() == Handled(h, Outcome(h.(requests := o.state), o.sends))
    {
      hide Valid, RelayModel.HandleFileChunk, RelayModel.HandleOldFileChunk, BatchView, PairView, TunnelView,
           DirView, FindTarget;
      if m.FileChunk? {
        HandleFileChunk(rc, m.id, m.index, m.final, m.compressed, m.next, env.oks[0]);
      } else {
        HandleOldFileChunk(rc, m.id, m.index, m.data, m.final, env.oks[0]);
      }
    }

    method DispatchIssues(rc: RelayConn, m: Incoming, env: Env)
      requires Valid() && Knows(rc) && HoldersKnown() && EnvFor(m, env) && (m.Execute? || m.FileTransfer?) && env.ids[0] !in pending
      modifies this`pending, this`issued, this`routes, this`outbox, rc`chunkRoutes
      ensures Valid()
      ensures var h := old(View()); var o := HandleRequests(h, rc.number, m, env); View() == Handled(h, Outcome(h.(requests := o.state), o.sends))
    {
      hide Valid, HoldersKnown, FindTarget, RelayModel.HandleExecute, RelayModel.HandleFileTransfer,
           BatchView, PairView, TunnelView;
      if m.Execute? {
        HandleExecute(rc.number, m.id, m.target, m.token, m.job, env.ids[0], env.oks[0]);
      } else {
        HandleFileTransfer(rc, m.id, m.target, m.token, m.announce, env.ids[0], env.oks[0]);
      }
    }

    method DispatchReplies(rc: RelayConn, m: Reply, env: Env)
      requires EnvFor(m, env) && OfRequests(View(), m)
      modifies this`pending, this`outbox
      ensures var h := old(View()); var o := HandleRequests(h, rc.number, m, env); View() == Handled(h, Outcome(h.(requests := o.state), o.sends))
    {
      hide Relay;
      if m.StreamChunk? { HandleStreamChunk(m); } else { HandleEnd(m); }
    }

    method DispatchRequests(rc: RelayConn, m: Incoming, env: Env)
      requires Valid() && Knows(rc) && HoldersKnown() && EnvFor(m, env) && env.ids[0] !in pending && !Barred(View(), rc.number, m)
      requires !OfShared(View(), m) && !OfOwn(m)
      modifies this`pending, this`issued, this`lost, this`routes, this`outbox, rc`chunkRoutes
      ensures Valid() && View() == Handled(old(View()), RelayModel.Handle(old(View()), rc.number, m, env))
    {
      RequestCases(View(), rc.number, m, env);
      hide Valid, View, Handled, HoldersKnown, HandleRequests, RelayModel.Handle;
      if m.FileChunk? || m.OldFileChunk? {
        DispatchChunks(rc, m, env);
      } else if m.Execute? || m.FileTransfer? {
        DispatchIssues(rc, m, env);
      } else {
        DispatchReplies(rc, m, env);
      }
    }

    method DispatchTunnels(rc: RelayConn, m: Incoming, env: Env)
      requires Valid() && HoldersKnown() && EnvFor(m, env) && OfTunnels(m)
      modifies this`tunnels, this`sessions, this`outbox
      ensures var h := old(View()); var o := HandleTunnels(h, rc.number, m, env); View() == Handled(h, Outcome(h.(tunnels := o.state), o.sends))
    {
      hide Valid, HoldersKnown, FindTarget, RelayModel.HandleTunnelOpen, RelayModel.HandleTunnelRelay,
           RelayModel.HandleTunnelClose;
      if m.TunnelOpen? {
        HandleTunnelOpen(rc.number, m.tunnelId, m.target, m.token, m.remoteAddr, env.oks[0]);
      } else if m.TunnelData? {
        HandleTunnelRelay(rc.number, m.tunnelId, m.text);
      } else {
        HandleTunnelClose(rc.number, m.tunnelId);
      }
    }

    method DispatchBatches(rc: RelayConn, m: Incoming, env: Env)
      requires Valid() && HoldersKnown() && EnvFor(m, env) && OfBatches(View(), m)
      modifies this`multiPending, this`subToMulti, this`arming, this`fanned, this`early, this`outbox
      ensures var h := old(View()); var o := HandleBatches(h, rc.number, m, env); View() == Handled(h, Outcome(h.(batches := o.state), o.sends))
    {
      hide Valid, HoldersKnown, RelayModel.HandleSubResult, RelayModel.HandleExecuteMulti;
      if m.Result? {
        HandleSubResult(m.id, m.body);
      } else {
        HandleExecuteMulti(rc.number, m.batch, env);
      }
    }

    method DispatchPairing(rc: RelayConn, m: Incoming, env: Env)
      requires EnvFor(m, env) && OfPairing(m)
      modifies this`pairListeners, this`listens, this`held, this`outbox
      ensures var h := old(View()); var o := HandlePairing(h, rc.number, m, env); View() == Handled(h, Outcome(h.(pairing := o.state), o.sends))
    {
      hide RelayModel.HandlePairListen, RelayModel.HandlePair;
      if m.PairListen? {
        HandlePairListen(rc.number, m.code, m.requireKey);
      } else {
        HandlePair(rc.number, m.code, m.token, m.hostname, m.keyValid, env.ids[0]);
      }
    }

    method SendAuthRequired(rc: RelayConn, m: Incoming)
      requires Valid() && Knows(rc) && ClientOnly(m)
      modifies this`peers, this`outbox, rc`phase
      ensures Valid()
      ensures var h := old(View()); View() == Handled(h, Outcome(h.(dir := SetPhase(h.dir, rc.number, Closing)), [Tell(rc.number, AuthRequiredReply(m), Direct)]))
    {
      hide Valid, SetPhase, AuthRequiredReply;
      Send(rc.number, AuthRequiredReply(m), Direct);
      Leave(rc, Closing);
    }

    method Refuse(rc: RelayConn, m: Incoming, env: Env)
      requires Valid() && Knows(rc) && EnvFor(m, env) && Barred(View(), rc.number, m)
      modifies this`peers, this`outbox, rc`phase
      ensures Valid() && View() == Handled(old(View()), RelayModel.Handle(old(View()), rc.number, m, env))
    {
      BarredCase(View(), rc.number, m, env);
      hide Valid, View, Handled, SetPhase, AuthRequiredReply, RelayModel.Handle;
      SendAuthRequired(rc, m);
    }

    method OnRegister(rc: RelayConn, name: Name, token: Token)
      requires Valid() && Knows(rc) && HoldersKnown()
      modifies rc, this`peers, this`clients, this`outbox
      ensures Valid()
      ensures var h := old(View()); var o := RelayModel.HandleRegister(h.dir, rc.number, name, token);
        View() == Handled(h, Outcome(h.(dir := o.state), o.sends))
    {
      hide Valid, HoldersKnown, RelayModel.HandleRegister;
      HandleRegister(rc, name, token);
    }

    method OnRest(rc: RelayConn, m: Incoming, env: Env)
      requires Valid() && HoldersKnown() && EnvFor(m, env) && (m.Disconnect? || m.Unknown?)
      modifies this`outbox
      ensures var h := old(View()); View() == Handled(h, Outcome(h,
        if m.Disconnect? then RelayModel.HandleDisconnect(rc.number, m.target, FindTarget(h.dir, m.target, m.token), env.oks[0])
        else [Tell(rc.number, Error("unknown message type: " + m.kind), Direct)]))
    {
      hide Valid, HoldersKnown, RelayModel.HandleDisconnect, FindTarget;
      if m.Disconnect? {
        HandleDisconnect(rc.number, m.target, m.token, env.oks[0]);
      } else {
        Send(rc.number, Error("unknown message type: " + m.kind), Direct);
      }
    }

    method OnPairing(rc: RelayConn, m: Incoming, env: Env)
      requires Valid() && Knows(rc) && HoldersKnown() && EnvFor(m, env) && !Barred(View(), rc.number, m) && OfPairing(m)
      modifies this`pairListeners, this`listens, this`held, this`outbox
      ensures View() == Handled(old(View()), RelayModel.Handle(old(View()), rc.number, m, env))
    {
      PairingCase(View(), rc.number, m, env);
      hide Valid, View, HoldersKnown, Handled, HandlePairing, RelayModel.Handle;
      DispatchPairing(rc, m, env);
    }

    method OnTunnels(rc: RelayConn, m: Incoming, env: Env)
      requires Valid() && Knows(rc) && HoldersKnown() && EnvFor(m, env) && !Barred(View(), rc.number, m) && OfTunnels(m)
      modifies this`tunnels, this`sessions, this`outbox
      ensures View() == Handled(old(View()), RelayModel.Handle(old(View()), rc.number, m, env))
    {
      TunnelCase(View(), rc.number, m, env);
      hide Valid, View, HoldersKnown, Handled, HandleTunnels, RelayModel.Handle;
      DispatchTunnels(rc, m, env);
    }

    method OnBatches(rc: RelayConn, m: Incoming, env: Env)
      requires Valid() && Knows(rc) && HoldersKnown() && EnvFor(m, env) && !Barred(View(), rc.number, m) && OfBatches(View(), m)
      modifies this`multiPending, this`subToMulti, this`arming, this`fanned, this`early, this`outbox
      ensures View() == Handled(old(View()), RelayModel.Handle(old(View()), rc.number, m, env))
    {
      BatchCase(View(), rc.number, m, env);
      hide Valid, View, HoldersKnown, Handled, HandleBatches, RelayModel.Handle;
      DispatchBatches(rc, m, env);
    }

    /** A message that is about the shared tables of batches, pairing or tunnels. */
    method DispatchShared(rc: RelayConn, m: Incoming, env: Env)
      requires Valid() && Knows(rc) && HoldersKnown() && EnvFor(m, env) && !Barred(View(), rc.number, m)
      requires OfShared(View(), m)
      modifies this`multiPending, this`subToMulti, this`arming, this`fanned, this`early, this`pairListeners, this`listens, this`held
      modifies this`tunnels, this`sessions, this`outbox
      ensures Valid() && View() == Handled(old(View()), RelayModel.Handle(old(View()), rc.number, m, env))
    {
      BatchesIf(m);
      hide Valid, View, HoldersKnown, Handled, RelayModel.Handle, Barred, OfBatches;
      if m.PairListen? || m.Pair? {
        OnPairing(rc, m, env);
      } else if m.TunnelOpen? || m.TunnelData? || m.TunnelClose? {
        OnTunnels(rc, m, env);
      } else {
        OnBatches(rc, m, env);
      }
    }

    lemma BatchesIf(m: Incoming)
      ensures OfBatches(View(), m) <==> m.ExecuteMulti? || (m.Result? && m.id in subToMulti)
    {
    }

    /** A registration, a disconnect or an unknown message. */
    method DispatchOwn(rc: RelayConn, m: Incoming, env: Env)
      requires Valid() && Knows(rc) && HoldersKnown() && EnvFor(m, env) && !Barred(View(), rc.number, m)
      requires OfOwn(m)
      modifies rc, this`peers, this`clients, this`outbox
      ensures Valid() && View() == Handled(old(View()), RelayModel.Handle(old(View()), rc.number, m, env))
    {
      OwnCases(View(), rc.number, m, env);
      hide Valid, View, HoldersKnown, Handled, RelayModel.HandleRegister, RelayModel.HandleDisconnect, FindTarget, RelayModel.Handle;
      if m.Register? {
        OnRegister(rc, m.name, m.token);
      } else {
        OnRest(rc, m, env);
      }
    }

    method DispatchAllowed(rc: RelayConn, m: Incoming, env: Env)
      requires Valid() && Knows(rc) && HoldersKnown() && EnvFor(m, env) && env.ids[0] !in pending && !Barred(View(), rc.number, m)
      modifies this, rc
      ensures conns == old(conns)
      ensures Valid() && View() == Handled(old(View()), RelayModel.Handle(old(View()), rc.number, m, env))
    {
      SharedIf(m);
      hide Valid, View, HoldersKnown, Handled, RelayModel.Handle, Barred, OfShared, OfOwn;
      if m.ExecuteMulti? || (m.Result? && m.id in subToMulti) || OfPairing(m) || OfTunnels(m) {
        DispatchShared(rc, m, env);
      } else if OfOwn(m) {
        DispatchOwn(rc, m, env);
      } else {
        DispatchRequests(rc, m, env);
      }
    }

    lemma SharedIf(m: Incoming)
      ensures OfShared(View(), m) <==> m.ExecuteMulti? || (m.Result? && m.id in subToMulti) || OfPairing(m) || OfTunnels(m)
    {
    }

    /** One message of the read loop. */
    method Dispatch(rc: RelayConn, m: Incoming, env: Env)
      requires Valid() && Knows(rc) && HoldersKnown() && EnvFor(m, env) && env.ids[0] !in pending
      modifies this, rc
      ensures conns == old(conns)
      ensures Valid() && View() == Handled(old(View()), RelayModel.Handle(old(View()), rc.number, m, env))
    {
      BarredIf(rc, m);
      hide Valid, View, Handled, SetPhase, AuthRequiredReply, RelayModel.Handle, HoldersKnown, Barred, ClientOnly;
      if !rc.authenticated && ClientOnly(m) {
        Refuse(rc, m, env);
      } else {
        DispatchAllowed(rc, m, env);
      }
    }

    lemma BarredIf(rc: RelayConn, m: Incoming)
      requires Valid() && Knows(rc)
      ensures rc.number in View().dir.peers && (Barred(View(), rc.number, m) <==> !rc.authenticated && ClientOnly(m))
    {
    }
  }

  function Marked(d: Directory, c: Conn): Directory
    requires c in d.peers
  {
    d.(peers := d.peers[c := d.peers[c].(registered := true)])
  }

  function Taken(d: Directory, c: Conn, name: Name, token: Token): Directory
    requires c in d.peers
  {
    d.(peers := d.peers[c := d.peers[c].(registered := true, name := name, token := token)], clients := d.clients[name := c])
  }

  /** The four ways in which a registration can go. */
  lemma RegisterCases(d: Directory, c: Conn, name: Name, token: Token)
    requires c in d.peers
    ensures var o, p, taken := HandleRegister(d, c, name, token), d.peers[c], name in d.clients && TokenOf(d, d.clients[name]) != token;
      if name == "" || token == "" then
        o == Outcome(Marked(d, c), [Tell(c, Error("name and token required"), Direct)])
      else if !p.authenticated && name !in d.exempt then
        o == Outcome(SetPhase(d, c, Closing), [Tell(c, Error("authentication required: relay secret not provided"), Direct)])
      else if taken then
        o == Outcome(SetPhase(d, c, Closing), [Tell(c, Error("name already registered: " + name), Direct)])
      else
        && o.state == Taken(d, c, name, token)
        && o.sends == (if name in d.clients then [Tell(d.clients[name], Error("replaced by new connection"), Direct)] else [])
                    + [Tell(c, Registered(name), Direct)]
  {
    hide SetPhase, TokenOf;
  }

  lemma FanOutBegins(b: BatchTable, d: Directory, c: Conn, job: Batch, env: Env)
    requires EnvFits(job, env)
    ensures FanOutFirst(b, d, c, job, env, 0).sends == []
    ensures FanOutFirst(b, d, c, job, env, 0).state == b.(
              multis := b.multis[env.ids[0] := Multi(c, job.id, map[], job.targets, 0, 0)], arming := b.arming[env.ids[0] := 0],
              fanned := b.fanned[env.ids[0] := Fanned(c, job.id, job.targets)])
  {
  }

  lemma FanOutGoesOn(b: BatchTable, d: Directory, c: Conn, job: Batch, env: Env, i: nat, sent: seq<Sent>)
    requires EnvFits(job, env) && i < |job.targets|
    ensures var before, m := FanOutFirst(b, d, c, job, env, i), env.ids[0];
      var turn := FanOutTo(before.state, d, m, job, job.targets[i], env.ids[i + 1], env.oks[i + 1]);
      && FanOutFirst(b, d, c, job, env, i + 1).state == turn.state
      && sent + FanOutFirst(b, d, c, job, env, i + 1).sends == sent + before.sends + turn.sends
  {
    hide FanOutTo;
  }

  predicate OfOwn(m: Incoming) { m.Register? || m.Disconnect? || m.Unknown? }

  predicate OfShared(h: Hub, m: Incoming) {
    OfBatches(h, m) || OfPairing(m) || OfTunnels(m)
  }

  lemma BarredCase(h: Hub, c: Conn, m: Incoming, env: Env)
    requires c in h.dir.peers && EnvFor(m, env) && Barred(h, c, m)
    ensures Handle(h, c, m, env) == Outcome(h.(dir := SetPhase(h.dir, c, Closing)), [Tell(c, AuthRequiredReply(m), Direct)])
  {
    hide SetPhase, AuthRequiredReply;
  }

  lemma BatchCase(h: Hub, c: Conn, m: Incoming, env: Env)
    requires c in h.dir.peers && EnvFor(m, env) && !Barred(h, c, m) && OfBatches(h, m)
    ensures Handle(h, c, m, env) == Outcome(h.(batches := HandleBatches(h, c, m, env).state), HandleBatches(h, c, m, env).sends)
  {
    hide HandleRequests, HandleBatches;
  }

  lemma PairingCase(h: Hub, c: Conn, m: Incoming, env: Env)
    requires c in h.dir.peers && EnvFor(m, env) && !Barred(h, c, m) && OfPairing(m)
    ensures Handle(h, c, m, env) == Outcome(h.(pairing := HandlePairing(h, c, m, env).state), HandlePairing(h, c, m, env).sends)
  {
    hide HandleRequests, HandleBatches, HandlePairing;
  }

  lemma TunnelCase(h: Hub, c: Conn, m: Incoming, env: Env)
    requires c in h.dir.peers && EnvFor(m, env) && !Barred(h, c, m) && OfTunnels(m)
    ensures Handle(h, c, m, env) == Outcome(h.(tunnels := HandleTunnels(h, c, m, env).state), HandleTunnels(h, c, m, env).sends)
  {
    hide HandleRequests, HandleBatches, HandleTunnels;
  }

  lemma OwnCases(h: Hub, c: Conn, m: Incoming, env: Env)
    requires c in h.dir.peers && EnvFor(m, env) && !Barred(h, c, m)
    ensures m.Register? ==>
      var o := HandleRegister(h.dir, c, m.name, m.token); Handle(h, c, m, env) == Outcome(h.(dir := o.state), o.sends)
    ensures m.Disconnect? ==>
      Handle(h, c, m, env) == Outcome(h, HandleDisconnect(c, m.target, FindTarget(h.dir, m.target, m.token), env.oks[0]))
    ensures m.Unknown? ==> Handle(h, c, m, env) == Outcome(h, [Tell(c, Error("unknown message type: " + m.kind), Direct)])
  {
    hide HandleRegister, HandleDisconnect, FindTarget;
  }

  lemma RequestCases(h: Hub, c: Conn, m: Incoming, env: Env)
    requires c in h.dir.peers && EnvFor(m, env) && !Barred(h, c, m)
    requires !OfShared(h, m) && !OfOwn(m)
    ensures OfRequests(h, m)
    ensures Handle(h, c, m, env) == Outcome(h.(requests := HandleRequests(h, c, m, env).state), HandleRequests(h, c, m, env).sends)
  {
    hide HandleRequests;
  }

  /** The hub after a handler, with what it sent at the end of the log. */
  function Handled(h: Hub, o: Outcome<Hub>): Hub {
    o.state.(log := h.log + o.sends)
  }

  /** What the end of c makes of the parts of the hub that it changes. */
  ghost predicate IsDown(d: Directory, q: RequestTable, p: PairTable, t: TunnelTable, sent: seq<Sent>, c: Conn, order: seq<Id>,
                         d': Directory, q': RequestTable, p': PairTable, t': TunnelTable, sent': seq<Sent>)
  {
    && c in d.peers
    && var gone := SetPhase(d, c, Gone);
       if d.peers[c].registered then
         && WalksTunnels(t, c, order)
         && d' == ReleaseName(gone, c) && q' == ForgetRequests(q, c) && p' == ForgetListeners(p, c) && t' == SeverTunnels(t, c)
         && sent' == sent + CloseSends(t, c, order)
       else d' == gone && q' == q && p' == p && t' == t && sent' == sent
  }

  lemma PartsMake(h: Hub, c: Conn, order: seq<Id>, h': Hub)
    requires IsDown(h.dir, h.requests, h.pairing, h.tunnels, h.log, c, order, h'.dir, h'.requests, h'.pairing, h'.tunnels, h'.log)
    requires h'.batches == h.batches && h'.used == h.used
    ensures c in h.dir.peers && (h.dir.peers[c].registered ==> WalksTunnels(h.tunnels, c, order))
    ensures h' == Handled(h, HandleDown(h, c, order))
  {
    hide WalksTunnels, CloseSends, ForgetRequests, ForgetListeners, SeverTunnels, ReleaseName, SetPhase, HandleDown;
    DownParts(h, c, order);
    assert h.log + [] == h.log;
  }

  lemma DownParts(h: Hub, c: Conn, order: seq<Id>)
    requires c in h.dir.peers && (h.dir.peers[c].registered ==> WalksTunnels(h.tunnels, c, order))
    ensures var o, gone := HandleDown(h, c, order), SetPhase(h.dir, c, Gone);
      if h.dir.peers[c].registered then
        && o.state.dir == ReleaseName(gone, c) && o.state.requests == ForgetRequests(h.requests, c)
        && o.state.pairing == ForgetListeners(h.pairing, c) && o.state.tunnels == SeverTunnels(h.tunnels, c)
        && o.state.batches == h.batches && o.state.used == h.used && o.sends == CloseSends(h.tunnels, c, order)
      else
        && o.state.dir == gone && o.state.requests == h.requests && o.state.pairing == h.pairing && o.state.tunnels == h.tunnels
        && o.state.batches == h.batches && o.state.used == h.used && o.sends == []
  {
    hide CloseSends, ForgetRequests, ForgetListeners, SeverTunnels, ReleaseName, WalksTunnels;
  }
}
