/** Who can make the hub send orders to a target. */
module Access {
  import opened Basics
  import opened Protocol
  import opened RelayModel
  import R = Requests

  /** The message names the target n and hands over the token t for it. */
  predicate Presents(m: Incoming, n: Name, t: Token) {
    if m.Execute? || m.FileTransfer? || m.Disconnect? || m.TunnelOpen? then m.target == n && m.token == t
    else m.ExecuteMulti? && n in m.batch.targets && n in m.batch.tokens && m.batch.tokens[n] == t
  }

  /** A command, the announcement of a transfer, a disconnect or the opening of a tunnel. */
  predicate IsOrder(s: Sent) {
    s.unit.Plain? && (s.unit.text.Command? || s.unit.text.FileInit? || s.unit.text.Disconnect? || s.unit.text.TunnelOpen?)
  }

  ghost predicate Allowed(h: Hub, c: Conn, m: Incoming, s: Sent) {
    && c in h.dir.peers && h.dir.peers[c].authenticated
    && exists n :: n in h.dir.clients && h.dir.clients[n] == s.to && Presents(m, n, TokenOf(h.dir, s.to))
  }

  lemma RequestOrders(h: Hub, c: Conn, m: Incoming, env: Env)
    requires c in h.dir.peers && EnvFor(m, env) && OfRequests(h, m) && !Barred(h, c, m)
    ensures forall s :: s in HandleRequests(h, c, m, env).sends && IsOrder(s) ==> Allowed(h, c, m, s)
  {
    hide Issue, Forget, DropRoute, RoutesOf;
    forall s | s in HandleRequests(h, c, m, env).sends && IsOrder(s) ensures Allowed(h, c, m, s) {
      assert m.Execute? || m.FileTransfer?;
      assert Presents(m, m.target, TokenOf(h.dir, s.to));
    }
  }

  lemma {:induction false} LoopOrders(b: BatchTable, d: Directory, c: Conn, job: Batch, env: Env, n: nat)
    requires EnvFits(job, env) && n <= |job.targets|
    ensures forall s :: s in FanOutFirst(b, d, c, job, env, n).sends ==>
      exists i :: 0 <= i < n && job.targets[i] in d.clients && d.clients[job.targets[i]] == s.to
        && Presents(ExecuteMulti(job), job.targets[i], TokenOf(d, s.to))
  {
    if n > 0 {
      LoopOrders(b, d, c, job, env, n - 1);
      var before, target := FanOutFirst(b, d, c, job, env, n - 1), job.targets[n - 1];
      var turn := FanOutTo(before.state, d, env.ids[0], job, target, env.ids[n], env.oks[n]);
      assert FanOutFirst(b, d, c, job, env, n).sends == before.sends + turn.sends;
      hide FanOutFirst;
      assert forall s :: s in turn.sends ==> target in d.clients && d.clients[target] == s.to && Presents(ExecuteMulti(job), target, TokenOf(d, s.to));
    }
  }

  lemma BatchOrders(h: Hub, c: Conn, m: Incoming, env: Env)
    requires c in h.dir.peers && EnvFor(m, env) && OfBatches(h, m) && !Barred(h, c, m)
    ensures forall s :: s in HandleBatches(h, c, m, env).sends && IsOrder(s) ==> Allowed(h, c, m, s)
  {
    if m.ExecuteMulti? { LoopOrders(h.batches, h.dir, c, m.batch, env, |m.batch.targets|); }
    hide FanOutFirst, Presents, Ordered;
  }

  lemma FoundByToken(h: Hub, c: Conn, m: Incoming, s: Sent)
    requires c in h.dir.peers && h.dir.peers[c].authenticated && (m.Disconnect? || m.TunnelOpen?)
    requires FindTarget(h.dir, m.target, m.token) == Target(s.to)
    ensures Allowed(h, c, m, s)
  {
    assert Presents(m, m.target, TokenOf(h.dir, s.to));
  }

  lemma DisconnectOrders(h: Hub, c: Conn, m: Incoming, env: Env)
    requires c in h.dir.peers && EnvFor(m, env) && !Barred(h, c, m) && m.Disconnect?
    ensures forall s :: s in HandleDisconnect(c, m.target, FindTarget(h.dir, m.target, m.token), env.oks[0]) && IsOrder(s) ==> Allowed(h, c, m, s)
  {
    hide FindTarget, Allowed;
    forall s | s in HandleDisconnect(c, m.target, FindTarget(h.dir, m.target, m.token), env.oks[0]) && IsOrder(s) ensures Allowed(h, c, m, s) {
      FoundByToken(h, c, m, s);
    }
  }

  lemma TunnelOrders(h: Hub, c: Conn, m: Incoming, env: Env)
    requires c in h.dir.peers && EnvFor(m, env) && !Barred(h, c, m) && OfTunnels(m)
    ensures forall s :: s in HandleTunnels(h, c, m, env).sends && IsOrder(s) ==> Allowed(h, c, m, s)
  {
    hide FindTarget, Allowed;
    forall s | s in HandleTunnels(h, c, m, env).sends && IsOrder(s) ensures Allowed(h, c, m, s) {
      FoundByToken(h, c, m, s);
    }
  }

  lemma PairingOrders(h: Hub, c: Conn, m: Incoming, env: Env)
    requires EnvFor(m, env) && OfPairing(m)
    ensures forall s :: s in HandlePairing(h, c, m, env).sends ==> !IsOrder(s)
  {
  }

  /**
   Only a connection that may act as a client makes the hub send a command, a transfer, a
   disconnect or a tunnel, and only to the connection that holds the name it asked for, and
   only with that connection's token.
   */
  lemma OrdersNeedTheToken(h: Hub, e: Event)
    requires Enabled(h, e)
    ensures forall s :: s in Step(h, e).sends && IsOrder(s) ==> e.Arrive? && Allowed(h, e.conn, e.message, s)
  {
    if e.Arrive? {
      var g := WithIds(h, e.env);
      if !Barred(g, e.conn, e.message) {
        if OfRequests(g, e.message) { RequestOrders(g, e.conn, e.message, e.env); }
        if OfBatches(g, e.message) { BatchOrders(g, e.conn, e.message, e.env); }
        if OfPairing(e.message) { PairingOrders(g, e.conn, e.message, e.env); }
        if OfTunnels(e.message) { TunnelOrders(g, e.conn, e.message, e.env); }
        if e.message.Disconnect? { DisconnectOrders(g, e.conn, e.message, e.env); }
      }
      hide HandleRequests, HandleBatches, HandlePairing, HandleTunnels, HandleDisconnect, FindTarget,
           OfRequests, OfBatches, OfPairing, OfTunnels,
           Presents, TokenOf;
      assert forall s :: Allowed(g, e.conn, e.message, s) ==> Allowed(h, e.conn, e.message, s);
    } else {
      hide Filled, Ordered;
    }
  }

  /** A chunk of a transfer, with its payload or as text. */
  function ChunkOf(s: Sent): Option<Id> {
    match s.unit
    case Chunk(header, _) => if header.ChunkHeader? then Some(header.id) else None
    case Plain(LegacyChunk(id, _, _, _)) => Some(id)
    case _ => None
  }

  lemma RequestChunks(h: Hub, c: Conn, m: Incoming, env: Env)
    requires EnvFor(m, env) && OfRequests(h, m) && R.TableIsOwn(h.requests)
    ensures forall s :: s in HandleRequests(h, c, m, env).sends && ChunkOf(s).Some? ==>
              R.RouteFits(h.requests, c, Route(s.to, ChunkOf(s).value)) && s.why == ToDaemon(ChunkOf(s).value)
  {
    hide FindTarget, Issue, Forget, DropRoute, R.RouteFits;
  }

  lemma BatchChunks(h: Hub, c: Conn, m: Incoming, env: Env)
    requires EnvFor(m, env) && OfBatches(h, m)
    ensures forall s :: s in HandleBatches(h, c, m, env).sends ==> ChunkOf(s).None?
  {
    if m.ExecuteMulti? { FanOutSends(h.batches, h.dir, c, m.batch, env, |m.batch.targets|); }
    hide FanOutFirst, Ordered;
  }

  lemma PairingChunks(h: Hub, c: Conn, m: Incoming, env: Env)
    requires EnvFor(m, env) && OfPairing(m)
    ensures forall s :: s in HandlePairing(h, c, m, env).sends ==> ChunkOf(s).None?
  {
  }

  lemma TunnelChunks(h: Hub, c: Conn, m: Incoming, env: Env)
    requires EnvFor(m, env) && OfTunnels(m)
    ensures forall s :: s in HandleTunnels(h, c, m, env).sends ==> ChunkOf(s).None?
  {
    hide FindTarget;
  }

  /** A chunk that a message makes the hub send follows the message's own transfer. */
  lemma MessageChunks(h: Hub, c: Conn, m: Incoming, env: Env, s: Sent)
    requires c in h.dir.peers && EnvFor(m, env) && R.TableIsOwn(h.requests)
    requires s in Handle(h, c, m, env).sends && ChunkOf(s).Some?
    ensures R.RouteFits(h.requests, c, Route(s.to, ChunkOf(s).value))
  {
    hide R.RouteFits, R.TableIsOwn, HandleRequests, HandleBatches, HandlePairing, HandleTunnels, OfRequests, OfBatches,
         OfPairing, OfTunnels, FindTarget;
    if OfRequests(h, m) { RequestChunks(h, c, m, env); }
    if OfBatches(h, m) { BatchChunks(h, c, m, env); }
    if OfPairing(m) { PairingChunks(h, c, m, env); }
    if OfTunnels(m) { TunnelChunks(h, c, m, env); }
  }

  /**
   In every run a chunk goes to the target of the transfer that it is sent for, and only the
   connection that announced the transfer makes the hub send it.
   */
  lemma ChunksFollowTheirAnnouncement(hubs: seq<Hub>, events: seq<Event>, k: nat, s: Sent)
    requires IsRun(hubs, events) && k < |events| && Enabled(hubs[k], events[k])
    requires s in Step(hubs[k], events[k]).sends && ChunkOf(s).Some?
    ensures events[k].Arrive? && R.RouteFits(hubs[k].requests, events[k].conn, Route(s.to, ChunkOf(s).value))
  {
    hide IsRun, R.RouteFits, R.TableIsOwn, Handle, Filled, Ordered;
    RunStarts(hubs, events);
    var h, e := hubs[k], events[k];
    R.IdsAlwaysOwn(hubs, events, k);
    if e.Arrive? { MessageChunks(WithIds(h, e.env), e.conn, e.message, e.env, s); }
  }
}
