/**
 What the hub makes of a message that asks for something: it passes it on to whom it is meant for,
 or tells its sender that it does not, and never reports the one for the other.
 */
module Orders {
  import opened Basics
  import opened Protocol
  import opened RelayModel
  import N = Names
  import Q = WriteQueue

  /** The messages that name a target. */
  predicate NamesTarget(m: Incoming) { m.Execute? || m.FileTransfer? || m.Disconnect? || m.TunnelOpen? }

  predicate IsWhole(m: Incoming)
    requires NamesTarget(m)
  {
    m.target != "" && (m.TunnelOpen? ==> m.tunnelId != "" && m.remoteAddr != "")
  }

  predicate MayAct(h: Hub, c: Conn) { c in h.dir.peers && h.dir.peers[c].authenticated }

  /** Connection c may act as a client, and its message is for t: t holds the name it asks for,
      and it has t's token. */
  predicate Reaches(h: Hub, c: Conn, m: Incoming, t: Conn)
    requires NamesTarget(m)
  {
    MayAct(h, c) && IsWhole(m) && m.target in h.dir.clients && h.dir.clients[m.target] == t && TokenOf(h.dir, t) == m.token
  }

  /** What the target is sent, under the id r that the hub has made up for it. */
  function OrderFor(m: Incoming, r: Id): Msg
    requires NamesTarget(m)
  {
    match m
    case Execute(_, _, _, job) => Command(r, job)
    case FileTransfer(_, _, _, announce) => FileInit(r, announce)
    case Disconnect(_, _) => Msg.Disconnect
    case TunnelOpen(id, _, _, addr) => Msg.TunnelOpen(id, addr)
  }

  function WhyFor(m: Incoming, r: Id): Why
    requires NamesTarget(m)
  {
    if m.Execute? || m.FileTransfer? then ToDaemon(r) else if m.TunnelOpen? then ForTunnel(m.tunnelId) else Direct
  }

  predicate Fails(msg: Msg, id: Id) { msg.Result? && msg.id == id && !msg.body.ok }

  /** The sender is told, under its own id if the message has one, that it failed. */
  predicate Refuses(s: Sent, c: Conn, m: Incoming) {
    s.to == c && s.unit.Plain?
    && match m
       case Execute(id, _, _, _) => Fails(s.unit.text, id)
       case FileTransfer(id, _, _, _) => Fails(s.unit.text, id)
       case FileChunk(id, _, _, _, _) => Fails(s.unit.text, id)
       case OldFileChunk(id, _, _, _) => Fails(s.unit.text, id)
       case ExecuteMulti(job) =>
         Fails(s.unit.text, job.id) || (s.unit.text.MultiResult? && s.unit.text.id == job.id && s.unit.text.results == map[] && s.unit.text.error != "")
       case TunnelOpen(id, _, _, _) => s.unit.text.TunnelOpened? && s.unit.text.tunnelId == id && s.unit.text.error != ""
       case _ => s.unit.text.Error?
  }

  /** The sender is told that it was done. */
  predicate Confirms(s: Sent, c: Conn, m: Incoming) {
    s.to == c
    && match m
       case Register(name, _) => s.unit == Q.Plain(Registered(name))
       case Pair(code, _, _, _) => s.unit == Q.Plain(PairConfirmed(code))
       case Disconnect(target, _) => s.unit == Q.Plain(DisconnectConfirmed(target))
       case _ => false
  }

  // ---- Messages that name a target ----

  /** `sends` is what was made of a message that is for t. */
  ghost predicate PassedOn(sends: seq<Sent>, c: Conn, m: Incoming, env: Env, t: Conn)
    requires NamesTarget(m) && EnvFor(m, env)
  {
    && sends != [] && sends[0] == Sent(t, Q.Plain(OrderFor(m, env.ids[0])), WhyFor(m, env.ids[0]))
    && if !env.oks[0] then |sends| == 2 && Refuses(sends[1], c, m)
       else if m.Disconnect? then |sends| == 2 && Confirms(sends[1], c, m)
       else |sends| == 1
  }

  lemma FoundIff(h: Hub, c: Conn, m: Incoming)
    requires NamesTarget(m) && MayAct(h, c) && IsWhole(m)
    ensures forall t :: Reaches(h, c, m, t) <==> FindTarget(h.dir, m.target, m.token) == Target(t)
  {
  }

  lemma BarredIsRefused(h: Hub, c: Conn, m: Incoming, env: Env)
    requires c in h.dir.peers && EnvFor(m, env) && Barred(h, c, m)
    ensures var sends := Handle(h, c, m, env).sends; |sends| == 1 && Refuses(sends[0], c, m)
  {
  }

  lemma RequestIs(h: Hub, c: Conn, m: Incoming, env: Env, found: Found)
    requires (m.Execute? || m.FileTransfer?) && EnvFor(m, env) && found == FindTarget(h.dir, m.target, m.token)
    ensures var sends := HandleRequests(h, c, m, env).sends;
      if found.Target? then PassedOn(sends, c, m, env, found.conn) else |sends| == 1 && Refuses(sends[0], c, m)
  {
    hide FindTarget, Issue, SetRoute;
  }

  lemma TunnelIs(h: Hub, c: Conn, m: Incoming, env: Env, found: Found)
    requires m.TunnelOpen? && EnvFor(m, env) && found == FindTarget(h.dir, m.target, m.token)
    ensures var sends := HandleTunnels(h, c, m, env).sends;
      if found.Target? && IsWhole(m) then PassedOn(sends, c, m, env, found.conn) else |sends| == 1 && Refuses(sends[0], c, m)
  {
  }

  lemma DisconnectIs(c: Conn, m: Incoming, env: Env, found: Found)
    requires m.Disconnect? && EnvFor(m, env)
    ensures var sends := HandleDisconnect(c, m.target, found, env.oks[0]);
      if found.Target? then PassedOn(sends, c, m, env, found.conn) else |sends| == 1 && Refuses(sends[0], c, m)
  {
  }

  /**
   A message that names a target is passed on, as it is but for its id, to the connection that
   holds that name, if and only if its sender may act as a client, has that connection's token,
   and has left nothing out; and then the sender is told of a failure if and only if the forward
   failed. If it is not passed on the sender is told just that.
   */
  lemma ForwardedOrRefused(h: Hub, e: Event)
    requires Enabled(h, e) && e.Arrive? && NamesTarget(e.message)
    ensures forall t :: Reaches(h, e.conn, e.message, t) ==> PassedOn(Step(h, e).sends, e.conn, e.message, e.env, t)
    ensures (forall t :: !Reaches(h, e.conn, e.message, t)) ==> |Step(h, e).sends| == 1 && Refuses(Step(h, e).sends[0], e.conn, e.message)
  {
    var g, c, m := WithIds(h, e.env), e.conn, e.message;
    if Barred(g, c, m) {
      BarredIsRefused(g, c, m, e.env);
      hide Handle, Refuses, PassedOn;
    } else {
      var found := FindTarget(g.dir, m.target, m.token);
      if m.Execute? || m.FileTransfer? { RequestIs(g, c, m, e.env, found); }
      if m.TunnelOpen? { TunnelIs(g, c, m, e.env, found); }
      if m.Disconnect? { DisconnectIs(c, m, e.env, found); }
      if IsWhole(m) { FoundIff(g, c, m); } else { NotWhole(g, m); }
      hide HandleRequests, HandleTunnels, HandleDisconnect, FindTarget, Refuses, PassedOn;
      if found.Target? && IsWhole(m) { assert Reaches(h, c, m, found.conn); }
    }
  }

  lemma NotWhole(h: Hub, m: Incoming)
    requires NamesTarget(m) && !IsWhole(m)
    ensures m.target == "" ==> FindTarget(h.dir, m.target, m.token).Refused?
  {
  }

  // ---- Chunks ----

  /** A chunk as the target is sent it, with its payload, under the request r. */
  function ChunkFor(m: Incoming, r: Id): Q.Unit<Msg>
    requires m.OldFileChunk? || (m.FileChunk? && m.next.Binary?)
  {
    if m.FileChunk? then Q.Chunk(ChunkHeader(r, m.index, m.final, m.compressed), m.next.data)
    else Q.Plain(LegacyChunk(r, m.index, m.data, m.final))
  }

  /**
   A chunk whose transfer its connection has announced is passed on, as it is but for its id, to
   the target of the transfer, and its sender is told of a failure if and only if that failed; it
   is told so, too, if the payload cannot be read. Any other chunk is dropped.
   */
  lemma ChunkForwardedOrRefused(h: Hub, e: Event)
    requires Enabled(h, e) && e.Arrive? && (e.message.FileChunk? || e.message.OldFileChunk?)
    ensures var sends, c, m, routes := Step(h, e).sends, e.conn, e.message, RoutesOf(h.requests, e.conn);
      if !MayAct(h, c) then |sends| == 1 && Refuses(sends[0], c, m)
      else if m.id !in routes || (m.FileChunk? && m.next.NotBinary?) then sends == []
      else if m.FileChunk? && m.next.ReadFailed? then |sends| == 1 && Refuses(sends[0], c, m)
      else
        && sends != [] && sends[0] == Sent(routes[m.id].target, ChunkFor(m, routes[m.id].req), ToDaemon(routes[m.id].req))
        && if e.env.oks[0] then |sends| == 1 else |sends| == 2 && Refuses(sends[1], c, m)
  {
    var g, c, m := WithIds(h, e.env), e.conn, e.message;
    hide Forget, DropRoute, RoutesOf;
    if Barred(g, c, m) {
      BarredIsRefused(g, c, m, e.env);
      hide Handle, Refuses;
    }
  }

  // ---- Pairing, registrations and batches ----

  /** A pair message with a code for which someone waits, and with a key if one is required. */
  predicate Matches(p: PairTable, m: Incoming)
    requires m.Pair?
  {
    && m.code != "" && m.token != "" && m.code in p.listeners
    && (p.listeners[m.code].requireKey ==> m.keyValid)
  }

  /**
   A peer whose code and key are right is confirmed, after the listener has been given its token
   and name; one without a code, a token or the right key is refused, and nobody is told anything;
   one with an unknown code gets no answer at all.
   */
  lemma PeerIsAnswered(h: Hub, e: Event)
    requires Enabled(h, e) && e.Arrive? && e.message.Pair?
    ensures var sends, c, m, p := Step(h, e).sends, e.conn, e.message, h.pairing;
      if Matches(p, m) then
        var l := p.listeners[m.code];
        && |sends| == 2 && Confirms(sends[1], c, m)
        && sends[0] == Sent(l.conn, Q.Plain(PairDone(m.code, m.token, m.hostname)), ForListener(l.stamp))
      else if m.code != "" && m.token != "" && m.code !in p.listeners then sends == []
      else |sends| == 1 && Refuses(sends[0], c, m)
  {
  }

  /** A pair_listen is refused if and only if it has no code or its sender may not act as a client;
      if not it is taken without a word. */
  lemma ListenerIsAnswered(h: Hub, e: Event)
    requires Enabled(h, e) && e.Arrive? && e.message.PairListen?
    ensures var sends, c, m := Step(h, e).sends, e.conn, e.message;
      if MayAct(h, c) && m.code != "" then sends == [] else |sends| == 1 && Refuses(sends[0], c, m)
  {
  }

  /** The name is free, or held under the same token, and c may take it. */
  predicate MayRegister(d: Directory, c: Conn, name: Name, token: Token) {
    && name != "" && token != "" && c in d.peers && (d.peers[c].authenticated || name in d.exempt)
    && (name in d.clients ==> TokenOf(d, d.clients[name]) == token)
  }

  /** A registration is confirmed if and only if it is accepted, after the one whose name it takes
      has been told; if not, the sender is told that. */
  lemma RegistrationIsAnswered(h: Hub, e: Event)
    requires Enabled(h, e) && e.Arrive? && e.message.Register?
    ensures var sends, c, m, d := Step(h, e).sends, e.conn, e.message, h.dir;
      if MayRegister(d, c, m.name, m.token) then
        && sends != [] && Confirms(sends[|sends| - 1], c, m)
        && if m.name in d.clients then |sends| == 2 && sends[0].to == d.clients[m.name] && sends[0].unit.Plain? && sends[0].unit.text.Error?
           else |sends| == 1
      else |sends| == 1 && Refuses(sends[0], c, m)
  {
    hide TokenOf;
  }

  /** A batch is fanned out, or its sender is told under its id that it is not. */
  lemma BatchIsFannedOutOrRefused(h: Hub, e: Event)
    requires Enabled(h, e) && e.Arrive? && e.message.ExecuteMulti?
    ensures var sends, c, m := Step(h, e).sends, e.conn, e.message;
      if MayAct(h, c) && m.batch.targets != [] && m.batch.cmd != "" then forall s :: s in sends ==> s.why.ToSub? && s.unit.Plain? && s.unit.text.Command?
      else |sends| == 1 && Refuses(sends[0], c, m)
  {
    var g := WithIds(h, e.env);
    if Barred(g, e.conn, e.message) {
      BarredIsRefused(g, e.conn, e.message, e.env);
      hide Handle, Refuses;
    } else {
      FanOutSends(g.batches, g.dir, e.conn, e.message.batch, e.env, |e.message.batch.targets|);
      hide FanOutFirst;
    }
  }

  /** A message of a kind that the hub does not know is answered with an error. */
  lemma UnknownIsRefused(h: Hub, e: Event)
    requires Enabled(h, e) && e.Arrive? && e.message.Unknown?
    ensures |Step(h, e).sends| == 1 && Refuses(Step(h, e).sends[0], e.conn, e.message)
  {
  }

  // ---- Being cut off ----

  /** A connection acts as a client though it may not, or asks for a name that it may not have. */
  predicate Offends(h: Hub, c: Conn, m: Incoming)
    requires c in h.dir.peers
  {
    || (ClientOnly(m) && !h.dir.peers[c].authenticated)
    || (m.Register? && m.name != "" && m.token != "" && !MayRegister(h.dir, c, m.name, m.token))
  }

  lemma CutOffIff(h: Hub, e: Event)
    requires Enabled(h, e) && e.Arrive?
    ensures e.conn in Next(h, e).dir.peers && (Next(h, e).dir.peers[e.conn].phase == Up <==> !Offends(h, e.conn, e.message))
  {
    var g := WithIds(h, e.env);
    hide HandleRequests, HandleBatches, HandlePairing, HandleTunnels, HandleDisconnect, TokenOf, AuthRequiredReply,
         OfRequests, OfBatches, OfPairing, OfTunnels;
  }

  lemma DownStaysDown(h: Hub, e: Event, c: Conn)
    requires Enabled(h, e) && c in h.dir.peers && h.dir.peers[c].phase != Up
    ensures c in Next(h, e).dir.peers && Next(h, e).dir.peers[c].phase != Up
  {
    N.DirectoryStep(h, e);
    hide Next, TokenOf;
  }

  lemma {:induction false} DownSince(hubs: seq<Hub>, events: seq<Event>, i: nat, k: nat, c: Conn)
    requires IsRun(hubs, events) && i <= k < |hubs| && c in hubs[i].dir.peers && hubs[i].dir.peers[c].phase != Up
    ensures c in hubs[k].dir.peers && hubs[k].dir.peers[c].phase != Up
  {
    hide IsRun, Enabled, Next;
    if i < k {
      RunSteps(hubs, events, k);
      DownSince(hubs, events, i, k - 1, c);
      DownStaysDown(hubs[k - 1], events[k - 1], c);
    }
  }

  /** In every run, a connection that offends is told so and never heard again; one that does not
      stays up. */
  lemma OffendersAreCutOff(hubs: seq<Hub>, events: seq<Event>, i: nat)
    requires IsRun(hubs, events) && i < |events| && events[i].Arrive?
    ensures |hubs| == |events| + 1 && Enabled(hubs[i], events[i])
    ensures var c, m := events[i].conn, events[i].message; var sends := Step(hubs[i], events[i]).sends;
      if c in hubs[i].dir.peers && Offends(hubs[i], c, m) then
        && |sends| == 1 && Refuses(sends[0], c, m)
        && forall j :: i < j < |events| && events[j].Arrive? ==> events[j].conn != c
      else c in hubs[i + 1].dir.peers && hubs[i + 1].dir.peers[c].phase == Up
  {
    RunStarts(hubs, events);
    RunSteps(hubs, events, i + 1);
    var h, c, m := hubs[i], events[i].conn, events[i].message;
    CutOffIff(h, events[i]);
    if Offends(h, c, m) {
      if m.Register? { RegistrationIsAnswered(h, events[i]); } else { BarredIsRefused(WithIds(h, events[i].env), c, m, events[i].env); }
      forall j | i < j < |events| && events[j].Arrive? ensures events[j].conn != c {
        DownSince(hubs, events, i + 1, j, c);
        RunSteps(hubs, events, j + 1);
        hide IsRun, Next, Step;
      }
    }
    hide IsRun, Next, Handle, Refuses, MayRegister;
  }
}
