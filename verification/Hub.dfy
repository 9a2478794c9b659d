/**
 The relay hub: the tables that all connections share, and what each message, and each other
 event, does to them. One handler is one step; only the fan-out of a batch and the rejection of
 a peer are two, because their handlers let go of the lock in between.
 */
module RelayModel {
  import opened Basics
  import opened Protocol
  import Q = WriteQueue

  /** Connections are numbered; a pointer to one is its number. */
  type Conn = nat
  type Code = string
  type Token = string

  /** Closing: the read loop was left, and the clean-up is still to come. */
  datatype Phase = Up | Closing | Gone

  datatype Route = Route(target: Conn, req: Id)

  /** A connection as its read loop and relayClient have it. */
  datatype Peer = Peer(authenticated: bool, phase: Phase, registered: bool, name: Name, token: Token)

  datatype Request = Request(serverId: Id, client: Conn)
  datatype Sub = Sub(multi: Id, target: Name)
  datatype Tunnel = Tunnel(client: Conn, daemon: Conn)

  /** `stamp` numbers the pair_listen that made it. */
  datatype Listener = Listener(conn: Conn, requireKey: bool, stamp: nat)

  /** A listener that the handler of a rejected peer has taken out and not put back yet. */
  datatype Held = Held(code: Code, listener: Listener)

  /** `failed` counts the forwards that failed, for the proofs. */
  datatype Multi = Multi(
    client: Conn,
    clientId: Id,
    results: map<Name, Body>,
    order: seq<Name>,
    remaining: int,
    failed: nat)

  /** On whose behalf something was sent. */
  datatype Why =
    | Direct
    | ToDaemon(req: Id)
    | ToClient(req: Id)
    | ChunkFailed(req: Id)
    | ToSub(sub: Id)
    | ForMulti(multi: Id)
    | ForListener(stamp: nat)
    | ForTunnel(tunnel: Id)

  /** One call of a send method of connection `to`. */
  datatype Sent = Sent(to: Conn, unit: Q.Unit<Msg>, why: Why)

  /** A request as it was issued. */
  datatype Issued = Issued(request: Request, target: Conn, announce: Option<Announce>, forwarded: bool)
  datatype Listen = Listen(code: Code, conn: Conn)
  datatype Fanned = Fanned(client: Conn, clientId: Id, order: seq<Name>)

  /** The connections, and those that hold a name. */
  datatype Directory = Directory(exempt: set<Name>, peers: map<Conn, Peer>, clients: map<Name, Conn>)

  /** `issued` and `lost` are histories: every request, and those that were taken out of the
      table without an answer. `routes` holds each connection's chunkRoutes. */
  datatype RequestTable = RequestTable(
    pending: map<Id, Request>,
    routes: map<Conn, map<Id, Route>>,
    issued: map<Id, Issued>,
    lost: set<Id>)

  /**
   `arming` holds the batches whose handler has counted its forwards but not yet stored the
   count; `timers` those whose timer was started. `fanned` and `early` are histories: every
   batch, and those closed before their count was stored.
   */
  datatype BatchTable = BatchTable(
    multis: map<Id, Multi>,
    subs: map<Id, Sub>,
    arming: map<Id, nat>,
    timers: set<Id>,
    fanned: map<Id, Fanned>,
    early: set<Id>)

  /** `held` belongs to the handlers that reject a peer: between their two locks others take their
      turns. `listens` is a history: every pair_listen. */
  datatype PairTable = PairTable(listeners: map<Code, Listener>, listens: seq<Listen>, held: map<Id, Held>)

  /** `sessions` is a history: every tunnel whose opening was forwarded. */
  datatype TunnelTable = TunnelTable(live: map<Id, Tunnel>, sessions: map<Id, Tunnel>)

  /** `used` holds the ids that newID has returned. */
  datatype Hub = Hub(
    dir: Directory,
    requests: RequestTable,
    batches: BatchTable,
    pairing: PairTable,
    tunnels: TunnelTable,
    used: set<Id>,
    log: seq<Sent>)

  function Init(exempt: set<Name>): Hub {
    Hub(Directory(exempt, map[], map[]), RequestTable(map[], map[], map[], {}), BatchTable(map[], map[], map[], {}, map[], {}),
        PairTable(map[], [], map[]), TunnelTable(map[], map[]), {}, [])
  }

  /** What the read after a binary chunk's header gives. */
  datatype NextFrame = Binary(data: Bytes) | NotBinary | ReadFailed

  datatype Batch = Batch(id: Id, targets: seq<Name>, tokens: map<Name, Token>, cmd: string, timeout: int)

  /** The messages that the relay reads. */
  datatype Incoming =
    | Register(name: Name, token: Token)
    | Execute(id: Id, target: Name, token: Token, job: Job)
    | FileTransfer(id: Id, target: Name, token: Token, announce: Announce)
    | FileChunk(id: Id, index: int, final: bool, compressed: bool, next: NextFrame)
    | OldFileChunk(id: Id, index: int, data: Option<Bytes>, final: bool)
    | StreamChunk(id: Id, text: string)
    | StreamEnd(id: Id, body: Body)
    | Result(id: Id, body: Body)
    | FileTransferResult(id: Id, body: Body)
    | ExecuteMulti(batch: Batch)
    | PairListen(code: Code, requireKey: bool)
    | Pair(code: Code, token: Token, hostname: string, keyValid: bool)
    | Disconnect(target: Name, token: Token)
    | TunnelOpen(tunnelId: Id, target: Name, token: Token, remoteAddr: string)
    | TunnelData(tunnelId: Id, text: string)
    | TunnelClose(tunnelId: Id)
    | Unknown(kind: string)

  /** What a handler gets from outside: the ids that newID returns, and how its forwards go. */
  datatype Env = Env(ids: seq<Id>, oks: seq<bool>)

  /** What a handler makes of its part of the state, and what it sends. */
  datatype Outcome<T> = Outcome(state: T, sends: seq<Sent>)

  function Tell(c: Conn, msg: Msg, why: Why): Sent {
    Sent(c, Q.Plain(msg), why)
  }

  function ErrResult(id: Id, text: string): Msg {
    Msg.Result(id, Body(false, text))
  }

  // ---- Registration ----

  function TokenOf(d: Directory, c: Conn): Token {
    if c in d.peers then d.peers[c].token else ""
  }

  function SetPhase(d: Directory, c: Conn, phase: Phase): Directory
    requires c in d.peers
  {
    d.(peers := d.peers[c := d.peers[c].(phase := phase)])
  }

  function HandleRegister(d: Directory, c: Conn, name: Name, token: Token): Outcome<Directory>
    requires c in d.peers
  {
    var p := d.peers[c];
    if name == "" || token == "" then
      Outcome(d.(peers := d.peers[c := p.(registered := true)]), [Tell(c, Error("name and token required"), Direct)])
    else if !p.authenticated && name !in d.exempt then
      Outcome(SetPhase(d, c, Closing), [Tell(c, Error("authentication required: relay secret not provided"), Direct)])
    else if name in d.clients && TokenOf(d, d.clients[name]) != token then
      Outcome(SetPhase(d, c, Closing), [Tell(c, Error("name already registered: " + name), Direct)])
    else
      Outcome(d.(peers := d.peers[c := p.(registered := true, name := name, token := token)], clients := d.clients[name := c]),
              (if name in d.clients then [Tell(d.clients[name], Error("replaced by new connection"), Direct)] else [])
              + [Tell(c, Registered(name), Direct)])
  }

  // ---- Requests ----

  /** The connection that a message's target and token name, or why there is none. */
  datatype Found = Target(conn: Conn) | Refused(error: string)

  function FindTarget(d: Directory, target: Name, token: Token): Found {
    if target == "" then Refused("target is required")
    else if target !in d.clients then Refused("target not connected: " + target)
    else if TokenOf(d, d.clients[target]) != token then Refused("invalid token for target: " + target)
    else Target(d.clients[target])
  }

  /** A request is put into the table, and taken out again if it cannot be forwarded. */
  function Issue(q: RequestTable, req: Id, issued: Issued): RequestTable {
    q.(pending := if issued.forwarded then q.pending[req := issued.request] else q.pending - {req},
       issued := q.issued[req := issued])
  }

  function HandleExecute(q: RequestTable, c: Conn, id: Id, found: Found, job: Job, req: Id, ok: bool): Outcome<RequestTable> {
    match found
    case Refused(error) => Outcome(q, [Tell(c, ErrResult(id, error), Direct)])
    case Target(t) =>
      Outcome(Issue(q, req, Issued(Request(id, c), t, None, ok)),
              [Tell(t, Command(req, job), ToDaemon(req))]
              + (if ok then [] else [Tell(c, ErrResult(id, "failed to forward command"), ToClient(req))]))
  }

  function RoutesOf(q: RequestTable, c: Conn): map<Id, Route> {
    if c in q.routes then q.routes[c] else map[]
  }

  function SetRoute(q: RequestTable, c: Conn, id: Id, route: Route): RequestTable {
    q.(routes := q.routes[c := RoutesOf(q, c)[id := route]])
  }

  function DropRoute(q: RequestTable, c: Conn, id: Id): RequestTable {
    q.(routes := q.routes[c := RoutesOf(q, c) - {id}])
  }

  function HandleFileTransfer(q: RequestTable, c: Conn, id: Id, found: Found, a: Announce, req: Id, ok: bool): Outcome<RequestTable> {
    match found
    case Refused(error) => Outcome(q, [Tell(c, ErrResult(id, error), Direct)])
    case Target(t) =>
      var q' := Issue(q, req, Issued(Request(id, c), t, Some(a), ok));
      var forward := Tell(t, FileInit(req, a), ToDaemon(req));
      if !ok then Outcome(q', [forward, Tell(c, ErrResult(id, "failed to forward file transfer"), ToClient(req))])
      else Outcome(if a.chunked then SetRoute(q', c, id, Route(t, req)) else q', [forward])
  }

  function Forget(q: RequestTable, req: Id): RequestTable {
    q.(pending := q.pending - {req}, lost := if req in q.pending then q.lost + {req} else q.lost)
  }

  /** A chunk that cannot be forwarded ends its transfer. */
  function FailChunk(q: RequestTable, c: Conn, id: Id, req: Id, forwarded: seq<Sent>, text: string): Outcome<RequestTable> {
    Outcome(Forget(DropRoute(q, c, id), req), forwarded + [Tell(c, ErrResult(id, text), ChunkFailed(req))])
  }

  function ForwardChunk(q: RequestTable, c: Conn, id: Id, unit: Q.Unit<Msg>, final: bool, ok: bool): Outcome<RequestTable>
    requires id in RoutesOf(q, c)
  {
    var route := RoutesOf(q, c)[id];
    var forward := Sent(route.target, unit, ToDaemon(route.req));
    if !ok then FailChunk(q, c, id, route.req, [forward], "failed to forward file chunk")
    else Outcome(if final then DropRoute(q, c, id) else q, [forward])
  }

  /** A chunk without a route is dropped; so is a header that no binary frame follows. */
  function HandleFileChunk(q: RequestTable, c: Conn, id: Id, index: int, final: bool, compressed: bool, next: NextFrame, ok: bool):
    Outcome<RequestTable>
  {
    if id !in RoutesOf(q, c) || next.NotBinary? then Outcome(q, [])
    else
      var req := RoutesOf(q, c)[id].req;
      if next.ReadFailed? then FailChunk(q, c, id, req, [], "failed to read binary chunk payload")
      else ForwardChunk(q, c, id, Q.Chunk(ChunkHeader(req, index, final, compressed), next.data), final, ok)
  }

  function HandleOldFileChunk(q: RequestTable, c: Conn, id: Id, index: int, data: Option<Bytes>, final: bool, ok: bool):
    Outcome<RequestTable>
  {
    if id !in RoutesOf(q, c) then Outcome(q, [])
    else ForwardChunk(q, c, id, Q.Plain(LegacyChunk(RoutesOf(q, c)[id].req, index, data, final)), final, ok)
  }

  /** The messages that come in under a request's id. */
  predicate Relayable(m: Incoming) {
    m.StreamChunk? || m.StreamEnd? || m.Result? || m.FileTransferResult?
  }

  type Reply = m: Incoming | Relayable(m) witness Incoming.StreamChunk("", "")

  /** A message under a request's id goes, under the client's own id, to its client; any but
      a stream_chunk closes the request. */
  function Relay(q: RequestTable, m: Reply): Outcome<RequestTable>
  {
    if m.id !in q.pending then Outcome(q, [])
    else
      var request := q.pending[m.id];
      Outcome(if m.StreamChunk? then q else q.(pending := q.pending - {m.id}),
              [Tell(request.client, Readdressed(m, request.serverId), ToClient(m.id))])
  }

  function Readdressed(m: Reply, id: Id): Msg
  {
    match m
    case StreamChunk(_, text) => Msg.StreamChunk(id, text)
    case StreamEnd(_, body) => Msg.StreamEnd(id, body)
    case Result(_, body) => Msg.Result(id, body)
    case FileTransferResult(_, body) => Msg.Result(id, body)
  }

  // ---- Batches ----

  function Ordered(e: Multi): map<Name, Body> {
    map n | n in e.results && n in e.order :: e.results[n]
  }

  function MultiReply(m: Id, e: Multi): Sent {
    Tell(e.client, MultiResult(e.clientId, Ordered(e), ""), ForMulti(m))
  }

  function SetResult(b: BatchTable, m: Id, target: Name, body: Body): BatchTable
    requires m in b.multis
  {
    b.(multis := b.multis[m := b.multis[m].(results := b.multis[m].results[target := body])])
  }

  function SetFailed(b: BatchTable, m: Id, target: Name): BatchTable
    requires m in b.multis
  {
    var e := b.multis[m];
    b.(multis := b.multis[m := e.(results := e.results[target := Body(false, "forward failed")], failed := e.failed + 1)])
  }

  function HandleSubResult(b: BatchTable, id: Id, body: Body): Outcome<BatchTable>
    requires id in b.subs
  {
    var sub := b.subs[id];
    var b' := b.(subs := b.subs - {id});
    if sub.multi !in b.multis then Outcome(b', [])
    else
      var e := b.multis[sub.multi];
      var e' := e.(results := e.results[sub.target := body], remaining := e.remaining - 1);
      if e'.remaining > 0 then Outcome(b'.(multis := b.multis[sub.multi := e']), [])
      else
        Outcome(b'.(multis := b.multis - {sub.multi}, early := if sub.multi in b.arming then b.early + {sub.multi} else b.early),
                [MultiReply(sub.multi, e')])
  }

  /** The loop's turn for one target. */
  function FanOutTo(b: BatchTable, d: Directory, m: Id, job: Batch, target: Name, sub: Id, ok: bool): Outcome<BatchTable>
    requires m in b.multis && m in b.arming
  {
    if target !in d.clients then Outcome(SetResult(b, m, target, Body(false, "target not connected")), [])
    else if target !in job.tokens || TokenOf(d, d.clients[target]) != job.tokens[target] then
      Outcome(SetResult(b, m, target, Body(false, "invalid token")), [])
    else
      var counted := b.(arming := b.arming[m := b.arming[m] + 1]);
      var forward := Tell(d.clients[target], Command(sub, Job(job.cmd, job.timeout, false, "")), ToSub(sub));
      if ok then Outcome(counted.(subs := b.subs[sub := Sub(m, target)]), [forward])
      else Outcome(SetFailed(counted.(subs := b.subs - {sub}), m, target), [forward])
  }

  predicate EnvFits(job: Batch, env: Env) {
    |env.ids| == |env.oks| == |job.targets| + 1
  }

  /** The loop's first n turns. */
  function FanOutFirst(b: BatchTable, d: Directory, c: Conn, job: Batch, env: Env, n: nat): (r: Outcome<BatchTable>)
    requires EnvFits(job, env) && n <= |job.targets|
    ensures env.ids[0] in r.state.multis && env.ids[0] in r.state.arming
  {
    var m := env.ids[0];
    if n == 0 then
      Outcome(b.(multis := b.multis[m := Multi(c, job.id, map[], job.targets, 0, 0)], arming := b.arming[m := 0],
                 fanned := b.fanned[m := Fanned(c, job.id, job.targets)]), [])
    else
      var before := FanOutFirst(b, d, c, job, env, n - 1);
      var next := FanOutTo(before.state, d, m, job, job.targets[n - 1], env.ids[n], env.oks[n]);
      Outcome(next.state, before.sends + next.sends)
  }

  function HandleExecuteMulti(b: BatchTable, d: Directory, c: Conn, job: Batch, env: Env): Outcome<BatchTable>
    requires EnvFits(job, env)
  {
    if job.targets == [] || job.cmd == "" then Outcome(b, [Tell(c, ErrResult(job.id, "targets and cmd are required"), Direct)])
    else FanOutFirst(b, d, c, job, env, |job.targets|)
  }

  /** What the handler does once it has let go of the lock: the count is stored and the timer
      started, unless nothing was forwarded. */
  function HandleArm(b: BatchTable, m: Id): Outcome<BatchTable>
    requires m in b.arming
  {
    var count := b.arming[m];
    var b' := b.(arming := b.arming - {m});
    if count > 0 then
      Outcome(b'.(timers := b.timers + {m}, multis := if m in b.multis then b.multis[m := b.multis[m].(remaining := count)] else b.multis), [])
    else if m in b.multis then Outcome(b'.(multis := b.multis - {m}), [MultiReply(m, b.multis[m])])
    else Outcome(b', [])
  }

  function Filled(e: Multi): Multi {
    e.(results := map n | n in e.results.Keys + (set t | t in e.order) ::
         if n in e.results then e.results[n] else Body(false, "timed out waiting for result"))
  }

  /** The timer of a batch; one that finds its batch closed does nothing. */
  function HandleFire(b: BatchTable, m: Id): Outcome<BatchTable> {
    var b' := b.(timers := b.timers - {m});
    if m !in b.multis then Outcome(b', [])
    else
      Outcome(b'.(multis := b.multis - {m}, subs := map s | s in b.subs && b.subs[s].multi != m :: b.subs[s]),
              [MultiReply(m, Filled(b.multis[m]))])
  }

  // ---- Pairing ----

  function HandlePairListen(p: PairTable, c: Conn, code: Code, requireKey: bool): Outcome<PairTable> {
    if code == "" then Outcome(p, [Tell(c, Error("pair_listen requires code"), Direct)])
    else
      Outcome(p.(listeners := p.listeners[code := Listener(c, requireKey, |p.listens|)], listens := p.listens + [Listen(code, c)]), [])
  }

  /** A peer takes the listener out. One that has no valid key where one is required is rejected,
      and its handler holds the listener, as `holder`, until it has the lock again. */
  function HandlePair(p: PairTable, c: Conn, code: Code, token: Token, hostname: string, keyValid: bool, holder: Id): Outcome<PairTable> {
    if code == "" || token == "" then Outcome(p, [Tell(c, Error("pair requires code and token"), Direct)])
    else if code !in p.listeners then Outcome(p, [])
    else
      var l := p.listeners[code];
      var taken := p.(listeners := p.listeners - {code});
      if l.requireKey && !keyValid then
        Outcome(taken.(held := p.held[holder := Held(code, l)]),
                [Tell(c, Error("pair rejected: activation key required but not provided or invalid"), Direct)])
      else
        Outcome(taken, [Tell(l.conn, PairDone(code, token, hostname), ForListener(l.stamp)), Tell(c, PairConfirmed(code), Direct)])
  }

  /** The handler of a rejected peer puts the listener back, whatever has happened meanwhile. */
  function HandlePutBack(p: PairTable, holder: Id): PairTable
    requires holder in p.held
  {
    p.(listeners := p.listeners[p.held[holder].code := p.held[holder].listener], held := p.held - {holder})
  }

  function HandleDisconnect(c: Conn, target: Name, found: Found, ok: bool): seq<Sent> {
    match found
    case Refused(error) => [Tell(c, Error(if target == "" then "disconnect requires target" else error), Direct)]
    case Target(t) =>
      [Tell(t, Msg.Disconnect, Direct),
       Tell(c, if ok then DisconnectConfirmed(target) else Error("failed to forward disconnect"), Direct)]
  }

  // ---- Tunnels ----

  function HandleTunnelOpen(t: TunnelTable, c: Conn, id: Id, target: Name, found: Found, addr: string, ok: bool): Outcome<TunnelTable> {
    if target == "" || id == "" || addr == "" then
      Outcome(t, [Tell(c, TunnelOpened(id, "target, tunnel_id, and remote_addr are required"), Direct)])
    else if found.Refused? then Outcome(t, [Tell(c, TunnelOpened(id, found.error), Direct)])
    else
      var tunnel := Tunnel(c, found.conn);
      var forward := Tell(found.conn, Msg.TunnelOpen(id, addr), ForTunnel(id));
      if ok then Outcome(TunnelTable(t.live[id := tunnel], t.sessions[id := tunnel]), [forward])
      else
        Outcome(t.(live := t.live - {id}), [forward, Tell(c, TunnelOpened(id, "failed to forward tunnel request"), Direct)])
  }

  /** The end of a tunnel that is not c. */
  function OtherEnd(t: Tunnel, c: Conn): Conn {
    if t.client == c then t.daemon else t.client
  }

  function HandleTunnelRelay(t: TunnelTable, c: Conn, id: Id, text: string): seq<Sent> {
    if id !in t.live then [] else [Tell(OtherEnd(t.live[id], c), TunnelMsg(id, text), ForTunnel(id))]
  }

  function HandleTunnelClose(t: TunnelTable, c: Conn, id: Id): Outcome<TunnelTable> {
    if id !in t.live then Outcome(t, [])
    else Outcome(t.(live := t.live - {id}), [Tell(OtherEnd(t.live[id], c), Msg.TunnelClose(id), ForTunnel(id))])
  }

  // ---- The end of a connection ----

  /** The tunnels of c. */
  function TunnelsOf(t: TunnelTable, c: Conn): set<Id> {
    set id | id in t.live && (t.live[id].client == c || t.live[id].daemon == c)
  }

  /** `order` is an order in which the map may be walked. */
  ghost predicate WalksTunnels(t: TunnelTable, c: Conn, order: seq<Id>) {
    Distinct(order) && forall id :: id in order <==> id in TunnelsOf(t, c)
  }

  /** The close messages for tunnels of c. */
  function CloseSends(t: TunnelTable, c: Conn, order: seq<Id>): seq<Sent>
    requires forall id :: id in order ==> id in t.live
  {
    seq(|order|, i requires 0 <= i < |order| => Tell(OtherEnd(t.live[order[i]], c), Msg.TunnelClose(order[i]), ForTunnel(order[i])))
  }

  function ReleaseName(d: Directory, c: Conn): Directory
    requires c in d.peers
  {
    var name := d.peers[c].name;
    if name in d.clients && d.clients[name] == c then d.(clients := d.clients - {name}) else d
  }

  function RequestsOf(q: RequestTable, c: Conn): set<Id> {
    set r | r in q.pending && q.pending[r].client == c
  }

  function ForgetRequests(q: RequestTable, c: Conn): RequestTable {
    q.(pending := q.pending - RequestsOf(q, c), lost := q.lost + RequestsOf(q, c))
  }

  function ForgetListeners(p: PairTable, c: Conn): PairTable {
    p.(listeners := map code | code in p.listeners && p.listeners[code].conn != c :: p.listeners[code])
  }

  function SeverTunnels(t: TunnelTable, c: Conn): TunnelTable {
    t.(live := t.live - TunnelsOf(t, c))
  }

  ghost function Unregister(h: Hub, c: Conn, order: seq<Id>): Outcome<Hub>
    requires c in h.dir.peers && WalksTunnels(h.tunnels, c, order)
  {
    Outcome(h.(dir := ReleaseName(h.dir, c), requests := ForgetRequests(h.requests, c), pairing := ForgetListeners(h.pairing, c),
               tunnels := SeverTunnels(h.tunnels, c)),
            CloseSends(h.tunnels, c, order))
  }

  /** The read loop's deferred clean-up: only a connection that registered is unregistered. */
  ghost function HandleDown(h: Hub, c: Conn, order: seq<Id>): Outcome<Hub>
    requires c in h.dir.peers && (h.dir.peers[c].registered ==> WalksTunnels(h.tunnels, c, order))
  {
    var h' := h.(dir := SetPhase(h.dir, c, Gone));
    if h.dir.peers[c].registered then Unregister(h', c, order) else Outcome(h', [])
  }

  // ---- Dispatch ----

  predicate ClientOnly(m: Incoming) {
    m.Execute? || m.ExecuteMulti? || m.FileTransfer? || m.FileChunk? || m.OldFileChunk? || m.PairListen? || m.Disconnect? || m.TunnelOpen?
  }

  const AUTH_REQUIRED := "authentication required: relay secret not provided"

  function AuthRequiredReply(m: Incoming): Msg
    requires ClientOnly(m)
  {
    match m
    case ExecuteMulti(job) => MultiResult(job.id, map[], AUTH_REQUIRED)
    case TunnelOpen(id, _, _, _) => TunnelOpened(id, AUTH_REQUIRED)
    case PairListen(_, _) => Error(AUTH_REQUIRED)
    case Disconnect(_, _) => Error(AUTH_REQUIRED)
    case Execute(id, _, _, _) => ErrResult(id, AUTH_REQUIRED)
    case FileTransfer(id, _, _, _) => ErrResult(id, AUTH_REQUIRED)
    case FileChunk(id, _, _, _, _) => ErrResult(id, AUTH_REQUIRED)
    case OldFileChunk(id, _, _, _) => ErrResult(id, AUTH_REQUIRED)
  }

  /** A batch needs an id and an outcome for each target, and one id for itself. */
  predicate EnvFor(m: Incoming, env: Env) {
    if m.ExecuteMulti? then EnvFits(m.batch, env) else |env.ids| == |env.oks| == 1
  }

  /** A connection without the relay's secret may not act as a client. */
  predicate Barred(h: Hub, c: Conn, m: Incoming)
    requires c in h.dir.peers
  {
    !h.dir.peers[c].authenticated && ClientOnly(m)
  }

  predicate OfRequests(h: Hub, m: Incoming) {
    m.Execute? || m.FileTransfer? || m.FileChunk? || m.OldFileChunk? || m.StreamChunk? || m.StreamEnd?
    || (m.Result? && m.id !in h.batches.subs) || m.FileTransferResult?
  }

  function HandleRequests(h: Hub, c: Conn, m: Incoming, env: Env): Outcome<RequestTable>
    requires EnvFor(m, env) && OfRequests(h, m)
  {
    var q := h.requests;
    match m
    case Execute(id, target, token, job) => HandleExecute(q, c, id, FindTarget(h.dir, target, token), job, env.ids[0], env.oks[0])
    case FileTransfer(id, target, token, a) => HandleFileTransfer(q, c, id, FindTarget(h.dir, target, token), a, env.ids[0], env.oks[0])
    case FileChunk(id, index, final, compressed, next) => HandleFileChunk(q, c, id, index, final, compressed, next, env.oks[0])
    case OldFileChunk(id, index, data, final) => HandleOldFileChunk(q, c, id, index, data, final, env.oks[0])
    case _ => Relay(q, m)
  }

  predicate OfBatches(h: Hub, m: Incoming) {
    m.ExecuteMulti? || (m.Result? && m.id in h.batches.subs)
  }

  function HandleBatches(h: Hub, c: Conn, m: Incoming, env: Env): Outcome<BatchTable>
    requires EnvFor(m, env) && OfBatches(h, m)
  {
    if m.Result? then HandleSubResult(h.batches, m.id, m.body)
    else HandleExecuteMulti(h.batches, h.dir, c, m.batch, env)
  }

  predicate OfPairing(m: Incoming) { m.PairListen? || m.Pair? }

  function HandlePairing(h: Hub, c: Conn, m: Incoming, env: Env): Outcome<PairTable>
    requires EnvFor(m, env) && OfPairing(m)
  {
    if m.PairListen? then HandlePairListen(h.pairing, c, m.code, m.requireKey)
    else HandlePair(h.pairing, c, m.code, m.token, m.hostname, m.keyValid, env.ids[0])
  }

  predicate OfTunnels(m: Incoming) { m.TunnelOpen? || m.TunnelData? || m.TunnelClose? }

  function HandleTunnels(h: Hub, c: Conn, m: Incoming, env: Env): Outcome<TunnelTable>
    requires EnvFor(m, env) && OfTunnels(m)
  {
    match m
    case TunnelOpen(id, target, token, addr) =>
      HandleTunnelOpen(h.tunnels, c, id, target, FindTarget(h.dir, target, token), addr, env.oks[0])
    case TunnelData(id, text) => Outcome(h.tunnels, HandleTunnelRelay(h.tunnels, c, id, text))
    case TunnelClose(id) => HandleTunnelClose(h.tunnels, c, id)
  }

  function Handle(h: Hub, c: Conn, m: Incoming, env: Env): Outcome<Hub>
    requires c in h.dir.peers && EnvFor(m, env)
  {
    if Barred(h, c, m) then Outcome(h.(dir := SetPhase(h.dir, c, Closing)), [Tell(c, AuthRequiredReply(m), Direct)])
    else if OfRequests(h, m) then var o := HandleRequests(h, c, m, env); Outcome(h.(requests := o.state), o.sends)
    else if OfBatches(h, m) then var o := HandleBatches(h, c, m, env); Outcome(h.(batches := o.state), o.sends)
    else if OfPairing(m) then var o := HandlePairing(h, c, m, env); Outcome(h.(pairing := o.state), o.sends)
    else if OfTunnels(m) then var o := HandleTunnels(h, c, m, env); Outcome(h.(tunnels := o.state), o.sends)
    else if m.Register? then var o := HandleRegister(h.dir, c, m.name, m.token); Outcome(h.(dir := o.state), o.sends)
    else if m.Disconnect? then Outcome(h, HandleDisconnect(c, m.target, FindTarget(h.dir, m.target, m.token), env.oks[0]))
    else Outcome(h, [Tell(c, Error("unknown message type: " + m.kind), Direct)])
  }

  // ---- Runs ----

  datatype Event =
    | Connect(conn: Conn, authenticated: bool)
    | Arrive(conn: Conn, message: Incoming, env: Env)
    | Arm(multi: Id)
    | Fire(multi: Id)
    | PutBack(holder: Id)
    | Down(conn: Conn, order: seq<Id>)

  ghost predicate Enabled(h: Hub, e: Event) {
    match e
    case Connect(c, _) => c !in h.dir.peers
    case Arrive(c, m, env) =>
      && c in h.dir.peers && h.dir.peers[c].phase == Up && EnvFor(m, env)
      && Distinct(env.ids) && (forall id :: id in env.ids ==> id !in h.used)
    case Arm(m) => m in h.batches.arming
    case Fire(m) => m in h.batches.timers
    case PutBack(holder) => holder in h.pairing.held
    case Down(c, order) =>
      c in h.dir.peers && h.dir.peers[c].phase != Gone && (h.dir.peers[c].registered ==> WalksTunnels(h.tunnels, c, order))
  }

  ghost function Step(h: Hub, e: Event): Outcome<Hub>
    requires Enabled(h, e)
  {
    match e
    case Connect(c, auth) => Outcome(h.(dir := h.dir.(peers := h.dir.peers[c := Peer(auth, Up, false, "", "")])), [])
    case Arrive(c, m, env) => Handle(h.(used := h.used + set id | id in env.ids), c, m, env)
    case Arm(m) => var o := HandleArm(h.batches, m); Outcome(h.(batches := o.state), o.sends)
    case Fire(m) => var o := HandleFire(h.batches, m); Outcome(h.(batches := o.state), o.sends)
    case PutBack(holder) => Outcome(h.(pairing := HandlePutBack(h.pairing, holder)), [])
    case Down(c, order) => HandleDown(h, c, order)
  }

  ghost function Next(h: Hub, e: Event): Hub
    requires Enabled(h, e)
  {
    var o := Step(h, e);
    o.state.(log := h.log + o.sends)
  }

  /** A run of the hub from its start: the hubs passed through, one more than the events. */
  ghost predicate IsRun(hubs: seq<Hub>, events: seq<Event>) {
    && |hubs| == |events| + 1
    && hubs[0] == Init(hubs[0].dir.exempt)
    && forall i {:trigger events[i]} :: 0 <= i < |events| ==> Enabled(hubs[i], events[i]) && hubs[i + 1] == Next(hubs[i], events[i])
  }

  lemma RunBegins(exempt: set<Name>)
    ensures IsRun([Init(exempt)], [])
  {
  }

  lemma RunGoesOn(hubs: seq<Hub>, events: seq<Event>, e: Event, h: Hub)
    requires IsRun(hubs, events) && Enabled(hubs[|events|], e) && h == Next(hubs[|events|], e)
    ensures IsRun(hubs + [h], events + [e])
  {
    hide Enabled, Next, Init;
  }

  lemma RunStarts(hubs: seq<Hub>, events: seq<Event>)
    requires IsRun(hubs, events)
    ensures |hubs| == |events| + 1 && hubs[0] == Init(hubs[0].dir.exempt)
  {
  }

  lemma RunSteps(hubs: seq<Hub>, events: seq<Event>, k: nat)
    requires IsRun(hubs, events) && 0 < k < |hubs|
    ensures |hubs| == |events| + 1 && Enabled(hubs[k - 1], events[k - 1]) && hubs[k] == Next(hubs[k - 1], events[k - 1])
  {
  }

  // ---- What was sent on someone's behalf ----

  function About(log: seq<Sent>, why: Why): seq<Sent> {
    if log == [] then []
    else
      var n := |log| - 1;
      About(log[..n], why) + (if log[n].why == why then [log[n]] else [])
  }

  lemma {:induction false} AboutConcat(a: seq<Sent>, b: seq<Sent>, why: Why)
    ensures About(a + b, why) == About(a, why) + About(b, why)
    decreases |b|
  {
    if b == [] {
      assert a + b == a;
    } else {
      var n := |b| - 1;
      AboutConcat(a, b[..n], why);
      assert (a + b)[..|a + b| - 1] == a + b[..n];
    }
  }

  lemma AboutOne(s: Sent, why: Why)
    ensures About([s], why) == if s.why == why then [s] else []
  {
    assert [s][..0] == [];
  }

  lemma AboutTwo(s: Sent, t: Sent, why: Why)
    ensures About([s, t], why) == (if s.why == why then [s] else []) + (if t.why == why then [t] else [])
  {
    assert [s, t] == [s] + [t];
    AboutConcat([s], [t], why);
    AboutOne(s, why);
    AboutOne(t, why);
  }

  lemma {:induction false} AboutNone(log: seq<Sent>, why: Why)
    requires forall i :: 0 <= i < |log| ==> log[i].why != why
    ensures About(log, why) == []
  {
    if log != [] { AboutNone(log[..|log| - 1], why); }
  }

  lemma AboutSingle(log: seq<Sent>, n: nat, why: Why)
    requires n < |log| && log[n].why == why && forall i :: 0 <= i < |log| && i != n ==> log[i].why != why
    ensures About(log, why) == [log[n]]
  {
    hide About;
    assert log == log[..n] + ([log[n]] + log[n + 1..]);
    AboutConcat(log[..n], [log[n]] + log[n + 1..], why);
    AboutConcat([log[n]], log[n + 1..], why);
    AboutNone(log[..n], why);
    AboutOne(log[n], why);
    AboutNone(log[n + 1..], why);
  }

  /** What the hub is like when a message's handler starts: its ids are handed out. */
  function WithIds(h: Hub, env: Env): Hub {
    h.(used := h.used + set id | id in env.ids)
  }

  lemma {:induction false} FanOutSends(b: BatchTable, d: Directory, c: Conn, job: Batch, env: Env, n: nat)
    requires EnvFits(job, env) && n <= |job.targets|
    ensures forall s :: s in FanOutFirst(b, d, c, job, env, n).sends ==> s.why.ToSub? && s.unit.Plain? && s.unit.text.Command?
  {
    if n > 0 {
      FanOutSends(b, d, c, job, env, n - 1);
      var before := FanOutFirst(b, d, c, job, env, n - 1);
      hide FanOutFirst;
      var m := env.ids[0];
    }
  }

  /** Each part of the hub sends under its own tags only. */
  ghost predicate OwnTags(h: Hub, e: Event, w: Why) {
    match w
    case Direct => true
    case ToDaemon(_) => e.Arrive? && OfRequests(h, e.message)
    case ToClient(_) => e.Arrive? && OfRequests(h, e.message)
    case ChunkFailed(_) => e.Arrive? && OfRequests(h, e.message)
    case ToSub(_) => e.Arrive? && OfBatches(h, e.message)
    case ForMulti(_) => e.Arm? || e.Fire? || (e.Arrive? && OfBatches(h, e.message))
    case ForListener(_) => e.Arrive? && OfPairing(e.message)
    case ForTunnel(_) => e.Down? || (e.Arrive? && OfTunnels(e.message))
  }

  lemma RequestTags(h: Hub, c: Conn, m: Incoming, env: Env)
    requires EnvFor(m, env) && OfRequests(h, m)
    ensures forall s :: s in HandleRequests(h, c, m, env).sends ==> s.why.Direct? || s.why.ToDaemon? || s.why.ToClient? || s.why.ChunkFailed?
  {
    hide FindTarget, Issue, Forget, DropRoute;
  }

  lemma BatchTags(h: Hub, c: Conn, m: Incoming, env: Env)
    requires EnvFor(m, env) && OfBatches(h, m)
    ensures forall s :: s in HandleBatches(h, c, m, env).sends ==> s.why.Direct? || s.why.ToSub? || s.why.ForMulti?
  {
    hide FanOutFirst, Ordered;
    if m.ExecuteMulti? { FanOutSends(h.batches, h.dir, c, m.batch, env, |m.batch.targets|); }
  }

  lemma PairTags(h: Hub, c: Conn, m: Incoming, env: Env)
    requires EnvFor(m, env) && OfPairing(m)
    ensures forall s :: s in HandlePairing(h, c, m, env).sends ==> s.why.Direct? || s.why.ForListener?
  {
  }

  lemma TunnelTags(h: Hub, c: Conn, m: Incoming, env: Env)
    requires EnvFor(m, env) && OfTunnels(m)
    ensures forall s :: s in HandleTunnels(h, c, m, env).sends ==> s.why.Direct? || s.why.ForTunnel?
  {
    hide FindTarget;
  }

  lemma OwnWordTags(h: Hub, c: Conn, m: Incoming, env: Env)
    requires c in h.dir.peers && EnvFor(m, env)
    ensures m.Register? ==> forall s :: s in HandleRegister(h.dir, c, m.name, m.token).sends ==> s.why.Direct?
    ensures m.Disconnect? ==>
      forall s :: s in HandleDisconnect(c, m.target, FindTarget(h.dir, m.target, m.token), env.oks[0]) ==> s.why.Direct?
  {
    hide FindTarget;
  }

  lemma HandleTags(h: Hub, c: Conn, m: Incoming, env: Env)
    requires c in h.dir.peers && EnvFor(m, env)
    ensures forall s :: s in Handle(h, c, m, env).sends ==> OwnTags(h, Arrive(c, m, env), s.why)
  {
    hide FindTarget, HandleRequests, HandleBatches, HandlePairing, HandleTunnels, OfRequests, OfBatches,
         OfPairing, OfTunnels, HandleRegister, HandleDisconnect, AuthRequiredReply;
    if OfRequests(h, m) { RequestTags(h, c, m, env); }
    if OfBatches(h, m) { BatchTags(h, c, m, env); }
    if OfPairing(m) { PairTags(h, c, m, env); }
    if OfTunnels(m) { TunnelTags(h, c, m, env); }
    OwnWordTags(h, c, m, env);
  }

  lemma StepTags(h: Hub, e: Event)
    requires Enabled(h, e)
    ensures forall s :: s in Step(h, e).sends ==> OwnTags(h, e, s.why)
  {
    hide Handle, Filled, Unregister;
    if e.Arrive? {
      HandleTags(WithIds(h, e.env), e.conn, e.message, e.env);
    } else if e.Down? {
      DownTags(h, e.conn, e.order);
    }
  }

  lemma DownTags(h: Hub, c: Conn, order: seq<Id>)
    requires c in h.dir.peers && (h.dir.peers[c].registered ==> WalksTunnels(h.tunnels, c, order))
    ensures forall s :: s in HandleDown(h, c, order).sends ==> s.why.ForTunnel?
  {
  }

  /** A step adds to what was sent on someone's behalf just what it sends itself. */
  lemma NextAbout(h: Hub, e: Event, why: Why)
    requires Enabled(h, e)
    ensures About(Next(h, e).log, why) == About(h.log, why) + About(Step(h, e).sends, why)
    ensures !OwnTags(h, e, why) ==> About(Next(h, e).log, why) == About(h.log, why)
  {
    AboutConcat(h.log, Step(h, e).sends, why);
    StepTags(h, e);
    hide Step, Enabled;
    if !OwnTags(h, e, why) { AboutNone(Step(h, e).sends, why); }
  }
}
