/**
 What the hub makes of one forwarded request: it is open, answered or lost, and its client
 gets, in order, what came in under its id, up to the first message that ends it.
 */
module Requests {
  import opened Basics
  import opened Protocol
  import opened RelayModel
  import Q = WriteQueue

  // ---- Ids ----

  predicate IsFile(q: RequestTable, req: Id) {
    req in q.issued && q.issued[req].announce.Some?
  }

  /** A route of connection c is for a file transfer that c announced, and leads to its target. */
  predicate RouteFits(q: RequestTable, c: Conn, route: Route) {
    IsFile(q, route.req) && q.issued[route.req].target == route.target && q.issued[route.req].request.client == c
  }

  /** Open requests are as they were issued; chunks are routed as their transfers were. */
  ghost predicate TableIsOwn(q: RequestTable) {
    && (forall r :: r in q.pending ==> r in q.issued && q.pending[r] == q.issued[r].request)
    && (forall r :: r in q.lost ==> r in q.issued && r !in q.pending)
    && (forall c, id :: c in q.routes && id in q.routes[c] ==> RouteFits(q, c, q.routes[c][id]))
  }

  /** No id stands for two things. */
  ghost predicate IdsAreOwn(h: Hub) {
    && TableIsOwn(h.requests)
    && h.requests.issued.Keys <= h.used && h.batches.subs.Keys <= h.used
    && h.batches.subs.Keys !! h.requests.issued.Keys
  }

  lemma IssueKeepsTable(q: RequestTable, req: Id, issued: Issued)
    requires TableIsOwn(q) && req !in q.issued
    ensures var q' := Issue(q, req, issued);
      TableIsOwn(q') && q'.issued.Keys == q.issued.Keys + {req} && req in q'.issued && q'.issued[req] == issued
  {
  }

  lemma RouteKeepsTable(q: RequestTable, c: Conn, id: Id, route: Route)
    requires TableIsOwn(q) && RouteFits(q, c, route)
    ensures TableIsOwn(SetRoute(q, c, id, route)) && SetRoute(q, c, id, route).issued == q.issued
  {
  }

  lemma DropKeepsTable(q: RequestTable, c: Conn, id: Id)
    requires TableIsOwn(q)
    ensures TableIsOwn(DropRoute(q, c, id))
  {
  }

  lemma ForgetKeepsTable(q: RequestTable, req: Id)
    requires TableIsOwn(q)
    ensures TableIsOwn(Forget(q, req))
  {
  }

  lemma ForwardKeepsTable(q: RequestTable, c: Conn, id: Id, unit: Q.Unit<Msg>, final: bool, ok: bool)
    requires TableIsOwn(q) && id in RoutesOf(q, c)
    ensures var o := ForwardChunk(q, c, id, unit, final, ok); TableIsOwn(o.state) && o.state.issued == q.issued
  {
    hide TableIsOwn;
    DropKeepsTable(q, c, id);
    ForgetKeepsTable(DropRoute(q, c, id), RoutesOf(q, c)[id].req);
  }

  lemma RequestsKeepTable(h: Hub, c: Conn, m: Incoming, env: Env)
    requires EnvFor(m, env) && OfRequests(h, m) && TableIsOwn(h.requests) && env.ids[0] !in h.requests.issued
    ensures var q' := HandleRequests(h, c, m, env).state; TableIsOwn(q') && q'.issued.Keys <= h.requests.issued.Keys + {env.ids[0]}
  {
    hide TableIsOwn, FindTarget, HandleFileChunk, HandleOldFileChunk, Relay, Issue, SetRoute, OfRequests;
    var q, req := h.requests, env.ids[0];
    if m.Execute? {
      var found := FindTarget(h.dir, m.target, m.token);
      if found.Target? { IssueKeepsTable(q, req, Issued(Request(m.id, c), found.conn, None, env.oks[0])); }
    } else if m.FileTransfer? {
      var found := FindTarget(h.dir, m.target, m.token);
      if found.Target? {
        var issued := Issued(Request(m.id, c), found.conn, Some(m.announce), env.oks[0]);
        IssueKeepsTable(q, req, issued);
        RouteKeepsTable(Issue(q, req, issued), c, m.id, Route(found.conn, req));
      }
    } else if m.FileChunk? || m.OldFileChunk? {
      ChunkKeepsTable(q, c, m, env.oks[0]);
    } else {
      assert Relayable(m) by { assert OfRequests(h, m); IsReply(h, m); }
      RelayKeepsTable(q, m);
    }
  }

  lemma IsReply(h: Hub, m: Incoming)
    requires OfRequests(h, m) && !m.Execute? && !m.FileTransfer? && !m.FileChunk? && !m.OldFileChunk?
    ensures Relayable(m)
  {
  }

  lemma RelayKeepsTable(q: RequestTable, m: Reply)
    requires TableIsOwn(q)
    ensures TableIsOwn(Relay(q, m).state) && Relay(q, m).state.issued == q.issued
  {
  }

  lemma ChunkKeepsTable(q: RequestTable, c: Conn, m: Incoming, ok: bool)
    requires TableIsOwn(q) && (m.FileChunk? || m.OldFileChunk?)
    ensures var o := if m.FileChunk? then HandleFileChunk(q, c, m.id, m.index, m.final, m.compressed, m.next, ok)
                     else HandleOldFileChunk(q, c, m.id, m.index, m.data, m.final, ok);
      TableIsOwn(o.state) && o.state.issued == q.issued
  {
    hide TableIsOwn, ForwardChunk;
    if m.id in RoutesOf(q, c) {
      var req := RoutesOf(q, c)[m.id].req;
      if m.FileChunk? && m.next.Binary? {
        ForwardKeepsTable(q, c, m.id, Q.Chunk(ChunkHeader(req, m.index, m.final, m.compressed), m.next.data), m.final, ok);
      } else if m.FileChunk? {
        DropKeepsTable(q, c, m.id);
        ForgetKeepsTable(DropRoute(q, c, m.id), req);
      } else {
        ForwardKeepsTable(q, c, m.id, Q.Plain(LegacyChunk(req, m.index, m.data, m.final)), m.final, ok);
      }
    }
  }

  lemma {:induction false} FanOutSubs(b: BatchTable, d: Directory, c: Conn, job: Batch, env: Env, n: nat)
    requires EnvFits(job, env) && n <= |job.targets|
    ensures forall s :: s in FanOutFirst(b, d, c, job, env, n).state.subs ==>
              var sub := FanOutFirst(b, d, c, job, env, n).state.subs[s];
              (s in b.subs && sub == b.subs[s]) || (s in env.ids && sub.multi == env.ids[0])
  {
    if n > 0 { FanOutSubs(b, d, c, job, env, n - 1); }
  }

  lemma BatchSubs(h: Hub, c: Conn, m: Incoming, env: Env)
    requires EnvFor(m, env) && OfBatches(h, m)
    ensures var subs := HandleBatches(h, c, m, env).state.subs;
      forall s :: s in subs ==>
        (s in h.batches.subs && subs[s] == h.batches.subs[s]) || (m.ExecuteMulti? && s in env.ids && subs[s].multi == env.ids[0])
  {
    hide FanOutFirst, Ordered;
    if m.ExecuteMulti? { FanOutSubs(h.batches, h.dir, c, m.batch, env, |m.batch.targets|); }
  }

  lemma ArriveKeepsIds(h: Hub, c: Conn, m: Incoming, env: Env)
    requires c in h.dir.peers && EnvFor(m, env) && IdsAreOwn(h)
    requires forall id :: id in env.ids ==> id in h.used && id !in h.requests.issued && id !in h.batches.subs
    ensures IdsAreOwn(Handle(h, c, m, env).state)
  {
    if OfRequests(h, m) { RequestsKeepTable(h, c, m, env); }
    if OfBatches(h, m) { BatchSubs(h, c, m, env); }
    hide HandleRequests, HandleBatches, HandlePairing, HandleTunnels, HandleRegister, HandleDisconnect,
         OfRequests, OfBatches, OfPairing, OfTunnels, TableIsOwn;
  }

  lemma EndKeepsTable(q: RequestTable, c: Conn)
    requires TableIsOwn(q)
    ensures TableIsOwn(ForgetRequests(q, c))
  {
  }

  /** What an event that is no message makes of requests and subs. */
  lemma QuietStep(h: Hub, e: Event)
    requires Enabled(h, e) && !e.Arrive?
    ensures var h' := Next(h, e);
      && h'.requests == (if e.Down? && h.dir.peers[e.conn].registered then ForgetRequests(h.requests, e.conn) else h.requests)
      && h'.used == h.used && h'.batches.subs.Keys <= h.batches.subs.Keys
  {
    hide CloseSends, Filled, ForgetRequests, ForgetListeners, SeverTunnels, ReleaseName, SetPhase, HandlePutBack, WalksTunnels;
  }

  lemma StepKeepsIds(h: Hub, e: Event)
    requires Enabled(h, e) && IdsAreOwn(h)
    ensures IdsAreOwn(Next(h, e))
  {
    hide Handle, TableIsOwn;
    if e.Arrive? {
      ArriveKeepsIds(WithIds(h, e.env), e.conn, e.message, e.env);
    } else {
      QuietStep(h, e);
      if e.Down? { EndKeepsTable(h.requests, e.conn); }
      hide Next, Enabled;
    }
  }

  lemma {:induction false} IdsAlwaysOwn(hubs: seq<Hub>, events: seq<Event>, k: nat)
    requires IsRun(hubs, events) && k < |hubs|
    ensures IdsAreOwn(hubs[k])
  {
    hide IsRun, Enabled, Next;
    if k == 0 {
      RunStarts(hubs, events);
    } else {
      RunSteps(hubs, events, k);
      IdsAlwaysOwn(hubs, events, k - 1);
      hide IdsAreOwn;
      StepKeepsIds(hubs[k - 1], events[k - 1]);
    }
  }

  // ---- One request ----

  predicate UnderId(e: Event, r: Id) {
    e.Arrive? && Relayable(e.message) && e.message.id == r
  }

  /** The messages under id r among the first k events, whoever sent them. */
  function Heard(events: seq<Event>, k: nat, r: Id): seq<Reply>
    requires k <= |events|
  {
    if k == 0 then []
    else Heard(events, k - 1, r) + if UnderId(events[k - 1], r) then [events[k - 1].message] else []
  }

  predicate Ended(ms: seq<Reply>) {
    ms != [] && !ms[|ms| - 1].StreamChunk?
  }

  /** The messages up to the first that is not a piece of streamed output. */
  function UpToEnd(ms: seq<Reply>): (up: seq<Reply>)
    ensures up <= ms
    ensures forall i :: 0 <= i < |up| - 1 ==> up[i].StreamChunk?
    ensures up == ms || Ended(up)
  {
    if ms == [] then []
    else
      var before := UpToEnd(ms[..|ms| - 1]);
      if Ended(before) then before else ms
  }

  lemma UpToEndAppend(ms: seq<Reply>, m: Reply)
    ensures UpToEnd(ms + [m]) == if Ended(UpToEnd(ms)) then UpToEnd(ms) else UpToEnd(ms) + [m]
  {
    assert (ms + [m])[..|ms|] == ms;
  }

  /** The request's client is told what the message says, under its own id: the piece of output,
      or the whole outcome as it came; that of a transfer comes as a result. */
  predicate Tells(s: Sent, q: Request, m: Reply) {
    && s.to == q.client
    && (m.StreamChunk? ==> s.unit == Q.Plain(Msg.StreamChunk(q.serverId, m.text)))
    && (m.StreamEnd? ==> s.unit == Q.Plain(Msg.StreamEnd(q.serverId, m.body)))
    && (m.Result? || m.FileTransferResult? ==> s.unit == Q.Plain(Msg.Result(q.serverId, m.body)))
  }

  /** Each of the messages was told, in order. */
  ghost predicate Told(out: seq<Sent>, ms: seq<Reply>, r: Id, q: Request) {
    |out| == |ms| && forall i :: 0 <= i < |out| ==> out[i].why == ToClient(r) && Tells(out[i], q, ms[i])
  }

  ghost predicate ForwardFailed(out: seq<Sent>, r: Id, q: Request) {
    && |out| == 1 && out[0].to == q.client && out[0].why == ToClient(r) && out[0].unit.Plain?
    && out[0].unit.text.Result? && out[0].unit.text.id == q.serverId && !out[0].unit.text.body.ok
  }

  /**
   A request that was forwarded is open and has passed on everything heard under its id; or
   answered, and has passed everything on up to the message that ended it; or lost, and has
   passed on only pieces of streamed output.
   */
  ghost predicate Tracks(q: RequestTable, out: seq<Sent>, r: Id, heard: seq<Reply>)
  {
    var up := UpToEnd(heard);
    if r !in q.issued then r !in q.pending && r !in q.lost && out == [] && heard == []
    else if !q.issued[r].forwarded then r !in q.pending && r !in q.lost && ForwardFailed(out, r, q.issued[r].request)
    else
      && |out| <= |up| && Told(out, up[..|out|], r, q.issued[r].request)
      && (r in q.pending ==> Told(out, up, r, q.issued[r].request) && !Ended(up) && r !in q.lost)
      && (r in q.lost ==> !Ended(up[..|out|]) && r !in q.pending)
      && (r !in q.pending && r !in q.lost ==> Told(out, up, r, q.issued[r].request) && Ended(up))
  }

  ghost predicate SameFor(q: RequestTable, q': RequestTable, r: Id) {
    && (r in q'.issued <==> r in q.issued) && (r in q.issued ==> q'.issued[r] == q.issued[r])
    && (r in q'.pending <==> r in q.pending) && (r in q'.lost <==> r in q.lost)
  }

  ghost predicate Loses(q: RequestTable, q': RequestTable, r: Id) {
    && (r in q'.issued <==> r in q.issued) && (r in q.issued ==> q'.issued[r] == q.issued[r])
    && r in q.pending && r !in q'.pending && r in q'.lost
  }

  lemma ForwardEffect(q: RequestTable, c: Conn, id: Id, unit: Q.Unit<Msg>, final: bool, ok: bool, r: Id)
    requires id in RoutesOf(q, c)
    ensures var o := ForwardChunk(q, c, id, unit, final, ok);
      && (forall i :: 0 <= i < |o.sends| ==> !o.sends[i].why.ToClient?)
      && (SameFor(q, o.state, r) || (Loses(q, o.state, r) && RoutesOf(q, c)[id].req == r))
  {
    hide RoutesOf;
  }

  /** A chunk whose payload cannot be read. */
  lemma ReadEffect(q: RequestTable, c: Conn, id: Id, text: string, r: Id)
    requires id in RoutesOf(q, c)
    ensures var o := FailChunk(q, c, id, RoutesOf(q, c)[id].req, [], text);
      && (forall i :: 0 <= i < |o.sends| ==> !o.sends[i].why.ToClient?)
      && (SameFor(q, o.state, r) || (Loses(q, o.state, r) && RoutesOf(q, c)[id].req == r))
  {
    hide RoutesOf;
  }

  lemma FileChunkEffect(q: RequestTable, c: Conn, m: Incoming, ok: bool, r: Id)
    requires m.FileChunk?
    ensures var o := HandleFileChunk(q, c, m.id, m.index, m.final, m.compressed, m.next, ok);
      && About(o.sends, ToClient(r)) == []
      && (SameFor(q, o.state, r) || (Loses(q, o.state, r) && m.id in RoutesOf(q, c) && RoutesOf(q, c)[m.id].req == r))
  {
    var o := HandleFileChunk(q, c, m.id, m.index, m.final, m.compressed, m.next, ok);
    assert SameFor(q, q, r);
    hide About, RoutesOf, ForwardChunk, FailChunk, SameFor, Loses;
    if m.id in RoutesOf(q, c) && m.next.Binary? {
      var req := RoutesOf(q, c)[m.id].req;
      ForwardEffect(q, c, m.id, Q.Chunk(ChunkHeader(req, m.index, m.final, m.compressed), m.next.data), m.final, ok, r);
    } else if m.id in RoutesOf(q, c) && m.next.ReadFailed? {
      ReadEffect(q, c, m.id, "failed to read binary chunk payload", r);
    }
    AboutNone(o.sends, ToClient(r));
  }

  lemma OldFileChunkEffect(q: RequestTable, c: Conn, m: Incoming, ok: bool, r: Id)
    requires m.OldFileChunk?
    ensures var o := HandleOldFileChunk(q, c, m.id, m.index, m.data, m.final, ok);
      && About(o.sends, ToClient(r)) == []
      && (SameFor(q, o.state, r) || (Loses(q, o.state, r) && m.id in RoutesOf(q, c) && RoutesOf(q, c)[m.id].req == r))
  {
    var o := HandleOldFileChunk(q, c, m.id, m.index, m.data, m.final, ok);
    hide About, RoutesOf, ForwardChunk;
    if m.id in RoutesOf(q, c) {
      ForwardEffect(q, c, m.id, Q.Plain(LegacyChunk(RoutesOf(q, c)[m.id].req, m.index, m.data, m.final)), m.final, ok, r);
    }
    AboutNone(o.sends, ToClient(r));
  }

  /** A request is issued, forwarded if that goes well and answered at once if not. */
  ghost predicate IssuesIt(q: RequestTable, q': RequestTable, out: seq<Sent>, r: Id) {
    && r in q'.issued && r !in q'.lost
    && (r in q'.pending <==> q'.issued[r].forwarded)
    && (if q'.issued[r].forwarded then out == [] else ForwardFailed(out, r, q'.issued[r].request))
  }

  lemma IssueEffect(q: RequestTable, req: Id, issued: Issued, r: Id)
    requires req == r ==> r !in q.lost
    ensures var q' := Issue(q, req, issued);
      if req == r then r in q'.issued && q'.issued[r] == issued && (r in q'.pending <==> issued.forwarded) && q'.lost == q.lost
      else SameFor(q, q', r)
  {
  }

  lemma ExecuteEffect(q: RequestTable, c: Conn, id: Id, found: Found, job: Job, req: Id, ok: bool, r: Id)
    requires req == r ==> r !in q.lost
    ensures var o := HandleExecute(q, c, id, found, job, req, ok); var out := About(o.sends, ToClient(r));
      if req == r && found.Target? then IssuesIt(q, o.state, out, r) else SameFor(q, o.state, r) && out == []
  {
    var o := HandleExecute(q, c, id, found, job, req, ok);
    if found.Target? { IssueEffect(q, req, Issued(Request(id, c), found.conn, None, ok), r); }
    hide About, Issue;
    AboutOne(o.sends[0], ToClient(r));
    if found.Target? && !ok {
      AboutTwo(o.sends[0], o.sends[1], ToClient(r));
    } else {
      assert o.sends == [o.sends[0]];
    }
  }

  lemma FileTransferEffect(q: RequestTable, c: Conn, id: Id, found: Found, a: Announce, req: Id, ok: bool, r: Id)
    requires req == r ==> r !in q.lost
    ensures var o := HandleFileTransfer(q, c, id, found, a, req, ok); var out := About(o.sends, ToClient(r));
      if req == r && found.Target? then IssuesIt(q, o.state, out, r) else SameFor(q, o.state, r) && out == []
  {
    var o := HandleFileTransfer(q, c, id, found, a, req, ok);
    if found.Target? { IssueEffect(q, req, Issued(Request(id, c), found.conn, Some(a), ok), r); }
    hide About, Issue;
    AboutOne(o.sends[0], ToClient(r));
    if found.Target? && !ok {
      AboutTwo(o.sends[0], o.sends[1], ToClient(r));
    } else {
      assert o.sends == [o.sends[0]];
    }
  }

  lemma RelayEffect(q: RequestTable, m: Reply, r: Id)
    ensures var o := Relay(q, m); var out := About(o.sends, ToClient(r));
      if m.id == r && r in q.pending then
        && out == [Tell(q.pending[r].client, Readdressed(m, q.pending[r].serverId), ToClient(r))]
        && o.state == q.(pending := if m.StreamChunk? then q.pending else q.pending - {r})
      else SameFor(q, o.state, r) && out == []
  {
    var o := Relay(q, m);
    if o.sends != [] { AboutOne(o.sends[0], ToClient(r)); }
  }

  lemma ToldNext(out: seq<Sent>, ms: seq<Reply>, m: Reply, r: Id, q: Request)
    requires Told(out, ms, r, q)
    ensures Told(out + [Tell(q.client, Readdressed(m, q.serverId), ToClient(r))], ms + [m], r, q)
  {
    hide Tells;
    ReaddressedTells(m, r, q);
  }

  lemma ReaddressedTells(m: Reply, r: Id, q: Request)
    ensures Tells(Tell(q.client, Readdressed(m, q.serverId), ToClient(r)), q, m)
  {
  }

  lemma RelayOpen(q: RequestTable, q': RequestTable, out: seq<Sent>, m: Reply, r: Id, heard: seq<Reply>)
    requires r in q.pending && r in q.issued && q.pending[r] == q.issued[r].request && Tracks(q, out, r, heard)
    requires q' == q.(pending := if m.StreamChunk? then q.pending else q.pending - {r})
    ensures Tracks(q', out + [Tell(q.pending[r].client, Readdressed(m, q.pending[r].serverId), ToClient(r))], r, heard + [m])
  {
    UpToEndAppend(heard, m);
    var up, request := UpToEnd(heard), q.pending[r];
    ToldNext(out, up, m, r, request);
    assert |out| == |up| by { assert Told(out, up, r, request); }
    hide UpToEnd, Readdressed, Told;
    var more := out + [Tell(request.client, Readdressed(m, request.serverId), ToClient(r))];
    assert (up + [m])[..|more|] == up + [m];
  }

  lemma RelayClosed(q: RequestTable, q': RequestTable, out: seq<Sent>, m: Reply, r: Id, heard: seq<Reply>)
    requires r in q.issued && r !in q.pending && SameFor(q, q', r) && Tracks(q, out, r, heard)
    ensures Tracks(q', out, r, heard + [m])
  {
    UpToEndAppend(heard, m);
    var up := UpToEnd(heard);
    hide UpToEnd, Told;
    if q.issued[r].forwarded { assert (up + [m])[..|out|] == up[..|out|]; }
  }

  lemma IssuedTracks(q: RequestTable, q': RequestTable, out: seq<Sent>, r: Id)
    requires IssuesIt(q, q', out, r)
    ensures Tracks(q', out, r, [])
  {
  }

  lemma SameTracks(q: RequestTable, q': RequestTable, out: seq<Sent>, r: Id, heard: seq<Reply>)
    requires Tracks(q, out, r, heard) && (SameFor(q, q', r) || Loses(q, q', r))
    ensures r in q.issued || SameFor(q, q', r) ==> Tracks(q', out, r, heard)
  {
    hide UpToEnd;
    var up := UpToEnd(heard);
    if r in q.pending && r in q.issued { assert up[..|out|] == up; }
  }

  // ---- Every step, and every run ----

  /** The end of connection c, if it had registered. */
  predicate CutsOff(h: Hub, e: Event, c: Conn) {
    e.Down? && e.conn == c && c in h.dir.peers && h.dir.peers[c].registered
  }

  /** What any step other than a message under id r does to the request r. */
  lemma StepEffect(h: Hub, e: Event, r: Id)
    requires Enabled(h, e) && IdsAreOwn(h) && !UnderId(e, r)
    ensures var q, q', out := h.requests, Next(h, e).requests, About(Step(h, e).sends, ToClient(r));
      || (r !in q.issued && IssuesIt(q, q', out, r))
      || (out == [] && SameFor(q, q', r))
      || (out == [] && Loses(q, q', r) && (IsFile(q, r) || CutsOff(h, e, q.pending[r].client)))
  {
    hide Tracks;
    if e.Arrive? {
      var g := WithIds(h, e.env);
      if !Barred(g, e.conn, e.message) && OfRequests(g, e.message) {
        MessageEffect(g, e.conn, e.message, e.env, r);
        hide HandleRequests, SameFor, Loses, IssuesIt, About, OfRequests, Barred;
      } else {
        NextAbout(h, e, ToClient(r));
        hide HandleBatches, HandlePairing, HandleTunnels, HandleRegister, HandleDisconnect, OfPairing,
             OfTunnels, OfBatches, About;
        OtherMessage(g, e.conn, e.message, e.env, r);
      }
    } else {
      StepTags(h, e);
      hide About, Filled;
      AboutNone(Step(h, e).sends, ToClient(r));
    }
  }

  lemma OtherMessage(h: Hub, c: Conn, m: Incoming, env: Env, r: Id)
    requires c in h.dir.peers && EnvFor(m, env) && (Barred(h, c, m) || !OfRequests(h, m))
    ensures Handle(h, c, m, env).state.requests == h.requests && About(Handle(h, c, m, env).sends, ToClient(r)) == []
  {
    HandleTags(h, c, m, env);
    hide HandleBatches, HandlePairing, HandleTunnels, HandleRegister, HandleDisconnect, OfPairing, OfTunnels,
         OfBatches, OfRequests, About;
    AboutNone(Handle(h, c, m, env).sends, ToClient(r));
  }

  lemma MessageEffect(h: Hub, c: Conn, m: Incoming, env: Env, r: Id)
    requires EnvFor(m, env) && OfRequests(h, m) && TableIsOwn(h.requests) && env.ids[0] !in h.requests.issued && !(Relayable(m) && m.id == r)
    ensures var q, o := h.requests, HandleRequests(h, c, m, env); var out := About(o.sends, ToClient(r));
      || (r !in q.issued && IssuesIt(q, o.state, out, r))
      || (out == [] && (SameFor(q, o.state, r) || (Loses(q, o.state, r) && IsFile(q, r))))
  {
    hide About, FindTarget, HandleExecute, HandleFileTransfer, HandleFileChunk, HandleOldFileChunk, Relay,
         SameFor, Loses, IssuesIt;
    var q, found := h.requests, if m.Execute? || m.FileTransfer? then FindTarget(h.dir, m.target, m.token) else Refused("");
    match m
    case Execute(id, _, _, job) => ExecuteEffect(q, c, id, found, job, env.ids[0], env.oks[0], r);
    case FileTransfer(id, _, _, a) => FileTransferEffect(q, c, id, found, a, env.ids[0], env.oks[0], r);
    case FileChunk(id, _, _, _, _) => FileChunkEffect(q, c, m, env.oks[0], r);
    case OldFileChunk(id, _, _, _) => OldFileChunkEffect(q, c, m, env.oks[0], r);
    case _ => RelayEffect(q, m, r);
  }

  /** Nobody mentions an id before the hub has handed it out. */
  ghost predicate EchoOnly(hubs: seq<Hub>, events: seq<Event>, k: nat, r: Id)
    requires k <= |events| < |hubs|
  {
    forall i :: 0 <= i < k && UnderId(events[i], r) ==> r in hubs[i].requests.issued
  }

  lemma StepTracks(h: Hub, e: Event, r: Id, heard: seq<Reply>)
    requires Enabled(h, e) && IdsAreOwn(h) && (UnderId(e, r) ==> r in h.requests.issued)
    requires Tracks(h.requests, About(h.log, ToClient(r)), r, heard)
    ensures Tracks(Next(h, e).requests, About(Next(h, e).log, ToClient(r)), r, heard + if UnderId(e, r) then [e.message] else [])
  {
    hide Next, Step, About, Enabled, Tracks, IdsAreOwn, IssuesIt, SameFor, Loses;
    var q, q', out := h.requests, Next(h, e).requests, About(h.log, ToClient(r));
    NextAbout(h, e, ToClient(r));
    OpenIsIssued(h, r);
    if UnderId(e, r) {
      UnderIdStep(h, e, r);
      if r in q.pending {
        RelayOpen(q, q', out, e.message, r, heard);
      } else {
        assert out + [] == out;
        RelayClosed(q, q', out, e.message, r, heard);
      }
    } else {
      StepEffect(h, e, r);
      assert heard + [] == heard && out + [] == out;
      NotIssuedIs(q, out, r, heard);
      LostOrIssued(q, q', About(Step(h, e).sends, ToClient(r)), r);
      if r in q.issued || SameFor(q, q', r) {
        SameTracks(q, q', out, r, heard);
      } else {
        var more := About(Step(h, e).sends, ToClient(r));
        assert r !in q.issued && IssuesIt(q, q', more, r);
        IssuedTracks(q, q', more, r);
        assert out + more == more && heard + [] == [];
      }
    }
  }

  lemma OpenIsIssued(h: Hub, r: Id)
    requires IdsAreOwn(h)
    ensures r in h.requests.pending ==> r in h.requests.issued
  {
  }

  lemma NotIssuedIs(q: RequestTable, out: seq<Sent>, r: Id, heard: seq<Reply>)
    requires Tracks(q, out, r, heard)
    ensures r !in q.issued ==> heard == [] && out == []
  {
    hide UpToEnd;
  }

  lemma LostOrIssued(q: RequestTable, q': RequestTable, out: seq<Sent>, r: Id)
    ensures Loses(q, q', r) ==> r in q.pending
    ensures r !in q.issued && IssuesIt(q, q', out, r) ==> !SameFor(q, q', r)
  {
  }

  lemma UnderIdStep(h: Hub, e: Event, r: Id)
    requires Enabled(h, e) && IdsAreOwn(h) && UnderId(e, r) && r in h.requests.issued
    ensures var q, q', out := h.requests, Next(h, e).requests, About(Step(h, e).sends, ToClient(r));
      if r in q.pending then
        && q.pending[r] == q.issued[r].request
        && out == [Tell(q.pending[r].client, Readdressed(e.message, q.pending[r].serverId), ToClient(r))]
        && q' == q.(pending := if e.message.StreamChunk? then q.pending else q.pending - {r})
      else SameFor(q, q', r) && out == []
  {
    RelayEffect(h.requests, e.message, r);
    hide About, Relay;
  }

  lemma {:induction false} TracksAlways(hubs: seq<Hub>, events: seq<Event>, k: nat, r: Id)
    requires IsRun(hubs, events) && k < |hubs| && EchoOnly(hubs, events, k, r)
    ensures Tracks(hubs[k].requests, About(hubs[k].log, ToClient(r)), r, Heard(events, k, r))
  {
    hide IsRun, Enabled, Next, IdsAreOwn;
    if k == 0 {
      RunStarts(hubs, events);
      hide UpToEnd;
      assert UpToEnd([]) == [];
    } else {
      RunSteps(hubs, events, k);
      TracksAlways(hubs, events, k - 1, r);
      IdsAlwaysOwn(hubs, events, k - 1);
      hide Tracks, About;
      StepTracks(hubs[k - 1], events[k - 1], r, Heard(events, k - 1, r));
    }
  }

  lemma TracksMean(q: RequestTable, out: seq<Sent>, r: Id, heard: seq<Reply>)
    requires Tracks(q, out, r, heard) && r in q.issued
    ensures var up, issued := UpToEnd(heard), q.issued[r];
      && (forall i :: 0 <= i < |out| ==> out[i].to == issued.request.client && out[i].unit.Plain?)
      && (forall i :: 0 <= i < |out| - 1 ==> out[i].unit.text.StreamChunk?)
      && (issued.forwarded ==> |out| <= |up| && forall i :: 0 <= i < |out| ==> Tells(out[i], issued.request, up[i]))
      && (r in q.pending ==> issued.forwarded && r !in q.lost && !Answered(out) && |out| == |up|)
      && (r in q.lost ==> issued.forwarded && r !in q.pending && !Answered(out))
      && (r !in q.pending && r !in q.lost ==> Answered(out))
      && (r !in q.pending && r !in q.lost ==>
            if issued.forwarded then |out| == |up| else ForwardFailed(out, r, issued.request))
  {
    var up, issued := UpToEnd(heard), q.issued[r];
    hide UpToEnd;
    if issued.forwarded {
      forall i | 0 <= i < |out| ensures Tells(out[i], issued.request, up[i]) { assert up[..|out|][i] == up[i]; }
    }
  }

  predicate Answered(out: seq<Sent>) {
    out != [] && out[|out| - 1].unit.Plain? && !out[|out| - 1].unit.text.StreamChunk?
  }

  /**
   In every run, a request that the hub forwarded is in exactly one state: open, answered, or
   lost. Whatever was sent on its behalf went to the connection that made it, under its own id,
   and says what came in: first the pieces of streamed output, in the order in which they came
   in, then at most one last message, exactly if it is answered. A request that could not be forwarded was
   answered at once.
   */
  lemma RequestConserved(hubs: seq<Hub>, events: seq<Event>, k: nat, r: Id)
    requires IsRun(hubs, events) && k < |hubs| && EchoOnly(hubs, events, k, r) && r in hubs[k].requests.issued
    ensures var q := hubs[k].requests; var out, up, issued := About(hubs[k].log, ToClient(r)), UpToEnd(Heard(events, k, r)), q.issued[r];
      && (forall i :: 0 <= i < |out| ==> out[i].to == issued.request.client && out[i].unit.Plain?)
      && (forall i :: 0 <= i < |out| - 1 ==> out[i].unit.text.StreamChunk?)
      && (issued.forwarded ==> |out| <= |up| && forall i :: 0 <= i < |out| ==> Tells(out[i], issued.request, up[i]))
      && (r in q.pending ==> issued.forwarded && r !in q.lost && !Answered(out) && |out| == |up|)
      && (r in q.lost ==> issued.forwarded && r !in q.pending && !Answered(out))
      && (r !in q.pending && r !in q.lost ==> Answered(out))
      && (r !in q.pending && r !in q.lost ==>
            if issued.forwarded then |out| == |up| else ForwardFailed(out, r, issued.request))
  {
    TracksAlways(hubs, events, k, r);
    hide IsRun, Heard, EchoOnly, About, Tracks, UpToEnd, Tells, ForwardFailed, Answered;
    TracksMean(hubs[k].requests, About(hubs[k].log, ToClient(r)), r, Heard(events, k, r));
  }

  lemma LostStep(h: Hub, e: Event, r: Id)
    requires Enabled(h, e) && IdsAreOwn(h) && r in Next(h, e).requests.lost
    ensures var q, q' := h.requests, Next(h, e).requests;
      && r in q.issued && r in q'.issued && q'.issued[r] == q.issued[r]
      && (r in q.lost || (r in q.pending && q.pending[r] == q.issued[r].request && (IsFile(q, r) || CutsOff(h, e, q.pending[r].client))))
  {
    if UnderId(e, r) {
      hide About;
    } else {
      StepEffect(h, e, r);
      hide Step, About;
    }
  }

  /** A command's request is lost only if the connection that made it ends. */
  lemma {:induction false} CommandsAreLostByTheirClient(hubs: seq<Hub>, events: seq<Event>, k: nat, r: Id) returns (i: nat)
    requires IsRun(hubs, events) && k < |hubs| && r in hubs[k].requests.lost && r in hubs[k].requests.issued && !IsFile(hubs[k].requests, r)
    ensures i < k && r in hubs[i].requests.pending && CutsOff(hubs[i], events[i], hubs[k].requests.issued[r].request.client)
  {
    hide IsRun, Enabled, Next, IdsAreOwn, CutsOff;
    RunStarts(hubs, events);
    RunSteps(hubs, events, k);
    IdsAlwaysOwn(hubs, events, k - 1);
    LostStep(hubs[k - 1], events[k - 1], r);
    if r in hubs[k - 1].requests.lost {
      i := CommandsAreLostByTheirClient(hubs, events, k - 1, r);
    } else {
      i := k - 1;
    }
  }
}
