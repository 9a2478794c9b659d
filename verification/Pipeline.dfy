/**
 How the hub passes on a chunked transfer: to its target, and for its request, exactly what
 its client has sent so far, re-addressed and in order, up to the first forward that fails.
 */
module Forwarding {
  import opened Basics
  import opened Protocol
  import opened RelayModel
  import opened Reassembly
  import N = Names
  import Q = WriteQueue
  import R = Requests
  import S = Senders

  /** A transfer as its client sends it: from connection c, under the client's id i. */
  datatype Upload = Upload(c: Conn, i: Id, target: Name, token: Token, plan: Plan)

  predicate OfUpload(m: Incoming, i: Id) {
    (m.FileTransfer? || m.FileChunk? || m.OldFileChunk?) && m.id == i
  }

  predicate IsMine(e: Event, u: Upload) {
    e.Arrive? && e.conn == u.c && OfUpload(e.message, u.i)
  }

  /** The client's messages: the announcement, then each chunk with its payload. */
  function MessageAt(u: Upload, k: nat): Incoming
    requires k <= |u.plan.items|
  {
    if k == 0 then Incoming.FileTransfer(u.i, u.target, u.token, u.plan.announce)
    else
      var item := u.plan.items[k - 1];
      Incoming.FileChunk(u.i, item.index, item.last, S.TryCompress(u.plan.z, item.data).Some?, Binary(S.OnWire(u.plan.z, item.data)))
  }

  function MineCount(events: seq<Event>, k: nat, u: Upload): nat
    requires k <= |events|
  {
    if k == 0 then 0 else MineCount(events, k - 1, u) + (if IsMine(events[k - 1], u) then 1 else 0)
  }

  /** A chunk's header, after which the client's connection breaks. */
  function BrokenAt(u: Upload, k: nat): Incoming
    requires 0 < k <= |u.plan.items|
  {
    var item := u.plan.items[k - 1];
    Incoming.FileChunk(u.i, item.index, item.last, S.TryCompress(u.plan.z, item.data).Some?, ReadFailed)
  }

  predicate Fits(m: Incoming, u: Upload, n: nat) {
    n <= |u.plan.items| && (m == MessageAt(u, n) || (n > 0 && m == BrokenAt(u, n)))
  }

  /** One of the upload's headers came without its payload. */
  ghost predicate Broke(events: seq<Event>, k: nat, u: Upload)
    requires k <= |events|
  {
    exists j :: 0 <= j < k && IsBroken(events[j], u)
  }

  predicate IsBroken(e: Event, u: Upload) {
    IsMine(e, u) && e.message.FileChunk? && e.message.next.ReadFailed?
  }

  /** The client sends its messages in order, though its connection may break behind a header; the
      announcement gets the plan's request id. */
  ghost predicate SendsInOrder(events: seq<Event>, k: nat, u: Upload)
    requires k <= |events|
  {
    forall j :: 0 <= j < k && IsMine(events[j], u) ==>
      var n := MineCount(events, j, u);
      Fits(events[j].message, u, n) && (n == 0 ==> events[j].env.ids == [u.plan.id])
  }

  // ---- What is sent to a daemon under a request ----

  ghost predicate NotIssuedNotSent(h: Hub) {
    forall r :: r !in h.requests.issued ==> About(h.log, ToDaemon(r)) == []
  }

  /** The route under which a message forwards a chunk. */
  function RouteFor(h: Hub, e: Event): Option<Route> {
    if e.Arrive? && (e.message.FileChunk? || e.message.OldFileChunk?) && e.message.id in RoutesOf(h.requests, e.conn)
    then Some(RoutesOf(h.requests, e.conn)[e.message.id]) else None
  }

  predicate IssuesRequest(e: Event, r: Id) {
    e.Arrive? && (e.message.Execute? || e.message.FileTransfer?) && e.env.ids == [r]
  }

  lemma OtherSends(h: Hub, e: Event, r: Id)
    requires Enabled(h, e) && !IssuesRequest(e, r) && !(RouteFor(h, e).Some? && RouteFor(h, e).value.req == r)
    ensures About(Step(h, e).sends, ToDaemon(r)) == []
  {
    hide About;
    if e.Arrive? && OfRequests(WithIds(h, e.env), e.message) {
      OtherRequestSends(WithIds(h, e.env), e, r);
      hide HandleRequests;
      if Barred(h, e.conn, e.message) { AboutNone(Step(h, e).sends, ToDaemon(r)); }
    } else {
      StepTags(h, e);
      hide Step, Enabled;
      AboutNone(Step(h, e).sends, ToDaemon(r));
    }
  }

  lemma OtherRequestSends(h: Hub, e: Event, r: Id)
    requires e.Arrive? && EnvFor(e.message, e.env) && OfRequests(h, e.message)
    requires !IssuesRequest(e, r) && !(RouteFor(h, e).Some? && RouteFor(h, e).value.req == r)
    ensures About(HandleRequests(h, e.conn, e.message, e.env).sends, ToDaemon(r)) == []
  {
    var o := HandleRequests(h, e.conn, e.message, e.env);
    hide About, FindTarget, Issue, DropRoute, Forget, RoutesOf;
    assert e.env.ids == [e.env.ids[0]];
    AboutNone(o.sends, ToDaemon(r));
  }

  // ---- Routes ----

  lemma HandleRoutes(h: Hub, e: Event, c: Conn, i: Id)
    requires e.Arrive? && EnvFor(e.message, e.env) && OfRequests(h, e.message)
    ensures var q, q' := h.requests, HandleRequests(h, e.conn, e.message, e.env).state;
      if e.conn == c && OfUpload(e.message, i) then
        i in RoutesOf(q', c) ==> (i in RoutesOf(q, c) && RoutesOf(q', c)[i] == RoutesOf(q, c)[i]) || IssuesRequest(e, RoutesOf(q', c)[i].req)
      else (i in RoutesOf(q', c) <==> i in RoutesOf(q, c)) && (i in RoutesOf(q, c) ==> RoutesOf(q', c)[i] == RoutesOf(q, c)[i])
  {
    hide FindTarget;
    assert !e.message.ExecuteMulti? ==> e.env.ids == [e.env.ids[0]];
  }

  lemma StepRoutes(h: Hub, e: Event, c: Conn, i: Id)
    requires Enabled(h, e)
    ensures var q, q' := h.requests, Next(h, e).requests;
      if e.Arrive? && e.conn == c && OfUpload(e.message, i) then
        i in RoutesOf(q', c) ==> (i in RoutesOf(q, c) && RoutesOf(q', c)[i] == RoutesOf(q, c)[i]) || IssuesRequest(e, RoutesOf(q', c)[i].req)
      else (i in RoutesOf(q', c) <==> i in RoutesOf(q, c)) && (i in RoutesOf(q, c) ==> RoutesOf(q', c)[i] == RoutesOf(q, c)[i])
  {
    if e.Arrive? {
      var g := WithIds(h, e.env);
      if OfRequests(g, e.message) { HandleRoutes(g, e, c, i); }
      hide HandleRequests, HandleBatches, HandlePairing, HandleTunnels, HandleRegister, HandleDisconnect,
           OfRequests, OfBatches, OfPairing, OfTunnels;
    } else {
      hide CloseSends, Filled;
    }
  }

  lemma HandleIssued(h: Hub, e: Event, r: Id)
    requires e.Arrive? && EnvFor(e.message, e.env) && OfRequests(h, e.message)
    ensures var q, q' := h.requests, HandleRequests(h, e.conn, e.message, e.env).state;
      !IssuesRequest(e, r) ==> (r in q'.issued <==> r in q.issued) && (r in q.issued ==> q'.issued[r] == q.issued[r])
  {
    hide FindTarget, RoutesOf;
    assert !e.message.ExecuteMulti? ==> e.env.ids == [e.env.ids[0]];
  }

  lemma StepIssued(h: Hub, e: Event, r: Id)
    requires Enabled(h, e) && !IssuesRequest(e, r)
    ensures var q, q' := h.requests, Next(h, e).requests;
      (r in q'.issued <==> r in q.issued) && (r in q.issued ==> q'.issued[r] == q.issued[r])
  {
    if e.Arrive? {
      var g := WithIds(h, e.env);
      if OfRequests(g, e.message) { HandleIssued(g, e, r); }
      hide HandleRequests, HandleBatches, HandlePairing, HandleTunnels, HandleRegister, HandleDisconnect,
           OfRequests, OfBatches, OfPairing, OfTunnels;
    } else {
      hide CloseSends, Filled;
    }
  }

  // ---- One upload ----

  /** The first m units of a plan, sent to `target` under the plan's request. */
  ghost predicate AreUnits(out: seq<Sent>, target: Conn, p: Plan, m: nat) {
    m <= |p.items| + 1 && |out| == m && forall j :: 0 <= j < m ==> out[j] == Sent(target, UnitAt(p, j), ToDaemon(p.id))
  }

  predicate HasRoute(q: RequestTable, u: Upload) {
    u.i in RoutesOf(q, u.c)
  }

  /** Only this upload's chunks are routed for its request. */
  ghost predicate OwnRoute(q: RequestTable, u: Upload) {
    forall c, i :: c in q.routes && i in q.routes[c] && q.routes[c][i].req == u.plan.id ==> c == u.c && i == u.i
  }

  /**
   The requests when the client has sent the first n messages of the upload: `out` is what
   was sent to the daemon under its request, `failed` whether a chunk could not be forwarded.
   */
  ghost predicate InStep(q: RequestTable, out: seq<Sent>, failed: bool, u: Upload, n: nat) {
    var p := u.plan;
    if n == 0 then !HasRoute(q, u)
    else if p.id !in q.issued then out == [] && OwnRoute(q, u) && !HasRoute(q, u)
    else
      var issued := q.issued[p.id];
      && OwnRoute(q, u)
      && issued.request == Request(u.i, u.c) && issued.announce == Some(p.announce)
      && |out| <= n && AreUnits(out, issued.target, p, |out|)
      && (HasRoute(q, u) ==> RoutesOf(q, u.c)[u.i] == Route(issued.target, p.id) && |out| == n <= |p.items|)
      && (issued.forwarded && !failed ==> |out| == n && (HasRoute(q, u) || n == |p.items| + 1))
  }

  ghost predicate UploadOk(u: Upload) {
    u.plan.announce.chunked && u.plan.items != []
    && forall i :: 0 <= i < |u.plan.items| ==> (u.plan.items[i].last <==> i == |u.plan.items| - 1)
  }

  lemma AnnouncementSends(q: RequestTable, u: Upload, found: Found, ok: bool)
    ensures var o, p := HandleFileTransfer(q, u.c, u.i, found, u.plan.announce, u.plan.id, ok), u.plan;
      About(o.sends, ToDaemon(p.id)) == if found.Target? then [Sent(found.conn, UnitAt(p, 0), ToDaemon(p.id))] else []
  {
    var o := HandleFileTransfer(q, u.c, u.i, found, u.plan.announce, u.plan.id, ok);
    hide About;
    AboutOne(o.sends[0], ToDaemon(u.plan.id));
    if found.Target? && !ok {
      AboutTwo(o.sends[0], o.sends[1], ToDaemon(u.plan.id));
    } else {
      assert o.sends == [o.sends[0]];
    }
  }

  lemma AnnouncementState(q: RequestTable, u: Upload, target: Conn, ok: bool)
    requires u.plan.announce.chunked
    ensures var q', p := HandleFileTransfer(q, u.c, u.i, Target(target), u.plan.announce, u.plan.id, ok).state, u.plan;
      && q'.issued == q.issued[p.id := Issued(Request(u.i, u.c), target, Some(p.announce), ok)]
      && q'.routes == if ok then q.routes[u.c := RoutesOf(q, u.c)[u.i := Route(target, p.id)]] else q.routes
  {
  }

  lemma AnnouncedWith(q: RequestTable, q': RequestTable, out: seq<Sent>, u: Upload, target: Conn, ok: bool)
    requires |u.plan.items| > 0 && OwnRoute(q, u) && !HasRoute(q, u)
    requires q'.issued == q.issued[u.plan.id := Issued(Request(u.i, u.c), target, Some(u.plan.announce), ok)]
    requires q'.routes == if ok then q.routes[u.c := RoutesOf(q, u.c)[u.i := Route(target, u.plan.id)]] else q.routes
    requires |out| == 1 && AreUnits(out, target, u.plan, 1)
    ensures InStep(q', out, false, u, 1)
  {
    hide AreUnits, UnitAt;
  }

  /** The announcement gets a request, and a route if it is forwarded. */
  lemma Announced(q: RequestTable, u: Upload, found: Found, ok: bool)
    requires UploadOk(u) && R.TableIsOwn(q) && u.plan.id !in q.issued && !HasRoute(q, u)
    ensures var o := HandleFileTransfer(q, u.c, u.i, found, u.plan.announce, u.plan.id, ok);
      InStep(o.state, About(o.sends, ToDaemon(u.plan.id)), false, u, 1)
  {
    assert OwnRoute(q, u) && |u.plan.items| > 0 && u.plan.announce.chunked;
    hide About, UploadOk, R.TableIsOwn, OwnRoute, UnitAt;
    AnnouncementSends(q, u, found, ok);
    if found.Target? {
      AnnouncementState(q, u, found.conn, ok);
      assert AreUnits([Sent(found.conn, UnitAt(u.plan, 0), ToDaemon(u.plan.id))], found.conn, u.plan, 1);
      var o := HandleFileTransfer(q, u.c, u.i, found, u.plan.announce, u.plan.id, ok);
      AnnouncedWith(q, o.state, About(o.sends, ToDaemon(u.plan.id)), u, found.conn, ok);
    }
    hide AreUnits;
  }

  lemma UnitsAppend(out: seq<Sent>, target: Conn, p: Plan, m: nat)
    requires AreUnits(out, target, p, m) && m <= |p.items|
    ensures AreUnits(out + [Sent(target, UnitAt(p, m), ToDaemon(p.id))], target, p, m + 1)
  {
    hide UnitAt;
  }

  lemma ChunkForwarded(q: RequestTable, c: Conn, i: Id, unit: Q.Unit<Msg>, final: bool, target: Conn, req: Id, ok: bool)
    requires i in RoutesOf(q, c) && RoutesOf(q, c)[i] == Route(target, req)
    ensures var o := ForwardChunk(q, c, i, unit, final, ok);
      && o.state.issued == q.issued
      && (o.state.routes == if ok && !final then q.routes else q.routes[c := RoutesOf(q, c) - {i}])
      && o.sends == [Sent(target, unit, ToDaemon(req))] + if ok then [] else [Tell(c, ErrResult(i, "failed to forward file chunk"), ChunkFailed(req))]
  {
    hide RoutesOf, ErrResult;
  }

  lemma ChunkSends(c: Conn, i: Id, unit: Q.Unit<Msg>, target: Conn, req: Id, ok: bool)
    ensures var sends := [Sent(target, unit, ToDaemon(req))] + if ok then [] else [Tell(c, ErrResult(i, "failed to forward file chunk"), ChunkFailed(req))];
      About(sends, ToDaemon(req)) == [Sent(target, unit, ToDaemon(req))] && (About(sends, ChunkFailed(req)) != [] <==> !ok)
  {
    var s, t := Sent(target, unit, ToDaemon(req)), Tell(c, ErrResult(i, "failed to forward file chunk"), ChunkFailed(req));
    hide About, ErrResult;
    if ok {
      AboutOne(s, ToDaemon(req));
      AboutOne(s, ChunkFailed(req));
      assert [s] + [] == [s];
    } else {
      AboutTwo(s, t, ToDaemon(req));
      AboutTwo(s, t, ChunkFailed(req));
      assert [s] + [t] == [s, t];
    }
  }

  /** A chunk with a route: what is sent, and what becomes of the route. */
  lemma ChunkRouted(q: RequestTable, u: Upload, n: nat, target: Conn, ok: bool)
    requires 0 < n <= |u.plan.items| && HasRoute(q, u) && RoutesOf(q, u.c)[u.i] == Route(target, u.plan.id)
    ensures var m := MessageAt(u, n); var o := HandleFileChunk(q, u.c, u.i, m.index, m.final, m.compressed, m.next, ok);
      && About(o.sends, ToDaemon(u.plan.id)) == [Sent(target, UnitAt(u.plan, n), ToDaemon(u.plan.id))]
      && (About(o.sends, ChunkFailed(u.plan.id)) != [] <==> !ok)
      && o.state.issued == q.issued
      && o.state.routes == if ok && !m.final then q.routes else q.routes[u.c := RoutesOf(q, u.c) - {u.i}]
  {
    var m := MessageAt(u, n);
    assert UnitAt(u.plan, n) == Q.Chunk(ChunkHeader(u.plan.id, m.index, m.final, m.compressed), m.next.data);
    hide About, UnitAt, MessageAt, ForwardChunk, RoutesOf;
    ChunkForwarded(q, u.c, u.i, UnitAt(u.plan, n), m.final, target, u.plan.id, ok);
    ChunkSends(u.c, u.i, UnitAt(u.plan, n), target, u.plan.id, ok);
  }

  lemma ChunkUnrouted(q: RequestTable, u: Upload, n: nat, ok: bool)
    requires 0 < n <= |u.plan.items| && !HasRoute(q, u)
    ensures var m := MessageAt(u, n); HandleFileChunk(q, u.c, u.i, m.index, m.final, m.compressed, m.next, ok) == Outcome(q, [])
  {
  }

  /** A chunk is forwarded under the request, if there is a route for it. */
  lemma ChunkSent(q: RequestTable, u: Upload, n: nat, ok: bool, out: seq<Sent>, failed: bool)
    requires UploadOk(u) && 0 < n <= |u.plan.items| && InStep(q, out, failed, u, n)
    ensures var m := MessageAt(u, n); var o := HandleFileChunk(q, u.c, u.i, m.index, m.final, m.compressed, m.next, ok);
      InStep(o.state, out + About(o.sends, ToDaemon(u.plan.id)), failed || About(o.sends, ChunkFailed(u.plan.id)) != [], u, n + 1)
  {
    var m := MessageAt(u, n);
    var o := HandleFileChunk(q, u.c, u.i, m.index, m.final, m.compressed, m.next, ok);
    assert m.final ==> n == |u.plan.items|;
    if HasRoute(q, u) {
      var target := q.issued[u.plan.id].target;
      ChunkRouted(q, u, n, target, ok);
      UnitsAppend(out, target, u.plan, n);
      hide About, HandleFileChunk, AreUnits, MessageAt, UnitAt;
    } else {
      ChunkUnrouted(q, u, n, ok);
      assert out + [] == out;
      hide HandleFileChunk, AreUnits, MessageAt, UnitAt;
    }
  }

  lemma BrokenRouted(q: RequestTable, u: Upload, n: nat, target: Conn, ok: bool)
    requires 0 < n <= |u.plan.items| && HasRoute(q, u) && RoutesOf(q, u.c)[u.i] == Route(target, u.plan.id)
    ensures var m := BrokenAt(u, n); var o := HandleFileChunk(q, u.c, u.i, m.index, m.final, m.compressed, m.next, ok);
      && About(o.sends, ToDaemon(u.plan.id)) == [] && About(o.sends, ChunkFailed(u.plan.id)) != []
      && o.state.issued == q.issued && o.state.routes == q.routes[u.c := RoutesOf(q, u.c) - {u.i}]
  {
    var m := BrokenAt(u, n);
    var o := HandleFileChunk(q, u.c, u.i, m.index, m.final, m.compressed, m.next, ok);
    var error := Tell(u.c, ErrResult(u.i, "failed to read binary chunk payload"), ChunkFailed(u.plan.id));
    assert o.sends == [error];
    hide About, RoutesOf, ErrResult;
    AboutOne(error, ToDaemon(u.plan.id));
    AboutOne(error, ChunkFailed(u.plan.id));
  }

  lemma BrokenUnrouted(q: RequestTable, u: Upload, n: nat, ok: bool)
    requires 0 < n <= |u.plan.items| && !HasRoute(q, u)
    ensures var m := BrokenAt(u, n); HandleFileChunk(q, u.c, u.i, m.index, m.final, m.compressed, m.next, ok) == Outcome(q, [])
  {
  }

  /** A header without its payload is not forwarded. */
  lemma BrokenSent(q: RequestTable, u: Upload, n: nat, ok: bool, out: seq<Sent>, failed: bool)
    requires UploadOk(u) && 0 < n <= |u.plan.items| && InStep(q, out, failed, u, n)
    ensures var m := BrokenAt(u, n); var o := HandleFileChunk(q, u.c, u.i, m.index, m.final, m.compressed, m.next, ok);
      && About(o.sends, ToDaemon(u.plan.id)) == [] && !HasRoute(o.state, u)
      && InStep(o.state, out, failed || About(o.sends, ChunkFailed(u.plan.id)) != [], u, n + 1)
  {
    hide HandleFileChunk, About, AreUnits, BrokenAt, UploadOk;
    if HasRoute(q, u) {
      BrokenRouted(q, u, n, q.issued[u.plan.id].target, ok);
    } else {
      BrokenUnrouted(q, u, n, ok);
      NothingAbout(ToDaemon(u.plan.id));
      NothingAbout(ChunkFailed(u.plan.id));
    }
  }

  lemma NothingAbout(why: Why)
    ensures About([], why) == []
  {
  }

  lemma FailedWeakens(q: RequestTable, out: seq<Sent>, u: Upload, n: nat, failed: bool, worse: bool)
    requires InStep(q, out, failed, u, n) && (failed ==> worse)
    ensures InStep(q, out, worse, u, n)
  {
    hide AreUnits;
  }

  /** A message that the hub does not take, of an upload that has no route. */
  lemma IgnoredMessage(q: RequestTable, out: seq<Sent>, failed: bool, u: Upload, n: nat)
    requires InStep(q, out, failed, u, n) && !HasRoute(q, u) && n <= |u.plan.items|
    requires n == 0 ==> R.TableIsOwn(q) && u.plan.id !in q.issued && out == []
    ensures InStep(q, out, failed, u, n + 1)
  {
    hide AreUnits;
  }

  /** A step that is not the upload's. */
  lemma OtherStep(h: Hub, e: Event, u: Upload, n: nat, out: seq<Sent>, failed: bool)
    requires Enabled(h, e) && !IsMine(e, u) && InStep(h.requests, out, failed, u, n) && (n > 0 ==> u.plan.id in h.used)
    ensures InStep(Next(h, e).requests, out, failed, u, n)
    ensures n > 0 ==> About(Step(h, e).sends, ToDaemon(u.plan.id)) == []
  {
    var q, q' := h.requests, Next(h, e).requests;
    StepRoutes(h, e, u.c, u.i);
    if n > 0 {
      assert u.plan.id in [u.plan.id] && (e.Arrive? ==> u.plan.id !in e.env.ids);
      StepIssued(h, e, u.plan.id);
      OwnRouteStays(h, e, u);
      OtherSends(h, e, u.plan.id);
      hide AreUnits, Next, Step, Enabled, About, OwnRoute;
    }
  }

  lemma OwnRouteStays(h: Hub, e: Event, u: Upload)
    requires Enabled(h, e) && OwnRoute(h.requests, u) && !IssuesRequest(e, u.plan.id)
    ensures OwnRoute(Next(h, e).requests, u)
  {
    var q, q' := h.requests, Next(h, e).requests;
    forall c, i | c in q'.routes && i in q'.routes[c] && q'.routes[c][i].req == u.plan.id ensures c == u.c && i == u.i {
      StepRoutes(h, e, c, i);
    }
  }

  // ---- Every run ----

  /** Chunks are routed for clients that may send them. */
  ghost predicate RoutesAllowed(h: Hub) {
    forall c, i :: c in h.requests.routes && i in h.requests.routes[c] ==> c in h.dir.peers && h.dir.peers[c].authenticated
  }

  lemma AuthenticationStays(h: Hub, e: Event, c: Conn)
    requires Enabled(h, e) && c in h.dir.peers
    ensures c in Next(h, e).dir.peers && Next(h, e).dir.peers[c].authenticated == h.dir.peers[c].authenticated
  {
    N.DirectoryStep(h, e);
    hide Next;
  }

  lemma RoutesStayAllowed(h: Hub, e: Event)
    requires Enabled(h, e) && RoutesAllowed(h)
    ensures RoutesAllowed(Next(h, e))
  {
    var q, q' := h.requests, Next(h, e).requests;
    forall c, i | c in q'.routes && i in q'.routes[c] ensures c in Next(h, e).dir.peers && Next(h, e).dir.peers[c].authenticated {
      StepRoutes(h, e, c, i);
      if i in RoutesOf(q, c) {
        AuthenticationStays(h, e, c);
      } else {
        AuthenticationStays(h, e, e.conn);
        if Barred(h, e.conn, e.message) { BarredKeeps(h, e); }
        hide Next, Step;
      }
    }
  }

  lemma BarredKeeps(h: Hub, e: Event)
    requires Enabled(h, e) && e.Arrive? && Barred(h, e.conn, e.message)
    ensures Next(h, e).requests == h.requests && forall r :: About(Step(h, e).sends, ToDaemon(r)) == [] && About(Step(h, e).sends, ChunkFailed(r)) == []
  {
    hide About, AuthRequiredReply;
    forall r ensures About(Step(h, e).sends, ToDaemon(r)) == [] && About(Step(h, e).sends, ChunkFailed(r)) == [] {
      AboutNone(Step(h, e).sends, ToDaemon(r));
      AboutNone(Step(h, e).sends, ChunkFailed(r));
    }
  }

  lemma SentUnderIssued(h: Hub, e: Event, r: Id)
    requires Enabled(h, e) && R.IdsAreOwn(h) && About(h.log, ToDaemon(r)) == [] && r !in h.requests.issued && r !in Next(h, e).requests.issued
    ensures About(Next(h, e).log, ToDaemon(r)) == []
  {
    NextAbout(h, e, ToDaemon(r));
    assert !(RouteFor(h, e).Some? && RouteFor(h, e).value.req == r);
    if IssuesRequest(e, r) {
      hide About;
      if Barred(h, e.conn, e.message) { BarredKeeps(h, e); } else { RefusedSends(WithIds(h, e.env), e, r); }
    } else {
      OtherSends(h, e, r);
    }
  }

  lemma RefusedSends(h: Hub, e: Event, r: Id)
    requires IssuesRequest(e, r) && EnvFor(e.message, e.env) && r !in HandleRequests(h, e.conn, e.message, e.env).state.issued
    ensures About(HandleRequests(h, e.conn, e.message, e.env).sends, ToDaemon(r)) == []
  {
    hide About, FindTarget;
    AboutNone(HandleRequests(h, e.conn, e.message, e.env).sends, ToDaemon(r));
  }

  /** A step that is the upload's. */
  lemma MyStep(h: Hub, e: Event, u: Upload, n: nat, out: seq<Sent>, failed: bool)
    requires Enabled(h, e) && IsMine(e, u) && Fits(e.message, u, n) && UploadOk(u)
    requires R.TableIsOwn(h.requests) && RoutesAllowed(h) && InStep(h.requests, out, failed, u, n)
    requires n == 0 ==> e.env.ids == [u.plan.id] && u.plan.id !in h.requests.issued && out == []
    ensures var more := failed || About(Step(h, e).sends, ChunkFailed(u.plan.id)) != [];
      InStep(Next(h, e).requests, out + About(Step(h, e).sends, ToDaemon(u.plan.id)), more, u, n + 1)
  {
    if Barred(h, e.conn, e.message) {
      BarredKeeps(h, e);
      assert out + [] == out && !HasRoute(h.requests, u);
      hide Next, Step, About;
      IgnoredMessage(h.requests, out, failed, u, n);
    } else if n == 0 {
      FirstStep(h, e, u);
      var o := HandleFileTransfer(h.requests, u.c, u.i, FindTarget(h.dir, u.target, u.token), u.plan.announce, u.plan.id, e.env.oks[0]);
      Announced(h.requests, u, FindTarget(h.dir, u.target, u.token), e.env.oks[0]);
      hide Next, Step, About, InStep, HandleFileTransfer, FindTarget;
      assert [] + About(o.sends, ToDaemon(u.plan.id)) == About(o.sends, ToDaemon(u.plan.id));
      FailedWeakens(o.state, About(o.sends, ToDaemon(u.plan.id)), u, 1, false, failed || About(Step(h, e).sends, ChunkFailed(u.plan.id)) != []);
    } else {
      LaterStep(h, e, u, n);
      hide Next, Step, About, InStep;
      if e.message == MessageAt(u, n) {
        ChunkSent(h.requests, u, n, e.env.oks[0], out, failed);
      } else {
        BrokenSent(h.requests, u, n, e.env.oks[0], out, failed);
        assert out + [] == out;
      }
    }
  }

  lemma FirstStep(h: Hub, e: Event, u: Upload)
    requires Enabled(h, e) && IsMine(e, u) && e.message == MessageAt(u, 0) && !Barred(h, e.conn, e.message) && e.env.ids == [u.plan.id]
    ensures var o := HandleFileTransfer(h.requests, u.c, u.i, FindTarget(h.dir, u.target, u.token), u.plan.announce, u.plan.id, e.env.oks[0]);
      Next(h, e).requests == o.state && Step(h, e).sends == o.sends
  {
    hide HandleFileTransfer, FindTarget;
  }

  lemma LaterStep(h: Hub, e: Event, u: Upload, n: nat)
    requires Enabled(h, e) && IsMine(e, u) && 0 < n && Fits(e.message, u, n) && !Barred(h, e.conn, e.message)
    ensures var m := e.message; var o := HandleFileChunk(h.requests, u.c, u.i, m.index, m.final, m.compressed, m.next, e.env.oks[0]);
      Next(h, e).requests == o.state && Step(h, e).sends == o.sends
  {
    hide HandleFileChunk;
  }

  ghost predicate UploadAt(h: Hub, u: Upload, n: nat) {
    && InStep(h.requests, About(h.log, ToDaemon(u.plan.id)), About(h.log, ChunkFailed(u.plan.id)) != [], u, n)
    && (n > 0 ==> u.plan.id in h.used)
  }

  lemma UploadStep(h: Hub, e: Event, u: Upload, n: nat)
    requires Enabled(h, e) && R.IdsAreOwn(h) && NotIssuedNotSent(h) && RoutesAllowed(h) && UploadOk(u) && UploadAt(h, u, n)
    requires IsMine(e, u) ==> Fits(e.message, u, n) && (n == 0 ==> e.env.ids == [u.plan.id])
    ensures UploadAt(Next(h, e), u, if IsMine(e, u) then n + 1 else n)
  {
    var out, failed := About(h.log, ToDaemon(u.plan.id)), About(h.log, ChunkFailed(u.plan.id)) != [];
    NextAbout(h, e, ToDaemon(u.plan.id));
    NextAbout(h, e, ChunkFailed(u.plan.id));
    UsedGrows(h, e);
    assert u.plan.id in [u.plan.id];
    if IsMine(e, u) {
      assert n == 0 ==> u.plan.id !in h.requests.issued;
      MyStep(h, e, u, n, out, failed);
      hide Next, Step, About, InStep, Enabled;
    } else {
      OtherStep(h, e, u, n, out, failed);
      hide Next, Step, About, Enabled;
      if n > 0 {
        hide InStep;
        assert out + [] == out;
        FailedWeakens(Next(h, e).requests, out, u, n, failed, About(Next(h, e).log, ChunkFailed(u.plan.id)) != []);
      }
    }
  }

  lemma UsedGrows(h: Hub, e: Event)
    requires Enabled(h, e)
    ensures h.used <= Next(h, e).used && (e.Arrive? ==> forall id :: id in e.env.ids ==> id in Next(h, e).used)
  {
    hide HandleRequests, HandleBatches, HandlePairing, HandleTunnels, HandleRegister, HandleDisconnect,
         HandleArm, HandleFire, CloseSends;
  }

  /** In every run nothing is sent to a daemon under an id that is no request's. */
  lemma {:induction false} NotSentAlways(hubs: seq<Hub>, events: seq<Event>, k: nat)
    requires IsRun(hubs, events) && k < |hubs|
    ensures NotIssuedNotSent(hubs[k])
  {
    hide IsRun, Enabled, Next;
    RunStarts(hubs, events);
    if k > 0 {
      RunSteps(hubs, events, k);
      NotSentAlways(hubs, events, k - 1);
      R.IdsAlwaysOwn(hubs, events, k - 1);
      hide R.IdsAreOwn;
      var h, e := hubs[k - 1], events[k - 1];
      forall r | r !in hubs[k].requests.issued ensures About(hubs[k].log, ToDaemon(r)) == [] {
        IssuedStays(h, e, r);
        SentUnderIssued(h, e, r);
      }
    }
  }

  lemma {:induction false} UploadAlways(hubs: seq<Hub>, events: seq<Event>, k: nat, u: Upload)
    requires IsRun(hubs, events) && k < |hubs| && UploadOk(u) && SendsInOrder(events, k, u)
    ensures NotIssuedNotSent(hubs[k]) && RoutesAllowed(hubs[k]) && UploadAt(hubs[k], u, MineCount(events, k, u))
  {
    hide IsRun, Enabled, Next, UploadOk, NotIssuedNotSent;
    RunStarts(hubs, events);
    NotSentAlways(hubs, events, k);
    if k > 0 {
      RunSteps(hubs, events, k);
      UploadAlways(hubs, events, k - 1, u);
      R.IdsAlwaysOwn(hubs, events, k - 1);
      hide R.IdsAreOwn, UploadAt, RoutesAllowed;
      var h, e := hubs[k - 1], events[k - 1];
      RoutesStayAllowed(h, e);
      UploadStep(h, e, u, MineCount(events, k - 1, u));
    }
  }

  /** A message of an upload that has no route any more is not forwarded. */
  lemma StoppedStays(h: Hub, e: Event, u: Upload, n: nat)
    requires Enabled(h, e) && UploadOk(u) && UploadAt(h, u, n) && n > 0 && !HasRoute(h.requests, u)
    requires IsMine(e, u) ==> Fits(e.message, u, n)
    ensures !HasRoute(Next(h, e).requests, u) && About(Step(h, e).sends, ToDaemon(u.plan.id)) == []
  {
    if !IsMine(e, u) {
      StepRoutes(h, e, u.c, u.i);
      OtherStep(h, e, u, n, About(h.log, ToDaemon(u.plan.id)), About(h.log, ChunkFailed(u.plan.id)) != []);
      hide Next, Step, About, InStep;
    } else if Barred(h, e.conn, e.message) {
      BarredKeeps(h, e);
      hide Next, Step, About, InStep;
    } else {
      LaterStep(h, e, u, n);
      hide Next, Step, InStep;
      assert About([], ToDaemon(u.plan.id)) == [];
      assert HandleFileChunk(h.requests, u.c, u.i, e.message.index, e.message.final, e.message.compressed, e.message.next, e.env.oks[0])
          == Outcome(h.requests, []);
    }
  }

  /** A header without its payload leaves the upload without a route, and unsent. */
  lemma BrokenStep(h: Hub, e: Event, u: Upload, n: nat)
    requires Enabled(h, e) && UploadOk(u) && UploadAt(h, u, n) && IsBroken(e, u) && Fits(e.message, u, n)
    requires RoutesAllowed(h)
    ensures n > 0 && !HasRoute(Next(h, e).requests, u) && About(Step(h, e).sends, ToDaemon(u.plan.id)) == []
    ensures |About(h.log, ToDaemon(u.plan.id))| <= n
  {
    assert n > 0 && e.message == BrokenAt(u, n) by { hide About, Next, Step; }
    if Barred(h, e.conn, e.message) {
      BarredKeeps(h, e);
      hide Next, Step, About;
    } else {
      LaterStep(h, e, u, n);
      hide Next, Step;
      BrokenSent(h.requests, u, n, e.env.oks[0], About(h.log, ToDaemon(u.plan.id)), About(h.log, ChunkFailed(u.plan.id)) != []);
    }
  }

  /** The upload has no route, and not all of the n messages that have come were passed on. */
  ghost predicate Stopped(h: Hub, u: Upload, n: nat) {
    !HasRoute(h.requests, u) && |About(h.log, ToDaemon(u.plan.id))| < n
  }

  lemma StopStep(h: Hub, e: Event, u: Upload, n: nat, broke: bool)
    requires Enabled(h, e) && UploadOk(u) && UploadAt(h, u, n) && RoutesAllowed(h)
    requires (IsMine(e, u) ==> Fits(e.message, u, n)) && (broke ==> Stopped(h, u, n))
    ensures broke || IsBroken(e, u) ==> Stopped(Next(h, e), u, if IsMine(e, u) then n + 1 else n)
  {
    hide Next, Step, Enabled, About, UploadAt, UploadOk, Fits, HasRoute, RoutesAllowed;
    NextAbout(h, e, ToDaemon(u.plan.id));
    if broke {
      StoppedStays(h, e, u, n);
    } else if IsBroken(e, u) {
      BrokenStep(h, e, u, n);
    }
  }

  /** In every run, once a header has come without its payload the upload has no route, and what
      was passed on of it is not all that has come. */
  lemma {:induction false} BrokenStops(hubs: seq<Hub>, events: seq<Event>, k: nat, u: Upload)
    requires IsRun(hubs, events) && k < |hubs| && UploadOk(u) && SendsInOrder(events, k, u)
    ensures k <= |events| && (Broke(events, k, u) ==> Stopped(hubs[k], u, MineCount(events, k, u)))
  {
    hide IsRun, Enabled, Next, UploadOk, Fits, IsMine, IsBroken, Stopped, UploadAt, RoutesAllowed, NotIssuedNotSent;
    RunStarts(hubs, events);
    if k > 0 {
      RunSteps(hubs, events, k);
      BrokenStops(hubs, events, k - 1, u);
      UploadAlways(hubs, events, k - 1, u);
      StopStep(hubs[k - 1], events[k - 1], u, MineCount(events, k - 1, u), Broke(events, k - 1, u));
      assert Broke(events, k, u) <==> Broke(events, k - 1, u) || IsBroken(events[k - 1], u);
    }
  }

  lemma IssuedStays(h: Hub, e: Event, r: Id)
    requires Enabled(h, e) && R.IdsAreOwn(h) && r !in Next(h, e).requests.issued
    ensures r !in h.requests.issued
  {
    if r in h.requests.issued {
      assert r in [r] && r in h.used;
      StepIssued(h, e, r);
      hide Next;
    }
  }

  /**
   In every run: whatever the hub has sent to a daemon under an upload's request are the first
   units of the upload's plan, in order, all to the connection that held the target's name
   when it was announced. Unless the announcement or a forward failed they are as many as the
   client has sent.
   */
  lemma UploadIsForwardedInOrder(hubs: seq<Hub>, events: seq<Event>, k: nat, u: Upload)
    requires IsRun(hubs, events) && k < |hubs| && UploadOk(u) && SendsInOrder(events, k, u) && MineCount(events, k, u) > 0
    ensures var h, r, n := hubs[k], u.plan.id, MineCount(events, k, u); var out := About(h.log, ToDaemon(r));
      if r !in h.requests.issued then out == []
      else
        var issued := h.requests.issued[r];
        && issued.request == Request(u.i, u.c)
        && |out| <= n && AreUnits(out, issued.target, u.plan, |out|)
        && (issued.forwarded && About(h.log, ChunkFailed(r)) == [] ==> |out| == n)
  {
    UploadAlways(hubs, events, k, u);
    hide IsRun, About, AreUnits;
  }
}
