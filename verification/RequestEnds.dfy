/** How a request ends for its client: by the answer, or by the error for a chunk that could not
    be forwarded. */
module RequestEnds {
  import opened Basics
  import opened Protocol
  import opened RelayModel
  import opened Forwarding
  import opened R = Requests
  import N = Names
  import Q = WriteQueue
  import S = Scenes

  // ---- What one step does ----

  /** The error for a chunk, to the client under its own id. */
  predicate IsChunkError(s: Sent, request: Request) {
    s.to == request.client && s.unit.Plain? && s.unit.text.Result? && s.unit.text.id == request.serverId && !s.unit.text.body.ok
  }

  /** A step that gives up the transfer r, whose chunks come in under route (c, i). */
  ghost predicate GivesUp(q: RequestTable, q': RequestTable, fails: seq<Sent>, c: Conn, i: Id, r: Id) {
    && i in RoutesOf(q, c) && RoutesOf(q, c)[i].req == r
    && |fails| == 1 && IsChunkError(fails[0], Request(i, c))
    && q' == Forget(DropRoute(q, c, i), r)
  }

  /** A chunk of the transfer r that its connection has a route for and that cannot be forwarded:
      its payload cannot be read, or the forward reports an error. */
  predicate ChunkFails(q: RequestTable, c: Conn, m: Incoming, ok: bool, r: Id) {
    && (m.FileChunk? || m.OldFileChunk?)
    && m.id in RoutesOf(q, c) && RoutesOf(q, c)[m.id].req == r
    && if m.FileChunk? && !m.next.Binary? then m.next.ReadFailed? else !ok
  }

  lemma ForwardGivesUp(q: RequestTable, c: Conn, i: Id, unit: Q.Unit<Msg>, final: bool, ok: bool, r: Id)
    requires i in RoutesOf(q, c)
    ensures var o := ForwardChunk(q, c, i, unit, final, ok); var fails := About(o.sends, ChunkFailed(r));
      if !ok && RoutesOf(q, c)[i].req == r then GivesUp(q, o.state, fails, c, i, r)
      else fails == [] && (r in o.state.lost <==> r in q.lost)
  {
    var o := ForwardChunk(q, c, i, unit, final, ok);
    hide About, RoutesOf, DropRoute;
    if ok {
      AboutOne(o.sends[0], ChunkFailed(r));
      assert o.sends == [o.sends[0]];
    } else {
      AboutTwo(o.sends[0], o.sends[1], ChunkFailed(r));
      assert o.sends == [o.sends[0], o.sends[1]];
      assert DropRoute(q, c, i).lost == q.lost && DropRoute(q, c, i).pending == q.pending by { DropRouteKeeps(q, c, i); }
    }
  }

  lemma DropRouteKeeps(q: RequestTable, c: Conn, i: Id)
    ensures var q' := DropRoute(q, c, i); q'.lost == q.lost && q'.pending == q.pending && q'.issued == q.issued
  {
  }

  lemma ChunkGivesUp(q: RequestTable, c: Conn, m: Incoming, ok: bool, r: Id)
    requires m.FileChunk? || m.OldFileChunk?
    ensures var o := if m.FileChunk? then HandleFileChunk(q, c, m.id, m.index, m.final, m.compressed, m.next, ok)
                     else HandleOldFileChunk(q, c, m.id, m.index, m.data, m.final, ok);
      var fails := About(o.sends, ChunkFailed(r));
      if ChunkFails(q, c, m, ok, r) then GivesUp(q, o.state, fails, c, m.id, r) else fails == [] && (r in o.state.lost <==> r in q.lost)
  {
    hide About, ForwardChunk, GivesUp, DropRoute, Forget, RoutesOf;
    AboutEmpty(ChunkFailed(r));
    if m.id in RoutesOf(q, c) {
      var req := RoutesOf(q, c)[m.id].req;
      if m.OldFileChunk? {
        ForwardGivesUp(q, c, m.id, Q.Plain(LegacyChunk(req, m.index, m.data, m.final)), m.final, ok, r);
      } else if m.next.Binary? {
        ForwardGivesUp(q, c, m.id, Q.Chunk(ChunkHeader(req, m.index, m.final, m.compressed), m.next.data), m.final, ok, r);
      } else if m.next.ReadFailed? {
        ReadGivesUp(q, c, m.id, r);
      }
    }
  }

  lemma AboutEmpty(why: Why)
    ensures About([], why) == []
  {
  }

  lemma ReadGivesUp(q: RequestTable, c: Conn, i: Id, r: Id)
    requires i in RoutesOf(q, c)
    ensures var o := FailChunk(q, c, i, RoutesOf(q, c)[i].req, [], "failed to read binary chunk payload");
      var fails := About(o.sends, ChunkFailed(r));
      if RoutesOf(q, c)[i].req == r then GivesUp(q, o.state, fails, c, i, r)
      else fails == [] && (r in o.state.lost <==> r in q.lost)
  {
    hide About, RoutesOf;
    var o := FailChunk(q, c, i, RoutesOf(q, c)[i].req, [], "failed to read binary chunk payload");
    assert o.sends == [o.sends[0]];
    AboutOne(o.sends[0], ChunkFailed(r));
  }

  lemma MessageGivesUp(h: Hub, c: Conn, m: Incoming, env: Env, r: Id)
    requires EnvFor(m, env) && OfRequests(h, m)
    ensures var q, o := h.requests, HandleRequests(h, c, m, env); var fails := About(o.sends, ChunkFailed(r));
      if ChunkFails(q, c, m, env.oks[0], r) then GivesUp(q, o.state, fails, c, m.id, r)
      else fails == [] && (r in o.state.lost <==> r in q.lost)
  {
    hide About, FindTarget, HandleFileChunk, HandleOldFileChunk, GivesUp, Issue;
    if m.FileChunk? || m.OldFileChunk? {
      ChunkGivesUp(h.requests, c, m, env.oks[0], r);
    } else {
      AboutNone(HandleRequests(h, c, m, env).sends, ChunkFailed(r));
      IssueKeepsLost(h.requests);
    }
  }

  lemma IssueKeepsLost(q: RequestTable)
    ensures forall req, issued :: Issue(q, req, issued).lost == q.lost
  {
  }

  /** An event in which a chunk of r fails, sent by a connection that may send it. */
  predicate FailsChunk(h: Hub, e: Event, r: Id) {
    && e.Arrive? && e.conn in h.dir.peers && EnvFor(e.message, e.env) && !Barred(h, e.conn, e.message)
    && !e.message.ExecuteMulti? && ChunkFails(h.requests, e.conn, e.message, e.env.oks[0], r)
  }

  /** A step that loses r gives it up, or is the end of its client's connection. */
  lemma StepGivesUp(h: Hub, e: Event, r: Id)
    requires Enabled(h, e)
    ensures var q, q', fails := h.requests, Next(h, e).requests, About(Step(h, e).sends, ChunkFailed(r));
      if FailsChunk(h, e, r) then GivesUp(q, q', fails, e.conn, e.message.id, r)
      else fails == [] && ((r in q'.lost <==> r in q.lost) || (r in q.pending && CutsOff(h, e, q.pending[r].client)))
  {
    if e.Arrive? {
      var g := WithIds(h, e.env);
      if !Barred(g, e.conn, e.message) && OfRequests(g, e.message) {
        MessageGivesUp(g, e.conn, e.message, e.env, r);
        hide HandleRequests, GivesUp, About, OfRequests, Barred;
      } else {
        OtherGivesUp(g, e.conn, e.message, e.env, r);
        hide Handle, GivesUp, About;
      }
    } else {
      StepTags(h, e);
      hide About, Filled, GivesUp;
      AboutNone(Step(h, e).sends, ChunkFailed(r));
    }
  }

  lemma OtherGivesUp(h: Hub, c: Conn, m: Incoming, env: Env, r: Id)
    requires c in h.dir.peers && EnvFor(m, env) && (Barred(h, c, m) || !OfRequests(h, m))
    ensures Handle(h, c, m, env).state.requests == h.requests && About(Handle(h, c, m, env).sends, ChunkFailed(r)) == []
  {
    HandleTags(h, c, m, env);
    hide HandleBatches, HandlePairing, HandleTunnels, HandleRegister, HandleDisconnect, OfPairing, OfTunnels,
         OfBatches, OfRequests, About;
    AboutNone(Handle(h, c, m, env).sends, ChunkFailed(r));
  }

  // ---- Every run ----

  /** A transfer's chunks come in under the route of its client's own id, until it is given up,
      once; its client is told then. */
  ghost predicate EndIs(q: RequestTable, fails: seq<Sent>, r: Id) {
    && (forall c, i :: c in q.routes && i in q.routes[c] && q.routes[c][i].req == r ==> OwnsRoute(q, c, i, r) && fails == [])
    && (fails != [] ==>
          && IsFile(q, r) && q.issued[r].forwarded && r !in q.pending
          && |fails| == 1 && IsChunkError(fails[0], q.issued[r].request))
  }

  /** The request r was forwarded for c, who calls it i. */
  predicate OwnsRoute(q: RequestTable, c: Conn, i: Id, r: Id) {
    r in q.issued && q.issued[r].forwarded && q.issued[r].request == Request(i, c)
  }

  /** A route that is new belongs to a request that is. */
  lemma NewRoute(h: Hub, e: Event, c: Conn, i: Id)
    requires Enabled(h, e) && i in RoutesOf(Next(h, e).requests, c)
    ensures var q, q' := h.requests, Next(h, e).requests; var route := RoutesOf(q', c)[i];
      (i in RoutesOf(q, c) && RoutesOf(q, c)[i] == route) || (IssuesRequest(e, route.req) && OwnsRoute(q', c, i, route.req))
  {
    StepRoutes(h, e, c, i);
    if e.Arrive? && e.conn == c && OfUpload(e.message, i) {
      if e.message.FileTransfer? && !Barred(h, c, e.message) {
        AnnouncedRoute(WithIds(h, e.env), e, i);
        hide HandleRequests;
      } else {
        hide HandleRequests, FindTarget;
        if Barred(h, c, e.message) { BarredKeeps(h, e); }
      }
    }
  }

  lemma AnnouncedRoute(h: Hub, e: Event, i: Id)
    requires e.Arrive? && e.message.FileTransfer? && e.message.id == i && EnvFor(e.message, e.env)
    ensures var q, q', c := h.requests, HandleRequests(h, e.conn, e.message, e.env).state, e.conn;
      i in RoutesOf(q', c) ==>
        (i in RoutesOf(q, c) && RoutesOf(q, c)[i] == RoutesOf(q', c)[i])
        || (IssuesRequest(e, RoutesOf(q', c)[i].req) && OwnsRoute(q', c, i, RoutesOf(q', c)[i].req))
  {
    hide FindTarget;
    assert e.env.ids == [e.env.ids[0]];
  }

  lemma StaysIssued(h: Hub, e: Event, r: Id)
    requires Enabled(h, e) && IdsAreOwn(h) && r in h.requests.issued
    ensures r in Next(h, e).requests.issued && Next(h, e).requests.issued[r] == h.requests.issued[r]
    ensures r !in h.requests.pending ==> r !in Next(h, e).requests.pending
  {
    hide About;
    if UnderId(e, r) {
      UnderIdStep(h, e, r);
      hide Next, Step;
    } else {
      StepEffect(h, e, r);
      hide Next, Step;
    }
  }

  lemma NotIssuedYet(h: Hub, e: Event, r: Id)
    requires Enabled(h, e) && IdsAreOwn(h) && IssuesRequest(e, r)
    ensures r !in h.requests.issued
  {
    assert r in e.env.ids;
  }

  lemma GivenUpOnce(q: RequestTable, q': RequestTable, fails: seq<Sent>, c: Conn, i: Id, r: Id)
    requires TableIsOwn(q) && EndIs(q, [], r) && GivesUp(q, q', fails, c, i, r)
    ensures EndIs(q', fails, r)
  {
    assert c in q.routes && i in q.routes[c] && RouteFits(q, c, q.routes[c][i]) && OwnsRoute(q, c, i, r);
    forall c', i' | c' in q'.routes && i' in q'.routes[c'] ensures q'.routes[c'][i'].req != r {
      assert c' in q.routes && i' in q.routes[c'] && q.routes[c'][i'] == q'.routes[c'][i'] && (c' != c || i' != i);
      assert q.routes[c'][i'].req == r ==> OwnsRoute(q, c', i', r);
    }
  }

  lemma RoutesStay(h: Hub, e: Event, fails: seq<Sent>, r: Id)
    requires Enabled(h, e) && IdsAreOwn(h) && EndIs(h.requests, fails, r)
    ensures EndIs(Next(h, e).requests, fails, r)
  {
    var q, q' := h.requests, Next(h, e).requests;
    if r in q.issued { StaysIssued(h, e, r); }
    forall c, i | c in q'.routes && i in q'.routes[c] && q'.routes[c][i].req == r ensures OwnsRoute(q', c, i, r) && fails == [] {
      NewRoute(h, e, c, i);
      if IssuesRequest(e, r) { NotIssuedYet(h, e, r); }
      hide Next, IssuesRequest, Enabled, IdsAreOwn;
      assert i in RoutesOf(q, c) ==> c in q.routes && i in q.routes[c];
    }
  }

  lemma EndStep(h: Hub, e: Event, r: Id)
    requires Enabled(h, e) && IdsAreOwn(h) && EndIs(h.requests, About(h.log, ChunkFailed(r)), r)
    ensures EndIs(Next(h, e).requests, About(Next(h, e).log, ChunkFailed(r)), r)
  {
    var q, fails := h.requests, About(h.log, ChunkFailed(r));
    NextAbout(h, e, ChunkFailed(r));
    StepGivesUp(h, e, r);
    var more := About(Step(h, e).sends, ChunkFailed(r));
    if more == [] {
      assert fails + [] == fails;
      RoutesStay(h, e, fails, r);
    } else {
      assert e.conn in q.routes && e.message.id in q.routes[e.conn] && q.routes[e.conn][e.message.id].req == r;
      assert [] + more == more;
      assert TableIsOwn(q) && EndIs(q, [], r);
      hide Next, Step, About, GivesUp, EndIs, TableIsOwn;
      GivenUpOnce(q, Next(h, e).requests, more, e.conn, e.message.id, r);
    }
  }

  lemma {:induction false} EndsAlways(hubs: seq<Hub>, events: seq<Event>, k: nat, r: Id)
    requires IsRun(hubs, events) && k < |hubs|
    ensures EndIs(hubs[k].requests, About(hubs[k].log, ChunkFailed(r)), r)
  {
    hide IsRun, Enabled, Next, IdsAreOwn;
    if k == 0 {
      RunStarts(hubs, events);
    } else {
      RunSteps(hubs, events, k);
      EndsAlways(hubs, events, k - 1, r);
      IdsAlwaysOwn(hubs, events, k - 1);
      hide EndIs, About;
      EndStep(hubs[k - 1], events[k - 1], r);
    }
  }

  lemma {:induction false} LostIsToldOrCutOff(hubs: seq<Hub>, events: seq<Event>, k: nat, r: Id) returns (i: nat)
    requires IsRun(hubs, events) && k < |hubs| && r in hubs[k].requests.lost
    ensures About(hubs[k].log, ChunkFailed(r)) != []
      || (i < k && r in hubs[k].requests.issued && CutsOff(hubs[i], events[i], hubs[k].requests.issued[r].request.client))
  {
    hide IsRun, Enabled, Next, IdsAreOwn, CutsOff, About;
    RunStarts(hubs, events);
    RunSteps(hubs, events, k);
    IdsAlwaysOwn(hubs, events, k - 1);
    var h, e := hubs[k - 1], events[k - 1];
    LostStep(h, e, r);
    NextAbout(h, e, ChunkFailed(r));
    StepGivesUp(h, e, r);
    hide Step, GivesUp;
    if r in h.requests.lost {
      i := LostIsToldOrCutOff(hubs, events, k - 1, r);
    } else {
      i := k - 1;
    }
  }

  /** The first failure of a chunk. */
  lemma {:induction false} FirstFailure(hubs: seq<Hub>, events: seq<Event>, k: nat, r: Id) returns (i: nat)
    requires IsRun(hubs, events) && k < |hubs| && About(hubs[k].log, ChunkFailed(r)) != []
    ensures i < k && FailsChunk(hubs[i], events[i], r)
  {
    hide IsRun, Enabled, Next, About, FailsChunk;
    RunStarts(hubs, events);
    if k == 0 {
      AboutEmpty(ChunkFailed(r));
      assert false;
    } else {
      RunSteps(hubs, events, k);
      NextAbout(hubs[k - 1], events[k - 1], ChunkFailed(r));
      StepGivesUp(hubs[k - 1], events[k - 1], r);
      hide Step, GivesUp;
      if About(hubs[k - 1].log, ChunkFailed(r)) != [] {
        i := FirstFailure(hubs, events, k - 1, r);
      } else {
        i := k - 1;
      }
    }
  }

  lemma {:induction false} LostStays(hubs: seq<Hub>, events: seq<Event>, i: nat, k: nat, r: Id)
    requires IsRun(hubs, events) && i <= k < |hubs|
    ensures r in hubs[i].requests.lost ==> r in hubs[k].requests.lost
    ensures About(hubs[i].log, ChunkFailed(r)) != [] ==> About(hubs[k].log, ChunkFailed(r)) != []
    decreases k
  {
    hide IsRun, Enabled, Next, About, FailsChunk;
    if i < k {
      RunSteps(hubs, events, k);
      LostStays(hubs, events, i, k - 1, r);
      LostGrows(hubs[k - 1], events[k - 1], r);
      NextAbout(hubs[k - 1], events[k - 1], ChunkFailed(r));
    }
  }

  lemma LostGrows(h: Hub, e: Event, r: Id)
    requires Enabled(h, e)
    ensures r in h.requests.lost ==> r in Next(h, e).requests.lost
  {
    StepGivesUp(h, e, r);
    hide Next, Step, FailsChunk, About;
  }

  /** A connection that has ended is heard no more. */
  lemma {:induction false} GoneStays(hubs: seq<Hub>, events: seq<Event>, j: nat, k: nat, c: Conn)
    requires IsRun(hubs, events) && j < k < |hubs| && CutsOff(hubs[j], events[j], c)
    ensures c in hubs[k].dir.peers && hubs[k].dir.peers[c].phase == Gone
    decreases k
  {
    hide IsRun, Next;
    RunSteps(hubs, events, k);
    N.DirectoryStep(hubs[k - 1], events[k - 1]);
    if j < k - 1 { GoneStays(hubs, events, j, k - 1, c); }
  }

  /** What a failing chunk finds: its sender is the request's client, which has not been told of
      a failure before; the request is open or answered, and it is lost if it was open. */
  lemma FailureIs(hubs: seq<Hub>, events: seq<Event>, i: nat, r: Id)
    requires IsRun(hubs, events) && i < |events| && FailsChunk(hubs[i], events[i], r)
    ensures var q, q' := hubs[i].requests, hubs[i + 1].requests;
      && r in q.issued && events[i].conn == q.issued[r].request.client
      && About(hubs[i].log, ChunkFailed(r)) == [] && About(hubs[i + 1].log, ChunkFailed(r)) != []
      && r !in q.lost && (r in q.pending ==> r in q'.lost)
  {
    var h, e := hubs[i], events[i];
    RunSteps(hubs, events, i + 1);
    EndsAlways(hubs, events, i, r);
    StepGivesUp(h, e, r);
    NextAbout(h, e, ChunkFailed(r));
    assert e.conn in h.requests.routes && e.message.id in h.requests.routes[e.conn] && h.requests.routes[e.conn][e.message.id].req == r;
    assert OwnsRoute(h.requests, e.conn, e.message.id, r);
    hide IsRun, Next, Step, About, FailsChunk;
    DropRouteKeeps(h.requests, e.conn, e.message.id);
    if r in h.requests.lost {
      var j := LostIsToldOrCutOff(hubs, events, i, r);
      GoneStays(hubs, events, j, i, e.conn);
    }
  }

  /** An answer that was passed on stays passed on. */
  lemma AnsweredAt(hubs: seq<Hub>, events: seq<Event>, k: nat, r: Id)
    requires IsRun(hubs, events) && k < |hubs| && EchoOnly(hubs, events, k, r) && r in hubs[k].requests.issued
    ensures Answered(About(hubs[k].log, ToClient(r))) <==> r !in hubs[k].requests.pending && r !in hubs[k].requests.lost
  {
    hide IsRun, Heard, EchoOnly, About, UpToEnd, Tells, ForwardFailed, Answered;
    RequestConserved(hubs, events, k, r);
  }

  lemma {:induction false} IssuedSince(hubs: seq<Hub>, events: seq<Event>, i: nat, k: nat, r: Id)
    requires IsRun(hubs, events) && i <= k < |hubs| && r in hubs[i].requests.issued
    ensures r in hubs[k].requests.issued && hubs[k].requests.issued[r] == hubs[i].requests.issued[r]
    ensures r !in hubs[i].requests.pending ==> r !in hubs[k].requests.pending
    decreases k
  {
    hide IsRun, Enabled, Next, IdsAreOwn;
    if i < k {
      RunSteps(hubs, events, k);
      IssuedSince(hubs, events, i, k - 1, r);
      IdsAlwaysOwn(hubs, events, k - 1);
      StaysIssued(hubs[k - 1], events[k - 1], r);
    }
  }

  /** Once a request is neither open nor lost it is never lost. */
  lemma {:induction false} NotLostLater(hubs: seq<Hub>, events: seq<Event>, i: nat, k: nat, r: Id)
    requires IsRun(hubs, events) && i <= k < |hubs| && r in hubs[i].requests.issued
    requires r !in hubs[i].requests.pending && r !in hubs[i].requests.lost
    ensures r !in hubs[k].requests.lost
    decreases k
  {
    hide IsRun, Enabled, Next, IdsAreOwn;
    if i < k {
      RunSteps(hubs, events, k);
      NotLostLater(hubs, events, i, k - 1, r);
      IssuedSince(hubs, events, i, k - 1, r);
      IdsAlwaysOwn(hubs, events, k - 1);
      if r in hubs[k].requests.lost { LostStep(hubs[k - 1], events[k - 1], r); }
    }
  }

  /** A chunk of r fails when r is no longer open. */
  ghost predicate FailsTooLate(hubs: seq<Hub>, events: seq<Event>, k: nat, r: Id)
    requires k <= |events| && k <= |hubs|
  {
    exists i :: 0 <= i < k && FailsChunk(hubs[i], events[i], r) && r !in hubs[i].requests.pending
  }

  /**
   In every run, for every request: its client is told at most once that a chunk could not be
   forwarded, and only about a transfer that was. A request that is lost is lost because its client
   was told so, or because its client's connection ended. Its client is told twice, by an answer
   and by such an error, if and only if a chunk of it failed when it was no longer open.
   */
  lemma EachRequestEndsOnce(hubs: seq<Hub>, events: seq<Event>, k: nat, r: Id) returns (i: nat)
    requires IsRun(hubs, events) && k < |hubs| && EchoOnly(hubs, events, k, r) && r in hubs[k].requests.issued
    ensures k <= |events|
    ensures var q := hubs[k].requests; var out, fails := About(hubs[k].log, ToClient(r)), About(hubs[k].log, ChunkFailed(r));
      && |fails| <= 1
      && (fails != [] ==> IsFile(q, r) && q.issued[r].forwarded && IsChunkError(fails[0], q.issued[r].request) && r !in q.pending)
      && (r in q.lost ==> fails != [] || (i < k && CutsOff(hubs[i], events[i], q.issued[r].request.client)))
      && (Answered(out) && fails != [] <==> FailsTooLate(hubs, events, k, r))
  {
    hide IsRun, Heard, EchoOnly, About, UpToEnd, Tells, ForwardFailed, Answered, CutsOff, FailsChunk;
    RunStarts(hubs, events);
    EndsAlways(hubs, events, k, r);
    i := 0;
    if r in hubs[k].requests.lost { i := LostIsToldOrCutOff(hubs, events, k, r); }
    ToldTwiceIff(hubs, events, k, r);
  }

  lemma ToldTwiceIff(hubs: seq<Hub>, events: seq<Event>, k: nat, r: Id)
    requires IsRun(hubs, events) && k < |hubs| == |events| + 1 && EchoOnly(hubs, events, k, r) && r in hubs[k].requests.issued
    ensures Answered(About(hubs[k].log, ToClient(r))) && About(hubs[k].log, ChunkFailed(r)) != [] <==> FailsTooLate(hubs, events, k, r)
  {
    hide IsRun, EchoOnly, About, Answered, FailsChunk;
    AnsweredAt(hubs, events, k, r);
    if About(hubs[k].log, ChunkFailed(r)) != [] && r !in hubs[k].requests.lost {
      var i := FirstFailure(hubs, events, k, r);
      FailureIs(hubs, events, i, r);
      LostStays(hubs, events, i + 1, k, r);
      EndsAlways(hubs, events, k, r);
    }
    if FailsTooLate(hubs, events, k, r) {
      var i :| 0 <= i < k && FailsChunk(hubs[i], events[i], r) && r !in hubs[i].requests.pending;
      FailureIs(hubs, events, i, r);
      LostStays(hubs, events, i + 1, k, r);
      IssuedSince(hubs, events, i, k, r);
      NotLostLater(hubs, events, i, k, r);
    }
  }

  function TwiceEvents(): seq<Event> {
    [Connect(1, true), Arrive(1, Register("t", "k"), S.Ids("x")), Connect(2, true),
     Arrive(2, Incoming.FileTransfer("u", "t", "k", Announce("scp", "src", "dst", "", true, 2, 2, 1, 0)), S.Ids("r")),
     Arrive(1, Incoming.FileTransferResult("r", Body(false, "")), S.Ids("y")),
     Arrive(2, FileChunk("u", 0, false, false, Binary([7])), Env(["z"], [false]))]
  }

  lemma Announcing() returns (s: S.Scene)
    ensures S.Ok(s) && s.events == TwiceEvents()[..4] && |s.hubs| == 5
    ensures var h := S.Now(s);
      && h.dir == Directory({}, map[1 := Peer(true, Up, true, "t", "k"), 2 := Peer(true, Up, false, "", "")], map["t" := 1])
      && h.used == {"x", "r"} && h.batches == Init({}).batches
      && h.requests.pending == map["r" := Request("u", 2)] && h.requests.routes == map[2 := map["u" := Route(1, "r")]]
      && |h.log| == 2 && h.log[0].why == Direct && h.log[1].why == ToDaemon("r")
  {
    hide S.Ok;
    var e := TwiceEvents();
    s := S.Start();
    s := S.Connects(s, 1, true);
    s := S.Registers(s, 1, "t", "k", "x");
    s := S.Connects(s, 2, true);
    assert S.Now(s).dir == Directory({}, map[1 := Peer(true, Up, true, "t", "k"), 2 := Peer(true, Up, false, "", "")], map["t" := 1]);
    s := S.Requested(s, 2, e[3].message, e[3].env);
  }

  lemma AnsweredEarly() returns (s: S.Scene)
    ensures S.Ok(s) && s.events == TwiceEvents()[..5] && |s.hubs| == 6
    ensures var h := S.Now(s);
      && h.dir == Directory({}, map[1 := Peer(true, Up, true, "t", "k"), 2 := Peer(true, Up, false, "", "")], map["t" := 1])
      && h.used == {"x", "r", "y"} && h.requests.pending == map[] && h.requests.routes == map[2 := map["u" := Route(1, "r")]]
      && |h.log| == 3 && h.log[0].why == Direct && h.log[1].why == ToDaemon("r")
      && h.log[2] == Tell(2, Msg.Result("u", Body(false, "")), ToClient("r"))
  {
    hide S.Ok;
    s := Announcing();
    var e := TwiceEvents()[4];
    s := S.Requested(s, 1, e.message, e.env);
  }

  /** A run in which the target answers before all chunks have come, and the next chunk cannot be
      forwarded: the client is told twice. */
  lemma ToldTwice() returns (hubs: seq<Hub>)
    ensures IsRun(hubs, TwiceEvents()) && |hubs| == 7
    ensures About(hubs[6].log, ToClient("r")) == [Tell(2, Msg.Result("u", Body(false, "")), ToClient("r"))]
    ensures About(hubs[6].log, ChunkFailed("r")) == [Tell(2, ErrResult("u", "failed to forward file chunk"), ChunkFailed("r"))]
  {
    hide S.Ok, About;
    var s := AnsweredEarly();
    var e := TwiceEvents()[5];
    s := S.Requested(s, 2, e.message, e.env);
    assert s.events == TwiceEvents();
    S.IsARun(s);
    hubs := s.hubs;
    TwiceIsLogged(hubs[6].log);
  }

  lemma TwiceIsLogged(log: seq<Sent>)
    requires |log| == 5 && log[0].why == Direct && log[1].why == ToDaemon("r") && log[3].why == ToDaemon("r")
    requires log[2].why == ToClient("r") && log[4].why == ChunkFailed("r")
    ensures About(log, ToClient("r")) == [log[2]] && About(log, ChunkFailed("r")) == [log[4]]
  {
    AboutSingle(log, 2, ToClient("r"));
    AboutSingle(log, 4, ChunkFailed("r"));
  }
}
