/** The table of registered names, against the log of accepted registrations. */
module Names {
  import opened Basics
  import opened Protocol
  import opened RelayModel

  /** e is a registration of n by c that the hub accepts. */
  predicate Accepts(h: Hub, e: Event, c: Conn, n: Name) {
    && e.Arrive? && e.conn == c && e.message.Register? && e.message.name == n != "" && e.message.token != ""
    && c in h.dir.peers && (h.dir.peers[c].authenticated || n in h.dir.exempt)
    && (n in h.dir.clients ==> TokenOf(h.dir, h.dir.clients[n]) == e.message.token)
  }

  /** The connection whose registration of n was the last to be accepted. */
  function Latest(hubs: seq<Hub>, events: seq<Event>, k: nat, n: Name): Option<Conn>
    requires k <= |events| <= |hubs|
  {
    if k == 0 then None
    else if events[k - 1].Arrive? && Accepts(hubs[k - 1], events[k - 1], events[k - 1].conn, n) then Some(events[k - 1].conn)
    else Latest(hubs, events, k - 1, n)
  }

  predicate IsGone(d: Directory, c: Conn) {
    c in d.peers && d.peers[c].phase == Gone
  }

  /** c has ended while n was the name it had registered last. */
  predicate GaveUp(d: Directory, c: Conn, n: Name) {
    IsGone(d, c) && d.peers[c].name == n
  }

  ghost predicate Follows(d: Directory, n: Name, latest: Option<Conn>) {
    && (n in d.clients <==> latest.Some? && !GaveUp(d, latest.value, n))
    && (n in d.clients ==> d.clients[n] == latest.value)
    && (latest.Some? ==> latest.value in d.peers && d.peers[latest.value].registered)
  }

  /** Only registrations, new connections, refusals and ends change the directory. */
  lemma DirectoryStep(h: Hub, e: Event)
    requires Enabled(h, e)
    ensures var d, d' := h.dir, Next(h, e).dir;
      match e
      case Connect(c, auth) => d' == d.(peers := d.peers[c := Peer(auth, Up, false, "", "")])
      case Arrive(c, m, _) =>
        if m.Register? then d' == HandleRegister(d, c, m.name, m.token).state else d' == d || d' == SetPhase(d, c, Closing)
      case Down(c, _) => d' == if d.peers[c].registered then ReleaseName(SetPhase(d, c, Gone), c) else SetPhase(d, c, Gone)
      case _ => d' == d
  {
    hide HandleRequests, HandleBatches, HandlePairing, HandleTunnels, HandleRegister, HandleDisconnect,
         ReleaseName, SetPhase,
         HandleArm, HandleFire, ForgetRequests, ForgetListeners, SeverTunnels, CloseSends;
  }

  lemma FollowsStep(h: Hub, e: Event, n: Name, latest: Option<Conn>)
    requires Enabled(h, e) && Follows(h.dir, n, latest)
    ensures Follows(Next(h, e).dir, n, if e.Arrive? && Accepts(h, e, e.conn, n) then Some(e.conn) else latest)
  {
    DirectoryStep(h, e);
    hide Next;
  }

  /**
   In every run: a name is held by the connection whose registration of it was accepted last,
   unless that connection has ended with this name as its last one; then nobody holds it.
   */
  lemma {:induction false} NamesFollowTheLog(hubs: seq<Hub>, events: seq<Event>, k: nat, n: Name)
    requires IsRun(hubs, events) && k < |hubs|
    ensures Follows(hubs[k].dir, n, Latest(hubs, events, k, n))
  {
    hide IsRun, Enabled, Next;
    if k == 0 {
      RunStarts(hubs, events);
    } else {
      RunSteps(hubs, events, k);
      NamesFollowTheLog(hubs, events, k - 1, n);
      FollowsStep(hubs[k - 1], events[k - 1], n, Latest(hubs, events, k - 1, n));
    }
  }

  // ---- One name for each connection ----

  /** Among the first k events, no connection registers two names. */
  ghost predicate OneNameEach(hubs: seq<Hub>, events: seq<Event>, k: nat)
    requires k <= |events| <= |hubs|
  {
    forall i, j, c, n, m :: 0 <= i < k && 0 <= j < k && Accepts(hubs[i], events[i], c, n) && Accepts(hubs[j], events[j], c, m) ==> n == m
  }

  lemma NameStep(h: Hub, e: Event, c: Conn, n: Name)
    requires Enabled(h, e) && c in h.dir.peers && h.dir.peers[c].name == n
    ensures c in Next(h, e).dir.peers
    ensures Next(h, e).dir.peers[c].name == n || exists m :: m != n && Accepts(h, e, c, m)
  {
    DirectoryStep(h, e);
    hide Next;
    if e.Arrive? && e.message.Register? && Accepts(h, e, c, e.message.name) {
      assert e.conn == c;
    }
  }

  lemma AcceptedName(h: Hub, e: Event, c: Conn, n: Name)
    requires Enabled(h, e) && Accepts(h, e, c, n)
    ensures c in Next(h, e).dir.peers && Next(h, e).dir.peers[c].name == n
  {
    DirectoryStep(h, e);
    hide Next;
  }

  lemma {:induction false} KeepsItsName(hubs: seq<Hub>, events: seq<Event>, i: nat, k: nat, c: Conn, n: Name)
    requires IsRun(hubs, events) && i < k < |hubs| && Accepts(hubs[i], events[i], c, n) && OneNameEach(hubs, events, k)
    ensures c in hubs[k].dir.peers && hubs[k].dir.peers[c].name == n
    decreases k
  {
    hide IsRun, Enabled, Next, Accepts;
    RunSteps(hubs, events, k);
    if i == k - 1 {
      AcceptedName(hubs[i], events[i], c, n);
    } else {
      KeepsItsName(hubs, events, i, k - 1, c, n);
      NameStep(hubs[k - 1], events[k - 1], c, n);
    }
  }

  lemma {:induction false} LatestWasAccepted(hubs: seq<Hub>, events: seq<Event>, k: nat, n: Name) returns (i: nat)
    requires k <= |events| <= |hubs| && Latest(hubs, events, k, n).Some?
    ensures i < k && Accepts(hubs[i], events[i], Latest(hubs, events, k, n).value, n)
  {
    hide Accepts;
    if events[k - 1].Arrive? && Accepts(hubs[k - 1], events[k - 1], events[k - 1].conn, n) {
      i := k - 1;
    } else {
      i := LatestWasAccepted(hubs, events, k - 1, n);
    }
  }

  /** As long as no connection registers two names, a name is held by the latest to register
      it, if that connection has not ended, and by nobody otherwise. */
  lemma HeldByTheLatestIfItIsThere(hubs: seq<Hub>, events: seq<Event>, k: nat, n: Name)
    requires IsRun(hubs, events) && k < |hubs| && OneNameEach(hubs, events, k)
    ensures var d, latest := hubs[k].dir, Latest(hubs, events, k, n);
      && (n in d.clients <==> latest.Some? && !IsGone(d, latest.value))
      && (n in d.clients ==> d.clients[n] == latest.value)
  {
    NamesFollowTheLog(hubs, events, k, n);
    if Latest(hubs, events, k, n).Some? {
      var i := LatestWasAccepted(hubs, events, k, n);
      KeepsItsName(hubs, events, i, k, Latest(hubs, events, k, n).value, n);
    }
  }

  /** A second registration on the same connection leaves the first name behind: it still
      stands for the connection when that has ended. */
  lemma SecondRegistrationLeavesTheFirst() returns (hubs: seq<Hub>, events: seq<Event>)
    ensures IsRun(hubs, events)
    ensures var d := hubs[|events|].dir; "a" in d.clients && "b" !in d.clients && IsGone(d, d.clients["a"])
  {
    var h1, h2, h3 := RegisteredTwice();
    var h4 := EndsWithBoth(h3);
    hubs, events := RunOfTwo(h1, h2, h3);
    hide Next, Enabled, Init, IsGone, IsRun;
    RunGoesOn(hubs, events, Down(1, []), h4);
    hubs, events := hubs + [h4], events + [Down(1, [])];
  }

  lemma RunOfTwo(h1: Hub, h2: Hub, h3: Hub) returns (hubs: seq<Hub>, events: seq<Event>)
    requires Enabled(Init({}), Connect(1, true)) && h1 == Next(Init({}), Connect(1, true))
    requires Enabled(h1, TakesName("a", "x")) && h2 == Next(h1, TakesName("a", "x"))
    requires Enabled(h2, TakesName("b", "y")) && h3 == Next(h2, TakesName("b", "y"))
    ensures IsRun(hubs, events) && |hubs| == 4 && |events| == 3 && hubs[3] == h3
  {
    hide Next, Enabled, Init, IsRun, TakesName;
    RunBegins({});
    hubs, events := [Init({})], [];
    RunGoesOn(hubs, events, Connect(1, true), h1);
    hubs, events := hubs + [h1], events + [Connect(1, true)];
    RunGoesOn(hubs, events, TakesName("a", "x"), h2);
    hubs, events := hubs + [h2], events + [TakesName("a", "x")];
    RunGoesOn(hubs, events, TakesName("b", "y"), h3);
    hubs, events := hubs + [h3], events + [TakesName("b", "y")];
  }

  function TakesName(name: Name, id: Id): Event {
    Arrive(1, Register(name, "t"), Env([id], [true]))
  }

  lemma RegisteredTwice() returns (h1: Hub, h2: Hub, h3: Hub)
    ensures Enabled(Init({}), Connect(1, true)) && h1 == Next(Init({}), Connect(1, true))
    ensures Enabled(h1, TakesName("a", "x")) && h2 == Next(h1, TakesName("a", "x"))
    ensures Enabled(h2, TakesName("b", "y")) && h3 == Next(h2, TakesName("b", "y"))
    ensures h3.dir == Directory({}, map[1 := Peer(true, Up, true, "b", "t")], map["a" := 1, "b" := 1]) && h3.tunnels == TunnelTable(map[], map[])
    ensures h3.batches == Init({}).batches && h3.used == {"x", "y"}
  {
    h1 := Next(Init({}), Connect(1, true));
    assert h1.dir == Directory({}, map[1 := Peer(true, Up, false, "", "")], map[]) && h1.used == {};
    h2 := AfterRegister(h1, 1, "a", "t", Env(["x"], [true]));
    h3 := AfterRegister(h2, 1, "b", "t", Env(["y"], [true]));
  }

  lemma EndsWithBoth(h: Hub) returns (h': Hub)
    requires h.dir == Directory({}, map[1 := Peer(true, Up, true, "b", "t")], map["a" := 1, "b" := 1]) && h.tunnels == TunnelTable(map[], map[])
    ensures Enabled(h, Down(1, [])) && h' == Next(h, Down(1, []))
    ensures "a" in h'.dir.clients && "b" !in h'.dir.clients && IsGone(h'.dir, h'.dir.clients["a"])
  {
    assert WalksTunnels(h.tunnels, 1, []);
    h' := Next(h, Down(1, []));
    DirectoryStep(h, Down(1, []));
  }

  lemma AfterRegister(h: Hub, c: Conn, name: Name, token: Token, env: Env) returns (h': Hub)
    requires Enabled(h, Arrive(c, Register(name, token), env))
    ensures h' == Next(h, Arrive(c, Register(name, token), env))
    ensures h'.dir == HandleRegister(h.dir, c, name, token).state && h'.tunnels == h.tunnels
    ensures h'.used == (h.used + set id | id in env.ids) && h'.batches == h.batches
  {
    hide HandleRegister;
    h' := Next(h, Arrive(c, Register(name, token), env));
  }

  // ---- Tokens ----

  /** The token of a name that stays held changes exactly when its holder registers again
      (another name) with another token. */
  lemma TokenChangesIff(h: Hub, e: Event, n: Name)
    requires Enabled(h, e) && n in h.dir.clients && n in Next(h, e).dir.clients
    ensures var before, after := TokenOf(h.dir, h.dir.clients[n]), TokenOf(Next(h, e).dir, Next(h, e).dir.clients[n]);
      before != after <==> exists m :: m != n && Accepts(h, e, h.dir.clients[n], m) && e.message.token != before
  {
    DirectoryStep(h, e);
    hide Next;
    if e.Arrive? && e.message.Register? && Accepts(h, e, e.conn, e.message.name) {
      assert e.conn in h.dir.peers;
    }
  }

  /** While a name stays held its token is the same, if no connection registers two names. */
  lemma {:induction false} TokenIsKept(hubs: seq<Hub>, events: seq<Event>, a: nat, b: nat, n: Name)
    requires IsRun(hubs, events) && a <= b < |hubs| && OneNameEach(hubs, events, b)
    requires forall i :: a <= i <= b ==> n in hubs[i].dir.clients
    ensures TokenOf(hubs[b].dir, hubs[b].dir.clients[n]) == TokenOf(hubs[a].dir, hubs[a].dir.clients[n])
    decreases b
  {
    hide IsRun, Enabled, Next, Accepts, TokenOf;
    if a < b {
      RunSteps(hubs, events, b);
      TokenIsKept(hubs, events, a, b - 1, n);
      TokenChangesIff(hubs[b - 1], events[b - 1], n);
      NamesFollowTheLog(hubs, events, b - 1, n);
      var i := LatestWasAccepted(hubs, events, b - 1, n);
    }
  }
}
