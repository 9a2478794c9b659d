/**
 Two uploads to one target, of which one is done first: its result closes the target's queue
 while the other's first chunk waits in it, and the other's last chunk goes past it. The file
 is wrong, and its client is told that all is well.
 */
module OvertakenUpload {
  import opened Basics
  import opened Protocol
  import opened RelayModel
  import opened Reassembly
  import opened Forwarding
  import opened EndToEnd
  import opened EndScenes
  import D = DaemonModel
  import Q = WriteQueue
  import W = QueueReading
  import R = Requests
  import N = Scenes
  import S = Senders

  function TheAnnounce(): Announce { Announce("scp", "src", "dst", "", true, 2, 2, 0, 0) }
  function OtherAnnounce(): Announce { Announce("scp", "src", "else", "", true, 1, 1, 0, 0) }

  function TheUpload(): Upload {
    Upload(2, "u", "t", "k", Plan("b", TheAnnounce(), [S.Item(0, false, [7]), S.Item(1, true, [8])], NoGzip()))
  }

  predicate IsOwn(v: Q.Unit<Msg>) {
    (v.Plain? && v.text.FileInit? && v.text.id == "b") || (v.Chunk? && v.header.ChunkHeader? && v.header.id == "b")
  }

  function TheEvents(): seq<Event> {
    [Connect(1, true), Arrive(1, Register("t", "k"), N.Ids("x")), Connect(2, true), Connect(3, true),
     Arrive(2, Incoming.FileTransfer("u", "t", "k", TheAnnounce()), N.Ids("b")),
     Arrive(3, Incoming.FileTransfer("v", "t", "k", OtherAnnounce()), N.Ids("a")),
     Arrive(3, FileChunk("v", 0, true, false, Binary([9])), N.Ids("c")),
     Arrive(2, FileChunk("u", 0, false, false, Binary([7])), N.Ids("d")),
     Arrive(1, Incoming.FileTransferResult("a", Body(true, "")), N.Ids("e")),
     Arrive(2, FileChunk("u", 1, true, false, Binary([8])), N.Ids("f")),
     Arrive(1, Incoming.FileTransferResult("b", Body(true, "")), N.Ids("g"))]
  }

  /** What is written before the queue is closed, and the two chunks of the upload. */
  function Early(): seq<Q.Unit<Msg>> {
    [Q.Plain(Registered("t")), Q.Plain(FileInit("b", TheAnnounce())), Q.Plain(FileInit("a", OtherAnnounce())),
     Q.Chunk(ChunkHeader("a", 0, true, false), [9])]
  }

  function FirstChunk(): Q.Unit<Msg> { Q.Chunk(ChunkHeader("b", 0, false, false), [7]) }
  function LastChunk(): Q.Unit<Msg> { Q.Chunk(ChunkHeader("b", 1, true, false), [8]) }

  // ---- The hub ----

  ghost predicate Copied(h: Hub) {
    && h.requests.issued == map["b" := Issued(Request("u", 2), 1, Some(TheAnnounce()), true),
                                "a" := Issued(Request("v", 3), 1, Some(OtherAnnounce()), true)]
    && h.log == [Tell(1, Registered("t"), Direct), Sent(1, Early()[1], ToDaemon("b")), Sent(1, Early()[2], ToDaemon("a")),
                 Sent(1, Early()[3], ToDaemon("a")), Sent(1, FirstChunk(), ToDaemon("b")), Tell(3, Msg.Result("v", Body(true, "")), ToClient("a")),
                 Sent(1, LastChunk(), ToDaemon("b")), Tell(2, Msg.Result("u", Body(true, "")), ToClient("b"))]
  }

  /** Up to the announcement of both. */
  lemma Announced() returns (s: N.Scene)
    ensures N.Ok(s) && s.events == TheEvents()[..6] && |s.hubs| == 7
    ensures var h := N.Now(s);
      && TargetIsUp(h) && N.CanSend(h, 1, "e") && N.CanSend(h, 2, "d") && N.CanSend(h, 3, "c") && h.used == {"x", "b", "a"}
      && h.requests.issued == map["b" := Issued(Request("u", 2), 1, Some(TheAnnounce()), true),
                                  "a" := Issued(Request("v", 3), 1, Some(OtherAnnounce()), true)]
      && h.requests.pending == map["b" := Request("u", 2), "a" := Request("v", 3)]
      && h.requests.routes == map[2 := map["u" := Route(1, "b")], 3 := map["v" := Route(1, "a")]]
      && h.log == [Tell(1, Registered("t"), Direct), Sent(1, Early()[1], ToDaemon("b")), Sent(1, Early()[2], ToDaemon("a"))]
  {
    hide N.Ok;
    s := N.Start();
    s := N.Connects(s, 1, true);
    s := N.Registers(s, 1, "t", "k", "x");
    s := N.Connects(s, 2, true);
    s := N.Connects(s, 3, true);
    s := Announces(s, 2, "u", TheAnnounce(), "b");
    s := Announces(s, 3, "v", OtherAnnounce(), "a");
  }

  lemma TheScene() returns (s: N.Scene)
    ensures N.Ok(s) && s.events == TheEvents() && |s.hubs| == 12 && Copied(s.hubs[11]) && "b" in s.hubs[10].requests.issued
  {
    hide N.Ok, TheAnnounce, OtherAnnounce;
    s := Announced();
    s := SendsChunk(s, 3, "v", 0, true, [9], "a", "c");
    s := SendsChunk(s, 2, "u", 0, false, [7], "b", "d");
    s := Answers(s, "a", true, "e");
    s := SendsChunk(s, 2, "u", 1, true, [8], "b", "f");
    s := Answers(s, "b", true, "g");
  }

  // ---- The queue ----

  /** One more step of the queue. */
  lemma Acts(states: seq<Q.State<Msg>>, actions: seq<Q.Action<Msg>>, a: Q.Action<Msg>)
    returns (states': seq<Q.State<Msg>>, actions': seq<Q.Action<Msg>>)
    requires Q.IsRunFromStart(states, actions) && |states| == |actions| + 1 && Q.Enabled(states[|actions|], a)
    ensures Q.IsRunFromStart(states', actions') && |states'| == |actions'| + 1
    ensures states' == states + [Q.Next(states[|actions|], a)] && actions' == actions + [a]
  {
    QueueRunGoesOn(states, actions, a);
    states', actions' := states + [Q.Next(states[|actions|], a)], actions + [a];
  }

  /** The first chunk is queued, the queue is closed, and the last chunk goes past it. */
  lemma TheQueue() returns (states: seq<Q.State<Msg>>, actions: seq<Q.Action<Msg>>, n: nat)
    ensures Q.IsRunFromStart(states, actions) && |states| == |actions| + 1 && 0 < n < |actions|
    ensures actions[n - 1] == Q.Close && actions[n] == Q.LockSender(LastChunk()) && Q.Waiting(states[n]) == [FirstChunk()]
    ensures var s := states[|actions|];
      && s.lock.Free? && !s.failed && !s.stopped && Q.Waiting(s) == [FirstChunk()]
      && s.calls == Early() + [FirstChunk(), LastChunk()] && s.taken == Early() + [LastChunk()]
  {
    hide Q.IsRunFromStart, AtOnce, Early;
    states, actions := WrittenAtOnce(Early());
    OnceIsARun(states, actions);
    var calls := Early();
    states, actions := Acts(states, actions, Q.Start);
    states, actions := Acts(states, actions, Q.Enqueue(FirstChunk()));
    states, actions := Acts(states, actions, Q.Close);
    n := |actions|;
    states, actions := Acts(states, actions, Q.LockSender(LastChunk()));
    states, actions := Acts(states, actions, Q.Write(true));
    states, actions := Acts(states, actions, Q.Write(true));
    states, actions := Acts(states, actions, Q.Unlock);
  }

  lemma OnceIsARun(states: seq<Q.State<Msg>>, actions: seq<Q.Action<Msg>>)
    requires AtOnce(states, actions)
    ensures Q.IsRunFromStart(states, actions) && |states| == |actions| + 1
  {
  }

  // ---- What the theorems ask for ----

  lemma CallsMatch(h: Hub)
    requires Copied(h)
    ensures CallsTo(h.log, 1) == Early() + [FirstChunk(), LastChunk()]
    ensures ToldOf(h.log, "b") == [Tell(2, Msg.Result("u", Body(true, "")), ToClient("b"))] && About(h.log, ChunkFailed("b")) == []
  {
    var log := h.log;
    hide About, CallsTo, TheAnnounce, OtherAnnounce;
    AboutSingle(log, 7, ToClient("b"));
    AboutNone(log, ChunkFailed("b"));
    assert log[..6] + [log[6]] + [log[7]] == log;
    CallsAre(log[..6], 1, 5);
    FiveAre(log[..6], Early() + [FirstChunk()]);
    hide Early, FirstChunk, LastChunk;
    CallsToNext(log[..6], log[6], 1);
    CallsToNext(log[..6] + [log[6]], log[7], 1);
  }

  lemma FiveAre(log: seq<Sent>, units: seq<Q.Unit<Msg>>)
    requires |units| == 5 <= |log| && forall i :: 0 <= i < 5 ==> log[i].unit == units[i]
    ensures seq(5, i requires 0 <= i < 5 => log[i].unit) == units
  {
  }

  lemma MineAre()
    ensures |TheEvents()| == 11 && forall j :: 0 <= j < 11 ==> (IsMine(TheEvents()[j], TheUpload()) <==> j == 4 || j == 7 || j == 9)
    ensures TheEvents()[4].message == MessageAt(TheUpload(), 0) && TheEvents()[4].env.ids == ["b"]
    ensures TheEvents()[7].message == MessageAt(TheUpload(), 1) && TheEvents()[9].message == MessageAt(TheUpload(), 2)
  {
  }

  lemma {:induction false} CountsAre(k: nat)
    requires k <= |TheEvents()| == 11
    ensures MineCount(TheEvents(), k, TheUpload()) == if k <= 4 then 0 else if k <= 7 then 1 else if k <= 9 then 2 else 3
  {
    MineAre();
    hide IsMine, MessageAt, TheEvents;
    if k > 0 { CountsAre(k - 1); }
  }

  lemma InOrder()
    ensures |TheEvents()| == 11 && MineCount(TheEvents(), 11, TheUpload()) == 3 && SendsInOrder(TheEvents(), 11, TheUpload())
  {
    MineAre();
    hide IsMine, MessageAt, TheEvents, MineCount;
    forall k: nat | k <= 11 ensures MineCount(TheEvents(), k, TheUpload()) == if k <= 4 then 0 else if k <= 7 then 1 else if k <= 9 then 2 else 3 {
      CountsAre(k);
    }
  }

  lemma AnswerIs()
    ensures |TheEvents()| == 11 && R.Heard(TheEvents(), 11, "b") == [Incoming.FileTransferResult("b", Body(true, ""))]
    ensures forall i :: 0 <= i < 11 ==> (R.UnderId(TheEvents()[i], "b") <==> i == 10)
  {
    var e := TheEvents();
    assert forall i :: 0 <= i < 11 ==> (R.UnderId(e[i], "b") <==> i == 10);
    hide R.UnderId;
    NoneHeard(e, 10, "b");
  }

  lemma PlanFits()
    ensures UploadOk(TheUpload()) && WfPlan(TheUpload().plan) && Sequential(TheUpload().plan)
    ensures D.Wf(EmptyDaemon()) && Progress(EmptyDaemon(), TheUpload().plan, 0) && IsKind(TheUpload().plan, IsOwn)
    ensures Elsewhere(Early() + [LastChunk()], {"b"}, "dst")
    ensures Stored(TheUpload().plan) == D.File([7, 8])
  {
    var items := TheUpload().plan.items;
    assert S.JoinFirst(items, 1) == [7];
    assert S.JoinFirst(items, 2) == [7, 8];
  }

  /** To the daemon it looks like a file of one chunk. */
  function Seemingly(): Plan { Plan("b", TheAnnounce(), [S.Item(1, true, [8])], NoGzip()) }

  lemma DaemonIsFooled()
    ensures D.Wf(EmptyDaemon())
    ensures var r := ReceiveFirst(EmptyDaemon(), Early() + [LastChunk()], 5, NoSqueeze);
      AnswersFor(r.answers, "b") == [D.Answer("b", true)] && "dst" in r.store.disk && r.store.disk["dst"] == D.File([8])
  {
    var units, p := Early() + [LastChunk()], Seemingly();
    SeemsRight();
    hide ReceiveFirst, InTurn, Progress, WfPlan, AnswersFor, D.Wf, Seen;
    TransferDelivered(EmptyDaemon(), p, units, 5);
  }

  lemma SeemsRight()
    ensures var units, p := Early() + [LastChunk()], Seemingly();
      |units| == 5 && D.Wf(EmptyDaemon()) && WfPlan(p) && Sequential(p) && Progress(EmptyDaemon(), p, 0) && InTurn(p, units)
    ensures Seen(Seemingly(), Early() + [LastChunk()], 5) == 2 && Stored(Seemingly()) == D.File([8])
  {
    var units, p := Early() + [LastChunk()], Seemingly();
    assert Owns(p, units[1]) && Owns(p, units[4]) && !Owns(p, units[0]) && !Owns(p, units[2]) && !Owns(p, units[3]);
    assert Seen(p, units, 1) == 0;
    assert Seen(p, units, 2) == 1;
    assert Seen(p, units, 4) == 1;
    assert S.JoinFirst(p.items, 1) == [8];
  }

  /**
   The hub and the daemon do all that the theorems about uploads ask for, but the last chunk
   overtakes the first: the daemon answers well, the client is told so, and the destination holds
   the last chunk only.
   */
  lemma OvertakingBreaksACopy() returns (w: Way)
    ensures w.events == TheEvents() && |w.hubs| == 12 && w.k == 11 && Uploaded(w.hubs, w.events, w.k, TheUpload())
    ensures TargetOf(w.hubs[w.k], TheUpload()) == 1 && Leads(w, 1) && w.j == |w.actions| && IsKind(TheUpload().plan, IsOwn) && w.before == []
    ensures AloneAt(w, TheUpload()) && Honest(w, TheUpload()) && Q.EverOvertakes(w.states, w.actions, w.j, IsOwn)
    ensures Only(Q.Pipeline(w.states[w.j]), IsOwn) != Only(w.states[w.j].calls, IsOwn)
    ensures var r, told := After(w, NoSqueeze), ToldOf(w.hubs[11].log, "b");
      && |told| == 1 && Tells(told[0], TheUpload(), true) && "dst" in r.store.disk && r.store.disk["dst"] == D.File([8])
      && Stored(TheUpload().plan) == D.File([7, 8])
  {
    hide N.Ok, TheEvents, MineCount, SendsInOrder, UploadOk, Progress, WfPlan, Q.IsRunFromStart, About, R.EchoOnly, R.UnderId, R.Heard,
         ReceiveFirst, AnswersFor, Elsewhere, Early, FirstChunk, LastChunk, Stored, CallsTo, D.Wf, Q.AllWires, Q.EverOvertakes;
    var s := TheScene();
    var states, actions, n := TheQueue();
    w := Way(s.hubs, s.events, 11, states, actions, |actions|, [], Early() + [LastChunk()], EmptyDaemon());
    CallsMatch(s.hubs[11]);
    InOrder();
    PlanFits();
    DaemonIsFooled();
    AnswerIs();
    assert w.before + w.got == Early() + [LastChunk()];
    assert |w.got| == 5 by { FiveUnits(); }
    Q.AdjacentAlways(states, actions, |actions|);
    Overtakes(states, actions, n);
    OrderIsBroken(states[|actions|]);
    N.IsARun(s);
    EchoOf(s.hubs);
  }

  /** The chunks are written in another order than they were handed over. */
  lemma OrderIsBroken(s: Q.State<Msg>)
    requires s.calls == Early() + [FirstChunk(), LastChunk()] && s.taken == Early() + [LastChunk()] && Q.Waiting(s) == [FirstChunk()]
    ensures Only(Q.Pipeline(s), IsOwn) != Only(s.calls, IsOwn)
  {
    var early, first, last := Early(), FirstChunk(), LastChunk();
    assert first != last && IsOwn(first) && IsOwn(last);
    assert Q.Pipeline(s) == early + [last] + [first] && s.calls == early + [first] + [last];
    hide Only, Q.Pipeline, Q.Waiting, Early, FirstChunk, LastChunk, IsOwn;
    OnlyAppend(early, first, IsOwn);
    OnlyAppend(early, last, IsOwn);
    OnlyAppend(early + [first], last, IsOwn);
    OnlyAppend(early + [last], first, IsOwn);
    var own := Only(early, IsOwn);
    assert (own + [first] + [last])[|own|] == first && (own + [last] + [first])[|own|] == last;
  }

  lemma FiveUnits()
    ensures |Early() + [LastChunk()]| == 5
  {
  }

  lemma EchoOf(hubs: seq<Hub>)
    requires |hubs| == 12 && "b" in hubs[10].requests.issued
    ensures |TheEvents()| == 11 && R.EchoOnly(hubs, TheEvents(), 11, "b")
  {
    AnswerIs();
    hide R.UnderId, TheEvents;
  }

  lemma Overtakes(states: seq<Q.State<Msg>>, actions: seq<Q.Action<Msg>>, n: nat)
    requires Q.IsRunFromStart(states, actions) && n < |actions| && actions[n] == Q.LockSender(LastChunk())
    requires Q.Waiting(states[n]) == [FirstChunk()]
    ensures Q.EverOvertakes(states, actions, |actions|, IsOwn)
  {
    OnlyFew(FirstChunk(), IsOwn);
    hide Only;
    assert Q.Overtakes(states[n], actions[n], IsOwn);
  }
}
