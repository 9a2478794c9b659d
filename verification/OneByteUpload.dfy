/**
 A file of one byte, copied step by step: all that the end-to-end theorems ask for happens
 together in a run.
 */
module OneByteUpload {
  import opened Basics
  import opened Protocol
  import opened RelayModel
  import opened Reassembly
  import opened Forwarding
  import opened EndToEnd
  import opened EndScenes
  import D = DaemonModel
  import Q = WriteQueue
  import R = Requests
  import N = Scenes
  import S = Senders

  function TheAnnounce(): Announce { Announce("scp", "src", "dst", "", true, 1, 1, 0, 0) }

  function TheUpload(): Upload {
    Upload(2, "u", "t", "k", Plan("r", TheAnnounce(), [S.Item(0, true, [7])], NoGzip()))
  }

  function TheEvents(): seq<Event> {
    [Connect(1, true), Arrive(1, Register("t", "k"), N.Ids("x")), Connect(2, true),
     Arrive(2, Incoming.FileTransfer("u", "t", "k", TheAnnounce()), N.Ids("r")),
     Arrive(2, Incoming.FileChunk("u", 0, true, false, Binary([7])), N.Ids("y")),
     Arrive(1, Incoming.FileTransferResult("r", Body(true, "")), N.Ids("z"))]
  }

  function TheCalls(): seq<Q.Unit<Msg>> {
    [Q.Plain(Registered("t")), Q.Plain(FileInit("r", TheAnnounce())), Q.Chunk(ChunkHeader("r", 0, true, false), [7])]
  }

  /** The log of the run, and the request that it has issued. */
  ghost predicate Copied(h: Hub) {
    && h.requests.issued == map["r" := Issued(Request("u", 2), 1, Some(TheAnnounce()), true)] && h.requests.lost == {}
    && h.log == [Tell(1, Registered("t"), Direct), Sent(1, TheCalls()[1], ToDaemon("r")), Sent(1, TheCalls()[2], ToDaemon("r")),
                 Tell(2, Msg.Result("u", Body(true, "")), ToClient("r"))]
  }

  lemma TheScene() returns (s: N.Scene)
    ensures N.Ok(s) && s.events == TheEvents() && |s.hubs| == 7 && Copied(s.hubs[6]) && "r" in s.hubs[5].requests.issued
  {
    hide N.Ok;
    s := N.Start();
    s := N.Connects(s, 1, true);
    s := N.Registers(s, 1, "t", "k", "x");
    s := N.Connects(s, 2, true);
    s := Announces(s, 2, "u", TheAnnounce(), "r");
    s := SendsChunk(s, 2, "u", 0, true, [7], "r", "y");
    s := Answers(s, "r", true, "z");
  }

  lemma CallsMatch(h: Hub)
    requires Copied(h)
    ensures CallsTo(h.log, 1) == TheCalls() && About(h.log, ChunkFailed("r")) == []
  {
    hide About, CallsTo;
    var log := h.log;
    assert [] + [log[0]] + [log[1]] + [log[2]] + [log[3]] == log;
    NoCalls();
    CallsToNext([], log[0], 1);
    CallsToNext([] + [log[0]], log[1], 1);
    CallsToNext([] + [log[0]] + [log[1]], log[2], 1);
    CallsToNext([] + [log[0]] + [log[1]] + [log[2]], log[3], 1);
    AboutNone(log, ChunkFailed("r"));
  }

  lemma NoCalls()
    ensures CallsTo([], 1) == []
  {
  }

  lemma CountsMatch()
    ensures |TheEvents()| == 6 && MineCount(TheEvents(), 6, TheUpload()) == 2 && SendsInOrder(TheEvents(), 6, TheUpload())
    ensures !Broke(TheEvents(), 6, TheUpload())
    ensures R.Heard(TheEvents(), 6, "r") == [Incoming.FileTransferResult("r", Body(true, ""))]
  {
    var e, u := TheEvents(), TheUpload();
    TheMessages();
    hide MessageAt;
    assert MineCount(e, 3, u) == 0;
    assert MineCount(e, 4, u) == 1;
    assert R.Heard(e, 3, "r") == [];
    assert R.Heard(e, 5, "r") == [];
  }

  lemma TheMessages()
    ensures MessageAt(TheUpload(), 0) == Incoming.FileTransfer("u", "t", "k", TheAnnounce())
    ensures MessageAt(TheUpload(), 1) == Incoming.FileChunk("u", 0, true, false, Binary([7]))
  {
  }

  lemma PlanFits()
    ensures UploadOk(TheUpload()) && WfPlan(TheUpload().plan) && Sequential(TheUpload().plan)
    ensures D.Wf(EmptyDaemon()) && Progress(EmptyDaemon(), TheUpload().plan, 0)
    ensures Elsewhere(TheCalls(), {"r"}, "dst") && TheUpload().plan.id == "r" && TheUpload().plan.announce.dst == "dst"
  {
  }

  predicate IsOwn(v: Q.Unit<Msg>) {
    (v.Plain? && v.text.FileInit? && v.text.id == "r") || (v.Chunk? && v.header.ChunkHeader? && v.header.id == "r")
  }

  /** On its way: the hub's run, and the queue through which everything is written at once. */
  lemma TheWay() returns (w: Way)
    ensures w.events == TheEvents() && |w.hubs| == 7 && w.k == 6 && Copied(w.hubs[6]) && "r" in w.hubs[5].requests.issued
    ensures GoesBy(w, TheUpload(), IsOwn) && AloneAt(w, TheUpload()) && AllRead(w) && w.d == EmptyDaemon()
  {
    hide N.Ok, Leads, AllRead, TheEvents, CallsTo, MineCount, SendsInOrder, UploadOk, D.Wf, Progress, WfPlan, Q.EverOvertakes, About;
    var s := TheScene();
    PlanFits();
    CountsMatch();
    w := AtOnceWay(s, 1, EmptyDaemon());
    CallsMatch(w.hubs[6]);
    NothingOvertaken(w.states, w.actions, IsOwn);
    LeadsAre(w, 1);
  }

  lemma EchoPart(hubs: seq<Hub>)
    requires |hubs| == 7 && "r" in hubs[5].requests.issued
    ensures R.EchoOnly(hubs, TheEvents(), 6, "r")
  {
    assert forall i :: 0 <= i < 5 ==> !R.UnderId(TheEvents()[i], "r");
  }

  /** The copy of the one byte meets all that the round trip asks for: the destination gets the
      byte, and the client is told so. */
  lemma OneByteIsCopied() returns (w: Way)
    ensures w.events == TheEvents() && |w.hubs| == 7 && w.k == 6
    ensures GoesBy(w, TheUpload(), IsOwn) && AloneAt(w, TheUpload()) && AllRead(w) && Honest(w, TheUpload())
    ensures MineCount(w.events, w.k, TheUpload()) == |TheUpload().plan.items| + 1 && !Broke(w.events, w.k, TheUpload()) && "r" !in w.hubs[6].requests.lost
    ensures |R.Heard(w.events, w.k, "r")| == |AnswersFor(After(w, NoSqueeze).answers, "r")| == 1
    ensures var told, r := ToldOf(w.hubs[6].log, "r"), After(w, NoSqueeze);
      |told| == 1 && Tells(told[0], TheUpload(), true) && "dst" in r.store.disk && r.store.disk["dst"] == D.File([7])
  {
    w := TheWay();
    hide IsRun, TheEvents, AllRead, GoesBy, AloneAt, R.EchoOnly, After, AnswersFor, R.Heard, ToldOf, Tells, D.Wf, About,
         SendsInOrder, MineCount, UploadOk, WfPlan, Progress, Sequential;
    PlanFits();
    CountsMatch();
    EchoPart(w.hubs);
    CallsMatch(w.hubs[6]);
    GoesByIs(w, TheUpload(), IsOwn);
    var n := UploadArrives(w, TheUpload(), IsOwn);
    assert S.JoinFirst(TheUpload().plan.items, 1) == [7];
    CompleteUploadIsReported(w, TheUpload(), IsOwn);
  }
}
