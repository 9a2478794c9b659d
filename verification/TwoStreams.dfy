/**
 A file of two bytes, copied by two streams: once with both streams announced before either is
 done, and once with the second announced when the first is done. Both runs meet all that the
 theorem about parallel copies asks for, and both clients are told in both that all went well.
 */
module TwoStreams {
  import opened Basics
  import opened Protocol
  import opened RelayModel
  import opened Reassembly
  import opened Forwarding
  import opened EndToEnd
  import opened EndScenes
  import opened ParallelCopies
  import opened ParallelEndToEnd
  import C = Chunking
  import D = DaemonModel
  import Q = WriteQueue
  import R = Requests
  import N = Scenes
  import S = Senders

  function TheAnnounce(): Announce { Announce("scp", "src", "dst", "", true, 2, 2, 1, 2) }

  function TheCopy(): Copy { Copy(["r", "s"], TheAnnounce(), [7, 8], NoGzip()) }

  function First(): Upload { Upload(2, "u", "t", "k", Plan("r", TheAnnounce(), [S.Item(0, true, [7])], NoGzip())) }

  function Second(): Upload { Upload(3, "v", "t", "k", Plan("s", TheAnnounce(), [S.Item(1, true, [8])], NoGzip())) }

  predicate IsFirst(v: Q.Unit<Msg>) {
    (v.Plain? && v.text.FileInit? && v.text.id == "r") || (v.Chunk? && v.header.ChunkHeader? && v.header.id == "r")
  }

  predicate IsSecond(v: Q.Unit<Msg>) {
    (v.Plain? && v.text.FileInit? && v.text.id == "s") || (v.Chunk? && v.header.ChunkHeader? && v.header.id == "s")
  }

  function TheStreams(): Streams { Streams(TheCopy(), [First(), Second()], [IsFirst, IsSecond]) }

  function FirstInit(): Event { Arrive(2, Incoming.FileTransfer("u", "t", "k", TheAnnounce()), N.Ids("r")) }
  function SecondInit(): Event { Arrive(3, Incoming.FileTransfer("v", "t", "k", TheAnnounce()), N.Ids("s")) }
  function FirstChunk(): Event { Arrive(2, FileChunk("u", 0, true, false, Binary([7])), N.Ids("c")) }
  function SecondChunk(): Event { Arrive(3, FileChunk("v", 1, true, false, Binary([8])), N.Ids("d")) }

  function TheEvents(late: bool): seq<Event> {
    [Connect(1, true), Arrive(1, Register("t", "k"), N.Ids("x")), Connect(2, true), Connect(3, true), FirstInit(),
     if late then FirstChunk() else SecondInit(), if late then SecondInit() else FirstChunk(), SecondChunk(),
     Arrive(1, Incoming.FileTransferResult("r", Body(true, "")), N.Ids("y")),
     Arrive(1, Incoming.FileTransferResult("s", Body(true, "")), N.Ids("z"))]
  }

  function InitUnit(id: Id): Q.Unit<Msg> { Q.Plain(FileInit(id, TheAnnounce())) }
  function ChunkUnit(id: Id, index: int, data: Bytes): Q.Unit<Msg> { Q.Chunk(ChunkHeader(id, index, true, false), data) }

  function TheCalls(late: bool): seq<Q.Unit<Msg>> {
    [Q.Plain(Registered("t")), InitUnit("r"), if late then ChunkUnit("r", 0, [7]) else InitUnit("s"),
     if late then InitUnit("s") else ChunkUnit("r", 0, [7]), ChunkUnit("s", 1, [8])]
  }

  // ---- The hub ----

  ghost predicate Copied(h: Hub, late: bool) {
    && h.requests.issued == map["r" := Issued(Request("u", 2), 1, Some(TheAnnounce()), true),
                                "s" := Issued(Request("v", 3), 1, Some(TheAnnounce()), true)]
    && h.requests.lost == {} && |h.log| == 7
    && (forall i :: 0 <= i < 5 ==> h.log[i].to == 1 && h.log[i].unit == TheCalls(late)[i] && !h.log[i].why.ChunkFailed?)
    && h.log[5] == Tell(2, Msg.Result("u", Body(true, "")), ToClient("r")) && h.log[6] == Tell(3, Msg.Result("v", Body(true, "")), ToClient("s"))
  }

  /** Both clients and the target are connected. */
  lemma Connected() returns (s: N.Scene)
    ensures N.Ok(s) && s.events == TheEvents(true)[..4] && s.events == TheEvents(false)[..4] && |s.hubs| == 5
    ensures var h := N.Now(s);
      && TargetIsUp(h) && N.CanSend(h, 2, "r") && N.CanSend(h, 3, "s") && N.CanSend(h, 1, "y") && h.used == {"x"}
      && h.requests == Init({}).requests && h.log == [Tell(1, Registered("t"), Direct)]
  {
    hide N.Ok;
    s := N.Start();
    s := N.Connects(s, 1, true);
    s := N.Registers(s, 1, "t", "k", "x");
    s := N.Connects(s, 2, true);
    s := N.Connects(s, 3, true);
  }

  /** All chunks have been handed to the target. */
  ghost predicate Handed(h: Hub, late: bool) {
    && TargetIsUp(h) && N.CanSend(h, 1, "y") && h.used == {"x", "r", "s", "c", "d"} && h.requests.lost == {}
    && h.requests.issued == map["r" := Issued(Request("u", 2), 1, Some(TheAnnounce()), true),
                                "s" := Issued(Request("v", 3), 1, Some(TheAnnounce()), true)]
    && h.requests.pending == map["r" := Request("u", 2), "s" := Request("v", 3)] && |h.log| == 5
    && forall i :: 0 <= i < 5 ==> h.log[i].to == 1 && h.log[i].unit == TheCalls(late)[i] && !h.log[i].why.ChunkFailed? && !h.log[i].why.ToClient?
  }

  lemma OnTime() returns (s: N.Scene)
    ensures N.Ok(s) && s.events == TheEvents(false)[..8] && |s.hubs| == 9 && Handed(N.Now(s), false)
  {
    hide N.Ok;
    s := Connected();
    s := Announces(s, 2, "u", TheAnnounce(), "r");
    s := Announces(s, 3, "v", TheAnnounce(), "s");
    s := SendsChunk(s, 2, "u", 0, true, [7], "r", "c");
    s := SendsChunk(s, 3, "v", 1, true, [8], "s", "d");
  }

  lemma Late() returns (s: N.Scene)
    ensures N.Ok(s) && s.events == TheEvents(true)[..8] && |s.hubs| == 9 && Handed(N.Now(s), true)
  {
    hide N.Ok;
    s := Connected();
    s := Announces(s, 2, "u", TheAnnounce(), "r");
    s := SendsChunk(s, 2, "u", 0, true, [7], "r", "c");
    s := Announces(s, 3, "v", TheAnnounce(), "s");
    s := SendsChunk(s, 3, "v", 1, true, [8], "s", "d");
  }

  lemma TheScene(late: bool) returns (s: N.Scene)
    ensures N.Ok(s) && s.events == TheEvents(late) && |s.hubs| == 11 && Copied(s.hubs[10], late)
    ensures "r" in s.hubs[8].requests.issued && "s" in s.hubs[9].requests.issued
  {
    hide N.Ok, TheCalls, TheAnnounce, Copied;
    if late { s := Late(); } else { s := OnTime(); }
    var h := N.Now(s);
    s := Answers(s, "r", true, "y");
    s := Answers(s, "s", true, "z");
    BothAreAnswered(h, N.Now(s), late);
  }

  lemma BothAreAnswered(h: Hub, h': Hub, late: bool)
    requires Handed(h, late) && h'.requests.issued == h.requests.issued && h'.requests.lost == h.requests.lost
    requires h'.log == h.log + [Tell(2, Msg.Result("u", Body(true, "")), ToClient("r"))] + [Tell(3, Msg.Result("v", Body(true, "")), ToClient("s"))]
    ensures Copied(h', late)
  {
    hide TheCalls, TheAnnounce, TargetIsUp, N.CanSend;
  }

  // ---- What the theorem asks for ----

  lemma PlansAre()
    ensures WfCopy(TheCopy()) && StreamPlan(TheCopy(), 0) == First().plan && StreamPlan(TheCopy(), 1) == Second().plan
    ensures UploadOk(First()) && UploadOk(Second()) && IsKind(First().plan, IsFirst) && IsKind(Second().plan, IsSecond)
  {
    var c := TheCopy();
    assert C.ChunkCount(2, 1) == 2;
    assert c.data[0..1] == [7] && c.data[1..2] == [8];
    assert ItemsOf(c, 0) == [S.Item(0, true, [7])];
    assert ItemsOf(c, 1) == [S.Item(1, true, [8])];
  }

  lemma CallsMatch(h: Hub, late: bool)
    requires Copied(h, late)
    ensures CallsTo(h.log, 1) == TheCalls(late) && About(h.log, ChunkFailed("r")) == [] && About(h.log, ChunkFailed("s")) == []
  {
    CallsAre(h.log, 1, 5);
    AboutNone(h.log, ChunkFailed("r"));
    AboutNone(h.log, ChunkFailed("s"));
  }

  /** Which of the events are the upload's. */
  lemma MineAre(late: bool)
    ensures forall j :: 0 <= j < 10 ==> (IsMine(TheEvents(late)[j], First()) <==> j == 4 || j == if late then 5 else 6)
    ensures forall j :: 0 <= j < 10 ==> (IsMine(TheEvents(late)[j], Second()) <==> j == 7 || j == if late then 6 else 5)
    ensures MessageAt(First(), 0) == FirstInit().message && MessageAt(First(), 1) == FirstChunk().message
    ensures MessageAt(Second(), 0) == SecondInit().message && MessageAt(Second(), 1) == SecondChunk().message
  {
  }

  lemma {:induction false} CountBetween(events: seq<Event>, k: nat, u: Upload, a: nat, b: nat)
    requires k <= |events| && a < b && forall j :: 0 <= j < k ==> (IsMine(events[j], u) <==> j == a || j == b)
    ensures MineCount(events, k, u) == if k <= a then 0 else if k <= b then 1 else 2
  {
    if k > 0 { CountBetween(events, k - 1, u, a, b); }
  }

  lemma InOrder(late: bool)
    ensures |TheEvents(late)| == 10
    ensures MineCount(TheEvents(late), 10, First()) == 2 && SendsInOrder(TheEvents(late), 10, First())
    ensures MineCount(TheEvents(late), 10, Second()) == 2 && SendsInOrder(TheEvents(late), 10, Second())
    ensures !Broke(TheEvents(late), 10, First()) && !Broke(TheEvents(late), 10, Second())
  {
    var e := TheEvents(late);
    MineAre(late);
    assert forall j :: 0 <= j < 10 ==> !IsBroken(e[j], First()) && !IsBroken(e[j], Second());
    hide MessageAt, IsMine, IsBroken;
    forall k: nat | k <= 10 ensures MineCount(e, k, First()) == if k <= 4 then 0 else if k <= (if late then 5 else 6) then 1 else 2 {
      CountBetween(e, k, First(), 4, if late then 5 else 6);
    }
    forall k: nat | k <= 10 ensures MineCount(e, k, Second()) == if k <= (if late then 6 else 5) then 0 else if k <= 7 then 1 else 2 {
      CountBetween(e, k, Second(), if late then 6 else 5, 7);
    }
    hide MineCount;
  }

  lemma AnswersAre(late: bool)
    ensures |TheEvents(late)| == 10
    ensures R.Heard(TheEvents(late), 10, "r") == [Incoming.FileTransferResult("r", Body(true, ""))]
    ensures R.Heard(TheEvents(late), 10, "s") == [Incoming.FileTransferResult("s", Body(true, ""))]
    ensures forall i :: 0 <= i < 10 ==> (R.UnderId(TheEvents(late)[i], "r") <==> i == 8) && (R.UnderId(TheEvents(late)[i], "s") <==> i == 9)
  {
    var e := TheEvents(late);
    assert forall i :: 0 <= i < 10 ==> (R.UnderId(e[i], "r") <==> i == 8) && (R.UnderId(e[i], "s") <==> i == 9);
    hide R.UnderId;
    NoneHeard(e, 8, "r");
    NoneHeard(e, 8, "s");
    assert R.Heard(e, 9, "r") == [e[8].message] && R.Heard(e, 9, "s") == [];
  }

  lemma DaemonIsReady(late: bool)
    ensures Ready(EmptyDaemon(), TheCopy()) && Elsewhere(TheCalls(late), TheCopy().Ids(), "dst")
  {
    PlansAre();
    assert TheCopy().ids[0] in TheCopy().Ids() && TheCopy().ids[1] in TheCopy().Ids();
    hide WfCopy;
  }

  /** On its way: the hub's run, and the queue through which everything is written at once. */
  lemma TheWay(late: bool) returns (w: Way)
    ensures w.events == TheEvents(late) && |w.hubs| == 11 && w.k == 10 && Copied(w.hubs[10], late) && w.got == TheCalls(late)
    ensures "r" in w.hubs[8].requests.issued && "s" in w.hubs[9].requests.issued
    ensures AllGoBy(w, TheStreams(), 1) && AllRead(w) && w.d == EmptyDaemon()
    ensures CopyComplete(w, TheStreams(), 1)
  {
    hide N.Ok, Leads, AllRead, TheEvents, CallsTo, MineCount, SendsInOrder, Broke, UploadOk, Q.EverOvertakes, About, StreamPlan, WfCopy, IsKind,
         D.Wf, IsFirst, IsSecond, Ready;
    var s := TheScene(late);
    PlansAre();
    InOrder(late);
    DaemonIsReady(late);
    ReadyIsWf(EmptyDaemon());
    w := AtOnceWay(s, 1, EmptyDaemon());
    CallsMatch(w.hubs[10], late);
    NothingOvertaken(w.states, w.actions, IsFirst);
    NothingOvertaken(w.states, w.actions, IsSecond);
    LeadsAre(w, 1);
    var t := TheStreams();
    assert StreamGoesBy(w, t, 1, 0);
    assert StreamGoesBy(w, t, 1, 1);
    assert StreamComplete(w, t.ups[0]) && StreamComplete(w, t.ups[1]);
  }

  lemma ReadyIsWf(d: D.Daemon)
    requires Ready(d, TheCopy())
    ensures D.Wf(d)
  {
  }

  // ---- Late or on time ----

  lemma OwnerIs(v: Q.Unit<Msg>)
    ensures IsFirst(v) ==> StreamOf(TheCopy(), v) == Some(0)
    ensures IsSecond(v) ==> StreamOf(TheCopy(), v) == Some(1)
    ensures !IsFirst(v) && !IsSecond(v) ==> StreamOf(TheCopy(), v) == None
  {
    PlansAre();
    hide WfCopy, ItemsOf, StreamPlan;
    var c := TheCopy();
    assert IsOf(c, 0, v) <==> IsFirst(v);
    assert IsOf(c, 1, v) <==> IsSecond(v);
    assert |c.ids| == 2;
    hide IsOf;
    var s := StreamOf(c, v);
    if s.Some? { assert s.value == 0 || s.value == 1; }
    assert !(IsFirst(v) && IsSecond(v));
  }

  lemma OwnersAre(late: bool)
    ensures |TheCalls(late)| == 5
    ensures var c, units := TheCopy(), TheCalls(late);
      && StreamOf(c, units[0]) == None && StreamOf(c, units[1]) == Some(0) && StreamOf(c, units[4]) == Some(1)
      && StreamOf(c, units[2]) == (if late then Some(0) else Some(1)) && StreamOf(c, units[3]) == (if late then Some(1) else Some(0))
  {
    var units := TheCalls(late);
    hide StreamOf;
    forall i | 0 <= i < 5
      ensures StreamOf(TheCopy(), units[i]) == if IsFirst(units[i]) then Some(0) else if IsSecond(units[i]) then Some(1) else None
    {
      OwnerIs(units[i]);
    }
  }

  /** Where the two streams stand before each unit. */
  lemma CountsAre(late: bool)
    ensures TheCopy().ChunkSize() > 0 && |TheCalls(late)| == 5
    ensures var c, units := TheCopy(), TheCalls(late);
      && Counts(c, units, 0) == [0, 0] && Counts(c, units, 1) == [0, 0] && Counts(c, units, 2) == [1, 0]
      && Counts(c, units, 3) == (if late then [2, 0] else [1, 1]) && Counts(c, units, 4) == [2, 1]
  {
    PlansAre();
    OwnersAre(late);
    NoCounts(late);
    var c, units := TheCopy(), TheCalls(late);
    hide WfCopy, Counts, StreamOf, TheCalls, UploadOk, StreamPlan, IsKind;
    CountsNext(c, units, 0);
    CountsNext(c, units, 1);
    CountsNext(c, units, 2);
    CountsNext(c, units, 3);
  }

  lemma NoCounts(late: bool)
    ensures TheCopy().ChunkSize() > 0 && Counts(TheCopy(), TheCalls(late), 0) == [0, 0]
  {
    hide StreamPlan;
  }

  lemma LivesAre()
    ensures TheCopy().ChunkSize() > 0 && forall s, k: nat :: 0 <= s < 2 ==> (Live(TheCopy(), s, k) <==> k == 1)
  {
    PlansAre();
    assert |ItemsOf(TheCopy(), 0)| == 1 && |ItemsOf(TheCopy(), 1)| == 1;
  }

  lemma LateIffLate(late: bool)
    ensures TheCopy().ChunkSize() > 0 && |TheCalls(late)| == 5
    ensures AnyStartsLate(TheCopy(), TheCalls(late), 5) <==> late
  {
    CountsAre(late);
    OwnersAre(late);
    LivesAre();
    var c, units := TheCopy(), TheCalls(late);
    hide Counts, StreamOf, Live, TheCalls, WfCopy;
    if late {
      var ks := Counts(c, units, 3);
      assert ks[0] > 0 && !AnyLive(c, ks);
      assert StartsLate(c, units, 3);
    } else {
      assert Live(c, 0, Counts(c, units, 2)[0]);
      assert AnyLive(c, Counts(c, units, 2));
      assert !StartsLate(c, units, 0) && !StartsLate(c, units, 1) && !StartsLate(c, units, 2);
      assert !StartsLate(c, units, 3) && !StartsLate(c, units, 4);
    }
  }

  lemma NoZeros()
    ensures TheCopy().ChunkSize() > 0 && NoChunkIsZero(TheCopy())
  {
    var data, rest: Bytes := [7, 8], [8];
    assert data[..1] == [7] && data[1..] == rest;
    assert C.Chunks(rest, 1) == [[8]];
    assert C.Chunks(data, 1) == [[7], [8]];
    var seven, eight: Bytes := [7], [8];
    assert seven[0] != 0 && eight[0] != 0;
  }

  lemma EchoOf(hubs: seq<Hub>, late: bool, r: Id, i: nat)
    requires |hubs| == 11 && i < 10 && r in hubs[i].requests.issued
    requires |TheEvents(late)| == 10 && forall x :: 0 <= x < 10 ==> (R.UnderId(TheEvents(late)[x], r) <==> x == i)
    ensures R.EchoOnly(hubs, TheEvents(late), 10, r)
  {
    hide R.UnderId, TheEvents;
  }

  /**
   Everything that the theorem about parallel copies asks for is met, whether the second stream is
   announced late or not. The destination holds the source exactly if it is not; in both runs both
   clients are told, once, that all is well.
   */
  lemma TwoStreamsAreCopied(late: bool) returns (w: Way)
    ensures w.events == TheEvents(late) && |w.hubs| == 11 && w.k == 10 && w.got == TheCalls(late) && |w.got| == 5
    ensures AllGoBy(w, TheStreams(), 1) && Elsewhere(w.got, TheCopy().Ids(), "dst") && Ready(w.d, TheCopy())
    ensures CopyComplete(w, TheStreams(), 1) && TheCopy().ChunkSize() > 0 && (AnyStartsLate(TheCopy(), w.got, 5) <==> late)
    ensures var r := After(w, NoSqueeze); "dst" in r.store.disk && r.store.disk["dst"].File? && (r.store.disk["dst"].content == [7, 8] <==> !late)
    ensures var first, second := ToldOf(w.hubs[10].log, "r"), ToldOf(w.hubs[10].log, "s");
      |first| == |second| == 1 && Tells(first[0], First(), true) && Tells(second[0], Second(), true)
  {
    w := TheWay(late);
    DaemonIsReady(late);
    ReadyIsWf(EmptyDaemon());
    LateIffLate(late);
    NoZeros();
    AnswersAre(late);
    InOrder(late);
    EchoOf(w.hubs, late, "r", 8);
    EchoOf(w.hubs, late, "s", 9);
    CallsMatch(w.hubs[10], late);
    hide AllGoBy, AllRead, CopyComplete, TheEvents, TheCalls, Elsewhere, Ready, After, AnyStartsLate, NoChunkIsZero, LostAreZero, R.EchoOnly, R.Heard,
         ToldOf, Tells, About, D.Wf, AnswersFor, MineCount, SendsInOrder, R.UnderId, IsFirst, IsSecond, GoesWell, CallFailed;
    ParallelUploadArrives(w, TheStreams(), 1);
    ToldGood(w, late, 0);
    ToldGood(w, late, 1);
  }

  lemma UpsAre(s: nat)
    requires s < 2
    ensures |TheStreams().ups| == |TheStreams().kinds| == |TheCopy().ids| == 2 && TheStreams().c == TheCopy()
    ensures var u := TheStreams().ups[s]; u.plan.id == TheCopy().ids[s] == (if s == 0 then "r" else "s") && u.plan.z.gunzip == NoSqueeze
  {
  }

  lemma HeardIs(late: bool, s: nat)
    requires s < 2
    ensures |TheEvents(late)| == 10
    ensures var heard := R.Heard(TheEvents(late), 10, TheCopy().ids[s]);
      heard != [] && HearsTheDaemon(heard, [D.Answer(TheCopy().ids[s], true)])
  {
    AnswersAre(late);
    hide R.Heard, TheEvents;
  }

  lemma ToldGood(w: Way, late: bool, s: nat)
    requires w.events == TheEvents(late) && |w.hubs| == 11 && w.k == 10 && w.hubs[10].requests.lost == {} && s < 2
    requires AllGoBy(w, TheStreams(), 1) && Elsewhere(w.got, TheCopy().Ids(), "dst") && Ready(w.d, TheCopy()) && CopyComplete(w, TheStreams(), 1)
    requires R.EchoOnly(w.hubs, w.events, 10, TheCopy().ids[s])
    requires AnswersFor(After(w, NoSqueeze).answers, TheCopy().ids[s]) == [D.Answer(TheCopy().ids[s], true)]
    ensures var told := ToldOf(w.hubs[10].log, TheCopy().ids[s]); |told| == 1 && Tells(told[0], TheStreams().ups[s], true)
  {
    UpsAre(s);
    HeardIs(late, s);
    hide TheStreams, TheEvents, AllGoBy, AllRead, TheCalls, Elsewhere, Ready, After, R.EchoOnly, R.Heard, ToldOf, Tells, About, D.Wf,
         AnswersFor, MineCount, R.UnderId, GoesWell, CallFailed, GoesBy, HearsTheDaemon;
    var u := TheStreams().ups[s];
    StreamIs(w, TheStreams(), 1, s);
    GoesByIs(w, u, TheStreams().kinds[s]);
    assert StreamGoesBy(w, TheStreams(), 1, s) && StreamComplete(w, u);
    assert Honest(w, u);
    EachStreamIsToldGood(w, TheStreams(), 1, s);
  }
}
