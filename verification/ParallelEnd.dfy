/** A parallel copy on its whole way: each stream is an upload of its own to the same target. */
module ParallelEndToEnd {
  import opened Basics
  import opened Protocol
  import opened RelayModel
  import opened Reassembly
  import opened Forwarding
  import opened EndToEnd
  import opened ParallelCopies
  import D = DaemonModel
  import Q = WriteQueue
  import R = Requests

  /** The streams of a copy, as uploads, and the units of each. */
  datatype Streams = Streams(c: Copy, ups: seq<Upload>, kinds: seq<Q.Unit<Msg> -> bool>)

  ghost predicate WfStreams(t: Streams) {
    WfCopy(t.c) && |t.ups| == |t.kinds| == |t.c.ids| && forall s :: 0 <= s < |t.ups| ==> t.ups[s].plan == StreamPlan(t.c, s)
  }

  /** Each stream of the copy was uploaded to the same target. */
  ghost predicate AllGoBy(w: Way, t: Streams, target: Conn) {
    WfStreams(t) && Leads(w, target) && forall s :: 0 <= s < |t.ups| ==> StreamGoesBy(w, t, target, s)
  }

  ghost predicate StreamGoesBy(w: Way, t: Streams, target: Conn, s: nat)
    requires s < |t.ups| == |t.kinds|
  {
    GoesBy(w, t.ups[s], t.kinds[s]) && TargetOf(w.hubs[w.k], t.ups[s]) == target
  }

  lemma SentIsOwned(hubs: seq<Hub>, events: seq<Event>, k: nat, u: Upload)
    requires Uploaded(hubs, events, k, u)
    ensures forall s :: s in hubs[k].log && s.why == ToDaemon(u.plan.id) ==> Owns(u.plan, s.unit)
  {
    UploadIsForwardedInOrder(hubs, events, k, u);
    var out := About(hubs[k].log, ToDaemon(u.plan.id));
    OwnUnitsAreOwned(out, TargetOf(hubs[k], u), u.plan, |out|);
    hide Uploaded, Owns, AreUnits, About;
    forall s | s in hubs[k].log && s.why == ToDaemon(u.plan.id) ensures Owns(u.plan, s.unit) { InAbout(hubs[k].log, s); }
  }

  lemma StreamIs(w: Way, t: Streams, target: Conn, s: nat)
    requires AllGoBy(w, t, target) && s < |t.c.ids|
    ensures |t.ups| == |t.kinds| == |t.c.ids| && t.ups[s].plan == StreamPlan(t.c, s)
    ensures GoesBy(w, t.ups[s], t.kinds[s]) && TargetOf(w.hubs[w.k], t.ups[s]) == target
  {
    assert StreamGoesBy(w, t, target, s);
  }

  lemma CopyIs(w: Way, t: Streams, target: Conn)
    requires AllGoBy(w, t, target)
    ensures WfStreams(t) && t.c.ChunkSize() > 0 && w.k < |w.hubs| && w.j < |w.states|
  {
  }

  /** What the daemon reads and is no stream's is foreign to the copy. */
  lemma NoStreamIsForeign(w: Way, t: Streams, target: Conn, v: Q.Unit<Msg>)
    requires AllGoBy(w, t, target) && Elsewhere(w.got, t.c.Ids(), t.c.announce.dst) && v in w.got && StreamOf(t.c, v).None?
    ensures Foreign(v, t.c.Ids(), t.c.announce.dst)
  {
    LogFits(w.hubs, w.events, w.k);
    ReadWasHanded(w, target);
    var s := CallsWereSent(Log(w), target, v);
    assert TagFits(s);
    forall i | 0 <= i < |t.c.ids| ensures s.why != ToDaemon(t.c.ids[i]) {
      StreamIs(w, t, target, i);
      SentIsOwned(w.hubs, w.events, w.k, t.ups[i]);
      assert !IsOf(t.c, i, v);
    }
    hide IsRun, AllGoBy, StreamOf, CallsTo;
    assert forall id :: id in t.c.ids ==> s.why != ToDaemon(id);
  }

  /** The copy's units come to the daemon in turn. */
  lemma CopyReadInTurn(w: Way, t: Streams, target: Conn)
    requires AllGoBy(w, t, target) && Elsewhere(w.got, t.c.Ids(), t.c.announce.dst)
    ensures CopyInTurn(t.c, w.got)
    ensures forall s :: 0 <= s < |t.c.ids| ==> Counts(t.c, w.got, |w.got|)[s] <= SentFor(w, t.c.ids[s])
    ensures AllRead(w) ==> forall s :: 0 <= s < |t.c.ids| ==> Counts(t.c, w.got, |w.got|)[s] == SentFor(w, t.c.ids[s])
  {
    hide GoesBy, Leads, StreamOf, Counts, AllRead, CallFailed, SentFor, ItemsOf, Foreign, UnitAt, Elsewhere, AllGoBy;
    CopyIs(w, t, target);
    forall i | 0 <= i < |w.got| ensures UnitInTurn(t.c, w.got, i) {
      var owner := StreamOf(t.c, w.got[i]);
      if owner.None? {
        NoStreamIsForeign(w, t, target, w.got[i]);
      } else {
        StreamIsDue(w, t, target, owner.value, i);
      }
    }
    forall s | 0 <= s < |t.c.ids|
      ensures Counts(t.c, w.got, |w.got|)[s] <= SentFor(w, t.c.ids[s])
      ensures AllRead(w) ==> Counts(t.c, w.got, |w.got|)[s] == SentFor(w, t.c.ids[s])
    {
      StreamIsSeen(w, t, target, s);
    }
  }

  lemma StreamIsDue(w: Way, t: Streams, target: Conn, s: nat, i: nat)
    requires AllGoBy(w, t, target) && s < |t.c.ids| && i < |w.got| && IsOf(t.c, s, w.got[i])
    ensures var p := StreamPlan(t.c, s); Seen(p, w.got, i) <= |p.items| && w.got[i] == UnitAt(p, Seen(p, w.got, i))
  {
    StreamIs(w, t, target, s);
    var m := OwnRead(w, t.ups[s], t.kinds[s]);
    KindOf(w, t.ups[s], t.kinds[s]);
    hide GoesBy, ItemsOf, Owns, SentFor, AllGoBy;
    OwnedIsDue(StreamPlan(t.c, s), w.got, m, t.kinds[s], i);
  }

  lemma KindOf(w: Way, u: Upload, kind: Q.Unit<Msg> -> bool)
    requires GoesBy(w, u, kind)
    ensures forall v :: kind(v) <==> Owns(u.plan, v)
  {
  }

  lemma StreamIsSeen(w: Way, t: Streams, target: Conn, s: nat)
    requires AllGoBy(w, t, target) && s < |t.c.ids|
    ensures var m := Counts(t.c, w.got, |w.got|)[s]; m <= SentFor(w, t.c.ids[s]) && (AllRead(w) ==> m == SentFor(w, t.c.ids[s]))
  {
    StreamIs(w, t, target, s);
    var m := OwnRead(w, t.ups[s], t.kinds[s]);
    KindOf(w, t.ups[s], t.kinds[s]);
    CountIs(t.c, w.got, |w.got|, s);
    hide GoesBy, ItemsOf, Owns, Counts, SentFor, AllRead, AllGoBy;
    AllSeen(StreamPlan(t.c, s), w.got, m, t.kinds[s]);
  }

  /** All of the stream's messages were sent, with their payloads, and its forwards are honest. */
  ghost predicate StreamComplete(w: Way, u: Upload)
    requires w.k < |w.hubs| == |w.events| + 1 && w.j < |w.states| == |w.actions| + 1 && u.plan.id in w.hubs[w.k].requests.issued
  {
    && MineCount(w.events, w.k, u) == |u.plan.items| + 1 && !Broke(w.events, w.k, u)
    && (GoesWell(w.hubs[w.k], u) || CallFailed(w, u.plan))
  }

  ghost predicate CopyComplete(w: Way, t: Streams, target: Conn)
    requires AllGoBy(w, t, target)
  {
    AllRead(w) && forall s :: 0 <= s < |t.ups| ==> StreamGoesBy(w, t, target, s) && StreamComplete(w, t.ups[s])
  }

  lemma StreamIsWhole(w: Way, u: Upload, kind: Q.Unit<Msg> -> bool)
    requires GoesBy(w, u, kind) && AllRead(w) && StreamComplete(w, u)
    ensures SentFor(w, u.plan.id) == |u.plan.items| + 1 && GoesWell(w.hubs[w.k], u)
  {
    var m := OwnRead(w, u, kind);
    WellForwarded(w.hubs, w.events, w.k, u, kind);
  }

  lemma WellForwarded(hubs: seq<Hub>, events: seq<Event>, k: nat, u: Upload, kind: Q.Unit<Msg> -> bool)
    requires Uploaded(hubs, events, k, u) && IsKind(u.plan, kind) && GoesWell(hubs[k], u)
    ensures |About(hubs[k].log, ToDaemon(u.plan.id))| == MineCount(events, k, u)
  {
    HandedInOrder(hubs, events, k, u, kind);
  }

  /**
   A parallel copy of which all streams were sent and all that was handed to the target's queue
   was read: whatever else went to the target, and however the streams' clients and the hub took
   turns, the daemon answers each stream well; and the destination, if it can be created, holds
   the source if and only if every chunk that had been delivered to the daemon when some stream
   was announced late, after all those before it were done, is all zeros.
   */
  lemma ParallelUploadArrives(w: Way, t: Streams, target: Conn)
    requires AllGoBy(w, t, target) && Elsewhere(w.got, t.c.Ids(), t.c.announce.dst) && Ready(w.d, t.c)
    requires CopyComplete(w, t, target)
    ensures CopyInTurn(t.c, w.got)
    ensures var c, r := t.c, After(w, t.c.z.gunzip);
      && (forall s :: 0 <= s < |c.ids| ==> AnswersFor(r.answers, c.ids[s]) == [D.Answer(c.ids[s], true)])
      && (c.announce.dst !in w.d.store.readOnly ==>
            && c.announce.dst in r.store.disk && r.store.disk[c.announce.dst].File?
            && (r.store.disk[c.announce.dst].content == c.data <==> LostAreZero(c, w.got, |w.got|)))
    ensures !AnyStartsLate(t.c, w.got, |w.got|) ==> LostAreZero(t.c, w.got, |w.got|)
    ensures AnyStartsLate(t.c, w.got, |w.got|) && NoChunkIsZero(t.c) ==> !LostAreZero(t.c, w.got, |w.got|)
  {
    CopyReadInTurn(w, t, target);
    hide Leads, ItemsOf, Counts, CopyInTurn, Ready, GoesWell, NoChunkIsZero, AnyStartsLate, LostAreZero, GoesBy, StreamComplete, Elsewhere, SentFor,
         AllRead;
    forall s | 0 <= s < |t.c.ids| ensures Counts(t.c, w.got, |w.got|)[s] == |ItemsOf(t.c, s)| + 1 {
      StreamIs(w, t, target, s);
      StreamIsWhole(w, t.ups[s], t.kinds[s]);
    }
    ParallelCopyDelivered(w.d, t.c, w.got, |w.got|);
  }

  /** Each stream's client has then been told that it is good, and nothing else, once its answer
      has come back; also when the file is not the source. */
  lemma EachStreamIsToldGood(w: Way, t: Streams, target: Conn, s: nat)
    requires AllGoBy(w, t, target) && Elsewhere(w.got, t.c.Ids(), t.c.announce.dst) && Ready(w.d, t.c)
    requires CopyComplete(w, t, target) && s < |t.ups| && StreamGoesBy(w, t, target, s) && Honest(w, t.ups[s])
    requires t.ups[s].plan.id !in w.hubs[w.k].requests.lost && R.Heard(w.events, w.k, t.ups[s].plan.id) != []
    ensures var told := ToldOf(Log(w), t.ups[s].plan.id); |told| == 1 && Tells(told[0], t.ups[s], true)
  {
    ParallelUploadArrives(w, t, target);
    StreamIs(w, t, target, s);
    hide Leads, ItemsOf, Counts, CopyInTurn, Ready, GoesWell, NoChunkIsZero, AnyStartsLate, LostAreZero, GoesBy, StreamComplete, Elsewhere, SentFor,
         AllRead, AnswersFor, After, Honest, ToldOf, Tells, R.Heard;
    StreamIsWhole(w, t.ups[s], t.kinds[s]);
    ToldIs(w, t.ups[s], t.kinds[s], [D.Answer(t.c.ids[s], true)], true);
  }
}
