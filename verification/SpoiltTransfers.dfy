/** What the daemon makes of a transfer of which a chunk cannot be unpacked. */
module SpoiltTransfers {
  import opened Basics
  import opened Protocol
  import opened DaemonModel
  import opened Reassembly
  import Q = WriteQueue
  import S = Senders

  /** Item b comes packed and cannot be unpacked; those before it can. */
  ghost predicate SpoiltAt(p: Plan, b: nat) {
    && b < |p.items| && S.TryCompress(p.z, p.items[b].data).Some? && p.z.gunzip(S.OnWire(p.z, p.items[b].data)).None?
    && forall i :: 0 <= i < b ==> Unpacks(p.z, p.items[i].data)
  }

  function Failures(id: Id, n: nat): seq<Answer> {
    seq(n, _ => Answer(id, false))
  }

  /** The daemon after the first k units of the plan, when the spoilt chunk is among them. */
  ghost predicate GaveUp(d: Daemon, p: Plan, b: nat, k: nat)
    requires b < |p.items|
  {
    && b + 1 < k <= |p.items| + 1 && d.slot == Empty && p.id !in d.table && Alone(d, {p.id}, p.announce.dst)
    && AnswersFor(d.answers, p.id) == Failures(p.id, k - b - 1)
    && (p.announce.mode == "scp" && p.announce.dst !in d.store.readOnly ==>
          p.announce.dst in d.store.disk && d.store.disk[p.announce.dst] == File(S.JoinFirst(p.items, b)))
  }

  lemma ForeignKeepsGaveUp(d: Daemon, p: Plan, b: nat, k: nat, u: Q.Unit<Msg>)
    requires Wf(d) && Chunked(p) && b < |p.items| && GaveUp(d, p, b, k) && Foreign(u, {p.id}, p.announce.dst)
    ensures GaveUp(ReceiveUnit(d, u, p.z.gunzip), p, b, k)
  {
    ForeignUnit(d, u, p.z.gunzip, {p.id}, p.announce.dst);
    hide ReceiveUnit, Foreign, S.JoinFirst, AnswersFor, Wf, Failures;
    ReceiveUnitKeepsWf(d, u, p.z.gunzip);
  }

  /** The spoilt chunk ends its transfer with an error. */
  lemma SpoiltChunk(d: Daemon, p: Plan, b: nat)
    requires Wf(d) && Chunked(p) && SpoiltAt(p, b) && d.slot == Empty && p.id in d.table
    ensures var r := ReceiveUnit(d, UnitAt(p, b + 1), p.z.gunzip);
      && r.answers == d.answers + [Answer(p.id, false)] && r.table == d.table - {p.id} && r.slot == Empty
      && r.store.disk == d.store.disk && r.store.readOnly == d.store.readOnly
  {
    var item := p.items[b];
    HeaderKeeps(d, p.id, item.index, item.last, true);
    hide Wf, TakeChunk, S.JoinFirst;
    var d' := Header(d, p.id, item.index, item.last, true);
    assert d'.table[p.id].compressed && d'.slot == Tabled(p.id);
    assert d'.table - {p.id} == d.table - {p.id};
  }

  /** A chunk of a transfer that is not in the table any more is answered with an error. */
  lemma LaterChunk(d: Daemon, p: Plan, k: nat)
    requires Wf(d) && 0 < k <= |p.items| && d.slot == Empty && p.id !in d.table
    ensures ReceiveUnit(d, UnitAt(p, k), p.z.gunzip) == d.(answers := d.answers + [Answer(p.id, false)])
  {
    hide Wf;
  }

  lemma OneMoreFailure(d: Daemon, d': Daemon, id: Id, n: nat)
    requires d'.answers == d.answers + [Answer(id, false)] && AnswersFor(d.answers, id) == Failures(id, n)
    ensures AnswersFor(d'.answers, id) == Failures(id, n + 1)
  {
    AnswersForAppend(d.answers, Answer(id, false), id);
    assert Failures(id, n) + [Answer(id, false)] == Failures(id, n + 1);
  }

  lemma SpoiltReceived(d: Daemon, p: Plan, b: nat, k: nat)
    requires Wf(d) && Chunked(p) && Sequential(p) && SpoiltAt(p, b) && b < k <= |p.items|
    requires if k == b + 1 then Progress(d, p, k) else GaveUp(d, p, b, k)
    ensures GaveUp(ReceiveUnit(d, UnitAt(p, k), p.z.gunzip), p, b, k + 1)
  {
    hide ReceiveUnit, UnitAt, AnswersFor, Failures, S.JoinFirst, Wf, SpoiltAt, GaveUp, Progress, Chunked;
    if k == b + 1 { FirstFailure(d, p, b); } else { LaterFailure(d, p, b, k); }
  }

  lemma FirstFailure(d: Daemon, p: Plan, b: nat)
    requires Wf(d) && Chunked(p) && Sequential(p) && SpoiltAt(p, b) && b < |p.items| && Progress(d, p, b + 1)
    ensures GaveUp(ReceiveUnit(d, UnitAt(p, b + 1), p.z.gunzip), p, b, b + 2)
  {
    var r := ReceiveUnit(d, UnitAt(p, b + 1), p.z.gunzip);
    assert Failures(p.id, 0) == [];
    hide ReceiveUnit, UnitAt, AnswersFor, Failures, S.JoinFirst, Wf, SpoiltAt, Chunked;
    SpoiltChunk(d, p, b);
    OneMoreFailure(d, r, p.id, 0);
  }

  lemma LaterFailure(d: Daemon, p: Plan, b: nat, k: nat)
    requires Wf(d) && b + 1 < k <= |p.items| && GaveUp(d, p, b, k)
    ensures GaveUp(ReceiveUnit(d, UnitAt(p, k), p.z.gunzip), p, b, k + 1)
  {
    hide ReceiveUnit, UnitAt, AnswersFor, Failures, S.JoinFirst, Wf;
    LaterChunk(d, p, k);
    OneMoreFailure(d, ReceiveUnit(d, UnitAt(p, k), p.z.gunzip), p.id, k - b - 1);
  }

  lemma {:induction false} SpoiltAlways(d: Daemon, p: Plan, b: nat, units: seq<Q.Unit<Msg>>, n: nat)
    requires Wf(d) && Chunked(p) && Sequential(p) && SpoiltAt(p, b) && Progress(d, p, 0) && InTurn(p, units) && n <= |units|
    ensures var r, k := ReceiveFirst(d, units, n, p.z.gunzip), Seen(p, units, n);
      if k <= b + 1 then Progress(r, p, k) else GaveUp(r, p, b, k)
  {
    hide Progress, GaveUp, Wf, ReceiveUnit, Foreign;
    if n > 0 {
      SpoiltAlways(d, p, b, units, n - 1);
      var before, k := ReceiveFirst(d, units, n - 1, p.z.gunzip), Seen(p, units, n - 1);
      if !Owns(p, units[n - 1]) {
        if k <= b + 1 { ForeignKeepsProgress(before, p, k, units[n - 1]); } else { ForeignKeepsGaveUp(before, p, b, k, units[n - 1]); }
      } else if k == 0 {
        Announced(before, p);
      } else if k <= b {
        assert Unpacks(p.z, p.items[k - 1].data);
        ChunkReceived(before, p, k);
      } else {
        SpoiltReceived(before, p, b, k);
      }
    }
  }

  /**
   Whatever else arrives between the frames of a transfer of which one chunk cannot be unpacked:
   nothing is answered before that chunk, it is answered with an error, and so is each chunk behind
   it, the last one too; so no end of such a transfer is ever reported as good. What came before the
   chunk is left in the file, if there is one.
   */
  lemma SpoiltTransferFails(d: Daemon, p: Plan, b: nat, units: seq<Q.Unit<Msg>>, n: nat)
    requires Wf(d) && Chunked(p) && Sequential(p) && SpoiltAt(p, b) && Progress(d, p, 0) && InTurn(p, units) && n <= |units|
    ensures var r, k := ReceiveFirst(d, units, n, p.z.gunzip), Seen(p, units, n);
      && k <= |p.items| + 1
      && AnswersFor(r.answers, p.id) == Failures(p.id, if k <= b + 1 then 0 else k - b - 1)
      && (k > b + 1 && p.announce.mode == "scp" && p.announce.dst !in d.store.readOnly ==>
            p.announce.dst in r.store.disk && r.store.disk[p.announce.dst] == File(S.JoinFirst(p.items, b)))
  {
    SpoiltAlways(d, p, b, units, n);
    ReadOnlyStays(d, units, n, p.z.gunzip);
    hide Wf, ReceiveFirst, InTurn;
    assert Failures(p.id, 0) == [];
  }

  /** The last chunk of a transfer in a mode that is neither a file nor a directory ends it with an
      error, and nothing is written. */
  lemma UnknownModeFails(d: Daemon, id: Id, index: int, data: Bytes, gunzip: Gunzip)
    requires Wf(d) && id in d.table && d.slot == Empty && d.table[id].file.None? && !d.table[id].parallel
    requires d.table[id].mode != "scp" && d.table[id].mode != "rsync"
    ensures var r := ReceiveUnit(d, Q.Chunk(ChunkHeader(id, index, true, false), data), gunzip);
      && r.answers == d.answers + [Answer(id, false)] && r.store == d.store && r.table == d.table - {id} && r.slot == Empty
  {
    HeaderKeeps(d, id, index, true, false);
    hide Wf;
    var d' := Header(d, id, index, true, false);
    assert d'.slot == Tabled(id) && d'.table - {id} == d.table - {id};
  }
}
