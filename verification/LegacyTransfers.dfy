/**
 What the daemon makes of a transfer whose chunks all come as base64 text. Only the header of a
 binary chunk tells a transfer its id, and the end of a transfer is reported under the id that it
 knows.
 */
module LegacyTransfers {
  import opened Basics
  import opened Protocol
  import opened DaemonModel
  import opened Reassembly
  import Re = Reassembly
  import Q = WriteQueue
  import S = Senders

  /** The announcement, then each chunk as text. */
  function TextAt(p: Plan, k: nat): Q.Unit<Msg>
    requires k <= |p.items|
  {
    if k == 0 then Q.Plain(FileInit(p.id, p.announce))
    else
      var item := p.items[k - 1];
      Q.Plain(LegacyChunk(p.id, item.index, Some(item.data), item.last))
  }

  predicate OwnsText(p: Plan, u: Q.Unit<Msg>) {
    (u.Plain? && u.text.FileInit? && u.text.id == p.id) || (u.Plain? && u.text.LegacyChunk? && u.text.id == p.id)
  }

  ghost function TextSeen(p: Plan, units: seq<Q.Unit<Msg>>, n: nat): nat
    requires n <= |units|
  {
    if n == 0 then 0 else TextSeen(p, units, n - 1) + (if OwnsText(p, units[n - 1]) then 1 else 0)
  }

  /** The transfer's text comes in order; every other unit leaves its id and destination alone. */
  ghost predicate TextInTurn(p: Plan, units: seq<Q.Unit<Msg>>) {
    forall j :: 0 <= j < |units| ==>
      if OwnsText(p, units[j]) then TextSeen(p, units, j) <= |p.items| && units[j] == TextAt(p, TextSeen(p, units, j))
      else Foreign(units[j], {p.id}, p.announce.dst)
  }

  /** The daemon after the first k units of the transfer. */
  ghost predicate TextProgress(d: Daemon, p: Plan, k: nat) {
    && k <= |p.items| + 1 && d.slot == Empty && Alone(d, {p.id}, p.announce.dst) && AnswersFor(d.answers, p.id) == []
    && (if k == 0 then p.id !in d.table
        else
          && p.id in d.table && d.table[p.id].id == ""
          && if k <= |p.items| then Underway(d, p, k - 1)
             else
               && Answer("", p.announce.dst !in d.store.readOnly) in d.answers
               && (p.announce.dst !in d.store.readOnly ==> p.announce.dst in d.store.disk && d.store.disk[p.announce.dst] == Re.Stored(p)))
  }

  lemma ForeignKeepsText(d: Daemon, p: Plan, k: nat, u: Q.Unit<Msg>)
    requires Wf(d) && Chunked(p) && TextProgress(d, p, k) && Foreign(u, {p.id}, p.announce.dst)
    ensures TextProgress(ReceiveUnit(d, u, p.z.gunzip), p, k)
  {
    ForeignUnit(d, u, p.z.gunzip, {p.id}, p.announce.dst);
    AnswersStay(d, u, p.z.gunzip);
    hide ReceiveUnit, Foreign, S.JoinFirst, AnswersFor, Wf;
    ReceiveUnitKeepsWf(d, u, p.z.gunzip);
  }

  lemma AnswersGrow(d: Daemon, frame: Q.Wire<Msg>, gunzip: Gunzip)
    requires Wf(d)
    ensures d.answers <= Receive(d, frame, gunzip).answers
  {
    hide TakeChunk, TakePayload, SharedFile, Wf;
  }

  /** What was answered is not taken back. */
  lemma AnswersStay(d: Daemon, u: Q.Unit<Msg>, gunzip: Gunzip)
    requires Wf(d)
    ensures d.answers <= ReceiveUnit(d, u, gunzip).answers
  {
    hide Receive, Wf;
    match u
    case Plain(text) => AnswersGrow(d, Q.TextMsg(text), gunzip);
    case Raw(data) => AnswersGrow(d, Q.BinaryMsg(data), gunzip);
    case Chunk(header, payload) =>
      AnswersGrow(d, Q.TextMsg(header), gunzip);
      ReceiveKeepsWf(d, Q.TextMsg(header), gunzip);
      AnswersGrow(Receive(d, Q.TextMsg(header), gunzip), Q.BinaryMsg(payload), gunzip);
  }

  lemma TextAnnounced(d: Daemon, p: Plan)
    requires Wf(d) && Chunked(p) && Sequential(p) && TextProgress(d, p, 0)
    ensures TextProgress(ReceiveUnit(d, TextAt(p, 0), p.z.gunzip), p, 1)
  {
    hide Wf, AnswersFor;
  }

  lemma TextReceived(d: Daemon, p: Plan, k: nat)
    requires Wf(d) && Chunked(p) && Sequential(p) && 0 < k <= |p.items| && TextProgress(d, p, k)
    ensures TextProgress(ReceiveUnit(d, TextAt(p, k), p.z.gunzip), p, k + 1)
  {
    var item, t := p.items[k - 1], d.table[p.id];
    SequentialTakes(d.store, t, p.announce, S.JoinFirst(p.items, k - 1), item.data, item.last);
    TakeChunkKeeps(d.store, t, item.data, item.last);
    var (s, t', outcome) := TakeChunk(d.store, t, item.data, item.last);
    assert ReceiveUnit(d, TextAt(p, k), p.z.gunzip) == Settle(d.(table := d.table[p.id := t'], store := s), "", outcome);
    assert S.JoinFirst(p.items, k) == S.JoinFirst(p.items, k - 1) + item.data;
    assert p.items[k - 1].last <==> k == |p.items|;
    if outcome.Some? { AnswersForAppend(d.answers, Answer("", outcome.value), p.id); }
    hide ReceiveUnit, TextAt, TakeChunk, Wf, S.JoinFirst, AnswersFor, Chunked;
  }

  lemma {:induction false} TextAlways(d: Daemon, p: Plan, units: seq<Q.Unit<Msg>>, n: nat)
    requires Wf(d) && Chunked(p) && Sequential(p) && TextProgress(d, p, 0) && TextInTurn(p, units) && n <= |units|
    ensures TextProgress(ReceiveFirst(d, units, n, p.z.gunzip), p, TextSeen(p, units, n))
  {
    hide TextProgress, Wf, ReceiveUnit, Foreign;
    if n > 0 {
      TextAlways(d, p, units, n - 1);
      var before, k := ReceiveFirst(d, units, n - 1, p.z.gunzip), TextSeen(p, units, n - 1);
      if !OwnsText(p, units[n - 1]) {
        ForeignKeepsText(before, p, k, units[n - 1]);
      } else if k == 0 {
        TextAnnounced(before, p);
      } else {
        TextReceived(before, p, k);
      }
    }
  }

  /**
   Whatever else arrives between its frames: a transfer that comes as text alone is never answered
   under its id, though once all its chunks have come its destination, if it can be created, holds
   exactly its bytes. The report goes out under the empty id, and the transfer stays in the table.
   */
  lemma TextIsNeverAnswered(d: Daemon, p: Plan, units: seq<Q.Unit<Msg>>, n: nat)
    requires Wf(d) && Chunked(p) && Sequential(p) && TextProgress(d, p, 0) && TextInTurn(p, units) && n <= |units|
    ensures var r, k := ReceiveFirst(d, units, n, p.z.gunzip), TextSeen(p, units, n); var writable := p.announce.dst !in d.store.readOnly;
      && k <= |p.items| + 1 && AnswersFor(r.answers, p.id) == []
      && (k == |p.items| + 1 ==> p.id in r.table && Answer("", writable) in r.answers)
      && (k == |p.items| + 1 && writable ==> p.announce.dst in r.store.disk && r.store.disk[p.announce.dst] == Re.Stored(p))
  {
    TextAlways(d, p, units, n);
    ReadOnlyStays(d, units, n, p.z.gunzip);
    hide Wf, ReceiveFirst, TextInTurn, AnswersFor;
  }

  /** The last chunk of a transfer that comes as text is answered under the transfer's id if and only
      if the header of a binary chunk has told the transfer that id before. */
  lemma TextAnsweredIff(d: Daemon, id: Id, index: int, data: Bytes, gunzip: Gunzip)
    requires Wf(d) && id != "" && id in d.table
    ensures var r := Receive(d, Q.TextMsg(LegacyChunk(id, index, Some(data), true)), gunzip);
      && |r.answers| == |d.answers| + 1
      && (|AnswersFor(r.answers, id)| == |AnswersFor(d.answers, id)| + 1 <==> d.table[id].id == id)
      && (d.table[id].id != id ==> AnswersFor(r.answers, id) == AnswersFor(d.answers, id))
  {
    var (s, t', outcome) := TakeChunk(d.store, d.table[id], data, true);
    AnswersForAppend(d.answers, Answer(d.table[id].id, outcome.value), id);
    hide AnswersFor, WriteChunk, Finish;
  }

  /** Text that cannot be decoded ends its transfer, with an error under its id; so does, under its
      own, a chunk of a transfer that is not known. Neither touches a file's contents. */
  lemma BadTextIsRefused(d: Daemon, id: Id, index: int, data: Option<Bytes>, final: bool, gunzip: Gunzip)
    requires Wf(d) && (id !in d.table || data.None?)
    ensures var r := Receive(d, Q.TextMsg(LegacyChunk(id, index, data, final)), gunzip);
      && r.answers == d.answers + [Answer(id, false)] && id !in r.table && r.store.disk == d.store.disk
      && forall k :: k != id ==> (k in r.table <==> k in d.table) && (k in d.table ==> r.table[k] == d.table[k])
  {
    hide Wf;
  }
}
