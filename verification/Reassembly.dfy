/**
 What the daemon makes of chunked transfers whose frames arrive interleaved with anything
 else. A plan is one transfer as the daemon is meant to receive it; what arrives are whole
 units, because no header on the wire is parted from its payload.
 */
module Reassembly {
  import opened Basics
  import opened Protocol
  import opened DaemonModel
  import Q = WriteQueue
  import S = Senders

  datatype Plan = Plan(id: Id, announce: Announce, items: seq<S.Item>, z: S.Gzip)

  /** The units of a plan: the announcement, then one chunk for each item. */
  function UnitAt(p: Plan, k: nat): Q.Unit<Msg>
    requires k <= |p.items|
  {
    if k == 0 then Q.Plain(FileInit(p.id, p.announce))
    else
      var item := p.items[k - 1];
      Q.Chunk(ChunkHeader(p.id, item.index, item.last, S.TryCompress(p.z, item.data).Some?), S.OnWire(p.z, item.data))
  }

  /** A chunked transfer of items of which only the last is final. */
  ghost predicate Chunked(p: Plan) {
    && p.id != "" && p.announce.chunked && p.items != []
    && forall i :: 0 <= i < |p.items| ==> (p.items[i].last <==> i == |p.items| - 1)
  }

  /** The same, and what is packed can be unpacked. */
  ghost predicate WfPlan(p: Plan) {
    Chunked(p) && S.Lossless(p.z)
  }

  /** What the daemon is sent for a chunk gives the chunk. */
  predicate Unpacks(z: S.Gzip, data: Bytes) {
    S.TryCompress(z, data).Some? ==> z.gunzip(S.OnWire(z, data)) == Some(data)
  }

  predicate Sequential(p: Plan) {
    p.announce.streams <= 1 && (p.announce.mode == "scp" || p.announce.mode == "rsync")
  }

  ghost function ReceiveUnit(d: Daemon, u: Q.Unit<Msg>, gunzip: Gunzip): Daemon
    requires Wf(d)
  {
    match u
    case Plain(text) => Receive(d, Q.TextMsg(text), gunzip)
    case Raw(data) => Receive(d, Q.BinaryMsg(data), gunzip)
    case Chunk(header, payload) =>
      ReceiveKeepsWf(d, Q.TextMsg(header), gunzip);
      Receive(Receive(d, Q.TextMsg(header), gunzip), Q.BinaryMsg(payload), gunzip)
  }

  lemma ReceiveUnitKeepsWf(d: Daemon, u: Q.Unit<Msg>, gunzip: Gunzip)
    requires Wf(d)
    ensures Wf(ReceiveUnit(d, u, gunzip))
  {
    hide Receive, Wf;
    match u
    case Plain(text) => ReceiveKeepsWf(d, Q.TextMsg(text), gunzip);
    case Raw(data) => ReceiveKeepsWf(d, Q.BinaryMsg(data), gunzip);
    case Chunk(header, payload) =>
      ReceiveKeepsWf(d, Q.TextMsg(header), gunzip);
      ReceiveKeepsWf(Receive(d, Q.TextMsg(header), gunzip), Q.BinaryMsg(payload), gunzip);
  }

  /** The daemon after the first n units. */
  ghost function ReceiveFirst(d: Daemon, units: seq<Q.Unit<Msg>>, n: nat, gunzip: Gunzip): (r: Daemon)
    requires Wf(d) && n <= |units|
    ensures Wf(r)
  {
    if n == 0 then d
    else
      ReceiveUnitKeepsWf(ReceiveFirst(d, units, n - 1, gunzip), units[n - 1], gunzip);
      ReceiveUnit(ReceiveFirst(d, units, n - 1, gunzip), units[n - 1], gunzip)
  }

  lemma UnitKeepsReadOnly(d: Daemon, u: Q.Unit<Msg>, gunzip: Gunzip)
    requires Wf(d)
    ensures ReceiveUnit(d, u, gunzip).store.readOnly == d.store.readOnly
  {
    hide Receive, Wf;
    match u
    case Plain(text) => FrameKeepsReadOnly(d, Q.TextMsg(text), gunzip);
    case Raw(data) => FrameKeepsReadOnly(d, Q.BinaryMsg(data), gunzip);
    case Chunk(header, payload) =>
      FrameKeepsReadOnly(d, Q.TextMsg(header), gunzip);
      ReceiveKeepsWf(d, Q.TextMsg(header), gunzip);
      FrameKeepsReadOnly(Receive(d, Q.TextMsg(header), gunzip), Q.BinaryMsg(payload), gunzip);
  }

  lemma FrameKeepsReadOnly(d: Daemon, frame: Q.Wire<Msg>, gunzip: Gunzip)
    requires Wf(d)
    ensures Receive(d, frame, gunzip).store.readOnly == d.store.readOnly
  {
    hide TakePayload, TakeChunk, SharedFile;
    if frame.BinaryMsg? && !d.slot.Empty? {
      var t := if d.slot.Tabled? then d.table[d.slot.id] else d.slot.transfer;
      TakePayloadKeeps(d.store, t, frame.data, gunzip);
    } else if frame.TextMsg? && frame.text.LegacyChunk? && frame.text.id in d.table && frame.text.data.Some? {
      TakeChunkKeeps(d.store, d.table[frame.text.id], frame.text.data.value, frame.text.final);
    }
  }

  /** What can be created stays the same. */
  lemma {:induction false} ReadOnlyStays(d: Daemon, units: seq<Q.Unit<Msg>>, n: nat, gunzip: Gunzip)
    requires Wf(d) && n <= |units|
    ensures ReceiveFirst(d, units, n, gunzip).store.readOnly == d.store.readOnly
  {
    hide ReceiveUnit, Wf;
    if n > 0 {
      ReadOnlyStays(d, units, n - 1, gunzip);
      UnitKeepsReadOnly(ReceiveFirst(d, units, n - 1, gunzip), units[n - 1], gunzip);
    }
  }

  // ---- What does not disturb a transfer ----

  /** The answers under one id. */
  function AnswersFor(answers: seq<Answer>, id: Id): seq<Answer> {
    if answers == [] then []
    else
      var n := |answers| - 1;
      AnswersFor(answers[..n], id) + (if answers[n].id == id then [answers[n]] else [])
  }

  lemma AnswersForAppend(answers: seq<Answer>, a: Answer, id: Id)
    ensures AnswersFor(answers + [a], id) == AnswersFor(answers, id) + (if a.id == id then [a] else [])
  {
    assert (answers + [a])[..|answers|] == answers;
  }

  /** The destination and the files open on it are as they were. */
  ghost predicate SameAt(s: Store, s': Store, dst: Path) {
    && s'.readOnly == s.readOnly
    && (dst in s'.disk <==> dst in s.disk) && (dst in s.disk ==> s'.disk[dst] == s.disk[dst])
    && |s.files| <= |s'.files|
    && (forall i :: 0 <= i < |s.files| && s.files[i].path == dst ==> s'.files[i] == s.files[i])
  }

  /** Nothing of the transfers `ids` to `dst` has changed, and no other transfer goes there. */
  ghost predicate Undisturbed(d: Daemon, d': Daemon, ids: set<Id>, dst: Path) {
    && (forall id :: id in ids ==> (id in d'.table <==> id in d.table) && AnswersFor(d'.answers, id) == AnswersFor(d.answers, id))
    && (forall id :: id in ids && id in d.table ==> d'.table[id] == d.table[id])
    && Alone(d', ids, dst)
    && SameAt(d.store, d'.store, dst)
  }

  ghost predicate Alone(d: Daemon, ids: set<Id>, dst: Path) {
    forall k :: k in d.table && k !in ids ==> d.table[k].dst != dst
  }

  /** A unit of some other transfer, or of none. */
  ghost predicate Foreign(u: Q.Unit<Msg>, ids: set<Id>, dst: Path) {
    match u
    case Plain(FileInit(other, a)) => other !in ids && a.dst != dst
    case Plain(ChunkHeader(_, _, _, _)) => false
    case Plain(LegacyChunk(other, _, _, _)) => other !in ids
    case Plain(_) => true
    case Raw(_) => true
    case Chunk(header, _) => header.ChunkHeader? && header.id !in ids
  }

  lemma WriteChunkElsewhere(s: Store, t: Transfer, data: Bytes, dst: Path)
    requires WfTransfer(t, s.files) && t.dst != dst
    ensures SameAt(s, WriteChunk(s, t, data).0, dst)
  {
    hide WriteAt, ContentOf;
  }

  lemma TakeChunkElsewhere(s: Store, t: Transfer, data: Bytes, final: bool, dst: Path)
    requires WfTransfer(t, s.files) && t.dst != dst
    ensures SameAt(s, TakeChunk(s, t, data, final).0, dst)
  {
    hide WriteChunk;
    WriteChunkElsewhere(s, t, data, dst);
    WriteChunkKeeps(s, t, data);
  }

  lemma TakePayloadElsewhere(s: Store, t: Transfer, data: Bytes, gunzip: Gunzip, dst: Path)
    requires WfTransfer(t, s.files) && t.dst != dst
    ensures SameAt(s, TakePayload(s, t, data, gunzip).0, dst)
  {
    hide TakeChunk;
    var plain := if t.compressed then gunzip(data) else Some(data);
    if plain.Some? { TakeChunkElsewhere(s, t.(compressed := false), plain.value, t.final, dst); }
  }

  lemma AnswerElsewhere(answers: seq<Answer>, a: Answer, ids: set<Id>)
    requires a.id !in ids
    ensures forall id :: id in ids ==> AnswersFor(answers + [a], id) == AnswersFor(answers, id)
  {
    forall id | id in ids ensures AnswersFor(answers + [a], id) == AnswersFor(answers, id) {
      AnswersForAppend(answers, a, id);
    }
  }

  lemma SettleElsewhere(d: Daemon, other: Id, outcome: Option<bool>, ids: set<Id>, dst: Path)
    requires Alone(d, ids, dst) && other !in ids
    ensures Undisturbed(d, Settle(d, other, outcome), ids, dst)
  {
    if outcome.Some? { AnswerElsewhere(d.answers, Answer(other, outcome.value), ids); }
  }

  lemma BeginElsewhere(d: Daemon, other: Id, a: Announce, ids: set<Id>, dst: Path)
    requires Wf(d) && Alone(d, ids, dst) && other !in ids && a.dst != dst
    ensures Undisturbed(d, Begin(d, other, a), ids, dst)
    ensures d.slot == Empty ==> Begin(d, other, a).slot == Empty
  {
    hide SharedFile, Wf;
  }

  lemma HeaderElsewhere(d: Daemon, other: Id, index: int, final: bool, compressed: bool, ids: set<Id>, dst: Path)
    requires Alone(d, ids, dst) && other !in ids
    ensures Undisturbed(d, Header(d, other, index, final, compressed), ids, dst)
    ensures d.slot == Empty ==> Header(d, other, index, final, compressed).slot in {Empty, Tabled(other)}
  {
    AnswerElsewhere(d.answers, Answer(other, false), ids);
  }

  lemma UndisturbedTwice(d: Daemon, d': Daemon, d'': Daemon, ids: set<Id>, dst: Path)
    requires Undisturbed(d, d', ids, dst) && Undisturbed(d', d'', ids, dst)
    requires forall i :: 0 <= i < |d.store.files| ==> d'.store.files[i].path == d.store.files[i].path
    ensures Undisturbed(d, d'', ids, dst)
  {
  }

  /** A transfer to somewhere else is put back changed, and settled. */
  lemma SettledElsewhere(d: Daemon, key: Id, s: Store, t: Transfer, outcome: Option<bool>, slot: Slot, ids: set<Id>, dst: Path)
    requires Alone(d, ids, dst) && SameAt(d.store, s, dst) && key in d.table && key !in ids && t.dst != dst
    requires "" !in ids && (t.id == "" || t.id == key)
    ensures Undisturbed(d, Settle(d.(table := d.table[key := t], store := s, slot := slot), t.id, outcome), ids, dst)
  {
    var d' := d.(table := d.table[key := t], store := s, slot := slot);
    SettleElsewhere(d', t.id, outcome, ids, dst);
    hide Settle, SameAt, AnswersFor;
  }

  lemma LegacyElsewhere(d: Daemon, other: Id, data: Option<Bytes>, final: bool, ids: set<Id>, dst: Path)
    requires Wf(d) && Alone(d, ids, dst) && other !in ids && "" !in ids
    ensures Undisturbed(d, Legacy(d, other, data, final), ids, dst)
    ensures d.slot == Empty ==> Legacy(d, other, data, final).slot == Empty
  {
    if other !in d.table || data.None? {
      AnswerElsewhere(d.answers, Answer(other, false), ids);
      hide AnswersFor;
    } else {
      var t := d.table[other];
      TakeChunkElsewhere(d.store, t, data.value, final, dst);
      TakeChunkKeeps(d.store, t, data.value, final);
      hide TakeChunk, SameAt, Undisturbed, Wf;
      var (s, t', outcome) := TakeChunk(d.store, t, data.value, final);
      SettledElsewhere(d, other, s, t', outcome, d.slot, ids, dst);
    }
  }

  lemma PayloadElsewhere(d: Daemon, data: Bytes, gunzip: Gunzip, ids: set<Id>, dst: Path)
    requires Wf(d) && Alone(d, ids, dst) && (d.slot == Empty || (d.slot.Tabled? && d.slot.id !in ids)) && "" !in ids
    ensures Undisturbed(d, Payload(d, data, gunzip), ids, dst)
  {
    if d.slot.Tabled? {
      var t := d.table[d.slot.id];
      TakePayloadElsewhere(d.store, t, data, gunzip, dst);
      TakePayloadKeeps(d.store, t, data, gunzip);
      var (s, t', outcome) := TakePayload(d.store, t, data, gunzip);
      hide TakePayload, SameAt, Undisturbed, Wf;
      SettledElsewhere(d, d.slot.id, s, t', outcome, Empty, ids, dst);
    }
  }

  lemma ForeignUnit(d: Daemon, u: Q.Unit<Msg>, gunzip: Gunzip, ids: set<Id>, dst: Path)
    requires Wf(d) && d.slot == Empty && Alone(d, ids, dst) && "" !in ids && Foreign(u, ids, dst)
    ensures Undisturbed(d, ReceiveUnit(d, u, gunzip), ids, dst) && ReceiveUnit(d, u, gunzip).slot == Empty
  {
    hide Begin, Payload, Legacy, Header, Wf;
    match u
    case Plain(FileInit(other, a)) => if a.chunked { BeginElsewhere(d, other, a, ids, dst); }
    case Plain(LegacyChunk(other, _, data, final)) => LegacyElsewhere(d, other, data, final, ids, dst);
    case Plain(text) =>
    case Raw(data) => PayloadElsewhere(d, data, gunzip, ids, dst); PayloadKeeps(d, data, gunzip);
    case Chunk(header, payload) =>
      HeaderElsewhere(d, header.id, header.index, header.final, header.compressed, ids, dst);
      HeaderKeeps(d, header.id, header.index, header.final, header.compressed);
      var d' := Header(d, header.id, header.index, header.final, header.compressed);
      PayloadElsewhere(d', payload, gunzip, ids, dst);
      PayloadKeeps(d', payload, gunzip);
      HeaderOpensNoFile(d, header.id, header.index, header.final, header.compressed);
      UndisturbedTwice(d, d', Payload(d', payload, gunzip), ids, dst);
  }

  lemma HeaderOpensNoFile(d: Daemon, id: Id, index: int, final: bool, compressed: bool)
    ensures Header(d, id, index, final, compressed).store == d.store
  {
  }

  // ---- A sequential transfer ----

  ghost predicate Writable(d: Daemon, p: Plan) { p.announce.dst !in d.store.readOnly }

  function Stored(p: Plan): DaemonModel.Stored {
    if p.announce.mode == "scp" then File(S.Joined(p.items)) else Tree(S.Joined(p.items))
  }

  /** What a sequential transfer has got is in a file of its own, or in its buffer. */
  ghost predicate Holds(s: Store, t: Transfer, sofar: Bytes) {
    if t.file.Some? then
      && t.buf == []
      && t.file.value < |s.files|
      && s.files[t.file.value] == Descriptor(t.dst, |sofar|, true)
      && t.dst in s.disk && s.disk[t.dst] == File(sofar)
    else t.buf == sofar
  }

  ghost predicate Follows(t: Transfer, a: Announce, s: Store) {
    && t.dst == a.dst && t.mode == a.mode && !t.parallel
    && (t.file.Some? <==> a.mode == "scp" && a.dst !in s.readOnly)
  }

  /** A transfer that has got its first n chunks. */
  ghost predicate Underway(d: Daemon, p: Plan, n: nat)
    requires n <= |p.items|
  {
    && p.id in d.table
    && Follows(d.table[p.id], p.announce, d.store)
    && Holds(d.store, d.table[p.id], S.JoinFirst(p.items, n))
  }

  /** The daemon after the first k units of a plan. */
  ghost predicate Progress(d: Daemon, p: Plan, k: nat) {
    && k <= |p.items| + 1
    && d.slot == Empty
    && Alone(d, {p.id}, p.announce.dst)
    && (if k == 0 then p.id !in d.table && AnswersFor(d.answers, p.id) == []
        else if k <= |p.items| then Underway(d, p, k - 1) && AnswersFor(d.answers, p.id) == []
        else
          && p.id !in d.table
          && AnswersFor(d.answers, p.id) == [Answer(p.id, Writable(d, p))]
          && (Writable(d, p) ==> p.announce.dst in d.store.disk && d.store.disk[p.announce.dst] == Stored(p)))
  }

  lemma ForeignKeepsProgress(d: Daemon, p: Plan, k: nat, u: Q.Unit<Msg>)
    requires Wf(d) && Chunked(p) && Progress(d, p, k) && Foreign(u, {p.id}, p.announce.dst)
    ensures Progress(ReceiveUnit(d, u, p.z.gunzip), p, k)
  {
    ForeignUnit(d, u, p.z.gunzip, {p.id}, p.announce.dst);
    hide ReceiveUnit, Foreign, S.JoinFirst, AnswersFor, Wf;
    ReceiveUnitKeepsWf(d, u, p.z.gunzip);
  }

  lemma Announced(d: Daemon, p: Plan)
    requires Wf(d) && Chunked(p) && Sequential(p) && Progress(d, p, 0)
    ensures Progress(ReceiveUnit(d, UnitAt(p, 0), p.z.gunzip), p, 1)
  {
    hide Wf;
  }

  lemma WriteAtEnd(content: Bytes, data: Bytes)
    ensures WriteAt(content, |content|, data) == content + data
  {
  }

  /** The chunk's header finds its transfer, and its payload, unpacked, is the chunk. */
  lemma ChunkTaken(d: Daemon, p: Plan, k: nat)
    requires Wf(d) && 0 < k <= |p.items| && d.slot == Empty && p.id in d.table && Unpacks(p.z, p.items[k - 1].data)
    ensures var item := p.items[k - 1];
      var t := d.table[p.id].(id := p.id, index := item.index, final := item.last, compressed := false);
      && WfTransfer(t, d.store.files)
      && (var (s, t', outcome) := TakeChunk(d.store, t, item.data, item.last);
          ReceiveUnit(d, UnitAt(p, k), p.z.gunzip) == Settle(d.(table := d.table[p.id := t'], store := s), p.id, outcome))
  {
    var item := p.items[k - 1];
    var compressed := S.TryCompress(p.z, item.data).Some?;
    HeaderKeeps(d, p.id, item.index, item.last, compressed);
    var d' := Header(d, p.id, item.index, item.last, compressed);
    var t := d.table[p.id].(id := p.id, index := item.index, final := item.last, compressed := false);
    hide TakeChunk, Settle;
    assert TakePayload(d'.store, d'.table[p.id], S.OnWire(p.z, item.data), p.z.gunzip) == TakeChunk(d.store, t, item.data, item.last);
    var (s, t', outcome) := TakeChunk(d.store, t, item.data, item.last);
    assert d'.table[p.id := t'] == d.table[p.id := t'];
  }

  /** What taking a chunk comes to, for a transfer that then has `got`. */
  ghost predicate Took(s: Store, s': Store, t': Transfer, outcome: Option<bool>, a: Announce, got: Bytes, final: bool) {
    && s'.readOnly == s.readOnly
    && if final then
         && outcome == Some(a.dst !in s.readOnly)
         && (a.dst !in s.readOnly ==> a.dst in s'.disk)
         && (a.dst !in s.readOnly ==> s'.disk[a.dst] == if a.mode == "scp" then File(got) else Tree(got))
       else outcome == None && Follows(t', a, s') && Holds(s', t', got)
  }

  lemma SequentialTakes(s: Store, t: Transfer, a: Announce, sofar: Bytes, data: Bytes, final: bool)
    requires WfTransfer(t, s.files) && Follows(t, a, s) && Holds(s, t, sofar) && (a.mode == "scp" || a.mode == "rsync")
    ensures var (s', t', outcome) := TakeChunk(s, t, data, final); Took(s, s', t', outcome, a, sofar + data, final)
  {
    WriteAtEnd(sofar, data);
    hide WriteAt;
  }

  lemma TookProgress(d: Daemon, p: Plan, k: nat, s: Store, t: Transfer, outcome: Option<bool>)
    requires Chunked(p) && 0 < k <= |p.items| && Progress(d, p, k)
    requires Took(d.store, s, t, outcome, p.announce, S.JoinFirst(p.items, k), p.items[k - 1].last)
    ensures Progress(Settle(d.(table := d.table[p.id := t], store := s), p.id, outcome), p, k + 1)
  {
    assert p.items[k - 1].last <==> k == |p.items|;
    hide S.JoinFirst, AnswersFor, Chunked;
    if p.items[k - 1].last { TookLast(d, p, k, s, t, outcome); } else { TookMore(d, p, k, s, t, outcome); }
  }

  lemma TookLast(d: Daemon, p: Plan, k: nat, s: Store, t: Transfer, outcome: Option<bool>)
    requires k == |p.items| > 0 && Progress(d, p, k) && Took(d.store, s, t, outcome, p.announce, S.JoinFirst(p.items, k), true)
    ensures Progress(Settle(d.(table := d.table[p.id := t], store := s), p.id, outcome), p, k + 1)
  {
    AnswersForAppend(d.answers, Answer(p.id, outcome.value), p.id);
    hide S.JoinFirst, AnswersFor, Underway;
    assert [] + [Answer(p.id, outcome.value)] == [Answer(p.id, outcome.value)];
  }

  lemma TookMore(d: Daemon, p: Plan, k: nat, s: Store, t: Transfer, outcome: Option<bool>)
    requires 0 < k < |p.items| && Progress(d, p, k) && Took(d.store, s, t, outcome, p.announce, S.JoinFirst(p.items, k), false)
    ensures Progress(Settle(d.(table := d.table[p.id := t], store := s), p.id, outcome), p, k + 1)
  {
    hide S.JoinFirst, AnswersFor, Holds, Follows;
  }

  lemma ChunkReceived(d: Daemon, p: Plan, k: nat)
    requires Wf(d) && Chunked(p) && Sequential(p) && 0 < k <= |p.items| && Progress(d, p, k)
    requires Unpacks(p.z, p.items[k - 1].data)
    ensures Progress(ReceiveUnit(d, UnitAt(p, k), p.z.gunzip), p, k + 1)
  {
    ChunkTaken(d, p, k);
    var item := p.items[k - 1];
    var t := d.table[p.id].(id := p.id, index := item.index, final := item.last, compressed := false);
    hide ReceiveUnit, UnitAt, TakeChunk, Wf, Took;
    SequentialTakes(d.store, t, p.announce, S.JoinFirst(p.items, k - 1), item.data, item.last);
    var (s, t', outcome) := TakeChunk(d.store, t, item.data, item.last);
    TookProgress(d, p, k, s, t', outcome);
  }

  // ---- Any interleaving ----

  ghost predicate Owns(p: Plan, u: Q.Unit<Msg>) {
    (u.Plain? && u.text.FileInit? && u.text.id == p.id) || (u.Chunk? && u.header.ChunkHeader? && u.header.id == p.id)
  }

  /** How many of the first n units belong to the plan. */
  ghost function Seen(p: Plan, units: seq<Q.Unit<Msg>>, n: nat): nat
    requires n <= |units|
  {
    if n == 0 then 0 else Seen(p, units, n - 1) + (if Owns(p, units[n - 1]) then 1 else 0)
  }

  /** The plan's own units come in its order; every other unit leaves its id and destination alone. */
  ghost predicate InTurn(p: Plan, units: seq<Q.Unit<Msg>>) {
    forall j :: 0 <= j < |units| ==>
      if Owns(p, units[j]) then Seen(p, units, j) <= |p.items| && units[j] == UnitAt(p, Seen(p, units, j))
      else Foreign(units[j], {p.id}, p.announce.dst)
  }

  lemma {:induction false} ProgressAlways(d: Daemon, p: Plan, units: seq<Q.Unit<Msg>>, n: nat)
    requires Wf(d) && WfPlan(p) && Sequential(p) && Progress(d, p, 0) && InTurn(p, units) && n <= |units|
    ensures Seen(p, units, n) <= |p.items| + 1
    ensures Progress(ReceiveFirst(d, units, n, p.z.gunzip), p, Seen(p, units, n))
  {
    hide Progress, Wf, ReceiveUnit, Foreign;
    if n > 0 {
      ProgressAlways(d, p, units, n - 1);
      var before, k := ReceiveFirst(d, units, n - 1, p.z.gunzip), Seen(p, units, n - 1);
      if !Owns(p, units[n - 1]) {
        ForeignKeepsProgress(before, p, k, units[n - 1]);
      } else if k == 0 {
        Announced(before, p);
      } else {
        ChunkReceived(before, p, k);
      }
    }
  }

  /**
   Whatever else arrives between a sequential transfer's frames: as long as they have not
   all arrived nothing is answered, and once they have, one answer was sent under its id,
   good exactly if the destination can be created, and then the destination holds exactly
   the bytes of the items.
   */
  lemma TransferDelivered(d: Daemon, p: Plan, units: seq<Q.Unit<Msg>>, n: nat)
    requires Wf(d) && WfPlan(p) && Sequential(p) && Progress(d, p, 0) && InTurn(p, units) && n <= |units|
    ensures var r, k := ReceiveFirst(d, units, n, p.z.gunzip), Seen(p, units, n);
      && k <= |p.items| + 1
      && AnswersFor(r.answers, p.id) == (if k <= |p.items| then [] else [Answer(p.id, p.announce.dst !in d.store.readOnly)])
      && (k == |p.items| + 1 && p.announce.dst !in d.store.readOnly ==>
            p.announce.dst in r.store.disk && r.store.disk[p.announce.dst] == Stored(p))
  {
    ProgressAlways(d, p, units, n);
    ReadOnlyStays(d, units, n, p.z.gunzip);
  }
}
