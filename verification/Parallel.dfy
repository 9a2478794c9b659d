/**
 A parallel copy: several streams, each a transfer of its own to the daemon, write chunks of
 one file at their offsets.
 */
module ParallelCopies {
  import opened Basics
  import opened Protocol
  import opened DaemonModel
  import opened Reassembly
  import C = Chunking
  import S = Senders
  import Q = WriteQueue

  /** The streams' ids on the daemon, their common announcement, and the source. */
  datatype Copy = Copy(ids: seq<Id>, announce: Announce, data: Bytes, z: S.Gzip) {
    ghost function Ids(): set<Id> { set id | id in ids }
    function ChunkSize(): int { announce.chunkSize }
  }

  ghost predicate WfCopy(c: Copy) {
    && |c.ids| > 1 && Distinct(c.ids) && "" !in c.ids && S.Lossless(c.z)
    && c.announce.chunked && c.announce.mode == "scp" && c.announce.streams == |c.ids|
    && c.announce.chunkSize > 0 && c.announce.totalSize == |c.data| > 0
    && |c.ids| <= C.ChunkCount(|c.data|, c.announce.chunkSize)
  }

  function ItemsOf(c: Copy, s: nat): seq<S.Item>
    requires c.ChunkSize() > 0 && |c.ids| > 0
  {
    S.StripeItems(c.data, c.ChunkSize(), |c.ids|, C.ChunkCount(|c.data|, c.ChunkSize()), s)
  }

  /** Stream s as the daemon is meant to receive it. */
  function StreamPlan(c: Copy, s: nat): Plan
    requires c.ChunkSize() > 0 && s < |c.ids|
  {
    Plan(c.ids[s], c.announce, ItemsOf(c, s), c.z)
  }

  lemma ItemsOfAre(c: Copy, s: nat)
    requires WfCopy(c) && s < |c.ids|
    ensures WfPlan(StreamPlan(c, s))
    ensures var items, chunks := ItemsOf(c, s), C.Chunks(c.data, c.ChunkSize());
      forall i :: 0 <= i < |items| ==> items[i].index < |chunks| && items[i].data == chunks[items[i].index]
  {
    var count := C.ChunkCount(|c.data|, c.ChunkSize());
    S.StripeItemsAre(c.data, c.ChunkSize(), |c.ids|, s);
    C.StreamsAllFinishIff(|c.ids|, count);
    assert C.Stripe(s, |c.ids|, count) != [];
    assert c.ids[s] in c.ids;
  }

  // ---- Overlaying chunks ----

  /** The file holds the source wherever a chunk was written, and zeros elsewhere. */
  ghost predicate Overlaid(content: Bytes, data: Bytes, chunkSize: nat, written: set<nat>)
    requires chunkSize > 0
  {
    && |content| == |data|
    && forall i :: 0 <= i < |data| ==> content[i] == if i / chunkSize in written then data[i] else 0
  }

  lemma InChunk(data: Bytes, chunkSize: nat, q: nat, i: nat)
    requires chunkSize > 0 && q < |C.Chunks(data, chunkSize)| && i < |data|
    ensures var start := q * chunkSize;
      i / chunkSize == q <==> start <= i < start + |C.Chunks(data, chunkSize)[q]|
  {
    C.ChunkAt(data, chunkSize, q);
    var start := q * chunkSize;
    assert (q + 1) * chunkSize == start + chunkSize;
    if start <= i < start + chunkSize { QuotientIs(i, chunkSize, q); }
    if i / chunkSize == q { assert i == q * chunkSize + i % chunkSize; }
  }

  lemma WriteOverlays(content: Bytes, data: Bytes, chunkSize: nat, written: set<nat>, q: nat)
    requires chunkSize > 0 && q < |C.Chunks(data, chunkSize)| && Overlaid(content, data, chunkSize, written)
    ensures Overlaid(WriteAt(content, q * chunkSize, C.Chunks(data, chunkSize)[q]), data, chunkSize, written + {q})
  {
    C.ChunkAt(data, chunkSize, q);
    var chunk, start := C.Chunks(data, chunkSize)[q], q * chunkSize;
    var end := start + |chunk|;
    assert end <= |data| && chunk == data[start..end];
    var after := WriteAt(content, start, chunk);
    assert after == content[..start] + chunk + content[end..];
    forall i | 0 <= i < |data|
      ensures after[i] == if i / chunkSize in written + {q} then data[i] else 0
    {
      InChunk(data, chunkSize, q, i);
      if start <= i < end { assert after[i] == chunk[i - start] == data[i]; }
    }
  }

  lemma ZerosOverlaid(data: Bytes, chunkSize: nat)
    requires chunkSize > 0
    ensures Overlaid(Zeros(|data|), data, chunkSize, {})
  {
  }

  // ---- One stream's steps ----

  /** Stream s has delivered its first k units; `file` is the file the live streams share. */
  ghost predicate StreamAt(d: Daemon, c: Copy, s: nat, k: nat, file: Option<nat>)
    requires WfCopy(c) && s < |c.ids|
  {
    var id := c.ids[s];
    if k == 0 then id !in d.table && AnswersFor(d.answers, id) == []
    else if k <= |ItemsOf(c, s)| then
      && AnswersFor(d.answers, id) == []
      && id in d.table
      && (var t := d.table[id];
          t.dst == c.announce.dst && t.mode == "scp" && t.parallel && t.chunkSize == c.ChunkSize() && t.file == file)
    else id !in d.table && AnswersFor(d.answers, id) == [Answer(id, true)]
  }

  predicate Live(c: Copy, s: nat, k: nat)
    requires c.ChunkSize() > 0 && s < |c.ids|
  {
    1 <= k <= |ItemsOf(c, s)|
  }

  ghost predicate AnyLive(c: Copy, ks: seq<nat>)
    requires c.ChunkSize() > 0 && |ks| == |c.ids|
  {
    exists s :: 0 <= s < |ks| && Live(c, s, ks[s])
  }

  /** `ks` counts the units each stream has delivered, `written` the chunks written since the
      file was last created. */
  ghost predicate CopyAt(d: Daemon, c: Copy, ks: seq<nat>, file: Option<nat>, written: set<nat>) {
    && WfCopy(c) && |ks| == |c.ids| && d.slot == Empty && Alone(d, c.Ids(), c.announce.dst)
    && (file.Some? <==> c.announce.dst !in d.store.readOnly)
    && (forall s :: 0 <= s < |ks| ==> StreamAt(d, c, s, ks[s], file))
    && (file.Some? && (exists s :: 0 <= s < |ks| && ks[s] > 0) ==> FileHolds(d.store, c, file.value, written))
  }

  ghost predicate FileHolds(s: Store, c: Copy, fd: nat, written: set<nat>)
    requires c.ChunkSize() > 0
  {
    && fd < |s.files| && s.files[fd].path == c.announce.dst && s.files[fd].open
    && c.announce.dst in s.disk && s.disk[c.announce.dst].File?
    && Overlaid(s.disk[c.announce.dst].content, c.data, c.ChunkSize(), written)
  }

  lemma ForeignKeepsCopy(d: Daemon, c: Copy, ks: seq<nat>, file: Option<nat>, written: set<nat>, u: Q.Unit<Msg>)
    requires Wf(d) && CopyAt(d, c, ks, file, written) && Foreign(u, c.Ids(), c.announce.dst)
    ensures CopyAt(ReceiveUnit(d, u, c.z.gunzip), c, ks, file, written)
  {
    ForeignUnit(d, u, c.z.gunzip, c.Ids(), c.announce.dst);
    hide ReceiveUnit, Foreign, Overlaid, AnswersFor, Wf, ItemsOf;
    var d' := ReceiveUnit(d, u, c.z.gunzip);
    forall s | 0 <= s < |ks| ensures StreamAt(d', c, s, ks[s], file) {
      assert c.ids[s] in c.Ids();
      assert StreamAt(d, c, s, ks[s], file);
    }
  }

  /** The other streams of the copy are where they were. */
  lemma OthersStay(d: Daemon, d': Daemon, c: Copy, ks: seq<nat>, s: nat, file: Option<nat>, file': Option<nat>)
    requires WfCopy(c) && |ks| == |c.ids| && s < |ks|
    requires forall r :: 0 <= r < |ks| ==> StreamAt(d, c, r, ks[r], file)
    requires forall r :: 0 <= r < |ks| && r != s ==>
               (c.ids[r] in d'.table <==> c.ids[r] in d.table) && AnswersFor(d'.answers, c.ids[r]) == AnswersFor(d.answers, c.ids[r])
    requires forall r :: 0 <= r < |ks| && r != s && c.ids[r] in d.table ==> d'.table[c.ids[r]] == d.table[c.ids[r]]
    requires file' == file || !AnyLive(c, ks)
    ensures forall r :: 0 <= r < |ks| && r != s ==> StreamAt(d', c, r, ks[r], file')
  {
    hide ItemsOf, AnswersFor;
    forall r | 0 <= r < |ks| && r != s ensures StreamAt(d', c, r, ks[r], file') {
      assert StreamAt(d, c, r, ks[r], file);
      if file' != file { assert !Live(c, r, ks[r]); }
    }
  }

  /** A stream's announcement joins the live streams, or creates the file. */
  lemma StreamBegins(d: Daemon, c: Copy, ks: seq<nat>, file: Option<nat>, written: set<nat>, s: nat)
    returns (file': Option<nat>)
    requires Wf(d) && CopyAt(d, c, ks, file, written) && s < |ks| && ks[s] == 0
    ensures CopyAt(ReceiveUnit(d, UnitAt(StreamPlan(c, s), 0), c.z.gunzip), c, ks[s := 1], file', if AnyLive(c, ks) then written else {})
  {
    var p := StreamPlan(c, s);
    ItemsOfAre(c, s);
    var d' := ReceiveUnit(d, UnitAt(p, 0), c.z.gunzip);
    assert d' == Begin(d, p.id, c.announce);
    assert p.id in c.ids;
    SharedIs(d, c, ks, file, written);
    file' := d'.table[p.id].file;
    hide ItemsOf, ReceiveUnit, Wf, SharedFile;
    if AnyLive(c, ks) {
      assert file' == file;
    } else if file'.Some? {
      ZerosOverlaid(c.data, c.ChunkSize());
    }
    hide Overlaid;
    OthersStay(d, d', c, ks, s, file, file');
    assert StreamAt(d', c, s, 1, file');
    var ks' := ks[s := 1];
    assert forall r :: 0 <= r < |ks'| ==> StreamAt(d', c, r, ks'[r], file');
  }

  lemma SharedIs(d: Daemon, c: Copy, ks: seq<nat>, file: Option<nat>, written: set<nat>)
    requires Wf(d) && CopyAt(d, c, ks, file, written)
    ensures SharedFile(d.table, c.announce.dst) == if AnyLive(c, ks) then file else None
  {
    hide ItemsOf, Wf, Overlaid, AnswersFor;
    var dst := c.announce.dst;
    if AnyLive(c, ks) {
      var s :| 0 <= s < |ks| && Live(c, s, ks[s]);
      assert StreamAt(d, c, s, ks[s], file);
      if file.Some? { assert c.ids[s] in d.table && Shares(d.table[c.ids[s]], dst); }
    }
    forall k | k in d.table && Shares(d.table[k], dst) ensures AnyLive(c, ks) && d.table[k].file == file {
      assert k in c.Ids();
      var s :| 0 <= s < |c.ids| && c.ids[s] == k;
      assert StreamAt(d, c, s, ks[s], file);
      assert Live(c, s, ks[s]);
    }
  }

  lemma ParallelTakes(s: Store, c: Copy, t: Transfer, data: Bytes, final: bool)
    requires WfTransfer(t, s.files) && t.parallel && t.chunkSize == c.ChunkSize() > 0 && t.index >= 0
    requires t.file.Some? ==> s.files[t.file.value].open && t.dst in s.disk && s.disk[t.dst].File?
    ensures var (s', t', outcome) := TakeChunk(s, t, data, final);
      && outcome == (if final then Some(true) else None) && t' == t.(buf := t'.buf) && FilesGrow(s, s')
      && (t.file.Some? ==> s'.files[t.file.value].open)
      && (t.file.Some? ==> s'.disk == s.disk[t.dst := File(WriteAt(s.disk[t.dst].content, t.index * t.chunkSize, data))])
      && (t.file.None? ==> s'.disk == s.disk)
  {
    hide WriteAt;
  }

  /** A stream's chunk is written at its place; the last one ends the stream well. */
  lemma StreamTakesChunk(d: Daemon, c: Copy, ks: seq<nat>, file: Option<nat>, written: set<nat>, s: nat)
    requires Wf(d) && CopyAt(d, c, ks, file, written) && s < |ks| && Live(c, s, ks[s])
    ensures CopyAt(ReceiveUnit(d, UnitAt(StreamPlan(c, s), ks[s]), c.z.gunzip), c, ks[s := ks[s] + 1], file,
                   written + {ItemsOf(c, s)[ks[s] - 1].index})
  {
    hide ItemsOf, ReceiveUnit, UnitAt, TakeChunk, Overlaid, WriteAt, Wf, WfPlan, AnswersFor;
    var p, k := StreamPlan(c, s), ks[s];
    ItemsOfAre(c, s);
    LastItemIs(c, s, k);
    assert StreamAt(d, c, s, k, file);
    ChunkTaken(d, p, k);
    var item := p.items[k - 1];
    var t := d.table[p.id].(id := p.id, index := item.index, final := item.last, compressed := false);
    ParallelTakes(d.store, c, t, item.data, item.last);
    if file.Some? {
      WriteOverlays(d.store.disk[t.dst].content, c.data, c.ChunkSize(), written, item.index);
    }
    var (store, t', outcome) := TakeChunk(d.store, t, item.data, item.last);
    assert p.id in c.Ids();
    StreamSettled(d, c, ks, file, s, store, t', outcome, ReceiveUnit(d, UnitAt(p, k), c.z.gunzip));
  }

  lemma LastItemIs(c: Copy, s: nat, k: nat)
    requires WfCopy(c) && s < |c.ids| && 1 <= k <= |ItemsOf(c, s)|
    ensures ItemsOf(c, s)[k - 1].last <==> k == |ItemsOf(c, s)|
  {
    ItemsOfAre(c, s);
    hide ItemsOf;
    assert StreamPlan(c, s).items[k - 1].last <==> k - 1 == |ItemsOf(c, s)| - 1;
  }

  lemma StreamSettled(d: Daemon, c: Copy, ks: seq<nat>, file: Option<nat>, s: nat, store: Store, t: Transfer, outcome: Option<bool>, d': Daemon)
    requires WfCopy(c) && |ks| == |c.ids| && s < |ks| && Live(c, s, ks[s])
    requires forall r :: 0 <= r < |ks| ==> StreamAt(d, c, r, ks[r], file)
    requires d' == Settle(d.(table := d.table[c.ids[s] := t], store := store), c.ids[s], outcome)
    requires t.dst == c.announce.dst && t.mode == "scp" && t.parallel && t.chunkSize == c.ChunkSize() && t.file == file
    requires outcome == if ks[s] == |ItemsOf(c, s)| then Some(true) else None
    ensures var ks' := ks[s := ks[s] + 1]; forall r :: 0 <= r < |ks'| ==> StreamAt(d', c, r, ks'[r], file)
  {
    hide ItemsOf;
    var id := c.ids[s];
    assert StreamAt(d, c, s, ks[s], file);
    if outcome.Some? { AnswersForAppend(d.answers, Answer(id, true), id); }
    assert StreamAt(d', c, s, ks[s] + 1, file);
    forall r | 0 <= r < |ks| && r != s ensures AnswersFor(d'.answers, c.ids[r]) == AnswersFor(d.answers, c.ids[r]) {
      assert c.ids[r] != id;
      if outcome.Some? { AnswersForAppend(d.answers, Answer(id, true), c.ids[r]); }
    }
    hide AnswersFor, StreamAt;
    OthersStay(d, d', c, ks, s, file, file);
    var ks' := ks[s := ks[s] + 1];
    assert forall r :: 0 <= r < |ks'| ==> StreamAt(d', c, r, ks'[r], file);
  }

  // ---- Any interleaving ----

  ghost predicate IsOf(c: Copy, s: nat, u: Q.Unit<Msg>)
    requires c.ChunkSize() > 0
  {
    s < |c.ids| && Owns(StreamPlan(c, s), u)
  }

  /** The stream that a unit belongs to. */
  ghost function StreamOf(c: Copy, u: Q.Unit<Msg>): (r: Option<nat>)
    requires c.ChunkSize() > 0
    ensures r.Some? ==> IsOf(c, r.value, u)
    ensures r.None? ==> forall s: nat :: !IsOf(c, s, u)
  {
    if exists s: nat :: IsOf(c, s, u) then
      var s: nat :| IsOf(c, s, u);
      Some(s)
    else None
  }

  /** Each stream's units come in its order; all others leave the copy alone. */
  ghost predicate CopyInTurn(c: Copy, units: seq<Q.Unit<Msg>>)
    requires c.ChunkSize() > 0
  {
    forall j :: 0 <= j < |units| ==> UnitInTurn(c, units, j)
  }

  ghost predicate UnitInTurn(c: Copy, units: seq<Q.Unit<Msg>>, j: nat)
    requires c.ChunkSize() > 0 && j < |units|
  {
    match StreamOf(c, units[j])
    case None => Foreign(units[j], c.Ids(), c.announce.dst)
    case Some(s) =>
      var k := Seen(StreamPlan(c, s), units, j);
      k <= |ItemsOf(c, s)| && units[j] == UnitAt(StreamPlan(c, s), k)
  }

  /** How many units of each stream are among the first n. */
  ghost function Counts(c: Copy, units: seq<Q.Unit<Msg>>, n: nat): (ks: seq<nat>)
    requires c.ChunkSize() > 0 && n <= |units|
    ensures |ks| == |c.ids|
  {
    seq(|c.ids|, s requires 0 <= s < |c.ids| => Seen(StreamPlan(c, s), units, n))
  }

  /** The chunks written, by the first n units, since the file was last created. */
  ghost function Fresh(c: Copy, units: seq<Q.Unit<Msg>>, n: nat): set<nat>
    requires WfCopy(c) && CopyInTurn(c, units) && n <= |units|
  {
    if n == 0 then {}
    else
      var before, ks := Fresh(c, units, n - 1), Counts(c, units, n - 1);
      assert UnitInTurn(c, units, n - 1);
      match StreamOf(c, units[n - 1])
      case None => before
      case Some(s) =>
        if ks[s] == 0 then (if AnyLive(c, ks) then before else {})
        else before + {ItemsOf(c, s)[ks[s] - 1].index}
  }

  lemma OneOwner(c: Copy, r: nat, s: nat, u: Q.Unit<Msg>)
    requires WfCopy(c) && IsOf(c, r, u) && IsOf(c, s, u)
    ensures r == s
  {
    assert c.ids[r] == c.ids[s];
  }

  lemma CountsNext(c: Copy, units: seq<Q.Unit<Msg>>, n: nat)
    requires WfCopy(c) && n < |units|
    ensures var ks, s := Counts(c, units, n), StreamOf(c, units[n]);
      Counts(c, units, n + 1) == if s.None? then ks else ks[s.value := ks[s.value] + 1]
  {
    hide ItemsOf;
    var s := StreamOf(c, units[n]);
    forall r | 0 <= r < |c.ids|
      ensures Counts(c, units, n + 1)[r] == Counts(c, units, n)[r] + (if s == Some(r) then 1 else 0)
    {
      if s.Some? && IsOf(c, r, units[n]) { OneOwner(c, r, s.value, units[n]); }
      assert s.None? ==> !IsOf(c, r, units[n]);
      assert IsOf(c, r, units[n]) <==> Owns(StreamPlan(c, r), units[n]);
    }
  }

  lemma CountIs(c: Copy, units: seq<Q.Unit<Msg>>, n: nat, s: nat)
    requires c.ChunkSize() > 0 && n <= |units| && s < |c.ids|
    ensures Counts(c, units, n)[s] == Seen(StreamPlan(c, s), units, n)
  {
  }

  /** Where the next unit's stream stands, and that the unit is the one it should be. */
  lemma UnitIs(c: Copy, units: seq<Q.Unit<Msg>>, n: nat)
    requires WfCopy(c) && CopyInTurn(c, units) && n < |units|
    ensures var ks := Counts(c, units, n);
      match StreamOf(c, units[n])
      case None => Foreign(units[n], c.Ids(), c.announce.dst)
      case Some(s) => ks[s] <= |ItemsOf(c, s)| && units[n] == UnitAt(StreamPlan(c, s), ks[s])
  {
    assert UnitInTurn(c, units, n);
    hide ItemsOf, UnitAt, Seen;
    if StreamOf(c, units[n]).Some? { CountIs(c, units, n, StreamOf(c, units[n]).value); }
  }

  /** Nothing of the copy has arrived yet. */
  ghost predicate Ready(d: Daemon, c: Copy) {
    && Wf(d) && WfCopy(c) && d.slot == Empty && Alone(d, c.Ids(), c.announce.dst)
    && forall s :: 0 <= s < |c.ids| ==> c.ids[s] !in d.table && AnswersFor(d.answers, c.ids[s]) == []
  }

  lemma CopyStarts(d: Daemon, c: Copy, units: seq<Q.Unit<Msg>>) returns (file: Option<nat>)
    requires Ready(d, c) && CopyInTurn(c, units)
    ensures CopyAt(d, c, Counts(c, units, 0), file, {})
  {
    hide ItemsOf, AnswersFor, Wf;
    file := if c.announce.dst in d.store.readOnly then None else Some(0);
  }

  lemma {:induction false} CopyAlways(d: Daemon, c: Copy, units: seq<Q.Unit<Msg>>, n: nat) returns (file: Option<nat>)
    requires Ready(d, c) && CopyInTurn(c, units) && n <= |units|
    ensures CopyAt(ReceiveFirst(d, units, n, c.z.gunzip), c, Counts(c, units, n), file, Fresh(c, units, n))
  {
    hide CopyAt, ReceiveUnit, ItemsOf, AnyLive, Wf, Counts, Foreign, CopyInTurn;
    if n == 0 {
      file := CopyStarts(d, c, units);
    } else {
      file := CopyAlways(d, c, units, n - 1);
      var before, ks, written := ReceiveFirst(d, units, n - 1, c.z.gunzip), Counts(c, units, n - 1), Fresh(c, units, n - 1);
      CountsNext(c, units, n - 1);
      UnitIs(c, units, n - 1);
      var owner := StreamOf(c, units[n - 1]);
      if owner.None? {
        ForeignKeepsCopy(before, c, ks, file, written, units[n - 1]);
      } else if ks[owner.value] == 0 {
        file := StreamBegins(before, c, ks, file, written, owner.value);
      } else {
        StreamTakesChunk(before, c, ks, file, written, owner.value);
      }
    }
  }

  // ---- Which chunks are in the file ----

  /** A stream's announcement that comes after all the streams that have begun are done. */
  ghost predicate StartsLate(c: Copy, units: seq<Q.Unit<Msg>>, j: nat)
    requires c.ChunkSize() > 0 && j < |units|
  {
    var ks, s := Counts(c, units, j), StreamOf(c, units[j]);
    && s.Some? && ks[s.value] == 0 && !AnyLive(c, ks)
    && exists r :: 0 <= r < |ks| && ks[r] > 0
  }

  ghost predicate AnyStartsLate(c: Copy, units: seq<Q.Unit<Msg>>, n: nat)
    requires c.ChunkSize() > 0 && n <= |units|
  {
    exists j :: 0 <= j < n && StartsLate(c, units, j)
  }

  /** Stream s has delivered its item i. */
  ghost predicate Delivered(c: Copy, ks: seq<nat>, s: nat, i: nat)
    requires c.ChunkSize() > 0 && |ks| == |c.ids|
  {
    s < |ks| && i < |ItemsOf(c, s)| && i + 2 <= ks[s]
  }

  ghost function Index(c: Copy, s: nat, i: nat): nat
    requires c.ChunkSize() > 0 && s < |c.ids| && i < |ItemsOf(c, s)|
  {
    ItemsOf(c, s)[i].index
  }

  ghost predicate AllInFile(c: Copy, units: seq<Q.Unit<Msg>>, n: nat)
    requires WfCopy(c) && CopyInTurn(c, units) && n <= |units|
  {
    forall s: nat, i: nat :: Delivered(c, Counts(c, units, n), s, i) ==> Index(c, s, i) in Fresh(c, units, n)
  }

  /** No two items of a copy are the same chunk. */
  lemma IndexesDiffer(c: Copy, r: nat, i: nat, s: nat, j: nat)
    requires WfCopy(c) && r < |c.ids| && i < |ItemsOf(c, r)| && s < |c.ids| && j < |ItemsOf(c, s)|
    requires Index(c, r, i) == Index(c, s, j)
    ensures r == s && i == j
  {
    var streams, count := |c.ids|, C.ChunkCount(|c.data|, c.ChunkSize());
    S.StripeItemsAre(c.data, c.ChunkSize(), streams, r);
    S.StripeItemsAre(c.data, c.ChunkSize(), streams, s);
    C.StripeAscends(r, streams, count);
    var q := Index(c, r, i);
    assert q in C.Stripe(r, streams, count) && q in C.Stripe(s, streams, count);
    C.OneStreamPerChunk(streams, count, q, r);
    C.OneStreamPerChunk(streams, count, q, s);
  }

  /** What one unit adds to what is delivered. */
  lemma DeliveredNext(c: Copy, units: seq<Q.Unit<Msg>>, n: nat, s: nat, i: nat)
    requires WfCopy(c) && CopyInTurn(c, units) && n < |units|
    ensures var ks, owner := Counts(c, units, n), StreamOf(c, units[n]);
      Delivered(c, Counts(c, units, n + 1), s, i) <==>
        Delivered(c, ks, s, i) || (owner == Some(s) && i + 1 == ks[s] && i < |ItemsOf(c, s)|)
  {
    CountsNext(c, units, n);
    UnitIs(c, units, n);
    hide ItemsOf, Counts, CopyInTurn, WfCopy, UnitAt;
  }

  lemma KeptAllStep(c: Copy, units: seq<Q.Unit<Msg>>, n: nat)
    requires WfCopy(c) && CopyInTurn(c, units) && n < |units| && AllInFile(c, units, n) && !StartsLate(c, units, n)
    ensures AllInFile(c, units, n + 1)
  {
    var ks, owner, written := Counts(c, units, n), StreamOf(c, units[n]), Fresh(c, units, n + 1);
    hide ItemsOf, Counts, CopyInTurn, WfCopy;
    forall s: nat, i: nat | Delivered(c, Counts(c, units, n + 1), s, i) ensures Index(c, s, i) in written {
      DeliveredNext(c, units, n, s, i);
      if Delivered(c, ks, s, i) { assert ks[s] > 0; }
    }
  }

  /** The chunks written before an announcement that comes late are lost, for good. */
  lemma LostStep(c: Copy, units: seq<Q.Unit<Msg>>, n: nat)
    requires WfCopy(c) && CopyInTurn(c, units) && n < |units|
    requires !AllInFile(c, units, n) || StartsLate(c, units, n)
    ensures !AllInFile(c, units, n + 1)
  {
    var ks, owner, written := Counts(c, units, n), StreamOf(c, units[n]), Fresh(c, units, n + 1);
    hide Counts, CopyInTurn;
    if StartsLate(c, units, n) {
      var r :| 0 <= r < |ks| && ks[r] > 0;
      ItemsOfAre(c, r);
      hide ItemsOf, WfCopy;
      assert !Live(c, r, ks[r]);
      assert Delivered(c, ks, r, 0);
      DeliveredNext(c, units, n, r, 0);
      assert Index(c, r, 0) !in written;
    } else {
      hide ItemsOf, WfCopy;
      var s: nat, i: nat :| Delivered(c, ks, s, i) && Index(c, s, i) !in Fresh(c, units, n);
      DeliveredNext(c, units, n, s, i);
      UnitIs(c, units, n);
      if owner.Some? && ks[owner.value] > 0 && Index(c, owner.value, ks[owner.value] - 1) == Index(c, s, i) {
        IndexesDiffer(c, owner.value, ks[owner.value] - 1, s, i);
      }
      assert Index(c, s, i) !in written;
    }
  }

  /** Every chunk that was delivered is in the file if and only if no announcement came late. */
  lemma {:induction false} AllInFileIffNoneLate(c: Copy, units: seq<Q.Unit<Msg>>, n: nat)
    requires WfCopy(c) && CopyInTurn(c, units) && n <= |units|
    ensures AllInFile(c, units, n) <==> !AnyStartsLate(c, units, n)
  {
    if n == 0 {
      hide ItemsOf, StartsLate, CopyInTurn;
      assert forall s :: 0 <= s < |c.ids| ==> Counts(c, units, 0)[s] == 0;
    } else {
      hide ItemsOf, AllInFile, StartsLate, CopyInTurn;
      AllInFileIffNoneLate(c, units, n - 1);
      if AllInFile(c, units, n - 1) && !StartsLate(c, units, n - 1) {
        KeptAllStep(c, units, n - 1);
      } else {
        LostStep(c, units, n - 1);
      }
    }
  }

  // ---- The whole copy ----

  ghost predicate Complete(c: Copy, units: seq<Q.Unit<Msg>>, n: nat)
    requires c.ChunkSize() > 0 && n <= |units|
  {
    forall s :: 0 <= s < |c.ids| ==> Counts(c, units, n)[s] == |ItemsOf(c, s)| + 1
  }

  /** Every chunk is some stream's item. */
  lemma ChunkHasItem(c: Copy, q: nat) returns (s: nat, i: nat)
    requires WfCopy(c) && q < C.ChunkCount(|c.data|, c.ChunkSize())
    ensures s < |c.ids| && i < |ItemsOf(c, s)| && Index(c, s, i) == q
  {
    var streams, count := |c.ids|, C.ChunkCount(|c.data|, c.ChunkSize());
    s := q % streams;
    C.OneStreamPerChunk(streams, count, q, s);
    i :| 0 <= i < |C.Stripe(s, streams, count)| && C.Stripe(s, streams, count)[i] == q;
    S.StripeItemsAre(c.data, c.ChunkSize(), streams, s);
  }

  ghost predicate AllZero(b: Bytes) { forall i :: 0 <= i < |b| ==> b[i] == 0 }

  ghost predicate NoChunkIsZero(c: Copy)
    requires c.ChunkSize() > 0
  {
    var chunks := C.Chunks(c.data, c.ChunkSize()); forall q :: 0 <= q < |chunks| ==> !AllZero(chunks[q])
  }

  lemma MissingShows(content: Bytes, data: Bytes, chunkSize: nat, written: set<nat>, q: nat)
    requires chunkSize > 0 && Overlaid(content, data, chunkSize, written)
    requires q < |C.Chunks(data, chunkSize)| && q !in written && !AllZero(C.Chunks(data, chunkSize)[q])
    ensures content != data
  {
    var chunk := C.Chunks(data, chunkSize)[q];
    var i :| 0 <= i < |chunk| && chunk[i] != 0;
    C.ChunkAt(data, chunkSize, q);
    InChunk(data, chunkSize, q, q * chunkSize + i);
    assert data[q * chunkSize + i] == chunk[i] != content[q * chunkSize + i];
  }

  // ---- Which chunks are lost ----

  /** Item i of stream s had been delivered when some stream was announced late. */
  ghost predicate Lost(c: Copy, units: seq<Q.Unit<Msg>>, n: nat, s: nat, i: nat)
    requires c.ChunkSize() > 0 && n <= |units|
  {
    exists j :: 0 <= j < n && StartsLate(c, units, j) && Delivered(c, Counts(c, units, j), s, i)
  }

  lemma {:induction false} CountsGrow(c: Copy, units: seq<Q.Unit<Msg>>, j: nat, n: nat, s: nat)
    requires WfCopy(c) && j <= n <= |units| && s < |c.ids|
    ensures Counts(c, units, j)[s] <= Counts(c, units, n)[s]
    decreases n - j
  {
    hide Counts, WfCopy;
    if j < n {
      CountsGrow(c, units, j, n - 1, s);
      CountsNext(c, units, n - 1);
    }
  }

  lemma LostWasDelivered(c: Copy, units: seq<Q.Unit<Msg>>, n: nat, s: nat, i: nat)
    requires WfCopy(c) && n <= |units| && Lost(c, units, n, s, i)
    ensures Delivered(c, Counts(c, units, n), s, i)
  {
    hide Counts, StartsLate, ItemsOf;
    var j :| 0 <= j < n && StartsLate(c, units, j) && Delivered(c, Counts(c, units, j), s, i);
    CountsGrow(c, units, j, n, s);
  }

  lemma LostNext(c: Copy, units: seq<Q.Unit<Msg>>, n: nat, s: nat, i: nat)
    requires WfCopy(c) && CopyInTurn(c, units) && n < |units| && Delivered(c, Counts(c, units, n + 1), s, i)
    requires Delivered(c, Counts(c, units, n), s, i) ==> (Index(c, s, i) in Fresh(c, units, n) <==> !Lost(c, units, n, s, i))
    ensures Index(c, s, i) in Fresh(c, units, n + 1) <==> !Lost(c, units, n + 1, s, i)
  {
    hide ItemsOf, Counts, CopyInTurn, Lost, UnitAt;
    var ks, owner := Counts(c, units, n), StreamOf(c, units[n]);
    DeliveredNext(c, units, n, s, i);
    UnitIs(c, units, n);
    if Lost(c, units, n, s, i) { LostWasDelivered(c, units, n, s, i); }
    LostGrows(c, units, n, s, i);
    if owner.Some? && ks[owner.value] > 0 && Index(c, owner.value, ks[owner.value] - 1) == Index(c, s, i) {
      IndexesDiffer(c, owner.value, ks[owner.value] - 1, s, i);
    }
    if Delivered(c, ks, s, i) { assert ks[s] > 0; }
  }

  lemma LostGrows(c: Copy, units: seq<Q.Unit<Msg>>, n: nat, s: nat, i: nat)
    requires c.ChunkSize() > 0 && n < |units|
    ensures Lost(c, units, n + 1, s, i) <==>
              Lost(c, units, n, s, i) || (StartsLate(c, units, n) && Delivered(c, Counts(c, units, n), s, i))
  {
    hide StartsLate, Delivered, Counts;
  }

  /** A chunk that was delivered is in the file if and only if no stream was announced late after it. */
  lemma {:induction false} InFileIffNotLost(c: Copy, units: seq<Q.Unit<Msg>>, n: nat)
    requires WfCopy(c) && CopyInTurn(c, units) && n <= |units|
    ensures forall s: nat, i: nat :: Delivered(c, Counts(c, units, n), s, i) ==>
              (Index(c, s, i) in Fresh(c, units, n) <==> !Lost(c, units, n, s, i))
  {
    if n == 0 {
      hide ItemsOf, CopyInTurn;
      assert forall s :: 0 <= s < |c.ids| ==> Counts(c, units, 0)[s] == 0;
    } else {
      InFileIffNotLost(c, units, n - 1);
      hide Counts, CopyInTurn, WfCopy, Fresh, Lost, Delivered, Index;
      forall s: nat, i: nat | Delivered(c, Counts(c, units, n), s, i)
        ensures Index(c, s, i) in Fresh(c, units, n) <==> !Lost(c, units, n, s, i)
      {
        LostNext(c, units, n - 1, s, i);
      }
    }
  }

  /** Every chunk that had been delivered when some stream was announced late is all zeros. */
  ghost predicate LostAreZero(c: Copy, units: seq<Q.Unit<Msg>>, n: nat)
    requires c.ChunkSize() > 0 && n <= |units|
  {
    forall s: nat, i: nat :: Lost(c, units, n, s, i) ==> AllZeroAt(c, s, i)
  }

  ghost predicate AllZeroAt(c: Copy, s: nat, i: nat)
    requires c.ChunkSize() > 0
  {
    s < |c.ids| && i < |ItemsOf(c, s)| && AllZero(ItemsOf(c, s)[i].data)
  }

  lemma LostShows(c: Copy, units: seq<Q.Unit<Msg>>, n: nat, content: Bytes, s: nat, i: nat)
    requires WfCopy(c) && CopyInTurn(c, units) && n <= |units| && Lost(c, units, n, s, i)
    requires Overlaid(content, c.data, c.ChunkSize(), Fresh(c, units, n)) && content == c.data
    ensures AllZeroAt(c, s, i)
  {
    LostWasDelivered(c, units, n, s, i);
    InFileIffNotLost(c, units, n);
    ItemsOfAre(c, s);
    hide Fresh, Counts, CopyInTurn, ItemsOf, Lost, Overlaid;
    var q := Index(c, s, i);
    if !AllZero(C.Chunks(c.data, c.ChunkSize())[q]) { MissingShows(content, c.data, c.ChunkSize(), Fresh(c, units, n), q); }
  }

  /** The item that holds a byte of the source. */
  lemma ItemOfByte(c: Copy, b: nat) returns (s: nat, i: nat)
    requires WfCopy(c) && b < |c.data|
    ensures s < |c.ids| && i < |ItemsOf(c, s)| && Index(c, s, i) == b / c.ChunkSize()
    ensures AllZeroAt(c, s, i) ==> c.data[b] == 0
  {
    var q := b / c.ChunkSize();
    ByteInChunk(c.data, c.ChunkSize(), b);
    s, i := ChunkHasItem(c, q);
    ItemsOfAre(c, s);
    hide ItemsOf, WfCopy;
    C.ChunkAt(c.data, c.ChunkSize(), q);
    InChunk(c.data, c.ChunkSize(), q, b);
    var chunk := C.Chunks(c.data, c.ChunkSize())[q];
    assert chunk[b - q * c.ChunkSize()] == c.data[b];
  }

  /** A byte of a chunk that is not in the file: its chunk was lost. */
  lemma LostByte(c: Copy, units: seq<Q.Unit<Msg>>, n: nat, b: nat)
    requires WfCopy(c) && CopyInTurn(c, units) && n <= |units| && Complete(c, units, n) && LostAreZero(c, units, n)
    requires b < |c.data| && b / c.ChunkSize() !in Fresh(c, units, n)
    ensures c.data[b] == 0
  {
    var s, i := ItemOfByte(c, b);
    InFileIffNotLost(c, units, n);
    hide Fresh, Counts, CopyInTurn, ItemsOf, Lost, Index, AllZeroAt;
    assert Delivered(c, Counts(c, units, n), s, i);
  }

  lemma ByteInChunk(data: Bytes, chunkSize: nat, b: nat)
    requires chunkSize > 0 && b < |data|
    ensures b / chunkSize < C.ChunkCount(|data|, chunkSize)
  {
    var q, count := b / chunkSize, (|data| + chunkSize - 1) / chunkSize;
    assert b == q * chunkSize + b % chunkSize;
    assert |data| + chunkSize - 1 == count * chunkSize + (|data| + chunkSize - 1) % chunkSize;
    if q >= count { Scale(count, q, chunkSize); }
  }

  lemma SourceIff(c: Copy, units: seq<Q.Unit<Msg>>, n: nat, content: Bytes)
    requires WfCopy(c) && CopyInTurn(c, units) && n <= |units| && Complete(c, units, n)
    requires Overlaid(content, c.data, c.ChunkSize(), Fresh(c, units, n))
    ensures content == c.data <==> LostAreZero(c, units, n)
  {
    hide Fresh, Counts, CopyInTurn, ItemsOf, Lost, AllZeroAt, Complete;
    if content == c.data {
      forall s: nat, i: nat | Lost(c, units, n, s, i) ensures AllZeroAt(c, s, i) { LostShows(c, units, n, content, s, i); }
    }
    if LostAreZero(c, units, n) {
      forall b | 0 <= b < |c.data| ensures content[b] == c.data[b] {
        if b / c.ChunkSize() !in Fresh(c, units, n) { LostByte(c, units, n, b); }
      }
    }
  }

  /** If no stream was announced late nothing is lost; if one was, something was. */
  lemma NoneLateNoneLost(c: Copy, units: seq<Q.Unit<Msg>>, n: nat)
    requires WfCopy(c) && CopyInTurn(c, units) && n <= |units|
    ensures !AnyStartsLate(c, units, n) ==> LostAreZero(c, units, n)
    ensures AnyStartsLate(c, units, n) && NoChunkIsZero(c) ==> !LostAreZero(c, units, n)
  {
    if AnyStartsLate(c, units, n) && NoChunkIsZero(c) {
      AllInFileIffNoneLate(c, units, n);
      hide Fresh, Counts, CopyInTurn, Lost, ItemsOf, StartsLate;
      var s: nat, i: nat :| Delivered(c, Counts(c, units, n), s, i) && Index(c, s, i) !in Fresh(c, units, n);
      InFileIffNotLost(c, units, n);
      ItemsOfAre(c, s);
      assert Lost(c, units, n, s, i) && !AllZeroAt(c, s, i);
    }
  }

  /**
   When all streams of a parallel copy have arrived, in whatever interleaving with each other
   and anything else, each has one answer, and it is good, also if the destination cannot be
   created. If it can, it holds the source if and only if every chunk that had been delivered
   when some stream was announced late, after all those before it were done, is all zeros: always
   if none was, and never if one was and no chunk of the source is all zeros.
   */
  lemma ParallelCopyDelivered(d: Daemon, c: Copy, units: seq<Q.Unit<Msg>>, n: nat)
    requires Ready(d, c) && CopyInTurn(c, units) && n <= |units| && Complete(c, units, n)
    ensures var r := ReceiveFirst(d, units, n, c.z.gunzip);
      && (forall s :: 0 <= s < |c.ids| ==> AnswersFor(r.answers, c.ids[s]) == [Answer(c.ids[s], true)])
      && (c.announce.dst !in d.store.readOnly ==>
            && c.announce.dst in r.store.disk && r.store.disk[c.announce.dst].File?
            && (r.store.disk[c.announce.dst].content == c.data <==> LostAreZero(c, units, n)))
    ensures !AnyStartsLate(c, units, n) ==> LostAreZero(c, units, n)
    ensures AnyStartsLate(c, units, n) && NoChunkIsZero(c) ==> !LostAreZero(c, units, n)
  {
    var file := CopyAlways(d, c, units, n);
    ReadOnlyStays(d, units, n, c.z.gunzip);
    NoneLateNoneLost(c, units, n);
    var r, ks := ReceiveFirst(d, units, n, c.z.gunzip), Counts(c, units, n);
    hide ReceiveFirst, Fresh, Counts, Wf, AnswersFor, CopyInTurn, ItemsOf, AnyStartsLate, Overlaid, LostAreZero, NoChunkIsZero;
    forall s | 0 <= s < |c.ids| ensures AnswersFor(r.answers, c.ids[s]) == [Answer(c.ids[s], true)] {
      assert StreamAt(r, c, s, ks[s], file);
    }
    if file.Some? {
      assert ks[0] > 0;
      SourceIff(c, units, n, r.store.disk[c.announce.dst].content);
    }
  }
}
