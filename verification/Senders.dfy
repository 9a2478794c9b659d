/** How a payload is cut into chunks, and how chunks are dealt out to parallel streams. */
module Chunking {
  import opened Basics

  const FILE_CHUNK_SIZE: nat := 0x20_0000 // 2 MiB
  const MIB: nat := 0x10_0000

  function ChunkCount(size: int, chunkSize: int): int
    requires chunkSize > 0
  {
    if size <= 0 then 1 else (size + chunkSize - 1) / chunkSize
  }

  /** The chunks of a payload: all full but the last; an empty payload is one empty chunk. */
  function Chunks(data: Bytes, chunkSize: nat): seq<Bytes>
    requires chunkSize > 0
    decreases |data|
  {
    if |data| <= chunkSize then [data]
    else [data[..chunkSize]] + Chunks(data[chunkSize..], chunkSize)
  }

  lemma {:induction false} ChunksAreCounted(data: Bytes, chunkSize: nat)
    requires chunkSize > 0
    ensures |Chunks(data, chunkSize)| == ChunkCount(|data|, chunkSize)
    decreases |data|
  {
    if |data| > chunkSize {
      ChunksAreCounted(data[chunkSize..], chunkSize);
      OneMore(|data| - 1, chunkSize);
    } else if |data| > 0 {
      QuotientIs(|data| + chunkSize - 1, chunkSize, 1);
    }
  }

  lemma {:induction false} ChunksJoin(data: Bytes, chunkSize: nat)
    requires chunkSize > 0
    ensures Flatten(Chunks(data, chunkSize)) == data
    decreases |data|
  {
    if |data| <= chunkSize {
      FlattenAppend([], data);
      assert [] + [data] == [data];
    } else {
      ChunksJoin(data[chunkSize..], chunkSize);
      FlattenConcat([data[..chunkSize]], Chunks(data[chunkSize..], chunkSize));
      FlattenAppend([], data[..chunkSize]);
      assert [] + [data[..chunkSize]] == [data[..chunkSize]];
    }
  }

  /** Where chunk i lies in the payload. */
  lemma {:induction false} ChunkAt(data: Bytes, chunkSize: nat, i: nat)
    requires chunkSize > 0 && i < |Chunks(data, chunkSize)|
    ensures i * chunkSize <= |data|
    ensures var end := if i + 1 == |Chunks(data, chunkSize)| then |data| else (i + 1) * chunkSize;
      && i * chunkSize <= end <= |data| && end - i * chunkSize <= chunkSize
      && Chunks(data, chunkSize)[i] == data[i * chunkSize..end]
      && (|data| > 0 ==> i * chunkSize < end)
    decreases |data|
  {
    if |data| > chunkSize && i > 0 {
      ChunkAt(data[chunkSize..], chunkSize, i - 1);
      assert (i - 1) * chunkSize + chunkSize == i * chunkSize;
      assert i * chunkSize + chunkSize == (i + 1) * chunkSize;
    }
  }

  ghost function ChunksFrom(data: Bytes, chunkSize: nat, i: nat): seq<Bytes>
    requires chunkSize > 0
  {
    if i < |data| then Chunks(data[i..], chunkSize) else []
  }

  lemma FirstAndLastChunksFrom(data: Bytes, chunkSize: nat)
    requires chunkSize > 0
    ensures data == [] ==> Chunks(data, chunkSize) == [[]]
    ensures data != [] ==> ChunksFrom(data, chunkSize, 0) == Chunks(data, chunkSize)
    ensures forall i: nat :: i >= |data| ==> ChunksFrom(data, chunkSize, i) == []
  {
    assert data[0..] == data;
  }

  lemma NextChunk(data: Bytes, chunkSize: nat, i: nat, end: nat)
    requires chunkSize > 0 && i < |data|
    requires end == if i + chunkSize > |data| then |data| else i + chunkSize
    ensures ChunksFrom(data, chunkSize, i) == [data[i..end]] + ChunksFrom(data, chunkSize, i + chunkSize)
  {
    var rest := data[i..];
    if |rest| > chunkSize {
      assert rest[..chunkSize] == data[i..end] && rest[chunkSize..] == data[end..];
    } else {
      assert rest == data[i..end];
    }
  }

  method ChunkData(data: Bytes, chunkSize: nat) returns (chunks: seq<Bytes>)
    requires chunkSize > 0
    ensures chunks == Chunks(data, chunkSize)
    ensures Flatten(chunks) == data && |chunks| == ChunkCount(|data|, chunkSize)
  {
    hide Chunks, ChunksFrom, ChunkCount, Flatten;
    ChunksJoin(data, chunkSize);
    ChunksAreCounted(data, chunkSize);
    FirstAndLastChunksFrom(data, chunkSize);
    if |data| == 0 {
      return [[]];
    }
    chunks := [];
    var i := 0;
    while i < |data|
      invariant Chunks(data, chunkSize) == chunks + ChunksFrom(data, chunkSize, i)
    {
      var end := i + chunkSize;
      if end > |data| { end := |data|; }
      NextChunk(data, chunkSize, i, end);
      chunks := chunks + [data[i..end]];
      i := i + chunkSize;
    }
  }

  // ---- Stripes ----

  /** The chunks that stream `from` of `streams` sends, in its order. */
  function Stripe(from: nat, streams: nat, count: nat): seq<nat>
    requires streams > 0
    decreases if from < count then count - from else 0
  {
    if from < count then [from] + Stripe(from + streams, streams, count) else []
  }

  lemma {:induction false} StripeMembers(from: nat, streams: nat, count: nat, q: nat)
    requires streams > 0
    ensures q in Stripe(from, streams, count) <==> from <= q < count && (q - from) % streams == 0
    decreases if from < count then count - from else 0
  {
    if from < count {
      StripeMembers(from + streams, streams, count, q);
      if q >= from + streams {
        OneMore(q - from - streams, streams);
      } else if q >= from {
        QuotientIs(q - from, streams, 0);
      }
    }
  }

  /** Each chunk goes to exactly one of the streams. */
  lemma OneStreamPerChunk(streams: nat, count: nat, q: nat, s: nat)
    requires streams > 0 && q < count && s < streams
    ensures q in Stripe(s, streams, count) <==> s == q % streams
  {
    StripeMembers(s, streams, count, q);
    var k, m := (q - s) / streams, q / streams;
    if q >= s && (q - s) % streams == 0 {
      assert q - s == k * streams;
      QuotientIs(q, streams, k);
    } else if s == q % streams {
      assert q == m * streams + s;
      Scale(0, m, streams);
      QuotientIs(q - s, streams, m);
    }
  }

  lemma {:induction false} StripeAscends(from: nat, streams: nat, count: nat)
    requires streams > 0
    ensures forall i :: 0 <= i < |Stripe(from, streams, count)| ==> from <= Stripe(from, streams, count)[i] < count
    ensures forall i :: 0 <= i < |Stripe(from, streams, count)| ==>
              (Stripe(from, streams, count)[i] + streams >= count <==> i == |Stripe(from, streams, count)| - 1)
    ensures forall i, j :: 0 <= i < j < |Stripe(from, streams, count)| ==> Stripe(from, streams, count)[i] < Stripe(from, streams, count)[j]
    decreases if from < count then count - from else 0
  {
    if from < count {
      StripeAscends(from + streams, streams, count);
      var t, u := Stripe(from, streams, count), Stripe(from + streams, streams, count);
      assert t == [from] + u;
      assert |u| == 0 <==> from + streams >= count;
    }
  }

  /** Every stream has a chunk to send, and so a Final to end with, exactly if there are at
      least as many chunks as streams. */
  lemma StreamsAllFinishIff(streams: nat, count: nat)
    requires streams > 0 && count > 0
    ensures (forall s: nat :: s < streams ==> Stripe(s, streams, count) != []) <==> streams <= count
  {
    if streams > count {
      assert Stripe(count, streams, count) == [];
    }
  }

  /** The number of streams that a copy of a single file chooses on its own. */
  function AutoStreams(size: nat): nat {
    if size > 100 * MIB then 4
    else if size > 20 * MIB then 3
    else if size > 5 * MIB then 2
    else 0
  }

  /** The number of streams of a copy, and whether it goes in parallel at all: a setting wins
      over the choice by size, and only a single file is copied in parallel. */
  method ChooseStreams(setting: Option<int>, singleFile: bool, scp: bool, size: nat) returns (streams: int, parallel: bool)
    ensures setting.None? ==> streams == if singleFile && scp then AutoStreams(size) else 0
    ensures setting.Some? ==> streams == setting.value
    ensures parallel <==> streams > 1 && singleFile && scp
    ensures setting.None? && parallel ==> 2 <= streams <= ChunkCount(size, FILE_CHUNK_SIZE)
  {
    AutoStreamsAllFinish(size);
    streams := 0;
    if setting.Some? {
      streams := setting.value;
    } else if singleFile && scp {
      if size > 100 * MIB {
        streams := 4;
      } else if size > 20 * MIB {
        streams := 3;
      } else if size > 5 * MIB {
        streams := 2;
      }
    }
    parallel := streams > 1 && singleFile && scp;
  }

  lemma AutoStreamsAllFinish(size: nat)
    ensures AutoStreams(size) <= ChunkCount(size, FILE_CHUNK_SIZE)
  {
    var c := FILE_CHUNK_SIZE;
    if size > 5 * MIB {
      var n := (size + c - 1) / c;
      assert n * c <= size + c - 1 < (n + 1) * c;
      if size > 100 * MIB { assert n >= 4; } else if size > 20 * MIB { assert n >= 3; } else { assert n >= 2; }
    }
  }
}

/**
 The three senders of a file. Each announces the transfer and then writes, for each chunk,
 a small header and, unless it is empty, the chunk itself, compressed if that pays.
 */
module Senders {
  import opened Basics
  import opened Chunking

  type Id = string

  datatype Base = Base(id: Id, target: string, token: string, mode: string, src: string, dst: string)

  datatype Frame =
    | FileTransfer(base: Base, totalChunks: int, totalSize: int, chunkSizeBytes: int, parallelStreams: int)
    | ChunkHeader(id: Id, index: nat, final: bool, compressed: bool)
    | Payload(data: Bytes)

  /** gzip, as far as it matters: whether and to what a chunk is squeezed, and the way back. */
  datatype Gzip = Gzip(squeeze: Bytes -> Option<Bytes>, gunzip: Bytes -> Option<Bytes>)

  const COMPRESSION_MINIMUM: nat := 1024

  function TryCompress(z: Gzip, data: Bytes): Option<Bytes> {
    if |data| < COMPRESSION_MINIMUM then None else z.squeeze(data)
  }

  ghost predicate Lossless(z: Gzip) {
    forall data :: z.squeeze(data).Some? ==> z.gunzip(z.squeeze(data).value) == Some(data) && z.squeeze(data).value != []
  }

  /** One chunk as a sender sees it. */
  datatype Item = Item(index: nat, last: bool, data: Bytes)

  function OnWire(z: Gzip, data: Bytes): Bytes {
    var squeezed := TryCompress(z, data);
    if squeezed.Some? then squeezed.value else data
  }

  function Emit(id: Id, item: Item, z: Gzip): seq<Frame> {
    var payload := OnWire(z, item.data);
    [ChunkHeader(id, item.index, item.last, TryCompress(z, item.data).Some?)] +
    (if payload == [] then [] else [Payload(payload)])
  }

  /** What the first n items put on the wire. */
  function EmitFirst(id: Id, items: seq<Item>, n: nat, z: Gzip): seq<Frame>
    requires n <= |items|
  {
    if n == 0 then [] else EmitFirst(id, items, n - 1, z) + Emit(id, items[n - 1], z)
  }

  /** A whole transfer: the announcement, then every item. */
  function Script(init: Frame, id: Id, items: seq<Item>, z: Gzip): seq<Frame> {
    [init] + EmitFirst(id, items, |items|, z)
  }

  lemma {:induction false} EmitPrefix(id: Id, items: seq<Item>, n: nat, z: Gzip)
    requires n <= |items|
    ensures EmitFirst(id, items, n, z) <= EmitFirst(id, items, |items|, z)
    decreases |items| - n
  {
    if n < |items| { EmitPrefix(id, items, n + 1, z); }
  }

  /** The bytes of the first n items. */
  function JoinFirst(items: seq<Item>, n: nat): Bytes
    requires n <= |items|
  {
    if n == 0 then [] else JoinFirst(items, n - 1) + items[n - 1].data
  }

  function Joined(items: seq<Item>): Bytes {
    JoinFirst(items, |items|)
  }

  lemma {:induction false} JoinFirstIsFlatten(items: seq<Item>, chunks: seq<Bytes>, n: nat)
    requires n <= |items| == |chunks|
    requires forall i :: 0 <= i < n ==> items[i].data == chunks[i]
    ensures JoinFirst(items, n) == Flatten(chunks[..n])
  {
    if n > 0 {
      JoinFirstIsFlatten(items, chunks, n - 1);
      assert chunks[..n][..n - 1] == chunks[..n - 1];
    }
  }

  // ---- What each sender sends ----

  function BufferedItems(data: Bytes, chunkSize: nat): seq<Item>
    requires chunkSize > 0
  {
    var chunks := Chunks(data, chunkSize);
    seq(|chunks|, i requires 0 <= i < |chunks| => Item(i, i == |chunks| - 1, chunks[i]))
  }

  /**
   The streaming sender has read `index` chunks, `sent` bytes in all, and `rest` is what the
   file still holds: a chunk is final if the file ends inside it, or if with it the
   announced size is reached.
   */
  function StreamedItems(rest: Bytes, totalSize: int, chunkSize: nat, index: nat, sent: nat): seq<Item>
    requires chunkSize > 0
    decreases |rest|
  {
    if rest == [] then (if index == 0 then [Item(0, true, [])] else [])
    else if |rest| < chunkSize then [Item(index, true, rest)]
    else if sent + chunkSize >= totalSize then [Item(index, true, rest[..chunkSize])]
    else [Item(index, false, rest[..chunkSize])] +
         StreamedItems(rest[chunkSize..], totalSize, chunkSize, index + 1, sent + chunkSize)
  }

  function Least(a: int, b: int): int { if a <= b then a else b }

  /** What a stream reads for chunk q. */
  function ChunkItem(data: Bytes, chunkSize: nat, q: nat, last: bool): Item {
    var start := Least(q * chunkSize, |data|);
    Item(q, last, data[start..Least(start + chunkSize, |data|)])
  }

  function StripeItems(data: Bytes, chunkSize: nat, streams: nat, count: int, from: nat): seq<Item>
    requires chunkSize > 0 && streams > 0
    decreases if from < count then count - from else 0
  {
    if from < count then
      [ChunkItem(data, chunkSize, from, from + streams >= count)] + StripeItems(data, chunkSize, streams, count, from + streams)
    else []
  }

  // ---- The streaming sender refines the buffered one ----

  function BufferedFrom(rest: Bytes, chunkSize: nat, index: nat): seq<Item>
    requires chunkSize > 0
    decreases |rest|
  {
    if |rest| <= chunkSize then [Item(index, true, rest)]
    else [Item(index, false, rest[..chunkSize])] + BufferedFrom(rest[chunkSize..], chunkSize, index + 1)
  }

  lemma {:induction false} BufferedFromIs(rest: Bytes, chunkSize: nat, index: nat)
    requires chunkSize > 0
    ensures var chunks, items := Chunks(rest, chunkSize), BufferedFrom(rest, chunkSize, index);
      && |items| == |chunks|
      && forall i :: 0 <= i < |items| ==> items[i] == Item(index + i, i == |chunks| - 1, chunks[i])
    decreases |rest|
  {
    if |rest| > chunkSize {
      BufferedFromIs(rest[chunkSize..], chunkSize, index + 1);
    }
  }

  /** The announced size reaches into the last chunk, and not past a last chunk that is full. */
  predicate SizeReachesLastChunk(length: nat, totalSize: int, chunkSize: nat)
    requires chunkSize > 0
  {
    var count := ChunkCount(length, chunkSize);
    && (count == 1 || (count - 1) * chunkSize < totalSize)
    && (length == count * chunkSize ==> totalSize <= length)
  }

  lemma {:induction false} StreamedFrom(rest: Bytes, totalSize: int, chunkSize: nat, index: nat, sent: nat)
    requires chunkSize > 0 && (rest == [] ==> index == 0)
    ensures StreamedItems(rest, totalSize, chunkSize, index, sent) == BufferedFrom(rest, chunkSize, index)
      <==> SizeReachesLastChunk(|rest|, totalSize - sent, chunkSize)
    decreases |rest|
  {
    var left, n := totalSize - sent, |rest|;
    if n > chunkSize {
      OneMore(n - 1, chunkSize);
      var count := ChunkCount(n, chunkSize);
      assert ChunkCount(n - chunkSize, chunkSize) == count - 1;
      assert (count - 1) * chunkSize == (count - 2) * chunkSize + chunkSize;
      assert count * chunkSize == (count - 1) * chunkSize + chunkSize;
      if count > 1 { Scale(1, count - 1, chunkSize); }
      var a, b := StreamedItems(rest, totalSize, chunkSize, index, sent), BufferedFrom(rest, chunkSize, index);
      if left <= chunkSize {
        assert a[0].last && !b[0].last;
      } else {
        StreamedFrom(rest[chunkSize..], totalSize, chunkSize, index + 1, sent + chunkSize);
        assert a[1..] == StreamedItems(rest[chunkSize..], totalSize, chunkSize, index + 1, sent + chunkSize);
        assert b[1..] == BufferedFrom(rest[chunkSize..], chunkSize, index + 1);
        assert a == [a[0]] + a[1..] && b == [b[0]] + b[1..];
      }
    } else if n > 0 {
      QuotientIs(n + chunkSize - 1, chunkSize, 1);
      if n == chunkSize {
        assert rest[..chunkSize] == rest;
        if left > chunkSize {
          assert !StreamedItems(rest, totalSize, chunkSize, index, sent)[0].last;
        }
      }
    }
  }

  /**
   For every content, announced size and chunk size: the streaming sender sends the same
   chunks under the same headers as the buffered one if and only if the announced size
   reaches into the last chunk, and not past it when it is full.
   */
  lemma StreamingRefinesBufferedIff(data: Bytes, totalSize: int, chunkSize: nat)
    requires chunkSize > 0
    ensures StreamedItems(data, totalSize, chunkSize, 0, 0) == BufferedItems(data, chunkSize)
      <==> SizeReachesLastChunk(|data|, totalSize, chunkSize)
  {
    StreamedFrom(data, totalSize, chunkSize, 0, 0);
    BufferedFromIs(data, chunkSize, 0);
    assert BufferedFrom(data, chunkSize, 0) == BufferedItems(data, chunkSize);
  }

  lemma SizeOfUnchangedFileFits(length: nat, chunkSize: nat)
    requires chunkSize > 0
    ensures SizeReachesLastChunk(length, length, chunkSize)
  {
    var count := ChunkCount(length, chunkSize);
    if length > 0 {
      assert (length + chunkSize - 1) == count * chunkSize + (length + chunkSize - 1) % chunkSize;
      assert count * chunkSize == (count - 1) * chunkSize + chunkSize;
    }
  }

  /** A file that keeps its size while it is read is sent alike by both senders. */
  lemma StreamingRefinesBuffered(data: Bytes, chunkSize: nat)
    requires chunkSize > 0
    ensures StreamedItems(data, |data|, chunkSize, 0, 0) == BufferedItems(data, chunkSize)
  {
    SizeOfUnchangedFileFits(|data|, chunkSize);
    StreamingRefinesBufferedIff(data, |data|, chunkSize);
  }

  /** A file that ends with a full chunk, short of the announced size. */
  predicate EndsShort(length: nat, totalSize: int, chunkSize: nat)
    requires chunkSize > 0
  {
    length > 0 && length % chunkSize == 0 && length < totalSize
  }

  lemma {:induction false} StreamedEndsFinalFrom(rest: Bytes, totalSize: int, chunkSize: nat, index: nat, sent: nat)
    requires chunkSize > 0 && (rest == [] ==> index == 0)
    ensures var items := StreamedItems(rest, totalSize, chunkSize, index, sent);
      && items != []
      && (forall i :: 0 <= i < |items| - 1 ==> !items[i].last)
      && (items[|items| - 1].last <==> !EndsShort(|rest|, totalSize - sent, chunkSize))
    decreases |rest|
  {
    var n := |rest|;
    if n < chunkSize {
      QuotientIs(n, chunkSize, 0);
    } else {
      OneMore(n - chunkSize, chunkSize);
      if n > chunkSize && sent + chunkSize < totalSize {
        StreamedEndsFinalFrom(rest[chunkSize..], totalSize, chunkSize, index + 1, sent + chunkSize);
      }
    }
  }

  /** Only the last header of a streamed file can be final; it is, for every file, announced
      size and chunk size, unless the file ends with a full chunk short of that size. Then no
      header is. */
  lemma StreamedEndsFinalIff(data: Bytes, totalSize: int, chunkSize: nat)
    requires chunkSize > 0
    ensures var items := StreamedItems(data, totalSize, chunkSize, 0, 0);
      && items != []
      && (forall i :: 0 <= i < |items| - 1 ==> !items[i].last)
      && (items[|items| - 1].last <==> !EndsShort(|data|, totalSize, chunkSize))
      && ((forall i :: 0 <= i < |items| ==> !items[i].last) <==> EndsShort(|data|, totalSize, chunkSize))
  {
    StreamedEndsFinalFrom(data, totalSize, chunkSize, 0, 0);
    hide StreamedItems;
  }

  /** Such a file: one byte is left of two. */
  lemma ShrunkFileNeverFinishes()
    ensures StreamedItems([7], 2, 1, 0, 0) == [Item(0, false, [7])]
  {
    var data: Bytes := [7];
    assert data[..1] == data && data[1..] == [];
    assert StreamedItems(data[1..], 2, 1, 1, 1) == [];
  }

  /** The items of a payload: as many as announced, only the last one final, and together
      the payload. */
  lemma BufferedItemsAreThePayload(data: Bytes, chunkSize: nat)
    requires chunkSize > 0
    ensures var items := BufferedItems(data, chunkSize);
      && |items| == ChunkCount(|data|, chunkSize) > 0
      && (forall i :: 0 <= i < |items| ==> items[i].index == i && (items[i].last <==> i == |items| - 1))
      && (data != [] ==> forall i :: 0 <= i < |items| ==> items[i].data != [])
      && Joined(items) == data
  {
    ChunksAreCounted(data, chunkSize);
    ChunksJoin(data, chunkSize);
    var items, chunks := BufferedItems(data, chunkSize), Chunks(data, chunkSize);
    JoinFirstIsFlatten(items, chunks, |items|);
    assert chunks[..|items|] == chunks;
    forall i | 0 <= i < |items| && data != [] ensures items[i].data != [] {
      ChunkAt(data, chunkSize, i);
    }
  }

  lemma ChunkItemIs(data: Bytes, chunkSize: nat, q: nat, last: bool)
    requires chunkSize > 0 && q < |Chunks(data, chunkSize)|
    ensures ChunkItem(data, chunkSize, q, last) == Item(q, last, Chunks(data, chunkSize)[q])
  {
    ChunkAt(data, chunkSize, q);
    assert (q + 1) * chunkSize == q * chunkSize + chunkSize;
  }

  /** Stream `from` sends, in the order of its stripe, the chunks that a sequential sender
      sends under the same indexes, and calls only the last one final. */
  lemma {:induction false} StripeItemsAre(data: Bytes, chunkSize: nat, streams: nat, from: nat)
    requires chunkSize > 0 && streams > 0
    ensures var count := ChunkCount(|data|, chunkSize);
      var items, stripe := StripeItems(data, chunkSize, streams, count, from), Stripe(from, streams, count);
      && count == |Chunks(data, chunkSize)|
      && |items| == |stripe|
      && (forall i :: 0 <= i < |items| ==> stripe[i] < count)
      && (forall i :: 0 <= i < |items| ==> items[i] == Item(stripe[i], i == |items| - 1, Chunks(data, chunkSize)[stripe[i]]))
    decreases |Chunks(data, chunkSize)| + streams - Least(from, |Chunks(data, chunkSize)| + streams)
  {
    ChunksAreCounted(data, chunkSize);
    var count := ChunkCount(|data|, chunkSize);
    if from < count {
      hide ChunkItem, Chunks, ChunkCount;
      StripeItemsAre(data, chunkSize, streams, from + streams);
      ChunkItemIs(data, chunkSize, from, from + streams >= count);
    }
  }

  // ---- The sending loops ----

  function InitFrame(base: Base, size: int, chunkSize: nat): Frame
    requires chunkSize > 0
  {
    FileTransfer(base, ChunkCount(size, chunkSize), size, 0, 0)
  }

  function InitParallel(base: Base, size: int, chunkSize: nat, streams: nat): Frame
    requires chunkSize > 0
  {
    FileTransfer(base.(mode := "scp"), ChunkCount(size, chunkSize), size, chunkSize, streams)
  }

  /** The connection a sender writes to. `works` says which writes will go well; they are numbered
      as they come. */
  class FrameWriter {
    const works: nat -> bool
    var wire: seq<Frame>
    var calls: nat

    constructor (works: nat -> bool)
      ensures this.works == works && wire == [] && calls == 0
    {
      this.works, wire, calls := works, [], 0;
    }

    method WriteMessage(frame: Frame) returns (ok: bool)
      modifies this
      ensures ok == works(old(calls)) && calls == old(calls) + 1
      ensures wire == if ok then old(wire) + [frame] else old(wire)
    {
      ok, calls := works(calls), calls + 1;
      if ok { wire := wire + [frame]; }
    }
  }

  /** A reader over a file whose bytes do not change. */
  class Reader {
    var rest: Bytes

    constructor (data: Bytes)
      ensures rest == data
    {
      rest := data;
    }

    /** io.ReadFull: fewer bytes than asked for only at the end of the file. */
    method ReadFull(size: nat) returns (buf: Bytes)
      modifies this
      ensures |buf| == Least(size, |old(rest)|)
      ensures buf == old(rest)[..|buf|] && rest == old(rest)[|buf|..]
    {
      var n := Least(size, |rest|);
      buf, rest := rest[..n], rest[n..];
    }
  }

  /** The n writes from the one numbered `from` on go well. */
  ghost predicate AllWork(works: nat -> bool, from: nat, n: nat) {
    forall k :: from <= k < from + n ==> works(k)
  }

  /**
   The writes from the one numbered `from` on put the script on the wire, up to the first that
   fails; `next` is the number of the write that would come after. So all of it is written, and
   ok says so, if and only if none of these writes fails.
   */
  ghost predicate Wrote(works: nat -> bool, from: nat, next: nat, before: seq<Frame>, after: seq<Frame>, script: seq<Frame>, ok: bool) {
    |before| <= |after| <= |before| + |script|
    && var n := |after| - |before|;
       && after == before + script[..n]
       && AllWork(works, from, n)
       && (if ok then n == |script| && next == from + n else n < |script| && !works(from + n) && next == from + n + 1)
  }

  /** What a sender's outcome says. */
  lemma SucceedsIff(works: nat -> bool, from: nat, next: nat, before: seq<Frame>, after: seq<Frame>, script: seq<Frame>, ok: bool)
    requires Wrote(works, from, next, before, after, script, ok)
    ensures ok <==> AllWork(works, from, |script|)
    ensures ok <==> after == before + script
    ensures before <= after && after <= before + script
  {
    var n := |after| - |before|;
    assert before + script == before + script[..n] + script[n..];
    if !ok { assert !works(from + n); }
  }

  lemma WroteOn(works: nat -> bool, from: nat, mid: nat, next: nat, before: seq<Frame>, between: seq<Frame>, after: seq<Frame>,
                a: seq<Frame>, b: seq<Frame>, ok: bool)
    requires Wrote(works, from, mid, before, between, a, true) && Wrote(works, mid, next, between, after, b, ok)
    ensures Wrote(works, from, next, before, after, a + b, ok)
  {
    var n := |after| - |between|;
    assert a[..|a|] == a && (a + b)[..|a| + n] == a + b[..n];
  }

  lemma WroteLess(works: nat -> bool, from: nat, next: nat, before: seq<Frame>, after: seq<Frame>, a: seq<Frame>, script: seq<Frame>)
    requires Wrote(works, from, next, before, after, a, false) && a <= script
    ensures Wrote(works, from, next, before, after, script, false)
  {
    var n := |after| - |before|;
    assert script[..n] == a[..n] && n < |script|;
  }

  /** Header, then payload unless it is empty. */
  method WriteItem(conn: FrameWriter, id: Id, item: Item, z: Gzip) returns (ok: bool)
    modifies conn
    ensures Wrote(conn.works, old(conn.calls), conn.calls, old(conn.wire), conn.wire, Emit(id, item, z), ok)
  {
    var payload := item.data;
    var squeezed := TryCompress(z, item.data);
    if squeezed.Some? { payload := squeezed.value; }
    ok := conn.WriteMessage(ChunkHeader(id, item.index, item.last, squeezed.Some?));
    if ok && payload != [] {
      ok := conn.WriteMessage(Payload(payload));
    }
  }

  /** The announcement and the first n items. */
  ghost function Head(init: Frame, id: Id, items: seq<Item>, n: nat, z: Gzip): seq<Frame>
    requires n <= |items|
  {
    [init] + EmitFirst(id, items, n, z)
  }

  lemma {:induction false} HeadPrefix(init: Frame, id: Id, items: seq<Item>, n: nat, m: nat, z: Gzip)
    requires n <= m <= |items|
    ensures Head(init, id, items, n, z) <= Head(init, id, items, m, z)
    decreases m - n
  {
    if n < m { HeadPrefix(init, id, items, n + 1, m, z); }
  }

  lemma HeadNext(init: Frame, id: Id, items: seq<Item>, n: nat, z: Gzip)
    requires n < |items|
    ensures Head(init, id, items, n + 1, z) == Head(init, id, items, n, z) + Emit(id, items[n], z)
  {
    hide Emit;
    assert EmitFirst(id, items, n + 1, z) == EmitFirst(id, items, n, z) + Emit(id, items[n], z);
  }

  lemma HeadAll(init: Frame, id: Id, items: seq<Item>, z: Gzip)
    ensures Head(init, id, items, |items|, z) == Script(init, id, items, z)
    ensures Head(init, id, items, 0, z) == [init]
  {
  }

  /** What was written is the head of a script with n items, or less. */
  ghost predicate WroteHead(conn: FrameWriter, from: nat, before: seq<Frame>, init: Frame, id: Id, items: seq<Item>, n: nat, z: Gzip, ok: bool)
    reads conn
  {
    n <= |items| && Wrote(conn.works, from, conn.calls, before, conn.wire, Head(init, id, items, n, z), ok)
  }

  /** One round of a sending loop, which has written the first n items of its script. */
  method SendItem(conn: FrameWriter, id: Id, item: Item, z: Gzip,
                  ghost from: nat, ghost before: seq<Frame>, ghost init: Frame, ghost items: seq<Item>, ghost n: nat)
    returns (ok: bool)
    requires n < |items| && items[n] == item && WroteHead(conn, from, before, init, id, items, n, z, true)
    modifies conn
    ensures WroteHead(conn, from, before, init, id, items, n + 1, z, ok)
    ensures Whole(before, conn.wire, init, id, items, n, z)
  {
    hide Emit, EmitFirst, Head, Wrote;
    ghost var mid, between := conn.calls, conn.wire;
    ok := WriteItem(conn, id, item, z);
    HeadNext(init, id, items, n, z);
    WroteOn(conn.works, from, mid, conn.calls, before, between, conn.wire, Head(init, id, items, n, z), Emit(id, item, z), ok);
    WholeSince(conn.works, from, mid, conn.calls, before, between, conn.wire, Head(init, id, items, n, z), Emit(id, item, z), ok);
  }

  /** The first n items are on the wire, whatever comes behind them. */
  ghost predicate Whole(before: seq<Frame>, after: seq<Frame>, init: Frame, id: Id, items: seq<Item>, n: nat, z: Gzip) {
    n <= |items| && before + Head(init, id, items, n, z) <= after
  }

  lemma WholeSince(works: nat -> bool, from: nat, mid: nat, next: nat, before: seq<Frame>, between: seq<Frame>, after: seq<Frame>,
                   a: seq<Frame>, b: seq<Frame>, ok: bool)
    requires Wrote(works, from, mid, before, between, a, true) && Wrote(works, mid, next, between, after, b, ok)
    ensures before + a <= after
  {
  }

  /** The announcement is written, or nothing is. */
  method SendInit(conn: FrameWriter, init: Frame, ghost id: Id, ghost items: seq<Item>, ghost z: Gzip) returns (ok: bool)
    modifies conn
    ensures WroteHead(conn, old(conn.calls), old(conn.wire), init, id, items, 0, z, ok)
  {
    HeadAll(init, id, items, z);
    hide Head;
    ok := conn.WriteMessage(init);
  }

  /** A sender that gives up has written less than its script. */
  lemma GivenUp(conn: FrameWriter, from: nat, before: seq<Frame>, init: Frame, id: Id, items: seq<Item>, n: nat, m: nat, z: Gzip)
    requires n <= m <= |items| && WroteHead(conn, from, before, init, id, items, n, z, false)
    ensures WroteHead(conn, from, before, init, id, items, m, z, false)
  {
    HeadPrefix(init, id, items, n, m, z);
    hide Head, Wrote;
    WroteLess(conn.works, from, conn.calls, before, conn.wire, Head(init, id, items, n, z), Head(init, id, items, m, z));
  }

  lemma BufferedItemsAre(data: Bytes, chunkSize: nat)
    requires chunkSize > 0
    ensures var chunks, items := Chunks(data, chunkSize), BufferedItems(data, chunkSize);
      |items| == |chunks| && forall i :: 0 <= i < |items| ==> items[i] == Item(i, i == |chunks| - 1, chunks[i])
  {
  }

  /** A payload in chunks: success means that all of its script was written, and failure that one
      of these writes failed. */
  method SendFileFramesWithSize(conn: FrameWriter, base: Base, data: Bytes, chunkSize: nat, z: Gzip) returns (ok: bool)
    requires chunkSize > 0
    modifies conn
    ensures Wrote(conn.works, old(conn.calls), conn.calls, old(conn.wire), conn.wire,
              Script(InitFrame(base, |data|, chunkSize), base.id, BufferedItems(data, chunkSize), z), ok)
  {
    hide EmitFirst, Wrote, Head, WroteHead, Script, BufferedItems, Chunks, ChunkCount, Whole;
    var chunks := ChunkData(data, chunkSize);
    var total := |chunks|;
    ghost var before, from, items, init := conn.wire, conn.calls, BufferedItems(data, chunkSize), InitFrame(base, |data|, chunkSize);
    BufferedItemsAre(data, chunkSize);
    ok := SendInit(conn, FileTransfer(base, total, |data|, 0, 0), base.id, items, z);
    if !ok { WroteItAll(conn, from, before, init, base.id, items, 0, z, false); return; }
    var i := 0;
    while i < total
      invariant 0 <= i <= total && WroteHead(conn, from, before, init, base.id, items, i, z, true)
    {
      ok := SendItem(conn, base.id, Item(i, i == total - 1, chunks[i]), z, from, before, init, items, i);
      i := i + 1;
      if !ok { WroteItAll(conn, from, before, init, base.id, items, i, z, false); return; }
    }
    WroteItAll(conn, from, before, init, base.id, items, total, z, true);
  }

  /** At its end a loop has written everything, or a write has failed. */
  lemma WroteItAll(conn: FrameWriter, from: nat, before: seq<Frame>, init: Frame, id: Id, items: seq<Item>, n: nat, z: Gzip, ok: bool)
    requires n <= |items| && (ok ==> n == |items|) && WroteHead(conn, from, before, init, id, items, n, z, ok)
    ensures Wrote(conn.works, from, conn.calls, before, conn.wire, Script(init, id, items, z), ok)
  {
    HeadAll(init, id, items, z);
    if !ok { GivenUp(conn, from, before, init, id, items, n, |items|, z); }
  }

  /** What the streaming sender still has to send. */
  ghost function ToSend(finished: bool, rest: Bytes, totalSize: int, chunkSize: nat, index: nat, sent: nat): seq<Item>
    requires chunkSize > 0
  {
    if finished then [] else StreamedItems(rest, totalSize, chunkSize, index, sent)
  }

  /** The streaming sender has sent the first i of its items. */
  ghost predicate Streams(items: seq<Item>, i: nat, finished: bool, rest: Bytes, totalSize: int, chunkSize: nat, sent: nat)
    requires chunkSize > 0
  {
    i <= |items| && items[i..] == ToSend(finished, rest, totalSize, chunkSize, i, sent)
  }

  lemma StreamStarts(data: Bytes, totalSize: int, chunkSize: nat)
    requires chunkSize > 0
    ensures Streams(StreamedItems(data, totalSize, chunkSize, 0, 0), 0, false, data, totalSize, chunkSize, 0)
  {
  }

  lemma StreamEnds(items: seq<Item>, i: nat, finished: bool, rest: Bytes, totalSize: int, chunkSize: nat, sent: nat)
    requires chunkSize > 0 && Streams(items, i, finished, rest, totalSize, chunkSize, sent)
    ensures finished || (rest == [] && i > 0) ==> i == |items| && Streams(items, i, true, rest, totalSize, chunkSize, sent)
  {
  }

  lemma StreamSendsNext(items: seq<Item>, i: nat, rest: Bytes, totalSize: int, chunkSize: nat, sent: nat, buf: Bytes)
    requires chunkSize > 0 && Streams(items, i, false, rest, totalSize, chunkSize, sent) && (rest == [] ==> i == 0)
    requires |buf| == Least(chunkSize, |rest|) && buf == rest[..|buf|]
    ensures var last := |buf| < chunkSize || sent + |buf| >= totalSize;
      && i < |items| && items[i] == Item(i, last, buf)
      && Streams(items, i + 1, last, rest[|buf|..], totalSize, chunkSize, sent + |buf|)
  {
    if |buf| < chunkSize { assert buf == rest; }
    assert items[i..][0] == items[i] && items[i..][1..] == items[i + 1..];
  }

  lemma JoinedNext(items: seq<Item>, i: nat)
    requires i < |items|
    ensures |JoinFirst(items, i + 1)| == |JoinFirst(items, i)| + |items[i].data|
  {
  }

  /**
   Reads a chunk and sends it, until a chunk that is final or the end of the file. Returns how
   many bytes were sent and how many chunks the announced size stands for; or, if a write failed,
   how many bytes and chunks were sent in whole.
   */
  method SendFileStreaming(conn: FrameWriter, base: Base, r: Reader, totalSize: int, chunkSize: nat, z: Gzip)
    returns (sent: nat, chunks: int, ok: bool)
    requires chunkSize > 0
    modifies conn, r
    ensures Wrote(conn.works, old(conn.calls), conn.calls, old(conn.wire), conn.wire,
              Script(InitFrame(base, totalSize, chunkSize), base.id, StreamedItems(old(r.rest), totalSize, chunkSize, 0, 0), z), ok)
    ensures ok ==> chunks == ChunkCount(totalSize, chunkSize) && sent + |r.rest| == |old(r.rest)|
    ensures !ok ==>
      var items := StreamedItems(old(r.rest), totalSize, chunkSize, 0, 0); var init := InitFrame(base, totalSize, chunkSize);
      && 0 <= chunks < |items| && sent == |JoinFirst(items, chunks)|
      && (chunks > 0 ==> Whole(old(conn.wire), conn.wire, init, base.id, items, chunks, z))
      && WroteHead(conn, old(conn.calls), old(conn.wire), init, base.id, items, chunks + 1, z, false)
  {
    hide EmitFirst, ToSend, StreamedItems, Streams, Wrote, Head, WroteHead, Script, ChunkCount, JoinFirst, Whole;
    var total := ChunkCount(totalSize, chunkSize);
    ghost var before, from, init := conn.wire, conn.calls, InitFrame(base, totalSize, chunkSize);
    ghost var items := StreamedItems(r.rest, totalSize, chunkSize, 0, 0);
    SomethingToSend(r.rest, totalSize, chunkSize, items);
    ok := SendInit(conn, FileTransfer(base, total, totalSize, 0, 0), base.id, items, z);
    if !ok {
      WroteItAll(conn, from, before, init, base.id, items, 0, z, false);
      GivenUp(conn, from, before, init, base.id, items, 0, 1, z);
      return 0, 0, false;
    }
    var i, finished := 0, false;
    sent := 0;
    StreamStarts(r.rest, totalSize, chunkSize);
    while !finished
      invariant i <= |items| && Streams(items, i, finished, r.rest, totalSize, chunkSize, sent)
      invariant sent + |r.rest| == |old(r.rest)| && sent == |JoinFirst(items, i)|
      invariant WroteHead(conn, from, before, init, base.id, items, i, z, true)
      decreases |r.rest|, !finished
    {
      ghost var was := r.rest;
      var buf := r.ReadFull(chunkSize);
      if buf == [] && i > 0 {
        StreamEnds(items, i, finished, was, totalSize, chunkSize, sent);
        finished := true;
      } else {
        var item := Item(i, |buf| < chunkSize || sent + |buf| >= totalSize, buf);
        StreamSendsNext(items, i, was, totalSize, chunkSize, sent, buf);
        ok := SendItem(conn, base.id, item, z, from, before, init, items, i);
        if !ok { WroteItAll(conn, from, before, init, base.id, items, i + 1, z, false); return sent, i, false; }
        JoinedNext(items, i);
        sent := sent + |buf|;
        i := i + 1;
        finished := item.last;
      }
    }
    StreamEnds(items, i, finished, r.rest, totalSize, chunkSize, sent);
    WroteItAll(conn, from, before, init, base.id, items, i, z, true);
    return sent, total, true;
  }

  lemma SomethingToSend(rest: Bytes, totalSize: int, chunkSize: nat, items: seq<Item>)
    requires chunkSize > 0 && items == StreamedItems(rest, totalSize, chunkSize, 0, 0)
    ensures |items| > 0 && JoinFirst(items, 0) == []
  {
  }

  /** A stream has sent the first k items of its stripe, and chunk `index` is next. */
  ghost predicate Strides(items: seq<Item>, k: nat, data: Bytes, chunkSize: nat, streams: nat, count: int, index: nat)
    requires chunkSize > 0 && streams > 0
  {
    k <= |items| && items[k..] == StripeItems(data, chunkSize, streams, count, index)
  }

  lemma StrideStarts(data: Bytes, chunkSize: nat, streams: nat, count: int, index: nat)
    requires chunkSize > 0 && streams > 0
    ensures Strides(StripeItems(data, chunkSize, streams, count, index), 0, data, chunkSize, streams, count, index)
  {
  }

  lemma StrideNext(items: seq<Item>, k: nat, data: Bytes, chunkSize: nat, streams: nat, count: int, index: nat)
    requires chunkSize > 0 && streams > 0 && Strides(items, k, data, chunkSize, streams, count, index) && index < count
    ensures k < |items| && items[k] == ChunkItem(data, chunkSize, index, index + streams >= count)
    ensures Strides(items, k + 1, data, chunkSize, streams, count, index + streams)
  {
    hide ChunkItem;
    assert items[k..][0] == items[k] && items[k..][1..] == items[k + 1..];
  }

  lemma StrideEnds(items: seq<Item>, k: nat, data: Bytes, chunkSize: nat, streams: nat, count: int, index: nat)
    requires chunkSize > 0 && streams > 0 && Strides(items, k, data, chunkSize, streams, count, index) && index >= count
    ensures k == |items|
  {
  }

  /** How many items a stream has before the first that lies behind the end of the file. */
  function InFile(items: seq<Item>): (g: nat)
    ensures g <= |items| && (forall k :: 0 <= k < g ==> items[k].data != []) && (g < |items| ==> items[g].data == [])
  {
    if items == [] || items[0].data == [] then 0 else 1 + InFile(items[1..])
  }

  /** A chunk lies behind the end of the file exactly if it starts there; so a whole stripe is in
      the file if and only if each of its indexes is. */
  lemma {:induction false} InFileIff(data: Bytes, chunkSize: nat, streams: nat, count: int, from: nat)
    requires chunkSize > 0 && streams > 0
    ensures var items := StripeItems(data, chunkSize, streams, count, from);
      InFile(items) == |items| <==> forall q :: q in Stripe(from, streams, if count < 0 then 0 else count) ==> q * chunkSize < |data|
    decreases if from < count then count - from else 0
  {
    if from < count {
      var rest := StripeItems(data, chunkSize, streams, count, from + streams);
      InFileIff(data, chunkSize, streams, count, from + streams);
      hide ChunkItem;
      var first := ChunkItem(data, chunkSize, from, from + streams >= count);
      EmptyIff(data, chunkSize, from, from + streams >= count);
      assert StripeItems(data, chunkSize, streams, count, from) == [first] + rest;
      assert ([first] + rest)[1..] == rest;
    }
  }

  lemma EmptyIff(data: Bytes, chunkSize: nat, q: nat, last: bool)
    requires chunkSize > 0
    ensures ChunkItem(data, chunkSize, q, last).data == [] <==> q * chunkSize >= |data|
  {
  }

  /**
   One of the parallel streams: it reads and sends every `streams`-th chunk, and gives up if a
   chunk lies behind the end of the file. It succeeds if and only if none of its writes fails and
   none of its chunks lies there.
   */
  method SendStream(conn: FrameWriter, base: Base, data: Bytes, totalSize: int, chunkSize: nat, streams: nat, streamIdx: nat, z: Gzip)
    returns (ok: bool)
    requires chunkSize > 0 && streams > 0
    modifies conn
    ensures var items := StripeItems(data, chunkSize, streams, ChunkCount(totalSize, chunkSize), streamIdx);
      var init, g := InitParallel(base, totalSize, chunkSize, streams), InFile(items);
      var wrote := AllWork(conn.works, old(conn.calls), |Head(init, base.id, items, g, z)|);
      && WroteHead(conn, old(conn.calls), old(conn.wire), init, base.id, items, g, z, wrote)
      && (ok <==> wrote && g == |items|)
  {
    hide ChunkItem, EmitFirst, Wrote, Head, WroteHead, StripeItems, Strides, ChunkCount, AllWork, InFile, Whole;
    var totalChunks := ChunkCount(totalSize, chunkSize);
    ghost var before, from, init := conn.wire, conn.calls, InitParallel(base, totalSize, chunkSize, streams);
    ghost var items := StripeItems(data, chunkSize, streams, totalChunks, streamIdx);
    ok := SendInit(conn, FileTransfer(base.(mode := "scp"), totalChunks, totalSize, chunkSize, streams), base.id, items, z);
    if !ok { StreamFailed(conn, from, before, init, base.id, items, 0, z); return; }
    var index := streamIdx;
    ghost var k := 0;
    StrideStarts(data, chunkSize, streams, totalChunks, streamIdx);
    while index < totalChunks
      invariant k <= InFile(items) && Strides(items, k, data, chunkSize, streams, totalChunks, index)
      invariant WroteHead(conn, from, before, init, base.id, items, k, z, true)
    {
      var item := ChunkItem(data, chunkSize, index, index + streams >= totalChunks);
      StrideNext(items, k, data, chunkSize, streams, totalChunks, index);
      if item.data == [] {
        StreamWrote(conn, from, before, init, base.id, items, k, z);
        return false;
      }
      ok := SendItem(conn, base.id, item, z, from, before, init, items, k);
      index := index + streams;
      k := k + 1;
      if !ok { StreamFailed(conn, from, before, init, base.id, items, k, z); return; }
    }
    StrideEnds(items, k, data, chunkSize, streams, totalChunks, index);
    StreamWrote(conn, from, before, init, base.id, items, k, z);
    ok := true;
  }

  lemma StreamFailed(conn: FrameWriter, from: nat, before: seq<Frame>, init: Frame, id: Id, items: seq<Item>, k: nat, z: Gzip)
    requires k <= InFile(items) && WroteHead(conn, from, before, init, id, items, k, z, false)
    ensures WroteHead(conn, from, before, init, id, items, InFile(items), z, false)
    ensures !AllWork(conn.works, from, |Head(init, id, items, InFile(items), z)|)
  {
    var script := Head(init, id, items, InFile(items), z);
    GivenUp(conn, from, before, init, id, items, k, InFile(items), z);
    hide Head;
    SucceedsIff(conn.works, from, conn.calls, before, conn.wire, script, false);
  }

  lemma StreamWrote(conn: FrameWriter, from: nat, before: seq<Frame>, init: Frame, id: Id, items: seq<Item>, k: nat, z: Gzip)
    requires k <= InFile(items) && WroteHead(conn, from, before, init, id, items, k, z, true) && (k < |items| ==> items[k].data == [])
    ensures k == InFile(items) && AllWork(conn.works, from, |Head(init, id, items, k, z)|)
  {
    hide Head, InFile;
    SucceedsIff(conn.works, from, conn.calls, before, conn.wire, Head(init, id, items, k, z), true);
  }
}
