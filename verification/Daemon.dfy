/**
 What the daemon's handling of file frames does to its table of live transfers, its one
 slot for the chunk whose payload comes next, the open files, the disk and the answers it
 sends.
 */
module DaemonModel {
  import opened Basics
  import opened Protocol
  import Q = WriteQueue

  type Path = string

  /** A destination: a file, or the directory that a tar archive unpacks to. */
  datatype Stored = File(content: Bytes) | Tree(archive: Bytes)

  /** An open file: all writers that share it share its offset. */
  datatype Descriptor = Descriptor(path: Path, offset: nat, open: bool)

  /** The daemon's file system; the destinations in `readOnly` cannot be created. */
  datatype Store = Store(disk: map<Path, Stored>, files: seq<Descriptor>, readOnly: set<Path>)

  /** fileReassembly: `file` is the number of its open file. */
  datatype Transfer = Transfer(
    mode: string,
    dst: Path,
    buf: Bytes,
    id: Id,
    index: int,
    final: bool,
    file: Option<nat>,
    compressed: bool,
    chunkSize: int,
    parallel: bool)

  /** pendingBinaryChunk: nothing, the table's entry for an id, or a transfer that has left
      the table since. */
  datatype Slot = Empty | Tabled(id: Id) | Stray(transfer: Transfer)

  datatype Answer = Answer(id: Id, ok: bool)

  datatype Daemon = Daemon(table: map<Id, Transfer>, slot: Slot, store: Store, answers: seq<Answer>)

  type Gunzip = Bytes -> Option<Bytes>

  ghost predicate WfTransfer(t: Transfer, files: seq<Descriptor>) {
    t.file.Some? ==> t.file.value < |files| && files[t.file.value].path == t.dst
  }

  ghost predicate Shares(t: Transfer, dst: Path) {
    t.parallel && t.dst == dst && t.file.Some?
  }

  /**
   Every open file is the one of its transfer's destination; a transfer knows its id once a
   binary header named it; parallel streams of one destination share one open file.
   */
  ghost predicate Wf(d: Daemon) {
    && (forall k :: k in d.table ==> WfTransfer(d.table[k], d.store.files) && (d.table[k].id == "" || d.table[k].id == k))
    && (d.slot.Stray? ==> WfTransfer(d.slot.transfer, d.store.files))
    && (d.slot.Tabled? ==> d.slot.id in d.table && d.table[d.slot.id].id == d.slot.id)
    && (forall j, k :: j in d.table && k in d.table && Shares(d.table[j], d.table[j].dst) && Shares(d.table[k], d.table[j].dst)
          ==> d.table[j].file == d.table[k].file)
  }

  // ---- Files ----

  function Zeros(n: nat): Bytes {
    seq(n, _ => 0)
  }

  /** Write at an offset; a gap before it is filled with zeros. */
  function WriteAt(content: Bytes, offset: nat, data: Bytes): Bytes {
    if data == [] then content
    else
      var padded := if |content| < offset then content + Zeros(offset - |content|) else content;
      padded[..offset] + data + (if offset + |data| < |padded| then padded[offset + |data|..] else [])
  }

  function ContentOf(disk: map<Path, Stored>, path: Path): Bytes {
    if path in disk && disk[path].File? then disk[path].content else []
  }

  /** os.Create, and Truncate if a size is given: the file is empty or all zeros. */
  function Create(s: Store, path: Path, size: int): (Store, Option<nat>) {
    if path in s.readOnly then (s, None)
    else
      (s.(disk := s.disk[path := File(if size > 0 then Zeros(size) else [])],
          files := s.files + [Descriptor(path, 0, true)]),
       Some(|s.files|))
  }

  function WriteFile(s: Store, fd: nat, offset: nat, data: Bytes): Store
    requires fd < |s.files|
  {
    var f := s.files[fd];
    s.(disk := s.disk[f.path := File(WriteAt(ContentOf(s.disk, f.path), offset, data))],
       files := s.files[fd := f.(offset := offset + |data|)])
  }

  function CloseFile(s: Store, file: Option<nat>): Store
    requires file.Some? ==> file.value < |s.files|
  {
    if file.None? then s else s.(files := s.files[file.value := s.files[file.value].(open := false)])
  }

  // ---- One transfer ----

  function NewTransfer(a: Announce): Transfer {
    Transfer(a.mode, a.dst, [], "", 0, false, None, false, a.chunkSize, a.streams > 1 && a.mode == "scp")
  }

  /** writeChunkData: seek first in parallel mode; the buffer takes what no open file takes. */
  function WriteChunk(s: Store, t: Transfer, data: Bytes): (Store, Transfer)
    requires WfTransfer(t, s.files)
  {
    if t.file.None? || !s.files[t.file.value].open || (t.parallel && t.chunkSize > 0 && t.index < 0) then
      (s, t.(buf := t.buf + data))
    else if t.parallel && t.chunkSize > 0 then (WriteFile(s, t.file.value, t.index * t.chunkSize, data), t)
    else (WriteFile(s, t.file.value, s.files[t.file.value].offset, data), t)
  }

  /** finishReassembly, but for taking the transfer out of the table: whether it reports success. */
  function Finish(s: Store, t: Transfer): (Store, Transfer, bool)
    requires WfTransfer(t, s.files)
  {
    if t.parallel then (s, t, true)
    else if t.file.Some? then (CloseFile(s, t.file), t.(file := None), true)
    else if t.dst in s.readOnly || (t.mode != "scp" && t.mode != "rsync") then (s, t, false)
    else (s.(disk := s.disk[t.dst := if t.mode == "scp" then File(t.buf) else Tree(t.buf)]), t, true)
  }

  /** A chunk's bytes go to their transfer; an outcome if the chunk is the final one. */
  function TakeChunk(s: Store, t: Transfer, data: Bytes, final: bool): (Store, Transfer, Option<bool>)
    requires WfTransfer(t, s.files)
  {
    WriteChunkKeeps(s, t, data);
    var (s', t') := WriteChunk(s, t, data);
    if !final then (s', t', None)
    else var (s'', t'', ok) := Finish(s', t'); (s'', t'', Some(ok))
  }

  /** A payload is unpacked first; one that cannot be ends its transfer. */
  function TakePayload(s: Store, t: Transfer, data: Bytes, gunzip: Gunzip): (Store, Transfer, Option<bool>)
    requires WfTransfer(t, s.files)
  {
    var plain := if t.compressed then gunzip(data) else Some(data);
    if plain.None? then (CloseFile(s, t.file), t.(file := None), Some(false))
    else TakeChunk(s, t.(compressed := false), plain.value, t.final)
  }

  // ---- Handlers ----

  function Reply(d: Daemon, id: Id, ok: bool): Daemon {
    d.(answers := d.answers + [Answer(id, ok)])
  }

  /** The file that a live parallel stream has open for a destination. */
  ghost function SharedFile(table: map<Id, Transfer>, dst: Path): Option<nat> {
    if exists k :: k in table && Shares(table[k], dst) then
      var k :| k in table && Shares(table[k], dst);
      table[k].file
    else None
  }

  /** A slot that names the table's entry for an id keeps that transfer when it leaves. */
  function SlotWithout(d: Daemon, id: Id): Slot {
    if d.slot == Tabled(id) && id in d.table then Stray(d.table[id]) else d.slot
  }

  /** dropReassembly. */
  function Drop(d: Daemon, id: Id): Daemon {
    d.(slot := SlotWithout(d, id), table := d.table - {id})
  }

  /** With an outcome the transfer is over. */
  function Settle(d: Daemon, id: Id, outcome: Option<bool>): Daemon {
    if outcome.None? then d else Reply(Drop(d, id), id, outcome.value)
  }

  ghost function Begin(d: Daemon, id: Id, a: Announce): Daemon {
    var t := NewTransfer(a);
    var shared := if t.parallel then SharedFile(d.table, a.dst) else None;
    var (s, file) :=
      if shared.Some? || a.mode != "scp" then (d.store, shared)
      else Create(d.store, a.dst, if t.parallel then a.totalSize else 0);
    d.(store := s, slot := SlotWithout(d, id), table := d.table[id := t.(file := file)])
  }

  function Header(d: Daemon, id: Id, index: int, final: bool, compressed: bool): Daemon {
    if id !in d.table then Reply(d, id, false)
    else
      d.(table := d.table[id := d.table[id].(id := id, index := index, final := final, compressed := compressed)],
         slot := Tabled(id))
  }

  function Legacy(d: Daemon, id: Id, data: Option<Bytes>, final: bool): Daemon
    requires Wf(d)
  {
    if id !in d.table then Reply(d, id, false)
    else
      var t := d.table[id];
      if data.None? then
        Reply(Drop(d.(table := d.table[id := t.(file := None)], store := CloseFile(d.store, t.file)), id), id, false)
      else
        var (s, t', outcome) := TakeChunk(d.store, t, data.value, final);
        Settle(d.(table := d.table[id := t'], store := s), t.id, outcome)
  }

  function Payload(d: Daemon, data: Bytes, gunzip: Gunzip): Daemon
    requires Wf(d)
  {
    if d.slot.Empty? then d
    else
      var t := if d.slot.Tabled? then d.table[d.slot.id] else d.slot.transfer;
      var (s, t', outcome) := TakePayload(d.store, t, data, gunzip);
      var d' := d.(slot := Empty, store := s, table := if d.slot.Tabled? then d.table[d.slot.id := t'] else d.table);
      Settle(d', t.id, outcome)
  }

  /** One frame of the daemon's connection; frames that are not about chunked transfers leave
      this part of the daemon alone. */
  ghost function Receive(d: Daemon, frame: Q.Wire<Msg>, gunzip: Gunzip): Daemon
    requires Wf(d)
  {
    match frame
    case BinaryMsg(data) => Payload(d, data, gunzip)
    case TextMsg(FileInit(id, a)) => if a.chunked then Begin(d, id, a) else d
    case TextMsg(ChunkHeader(id, index, final, compressed)) => Header(d, id, index, final, compressed)
    case TextMsg(LegacyChunk(id, _, data, final)) => Legacy(d, id, data, final)
    case _ => d
  }

  // ---- What every frame keeps ----

  /** Between two states of the file system, files are opened, written and closed. */
  ghost predicate FilesGrow(s: Store, s': Store) {
    && |s.files| <= |s'.files|
    && (forall i :: 0 <= i < |s.files| ==> s'.files[i].path == s.files[i].path)
    && s'.readOnly == s.readOnly
  }

  ghost predicate SameTransfer(t: Transfer, t': Transfer) {
    && t'.(buf := t.buf, file := t.file, compressed := t.compressed) == t
    && (t'.file == t.file || t'.file.None?)
  }

  lemma WriteChunkKeeps(s: Store, t: Transfer, data: Bytes)
    requires WfTransfer(t, s.files)
    ensures var (s', t') := WriteChunk(s, t, data); FilesGrow(s, s') && SameTransfer(t, t') && WfTransfer(t', s'.files)
  {
    hide WriteAt, ContentOf;
  }

  lemma FinishKeeps(s: Store, t: Transfer)
    requires WfTransfer(t, s.files)
    ensures var (s', t', _) := Finish(s, t); FilesGrow(s, s') && SameTransfer(t, t') && WfTransfer(t', s'.files)
  {
  }

  lemma TakeChunkKeeps(s: Store, t: Transfer, data: Bytes, final: bool)
    requires WfTransfer(t, s.files)
    ensures var (s', t', _) := TakeChunk(s, t, data, final); FilesGrow(s, s') && SameTransfer(t, t')
  {
    hide WriteChunk, Finish;
    WriteChunkKeeps(s, t, data);
    var (s', t') := WriteChunk(s, t, data);
    FinishKeeps(s', t');
  }

  lemma TakePayloadKeeps(s: Store, t: Transfer, data: Bytes, gunzip: Gunzip)
    requires WfTransfer(t, s.files)
    ensures var (s', t', _) := TakePayload(s, t, data, gunzip); FilesGrow(s, s') && SameTransfer(t, t')
  {
    hide TakeChunk;
    var plain := if t.compressed then gunzip(data) else Some(data);
    if plain.Some? { TakeChunkKeeps(s, t.(compressed := false), plain.value, t.final); }
  }

  lemma PutBackKeeps(d: Daemon, s: Store, id: Id, t: Transfer)
    requires Wf(d) && FilesGrow(d.store, s) && id in d.table && SameTransfer(d.table[id], t)
    ensures Wf(d.(table := d.table[id := t], store := s))
  {
  }

  lemma DropKeeps(d: Daemon, id: Id)
    requires Wf(d)
    ensures Wf(Drop(d, id))
  {
  }

  lemma BeginKeeps(d: Daemon, id: Id, a: Announce)
    requires Wf(d)
    ensures Wf(Begin(d, id, a))
  {
    hide Wf, Begin;
    if a.streams > 1 && a.mode == "scp" && SharedFile(d.table, a.dst).Some? {
      BeginSharing(d, id, a);
    } else {
      BeginAlone(d, id, a);
    }
  }

  /** An announcement that joins a file that is open. */
  lemma BeginSharing(d: Daemon, id: Id, a: Announce)
    requires Wf(d) && a.streams > 1 && a.mode == "scp" && SharedFile(d.table, a.dst).Some?
    ensures Wf(Begin(d, id, a))
  {
    var k :| k in d.table && Shares(d.table[k], a.dst) && d.table[k].file == SharedFile(d.table, a.dst);
    hide SharedFile;
  }

  lemma BeginAlone(d: Daemon, id: Id, a: Announce)
    requires Wf(d) && !(a.streams > 1 && a.mode == "scp" && SharedFile(d.table, a.dst).Some?)
    ensures Wf(Begin(d, id, a))
  {
  }

  lemma HeaderKeeps(d: Daemon, id: Id, index: int, final: bool, compressed: bool)
    requires Wf(d)
    ensures Wf(Header(d, id, index, final, compressed))
  {
  }

  lemma LegacyKeeps(d: Daemon, id: Id, data: Option<Bytes>, final: bool)
    requires Wf(d)
    ensures Wf(Legacy(d, id, data, final))
  {
    if id in d.table {
      var t := d.table[id];
      if data.None? {
        PutBackKeeps(d, CloseFile(d.store, t.file), id, t.(file := None));
        DropKeeps(d.(table := d.table[id := t.(file := None)], store := CloseFile(d.store, t.file)), id);
      } else {
        hide TakeChunk;
        TakeChunkKeeps(d.store, t, data.value, final);
        var (s, t', outcome) := TakeChunk(d.store, t, data.value, final);
        PutBackKeeps(d, s, id, t');
        DropKeeps(d.(table := d.table[id := t'], store := s), t.id);
      }
    }
  }

  lemma PayloadKeeps(d: Daemon, data: Bytes, gunzip: Gunzip)
    requires Wf(d)
    ensures Wf(Payload(d, data, gunzip)) && Payload(d, data, gunzip).slot == Empty
  {
    hide TakePayload;
    if !d.slot.Empty? {
      var t := if d.slot.Tabled? then d.table[d.slot.id] else d.slot.transfer;
      TakePayloadKeeps(d.store, t, data, gunzip);
      var (s, t', outcome) := TakePayload(d.store, t, data, gunzip);
      var e := d.(slot := Empty);
      assert Wf(e.(store := s));
      if d.slot.Tabled? { PutBackKeeps(e, s, d.slot.id, t'); }
      var d' := d.(slot := Empty, store := s, table := if d.slot.Tabled? then d.table[d.slot.id := t'] else d.table);
      DropKeeps(d', t.id);
    }
  }

  lemma ReceiveKeepsWf(d: Daemon, frame: Q.Wire<Msg>, gunzip: Gunzip)
    requires Wf(d)
    ensures Wf(Receive(d, frame, gunzip))
  {
    hide Payload, Begin, Legacy, Header, Wf;
    match frame
    case BinaryMsg(data) => PayloadKeeps(d, data, gunzip);
    case TextMsg(FileInit(id, a)) => BeginKeeps(d, id, a);
    case TextMsg(ChunkHeader(id, index, final, compressed)) => HeaderKeeps(d, id, index, final, compressed);
    case TextMsg(LegacyChunk(id, _, data, final)) => LegacyKeeps(d, id, data, final);
    case _ =>
  }
}

/** The daemon itself: fileReassembly and TargetDaemon. */
module TargetDaemons {
  import opened Basics
  import opened Protocol
  import opened DaemonModel
  import Q = WriteQueue

  /** The state of one transfer, shared by the table and the slot that refer to it. */
  class FileReassembly {
    /** The id of the file_transfer message that began it. */
    ghost const key: Id
    var state: Transfer

    constructor (a: Announce, ghost id: Id)
      ensures state == NewTransfer(a) && key == id
    {
      state, key := NewTransfer(a), id;
    }
  }

  class TargetDaemon {
    var reassembly: map<Id, FileReassembly>
    var pendingBinaryChunk: FileReassembly?
    var disk: map<Path, Stored>
    var files: seq<Descriptor>
    var answers: seq<Answer>
    const readOnly: set<Path>
    /** Every transfer the daemon has begun. */
    ghost var begun: set<FileReassembly>
    ghost var table: map<Id, Transfer>
    ghost var slot: Slot

    constructor (disk: map<Path, Stored>, readOnly: set<Path>)
      ensures Valid() && begun == {} && View() == Daemon(map[], Empty, Store(disk, [], readOnly), [])
    {
      reassembly, pendingBinaryChunk, files, answers := map[], null, [], [];
      this.disk, this.readOnly, begun := disk, readOnly, {};
      table, slot := map[], Empty;
    }

    /** `table` and `slot` are the values of the transfers that the real fields refer to. */
    ghost predicate Tied()
      reads this`reassembly, this`pendingBinaryChunk, this`begun, this`table, this`slot, begun
    {
      && table.Keys == reassembly.Keys
      && (forall k :: k in reassembly ==> reassembly[k] in begun && reassembly[k].key == k && reassembly[k].state == table[k])
      && (pendingBinaryChunk == null <==> slot.Empty?)
      && (pendingBinaryChunk != null ==> pendingBinaryChunk in begun)
      && (slot.Tabled? ==> slot.id in reassembly && reassembly[slot.id] == pendingBinaryChunk)
      && (slot.Stray? ==> pendingBinaryChunk.state == slot.transfer)
      && (slot.Stray? && pendingBinaryChunk.key in reassembly ==> reassembly[pendingBinaryChunk.key] != pendingBinaryChunk)
    }

    ghost predicate Valid()
      reads this, begun
    {
      Tied() && Wf(View())
    }

    ghost function StoreView(): Store
      reads this`disk, this`files
    {
      Store(disk, files, readOnly)
    }

    ghost function View(): Daemon
      reads this
    {
      Daemon(table, slot, StoreView(), answers)
    }

    /** r is what the table holds under its key. */
    ghost predicate InTable(r: FileReassembly)
      reads this`reassembly
    {
      r.key in reassembly && reassembly[r.key] == r
    }

    // ---- References ----

    method SetState(r: FileReassembly, t: Transfer)
      requires Tied() && r in begun
      modifies r, this`table, this`slot
      ensures Tied() && r.state == t
      ensures table == if InTable(r) then old(table)[r.key := t] else old(table)
      ensures slot == if !InTable(r) && pendingBinaryChunk == r then Stray(t) else old(slot)
    {
      r.state := t;
      if InTable(r) {
        table := table[r.key := t];
      } else if pendingBinaryChunk == r {
        slot := Stray(t);
      }
    }

    method DropReassembly(id: Id)
      requires Tied()
      modifies this`reassembly, this`table, this`slot
      ensures Tied() && reassembly == old(reassembly) - {id}
      ensures table == old(table) - {id} && slot == SlotWithout(old(View()), id)
    {
      slot := SlotWithout(View(), id);
      table := table - {id};
      reassembly := reassembly - {id};
    }

    method Register(id: Id, r: FileReassembly)
      requires Tied() && r !in begun && r.key == id
      modifies this`reassembly, this`begun, this`table, this`slot
      ensures Tied() && begun == old(begun) + {r}
      ensures table == old(table)[id := r.state] && slot == SlotWithout(old(View()), id)
    {
      slot := SlotWithout(View(), id);
      table := table[id := r.state];
      reassembly := reassembly[id := r];
      begun := begun + {r};
    }

    method SetPending(r: FileReassembly)
      requires Tied() && r in begun && InTable(r)
      modifies this`pendingBinaryChunk, this`slot
      ensures Tied() && slot == Tabled(r.key)
    {
      pendingBinaryChunk := r;
      slot := Tabled(r.key);
    }

    /** Empty the slot: what it named, if anything. */
    method TakeSlot() returns (r: FileReassembly?)
      requires Tied()
      modifies this`pendingBinaryChunk, this`slot
      ensures Tied() && slot == Empty && (r == null <==> old(slot).Empty?)
      ensures r != null ==> r in begun && (InTable(r) <==> old(slot).Tabled?)
      ensures r != null ==> r.state == if old(slot).Tabled? then table[old(slot).id] else old(slot).transfer
      ensures r != null && InTable(r) ==> old(slot) == Tabled(r.key) && r.key in table
    {
      r := pendingBinaryChunk;
      pendingBinaryChunk, slot := null, Empty;
    }

    method Lookup(id: Id) returns (r: FileReassembly)
      requires Tied() && id in reassembly
      ensures r in begun && InTable(r) && r.key == id && id in table && r.state == table[id]
    {
      r := reassembly[id];
    }

    // ---- Files ----

    method CreateFile(path: Path, size: int) returns (file: Option<nat>)
      modifies this`disk, this`files
      ensures (StoreView(), file) == Create(old(StoreView()), path, size)
    {
      if path in readOnly { return None; }
      disk := disk[path := File(if size > 0 then Zeros(size) else [])];
      file := Some(|files|);
      files := files + [Descriptor(path, 0, true)];
    }

    /** A seek, where `offset` is given, and a write. */
    method WriteOpenFile(fd: nat, offset: Option<int>, data: Bytes) returns (ok: bool)
      requires fd < |files|
      modifies this`disk, this`files
      ensures ok <==> old(files)[fd].open && (offset.Some? ==> offset.value >= 0)
      ensures StoreView() == if !ok then old(StoreView()) else
        WriteFile(old(StoreView()), fd, if offset.Some? then offset.value else old(files)[fd].offset, data)
    {
      ok := files[fd].open && (offset.Some? ==> offset.value >= 0);
      if ok {
        var f := files[fd];
        var start: nat := if offset.Some? then offset.value else f.offset;
        disk := disk[f.path := File(WriteAt(ContentOf(disk, f.path), start, data))];
        files := files[fd := f.(offset := start + |data|)];
      }
    }

    method CloseFileWriter(r: FileReassembly)
      requires Tied() && r in begun && WfTransfer(r.state, files)
      modifies this`files, r, this`table, this`slot
      ensures Tied() && r.state == old(r.state).(file := None)
      ensures table == if InTable(r) then old(table)[r.key := r.state] else old(table)
      ensures slot == if !InTable(r) && pendingBinaryChunk == r then Stray(r.state) else old(slot)
      ensures StoreView() == CloseFile(old(StoreView()), old(r.state.file))
    {
      hide Tied;
      if r.state.file.Some? {
        var fd := r.state.file.value;
        files := files[fd := files[fd].(open := false)];
      }
      SetState(r, r.state.(file := None));
    }

    method Send(id: Id, ok: bool)
      modifies this`answers
      ensures answers == old(answers) + [Answer(id, ok)]
    {
      answers := answers + [Answer(id, ok)];
    }

    method WriteChunkData(r: FileReassembly, data: Bytes)
      requires Tied() && r in begun && WfTransfer(r.state, files)
      modifies this`disk, this`files, r, this`table, this`slot
      ensures Tied() && (StoreView(), r.state) == WriteChunk(old(StoreView()), old(r.state), data)
      ensures table == if InTable(r) then old(table)[r.key := r.state] else old(table)
      ensures slot == if !InTable(r) && pendingBinaryChunk == r then Stray(r.state) else old(slot)
    {
      hide Tied;
      var ok := false;
      var t := r.state;
      if t.file.Some? {
        if t.parallel && t.chunkSize > 0 {
          var offset := t.index * t.chunkSize;
          assert offset >= 0 <==> t.index >= 0;
          ok := WriteOpenFile(t.file.value, Some(offset), data);
        } else {
          ok := WriteOpenFile(t.file.value, None, data);
        }
      }
      SetState(r, if ok then t else t.(buf := t.buf + data));
    }

    /** writeTransfer: the buffered payload goes to disk. */
    method WriteTransfer(r: FileReassembly) returns (ok: bool)
      modifies this`disk
      ensures ok <==> r.state.dst !in readOnly && (r.state.mode == "scp" || r.state.mode == "rsync")
      ensures disk == if ok then old(disk)[r.state.dst := if r.state.mode == "scp" then File(r.state.buf) else Tree(r.state.buf)] else old(disk)
    {
      var t := r.state;
      ok := t.dst !in readOnly && (t.mode == "scp" || t.mode == "rsync");
      if ok {
        disk := disk[t.dst := if t.mode == "scp" then File(t.buf) else Tree(t.buf)];
      }
    }

    /** The transfer leaves the table, and its file is closed. */
    method DropAndClose(r: FileReassembly, id: Id)
      requires Tied() && r in begun && WfTransfer(r.state, files)
      requires !InTable(r) ==> pendingBinaryChunk != r
      modifies this`reassembly, this`files, r, this`table, this`slot
      ensures Tied() && r.state == old(r.state).(file := None)
      ensures var d := old(View()); var s := CloseFile(d.store, old(r.state.file));
        View() == Drop(d.(store := s, table := if old(InTable(r)) then d.table[r.key := r.state] else d.table), id)
    {
      hide Tied, CloseFile;
      CloseFileWriter(r);
      DropReassembly(id);
    }

    /** A transfer that cannot go on. */
    method Abandon(r: FileReassembly, id: Id)
      requires Tied() && r in begun && WfTransfer(r.state, files)
      requires !InTable(r) ==> pendingBinaryChunk != r
      modifies this`reassembly, this`files, this`answers, r, this`table, this`slot
      ensures Tied()
      ensures var d := old(View()); var s := CloseFile(d.store, old(r.state.file));
        View() == Reply(Drop(d.(store := s, table := if old(InTable(r)) then d.table[r.key := old(r.state).(file := None)] else d.table), id), id, false)
    {
      hide Tied, CloseFile, Drop;
      DropAndClose(r, id);
      Send(id, false);
    }

    method FinishReassembly(r: FileReassembly)
      requires Tied() && r in begun && WfTransfer(r.state, files)
      requires !InTable(r) ==> pendingBinaryChunk != r
      modifies this`reassembly, this`disk, this`files, this`answers, r, this`table, this`slot
      ensures Tied()
      ensures var (s, t, ok) := Finish(old(StoreView()), old(r.state)); var id := old(r.state.id);
        View() == Reply(Drop(old(View()).(store := s, table := if old(InTable(r)) then old(table)[r.key := t] else old(table)), id), id, ok)
    {
      var t := r.state;
      assert InTable(r) ==> table == table[r.key := t];
      hide Tied, CloseFile, Drop;
      if !t.parallel && t.file.Some? {
        DropAndClose(r, t.id);
        Send(t.id, true);
      } else {
        var ok := true;
        if !t.parallel { ok := WriteTransfer(r); }
        DropReassembly(t.id);
        Send(t.id, ok);
      }
    }

    /** A chunk of r, unpacked: it is stored, and the transfer finished if it was the last. */
    method Take(r: FileReassembly, data: Bytes, final: bool)
      requires Tied() && r in begun && WfTransfer(r.state, files)
      requires !InTable(r) ==> pendingBinaryChunk != r
      modifies this`reassembly, this`disk, this`files, this`answers, r, this`table, this`slot
      ensures Tied()
      ensures var d := old(View()); var (s, t, outcome) := TakeChunk(d.store, old(r.state), data, final);
        View() == Settle(d.(store := s, table := if old(InTable(r)) then d.table[r.key := t] else d.table), old(r.state.id), outcome)
    {
      hide Tied, WriteChunk, Finish, Drop;
      ghost var was, tabled := View(), InTable(r);
      WriteChunkKeeps(StoreView(), r.state, data);
      WriteChunkData(r, data);
      if final {
        ghost var (_, t, _) := Finish(StoreView(), r.state);
        assert tabled ==> table[r.key := t] == was.table[r.key := t];
        FinishReassembly(r);
      }
    }

    // ---- Frames ----

    /** The file that an earlier stream of the same parallel copy opened. */
    method FindSharedFile(dst: Path) returns (file: Option<nat>)
      requires Valid()
      ensures file == SharedFile(table, dst)
    {
      var todo := reassembly.Keys;
      file := None;
      while todo != {} && file.None?
        invariant todo <= reassembly.Keys
        invariant file.Some? ==> exists k :: k in table && Shares(table[k], dst) && file == table[k].file
        invariant file.None? ==> forall k :: k in table && Shares(table[k], dst) ==> k in todo
        decreases todo
      {
        var k :| k in todo;
        todo := todo - {k};
        var existing := Lookup(k);
        if existing.state.dst == dst && existing.state.file.Some? && existing.state.parallel {
          file := existing.state.file;
        }
      }
    }

    method BeginChunkedTransfer(id: Id, a: Announce)
      requires Valid()
      modifies this`reassembly, this`disk, this`files, this`begun, this`table, this`slot
      ensures Valid() && View() == Begin(old(View()), id, a)
      ensures fresh(begun - old(begun))
    {
      hide Shares, SharedFile, Wf, Create, Tied;
      BeginKeeps(View(), id, a);
      var parallel := a.streams > 1 && a.mode == "scp";
      var file: Option<nat> := None;
      if parallel { file := FindSharedFile(a.dst); }
      if file.None? && a.mode == "scp" {
        file := CreateFile(a.dst, if parallel then a.totalSize else 0);
      }
      AddTransfer(id, a, file);
    }

    method AddTransfer(id: Id, a: Announce, file: Option<nat>)
      requires Tied()
      modifies this`reassembly, this`begun, this`table, this`slot
      ensures Tied() && fresh(begun - old(begun))
      ensures table == old(table)[id := NewTransfer(a).(file := file)] && slot == SlotWithout(old(View()), id)
    {
      var r: FileReassembly := new FileReassembly(a, id);
      r.state := r.state.(file := file);
      Register(id, r);
    }

    lemma KeysAre()
      requires Tied()
      ensures table.Keys == reassembly.Keys
    {
    }

    method AcceptHeader(id: Id, index: int, final: bool, compressed: bool)
      requires Tied() && id in reassembly
      modifies this`pendingBinaryChunk, this`table, this`slot, begun
      ensures Tied() && id in old(table) && slot == Tabled(id)
      ensures table == old(table)[id := old(table)[id].(id := id, index := index, final := final, compressed := compressed)]
    {
      hide Tied;
      var r := Lookup(id);
      SetState(r, r.state.(id := id, index := index, final := final, compressed := compressed));
      SetPending(r);
    }

    /** A chunk's header: its payload comes in the next frame. */
    method HandleHeader(id: Id, index: int, final: bool, compressed: bool)
      requires Valid()
      modifies this`pendingBinaryChunk, this`answers, this`table, this`slot, begun
      ensures Valid() && View() == Header(old(View()), id, index, final, compressed)
    {
      hide Wf, Tied;
      HeaderKeeps(View(), id, index, final, compressed);
      KeysAre();
      if id in reassembly {
        AcceptHeader(id, index, final, compressed);
      } else {
        Send(id, false);
      }
    }

    /** A whole chunk, decoded from base64, of an old client. */
    method HandleLegacy(id: Id, data: Option<Bytes>, final: bool)
      requires Valid()
      modifies this`reassembly, this`disk, this`files, this`answers, this`table, this`slot, begun
      ensures Valid() && View() == Legacy(old(View()), id, data, final)
    {
      LegacyKeeps(View(), id, data, final);
      if id !in reassembly {
        hide Wf;
        Send(id, false);
      } else {
        var r := Lookup(id);
        assert WfTransfer(r.state, files);
        hide Wf, Tied, CloseFile, TakeChunk, Drop, Settle;
        if data.None? {
          Abandon(r, id);
        } else {
          Take(r, data.value, final);
        }
      }
    }

    /** The payload of the chunk whose header came last. */
    method HandleBinaryChunk(data: Bytes, gunzip: Gunzip)
      requires Valid()
      modifies this`reassembly, this`pendingBinaryChunk, this`disk, this`files, this`answers, this`table, this`slot, begun
      ensures Valid() && View() == Payload(old(View()), data, gunzip)
    {
      PayloadKeeps(View(), data, gunzip);
      ghost var was := View();
      var r := TakeSlot();
      if r != null {
        assert WfTransfer(r.state, files) && (InTable(r) ==> r.state.id == r.key);
        hide Wf, TakePayload, Drop, Settle;
        TakePending(r, data, gunzip);
      }
    }

    /** The payload goes, unpacked, to the transfer that the slot named. */
    method TakePending(r: FileReassembly, data: Bytes, gunzip: Gunzip)
      requires Tied() && r in begun && WfTransfer(r.state, files)
      requires !InTable(r) ==> pendingBinaryChunk != r
      modifies this`reassembly, this`disk, this`files, this`answers, r, this`table, this`slot
      ensures Tied()
      ensures var d := old(View()); var (s, t, outcome) := TakePayload(d.store, old(r.state), data, gunzip);
        View() == Settle(d.(store := s, table := if old(InTable(r)) then d.table[r.key := t] else d.table), old(r.state.id), outcome)
    {
      hide Tied, CloseFile, TakeChunk, Drop;
      var plain := data;
      if r.state.compressed {
        var unzipped := gunzip(data);
        if unzipped.None? {
          Abandon(r, r.state.id);
          return;
        }
        plain := unzipped.value;
      }
      TakePlain(r, plain);
    }

    method TakePlain(r: FileReassembly, plain: Bytes)
      requires Tied() && r in begun && WfTransfer(r.state, files)
      requires !InTable(r) ==> pendingBinaryChunk != r
      modifies this`reassembly, this`disk, this`files, this`answers, r, this`table, this`slot
      ensures Tied()
      ensures var d, was := old(View()), old(r.state); var (s, t, outcome) := TakeChunk(d.store, was.(compressed := false), plain, was.final);
        View() == Settle(d.(store := s, table := if old(InTable(r)) then d.table[r.key := t] else d.table), was.id, outcome)
    {
      hide Tied, TakeChunk, Drop, Settle;
      ghost var was, tabled := View(), InTable(r);
      var t := r.state.(compressed := false);
      SetState(r, t);
      ghost var (_, u, _) := TakeChunk(StoreView(), t, plain, t.final);
      assert tabled ==> table[r.key := u] == was.table[r.key := u];
      Take(r, plain, t.final);
    }

    /** The daemon's read loop, for one frame. */
    method Dispatch(frame: Q.Wire<Msg>, gunzip: Gunzip)
      requires Valid()
      modifies this, begun
      ensures Valid() && View() == Receive(old(View()), frame, gunzip)
      ensures fresh(begun - old(begun))
    {
      hide Wf, Begin, Payload, Header, Legacy;
      if frame.BinaryMsg? {
        HandleBinaryChunk(frame.data, gunzip);
      } else if frame.text.FileInit? && frame.text.announce.chunked {
        BeginChunkedTransfer(frame.text.id, frame.text.announce);
      } else if frame.text.ChunkHeader? {
        HandleHeader(frame.text.id, frame.text.index, frame.text.final, frame.text.compressed);
      } else if frame.text.LegacyChunk? {
        HandleLegacy(frame.text.id, frame.text.data, frame.text.final);
      }
    }
  }
}
