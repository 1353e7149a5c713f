/** One bulk data transfer session of sbdt_shell_file_transfer.c as a state machine over its two
    tables and the stored CRC record. */
module TransferModel {
  import opened CInts
  import opened Links
  import opened ScratchBuffer
  import Crc

  /** What a transfer request says of its file. */
  datatype Terms = Terms(fileSize: uint32, blockSize: uint32, scratchSize: uint32, descriptor: seq<bv8>)

  /** `struct sbdt_file_info`. */
  datatype FileInfo = FileInfo(
    consumed: bool,
    fileId: uint32,
    terms: Terms,
    fileOffset: uint32,
    crc: bv32,
    scratch: Option<nat>)

  /** The consumed infos, the scratch slots, and the one CRC record kept in storage. */
  datatype Session = Session(
    infos: map<uint32, FileInfo>,
    buffers: map<uint32, Option<nat>>,
    record: Option<bv32>)

  /** What the storage answers to the delete, the read and the write of one chunk. */
  datatype Storage = Storage(deleted: bool, read: bool, written: bool)

  /** A callback of the bulk data stack, with what the heap, the storage and the update service
      answer while it runs. */
  datatype Event =
    | Request(id: uint32, terms: Terms, inDfu: bool, block: Option<nat>)
    | Release(id: uint32)
    | Data(id: uint32, offset: uint32, bytes: seq<bv8>, inDfu: bool, storage: Storage)

  // ---------------------------------------------------------------- the callbacks

  function NewInfo(id: uint32, terms: Terms, block: Option<nat>): FileInfo {
    FileInfo(true, id, terms, 0, 0, block)
  }

  /** The request gets a scratch slot. */
  predicate Taken(s: Session, n: nat, id: uint32) {
    HasRoom(s.buffers, n, id)
  }

  predicate HasRoom(buffers: map<uint32, Option<nat>>, n: nat, id: uint32) {
    id != FILE_ID_UNUSED && id !in buffers && |buffers| < n
  }

  predicate Handled(s: Session, e: Event)
    requires e.Data?
  {
    !e.inDfu && e.id in s.infos
  }

  /** The record when the chunk is read: a chunk at offset zero deletes it first. */
  function RecordRead(s: Session, e: Event): Option<bv32>
    requires e.Data?
  {
    if e.offset == 0 && e.storage.deleted then None else s.record
  }

  /** The CRC that the chunk continues: a record that is missing or unreadable counts as zero. */
  function Loaded(s: Session, e: Event): bv32
    requires e.Data?
  {
    var record := RecordRead(s, e);
    if e.storage.read && record.Some? then record.value else 0
  }

  function NewCrc(s: Session, e: Event): bv32
    requires e.Data?
  {
    Crc.Update(Loaded(s, e), e.bytes)
  }

  function Apply(s: Session, n: nat, e: Event): Session {
    match e
    case Request(id, terms, inDfu, block) =>
      if inDfu then s
      else if Taken(s, n, id) then
        Session(if block.Some? then s.infos[id := NewInfo(id, terms, block)] else s.infos - {id},
                s.buffers[id := block], s.record)
      else s.(infos := s.infos - {id})
    case Release(id) =>
      s.(infos := s.infos - {id}, buffers := s.buffers - {id})
    case Data(id, offset, _, _, storage) =>
      if !Handled(s, e) then s
      else
        var crc := NewCrc(s, e);
        Session(s.infos[id := s.infos[id].(fileOffset := offset, crc := crc)], s.buffers,
                if storage.written then Some(crc) else RecordRead(s, e))
  }

  /** The CRC reported as that of the received file; the end is computed in 32 bits. */
  function Report(s: Session, e: Event): Option<bv32> {
    if e.Data? && Handled(s, e) && s.infos[e.id].terms.fileSize == ToUint32(e.offset + |e.bytes|)
    then Some(NewCrc(s, e))
    else None
  }

  function Run(s: Session, n: nat, events: seq<Event>): Session {
    if events == [] then s else Apply(Run(s, n, events[..|events| - 1]), n, events[|events| - 1])
  }

  // ---------------------------------------------------------------- the two tables

  /** Every info is stored under its own id and owns the scratch buffer of that id. */
  ghost predicate Consistent(s: Session, n: nat) {
    && |s.buffers| <= n && FILE_ID_UNUSED !in s.buffers
    && forall id :: id in s.infos ==> InfoOwns(s, id)
  }

  ghost predicate InfoOwns(s: Session, id: uint32)
    requires id in s.infos
  {
    && s.infos[id].consumed && s.infos[id].fileId == id
    && s.infos[id].scratch.Some?
    && id in s.buffers && s.buffers[id] == s.infos[id].scratch
  }

  /** Every callback keeps the two tables consistent, whatever the heap and the storage answer. */
  lemma ApplyKeeps(s: Session, n: nat, e: Event)
    requires Consistent(s, n)
    ensures Consistent(Apply(s, n, e), n)
  {
    var t := Apply(s, n, e);
    assert e.Release? ==> t.buffers.Keys <= s.buffers.Keys;
    if e.Release? {
      SubsetSize(t.buffers.Keys, s.buffers.Keys);
    }
    forall id | id in t.infos
      ensures InfoOwns(t, id)
    {
      assert id in s.infos ==> InfoOwns(s, id);
    }
  }

  lemma {:induction false} SubsetSize<T>(a: set<T>, b: set<T>)
    requires a <= b
    ensures |a| <= |b|
  {
    if a != {} {
      var x :| x in a;
      SubsetSize(a - {x}, b - {x});
    }
  }

  /** Every run of a session that started with both tables empty keeps them consistent. */
  lemma {:induction false} SessionConsistent(n: nat, record: Option<bv32>, events: seq<Event>)
    ensures Consistent(Run(Session(map[], map[], record), n, events), n)
  {
    if events != [] {
      SessionConsistent(n, record, events[..|events| - 1]);
      ApplyKeeps(Run(Session(map[], map[], record), n, events[..|events| - 1]), n, events[|events| - 1]);
    }
  }

  /** The event may end the transfer of the id. */
  predicate Ends(e: Event, id: uint32) {
    e.id == id && (e.Release? || (e.Request? && !e.inDfu))
  }

  /** A transfer keeps its terms and its buffer until it is released or requested again, whatever
      other transfers do. */
  lemma {:induction false} TransferLives(s: Session, n: nat, id: uint32, events: seq<Event>)
    requires id in s.infos && id in s.buffers
    requires forall e :: e in events ==> !Ends(e, id)
    ensures var t := Run(s, n, events);
            && id in t.infos && id in t.buffers && t.buffers[id] == s.buffers[id]
            && t.infos[id].scratch == s.infos[id].scratch && t.infos[id].terms == s.infos[id].terms
  {
    if events != [] {
      var init, e := events[..|events| - 1], events[|events| - 1];
      TransferLives(s, n, id, init);
      assert e in events && !Ends(e, id);
    }
  }

  /** A slot without an info, left by a failed allocation or a repeated request, refuses its id
      until the stack releases it. */
  lemma {:induction false} OrphanRefuses(s: Session, n: nat, id: uint32, events: seq<Event>)
    requires id in s.buffers && id !in s.infos
    requires Release(id) !in events
    ensures var t := Run(s, n, events);
            id !in t.infos && id in t.buffers && t.buffers[id] == s.buffers[id]
  {
    if events != [] {
      var init, e := events[..|events| - 1], events[|events| - 1];
      OrphanRefuses(s, n, id, init);
      assert e in events && e != Release(id);
    }
  }

  // ---------------------------------------------------------------- the CRC of a file

  /** The bytes delivered to the transfer. */
  function Bytes(events: seq<Event>, id: uint32): seq<bv8> {
    if events == [] then []
    else
      var e := events[|events| - 1];
      Bytes(events[..|events| - 1], id) + if e.Data? && e.id == id then e.bytes else []
  }

  /** The chunks of the transfer arrive in order, from its start to now; other transfers do as they
      please. */
  ghost predicate InOrder(events: seq<Event>, id: uint32) {
    if events == [] then true
    else
      var e, init := events[|events| - 1], events[..|events| - 1];
      && InOrder(init, id) && !Ends(e, id)
      && (e.Data? && e.id == id ==> !e.inDfu && e.offset == |Bytes(init, id)|)
  }

  /** The storage does what it is asked for. */
  ghost predicate StorageWorks(events: seq<Event>) {
    forall e :: e in events && e.Data? ==> e.storage == Storage(true, true, true)
  }

  lemma {:induction false} InOrderEndsNothing(events: seq<Event>, id: uint32)
    requires InOrder(events, id)
    ensures forall e :: e in events ==> !Ends(e, id)
  {
    if events != [] {
      InOrderEndsNothing(events[..|events| - 1], id);
    }
  }

  /** The bytes handled since the last chunk at offset zero, of whatever transfer. */
  function Stream(s: Session, n: nat, events: seq<Event>): seq<bv8> {
    if events == [] then []
    else
      var e, init := events[|events| - 1], events[..|events| - 1];
      if e.Data? && Handled(Run(s, n, init), e) then
        (if e.offset == 0 then [] else Stream(s, n, init)) + e.bytes
      else Stream(s, n, init)
  }

  /** Some chunk at offset zero was handled. */
  ghost predicate Started(s: Session, n: nat, events: seq<Event>) {
    events != [] &&
    var e, init := events[|events| - 1], events[..|events| - 1];
    Started(s, n, init) || (e.Data? && e.offset == 0 && Handled(Run(s, n, init), e))
  }

  /** Whatever the storage answers: the CRC after a chunk is that of the bytes up to there exactly if
      the value read is the CRC of the bytes before. */
  lemma ChunkExactly(s: Session, e: Event, before: seq<bv8>)
    requires e.Data?
    ensures NewCrc(s, e) == Crc.Update(0, before + e.bytes) <==> Loaded(s, e) == Crc.Update(0, before)
  {
    hide Crc.Update, Loaded;
    Crc.UpdateConcat(0, before, e.bytes);
    if NewCrc(s, e) == Crc.Update(0, before + e.bytes) {
      Crc.UpdateInjective(Loaded(s, e), Crc.Update(0, before), e.bytes);
    }
  }

  /** The one record is the CRC of that stream. */
  lemma {:induction false} RecordIsStream(s: Session, n: nat, events: seq<Event>)
    requires StorageWorks(events)
    ensures Started(s, n, events) ==> Run(s, n, events).record == Some(Crc.Update(0, Stream(s, n, events)))
  {
    if events != [] {
      var init, e := events[..|events| - 1], events[|events| - 1];
      RecordIsStream(s, n, init);
      assert e in events;
      if e.Data? && Handled(Run(s, n, init), e) && (e.offset == 0 || Started(s, n, init)) {
        var t, before := Run(s, n, init), if e.offset == 0 then [] else Stream(s, n, init);
        assert Loaded(t, e) == Crc.Update(0, before);
        ChunkExactly(t, e, before);
      }
    }
  }

  lemma {:induction false} OwnBytesStart(s: Session, n: nat, id: uint32, events: seq<Event>)
    requires id in s.infos && id in s.buffers && InOrder(events, id)
    ensures Bytes(events, id) != [] ==> Started(s, n, events)
  {
    if events != [] {
      var init, e := events[..|events| - 1], events[|events| - 1];
      OwnBytesStart(s, n, id, init);
      InOrderEndsNothing(init, id);
      TransferLives(s, n, id, init);
    }
  }

  lemma LastChunk(id: uint32, init: seq<Event>, e: Event)
    requires InOrder(init + [e], id) && e.Data? && e.id == id
    ensures InOrder(init, id) && Bytes(init + [e], id) == Bytes(init, id) + e.bytes
    ensures !e.inDfu && e.offset == |Bytes(init, id)|
    ensures StorageWorks(init + [e]) ==> StorageWorks(init) && e.storage == Storage(true, true, true)
  {
    var events := init + [e];
    assert events[..|events| - 1] == init && e in events;
    assert forall d :: d in init ==> d in events;
  }

  /** For every interleaving of transfers and whatever the storage answers: the chunk that completes a
      file reports a CRC, and it is the CRC-32 of the file exactly if the value read with that chunk
      is the CRC-32 of the bytes before it. */
  lemma ReportsAnyStorage(s: Session, n: nat, id: uint32, init: seq<Event>, e: Event)
    requires id in s.infos && id in s.buffers
    requires InOrder(init + [e], id) && e.Data? && e.id == id
    requires |Bytes(init + [e], id)| <= s.infos[id].terms.fileSize
    ensures var t, file := Run(s, n, init), Bytes(init + [e], id);
            && (Report(t, e).Some? <==> |file| == s.infos[id].terms.fileSize)
            && (Report(t, e).Some? ==>
                  (Crc.Bits(Report(t, e).value, 32) == Crc.Crc32(file) <==>
                     Crc.Bits(Loaded(t, e), 32) == Crc.Crc32(Bytes(init, id))))
  {
    hide Crc.Update, Crc.Crc32, Crc.Bits, Run, InOrder, NewCrc, Loaded, Apply, Bytes, Ends, StorageWorks;
    LastChunk(id, init, e);
    InOrderEndsNothing(init, id);
    TransferLives(s, n, id, init);
    var t, file, before := Run(s, n, init), Bytes(init + [e], id), Bytes(init, id);
    ChunkExactly(t, e, before);
    Crc.UpdateIsCrc32(file);
    Crc.UpdateIsCrc32(before);
    Crc.BitsInjective(NewCrc(t, e), Crc.Update(0, file));
    Crc.BitsInjective(Loaded(t, e), Crc.Update(0, before));
  }

  /** With working storage the value read is the CRC of the stream, or of nothing at the start of a
      file. */
  lemma LoadedIsStream(s: Session, n: nat, id: uint32, init: seq<Event>, e: Event)
    requires id in s.infos && id in s.buffers
    requires InOrder(init + [e], id) && StorageWorks(init + [e]) && e.Data? && e.id == id
    ensures Loaded(Run(s, n, init), e) == Crc.Update(0, if Bytes(init, id) == [] then [] else Stream(s, n, init))
  {
    hide Run, InOrder, Bytes, Ends, Stream, StorageWorks;
    LastChunk(id, init, e);
    RecordIsStream(s, n, init);
    OwnBytesStart(s, n, id, init);
  }

  /** With working storage the CRC after the next chunk of a file is that of the file so far exactly
      when nothing of it came before, or the stream in the record has the same CRC as the bytes
      before. */
  lemma NextCrcExactly(s: Session, n: nat, id: uint32, init: seq<Event>, e: Event)
    requires id in s.infos && id in s.buffers
    requires InOrder(init + [e], id) && StorageWorks(init + [e]) && e.Data? && e.id == id
    ensures NewCrc(Run(s, n, init), e) == Crc.Update(0, Bytes(init + [e], id)) <==>
              Bytes(init, id) == [] || Crc.Update(0, Stream(s, n, init)) == Crc.Update(0, Bytes(init, id))
  {
    hide Crc.Update, Run, InOrder, NewCrc, Loaded, Bytes, Ends, Stream, StorageWorks;
    LastChunk(id, init, e);
    LoadedIsStream(s, n, id, init, e);
    ChunkExactly(Run(s, n, init), e, Bytes(init, id));
  }

  /** The completing chunk reports a CRC, and it is the CRC-32 of the file exactly under that
      condition. */
  lemma ReportsFileCrcExactly(s: Session, n: nat, id: uint32, init: seq<Event>, e: Event)
    requires id in s.infos && id in s.buffers
    requires InOrder(init + [e], id) && StorageWorks(init + [e]) && e.Data? && e.id == id
    requires |Bytes(init + [e], id)| <= s.infos[id].terms.fileSize
    ensures var file, report := Bytes(init + [e], id), Report(Run(s, n, init), e);
            && (report.Some? <==> |file| == s.infos[id].terms.fileSize)
            && (report.Some? ==>
                  (Crc.Bits(report.value, 32) == Crc.Crc32(file) <==>
                     Bytes(init, id) == [] || Crc.Crc32(Stream(s, n, init)) == Crc.Crc32(Bytes(init, id))))
  {
    hide Crc.Update, Crc.Crc32, Crc.Bits, Run, InOrder, NewCrc, Loaded, Apply, Bytes, Ends, Stream, StorageWorks;
    ReportsAnyStorage(s, n, id, init, e);
    LoadedIsStream(s, n, id, init, e);
    Crc.UpdateIsCrc32(if Bytes(init, id) == [] then [] else Stream(s, n, init));
  }

  // ---------------------------------------------------------------- one transfer, two transfers

  lemma {:induction false} AloneStream(s: Session, n: nat, id: uint32, events: seq<Event>)
    requires id in s.infos && id in s.buffers && InOrder(events, id)
    requires forall e :: e in events && e.Data? ==> e.id == id
    ensures Stream(s, n, events) == Bytes(events, id)
  {
    if events != [] {
      var init, e := events[..|events| - 1], events[|events| - 1];
      AloneStream(s, n, id, init);
      InOrderEndsNothing(init, id);
      TransferLives(s, n, id, init);
      assert e in events;
      assert e.Data? && e.offset == 0 ==> Bytes(init, id) == [];
    }
  }

  /** However a file is split into chunks, while no other transfer receives data: a CRC is reported
      exactly with the chunk that completes the file, and it is the CRC-32 of the whole file. */
  lemma ReportsFileCrc(s: Session, n: nat, id: uint32, init: seq<Event>, e: Event)
    requires id in s.infos && id in s.buffers
    requires InOrder(init + [e], id) && StorageWorks(init + [e]) && e.Data? && e.id == id
    requires forall d :: d in init && d.Data? ==> d.id == id
    requires |Bytes(init + [e], id)| <= s.infos[id].terms.fileSize
    ensures var file, report := Bytes(init + [e], id), Report(Run(s, n, init), e);
            && (report.Some? <==> |file| == s.infos[id].terms.fileSize)
            && (report.Some? ==> Crc.Bits(report.value, 32) == Crc.Crc32(file))
  {
    LastChunk(id, init, e);
    AloneStream(s, n, id, init);
    ReportsFileCrcExactly(s, n, id, init, e);
  }

  /** From the request on: a request that gets its buffer, and then its file in order.  The chunk that
      reaches the size of that request reports a CRC, no earlier one does, and it is the CRC-32 of the
      file exactly if the value read with that chunk is the CRC-32 of the bytes before. */
  lemma RequestReports(s: Session, n: nat, id: uint32, terms: Terms, block: nat, init: seq<Event>, e: Event)
    requires id != FILE_ID_UNUSED && id !in s.buffers && |s.buffers| < n
    requires InOrder(init + [e], id) && e.Data? && e.id == id
    requires |Bytes(init + [e], id)| <= terms.fileSize
    ensures var started := Apply(s, n, Request(id, terms, false, Some(block)));
            var t, file := Run(started, n, init), Bytes(init + [e], id);
            && (Report(t, e).Some? <==> |file| == terms.fileSize)
            && (Report(t, e).Some? ==>
                  (Crc.Bits(Report(t, e).value, 32) == Crc.Crc32(file) <==>
                     Crc.Bits(Loaded(t, e), 32) == Crc.Crc32(Bytes(init, id))))
  {
    hide Run, InOrder, Bytes, Report, Loaded, Crc.Bits, Crc.Crc32;
    ReportsAnyStorage(Apply(s, n, Request(id, terms, false, Some(block))), n, id, init, e);
  }

  /** With working storage, and no other transfer that receives data meanwhile, the CRC reported for a
      requested file is its CRC-32. */
  lemma RequestReportsFile(s: Session, n: nat, id: uint32, terms: Terms, block: nat, init: seq<Event>, e: Event)
    requires id != FILE_ID_UNUSED && id !in s.buffers && |s.buffers| < n
    requires InOrder(init + [e], id) && StorageWorks(init + [e]) && e.Data? && e.id == id
    requires forall d :: d in init && d.Data? ==> d.id == id
    requires |Bytes(init + [e], id)| <= terms.fileSize
    ensures var started := Apply(s, n, Request(id, terms, false, Some(block)));
            var file, report := Bytes(init + [e], id), Report(Run(started, n, init), e);
            && (report.Some? <==> |file| == terms.fileSize)
            && (report.Some? ==> Crc.Bits(report.value, 32) == Crc.Crc32(file))
  {
    hide Run, InOrder, Bytes, Report, StorageWorks, Crc.Bits, Crc.Crc32;
    ReportsFileCrc(Apply(s, n, Request(id, terms, false, Some(block))), n, id, init, e);
  }

  /** When another transfer delivers its first chunk between two chunks of a file, the CRC reported
      for the file is right exactly when the two first chunks have the same CRC. */
  lemma SharedRecordExactly(s: Session, n: nat, a: uint32, b: uint32,
                            first: seq<bv8>, other: seq<bv8>, rest: seq<bv8>)
    requires a in s.infos && a in s.buffers && b in s.infos && a != b && first != []
    requires |first| + |rest| == s.infos[a].terms.fileSize
    ensures var works := Storage(true, true, true);
            var events := [Data(a, 0, first, false, works), Data(b, 0, other, false, works)];
            var report := Report(Run(s, n, events), Data(a, |first|, rest, false, works));
            && report.Some?
            && (Crc.Bits(report.value, 32) == Crc.Crc32(first + rest) <==> Crc.Crc32(other) == Crc.Crc32(first))
  {
    hide Crc.Update, Crc.Crc32, Crc.Bits;
    var works := Storage(true, true, true);
    var one, two := Data(a, 0, first, false, works), Data(b, 0, other, false, works);
    var last := Data(a, |first|, rest, false, works);
    TwoChunks(s, n, a, one, two, last);
    hide Run, Stream, Bytes, InOrder, StorageWorks;
    ReportsFileCrcExactly(s, n, a, [one, two], last);
  }

  lemma TwoChunks(s: Session, n: nat, a: uint32, one: Event, two: Event, last: Event)
    requires one.Data? && one.id == a && one.offset == 0 && !one.inDfu && one.storage == Storage(true, true, true)
    requires two.Data? && two.id in s.infos && two.id != a && two.offset == 0 && !two.inDfu
    requires last.Data? && two.storage == last.storage == Storage(true, true, true)
    requires last.id == a && !last.inDfu && last.offset == |one.bytes|
    ensures InOrder([one, two] + [last], a) && StorageWorks([one, two] + [last])
    ensures Bytes([one, two], a) == one.bytes && Bytes([one, two] + [last], a) == one.bytes + last.bytes
    ensures Stream(s, n, [one, two]) == two.bytes
  {
    assert [one][..0] == [] && [one, two][..1] == [one] && ([one, two] + [last])[..2] == [one, two];
    assert Bytes([one], a) == Bytes([], a) + one.bytes;
    assert InOrder([], a) && !Ends(one, a) && InOrder([one], a);
    assert !Ends(two, a) && InOrder([one, two], a);
    assert Bytes([one, two], a) == one.bytes + [];
    assert Run(s, n, [one]) == Apply(Run(s, n, []), n, one);
  }
}
