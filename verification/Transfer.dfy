/** The callbacks of sbdt_shell_file_transfer.c over its static array `transfer_info`, next to the
    array of scratch buffers.  Every callback does to the arrays what TransferModel says. */
module Transfer {
  import opened CInts
  import opened Links
  import opened SlotTables
  import opened ScratchBuffer
  import opened TransferModel
  import Crc

  const NO_INFO := FileInfo(false, 0, Terms(0, 0, 0, []), 0, 0, None)

  function InfoSlot(info: FileInfo): Slot<uint32, FileInfo> {
    if info.consumed then Used(info.fileId, info) else Free
  }

  function InfoSlots(infos: seq<FileInfo>): seq<Slot<uint32, FileInfo>> {
    seq(|infos|, i requires 0 <= i < |infos| => InfoSlot(infos[i]))
  }

  /** `SID_BULK_DATA_TRANSFER_ACTION_*`. */
  datatype Action = Accept | Reject

  /** `SID_BULK_DATA_TRANSFER_REJECT_REASON_GENERIC`, and whatever the caller left in the response. */
  const GENERIC: nat := 1
  const UNSET: nat := 0

  datatype Response = Response(status: Action, rejectReason: nat, scratch: Option<nat>, scratchSize: uint32)

  class TransferTable {
    const scratch: ScratchTable
    const infos: array<FileInfo>

    /** The room for a file descriptor, a constant of the SDK. */
    const descriptorMax: nat

    /** The one CRC record of the storage group. */
    var record: Option<bv32>

    ghost function Infos(): map<uint32, FileInfo>
      reads infos
    {
      Table(InfoSlots(infos[..]))
    }

    ghost function Abs(): Session
      reads this, infos, scratch.files
    {
      Session(Infos(), scratch.Buffers(), record)
    }

    /** What holds at boot and between sessions. */
    ghost predicate Idle()
      reads this, infos, scratch, scratch.files
    {
      && scratch.Owning() && infos.Length == scratch.files.Length
      && Distinct(InfoSlots(infos[..]))
    }

    ghost predicate Valid()
      reads this, infos, scratch, scratch.files
    {
      && Idle() && scratch.Valid() && Consistent(Abs(), infos.Length)
    }

    constructor (capacity: nat, descriptorMax: nat)
      requires capacity <= 255
      ensures this.descriptorMax == descriptorMax
      ensures Idle() && infos.Length == capacity && Infos() == map[] && scratch.live == {}
      ensures fresh(infos) && fresh(scratch) && fresh(scratch.files)
    {
      scratch := new ScratchTable(capacity);
      infos := new FileInfo[capacity](_ => NO_INFO);
      record := None;
      this.descriptorMax := descriptorMax;
      new;
      AllFree(InfoSlots(infos[..]));
    }

    /** `sbdt_event_init`: the scratch slots are emptied, the infos are not; the two tables agree
        exactly when no info was left over. */
    method StartSession()
      requires Idle()
      modifies scratch`live, scratch.files
      ensures Idle() && scratch.Valid() && scratch.live == {}
      ensures Abs() == Session(old(Infos()), map[], old(record))
      ensures Valid() <==> old(Infos()) == map[]
    {
      scratch.Deinit();
      scratch.Init();
      assert forall id :: id in Infos() ==> !InfoOwns(Abs(), id);
    }

    /** No info points at a freed buffer, and no two share one. */
    lemma ScratchLive(id: uint32)
      requires Valid() && id in Infos()
      ensures Infos()[id].scratch.Some? && Infos()[id].scratch.value in scratch.live
      ensures forall other :: other in Infos() && other != id ==> Infos()[other].scratch != Infos()[id].scratch
    {
      assert InfoOwns(Abs(), id);
      var i := SlotOf(scratch.Slots(), id);
      forall other | other in Infos() && other != id
        ensures Infos()[other].scratch != Infos()[id].scratch
      {
        assert InfoOwns(Abs(), other);
        var j := SlotOf(scratch.Slots(), other);
        assert scratch.files[i].buffer == Infos()[id].scratch && scratch.files[j].buffer == Infos()[other].scratch;
      }
    }

    /** `get_file_info_by_id`: the length of the array stands for the null pointer. */
    method GetFileInfoById(fileId: uint32) returns (i: nat)
      requires Distinct(InfoSlots(infos[..]))
      ensures i <= infos.Length
      ensures i < infos.Length <==> fileId in Infos()
      ensures i < infos.Length ==> infos[i] == Infos()[fileId] && infos[i].consumed && infos[i].fileId == fileId
    {
      ghost var slots := InfoSlots(infos[..]);
      i := 0;
      while i < infos.Length
        invariant i <= infos.Length
        invariant forall j :: 0 <= j < i ==> !(infos[j].fileId == fileId && infos[j].consumed)
      {
        if infos[i].fileId == fileId && infos[i].consumed {
          KeyAt(slots, i);
          return;
        }
        i := i + 1;
      }
      if fileId in Infos() {
        var j := SlotOf(slots, fileId);
      }
    }

    /** `allocate_new_info_instance`: the first info that is not consumed. */
    method AllocateNewInfo(fileId: uint32) returns (i: nat)
      requires Distinct(InfoSlots(infos[..])) && fileId !in Infos()
      modifies infos
      ensures i <= infos.Length && Distinct(InfoSlots(infos[..]))
      ensures i == infos.Length <==> |old(Infos())| == infos.Length
      ensures i < infos.Length ==> infos[i] == NO_INFO.(consumed := true, fileId := fileId)
      ensures i < infos.Length ==> Infos() == old(Infos())[fileId := infos[i]]
      ensures i == infos.Length ==> Infos() == old(Infos())
    {
      ghost var slots := InfoSlots(infos[..]);
      FullExactly(slots);
      i := 0;
      while i < infos.Length
        invariant i <= infos.Length && infos[..] == old(infos[..])
        invariant forall j :: 0 <= j < i ==> infos[j].consumed
      {
        if !infos[i].consumed {
          assert slots[i].Free?;
          var info := NO_INFO.(consumed := true, fileId := fileId);
          FillSlot(slots, i, fileId, info);
          infos[i] := info;
          assert InfoSlots(infos[..]) == slots[i := Used(fileId, info)];
          return;
        }
        i := i + 1;
      }
    }

    /** The rest of a new info, and the chunk fields of an old one: the id stays. */
    method SetInfo(i: nat, info: FileInfo)
      requires Distinct(InfoSlots(infos[..])) && i < infos.Length
      requires infos[i].consumed && info.consumed && info.fileId == infos[i].fileId
      modifies infos
      ensures Distinct(InfoSlots(infos[..])) && infos[i] == info
      ensures Infos() == old(Infos())[info.fileId := info]
    {
      ghost var slots := InfoSlots(infos[..]);
      SetSlot(slots, i, info);
      infos[i] := info;
      assert InfoSlots(infos[..]) == slots[i := Used(info.fileId, info)];
    }

    /** `release_info_instance`. */
    method ReleaseInfo(i: nat)
      requires Distinct(InfoSlots(infos[..])) && i <= infos.Length
      requires i < infos.Length ==> infos[i].consumed
      modifies infos
      ensures Distinct(InfoSlots(infos[..]))
      ensures i < infos.Length ==> Infos() == old(Infos()) - {old(infos[i]).fileId}
      ensures i == infos.Length ==> Infos() == old(Infos())
    {
      ghost var slots := InfoSlots(infos[..]);
      if i < infos.Length {
        ClearSlot(slots, i);
        infos[i] := NO_INFO;
        assert InfoSlots(infos[..]) == slots[i := Free];
      }
    }

    /** `on_sbdt_transfer_request`: ok is the answer of the allocator; the action and its reason are
        set on the command line.  A request is accepted exactly when its id is usable and has no
        slot, a slot is left and the allocation works; a repeated one ends its transfer and keeps
        the slot. */
    method OnTransferRequest(id: uint32, terms: Terms, inDfu: bool, ok: bool, configured: Action, reason: nat)
      returns (response: Response)
      requires Valid() && (inDfu || |terms.descriptor| < descriptorMax)
      modifies infos, scratch`live, scratch`nextBlock, scratch.files
      ensures Valid()
      ensures Abs() == Apply(old(Abs()), infos.Length, Request(id, terms, inDfu, response.scratch))
      ensures response.scratch.Some? <==>
                !inDfu && id != FILE_ID_UNUSED && id !in old(scratch.Buffers())
                && |old(scratch.Buffers())| < infos.Length && ok
      ensures !inDfu ==> (id in Infos() <==> response.scratch.Some?)
      ensures response.scratch.Some? ==>
                var info := Infos()[id];
                && info.terms == terms && info.scratch == response.scratch && info.consumed && info.fileId == id
                && info.fileOffset == 0 && info.crc == 0
      ensures Infos() - {id} == old(Infos()) - {id} && (inDfu ==> Infos() == old(Infos()))
      ensures response.scratch.Some? ==> response.scratch.value !in old(scratch.live)
      ensures response.scratchSize == (if response.scratch.Some? then terms.scratchSize else 0)
      ensures response.status == (if response.scratch.Some? then configured else Reject)
      ensures response.scratch.Some? ==> response.rejectReason == reason
      ensures inDfu ==> response.rejectReason == GENERIC
      ensures scratch.live == old(scratch.live) + (if response.scratch.Some? then {response.scratch.value} else {})
    {
      if inDfu {
        assert Apply(Abs(), infos.Length, Request(id, terms, inDfu, None)) == Abs();
        return Response(Reject, GENERIC, None, 0);
      }
      hide Consistent, Table, Distinct, InfoSlots, NewInfo, Owns, SlotsOf, Apply;
      ghost var before := Abs();
      var stored, buffer := Admit(id, terms, ok);
      RequestedInfo(before, infos.Length, id, terms, buffer);
      response := if buffer.Some? then Response(configured, reason, buffer, terms.scratchSize)
                  else Response(Reject, if stored then reason else UNSET, None, 0);
    }

    /** Both tables of a request: the info first, then its scratch buffer. */
    method Admit(id: uint32, terms: Terms, ok: bool) returns (stored: bool, buffer: Option<nat>)
      requires Valid()
      modifies infos, scratch`live, scratch`nextBlock, scratch.files
      ensures Valid()
      ensures Abs() == Apply(old(Abs()), infos.Length, Request(id, terms, false, buffer))
      ensures buffer.Some? <==> Taken(old(Abs()), infos.Length, id) && ok
      ensures buffer.Some? ==> stored && buffer.value !in old(scratch.live)
      ensures scratch.live == old(scratch.live) + (if buffer.Some? then {buffer.value} else {})
    {
      ghost var before := Abs();
      hide Apply, Consistent, Table, Distinct, InfoSlots, HasRoom, Owns, SlotsOf;
      var i := RegisterInfo(id, terms);
      if i == infos.Length {
        RequestRefused(before, infos.Length, id, terms);
        return false, None;
      }
      ghost var mid := Infos();
      stored := true;
      buffer := AttachBuffer(i, id, ok);
      RequestOutcome(before, infos.Length, id, terms, buffer, mid, Abs());
    }

    /** The scratch buffer of a new info; without one the info is released again. */
    method AttachBuffer(i: nat, id: uint32, ok: bool) returns (buffer: Option<nat>)
      requires Idle() && scratch.Valid()
      requires i < infos.Length && infos[i].consumed && infos[i].fileId == id
      modifies infos, scratch`live, scratch`nextBlock, scratch.files
      ensures Idle() && scratch.Valid()
      ensures buffer.Some? <==> HasRoom(old(scratch.Buffers()), infos.Length, id) && ok
      ensures scratch.Buffers() ==
                if HasRoom(old(scratch.Buffers()), infos.Length, id) then old(scratch.Buffers())[id := buffer]
                else old(scratch.Buffers())
      ensures Infos() == if buffer.Some? then old(Infos())[id := old(infos[i]).(scratch := buffer)]
                         else old(Infos()) - {id}
      ensures buffer.Some? ==> buffer.value !in old(scratch.live)
      ensures scratch.live == old(scratch.live) + (if buffer.Some? then {buffer.value} else {})
    {
      hide Table, Distinct, InfoSlots;
      buffer := scratch.Create(id, ok);
      if buffer.None? {
        ReleaseInfo(i);
      } else {
        SetInfo(i, infos[i].(scratch := buffer));
      }
    }

    /** The info of a new request, in place of an earlier one under the same id. */
    method RegisterInfo(id: uint32, terms: Terms) returns (i: nat)
      requires Distinct(InfoSlots(infos[..]))
      modifies infos
      ensures i <= infos.Length && Distinct(InfoSlots(infos[..]))
      ensures i == infos.Length <==> |old(Infos()) - {id}| == infos.Length
      ensures i == infos.Length ==> Infos() == old(Infos()) - {id}
      ensures i < infos.Length ==>
                && infos[i] == FileInfo(true, id, terms, 0, 0, None)
                && Infos() == old(Infos())[id := infos[i]]
    {
      ghost var before := Infos();
      hide Table, Distinct, InfoSlots;
      i := GetFileInfoById(id);
      ReleaseInfo(i);
      assert Infos() == before - {id};
      i := AllocateNewInfo(id);
      if i < infos.Length {
        SetInfo(i, infos[i].(terms := terms));
        assert Infos() == before[id := infos[i]];
      }
    }

    /** `on_release_scratch_buffer`. */
    method OnReleaseScratchBuffer(id: uint32)
      requires Valid()
      modifies infos, scratch`live, scratch.files
      ensures Valid() && Abs() == Apply(old(Abs()), infos.Length, Release(id))
      ensures Infos() == old(Infos()) - {id} && scratch.Buffers() == old(scratch.Buffers()) - {id}
      ensures scratch.live == old(scratch.live) -
                if id in old(scratch.Buffers()) && old(scratch.Buffers())[id].Some?
                then {old(scratch.Buffers())[id].value} else {}
    {
      ghost var before := Abs();
      ApplyKeeps(before, infos.Length, Release(id));
      assert id in before.infos ==> InfoOwns(before, id);
      hide Consistent, Table, Distinct, InfoSlots, Owns, SlotsOf;
      var i := GetFileInfoById(id);
      ReleaseInfo(i);
      scratch.Remove(id);
    }

    /** `on_sbdt_data_received`: the report is the CRC logged as that of the received file.  The
        timer that gives the bytes back to the stack is armed exactly for a chunk that was handled
        and while the heap has room for its context. */
    method OnDataReceived(id: uint32, offset: uint32, bytes: seq<bv8>, inDfu: bool, storage: Storage, memory: bool)
      returns (report: Option<bv32>, armed: bool)
      requires Valid()
      modifies this`record, infos
      ensures Valid() && Abs() == Apply(old(Abs()), infos.Length, Data(id, offset, bytes, inDfu, storage))
      ensures report == Report(old(Abs()), Data(id, offset, bytes, inDfu, storage))
      ensures inDfu || id !in old(Infos()) ==> Abs() == old(Abs()) && report.None?
      ensures !inDfu && id in old(Infos()) ==>
                var found := if offset == 0 && storage.deleted then None else old(record);
                var crc := Crc.Update(if storage.read && found.Some? then found.value else 0, bytes);
                && Infos() == old(Infos())[id := old(Infos())[id].(fileOffset := offset, crc := crc)]
                && record == (if storage.written then Some(crc) else found)
                && report == if old(Infos())[id].terms.fileSize == ToUint32(offset + |bytes|) then Some(crc) else None
      ensures armed <==> !inDfu && id in old(Infos()) && memory
    {
      ghost var before, e := Abs(), Data(id, offset, bytes, inDfu, storage);
      hide Consistent, Table, Distinct, InfoSlots, Owns, SlotsOf, Crc.Update;
      ApplyKeeps(before, infos.Length, e);
      if inDfu {
        return None, false;
      }
      var i := GetFileInfoById(id);
      if i == infos.Length {
        return None, false;
      }
      if offset == 0 && storage.deleted {
        record := None;
      }
      var crc: bv32 := 0;
      if storage.read && record.Some? {
        crc := record.value;
      }
      crc := Crc.Update(crc, bytes);
      assert crc == NewCrc(before, e);
      SetInfo(i, infos[i].(fileOffset := offset, crc := crc));
      if infos[i].terms.fileSize == ToUint32(infos[i].fileOffset + |bytes|) {
        report := Some(infos[i].crc);
      } else {
        report := None;
      }
      if storage.written {
        record := Some(infos[i].crc);
      }
      armed := memory;
    }
  }

  /** The infos can only be full when the slots are. */
  lemma RequestRefused(s: Session, n: nat, id: uint32, terms: Terms)
    requires Consistent(s, n) && |s.infos - {id}| == n
    ensures var t := s.(infos := s.infos - {id});
            t == Apply(s, n, Request(id, terms, false, None)) && Consistent(t, n)
    ensures !Taken(s, n, id)
  {
    ApplyKeeps(s, n, Request(id, terms, false, None));
    KeysFit(s, n);
    assert id in s.infos ==> |s.infos - {id}| == |s.infos| - 1;
    assert s.infos - {id} == s.infos;
  }

  /** An info that was set up before its buffer is the info of the request. */
  lemma RequestOutcome(s: Session, n: nat, id: uint32, terms: Terms, block: Option<nat>,
                       mid: map<uint32, FileInfo>, t: Session)
    requires Consistent(s, n) && (block.Some? ==> Taken(s, n, id))
    requires mid == s.infos[id := NewInfo(id, terms, None)]
    requires t.infos == if block.Some? then mid[id := NewInfo(id, terms, None).(scratch := block)] else mid - {id}
    requires t.buffers == (if Taken(s, n, id) then s.buffers[id := block] else s.buffers) && t.record == s.record
    ensures t == Apply(s, n, Request(id, terms, false, block)) && Consistent(t, n)
  {
    ApplyKeeps(s, n, Request(id, terms, false, block));
    Overwritten(s.infos, id, NewInfo(id, terms, None), NewInfo(id, terms, block));
    hide Consistent, HasRoom;
  }

  /** A request leaves the infos of all other ids alone, and one that gets a buffer has its own terms. */
  lemma RequestedInfo(s: Session, n: nat, id: uint32, terms: Terms, block: Option<nat>)
    ensures var t := Apply(s, n, Request(id, terms, false, block));
            && t.infos - {id} == s.infos - {id}
            && (id in t.infos ==> block.Some? && Taken(s, n, id))
            && (block.Some? && Taken(s, n, id) ==>
                  id in t.infos && t.infos[id] == FileInfo(true, id, terms, 0, 0, block))
  {
  }

  lemma Overwritten<K, V>(m: map<K, V>, k: K, v: V, w: V)
    ensures m[k := v][k := w] == m[k := w] && m[k := v] - {k} == m - {k}
  {
  }

  /** There are never more infos than taken scratch slots. */
  lemma KeysFit(s: Session, n: nat)
    requires Consistent(s, n)
    ensures |s.infos| <= |s.buffers| <= n
  {
    forall id | id in s.infos
      ensures id in s.buffers
    {
      assert InfoOwns(s, id);
    }
    SubsetSize(s.infos.Keys, s.buffers.Keys);
  }
}
