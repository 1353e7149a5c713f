/** The scratch buffers of scratch_buffer.c: a fixed array of files that is a partial map from
    file ids to heap buffers. */
module ScratchBuffer {
  import opened CInts
  import opened Links
  import opened SlotTables

  const FILE_ID_UNUSED: uint32 := UINT32_MAX

  /** `file_ctx_t`; a buffer is named by its heap block. */
  datatype FileCtx = FileCtx(id: uint32, buffer: Option<nat>)

  function SlotOfFile(f: FileCtx): Slot<uint32, Option<nat>> {
    if f.id == FILE_ID_UNUSED then Free else Used(f.id, f.buffer)
  }

  function SlotsOf(fs: seq<FileCtx>): seq<Slot<uint32, Option<nat>>> {
    seq(|fs|, i requires 0 <= i < |fs| => SlotOfFile(fs[i]))
  }

  /** The buffers held are exactly the live blocks, each held once; unused files hold none. */
  ghost predicate Owns(fs: seq<FileCtx>, live: set<nat>, next: nat) {
    && (forall i :: 0 <= i < |fs| && fs[i].buffer.Some? ==>
          fs[i].buffer.value in live && fs[i].id != FILE_ID_UNUSED)
    && (forall i, j :: 0 <= i < j < |fs| && fs[i].buffer.Some? ==> fs[i].buffer != fs[j].buffer)
    && (forall b :: b in live ==> b < next && Holder(fs, b))
  }

  ghost predicate Holder(fs: seq<FileCtx>, b: nat) {
    exists i :: 0 <= i < |fs| && fs[i].buffer == Some(b)
  }

  lemma OwnsTake(fs: seq<FileCtx>, i: nat, id: uint32, ok: bool, live: set<nat>, next: nat)
    requires Owns(fs, live, next) && i < |fs| && fs[i].buffer.None? && id != FILE_ID_UNUSED
    ensures Owns(fs[i := FileCtx(id, if ok then Some(next) else None)],
                 if ok then live + {next} else live, if ok then next + 1 else next)
  {
    var t := fs[i := FileCtx(id, if ok then Some(next) else None)];
    forall b | b in live
      ensures Holder(t, b)
    {
      var j :| 0 <= j < |fs| && fs[j].buffer == Some(b);
      assert t[j].buffer == Some(b);
    }
    assert ok ==> t[i].buffer == Some(next);
  }

  lemma OwnsDrop(fs: seq<FileCtx>, i: nat, live: set<nat>, next: nat)
    requires Owns(fs, live, next) && i < |fs|
    ensures Owns(fs[i := FileCtx(FILE_ID_UNUSED, None)],
                 live - if fs[i].buffer.Some? then {fs[i].buffer.value} else {}, next)
  {
    var t := fs[i := FileCtx(FILE_ID_UNUSED, None)];
    forall b | b in live && fs[i].buffer != Some(b)
      ensures Holder(t, b)
    {
      var j :| 0 <= j < |fs| && fs[j].buffer == Some(b);
      assert t[j].buffer == Some(b);
    }
  }

  class ScratchTable {
    const files: array<FileCtx>

    /** The heap blocks held by scratch buffers, and the first block never used. */
    ghost var live: set<nat>
    var nextBlock: nat

    ghost function Slots(): seq<Slot<uint32, Option<nat>>>
      reads files
    {
      SlotsOf(files[..])
    }

    /** The map that the array stands for. */
    ghost function Buffers(): map<uint32, Option<nat>>
      reads files
    {
      Table(Slots())
    }

    ghost predicate Owning()
      reads this, files
    {
      files.Length <= 255 && Owns(files[..], live, nextBlock)
    }

    ghost predicate Valid()
      reads this, files
    {
      Owning() && Distinct(Slots())
    }

    /** The statics at boot: every id is zero and every buffer null. */
    constructor (capacity: nat)
      requires capacity <= 255
      ensures Owning() && files.Length == capacity && live == {} && fresh(files)
    {
      files := new FileCtx[capacity](_ => FileCtx(0, None));
      live, nextBlock := {}, 0;
    }

    /** `scratch_buffer_init`: marks every file unused and frees nothing, so the table is sound
        afterwards exactly when no buffer was held. */
    method Init()
      requires Owning()
      modifies files
      ensures Buffers() == map[] && live == old(live)
      ensures Valid() <==> live == {}
    {
      for i := 0 to files.Length
        invariant forall j :: 0 <= j < i ==> files[j] == FileCtx(FILE_ID_UNUSED, old(files[j]).buffer)
        invariant forall j :: i <= j < files.Length ==> files[j] == old(files[j])
      {
        files[i] := files[i].(id := FILE_ID_UNUSED);
      }
      AllFree(Slots());
      if b :| b in live {
        assert Holder(old(files[..]), b);
        var i :| 0 <= i < |old(files[..])| && old(files[..])[i].buffer == Some(b);
        assert files[..][i].buffer == Some(b);
      }
    }

    /** `scratch_bufer_deinit`: frees every buffer and marks every file unused. */
    method Deinit()
      requires Owning()
      modifies this`live, files
      ensures Valid() && Buffers() == map[] && live == {}
      ensures forall i :: 0 <= i < files.Length ==> files[i].buffer.None?
    {
      for i := 0 to files.Length
        invariant forall j :: 0 <= j < i ==> files[j] == FileCtx(FILE_ID_UNUSED, None)
        invariant forall j :: i <= j < files.Length ==> files[j] == old(files[j])
        invariant live == set b | b in old(live) && (forall j :: 0 <= j < i ==> old(files[j]).buffer != Some(b))
      {
        if files[i].id != FILE_ID_UNUSED {
          if files[i].buffer.Some? {
            live := live - {files[i].buffer.value};
            files[i] := files[i].(buffer := None);
          }
        }
        files[i] := files[i].(id := FILE_ID_UNUSED);
      }
      AllFree(Slots());
    }

    /** `scratch_buffer_create`: a new id takes the first unused file.  When the allocation fails
        the file stays taken, without a buffer. */
    method Create(fileId: uint32, ok: bool) returns (buffer: Option<nat>)
      requires Valid()
      modifies this`live, this`nextBlock, files
      ensures Valid()
      ensures var before := old(Buffers());
              var taken := fileId != FILE_ID_UNUSED && fileId !in before && |before| < files.Length;
              && (buffer.Some? <==> taken && ok)
              && Buffers() == (if taken then before[fileId := buffer] else before)
              && (buffer.Some? ==> buffer.value !in old(live))
              && live == old(live) + (if buffer.Some? then {buffer.value} else {})
    {
      var free, refused := Scan(fileId);
      FullExactly(Slots());
      if refused {
        return None;
      }
      if free == files.Length {
        assert forall i :: 0 <= i < files.Length ==> Slots()[i].Used?;
        return None;
      }
      assert Slots()[free].Free?;
      buffer := TakeFile(free, fileId, ok);
    }

    /** The scan of create: the first unused file, unless the id is already assigned. */
    method Scan(fileId: uint32) returns (free: nat, refused: bool)
      requires Valid()
      ensures refused ==> fileId == FILE_ID_UNUSED || fileId in Buffers()
      ensures !refused ==> fileId !in Buffers() && free <= files.Length
      ensures !refused && free == files.Length ==> forall j :: 0 <= j < free ==> files[j].id != FILE_ID_UNUSED
      ensures !refused && free < files.Length ==> files[free].id == FILE_ID_UNUSED != fileId
    {
      free := files.Length;
      for i := 0 to files.Length
        invariant free <= files.Length
        invariant free < files.Length ==> free < i && files[free].id == FILE_ID_UNUSED
        invariant free == files.Length ==> forall j :: 0 <= j < i ==> files[j].id != FILE_ID_UNUSED
        invariant forall j :: 0 <= j < i ==> files[j].id != fileId
      {
        if free == files.Length && files[i].id == FILE_ID_UNUSED {
          free := i;
        }
        if files[i].id == fileId {
          AlreadyAssigned(i);
          return free, true;
        }
      }
      NotAssigned(fileId);
      refused := false;
    }

    method TakeFile(free: nat, fileId: uint32, ok: bool) returns (buffer: Option<nat>)
      requires Valid() && free < files.Length && files[free].id == FILE_ID_UNUSED
      requires fileId != FILE_ID_UNUSED && fileId !in Buffers()
      modifies this`live, this`nextBlock, files
      ensures Valid() && Buffers() == old(Buffers())[fileId := buffer]
      ensures buffer.Some? <==> ok
      ensures buffer.Some? ==> buffer.value !in old(live)
      ensures live == old(live) + if buffer.Some? then {buffer.value} else {}
    {
      ghost var slots, before := Slots(), files[..];
      OwnsTake(before, free, fileId, ok, live, nextBlock);
      buffer := if ok then Some(nextBlock) else None;
      FillSlot(slots, free, fileId, buffer);
      files[free] := FileCtx(fileId, buffer);
      assert Slots() == slots[free := Used(fileId, buffer)];
      assert files[..] == before[free := FileCtx(fileId, buffer)];
      if ok {
        live, nextBlock := live + {nextBlock}, nextBlock + 1;
      }
    }

    /** A file carries this id, or it is the reserved id of an unused file. */
    lemma AlreadyAssigned(i: nat)
      requires Valid() && i < files.Length
      ensures files[i].id == FILE_ID_UNUSED || files[i].id in Buffers()
    {
      if files[i].id != FILE_ID_UNUSED {
        assert Slots()[i].key == files[i].id;
        KeyAt(Slots(), i);
      }
    }

    lemma NotAssigned(fileId: uint32)
      requires Valid() && forall i :: 0 <= i < files.Length ==> files[i].id != fileId
      ensures fileId !in Buffers()
    {
      if fileId in Buffers() {
        var i := SlotOf(Slots(), fileId);
      }
    }

    /** `scratch_buffer_remove`: frees the buffer of the id, if there is one. */
    method Remove(fileId: uint32)
      requires Valid()
      modifies this`live, files
      ensures Valid()
      ensures Buffers() == old(Buffers()) - {fileId}
      ensures live == old(live) -
                if fileId in old(Buffers()) && old(Buffers())[fileId].Some?
                then {old(Buffers())[fileId].value} else {}
    {
      var i := 0;
      while i < files.Length && files[i].id != fileId
        invariant i <= files.Length && forall j :: 0 <= j < i ==> files[j].id != fileId
      {
        i := i + 1;
      }
      if i == files.Length {
        NotAssigned(fileId);
        return;
      }
      ReservedUnused();
      DropFile(i);
    }

    method DropFile(i: nat)
      requires Valid() && i < files.Length
      modifies this`live, files
      ensures Valid() && Buffers() == old(Buffers()) - {old(files[i]).id}
      ensures live == old(live) -
                if old(files[i]).buffer.Some? then {old(files[i]).buffer.value} else {}
      ensures old(files[i]).id != FILE_ID_UNUSED ==>
                old(files[i]).id in old(Buffers()) && old(Buffers())[old(files[i]).id] == old(files[i]).buffer
      ensures old(files[i]).id == FILE_ID_UNUSED ==> old(files[i]).buffer.None?
    {
      ghost var slots, before := Slots(), files[..];
      OwnsDrop(before, i, live, nextBlock);
      ReservedUnused();
      if slots[i].Used? {
        KeyAt(slots, i);
        ClearSlot(slots, i);
      }
      var buffer := files[i].buffer;
      files[i] := files[i].(id := FILE_ID_UNUSED);
      if buffer.Some? {
        live := live - {buffer.value};
        files[i] := files[i].(buffer := None);
      }
      assert files[..] == before[i := FileCtx(FILE_ID_UNUSED, None)];
      assert Slots() == slots[i := Free];
    }

    /** The reserved id is never in the table. */
    lemma ReservedUnused()
      requires Valid()
      ensures FILE_ID_UNUSED !in Buffers()
    {
      if FILE_ID_UNUSED in Buffers() {
        var i := SlotOf(Slots(), FILE_ID_UNUSED);
      }
    }
  }
}
