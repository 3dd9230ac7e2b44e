/**
  The outbox source, and its composition with the inbox sink: reading a staged
  file in pieces of any permitted size and appending each piece where it was
  read reproduces the file.
*/
module OutboxSource {
  import opened Wrappers
  import opened InboxStorage

  const MAX_FILE_CHUNK_BYTES := 64 * 1024

  datatype ReadError = MissingSource | FileTooLarge | ReadTooLarge | InvalidOffset | ReadIo

  datatype ReadResult = Bytes(content: seq<byte>) | ReadFailed(error: ReadError)

  /** Staged files by name, and the size recorded for each source when it was registered. */
  class WindowsFileTransferOutboxSource {
    var files: map<string, seq<byte>>
    var registered: map<TransferId, nat>

    constructor (files: map<string, seq<byte>>)
      ensures this.files == files && registered == map[]
    {
      this.files := files;
      registered := map[];
    }

    /** Every recorded size is one a transfer may have. */
    ghost predicate Valid()
      reads this
    {
      forall id :: id in registered ==> 0 < registered[id] <= MAX_FILE_TRANSFER_BYTES
    }

    /** Registration on first use, from the identifier's own staged path only. */
    method EnsureRegistered(id: TransferId) returns (failure: Option<ReadError>)
      requires Valid()
      modifies this`registered
      ensures Valid()
      ensures id in old(registered) ==> failure.None? && registered == old(registered)
      ensures failure.Some? ==> registered == old(registered)
      ensures id !in old(registered) ==>
        if FinalName(id) !in files then failure == Some(MissingSource)
        else if !(0 < |files[FinalName(id)]| <= MAX_FILE_TRANSFER_BYTES) then failure == Some(FileTooLarge)
        else failure.None? && registered == old(registered)[id := |files[FinalName(id)]|]
    {
      if id in registered {
        return None;
      }
      var stem := TransferIdStem(id);
      var name := stem + ".bin";
      if name !in files {
        return Some(MissingSource);
      }
      var size := |files[name]|;
      if size == 0 || size > MAX_FILE_TRANSFER_BYTES {
        return Some(FileTooLarge);
      }
      registered := registered[id := size];
      return None;
    }

    /** The bytes at `offset`, as many as asked for and available; an altered file size is refused. */
    method ReadAt(id: TransferId, offset: nat, maxBytes: nat) returns (r: ReadResult)
      requires Valid()
      modifies this`registered
      ensures Valid()
      ensures r.Bytes? ==>
        && 0 < maxBytes <= MAX_FILE_CHUNK_BYTES
        && id in registered && FinalName(id) in files && |files[FinalName(id)]| == registered[id]
        && offset < registered[id]
        && r.content == files[FinalName(id)][offset..offset + Min(maxBytes, registered[id] - offset)]
      ensures (&& 0 < maxBytes <= MAX_FILE_CHUNK_BYTES && FinalName(id) in files && offset < |files[FinalName(id)]|
               && |files[FinalName(id)]| <= MAX_FILE_TRANSFER_BYTES
               && (id in old(registered) ==> old(registered)[id] == |files[FinalName(id)]|)) ==> r.Bytes?
      ensures forall other :: other in old(registered) ==>
        other in registered && registered[other] == old(registered)[other]
    {
      if maxBytes == 0 || maxBytes > MAX_FILE_CHUNK_BYTES {
        return ReadFailed(ReadTooLarge);
      }
      var failure := EnsureRegistered(id);
      if failure.Some? {
        return ReadFailed(failure.value);
      }
      var total := registered[id];
      if offset >= total {
        return ReadFailed(InvalidOffset);
      }
      var length := Min(maxBytes, total - offset);
      var name := FinalName(id);
      if name !in files || |files[name]| != total {
        return ReadFailed(ReadIo);
      }
      return Bytes(files[name][offset..offset + length]);
    }
  }

  /** The sink in the middle of receiving `content`, with `offset` bytes of it accepted. */
  ghost function Receiving(before: Sink, id: TransferId, content: seq<byte>, offset: nat): Sink
    requires offset <= |content|
  {
    before.(files := before.files[TempName(id) := content[..offset]],
            active := Some(Active(id, offset, |content|, content[..offset], false)))
  }

  lemma AppendNextPiece(before: Sink, id: TransferId, content: seq<byte>, offset: nat, piece: seq<byte>)
    requires offset + |piece| <= |content| && piece == content[offset..offset + |piece|]
    ensures Append(Receiving(before, id, content, offset), id, offset, piece, true, 0)
         == (Receiving(before, id, content, offset + |piece|), Done)
  {
    assert content[..offset] + piece == content[..offset + |piece|];
    var s := Receiving(before, id, content, offset);
    var longer := content[..offset] + piece;
    assert s.files[TempName(id) := longer] == before.files[TempName(id) := longer];
  }

  lemma CompleteWhole(before: Sink, id: TransferId, content: seq<byte>)
    requires TempName(id) !in before.files
    ensures Complete(Receiving(before, id, content, |content|), id, true, true).1 == Done
    ensures var after := Complete(Receiving(before, id, content, |content|), id, true, true).0;
      after.active.None? && after.files == before.files[FinalName(id) := content]
  {
    PathsNeverCollide(id, id);
    assert content[..|content|] == content;
    var s := Receiving(before, id, content, |content|);
    assert s.files - {TempName(id)} == before.files;
  }

  /**
    Pull one staged file through the sink with read sizes chosen freely per
    turn. On an unchanged source and without I/O errors the loop ends, the
    completion succeeds, and the published file equals the source byte for byte.
  */
  method TransferFile(source: WindowsFileTransferOutboxSource, sourceId: TransferId,
                      sink: WindowsFileTransferInboxSink, transferId: TransferId, readSize: nat -> nat)
    requires source.Valid() && FinalName(sourceId) in source.files
    requires sourceId in source.registered ==> source.registered[sourceId] == |source.files[FinalName(sourceId)]|
    requires 0 < |source.files[FinalName(sourceId)]| <= MAX_FILE_TRANSFER_BYTES
    requires forall k :: 0 < readSize(k) <= MAX_FILE_CHUNK_BYTES
    requires sink.state.active.None? && TempName(transferId) !in sink.state.files &&
      FinalName(transferId) !in sink.state.files
    modifies source`registered, sink
    ensures sink.state.active.None?
    ensures sink.state.files == old(sink.state.files)[FinalName(transferId) := source.files[FinalName(sourceId)]]
    ensures source.files == old(source.files)
  {
    var content := source.files[FinalName(sourceId)];
    ghost var before := sink.state;
    var begun := sink.BeginTransfer(transferId, |content|, true);
    var offset, turn := 0, 0;
    while offset < |content|
      invariant 0 <= offset <= |content|
      invariant source.Valid() && source.files == old(source.files)
      invariant sourceId in source.registered ==> source.registered[sourceId] == |content|
      invariant sink.state == Receiving(before, transferId, content, offset)
      decreases |content| - offset
    {
      var piece := source.ReadAt(sourceId, offset, readSize(turn));
      AppendNextPiece(before, transferId, content, offset, piece.content);
      var appended := sink.AppendChunk(transferId, offset, piece.content, true, 0);
      offset := offset + |piece.content|;
      turn := turn + 1;
    }
    CompleteWhole(before, transferId, content);
    var completed := sink.CompleteTransfer(transferId, true, true);
  }
}
