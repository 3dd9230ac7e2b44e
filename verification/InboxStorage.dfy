/**
  The inbox sink: one active partial file under an application-owned root,
  addressed only by the opaque transfer identifier, and published by a rename.
  Every operating-system result is an input of the operation that asks for it.
*/
module InboxStorage {
  import opened Wrappers

  const MAX_FILE_TRANSFER_BYTES := 64 * 1024 * 1024

  type TransferId = s: seq<byte> | |s| == 16 witness seq(16, _ => 0)

  // ------------------------------------------------------------- path stems

  const HEX: string := "0123456789abcdef"

  function HexPair(b: byte): string {
    [HEX[(b / 16) as int], HEX[(b % 16) as int]]
  }

  function Stem(id: seq<byte>): string {
    if id == [] then "" else Stem(id[..|id| - 1]) + HexPair(id[|id| - 1])
  }

  /** `transfer_id_stem`: two lower-case hexadecimal digits per byte. */
  method TransferIdStem(id: seq<byte>) returns (output: string)
    ensures output == Stem(id)
  {
    output := "";
    for i := 0 to |id|
      invariant output == Stem(id[..i])
    {
      assert id[..i + 1][..i] == id[..i];
      output := output + [HEX[(id[i] / 16) as int]];
      output := output + [HEX[(id[i] % 16) as int]];
    }
    assert id[..|id|] == id;
  }

  lemma HexDigitsDiffer(a: int, b: int)
    requires 0 <= a < 16 && 0 <= b < 16 && HEX[a] == HEX[b]
    ensures a == b
  {
  }

  lemma {:induction false} StemLength(id: seq<byte>)
    ensures |Stem(id)| == 2 * |id|
  {
    if id != [] { StemLength(id[..|id| - 1]); }
  }

  /** Distinct identifiers have distinct stems. */
  lemma {:induction false} StemIsInjective(a: seq<byte>, b: seq<byte>)
    requires Stem(a) == Stem(b)
    ensures a == b
  {
    StemLength(a);
    StemLength(b);
    if a != [] {
      var n := |a| - 1;
      StemLength(a[..n]);
      StemLength(b[..n]);
      SamePieces(Stem(a[..n]), HexPair(a[n]), Stem(b[..n]), HexPair(b[n]));
      HexPairIsInjective(a[n], b[n]);
      StemIsInjective(a[..n], b[..n]);
      assert a == a[..n] + [a[n]] && b == b[..n] + [b[n]];
    }
  }

  lemma SamePieces(p: string, q: string, r: string, t: string)
    requires p + q == r + t && |p| == |r|
    ensures p == r && q == t
  {
    assert (p + q)[..|p|] == p && (r + t)[..|p|] == r;
    assert (p + q)[|p|..] == q && (r + t)[|p|..] == t;
  }

  lemma HexPairIsInjective(x: byte, y: byte)
    requires HexPair(x) == HexPair(y)
    ensures x == y
  {
    assert HexPair(x)[0] == HexPair(y)[0] && HexPair(x)[1] == HexPair(y)[1];
    HexDigitsDiffer((x / 16) as int, (y / 16) as int);
    HexDigitsDiffer((x % 16) as int, (y % 16) as int);
  }

  function TempName(id: TransferId): string {
    Stem(id) + ".part"
  }

  function FinalName(id: TransferId): string {
    Stem(id) + ".bin"
  }

  /** No two identifiers share a path, and no partial path is a published one. */
  lemma PathsNeverCollide(a: TransferId, b: TransferId)
    ensures TempName(a) == TempName(b) ==> a == b
    ensures FinalName(a) == FinalName(b) ==> a == b
    ensures TempName(a) != FinalName(b)
  {
    StemLength(a);
    StemLength(b);
    if TempName(a) == TempName(b) {
      assert TempName(a)[..32] == Stem(a) && TempName(b)[..32] == Stem(b);
      StemIsInjective(a, b);
    }
    if FinalName(a) == FinalName(b) {
      assert FinalName(a)[..32] == Stem(a) && FinalName(b)[..32] == Stem(b);
      StemIsInjective(a, b);
    }
    assert |TempName(a)| == 37 && |FinalName(b)| == 36;
  }

  // ------------------------------------------------------------------- sink

  /**
    `accepted` and `torn` are history: the contents of the accepted appends, and
    whether some failed append left bytes behind in the partial file.
  */
  datatype Active = Active(id: TransferId, nextOffset: nat, declared: nat, accepted: seq<byte>, torn: bool)

  /** `published` is history: the transfers completed so far, oldest first. */
  datatype Sink = Sink(files: map<string, seq<byte>>, active: Option<Active>, published: seq<Active>)

  datatype Error = Busy | InvalidSize | WrongTransfer | NonSequentialOffset | SizeExceeded | Incomplete
                 | ExistingTransfer | Io

  datatype Result = Done | Failed(error: Error)

  function Begin(s: Sink, id: TransferId, size: nat, created: bool): (Sink, Result) {
    if size == 0 || size > MAX_FILE_TRANSFER_BYTES then (s, Failed(InvalidSize))
    else if s.active.Some? then (s, Failed(Busy))
    else if TempName(id) in s.files || FinalName(id) in s.files then (s, Failed(ExistingTransfer))
    else if !created then (s, Failed(Io))
    else (s.(files := s.files[TempName(id) := []], active := Some(Active(id, 0, size, [], false))), Done)
  }

  /** `landed` of a failed write's bytes reached the file before the failure. */
  function Append(
      s: Sink, id: TransferId, offset: nat, content: seq<byte>, written: bool, landed: nat): (Sink, Result)
  {
    if s.active.None? || s.active.value.id != id then (s, Failed(WrongTransfer)) else
    var a := s.active.value;
    if a.nextOffset != offset then (s, Failed(NonSequentialOffset))
    else if offset + |content| > a.declared then (s, Failed(SizeExceeded))
    else
      var before := if TempName(id) in s.files then s.files[TempName(id)] else [];
      if written then
        (s.(files := s.files[TempName(id) := before + content],
            active := Some(a.(nextOffset := offset + |content|, accepted := a.accepted + content))), Done)
      else
        var stray := content[..if landed <= |content| then landed else |content|];
        (s.(files := s.files[TempName(id) := before + stray],
            active := Some(a.(torn := a.torn || stray != []))), Failed(Io))
  }

  function Complete(s: Sink, id: TransferId, synced: bool, renamed: bool): (Sink, Result) {
    if s.active.None? || s.active.value.id != id then (s, Failed(WrongTransfer)) else
    var a := s.active.value;
    if a.nextOffset != a.declared then (s, Failed(Incomplete)) else
    var removed := s.files - {TempName(id)};
    if !synced || !renamed || TempName(id) !in s.files then (s.(files := removed, active := None), Failed(Io))
    else
      var files := removed[FinalName(id) := s.files[TempName(id)]];
      (s.(files := files, active := None, published := s.published + [a]), Done)
  }

  function Abort(s: Sink, id: TransferId): Sink {
    if s.active.None? || s.active.value.id != id then s
    else s.(files := s.files - {TempName(id)}, active := None)
  }

  /** The sink object: it owns the root directory's files and the one active transfer. */
  class WindowsFileTransferInboxSink {
    var state: Sink

    constructor (files: map<string, seq<byte>>)
      ensures state == Sink(files, None, [])
    {
      state := Sink(files, None, []);
    }

    method BeginTransfer(id: TransferId, size: nat, created: bool) returns (r: Result)
      modifies this
      ensures (state, r) == Begin(old(state), id, size, created)
    {
      if size == 0 || size > MAX_FILE_TRANSFER_BYTES {
        return Failed(InvalidSize);
      }
      if state.active.Some? {
        return Failed(Busy);
      }
      var stem := TransferIdStem(id);
      if stem + ".part" in state.files || stem + ".bin" in state.files {
        return Failed(ExistingTransfer);
      }
      if !created {
        return Failed(Io);
      }
      state := state.(files := state.files[stem + ".part" := []], active := Some(Active(id, 0, size, [], false)));
      return Done;
    }

    method AppendChunk(id: TransferId, offset: nat, content: seq<byte>, written: bool, landed: nat) returns (r: Result)
      modifies this
      ensures (state, r) == Append(old(state), id, offset, content, written, landed)
    {
      if state.active.None? || state.active.value.id != id {
        return Failed(WrongTransfer);
      }
      var a := state.active.value;
      if a.nextOffset != offset {
        return Failed(NonSequentialOffset);
      }
      var end := offset + |content|;
      if end > a.declared {
        return Failed(SizeExceeded);
      }
      var name := TempName(id);
      var before := if name in state.files then state.files[name] else [];
      if !written {
        var stray := content[..if landed <= |content| then landed else |content|];
        state := state.(files := state.files[name := before + stray], active := Some(a.(torn := a.torn ||
          stray != [])));
        return Failed(Io);
      }
      state := state.(files := state.files[name := before + content],
                      active := Some(a.(nextOffset := end, accepted := a.accepted + content)));
      return Done;
    }

    method CompleteTransfer(id: TransferId, synced: bool, renamed: bool) returns (r: Result)
      modifies this
      ensures (state, r) == Complete(old(state), id, synced, renamed)
    {
      if state.active.None? || state.active.value.id != id {
        return Failed(WrongTransfer);
      }
      var a := state.active.value;
      if a.nextOffset != a.declared {
        return Failed(Incomplete);
      }
      state := state.(active := None);
      var name := TempName(id);
      var removed := state.files - {name};
      if !synced || !renamed || name !in state.files {
        state := state.(files := removed);
        return Failed(Io);
      }
      state := state.(files := removed[FinalName(id) := state.files[name]], published := state.published + [a]);
      return Done;
    }

    method AbortTransfer(id: TransferId)
      modifies this
      ensures state == Abort(old(state), id)
    {
      if state.active.None? || state.active.value.id != id {
        return;
      }
      state := state.(files := state.files - {TempName(id)}, active := None);
    }
  }

  // -------------------------------------------------------------- whole runs

  datatype Op =
    | BeginOp(id: TransferId, size: nat, created: bool)
    | AppendOp(id: TransferId, offset: nat, content: seq<byte>, written: bool, landed: nat)
    | CompleteOp(id: TransferId, synced: bool, renamed: bool)
    | AbortOp(id: TransferId)

  function Next(s: Sink, op: Op): Sink {
    match op
    case BeginOp(id, size, created) => Begin(s, id, size, created).0
    case AppendOp(id, offset, content, written, landed) => Append(s, id, offset, content, written, landed).0
    case CompleteOp(id, synced, renamed) => Complete(s, id, synced, renamed).0
    case AbortOp(id) => Abort(s, id)
  }

  function Run(s: Sink, ops: seq<Op>): Sink
    decreases |ops|
  {
    if ops == [] then s else Run(Next(s, ops[0]), ops[1..])
  }

  /** The partial file is the accepted chunks and nothing else, unless a failed append left bytes behind. */
  ghost predicate ActiveOk(s: Sink, original: map<string, seq<byte>>) {
    s.active.Some? ==>
      var a := s.active.value;
      var name := TempName(a.id);
      && 0 < a.declared <= MAX_FILE_TRANSFER_BYTES
      && |a.accepted| == a.nextOffset <= a.declared
      && name in s.files && name !in original && FinalName(a.id) !in s.files
      && (if a.torn then |s.files[name]| > a.nextOffset else s.files[name] == a.accepted)
  }

  ghost predicate PublishedOk(s: Sink, original: map<string, seq<byte>>, p: Active) {
    var name := FinalName(p.id);
    && name in s.files && name !in original
    && |p.accepted| == p.declared
    && (if p.torn then |s.files[name]| > p.declared else s.files[name] == p.accepted)
  }

  ghost predicate OriginalsKept(s: Sink, original: map<string, seq<byte>>) {
    forall n :: n in original ==> n in s.files && s.files[n] == original[n]
  }

  ghost predicate IsPublishedName(s: Sink, n: string) {
    exists i :: 0 <= i < |s.published| && FinalName(s.published[i].id) == n
  }

  /** Every file is an original, the active partial file, or a published transfer. */
  ghost predicate NoStrayFiles(s: Sink, original: map<string, seq<byte>>) {
    forall n :: n in s.files ==>
      n in original || (s.active.Some? && n == TempName(s.active.value.id)) || IsPublishedName(s, n)
  }

  ghost predicate Inv(s: Sink, original: map<string, seq<byte>>) {
    && OriginalsKept(s, original)
    && ActiveOk(s, original)
    && (forall i :: 0 <= i < |s.published| ==> PublishedOk(s, original, s.published[i]))
    && NoStrayFiles(s, original)
  }

  lemma InvBegin(s: Sink, original: map<string, seq<byte>>, id: TransferId, size: nat, created: bool)
    requires Inv(s, original)
    ensures Inv(Begin(s, id, size, created).0, original)
  {
  }

  lemma InvAppend(s: Sink, original: map<string, seq<byte>>, op: Op)
    requires Inv(s, original) && op.AppendOp?
    ensures Inv(Next(s, op), original)
  {
    var t := Next(s, op);
    forall i | 0 <= i < |t.published| ensures PublishedOk(t, original, t.published[i]) {
      assert PublishedOk(s, original, s.published[i]);
      PathsNeverCollide(op.id, s.published[i].id);
    }
    PathsNeverCollide(op.id, op.id);
    assert forall n :: IsPublishedName(s, n) ==> IsPublishedName(t, n);
  }

  lemma InvRemove(s: Sink, original: map<string, seq<byte>>, id: TransferId)
    requires Inv(s, original) && s.active.Some? && s.active.value.id == id
    ensures Inv(s.(files := s.files - {TempName(id)}, active := None), original)
  {
    var t := s.(files := s.files - {TempName(id)}, active := None);
    forall i | 0 <= i < |t.published| ensures PublishedOk(t, original, t.published[i]) {
      assert PublishedOk(s, original, s.published[i]);
      PathsNeverCollide(id, s.published[i].id);
    }
    assert forall n :: IsPublishedName(s, n) ==> IsPublishedName(t, n);
  }

  lemma InvComplete(s: Sink, original: map<string, seq<byte>>, id: TransferId)
    requires Inv(s, original) && s.active.Some? && s.active.value.id == id
    requires s.active.value.nextOffset == s.active.value.declared
    ensures Inv(Complete(s, id, true, true).0, original)
  {
    var t := Complete(s, id, true, true).0;
    PathsNeverCollide(id, id);
    forall i | 0 <= i < |t.published| ensures PublishedOk(t, original, t.published[i]) {
      if i < |s.published| {
        assert PublishedOk(s, original, s.published[i]);
        PathsNeverCollide(id, s.published[i].id);
      }
    }
    forall n | n in t.files ensures n in original || IsPublishedName(t, n) {
      if n == FinalName(id) {
        assert t.published[|s.published|].id == id;
      } else if n !in original {
        var i :| 0 <= i < |s.published| && FinalName(s.published[i].id) == n;
        assert t.published[i] == s.published[i];
      }
    }
  }

  lemma InvNext(s: Sink, original: map<string, seq<byte>>, op: Op)
    requires Inv(s, original)
    ensures Inv(Next(s, op), original)
  {
    match op
    case BeginOp(id, size, created) => InvBegin(s, original, id, size, created);
    case AppendOp(_, _, _, _, _) => InvAppend(s, original, op);
    case CompleteOp(id, synced, renamed) =>
      if s.active.Some? && s.active.value.id == id && s.active.value.nextOffset == s.active.value.declared {
        InvRemove(s, original, id);
        InvComplete(s, original, id);
      }
    case AbortOp(id) =>
      if s.active.Some? && s.active.value.id == id { InvRemove(s, original, id); }
  }

  lemma {:induction false} InvRun(s: Sink, original: map<string, seq<byte>>, ops: seq<Op>)
    requires Inv(s, original)
    ensures Inv(Run(s, ops), original)
    decreases |ops|
  {
    if ops != [] {
      InvNext(s, original, ops[0]);
      InvRun(Next(s, ops[0]), original, ops[1..]);
    }
  }

  /**
    Over any run from any directory: the partial file holds exactly the
    accepted chunks, files that were there before are unchanged, nothing else
    appears, and a published file is the declared number of accepted bytes.
    The exception is stated exactly: it is a transfer one of whose appends
    failed after writing something, and its published file is too long.
  */
  lemma {:induction false} StorageIsFaithful(files: map<string, seq<byte>>, ops: seq<Op>)
    ensures var s := Run(Sink(files, None, []), ops);
      && OriginalsKept(s, files) && NoStrayFiles(s, files)
      && (s.active.Some? ==>
            TempName(s.active.value.id) in s.files && |s.active.value.accepted| == s.active.value.nextOffset
            && (s.files[TempName(s.active.value.id)] == s.active.value.accepted <==> !s.active.value.torn))
      && (forall i :: 0 <= i < |s.published| ==>
            var p := s.published[i];
            && FinalName(p.id) in s.files && FinalName(p.id) !in files && |p.accepted| == p.declared
            && (s.files[FinalName(p.id)] == p.accepted <==> !p.torn)
            && (|s.files[FinalName(p.id)]| == p.declared <==> !p.torn))
  {
    var initial := Sink(files, None, []);
    InvRun(initial, files, ops);
    var s := Run(initial, ops);
    forall i | 0 <= i < |s.published| ensures PublishedOk(s, files, s.published[i]) { }
  }

  /** The exception arises: bytes of a failed append, the same offset again, and a completion that succeeds. */
  lemma {:induction false} TornFileIsPublished(id: TransferId, stray: byte, good: byte)
    ensures var ops := [BeginOp(id, 1, true), AppendOp(id, 0, [stray], false, 1), AppendOp(id, 0, [good], true, 0),
                        CompleteOp(id, true, true)];
      Run(Sink(map[], None, []), ops).files == map[FinalName(id) := [stray, good]]
  {
    PathsNeverCollide(id, id);
    var a, b := AppendOp(id, 0, [stray], false, 1), AppendOp(id, 0, [good], true, 0);
    var done := CompleteOp(id, true, true);
    var s1 := Sink(map[TempName(id) := []], Some(Active(id, 0, 1, [], false)), []);
    var s2 := Sink(map[TempName(id) := [stray]], Some(Active(id, 0, 1, [], true)), []);
    var s3 := Sink(map[TempName(id) := [stray, good]], Some(Active(id, 1, 1, [good], true)), []);
    assert Next(Sink(map[], None, []), BeginOp(id, 1, true)) == s1;
    var nothing: seq<byte> := [];
    assert [stray][..1] == [stray] && nothing + [stray] == [stray] && nothing + [good] == [good];
    assert s1.files[TempName(id) := [stray]] == s2.files && Next(s1, a) == s2;
    assert [stray] + [good] == [stray, good];
    assert s2.files[TempName(id) := [stray, good]] == s3.files && Next(s2, b) == s3;
    assert Next(s3, done).files == map[FinalName(id) := [stray, good]];
    assert Run(s3, [done]) == Next(s3, done) by {
      assert [done][1..] == [];
    }
    assert Run(s2, [b, done]) == Run(s3, [done]) by {
      assert [b, done][1..] == [done];
    }
    assert Run(s1, [a, b, done]) == Run(s2, [b, done]) by {
      assert [a, b, done][1..] == [b, done];
    }
    var ops := [BeginOp(id, 1, true), a, b, done];
    assert Run(Sink(map[], None, []), ops) == Run(s1, [a, b, done]) by {
      assert ops[1..] == [a, b, done];
    }
  }

  /** Without I/O errors nothing is ever torn, so the exception does not arise. */
  lemma {:induction false} NothingTornWithoutErrors(s: Sink, ops: seq<Op>)
    requires s.active.Some? ==> !s.active.value.torn
    requires forall p :: p in s.published ==> !p.torn
    requires forall op :: op in ops && op.AppendOp? ==> op.written
    ensures forall p :: p in Run(s, ops).published ==> !p.torn
    ensures Run(s, ops).active.Some? ==> !Run(s, ops).active.value.torn
    decreases |ops|
  {
    if ops != [] {
      assert ops[0] in ops;
      NothingTornWithoutErrors(Next(s, ops[0]), ops[1..]);
    }
  }
}
