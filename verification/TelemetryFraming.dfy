/**
  Reassembly of fixed-size telemetry reports from an authenticated byte pipe.
  The pipe may split the Worker's byte stream anywhere; every clock reading,
  liveness answer and mailbox state is an input of the turn it occurs in.
*/
module TelemetryFraming {
  import opened Wrappers

  const REPORT_BYTES: nat := 136
  const PARTIAL_TIMEOUT_MS := 2000

  /** Expired exactly at the deadline and whenever the clock went backwards. */
  predicate PartialReportExpired(began: Option<int>, now: int) {
    began.Some? && (now < began.value || now - began.value >= PARTIAL_TIMEOUT_MS)
  }

  datatype Read = Data(available: nat) | TimedOut | Failed

  /** One turn of the listener loop: `checked`, `returned`, `first` and `sent` are its clock readings in order. */
  datatype Turn = Turn(live: bool, checked: int, read: Read, returned: int, first: int, sent: int, mailboxFree: bool)

  /** What became of one complete block of the stream. */
  datatype Fate = Published(began: int, sent: int, data: seq<byte>) | DroppedWhole

  datatype Ending = StillRunning | NotLive | Expired | ReadFailed

  // ------------------------------------------------- what the turns hand over

  /** Complete blocks, bytes of the unfinished one, and when its first byte arrived. */
  datatype Progress = Progress(blocks: nat, filled: nat, began: Option<int>)

  function Handed(p: Progress): nat {
    p.blocks * REPORT_BYTES + p.filled
  }

  predicate Possible(p: Progress, length: nat) {
    p.filled < REPORT_BYTES && Handed(p) <= length && (p.began.None? <==> p.filled == 0)
  }

  /** The bytes of one read: what the pipe has, at most the rest of the frame and of the stream. */
  function Chunk(p: Progress, length: nat, turn: Turn): nat
    requires Possible(p, length)
  {
    if turn.read.Data? then Min(Min(turn.read.available, REPORT_BYTES - p.filled), length - Handed(p)) else 0
  }

  predicate Completes(p: Progress, length: nat, turn: Turn)
    requires Possible(p, length)
  {
    p.filled + Chunk(p, length, turn) == REPORT_BYTES
  }

  /** When the first byte of the frame arrived that holds the turn's chunk. */
  function FrameBegan(p: Progress, turn: Turn): Option<int> {
    if p.filled == 0 then Some(turn.first) else p.began
  }

  function Count(p: Progress, length: nat, turn: Turn): (q: Progress)
    requires Possible(p, length)
    ensures Possible(q, length) && Handed(q) == Handed(p) + Chunk(p, length, turn)
  {
    var n := Chunk(p, length, turn);
    if n == 0 then p
    else if Completes(p, length, turn) then Progress(p.blocks + 1, 0, None)
    else Progress(p.blocks, p.filled + n, FrameBegan(p, turn))
  }

  function ProgressOf(turns: seq<Turn>, length: nat): (p: Progress)
    ensures Possible(p, length)
  {
    if turns == [] then Progress(0, 0, None)
    else Count(ProgressOf(turns[..|turns| - 1], length), length, turns[|turns| - 1])
  }

  /** All bytes handed over by the turns. */
  function HandedOver(turns: seq<Turn>, length: nat): nat {
    Handed(ProgressOf(turns, length))
  }

  /** How one more turn ends the loop, if it does; the checks in their order. */
  function EndingOf(p: Progress, length: nat, turn: Turn): Ending
    requires Possible(p, length)
  {
    if !turn.live then NotLive
    else if PartialReportExpired(p.began, turn.checked) || PartialReportExpired(p.began, turn.returned) then Expired
    else if turn.read.Failed? then ReadFailed
    else if Completes(p, length, turn) && PartialReportExpired(FrameBegan(p, turn), turn.sent) then Expired
    else StillRunning
  }

  /** No turn ends the loop: live throughout, no failed read, every frame within its two seconds. */
  ghost predicate Undisturbed(turns: seq<Turn>, length: nat) {
    forall k :: 0 <= k < |turns| ==> Continues(turns, length, k)
  }

  ghost predicate Continues(turns: seq<Turn>, length: nat, k: int)
    requires 0 <= k < |turns|
  {
    EndingOf(ProgressOf(turns[..k], length), length, turns[k]).StillRunning?
  }

  /** The bytes the pipe has ready over all turns. */
  function Offered(turns: seq<Turn>): nat {
    if turns == [] then 0 else
    Offered(turns[..|turns| - 1]) + if turns[|turns| - 1].read.Data? then turns[|turns| - 1].read.available else 0
  }

  /** Every chunk was cut to the rest of its frame and of the stream. */
  ghost predicate Fits(turns: seq<Turn>, length: nat) {
    forall k :: 0 <= k < |turns| ==> FitsAt(turns, length, k)
  }

  ghost predicate FitsAt(turns: seq<Turn>, length: nat, k: int)
    requires 0 <= k < |turns|
  {
    var p := ProgressOf(turns[..k], length);
    turns[k].read.Data? ==>
      p.filled + turns[k].read.available <= REPORT_BYTES && Handed(p) + turns[k].read.available <= length
  }

  lemma Prefixes(turns: seq<Turn>)
    requires turns != []
    ensures var n := |turns| - 1;
      forall k :: 0 <= k < n ==> turns[..n][k] == turns[k] && turns[..n][..k] == turns[..k]
  {
  }

  /** For chunks that fit, what is handed over is their sum. */
  lemma {:induction false} HandedOverIsTheSum(turns: seq<Turn>, length: nat)
    requires Fits(turns, length)
    ensures HandedOver(turns, length) == Offered(turns)
    decreases |turns|
  {
    if turns != [] {
      var n := |turns| - 1;
      Prefixes(turns);
      forall k | 0 <= k < n ensures FitsAt(turns[..n], length, k) {
        assert FitsAt(turns, length, k);
      }
      HandedOverIsTheSum(turns[..n], length);
      assert FitsAt(turns, length, n);
    }
  }

  // -------------------------------------------------------------- the blocks

  function Block(stream: seq<byte>, i: nat): seq<byte>
    requires (i + 1) * REPORT_BYTES <= |stream|
  {
    stream[i * REPORT_BYTES..(i + 1) * REPORT_BYTES]
  }

  /** The fate of the block a turn completes: published if the mailbox has room, dropped whole otherwise. */
  function FateOf(stream: seq<byte>, p: Progress, turn: Turn): Fate
    requires Possible(p, |stream|) && Completes(p, |stream|, turn)
  {
    if turn.mailboxFree then Published(FrameBegan(p, turn).value, turn.sent, Block(stream, p.blocks)) else DroppedWhole
  }

  function Gained(stream: seq<byte>, p: Progress, turn: Turn): seq<Fate>
    requires Possible(p, |stream|)
  {
    if Completes(p, |stream|, turn) then [FateOf(stream, p, turn)] else []
  }

  function FatesOf(stream: seq<byte>, turns: seq<Turn>): seq<Fate> {
    if turns == [] then [] else
    var before := turns[..|turns| - 1];
    FatesOf(stream, before) + Gained(stream, ProgressOf(before, |stream|), turns[|turns| - 1])
  }

  /** Published in time, with the bytes of block `i` and no others. */
  ghost predicate FateOk(stream: seq<byte>, i: nat, fate: Fate) {
    fate.Published? ==>
      && (i + 1) * REPORT_BYTES <= |stream| && fate.data == Block(stream, i)
      && !PartialReportExpired(Some(fate.began), fate.sent)
  }

  ghost predicate FatesOk(stream: seq<byte>, fates: seq<Fate>) {
    forall i :: 0 <= i < |fates| ==> FateOk(stream, i, fates[i])
  }

  lemma GainedIsTheNextBlock(stream: seq<byte>, p: Progress, turn: Turn)
    requires Possible(p, |stream|) && EndingOf(p, |stream|, turn).StillRunning?
    ensures |Gained(stream, p, turn)| == Count(p, |stream|, turn).blocks - p.blocks
    ensures Gained(stream, p, turn) != [] ==> FateOk(stream, p.blocks, Gained(stream, p, turn)[0])
    ensures Gained(stream, p, turn) != [] ==> Gained(stream, p, turn)[0].Published? == turn.mailboxFree
  {
  }

  lemma OneMoreFate(stream: seq<byte>, before: seq<Fate>, gained: seq<Fate>)
    requires FatesOk(stream, before) && |gained| <= 1
    requires gained != [] ==> FateOk(stream, |before|, gained[0])
    ensures FatesOk(stream, before + gained)
  {
    forall i | 0 <= i < |before + gained| ensures FateOk(stream, i, (before + gained)[i]) {
      assert i < |before| ==> FateOk(stream, i, before[i]);
    }
  }

  predicate AlwaysFree(turns: seq<Turn>) {
    forall k :: 0 <= k < |turns| ==> turns[k].mailboxFree
  }

  predicate AllPublished(fates: seq<Fate>) {
    forall i :: 0 <= i < |fates| ==> fates[i].Published?
  }

  lemma {:induction false} UndisturbedPrefix(turns: seq<Turn>, length: nat)
    requires turns != [] && Undisturbed(turns, length)
    ensures Undisturbed(turns[..|turns| - 1], length)
    ensures EndingOf(ProgressOf(turns[..|turns| - 1], length), length, turns[|turns| - 1]).StillRunning?
  {
    var n := |turns| - 1;
    Prefixes(turns);
    forall k | 0 <= k < n ensures Continues(turns[..n], length, k) {
      assert Continues(turns, length, k);
    }
    assert Continues(turns, length, n);
  }

  /** Every complete block handed over has exactly one fate, in order: no report mixes two blocks. */
  lemma {:induction false} FatesAreBlocks(stream: seq<byte>, turns: seq<Turn>)
    requires Undisturbed(turns, |stream|)
    ensures |FatesOf(stream, turns)| == ProgressOf(turns, |stream|).blocks
    ensures FatesOk(stream, FatesOf(stream, turns))
    ensures AlwaysFree(turns) ==> AllPublished(FatesOf(stream, turns))
    decreases |turns|
  {
    if turns != [] {
      var n := |turns| - 1;
      UndisturbedPrefix(turns, |stream|);
      FatesAreBlocks(stream, turns[..n]);
      var before, p := FatesOf(stream, turns[..n]), ProgressOf(turns[..n], |stream|);
      GainedIsTheNextBlock(stream, p, turns[n]);
      OneMoreFate(stream, before, Gained(stream, p, turns[n]));
      assert FatesOf(stream, turns) == before + Gained(stream, p, turns[n]);
    }
  }

  /**
    Two undisturbed runs that are handed equally many bytes settle the same
    blocks with the same data, however the stream was split; with room in the
    mailbox throughout, both publish all of them.
  */
  lemma {:induction false} SplittingDoesNotMatter(stream: seq<byte>, one: seq<Turn>, other: seq<Turn>)
    requires Undisturbed(one, |stream|) && Undisturbed(other, |stream|)
    requires HandedOver(one, |stream|) == HandedOver(other, |stream|)
    ensures var a, b := FatesOf(stream, one), FatesOf(stream, other);
      && |a| == |b|
      && (forall i :: 0 <= i < |a| && a[i].Published? && b[i].Published? ==> a[i].data == b[i].data)
      && (AlwaysFree(one) ==> AllPublished(a))
  {
    FatesAreBlocks(stream, one);
    FatesAreBlocks(stream, other);
    var a, b := FatesOf(stream, one), FatesOf(stream, other);
    SameTotalSameBlocks(ProgressOf(one, |stream|), ProgressOf(other, |stream|));
    forall i | 0 <= i < |a| && a[i].Published? && b[i].Published? ensures a[i].data == b[i].data {
      assert FateOk(stream, i, a[i]) && FateOk(stream, i, b[i]);
    }
  }

  lemma WholeBlocks(p: Progress)
    requires p.filled < REPORT_BYTES
    ensures Handed(p) / REPORT_BYTES == p.blocks
  {
  }

  lemma SameTotalSameBlocks(p: Progress, q: Progress)
    requires p.filled < REPORT_BYTES && q.filled < REPORT_BYTES && Handed(p) == Handed(q)
    ensures p.blocks == q.blocks && p.filled == q.filled
  {
  }

  // ------------------------------------------------------------ the listener

  /** The listener's local state; `done` is the turns taken so far. */
  class Listener {
    const stream: seq<byte>
    var frame: array<byte>
    var filled: nat
    var began: Option<int>
    var fates: seq<Fate>
    ghost var done: seq<Turn>

    ghost function Now(): Progress
      reads this
    {
      ProgressOf(done, |stream|)
    }

    ghost predicate Valid()
      reads this, frame
    {
      Holds(Now()) && fates == FatesOf(stream, done)
    }

    /** The fields hold the progress `p`, and the frame its unfinished bytes. */
    ghost predicate Holds(p: Progress)
      reads this, frame
    {
      && Possible(p, |stream|) && filled == p.filled && began == p.began
      && frame.Length == REPORT_BYTES && frame[..filled] == stream[Handed(p) - filled..Handed(p)]
    }

    constructor (stream: seq<byte>)
      ensures Valid() && fresh(frame) && this.stream == stream && done == []
    {
      this.stream := stream;
      filled, began, fates, done := 0, None, [], [];
      frame := new byte[REPORT_BYTES](_ => 0);
      new;
      assert Now() == Progress(0, 0, None) && FatesOf(stream, done) == [];
      assert frame[..0] == stream[0..0];
    }

    /** One iteration of the read loop, `pipe` being the bytes still to come. */
    method TakeTurn(turn: Turn, pipe: seq<byte>) returns (ending: Ending, received: nat)
      requires Valid() && pipe == stream[Handed(Now())..]
      modifies this, frame
      ensures ending == EndingOf(old(Now()), |stream|, turn)
      ensures ending.StillRunning? ==> Valid() && done == old(done) + [turn] && (frame == old(frame) || fresh(frame))
      ensures ending.StillRunning? ==> received == Chunk(old(Now()), |stream|, turn)
      ensures !ending.StillRunning? ==> done == old(done) && fates == old(fates)
    {
      ghost var p := Now();
      ending, received := Iterate(turn, pipe, p);
      if ending.StillRunning? {
        TurnCounts(stream, done, turn);
        done := done + [turn];
        assert Now() == Count(p, |stream|, turn);
      }
    }

    /** The loop body: the checks in their order, the read between them, and the bookkeeping after. */
    method Iterate(turn: Turn, pipe: seq<byte>, ghost p: Progress) returns (ending: Ending, received: nat)
      requires Holds(p) && pipe == stream[Handed(p)..]
      modifies this`fates, this`filled, this`began, this`frame, frame
      ensures ending == EndingOf(p, |stream|, turn)
      ensures ending.StillRunning? ==> received == Chunk(p, |stream|, turn)
      ensures ending.StillRunning? ==> Holds(Count(p, |stream|, turn)) && fates == old(fates) + Gained(stream, p, turn)
      ensures frame == old(frame) || fresh(frame)
      ensures !ending.StillRunning? ==> fates == old(fates)
    {
      received := 0;
      if !turn.live {
        return NotLive, received;
      }
      if filled != 0 && PartialReportExpired(began, turn.checked) {
        return Expired, received;
      }
      received := Receive(turn.read, pipe, Handed(p));
      if filled != 0 && PartialReportExpired(began, turn.returned) {
        return Expired, received;
      }
      if turn.read.Failed? {
        return ReadFailed, received;
      }
      ending := Settle(turn, received, p);
    }

    /** One bounded read into the unfilled part of the frame; `at` bytes of the stream were handed over before. */
    method Receive(read: Read, pipe: seq<byte>, ghost at: nat) returns (received: nat)
      requires filled <= at <= |stream| && pipe == stream[at..]
      requires frame.Length == REPORT_BYTES && filled < REPORT_BYTES && frame[..filled] == stream[at - filled..at]
      modifies frame
      ensures received == if read.Data? then Min(Min(read.available, REPORT_BYTES - filled), |pipe|) else 0
      ensures frame[..filled + received] == stream[at - filled..at + received]
    {
      received := 0;
      if read.Data? {
        received := Min(Min(read.available, REPORT_BYTES - filled), |pipe|);
      }
      CopyIn(frame, filled, pipe[..received]);
      assert stream[at - filled..at + received] == stream[at - filled..at] + stream[at..at + received];
    }

    /** The rest of the iteration: count the bytes, and publish a complete frame that is still in time. */
    method Settle(turn: Turn, received: nat, ghost p: Progress) returns (ending: Ending)
      requires turn.live && !turn.read.Failed? && Possible(p, |stream|) && received == Chunk(p, |stream|, turn)
      requires !PartialReportExpired(p.began, turn.checked) && !PartialReportExpired(p.began, turn.returned)
      requires filled == p.filled && began == p.began && frame.Length == REPORT_BYTES
      requires frame[..filled + received] == stream[Handed(p) - filled..Handed(p) + received]
      modifies this`fates, this`filled, this`began, this`frame
      ensures ending == EndingOf(p, |stream|, turn)
      ensures ending.StillRunning? ==> Holds(Count(p, |stream|, turn)) && fates == old(fates) + Gained(stream, p, turn)
      ensures frame == old(frame) || fresh(frame)
      ensures !ending.StillRunning? ==> fates == old(fates)
    {
      if received == 0 {
        return StillRunning;
      }
      if filled == 0 {
        began := Some(turn.first);
      }
      filled := filled + received;
      if filled < REPORT_BYTES {
        return StillRunning;
      }
      if PartialReportExpired(began, turn.sent) {
        return Expired;
      }
      Publish(turn, p);
      return StillRunning;
    }

    /** Offer the complete frame to the one-slot mailbox, and start the next frame either way. */
    method Publish(turn: Turn, ghost p: Progress)
      requires Possible(p, |stream|) && Completes(p, |stream|, turn) && began == FrameBegan(p, turn)
      requires frame.Length == REPORT_BYTES
      requires frame[..REPORT_BYTES] == stream[Handed(p) - p.filled..Handed(p) - p.filled + REPORT_BYTES]
      modifies this`fates, this`filled, this`began, this`frame
      ensures fates == old(fates) + [FateOf(stream, p, turn)] && filled == 0 && began == None
      ensures fresh(frame) && frame.Length == REPORT_BYTES
    {
      assert frame[..] == frame[..REPORT_BYTES] == Block(stream, p.blocks);
      fates := fates + [if turn.mailboxFree then Published(began.value, turn.sent, frame[..]) else DroppedWhole];
      filled, began := 0, None;
      frame := new byte[REPORT_BYTES](_ => 0);
    }
  }

  lemma {:induction false} TurnCounts(stream: seq<byte>, turns: seq<Turn>, turn: Turn)
    ensures ProgressOf(turns + [turn], |stream|) == Count(ProgressOf(turns, |stream|), |stream|, turn)
    ensures FatesOf(stream, turns + [turn]) == FatesOf(stream, turns) + Gained(stream, ProgressOf(turns, |stream|),
      turn)
  {
    assert (turns + [turn])[..|turns|] == turns;
  }

  method CopyIn(frame: array<byte>, offset: nat, bytes: seq<byte>)
    requires offset + |bytes| <= frame.Length
    modifies frame
    ensures frame[..offset + |bytes|] == old(frame[..offset]) + bytes
  {
    for i := 0 to |bytes|
      invariant frame[..offset + i] == old(frame[..offset]) + bytes[..i]
    {
      frame[offset + i] := bytes[i];
      assert frame[..offset + i + 1] == frame[..offset + i] + [bytes[i]];
      assert bytes[..i + 1] == bytes[..i] + [bytes[i]];
    }
    assert bytes[..|bytes|] == bytes;
  }

  lemma {:induction false} OneMoreTurn(stream: seq<byte>, turns: seq<Turn>, taken: nat)
    requires taken < |turns| && Undisturbed(turns[..taken], |stream|)
    requires EndingOf(ProgressOf(turns[..taken], |stream|), |stream|, turns[taken]).StillRunning?
    ensures turns[..taken + 1] == turns[..taken] + [turns[taken]]
    ensures Undisturbed(turns[..taken + 1], |stream|)
    ensures HandedOver(turns[..taken + 1], |stream|) ==
      HandedOver(turns[..taken], |stream|) + Chunk(ProgressOf(turns[..taken], |stream|), |stream|, turns[taken])
  {
    assert turns[..taken + 1] == turns[..taken] + [turns[taken]];
    TurnCounts(stream, turns[..taken], turns[taken]);
    assert Continues(turns, |stream|, taken);
    UndisturbedLonger(turns, taken, |stream|);
  }

  /**
    `run_one_listener`: the loop takes turns up to the first that ends it, for
    exactly the reason that turn gives, and has then been handed exactly the
    bytes of the turns it took and settled exactly their blocks, each published
    whole and in time or dropped whole.
  */
  method RunOneListener(stream: seq<byte>, turns: seq<Turn>)
    returns (fates: seq<Fate>, taken: nat, consumed: nat, ending: Ending)
    ensures taken <= |turns| && Undisturbed(turns[..taken], |stream|)
    ensures ending ==
      if taken < |turns| then EndingOf(ProgressOf(turns[..taken], |stream|), |stream|, turns[taken]) else StillRunning
    ensures taken < |turns| ==> !ending.StillRunning?
    ensures consumed == HandedOver(turns[..taken], |stream|)
    ensures fates == FatesOf(stream, turns[..taken]) && FatesOk(stream, fates) && |fates| == consumed / REPORT_BYTES
  {
    var listener := new Listener(stream);
    taken, consumed, ending := 0, 0, StillRunning;
    while taken < |turns|
      invariant taken <= |turns| && fresh(listener) && fresh(listener.frame)
      invariant listener.stream == stream && listener.done == turns[..taken] && listener.Valid()
      invariant Undisturbed(turns[..taken], |stream|) && consumed == HandedOver(turns[..taken], |stream|)
      invariant ending.StillRunning?
    {
      var received: nat;
      ending, received := listener.TakeTurn(turns[taken], stream[consumed..]);
      if !ending.StillRunning? {
        break;
      }
      OneMoreTurn(stream, turns, taken);
      taken, consumed := taken + 1, consumed + received;
    }
    fates := listener.fates;
    FatesAreBlocks(stream, turns[..taken]);
    WholeBlocks(ProgressOf(turns[..taken], |stream|));
  }

  lemma UndisturbedLonger(turns: seq<Turn>, k: nat, length: nat)
    requires k < |turns| && Undisturbed(turns[..k], length) && Continues(turns, length, k)
    ensures Undisturbed(turns[..k + 1], length)
  {
    var longer := turns[..k + 1];
    Prefixes(longer);
    assert longer[..k] == turns[..k];
    forall i | 0 <= i < |longer| ensures Continues(longer, length, i) {
      assert i < k ==> Continues(turns[..k], length, i);
    }
  }
}
