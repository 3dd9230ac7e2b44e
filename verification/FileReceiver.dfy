/**
  The receiver in front of the inbox sink: one active transfer bound to the
  peer that offered it, a running digest of the accepted bytes, and a short
  memory of finished identifiers. Messages come from any peer in any order and
  every storage operation may fail.
*/
module FileReceiver {
  import opened Wrappers
  import S = InboxStorage

  const MAX_FILE_CHUNK_BYTES := 64 * 1024
  const RECENT_TERMINAL_TRANSFER_IDS := 16

  datatype Peer = Peer(principal: int, session: nat)

  /** `wellFormed` stands for the identifier, filename, digest-length and destination checks of the wire format. */
  datatype Offer = Offer(id: S.TransferId, size: nat, digest: seq<byte>, wellFormed: bool)

  /** `fed` is what the running digest has been fed. */
  datatype Transfer = Transfer(peer: Peer, offer: Offer, nextOffset: nat, fed: seq<byte>)

  /** `completed` is history: the offers behind `sink.published`, in the same order. */
  datatype Receiver = Receiver(sink: S.Sink, active: Option<Transfer>, recent: seq<S.TransferId>, completed: seq<Offer>)

  datatype Reply = Accepted | Progress(next: nat) | Completed(total: nat) | Cancelled(next: nat) | Refused

  datatype Message =
    | OfferFile(peer: Peer, offer: Offer, created: bool)
    | Chunk(peer: Peer, id: S.TransferId, offset: nat, content: seq<byte>, written: bool, landed: nat)
    | Finish(peer: Peer, id: S.TransferId, synced: bool, renamed: bool)
    | Cancel(peer: Peer, id: S.TransferId)

  function Remember(recent: seq<S.TransferId>, id: S.TransferId): seq<S.TransferId> {
    (if |recent| == RECENT_TERMINAL_TRANSFER_IDS then recent[1..] else recent) + [id]
  }

  predicate Bound(r: Receiver, peer: Peer, id: S.TransferId) {
    r.active.Some? && r.active.value.peer == peer && r.active.value.offer.id == id
  }

  function OnOffer(r: Receiver, peer: Peer, offer: Offer, created: bool): (Receiver, Reply) {
    if peer.session == 0 || !offer.wellFormed || offer.size == 0 ||
      offer.size > S.MAX_FILE_TRANSFER_BYTES then (r, Refused)
    else if r.active.Some? then
      (r, if Bound(r, peer, offer.id) &&
        r.active.value.offer == offer then Progress(r.active.value.nextOffset) else Refused)
    else if offer.id in r.recent then (r, Refused)
    else
      var (sink, began) := S.Begin(r.sink, offer.id, offer.size, created);
      if began.Failed? then (r.(sink := S.Abort(sink, offer.id)), Refused)
      else (r.(sink := sink, active := Some(Transfer(peer, offer, 0, []))), Accepted)
  }

  function OnChunk(r: Receiver, m: Message): (Receiver, Reply)
    requires m.Chunk?
  {
    if m.peer.session == 0 || m.content == [] || |m.content| > MAX_FILE_CHUNK_BYTES
       || m.offset + |m.content| > S.MAX_FILE_TRANSFER_BYTES || !Bound(r, m.peer, m.id) then (r, Refused) else
    var a := r.active.value;
    if m.offset != a.nextOffset || m.offset + |m.content| > a.offer.size then (r, Refused) else
    var (sink, appended) := S.Append(r.sink, m.id, m.offset, m.content, m.written, m.landed);
    if appended.Failed? then
      (r.(sink := S.Abort(sink, m.id), active := None, recent := Remember(r.recent, m.id)), Refused)
    else
      var end := m.offset + |m.content|;
      (r.(sink := sink, active := Some(a.(nextOffset := end, fed := a.fed + m.content))), Progress(end))
  }

  function OnFinish(sha256: seq<byte> -> seq<byte>, r: Receiver, m: Message): (Receiver, Reply)
    requires m.Finish?
  {
    if m.peer.session == 0 || !Bound(r, m.peer, m.id) then (r, Refused) else
    var a := r.active.value;
    if a.nextOffset != a.offer.size then (r, Refused)
    else if sha256(a.fed) != a.offer.digest then
      (r.(sink := S.Abort(r.sink, m.id), active := None, recent := Remember(r.recent, m.id)), Refused)
    else
      var (sink, done) := S.Complete(r.sink, m.id, m.synced, m.renamed);
      if done.Failed? then (r.(sink := S.Abort(sink, m.id), active := None), Refused)
      else
        (r.(sink := sink, active := None, recent := Remember(r.recent, m.id), completed := r.completed + [a.offer]),
         Completed(a.nextOffset))
  }

  function OnCancel(r: Receiver, peer: Peer, id: S.TransferId): (Receiver, Reply) {
    if peer.session == 0 || !Bound(r, peer, id) then (r, Refused)
    else (r.(sink := S.Abort(r.sink, id), active := None, recent := Remember(r.recent, id)),
      Cancelled(r.active.value.nextOffset))
  }

  function Handle(sha256: seq<byte> -> seq<byte>, r: Receiver, m: Message): (Receiver, Reply) {
    match m
    case OfferFile(peer, offer, created) => OnOffer(r, peer, offer, created)
    case Chunk(_, _, _, _, _, _) => OnChunk(r, m)
    case Finish(_, _, _, _) => OnFinish(sha256, r, m)
    case Cancel(peer, id) => OnCancel(r, peer, id)
  }

  function Run(sha256: seq<byte> -> seq<byte>, r: Receiver, messages: seq<Message>): Receiver
    decreases |messages|
  {
    if messages == [] then r else Run(sha256, Handle(sha256, r, messages[0]).0, messages[1..])
  }

  // -------------------------------------------------------------- invariant

  /** Receiver and sink agree on the one active transfer, and its partial file is intact. */
  ghost predicate InStep(r: Receiver) {
    && (r.active.Some? <==> r.sink.active.Some?)
    && (r.active.Some? ==>
          var a, f := r.active.value, r.sink.active.value;
          && f == S.Active(a.offer.id, a.nextOffset, a.offer.size, a.fed, false)
          && a.nextOffset <= a.offer.size)
  }

  ghost predicate Matches(sha256: seq<byte> -> seq<byte>, p: S.Active, offer: Offer) {
    !p.torn && p.id == offer.id && p.declared == offer.size && sha256(p.accepted) == offer.digest
  }

  ghost predicate HistoryOk(sha256: seq<byte> -> seq<byte>, r: Receiver) {
    && |r.completed| == |r.sink.published|
    && forall i :: 0 <= i < |r.completed| ==> Matches(sha256, r.sink.published[i], r.completed[i])
  }

  ghost predicate Inv(sha256: seq<byte> -> seq<byte>, r: Receiver, original: map<string, seq<byte>>) {
    S.Inv(r.sink, original) && InStep(r) && HistoryOk(sha256, r) && |r.recent| <= RECENT_TERMINAL_TRANSFER_IDS
  }

  lemma InvOffer(sha256: seq<byte> -> seq<byte>, r: Receiver, original: map<string, seq<byte>>, m: Message)
    requires Inv(sha256, r, original) && m.OfferFile?
    ensures Inv(sha256, Handle(sha256, r, m).0, original)
  {
    S.InvBegin(r.sink, original, m.offer.id, m.offer.size, m.created);
  }

  lemma InvChunk(sha256: seq<byte> -> seq<byte>, r: Receiver, original: map<string, seq<byte>>, m: Message)
    requires Inv(sha256, r, original) && m.Chunk?
    ensures Inv(sha256, Handle(sha256, r, m).0, original)
  {
    var op := S.AppendOp(m.id, m.offset, m.content, m.written, m.landed);
    S.InvNext(r.sink, original, op);
    S.InvNext(S.Next(r.sink, op), original, S.AbortOp(m.id));
  }

  lemma InvFinish(sha256: seq<byte> -> seq<byte>, r: Receiver, original: map<string, seq<byte>>, m: Message)
    requires Inv(sha256, r, original) && m.Finish?
    ensures Inv(sha256, Handle(sha256, r, m).0, original)
  {
    var op := S.CompleteOp(m.id, m.synced, m.renamed);
    S.InvNext(r.sink, original, S.AbortOp(m.id));
    S.InvNext(r.sink, original, op);
    S.InvNext(S.Next(r.sink, op), original, S.AbortOp(m.id));
  }

  lemma {:induction false} InvRun(
      sha256: seq<byte> -> seq<byte>, r: Receiver, original: map<string, seq<byte>>, messages: seq<Message>)
    requires Inv(sha256, r, original)
    ensures Inv(sha256, Run(sha256, r, messages), original)
    decreases |messages|
  {
    if messages != [] {
      var m := messages[0];
      match m {
        case OfferFile(_, _, _) => InvOffer(sha256, r, original, m);
        case Chunk(_, _, _, _, _, _) => InvChunk(sha256, r, original, m);
        case Finish(_, _, _, _) => InvFinish(sha256, r, original, m);
        case Cancel(_, id) => S.InvNext(r.sink, original, S.AbortOp(id));
      }
      InvRun(sha256, Handle(sha256, r, m).0, original, messages[1..]);
    }
  }

  function Fresh(files: map<string, seq<byte>>): Receiver {
    Receiver(S.Sink(files, None, []), None, [], [])
  }

  // ------------------------------------------------------------- properties

  /**
    Whatever messages arrive and whatever storage failures occur, every file
    published into the inbox is the one its offer announced: the announced
    size, bytes with the announced digest, under a name that did not exist
    before. Files that were there before are untouched.
  */
  lemma {:induction false} PublishedFilesMatchTheirOffers(
      sha256: seq<byte> -> seq<byte>, files: map<string, seq<byte>>, messages: seq<Message>)
    ensures var r := Run(sha256, Fresh(files), messages);
      && S.OriginalsKept(r.sink, files)
      && (forall i :: 0 <= i < |r.completed| ==>
            var name := S.FinalName(r.completed[i].id);
            && name in r.sink.files && name !in files
            && |r.sink.files[name]| == r.completed[i].size && sha256(r.sink.files[name]) == r.completed[i].digest)
  {
    InvRun(sha256, Fresh(files), files, messages);
    var r := Run(sha256, Fresh(files), messages);
    forall i | 0 <= i < |r.completed|
      ensures var name := S.FinalName(r.completed[i].id);
        && name in r.sink.files && name !in files
        && |r.sink.files[name]| == r.completed[i].size && sha256(r.sink.files[name]) == r.completed[i].digest
    {
      assert Matches(sha256, r.sink.published[i], r.completed[i]);
      assert S.PublishedOk(r.sink, files, r.sink.published[i]);
    }
  }

  /** Nothing else is left behind: every new file is a completed transfer's or the active one's partial file. */
  lemma {:induction false} InboxHoldsNothingElse(
      sha256: seq<byte> -> seq<byte>, files: map<string, seq<byte>>, messages: seq<Message>, n: string)
    requires n in Run(sha256, Fresh(files), messages).sink.files && n !in files
    ensures var r := Run(sha256, Fresh(files), messages);
      || (r.active.Some? && n == S.TempName(r.active.value.offer.id) && r.sink.files[n] == r.active.value.fed)
      || exists i :: 0 <= i < |r.completed| && n == S.FinalName(r.completed[i].id)
  {
    InvRun(sha256, Fresh(files), files, messages);
    var r := Run(sha256, Fresh(files), messages);
    if S.IsPublishedName(r.sink, n) {
      var i :| 0 <= i < |r.sink.published| && S.FinalName(r.sink.published[i].id) == n;
      assert Matches(sha256, r.sink.published[i], r.completed[i]);
    }
  }

  // ---------------------------------------------------- every file gets through

  lemma {:induction false} RunAppend(
      sha256: seq<byte> -> seq<byte>, r: Receiver, messages: seq<Message>, more: seq<Message>)
    ensures Run(sha256, r, messages + more) == Run(sha256, Run(sha256, r, messages), more)
    decreases |messages|
  {
    if messages == [] {
      assert messages + more == more;
    } else {
      assert (messages + more)[1..] == messages[1..] + more;
      RunAppend(sha256, Handle(sha256, r, messages[0]).0, messages[1..], more);
    }
  }

  lemma {:induction false} RunOnce(sha256: seq<byte> -> seq<byte>, r: Receiver, messages: seq<Message>)
    requires messages != []
    ensures Run(sha256, r, messages) == Run(sha256, Handle(sha256, r, messages[0]).0, messages[1..])
  {
  }

  function Concat(chunks: seq<seq<byte>>): seq<byte> {
    if chunks == [] then [] else chunks[0] + Concat(chunks[1..])
  }

  /** The chunks one after the other, from an offset on. */
  function ChunkMessages(peer: Peer, id: S.TransferId, offset: nat, chunks: seq<seq<byte>>): seq<Message>
    decreases |chunks|
  {
    if chunks == [] then []
    else [Chunk(peer, id, offset, chunks[0], true, 0)] + ChunkMessages(peer, id, offset + |chunks[0]|, chunks[1..])
  }

  predicate Sendable(chunks: seq<seq<byte>>) {
    forall i :: 0 <= i < |chunks| ==> 0 < |chunks[i]| <= MAX_FILE_CHUNK_BYTES
  }

  function ChunkAt(a: Transfer, content: seq<byte>): Message {
    Chunk(a.peer, a.offer.id, a.nextOffset, content, true, 0)
  }

  lemma {:induction false} ChunkArrives(sha256: seq<byte> -> seq<byte>, r: Receiver, content: seq<byte>)
    requires InStep(r) && r.active.Some? && r.active.value.peer.session != 0
    requires 0 < |content| <= MAX_FILE_CHUNK_BYTES
    requires r.active.value.nextOffset + |content| <= r.active.value.offer.size <= S.MAX_FILE_TRANSFER_BYTES
    ensures var a := r.active.value;
      var t := Handle(sha256, r, ChunkAt(a, content)).0;
      && InStep(t) && t.recent == r.recent && t.completed == r.completed
      && t.active == Some(a.(nextOffset := a.nextOffset + |content|, fed := a.fed + content))
  {
  }

  /** The transfer once these bytes have arrived. */
  function Fed(a: Transfer, content: seq<byte>): Transfer {
    a.(nextOffset := a.nextOffset + |content|, fed := a.fed + content)
  }

  lemma {:induction false} FedTwice(a: Transfer, chunks: seq<seq<byte>>)
    requires chunks != []
    ensures Fed(Fed(a, chunks[0]), Concat(chunks[1..])) == Fed(a, Concat(chunks))
    ensures |Concat(chunks)| == |chunks[0]| + |Concat(chunks[1..])|
  {
    assert a.fed + chunks[0] + Concat(chunks[1..]) == a.fed + Concat(chunks);
  }

  ghost predicate Leads(sha256: seq<byte> -> seq<byte>, r: Receiver, m: Message, t: Receiver) {
    Handle(sha256, r, m).0 == t
  }

  ghost predicate IsTrace(sha256: seq<byte> -> seq<byte>, states: seq<Receiver>, messages: seq<Message>) {
    && |states| == |messages| + 1
    && forall k :: 0 <= k < |messages| ==> Leads(sha256, states[k], messages[k], states[k + 1])
  }

  lemma {:induction false} RunTrace(sha256: seq<byte> -> seq<byte>, states: seq<Receiver>, messages: seq<Message>)
    requires IsTrace(sha256, states, messages)
    ensures Run(sha256, states[0], messages) == states[|messages|]
    decreases |messages|
  {
    if messages != [] {
      assert Leads(sha256, states[0], messages[0], states[1]);
      forall k | 0 <= k < |messages| - 1 ensures Leads(sha256, states[1..][k], messages[1..][k], states[1..][k + 1]) {
        assert Leads(sha256, states[k + 1], messages[k + 1], states[k + 2]);
      }
      RunTrace(sha256, states[1..], messages[1..]);
    }
  }

  lemma TraceLonger(
      sha256: seq<byte> -> seq<byte>, r: Receiver, m: Message, states: seq<Receiver>, messages: seq<Message>)
    requires IsTrace(sha256, states, messages) && Leads(sha256, r, m, states[0])
    ensures IsTrace(sha256, [r] + states, [m] + messages)
  {
    forall k | 0 <= k < |messages| + 1
      ensures Leads(sha256, ([r] + states)[k], ([m] + messages)[k], ([r] + states)[k + 1])
    {
      assert k > 0 ==> Leads(sha256, states[k - 1], messages[k - 1], states[k]);
    }
  }

  /** What the chunks leave unchanged, and the transfer they leave behind. */
  ghost predicate Arrived(r: Receiver, t: Receiver, content: seq<byte>)
    requires r.active.Some?
  {
    InStep(t) && t.recent == r.recent && t.completed == r.completed && t.active == Some(Fed(r.active.value, content))
  }

  lemma {:induction false} ChunkTrace(sha256: seq<byte> -> seq<byte>, r: Receiver, chunks: seq<seq<byte>>)
    returns (states: seq<Receiver>)
    requires InStep(r) && r.active.Some? && r.active.value.peer.session != 0 && Sendable(chunks)
    requires r.active.value.nextOffset + |Concat(chunks)| <= r.active.value.offer.size <= S.MAX_FILE_TRANSFER_BYTES
    ensures var a := r.active.value;
      IsTrace(sha256, states, ChunkMessages(a.peer, a.offer.id, a.nextOffset, chunks))
    ensures states[0] == r && Arrived(r, states[|states| - 1], Concat(chunks))
    decreases |chunks|
  {
    var a := r.active.value;
    if chunks == [] {
      states := [r];
      assert a.fed + [] == a.fed;
    } else {
      FedTwice(a, chunks);
      ChunkArrives(sha256, r, chunks[0]);
      var next := Handle(sha256, r, ChunkAt(a, chunks[0])).0;
      var rest := ChunkTrace(sha256, next, chunks[1..]);
      TraceLonger(sha256, r, ChunkAt(a, chunks[0]), rest,
        ChunkMessages(a.peer, a.offer.id, a.nextOffset + |chunks[0]|, chunks[1..]));
      states := [r] + rest;
    }
  }

  lemma {:induction false} ChunksArrive(sha256: seq<byte> -> seq<byte>, r: Receiver, chunks: seq<seq<byte>>)
    requires InStep(r) && r.active.Some? && r.active.value.peer.session != 0 && Sendable(chunks)
    requires r.active.value.nextOffset + |Concat(chunks)| <= r.active.value.offer.size <= S.MAX_FILE_TRANSFER_BYTES
    ensures var a := r.active.value;
      Arrived(r, Run(sha256, r, ChunkMessages(a.peer, a.offer.id, a.nextOffset, chunks)), Concat(chunks))
  {
    var a := r.active.value;
    var states := ChunkTrace(sha256, r, chunks);
    RunTrace(sha256, states, ChunkMessages(a.peer, a.offer.id, a.nextOffset, chunks));
  }

  /** An offer, its chunks and the finish, with nothing in between and working storage. */
  function Transmission(peer: Peer, offer: Offer, chunks: seq<seq<byte>>): seq<Message> {
    [OfferFile(peer, offer, true)] + ChunkMessages(peer, offer.id, 0, chunks) + [Finish(peer, offer.id, true, true)]
  }

  /** A new identifier of a peer in session, and an offer the wire format and the limits allow. */
  predicate Acceptable(r: Receiver, peer: Peer, offer: Offer) {
    && peer.session != 0 && offer.wellFormed && 0 < offer.size <= S.MAX_FILE_TRANSFER_BYTES
    && r.active.None? && offer.id !in r.recent
    && S.TempName(offer.id) !in r.sink.files && S.FinalName(offer.id) !in r.sink.files
  }

  lemma {:induction false} OfferIsTaken(
      sha256: seq<byte> -> seq<byte>, r: Receiver, original: map<string, seq<byte>>, peer: Peer, offer: Offer)
    requires Inv(sha256, r, original) && Acceptable(r, peer, offer)
    ensures var t := Handle(sha256, r, OfferFile(peer, offer, true)).0;
      && Inv(sha256, t, original) && t.recent == r.recent && t.completed == r.completed
      && t.active == Some(Transfer(peer, offer, 0, []))
  {
    InvOffer(sha256, r, original, OfferFile(peer, offer, true));
  }

  lemma {:induction false} FinishPublishes(
      sha256: seq<byte> -> seq<byte>, r: Receiver, original: map<string, seq<byte>>)
    requires Inv(sha256, r, original) && r.active.Some? && r.active.value.peer.session != 0
    requires r.active.value.nextOffset == r.active.value.offer.size
    requires sha256(r.active.value.fed) == r.active.value.offer.digest
    ensures var a := r.active.value;
      var (t, reply) := Handle(sha256, r, Finish(a.peer, a.offer.id, true, true));
      && reply == Completed(a.offer.size) && t.active.None? && t.completed == r.completed + [a.offer]
      && S.FinalName(a.offer.id) in t.sink.files && t.sink.files[S.FinalName(a.offer.id)] == a.fed
  {
    var a := r.active.value;
    assert S.ActiveOk(r.sink, original);
  }

  /**
    From every reachable idle state every acceptable file gets through, however
    it is cut into chunks: it is published with exactly its own bytes.
  */
  lemma {:induction false} EveryFileCanBeReceived(sha256: seq<byte> -> seq<byte>, files: map<string, seq<byte>>,
      messages: seq<Message>, peer: Peer, offer: Offer, chunks: seq<seq<byte>>)
    requires Acceptable(Run(sha256, Fresh(files), messages), peer, offer) && Sendable(chunks)
    requires |Concat(chunks)| == offer.size && sha256(Concat(chunks)) == offer.digest
    ensures var r := Run(sha256, Fresh(files), messages);
      var t := Run(sha256, Fresh(files), messages + Transmission(peer, offer, chunks));
      && t.active.None? && t.completed == r.completed + [offer]
      && S.FinalName(offer.id) in t.sink.files && t.sink.files[S.FinalName(offer.id)] == Concat(chunks)
  {
    var r := Run(sha256, Fresh(files), messages);
    var first, parts, last :=
      [OfferFile(peer, offer, true)], ChunkMessages(peer, offer.id, 0, chunks), [Finish(peer, offer.id, true, true)];
    InvRun(sha256, Fresh(files), files, messages);
    RunAppend(sha256, Fresh(files), messages, Transmission(peer, offer, chunks));
    RunAppend(sha256, r, first + parts, last);
    RunAppend(sha256, r, first, parts);
    OfferIsTaken(sha256, r, files, peer, offer);
    var offered := Run(sha256, r, first);
    assert first[1..] == [] && last[1..] == [];
    assert offered == Handle(sha256, r, first[0]).0;
    ChunksArrive(sha256, offered, chunks);
    assert [] + Concat(chunks) == Concat(chunks);
    InvRun(sha256, r, files, first + parts);
    FinishPublishes(sha256, Run(sha256, offered, parts), files);
  }

  // ------------------------------------------------------------ what replies mean

  /**
    In every reachable state a reply says what happened: progress names the
    bytes accepted so far, completion the published file, cancellation the
    bytes thrown away; a refusal publishes nothing.
  */
  lemma {:induction false} RepliesMean(
      sha256: seq<byte> -> seq<byte>, files: map<string, seq<byte>>, messages: seq<Message>, m: Message)
    ensures var r := Run(sha256, Fresh(files), messages);
      var (t, reply) := Handle(sha256, r, m);
      && (reply.Progress? ==>
            && t.active.Some? && |t.active.value.fed| == reply.next == t.active.value.nextOffset
            && t.active.value.peer == m.peer && t.completed == r.completed)
      && (reply == Accepted <==> r.active.None? && t.active.Some?)
      && (reply.Completed? <==> |t.completed| == |r.completed| + 1)
      && (reply.Completed? ==>
            && r.active.Some? && t.active.None? && reply.total == r.active.value.offer.size
            && t.completed == r.completed + [r.active.value.offer])
      && (reply.Cancelled? ==>
            && r.active.Some? && t.active.None? && reply.next == |r.active.value.fed|
            && t.completed == r.completed)
      && (reply == Refused ==> t.completed == r.completed && (t.active == r.active || t.active.None?))
  {
    var r := Run(sha256, Fresh(files), messages);
    InvRun(sha256, Fresh(files), files, messages);
    assert S.ActiveOk(r.sink, files);
  }

  /** A transfer that was published is never taken again: every later offer of its identifier is refused. */
  lemma {:induction false} CompletedIsFinal(sha256: seq<byte> -> seq<byte>, files: map<string, seq<byte>>,
      messages: seq<Message>, i: nat, peer: Peer, offer: Offer, created: bool)
    requires i < |Run(sha256, Fresh(files), messages).completed|
    requires offer.id == Run(sha256, Fresh(files), messages).completed[i].id
    ensures Handle(sha256, Run(sha256, Fresh(files), messages), OfferFile(peer, offer, created)).1 == Refused
  {
    var r := Run(sha256, Fresh(files), messages);
    InvRun(sha256, Fresh(files), files, messages);
    assert Matches(sha256, r.sink.published[i], r.completed[i]);
    assert S.PublishedOk(r.sink, files, r.sink.published[i]);
    assert S.ActiveOk(r.sink, files);
  }

  /** Only the peer that offered a transfer can move or end it. */
  lemma {:induction false} OnlyItsOwnPeer(
      sha256: seq<byte> -> seq<byte>, r: Receiver, m: Message)
    requires r.active.Some? && (m.peer != r.active.value.peer || (!m.OfferFile? && m.id != r.active.value.offer.id))
    ensures Handle(sha256, r, m) == (r, Refused)
  {
  }

  // -------------------------------------------------- ended identifiers are remembered

  /** The message ends the active transfer for good: published, cancelled, or lost to a failed write or digest. */
  predicate EndsTransfer(sha256: seq<byte> -> seq<byte>, r: Receiver, m: Message) {
    && r.active.Some? && Handle(sha256, r, m).0.active.None?
    && !(m.Finish? && sha256(r.active.value.fed) == r.active.value.offer.digest && Handle(sha256, r, m).1 == Refused)
  }

  /** How many of the messages end a transfer. */
  function Endings(sha256: seq<byte> -> seq<byte>, r: Receiver, messages: seq<Message>): nat
    decreases |messages|
  {
    if messages == [] then 0
    else Endings(sha256, Handle(sha256, r, messages[0]).0, messages[1..])
         + if EndsTransfer(sha256, r, messages[0]) then 1 else 0
  }

  /** The identifier stands `age` places before the end of the memory. */
  predicate RememberedAt(r: Receiver, id: S.TransferId, age: nat) {
    age < |r.recent| && r.recent[|r.recent| - 1 - age] == id
  }

  lemma {:induction false} EndingIsRemembered(sha256: seq<byte> -> seq<byte>, r: Receiver, m: Message)
    requires |r.recent| <= RECENT_TERMINAL_TRANSFER_IDS
    ensures var t := Handle(sha256, r, m).0;
      if EndsTransfer(sha256, r, m)
      then t.recent == Remember(r.recent, r.active.value.offer.id) && RememberedAt(t, r.active.value.offer.id, 0)
      else t.recent == r.recent
  {
  }

  lemma {:induction false} StillRemembered(
      sha256: seq<byte> -> seq<byte>, r: Receiver, messages: seq<Message>, id: S.TransferId, age: nat)
    requires |r.recent| <= RECENT_TERMINAL_TRANSFER_IDS && RememberedAt(r, id, age)
    requires age + Endings(sha256, r, messages) < RECENT_TERMINAL_TRANSFER_IDS
    ensures id in Run(sha256, r, messages).recent
    decreases |messages|
  {
    if messages != [] {
      EndingIsRemembered(sha256, r, messages[0]);
      var t := Handle(sha256, r, messages[0]).0;
      StillRemembered(sha256, t, messages[1..], id, if EndsTransfer(sha256, r, messages[0]) then age + 1 else age);
    }
  }

  ghost predicate ActiveIsNew(r: Receiver) {
    r.active.Some? ==> r.active.value.offer.id !in r.recent
  }

  lemma {:induction false} ActiveStaysNew(sha256: seq<byte> -> seq<byte>, r: Receiver, messages: seq<Message>)
    requires ActiveIsNew(r)
    ensures ActiveIsNew(Run(sha256, r, messages))
    decreases |messages|
  {
    if messages != [] {
      NewStep(sha256, r, messages[0]);
      ActiveStaysNew(sha256, Handle(sha256, r, messages[0]).0, messages[1..]);
    }
  }

  lemma NewStep(sha256: seq<byte> -> seq<byte>, r: Receiver, m: Message)
    requires ActiveIsNew(r)
    ensures ActiveIsNew(Handle(sha256, r, m).0)
  {
  }

  /** Until sixteen transfers have ended after it, the identifier of an ended transfer is refused to everybody. */
  lemma {:induction false} EndedIsRefused(sha256: seq<byte> -> seq<byte>, files: map<string, seq<byte>>,
      messages: seq<Message>, m: Message, more: seq<Message>, peer: Peer, offer: Offer, created: bool)
    requires var r := Run(sha256, Fresh(files), messages);
      && EndsTransfer(sha256, r, m) && offer.id == r.active.value.offer.id
      && Endings(sha256, Handle(sha256, r, m).0, more) < 16
    ensures var t := Run(sha256, Fresh(files), messages + [m] + more);
      Handle(sha256, t, OfferFile(peer, offer, created)) == (t, Refused)
  {
    var r := Run(sha256, Fresh(files), messages);
    var ended := Handle(sha256, r, m).0;
    RunAppend(sha256, Fresh(files), messages + [m], more);
    RunAppend(sha256, Fresh(files), messages, [m]);
    RunOnce(sha256, r, [m]);
    assert [m][1..] == [];
    InvRun(sha256, Fresh(files), files, messages);
    InvRun(sha256, Fresh(files), files, messages + [m]);
    EndingIsRemembered(sha256, r, m);
    StillRemembered(sha256, ended, more, offer.id, 0);
    ActiveStaysNew(sha256, Fresh(files), messages + [m] + more);
  }
}
