/** Safety of the two-endpoint transport over whole runs. */
module NoiseSafety {
  import opened Common
  import opened BigEndian
  import opened ReplayWindow
  import opened NoiseKeys
  import opened NoiseInvariants
  import opened NoisePeers

  ghost function Flatten(chunks: seq<seq<Byte>>): seq<Byte> {
    if chunks == [] then [] else Flatten(chunks[..|chunks| - 1]) + chunks[|chunks| - 1]
  }

  // ---- The invariant ------------------------------------------------------

  /** The part of an endpoint that the bodies it sends make claims about. */
  datatype View = View(epoch: nat, chunks: seq<seq<Byte>>, retained: seq<seq<Byte>>)

  function Shows(x: Endpoint): View {
    View(x.receiver.epoch, x.control.chunks, x.control.retained)
  }

  /** What a body of this kind asserts about the endpoint that sends it. */
  ghost predicate Claim(v: View, kind: Kind, body: seq<Byte>) {
    match kind
    case KeyAck => |body| == 8 && Get(body) <= v.epoch
    case Control => ChunkBody(v.chunks, body)
    case Ack => |body| == 4 && 1 <= Get(body) <= |v.retained|
    case Unknown => false
    case _ => true
  }

  ghost predicate ChunkBody(chunks: seq<seq<Byte>>, body: seq<Byte>) {
    && 5 <= |body| <= 4 + MAX_CHUNK
    && 1 <= Get(body[..4]) <= |chunks|
    && body[4..] == chunks[Get(body[..4]) - 1]
  }

  ghost predicate Claims(v: View, packets: seq<Packet>) {
    forall i :: 0 <= i < |packets| ==> Claim(v, packets[i].header.kind, packets[i].body)
  }

  ghost predicate SealedAs(p: Packet, kind: Kind, body: seq<Byte>, epoch: nat) {
    p.header.kind == kind && p.body == body && p.key.generation == epoch
  }

  ghost predicate Due(v: View, incoming: seq<Packet>, work: Work) {
    match work
    case Acknowledge(epoch) => epoch <= v.epoch
    case Reply(kind, body) => kind != KeyUpdate && Claim(v, kind, body)
    case Dispatch(kind, body, epoch, _) =>
      && epoch <= v.epoch
      && exists i :: 0 <= i < |incoming| && SealedAs(incoming[i], kind, body, epoch)
  }

  ghost predicate AllDue(v: View, incoming: seq<Packet>, todo: seq<Work>) {
    forall i :: 0 <= i < |todo| ==> Due(v, incoming, todo[i])
  }

  ghost predicate Numbers(p: Packet, entry: (nat, nat)) {
    p.key.generation == entry.0 && p.header.counter == entry.1
  }

  ghost predicate WasSent(sent: seq<Packet>, entry: (nat, nat)) {
    exists k :: 0 <= k < |sent| && Numbers(sent[k], entry)
  }

  /** Everything accepted was sent. */
  ghost predicate Heard(log: seq<(nat, nat)>, sent: seq<Packet>) {
    forall i :: 0 <= i < |log| ==> WasSent(sent, log[i])
  }

  /** The four faults only a dishonest or broken peer can cause. */
  predicate Accusing(fault: Option<Fault>) {
    fault in {Some(BadKeyUpdate), Some(BadKeyConfirmation), Some(BadControlChunk), Some(UnknownPacket)}
  }

  /** The writing half: chunks are numbered from 1 and cut the written bytes. */
  ghost predicate Numbered(c: ByteStream) {
    && c.writeSeq == |c.chunks| <= MAX_SEQUENCE
    && (c.waiting ==> c.chunks != [])
    && (forall i :: 0 <= i < |c.chunks| ==> 1 <= |c.chunks[i]| <= MAX_CHUNK)
    && Flatten(c.chunks) + c.left == c.written
  }

  /** The reading half; the expected number wraps to 0 after the last chunk. */
  ghost predicate Kept(c: ByteStream) {
    && |c.retained| <= MAX_SEQUENCE
    && c.expected == (if |c.retained| == MAX_SEQUENCE then 0 else |c.retained| + 1)
    && Flatten(c.retained) == c.delivered + c.pending + Flatten(c.recv)
    && forall i :: 0 <= i < |c.recv| ==> c.recv[i] != []
  }

  ghost predicate Bytes(c: ByteStream) {
    Numbered(c) && Kept(c)
  }

  ghost predicate Own(x: Endpoint) {
    && SenderInv(x.side, x.sender, x.sent)
    && ReceiverInv(x.side, x.receiver, x.log)
    && Claims(Shows(x), x.sent)
    && !Accusing(x.fault)
    && Bytes(x.control)
  }

  /** How far the peer's receive epoch may trail the send epoch. */
  ghost predicate EpochLink(s: Sender, epoch: nat) {
    && epoch <= s.epoch <= epoch + 1
    && (s.confirmed ==> s.epoch == epoch)
  }

  /** How far the peer's retained chunks may trail what has been numbered here. */
  ghost predicate StreamLink(c: ByteStream, retained: seq<seq<Byte>>) {
    && retained <= c.chunks
    && |c.chunks| <= |retained| + 1
    && (!c.waiting ==> |c.chunks| == |retained|)
    && forall i :: 0 <= i < |c.acks| ==> 1 <= c.acks[i] <= |retained|
  }

  ghost predicate Link(x: Endpoint, v: View) {
    EpochLink(x.sender, v.epoch) && StreamLink(x.control, v.retained)
  }

  ghost predicate Pair(x: Endpoint, y: Endpoint) {
    && x.side != y.side
    && Own(x) && Own(y)
    && Link(x, Shows(y)) && Link(y, Shows(x))
    && AllDue(Shows(x), y.sent, x.todo) && AllDue(Shows(y), x.sent, y.todo)
    && Heard(x.log, y.sent) && Heard(y.log, x.sent)
  }

  ghost predicate Inv(w: World) {
    Pair(w.a, w.b)
  }

  // ---- Monotone facts -----------------------------------------------------

  ghost predicate Grows(v: View, v': View) {
    v.epoch <= v'.epoch && v.chunks <= v'.chunks && v.retained <= v'.retained
  }

  lemma ClaimsGrow(v: View, v': View, packets: seq<Packet>)
    requires Grows(v, v') && Claims(v, packets)
    ensures Claims(v', packets)
  {
    forall i | 0 <= i < |packets| ensures Claim(v', packets[i].header.kind, packets[i].body) {
      assert Claim(v, packets[i].header.kind, packets[i].body);
    }
  }

  lemma DueGrows(v: View, v': View, before: seq<Packet>, after: seq<Packet>, todo: seq<Work>)
    requires Grows(v, v') && before <= after && AllDue(v, before, todo)
    ensures AllDue(v', after, todo)
  {
    forall i | 0 <= i < |todo| ensures Due(v', after, todo[i]) {
      assert Due(v, before, todo[i]);
      if todo[i].Dispatch? {
        var k :| 0 <= k < |before| && SealedAs(before[k], todo[i].kind, todo[i].body, todo[i].epoch);
        assert after[k] == before[k];
      }
    }
  }

  lemma HeardGrows(log: seq<(nat, nat)>, before: seq<Packet>, after: seq<Packet>)
    requires Heard(log, before) && before <= after
    ensures Heard(log, after)
  {
    forall i | 0 <= i < |log| ensures WasSent(after, log[i]) {
      assert WasSent(before, log[i]);
      var k :| 0 <= k < |before| && Numbers(before[k], log[i]);
      assert after[k] == before[k];
    }
  }

  lemma ClaimsSplit(v: View, old': seq<Packet>, new': seq<Packet>)
    requires Claims(v, old') && Claims(v, new')
    ensures Claims(v, old' + new')
  {}

  // ---- Sending ------------------------------------------------------------

  /** Only a confirmed sender starts a new epoch, and starting one unconfirms it. */
  lemma SendEpochs(s: Sender, now: int, kind: Kind, body: seq<Byte>, r: Sending)
    requires r == Send(s, now, kind, body) || r == Prepare(s, now)
    ensures r.sender.epoch == s.epoch || (s.confirmed && r.sender.epoch == s.epoch + 1)
    ensures r.sender.confirmed ==> s.confirmed && r.sender.epoch == s.epoch
  {}

  lemma Emits(s: Sender, now: int, kind: Kind, body: seq<Byte>, r: Sending)
    requires r == Send(s, now, kind, body) || r == Prepare(s, now)
    ensures forall i :: 0 <= i < |r.packets| ==>
      r.packets[i].header.kind == KeyUpdate || (r.packets[i].header.kind == kind && r.packets[i].body == body)
    ensures !Accusing(r.fault)
  {}

  ghost predicate Emission(x: Endpoint, r: Sending) {
    && SenderInv(x.side, r.sender, x.sent + r.packets)
    && (r.sender.epoch == x.sender.epoch || (x.sender.confirmed && r.sender.epoch == x.sender.epoch + 1))
    && (r.sender.confirmed ==> x.sender.confirmed && r.sender.epoch == x.sender.epoch)
    && Claims(Shows(x), r.packets)
    && !Accusing(r.fault)
  }

  lemma SendIsEmission(x: Endpoint, now: int, kind: Kind, body: seq<Byte>)
    requires SenderInv(x.side, x.sender, x.sent) && kind != KeyUpdate && Claim(Shows(x), kind, body)
    ensures Emission(x, Send(x.sender, now, kind, body))
  {
    SendKeeps(x.side, x.sender, x.sent, now, kind, body);
    SendEpochs(x.sender, now, kind, body, Send(x.sender, now, kind, body));
    Emits(x.sender, now, kind, body, Send(x.sender, now, kind, body));
  }

  lemma PrepareIsEmission(x: Endpoint, now: int)
    requires SenderInv(x.side, x.sender, x.sent)
    ensures Emission(x, Prepare(x.sender, now))
  {
    PrepareKeeps(x.side, x.sender, x.sent, now);
    SendEpochs(x.sender, now, Ping, [], Prepare(x.sender, now));
    Emits(x.sender, now, Ping, [], Prepare(x.sender, now));
  }

  lemma EmitKeeps(x: Endpoint, y: Endpoint, r: Sending)
    requires Pair(x, y) && Emission(x, r)
    ensures Pair(Emit(x, r), y)
  {
    var x' := Emit(x, r);
    assert Shows(x') == Shows(x) && x'.sent == x.sent + r.packets;
    ClaimsSplit(Shows(x), x.sent, r.packets);
    DueGrows(Shows(y), Shows(y), x.sent, x'.sent, y.todo);
    HeardGrows(y.log, x.sent, x'.sent);
  }

  lemma TransmissionKeeps(x: Endpoint, y: Endpoint, now: int, kind: Kind, body: seq<Byte>)
    requires Pair(x, y) && kind != KeyUpdate && Claim(Shows(x), kind, body)
    ensures Pair(Transmission(x, now, kind, body), y)
  {
    if x.fault.None? {
      SendIsEmission(x, now, kind, body);
      EmitKeeps(x, y, Send(x.sender, now, kind, body));
    }
  }

  // ---- Receiving ----------------------------------------------------------

  /** An accepted packet was sealed by the peer, never by oneself. */
  lemma CameFromPeer(x: Endpoint, y: Endpoint, p: Packet) returns (k: nat)
    requires Own(x) && Own(y) && x.side != y.side
    requires (p in x.sent || p in y.sent) && p.key.side == y.side
    ensures k < |y.sent| && y.sent[k] == p && SentUnder(y.side, y.sender, p)
  {
    assert forall i :: 0 <= i < |x.sent| ==> SentUnder(x.side, x.sender, x.sent[i]);
    k :| 0 <= k < |y.sent| && y.sent[k] == p;
    assert SentUnder(y.side, y.sender, y.sent[k]);
  }

  ghost predicate Acceptance(x: Endpoint, y: Endpoint, d: Datagram, o: Opening) {
    && ReceiverInv(x.side, o.receiver, Logged(x.log, d, o))
    && x.receiver.epoch <= o.receiver.epoch
    && (o.receiver.epoch > x.receiver.epoch ==> o.receiver.epoch == y.sender.epoch)
    && (o.result.Some? ==>
          && o.result.value.epoch <= o.receiver.epoch
          && exists k :: 0 <= k < |y.sent|
               && SealedAs(y.sent[k], d.header.kind, o.result.value.body, o.result.value.epoch))
    && Heard(Logged(x.log, d, o), y.sent)
  }

  lemma VerdictIsAcceptance(x: Endpoint, y: Endpoint, d: Datagram, o: Opening)
    requires Own(x) && Own(y) && x.side != y.side && EpochLink(y.sender, x.receiver.epoch)
    requires Heard(x.log, y.sent)
    requires d.cipher.Some? ==> d.cipher.value in x.sent || d.cipher.value in y.sent
    requires Verdict(x.side, x.receiver, x.log, d, o)
    ensures Acceptance(x, y, d, o)
  {
    if o.result.Some? {
      var k := CameFromPeer(x, y, d.cipher.value);
      assert SealedAs(y.sent[k], d.header.kind, o.result.value.body, o.result.value.epoch);
      assert Numbers(y.sent[k], (o.result.value.epoch, d.header.counter));
    }
  }

  lemma AcceptanceKeeps(x: Endpoint, y: Endpoint, d: Datagram, o: Opening)
    requires Pair(x, y) && Acceptance(x, y, d, o)
    ensures Pair(x.(receiver := o.receiver, log := Logged(x.log, d, o), todo := Following(d, o)), y)
  {
    var x' := x.(receiver := o.receiver, log := Logged(x.log, d, o), todo := Following(d, o));
    AcceptanceOwn(x, y, d, o, x');
    AcceptanceDue(x, y, d, o, x');
  }

  lemma AcceptanceOwn(x: Endpoint, y: Endpoint, d: Datagram, o: Opening, x': Endpoint)
    requires Own(x) && Acceptance(x, y, d, o)
    requires x' == x.(receiver := o.receiver, log := Logged(x.log, d, o), todo := Following(d, o))
    ensures Own(x')
  {
    ClaimsGrow(Shows(x), Shows(x'), x.sent);
  }

  lemma AcceptanceDue(x: Endpoint, y: Endpoint, d: Datagram, o: Opening, x': Endpoint)
    requires Acceptance(x, y, d, o)
    requires x' == x.(receiver := o.receiver, log := Logged(x.log, d, o), todo := Following(d, o))
    ensures AllDue(Shows(x'), y.sent, x'.todo)
  {
  }

  lemma ReceivedKeeps(x: Endpoint, y: Endpoint, d: Datagram, now: int)
    requires Pair(x, y)
    requires d.cipher.Some? ==> d.cipher.value in x.sent || d.cipher.value in y.sent
    ensures Pair(Received(x, d, now), y)
  {
    hide Decrypt, Verdict, Acceptance, SenderInv, Claims, Bytes, AllDue;
    var o := Decrypt(x.receiver, d, now);
    DecryptVerdict(x.side, x.receiver, x.log, d, now, o);
    VerdictIsAcceptance(x, y, d, o);
    AcceptanceKeeps(x, y, d, o);
  }

  // ---- The read loop's work -----------------------------------------------

  lemma DropFirst(v: View, incoming: seq<Packet>, todo: seq<Work>)
    requires AllDue(v, incoming, todo) && todo != []
    ensures Due(v, incoming, todo[0]) && AllDue(v, incoming, todo[1..])
  {}

  lemma Enqueue(x: Endpoint, y: Endpoint, work: Work)
    requires Pair(x, y) && Due(Shows(x), y.sent, work)
    ensures Pair(x.(todo := [work] + x.todo), y)
  {
    var x' := x.(todo := [work] + x.todo);
    assert Shows(x') == Shows(x);
    assert AllDue(Shows(x'), y.sent, x'.todo);
  }

  lemma FaultKeeps(x: Endpoint, y: Endpoint, fault: Fault)
    requires Pair(x, y) && !Accusing(Some(fault))
    ensures Pair(Failing(x, fault), y)
  {
    assert Shows(Failing(x, fault)) == Shows(x);
  }

  /** A confirmation the peer really sent can only confirm an epoch it has reached. */
  lemma ConfirmKeeps(x: Endpoint, y: Endpoint, epoch: nat)
    requires Pair(x, y) && epoch <= y.receiver.epoch
    ensures Pair(x.(sender := Confirm(x.sender, epoch)), y)
  {
    var x' := x.(sender := Confirm(x.sender, epoch));
    assert Shows(x') == Shows(x);
    StreamFrame(x.side, x.sender, x'.sender, x.sent);
  }

  /** Control-stream steps that send nothing and touch no key. */
  lemma ControlKeeps(x: Endpoint, y: Endpoint, c: ByteStream)
    requires Pair(x, y) && Bytes(c)
    requires x.control.chunks <= c.chunks && x.control.retained <= c.retained
    requires StreamLink(c, y.control.retained) && StreamLink(y.control, c.retained)
    ensures Pair(x.(control := c), y)
  {
    var x' := x.(control := c);
    ClaimsGrow(Shows(x), Shows(x'), x.sent);
    DueGrows(Shows(x), Shows(x'), y.sent, y.sent, x.todo);
  }

  lemma FlattenMore(chunks: seq<seq<Byte>>, chunk: seq<Byte>)
    ensures Flatten(chunks + [chunk]) == Flatten(chunks) + chunk
  {
    assert (chunks + [chunk])[..|chunks|] == chunks;
  }

  lemma {:induction false} FlattenFirst(chunks: seq<seq<Byte>>)
    requires chunks != []
    ensures Flatten(chunks) == chunks[0] + Flatten(chunks[1..])
  {
    var n := |chunks| - 1;
    if n == 0 {
      assert chunks[..n] == [] && chunks[1..] == [];
    } else {
      FlattenFirst(chunks[..n]);
      FlattenMore(chunks[..n][1..], chunks[n]);
      assert chunks[1..] == chunks[..n][1..] + [chunks[n]];
      assert Flatten(chunks) == (chunks[0] + Flatten(chunks[..n][1..])) + chunks[n];
    }
  }

  lemma RetainKeeps(c: ByteStream, chunk: seq<Byte>)
    requires Bytes(c) && |c.retained| < MAX_SEQUENCE && chunk != []
    ensures Bytes(Retain(c, chunk))
  {
    FlattenMore(c.retained, chunk);
    FlattenMore(c.recv, chunk);
    hide Flatten;
    assert c.delivered + c.pending + Flatten(c.recv) + chunk
        == c.delivered + c.pending + (Flatten(c.recv) + chunk);
    assert Numbered(Retain(c, chunk));
  }

  /** A chunk with the expected number is the next one the peer numbered. */
  lemma NextIsNext(c: ByteStream, peer: ByteStream, body: seq<Byte>)
    requires Kept(c) && StreamLink(peer, c.retained) && Numbered(peer) && ChunkBody(peer.chunks, body)
    requires Get(body[..4]) == c.expected
    ensures |c.retained| < MAX_SEQUENCE && Get(body[..4]) == |c.retained| + 1
    ensures StreamLink(peer, c.retained + [body[4..]])
  {
    var n := |c.retained|;
    assert peer.chunks[..n] == c.retained;
    assert peer.chunks[..n + 1] == c.retained + [body[4..]];
  }

  lemma RetainedKeeps(x: Endpoint, y: Endpoint, body: seq<Byte>)
    requires Pair(x, y) && ChunkBody(y.control.chunks, body) && Get(body[..4]) == x.control.expected
    ensures Pair(x.(control := Retain(x.control, body[4..])), y)
    ensures 1 <= Get(body[..4]) <= |Retain(x.control, body[4..]).retained|
  {
    NextIsNext(x.control, y.control, body);
    RetainKeeps(x.control, body[4..]);
    StreamLinkFrame(x.control, Retain(x.control, body[4..]), y.control.retained);
    ControlKeeps(x, y, Retain(x.control, body[4..]));
  }

  /** A retained chunk is the next one the peer numbered: no gap, no duplicate. */
  lemma ChunkKeeps(x: Endpoint, y: Endpoint, body: seq<Byte>)
    requires Pair(x, y) && ChunkBody(y.control.chunks, body)
    ensures Pair(ChunkArrived(x, body), y)
  {
    var seqno := Get(body[..4]);
    var c := x.control;
    if seqno == c.expected {
      if |c.recv| < RECEIVE_QUEUE {
        RetainedKeeps(x, y, body);
        Enqueue(x.(control := Retain(c, body[4..])), y, Reply(Ack, body[..4]));
      }
    } else if 0 < seqno < c.expected {
      Enqueue(x, y, Reply(Ack, body[..4]));
    }
  }

  lemma StreamLinkFrame(c: ByteStream, c': ByteStream, retained: seq<seq<Byte>>)
    requires StreamLink(c, retained)
    requires c'.chunks == c.chunks && c'.waiting == c.waiting && c'.acks == c.acks
    ensures StreamLink(c', retained)
  {}

  lemma AckLinks(c: ByteStream, c': ByteStream, retained: seq<seq<Byte>>, id: nat)
    requires StreamLink(c, retained) && 1 <= id <= |retained|
    requires c' == c.(acks := c.acks + [id])
    ensures StreamLink(c', retained)
  {}

  lemma SameBytes(c: ByteStream, c': ByteStream)
    requires Bytes(c) && c' == c.(acks := c'.acks)
    ensures Bytes(c')
  {}

  lemma AckArrives(x: Endpoint, y: Endpoint, id: nat)
    requires Pair(x, y) && 1 <= id <= |y.control.retained|
    ensures Pair(x.(control := x.control.(acks := x.control.acks + [id])), y)
  {
    var c := x.control.(acks := x.control.acks + [id]);
    AckLinks(x.control, c, y.control.retained, id);
    SameBytes(x.control, c);
    ControlKeeps(x, y, c);
  }

  lemma UpdateNamesEpoch(side: bool, s: Sender, p: Packet, body: seq<Byte>, epoch: nat)
    requires SentUnder(side, s, p) && s.epoch <= MAX_KEY_EPOCH && SealedAs(p, KeyUpdate, body, epoch)
    ensures |body| == 8 && Get(body) == epoch
  {
    Widths();
    GetPut(epoch, 8);
  }

  lemma OwnSent(y: Endpoint, k: nat)
    requires Own(y) && k < |y.sent|
    ensures Claim(Shows(y), y.sent[k].header.kind, y.sent[k].body)
    ensures SentUnder(y.side, y.sender, y.sent[k]) && y.sender.epoch <= MAX_KEY_EPOCH
  {
  }

  lemma KeyDispatchKeeps(x: Endpoint, y: Endpoint, kind: Kind, body: seq<Byte>, epoch: nat, advanced: bool)
    requires Pair(x, y) && Due(Shows(x), y.sent, Dispatch(kind, body, epoch, advanced))
    requires kind == KeyUpdate || kind == KeyAck
    ensures Pair(Dispatched(x, kind, body, epoch, advanced), y)
  {
    var k :| 0 <= k < |y.sent| && SealedAs(y.sent[k], kind, body, epoch);
    OwnSent(y, k);
    hide Own, Link, AllDue, Heard, Transmission, Confirm, SentUnder;
    if kind == KeyAck {
      ConfirmKeeps(x, y, Get(body));
    } else {
      UpdateNamesEpoch(y.side, y.sender, y.sent[k], body, epoch);
      if !advanced {
        Enqueue(x, y, Acknowledge(epoch));
      }
    }
  }

  lemma PlainDispatchKeeps(x: Endpoint, y: Endpoint, kind: Kind, body: seq<Byte>, epoch: nat, advanced: bool)
    requires Pair(x, y) && Claim(Shows(y), kind, body)
    requires kind !in {KeyUpdate, KeyAck, Control}
    ensures Pair(Dispatched(x, kind, body, epoch, advanced), y)
  {
    if kind == Ack && |x.control.acks| < ACK_QUEUE {
      AckArrives(x, y, Get(body));
    } else if kind == Ping && body == [] {
      Enqueue(x, y, Reply(Pong, []));
    } else if kind == Closing {
      FaultKeeps(x, y, RemoteClosed);
    }
  }

  lemma DispatchClaim(v: View, incoming: seq<Packet>, w: View, work: Work)
    requires work.Dispatch? && Due(v, incoming, work) && Claims(w, incoming)
    ensures Claim(w, work.kind, work.body)
  {
    var k :| 0 <= k < |incoming| && SealedAs(incoming[k], work.kind, work.body, work.epoch);
    assert Claim(w, incoming[k].header.kind, incoming[k].body);
  }

  lemma PeerClaims(x: Endpoint, y: Endpoint)
    requires Pair(x, y)
    ensures Claims(Shows(y), y.sent)
  {
  }

  lemma DispatchedKeeps(x: Endpoint, y: Endpoint, kind: Kind, body: seq<Byte>, epoch: nat, advanced: bool)
    requires Pair(x, y) && Due(Shows(x), y.sent, Dispatch(kind, body, epoch, advanced))
    ensures Pair(Dispatched(x, kind, body, epoch, advanced), y)
  {
    PeerClaims(x, y);
    hide Pair, Claims, Due, AllDue, Dispatched, ChunkArrived;
    DispatchClaim(Shows(x), y.sent, Shows(y), Dispatch(kind, body, epoch, advanced));
    if kind == KeyUpdate || kind == KeyAck {
      KeyDispatchKeeps(x, y, kind, body, epoch, advanced);
    } else if kind == Control {
      ChunkKeeps(x, y, body);
    } else {
      PlainDispatchKeeps(x, y, kind, body, epoch, advanced);
    }
  }

  lemma WorkedKeeps(x: Endpoint, y: Endpoint, now: int)
    requires Pair(x, y)
    ensures Pair(Worked(x, now), y)
  {
    if x.todo != [] {
      var rest := x.(todo := x.todo[1..]);
      DropFirst(Shows(x), y.sent, x.todo);
      assert Shows(rest) == Shows(x) && Pair(rest, y);
      match x.todo[0]
      case Acknowledge(epoch) =>
        Widths();
        GetPut(epoch, 8);
        TransmissionKeeps(rest, y, now, KeyAck, Put(epoch, 8));
      case Reply(kind, body) => TransmissionKeeps(rest, y, now, kind, body);
      case Dispatch(kind, body, epoch, advanced) => DispatchedKeeps(rest, y, kind, body, epoch, advanced);
    }
  }

  // ---- Writing and reading ------------------------------------------------

  lemma ChunkTakenNumbered(c: ByteStream)
    requires Bytes(c) && !c.waiting && c.left != [] && c.writeSeq < MAX_SEQUENCE
    ensures Bytes(ChunkTaken(c))
  {
    var n := if |c.left| < MAX_CHUNK then |c.left| else MAX_CHUNK;
    FlattenMore(c.chunks, c.left[..n]);
    assert c.left == c.left[..n] + c.left[n..];
    assert Flatten(c.chunks) + c.left[..n] + c.left[n..] == Flatten(c.chunks) + c.left;
    assert Kept(ChunkTaken(c));
  }

  lemma WithinNumbers(x: Endpoint)
    requires Own(x)
    ensures x.control.writeSeq <= MAX_SEQUENCE && Bytes(x.control)
  {
  }

  lemma NextChunkKeeps(x: Endpoint, y: Endpoint)
    requires Pair(x, y) && !x.control.waiting && x.control.left != [] && x.control.writeSeq != MAX_SEQUENCE
    ensures Pair(x.(control := ChunkTaken(x.control)), y)
  {
    hide Own, EpochLink, AllDue, Heard, Flatten;
    WithinNumbers(x);
    ChunkTakenNumbered(x.control);
    assert StreamLink(ChunkTaken(x.control), y.control.retained);
    ControlKeeps(x, y, ChunkTaken(x.control));
  }

  lemma TransmitKeeps(x: Endpoint, y: Endpoint, now: int)
    requires Pair(x, y)
    ensures Pair(Apply(x, Transmit(now)), y)
  {
    var c := x.control;
    if c.waiting && c.chunks != [] {
      var body := Put(c.writeSeq, 4) + c.chunks[|c.chunks| - 1];
      ChunkInFlight(x, body);
      hide Pair, Claim, Transmission, Put;
      TransmissionKeeps(x, y, now, Control, body);
    }
  }

  lemma ChunkInFlight(x: Endpoint, body: seq<Byte>)
    requires Own(x) && x.control.chunks != []
    requires body == Put(x.control.writeSeq, 4) + x.control.chunks[|x.control.chunks| - 1]
    ensures Claim(Shows(x), Control, body)
  {
    hide SenderInv, ReceiverInv, Claims, Kept, Flatten;
    var c := x.control;
    Widths();
    GetPut(c.writeSeq, 4);
    assert body[..4] == Put(c.writeSeq, 4) && body[4..] == c.chunks[|c.chunks| - 1];
  }

  /** Only the acknowledgement of the chunk in flight completes it, and the peer has
      retained every chunk it acknowledges. */
  lemma TakeAckKeeps(x: Endpoint, y: Endpoint)
    requires Pair(x, y) && x.control.waiting && x.control.acks != []
    ensures Pair(x.(control := AckTaken(x.control)), y)
  {
    ControlKeeps(x, y, AckTaken(x.control));
  }

  lemma PullKept(c: ByteStream)
    requires Bytes(c) && c.pending == [] && c.recv != []
    ensures Bytes(c.(pending := c.recv[0], recv := c.recv[1..]))
  {
    FlattenFirst(c.recv);
    assert c.delivered + [] + (c.recv[0] + Flatten(c.recv[1..])) == c.delivered + c.recv[0] + Flatten(c.recv[1..]);
  }

  lemma CopyKept(c: ByteStream, n: nat)
    requires Bytes(c) && n <= |c.pending|
    ensures Bytes(c.(pending := c.pending[n..], delivered := c.delivered + c.pending[..n]))
  {
    assert c.delivered + c.pending[..n] + c.pending[n..] == c.delivered + c.pending;
  }

  lemma ReadOnceKept(c: ByteStream, room: nat)
    requires Bytes(c)
    ensures Bytes(ReadOnce(c, room))
  {
    if room > 0 && (c.pending != [] || c.recv != []) {
      var ready := c;
      if c.pending == [] {
        PullKept(c);
        ready := c.(pending := c.recv[0], recv := c.recv[1..]);
      }
      CopyKept(ready, if room < |ready.pending| then room else |ready.pending|);
    }
  }

  lemma ReadKeeps(x: Endpoint, y: Endpoint, room: nat)
    requires Pair(x, y)
    ensures Pair(x.(control := ReadOnce(x.control, room)), y)
  {
    var c := ReadOnce(x.control, room);
    ReadOnceKept(x.control, room);
    StreamLinkFrame(x.control, c, y.control.retained);
    ControlKeeps(x, y, c);
  }

  lemma BeginWriteKeeps(x: Endpoint, y: Endpoint, data: seq<Byte>)
    requires Pair(x, y) && !x.control.waiting && x.control.left == []
    ensures Pair(x.(control := x.control.(left := data, written := x.control.written + data)), y)
  {
    var c := x.control.(left := data, written := x.control.written + data);
    assert x.control.written == Flatten(x.control.chunks);
    assert Numbered(c) && Kept(c);
    StreamLinkFrame(x.control, c, y.control.retained);
    ControlKeeps(x, y, c);
  }

  // ---- Whole runs ---------------------------------------------------------

  lemma StreamStepKeeps(x: Endpoint, y: Endpoint, a: Action)
    requires Pair(x, y) && (a.BeginWrite? || a.NextChunk? || a.TakeAck? || a.Read?)
    ensures Pair(Apply(x, a), y)
  {
    hide Pair, ReadOnce, ChunkTaken, AckTaken;
    match a
    case BeginWrite(data) =>
      if x.fault.None? && !x.control.waiting && x.control.left == [] {
        BeginWriteKeeps(x, y, data);
      }
    case NextChunk =>
      if x.control.writeSeq == MAX_SEQUENCE {
        FaultKeeps(x, y, SequenceExhausted);
      } else if x.fault.None? && !x.control.waiting && x.control.left != [] {
        NextChunkKeeps(x, y);
      }
    case TakeAck =>
      if x.control.waiting && x.control.acks != [] {
        TakeAckKeeps(x, y);
      }
    case Read(room) => ReadKeeps(x, y, room);
  }

  lemma OwnSender(x: Endpoint)
    requires Own(x)
    ensures SenderInv(x.side, x.sender, x.sent)
  {
  }

  lemma RefreshKeeps(x: Endpoint, y: Endpoint, now: int)
    requires Pair(x, y)
    ensures Pair(Apply(x, RefreshKeys(now)), y)
  {
    hide Prepare, Own, Link, AllDue, Heard, Emission, Emit;
    if x.fault.None? {
      OwnSender(x);
      PrepareIsEmission(x, now);
      EmitKeeps(x, y, Prepare(x.sender, now));
    }
  }

  lemma AppSendKeeps(x: Endpoint, y: Endpoint, a: Action)
    requires Pair(x, y) && (a.AppSend? || a.Fail?)
    ensures Pair(Apply(x, a), y)
  {
    hide Pair, Transmission;
    if a.AppSend? && AppMaySend(a.kind, a.body) {
      TransmissionKeeps(x, y, a.now, a.kind, a.body);
    } else if a.Fail? && Local(a.fault) {
      FaultKeeps(x, y, a.fault);
    }
  }

  lemma ApplyKeeps(x: Endpoint, y: Endpoint, a: Action)
    requires Pair(x, y)
    requires a.Receive? && a.datagram.cipher.Some? ==>
      a.datagram.cipher.value in x.sent || a.datagram.cipher.value in y.sent
    ensures Pair(Apply(x, a), y)
  {
    if a.Receive? {
      ReceivedKeeps(x, y, a.datagram, a.now);
    } else if a.DoWork? {
      WorkedKeeps(x, y, a.now);
    } else if a.RefreshKeys? {
      RefreshKeeps(x, y, a.now);
    } else if a.Transmit? {
      TransmitKeeps(x, y, a.now);
    } else if a.AppSend? || a.Fail? {
      AppSendKeeps(x, y, a);
    } else {
      StreamStepKeeps(x, y, a);
    }
  }

  lemma PairSwaps(x: Endpoint, y: Endpoint)
    ensures Pair(x, y) <==> Pair(y, x)
  {}

  lemma NextKeeps(w: World, w': World)
    requires Inv(w) && Next(w, w')
    ensures Inv(w')
  {
    var a: Action :| Deliverable(w, a)
      && (w' == World(Apply(w.a, a), w.b) || w' == World(w.a, Apply(w.b, a)));
    if w' == World(Apply(w.a, a), w.b) {
      ApplyKeeps(w.a, w.b, a);
    } else {
      PairSwaps(w.a, w.b);
      ApplyKeeps(w.b, w.a, a);
      PairSwaps(w.a, Apply(w.b, a));
    }
  }

  lemma InitialHolds(w: World)
    requires Initial(w)
    ensures Inv(w)
  {
    var s: int, t: int :| w == World(NewEndpoint(false, s), NewEndpoint(true, t));
    NewIsOwn(false, s);
    NewIsOwn(true, t);
    hide Own;
  }

  lemma NewIsOwn(side: bool, now: int)
    ensures Own(NewEndpoint(side, now))
  {
    NewHalves(side, now);
    hide SenderInv, ReceiverInv;
  }

  lemma {:induction false} RunHolds(ws: seq<World>, i: nat)
    requires Run(ws) && i < |ws|
    ensures Inv(ws[i])
  {
    if i == 0 {
      InitialHolds(ws[0]);
    } else {
      RunHolds(ws, i - 1);
      NextKeeps(ws[i - 1], ws[i]);
    }
  }

  // ---- What every run guarantees ------------------------------------------

  /** The two ends of one direction. */
  function From(w: World, flip: bool): Endpoint {
    if flip then w.b else w.a
  }

  function To(w: World, flip: bool): Endpoint {
    if flip then w.a else w.b
  }

  lemma DirectionHolds(ws: seq<World>, i: nat, flip: bool)
    requires Run(ws) && i < |ws|
    ensures Pair(From(ws[i], flip), To(ws[i], flip))
  {
    RunHolds(ws, i);
    PairSwaps(ws[i].a, ws[i].b);
  }

  /** In each direction the receiver is at most one epoch behind, so one precomputed
      next key always suffices, and a confirmed sender's epoch is the receiver's. */
  lemma EpochsStayClose(ws: seq<World>, i: nat, flip: bool)
    requires Run(ws) && i < |ws|
    ensures var a, b := From(ws[i], flip), To(ws[i], flip);
      && b.receiver.epoch <= a.sender.epoch <= b.receiver.epoch + 1
      && (a.sender.confirmed ==> a.sender.epoch == b.receiver.epoch)
      && b.receiver.next == Key(a.side, b.receiver.epoch + 1)
  {
    DirectionHolds(ws, i, flip);
  }

  /** A packet of the sender's current epoch opens at its true epoch with its true body,
      unless its counter was accepted before or is 64 or more below the highest one. */
  lemma NeverDesynchronised(ws: seq<World>, i: nat, flip: bool, k: nat, now: int)
    requires Run(ws) && i < |ws| && k < |From(ws[i], flip).sent|
    requires From(ws[i], flip).sent[k].key.generation == From(ws[i], flip).sender.epoch
    ensures var a, b := From(ws[i], flip), To(ws[i], flip); var p := a.sent[k]; var e := p.key.generation;
      var o := Decrypt(b.receiver, Datagram(p.header, Some(p)), now).result;
      var unseen := (e, p.header.counter) !in b.log && b.receiver.replay.highest < p.header.counter + 64;
      && (o.Some? <==> e != b.receiver.epoch || unseen)
      && (o.Some? ==> o.value.epoch == e && o.value.body == p.body)
  {
    DirectionHolds(ws, i, flip);
    var a, b := From(ws[i], flip), To(ws[i], flip);
    var p := a.sent[k];
    assert SentUnder(a.side, a.sender, p);
    AcceptsExactly(b.side, b.receiver, b.log, a.sender, p, now);
    SeenExactly(b.receiver.replay, Counters(b.log, b.receiver.epoch), p.header.counter);
    InLog(b.log, b.receiver.epoch, p.header.counter);
  }

  /** Over a whole run no (epoch, counter) is accepted twice, and each one accepted was
      sent by the peer under that epoch. */
  lemma AcceptedAtMostOnce(ws: seq<World>, i: nat, flip: bool, m: nat, n: nat)
    requires Run(ws) && i < |ws| && m < |To(ws[i], flip).log| && n < |To(ws[i], flip).log|
    ensures To(ws[i], flip).log[m] == To(ws[i], flip).log[n] ==> m == n
    ensures WasSent(From(ws[i], flip).sent, To(ws[i], flip).log[m])
  {
    DirectionHolds(ws, i, flip);
  }

  /** Nonces of one direction strictly increase, stay below 2^64 - 2^24, and the first
      packet of each epoch after 0 is the key update that names it. */
  lemma NoncesNeverRepeat(ws: seq<World>, i: nat, flip: bool, m: nat, n: nat)
    requires Run(ws) && i < |ws| && m < n < |From(ws[i], flip).sent|
    ensures var sent := From(ws[i], flip).sent;
      && sent[m].nonce < sent[n].nonce < 0x1_0000_0000_0000_0000 - 0x100_0000
      && (sent[n - 1].key.generation < sent[n].key.generation ==>
            sent[n].header.kind == KeyUpdate && sent[n].body == Put(sent[n].key.generation, 8))
  {
    DirectionHolds(ws, i, flip);
    var a := From(ws[i], flip);
    NonceBound(a.side, a.sender, a.sent[n]);
    assert OpensEpoch(a.sent, n) <==> a.sent[n - 1].key.generation < a.sent[n].key.generation;
  }

  /** Honest peers never accuse each other of a malformed packet. */
  lemma HonestPeersAgree(ws: seq<World>, i: nat)
    requires Run(ws) && i < |ws|
    ensures !Accusing(ws[i].a.fault) && !Accusing(ws[i].b.fault)
  {
    RunHolds(ws, i);
  }

  lemma {:induction false} FlattenPrefix(short: seq<seq<Byte>>, long: seq<seq<Byte>>)
    requires short <= long
    ensures Flatten(short) <= Flatten(long)
    decreases |long|
  {
    if |short| < |long| {
      FlattenPrefix(short, long[..|long| - 1]);
    } else {
      assert short == long;
    }
  }

  /** What the reader got is a prefix of what was written; once no chunk is in flight
      the peer has retained every chunk, and once nothing is left every byte. */
  lemma StreamIsReliable(ws: seq<World>, i: nat, flip: bool)
    requires Run(ws) && i < |ws|
    ensures var a, b := From(ws[i], flip).control, To(ws[i], flip).control;
      && b.delivered <= a.written
      && (!a.waiting ==> b.retained == a.chunks)
      && (!a.waiting && a.left == [] ==> Flatten(b.retained) == a.written)
  {
    DirectionHolds(ws, i, flip);
    var a, b := From(ws[i], flip).control, To(ws[i], flip).control;
    FlattenPrefix(b.retained, a.chunks);
    assert b.delivered <= Flatten(b.retained);
    assert !a.waiting ==> a.chunks[..|b.retained|] == a.chunks;
    assert a.left == [] ==> Flatten(a.chunks) + [] == Flatten(a.chunks);
  }

  /** A retransmitted chunk that was already retained is acknowledged again, so a lost
      acknowledgement is repaired, exactly until the last number of the 32-bit space has
      been retained: then the expected number wraps to 0 and no duplicate is answered. */
  lemma DuplicateAcknowledged(x: Endpoint, body: seq<Byte>)
    requires Kept(x.control) && |body| >= 4 && 1 <= Get(body[..4]) <= |x.control.retained|
    ensures ChunkArrived(x, body) != x <==> |x.control.retained| < MAX_SEQUENCE
    ensures ChunkArrived(x, body) != x ==>
      ChunkArrived(x, body) == x.(todo := [Reply(Ack, body[..4])] + x.todo)
  {
    assert |[Reply(Ack, body[..4])] + x.todo| > |x.todo|;
  }
}
