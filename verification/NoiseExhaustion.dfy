/** The end of the 32-bit sequence space is reachable: two honest peers, chunk after chunk
    and key after key, get to the last number, and if its acknowledgement is lost there the
    retransmission is never answered (internal/noiseudp/conn.go). */
module NoiseExhaustion {
  import opened Common
  import opened BigEndian
  import opened ReplayWindow
  import opened NoiseKeys
  import opened NoiseInvariants
  import opened NoisePeers
  import opened NoiseSafety

  // ---- Reachable worlds ---------------------------------------------------

  ghost predicate Reachable(w: World) {
    exists ws :: Run(ws) && ws[|ws| - 1] == w
  }

  lemma NextReachable(w: World, w': World)
    requires Reachable(w) && Next(w, w')
    ensures Reachable(w') && Inv(w')
  {
    hide Next, Initial, Inv;
    var ws: seq<World> :| Run(ws) && ws[|ws| - 1] == w;
    var more := ws + [w'];
    forall i | 0 <= i < |more| - 1 ensures Next(more[i], more[i + 1]) {
      if i < |ws| - 1 {
        assert more[i] == ws[i] && more[i + 1] == ws[i + 1];
      }
    }
    assert Run(more) && more[|more| - 1] == w';
    RunHolds(more, |more| - 1);
  }

  lemma ActA(w: World, act: Action) returns (w': World)
    requires Reachable(w) && Deliverable(w, act)
    ensures w' == World(Apply(w.a, act), w.b) && Reachable(w') && Inv(w')
  {
    hide Apply, Deliverable, Inv;
    w' := World(Apply(w.a, act), w.b);
    assert Next(w, w');
    NextReachable(w, w');
  }

  lemma ActB(w: World, act: Action) returns (w': World)
    requires Reachable(w) && Deliverable(w, act)
    ensures w' == World(w.a, Apply(w.b, act)) && Reachable(w') && Inv(w')
  {
    hide Apply, Deliverable, Inv;
    w' := World(w.a, Apply(w.b, act));
    assert Next(w, w');
    NextReachable(w, w');
  }

  // ---- One send and one receipt -------------------------------------------

  /** Confirmed, with a key that is neither old nor much used. */
  predicate Fresh(s: Sender, epoch: nat, counter: nat) {
    s.confirmed && s.keySince == 0 && s.epoch == epoch && s.counter == counter
  }

  function Sealed(x: Endpoint, kind: Kind, body: seq<Byte>): Packet {
    var n := x.sender.counter + 1;
    Packet(x.sender.key, Nonce(x.sender.epoch, n), Header(kind, x.sender.epoch % 2, n), body)
  }

  /** A send under a fresh key is just the packet. */
  lemma SendPlain(x: Endpoint, kind: Kind, body: seq<Byte>)
    requires x.fault.None? && Fresh(x.sender, x.sender.epoch, x.sender.counter)
    requires x.sender.counter < REKEY_PACKETS && |body| <= 1100
    ensures Transmission(x, 0, kind, body)
      == x.(sender := x.sender.(counter := x.sender.counter + 1), sent := x.sent + [Sealed(x, kind, body)])
  {
    assert !RekeyDue(x.sender, 0);
    assert Prepare(x.sender, 0) == Sending(x.sender, [], None);
    assert [] + [Sealed(x, kind, body)] == [Sealed(x, kind, body)];
  }

  /** The receiver has accepted no higher counter than the sender has used. */
  lemma HighestBelow(x: Endpoint, y: Endpoint)
    requires Pair(x, y) && x.sender.epoch == y.receiver.epoch
    ensures y.receiver.replay.highest <= x.sender.counter
  {
    var accepted := Counters(y.log, y.receiver.epoch);
    var top := y.receiver.replay.highest;
    if accepted != {} {
      var i :| 0 <= i < |y.log| && y.log[i].0 == y.receiver.epoch && y.log[i].1 == top;
      assert WasSent(x.sent, y.log[i]);
      var k :| 0 <= k < |x.sent| && Numbers(x.sent[k], y.log[i]);
      assert SentUnder(x.side, x.sender, x.sent[k]);
    }
  }

  /** A packet of the receiver's epoch with the highest counter so far. */
  ghost predicate Newest(y: Endpoint, p: Packet) {
    && p.key == Key(!y.side, y.receiver.epoch) && p.nonce == Nonce(y.receiver.epoch, p.header.counter)
    && p.header.phase == y.receiver.epoch % 2 && y.receiver.replay.highest < p.header.counter < MAX_COUNTER
  }

  /** What a receipt leaves alone. */
  ghost predicate Undisturbed(y: Endpoint, y': Endpoint) {
    && y'.side == y.side && y'.sender == y.sender && y'.control == y.control
    && y'.fault == y.fault && y'.sent == y.sent
  }

  lemma ReceivePlain(y: Endpoint, p: Packet, y': Endpoint)
    requires ReceiverInv(y.side, y.receiver, y.log) && Newest(y, p) && y.fault.None? && y.todo == []
    requires y' == Received(y, Datagram(p.header, Some(p)), 0)
    ensures Undisturbed(y, y') && y'.receiver.epoch == y.receiver.epoch
    ensures y'.todo == [Dispatch(p.header.kind, p.body, y.receiver.epoch, false)]
  {
    hide Tracks, Window.Add;
    var r := Expire(y.receiver, 0);
    assert r.key == y.receiver.key && r.replay == y.receiver.replay && r.epoch == y.receiver.epoch;
    assert !r.replay.Seen(p.header.counter);
    assert [] + [Dispatch(p.header.kind, p.body, r.epoch, false)] == [Dispatch(p.header.kind, p.body, r.epoch, false)];
  }

  /** The first packet of the next epoch. */
  ghost predicate Opening'(y: Endpoint, p: Packet) {
    && p.key == Key(!y.side, y.receiver.epoch + 1) && p.nonce == Nonce(y.receiver.epoch + 1, p.header.counter)
    && p.header.phase == (y.receiver.epoch + 1) % 2 && 0 < p.header.counter < MAX_COUNTER
    && y.receiver.epoch < MAX_KEY_EPOCH
  }

  lemma ReceiveNext(y: Endpoint, p: Packet, y': Endpoint)
    requires ReceiverInv(y.side, y.receiver, y.log) && Opening'(y, p) && y.fault.None? && y.todo == []
    requires y' == Received(y, Datagram(p.header, Some(p)), 0)
    ensures Undisturbed(y, y') && y'.receiver.epoch == y.receiver.epoch + 1
    ensures y'.todo == [Acknowledge(y.receiver.epoch + 1), Dispatch(p.header.kind, p.body, y.receiver.epoch + 1, true)]
  {
    hide Tracks, Window.Add, Window.Seen;
    var r := Expire(y.receiver, 0);
    assert r.next == y.receiver.next && r.epoch == y.receiver.epoch;
    assert r.previous.Some? ==> r.previous == y.receiver.previous;
    assert p.header.phase != r.epoch % 2;
    assert OpenPrevious(r, Datagram(p.header, Some(p))) == None;
  }

  lemma SealedIsNewest(x: Endpoint, y: Endpoint, kind: Kind, body: seq<Byte>)
    requires Pair(x, y) && x.sender.epoch == y.receiver.epoch && x.sender.counter + 1 < MAX_COUNTER
    ensures Newest(y, Sealed(x, kind, body))
  {
    HighestBelow(x, y);
    assert x.side == !y.side;
  }

  // ---- The two ends between rounds ----------------------------------------

  /** No failure, nothing to do, and the key as described. */
  ghost predicate Resting(x: Endpoint, epoch: nat, counter: nat) {
    x.fault.None? && x.todo == [] && Fresh(x.sender, epoch, counter) && x.receiver.epoch == epoch
  }

  ghost predicate Written(c: ByteStream, k: nat) {
    c.left == [] && !c.waiting && c.acks == [] && |c.chunks| == k
  }

  ghost predicate Drained(c: ByteStream, k: nat) {
    c.recv == [] && c.pending == [] && |c.retained| == k
  }

  /** k chunks have gone all the way from a to b; a has sent one packet more under its key. */
  ghost predicate Calm(w: World, k: nat, n: nat, epoch: nat) {
    && Reachable(w) && Inv(w)
    && Resting(w.a, epoch, n + 1) && Resting(w.b, epoch, n)
    && Written(w.a.control, k) && Drained(w.b.control, k)
  }

  const Chunk: seq<Byte> := [0]

  function BodyOf(k: nat): seq<Byte> {
    Put(k, 4) + Chunk
  }

  lemma BodyParts(k: nat)
    requires k <= MAX_SEQUENCE
    ensures |BodyOf(k)| == 5 && BodyOf(k)[..4] == Put(k, 4) && BodyOf(k)[4..] == Chunk && Get(BodyOf(k)[..4]) == k
  {
    Widths();
    GetPut(k, 4);
    assert BodyOf(k)[..4] == Put(k, 4);
  }

  // ---- A chunk goes out ---------------------------------------------------

  /** The chunk is on its way, and nobody else has moved. */
  ghost predicate InFlight(w: World, k: nat, n: nat, epoch: nat) {
    && Reachable(w) && Inv(w)
    && Resting(w.a, epoch, n + 1)
    && w.a.control.left == [] && w.a.control.waiting && w.a.control.acks == []
    && |w.a.control.chunks| == k && w.a.control.chunks[k - 1] == Chunk
  }

  lemma StartWrite(w: World, k: nat, n: nat, epoch: nat) returns (w': World)
    requires Calm(w, k, n, epoch) && k < MAX_SEQUENCE
    ensures InFlight(w', k + 1, n, epoch) && w'.b == w.b
  {
    hide Reachable, Inv;
    var w1 := ActA(w, BeginWrite(Chunk));
    w' := ActA(w1, NextChunk);
    NumbersAgree(w);
    assert Chunk[..1] == Chunk && Chunk[1..] == [];
    assert w'.a.control.chunks == w.a.control.chunks + [Chunk];
  }

  lemma NumbersAgree(w: World)
    requires Inv(w)
    ensures w.a.control.writeSeq == |w.a.control.chunks| <= MAX_SEQUENCE
    ensures w.b.control.expected
      == (if |w.b.control.retained| == MAX_SEQUENCE then 0 else |w.b.control.retained| + 1)
  {
  }

  lemma KeysAgree(x: Endpoint, y: Endpoint)
    requires Pair(x, y)
    ensures ReceiverInv(y.side, y.receiver, y.log) && x.sender.counter < MAX_COUNTER && x.side != y.side
  {
  }

  /** a transmits its chunk and b receives it. */
  lemma CrossOver(w: World, k: nat, n: nat, epoch: nat) returns (w': World)
    requires InFlight(w, k, n, epoch) && Resting(w.b, epoch, w.b.sender.counter) && n + 1 < REKEY_PACKETS && k > 0
    ensures InFlight(w', k, n + 1, epoch)
    ensures Undisturbed(w.b, w'.b) && w'.b.receiver.epoch == epoch
    ensures w'.b.todo == [Dispatch(Control, BodyOf(k), epoch, false)]
  {
    hide Reachable, Inv, Pair, Received;
    NumbersAgree(w);
    BodyParts(k);
    InvIsPair(w);
    KeysAgree(w.a, w.b);
    SendPlain(w.a, Control, BodyOf(k));
    SealedIsNewest(w.a, w.b, Control, BodyOf(k));
    var p := Sealed(w.a, Control, BodyOf(k));
    var w1 := ActA(w, Transmit(0));
    assert w1.a == Transmission(w.a, 0, Control, BodyOf(k));
    assert w1.a.sent[|w.a.sent|] == p;
    w' := ActB(w1, Receive(Datagram(p.header, Some(p)), 0));
    ReceivePlain(w.b, p, w'.b);
  }

  lemma InvIsPair(w: World)
    ensures Inv(w) <==> Pair(w.a, w.b)
    ensures Inv(w) ==> Pair(w.b, w.a)
  {
    PairSwaps(w.a, w.b);
  }

  // ---- It is retained and acknowledged ------------------------------------

  /** b has retained chunk k and queued its acknowledgement. */
  lemma Retains(w: World, k: nat, epoch: nat) returns (w': World)
    requires Reachable(w) && Inv(w) && 0 < k <= MAX_SEQUENCE && w.b.fault.None?
    requires w.b.todo == [Dispatch(Control, BodyOf(k), epoch, false)] && Drained(w.b.control, k - 1)
    ensures Reachable(w') && Inv(w') && w'.a == w.a
    ensures w'.b == w.b.(todo := [Reply(Ack, Put(k, 4))], control := Retain(w.b.control, Chunk))
  {
    hide Reachable, Inv;
    NumbersAgree(w);
    BodyParts(k);
    w' := ActB(w, DoWork(0));
    assert w.b.todo[1..] == [];
    assert [Reply(Ack, Put(k, 4))] + [] == [Reply(Ack, Put(k, 4))];
  }

  /** b sends what it has queued. */
  lemma Replies(w: World, body: seq<Byte>) returns (w': World)
    requires Reachable(w) && Inv(w) && w.b.todo == [Reply(Ack, body)] && w.b.fault.None? && |body| == 4
    requires Fresh(w.b.sender, w.b.sender.epoch, w.b.sender.counter) && w.b.sender.counter < REKEY_PACKETS
    ensures Reachable(w') && Inv(w') && w'.a == w.a
    ensures w'.b == w.b.(todo := [], sender := w.b.sender.(counter := w.b.sender.counter + 1),
                         sent := w.b.sent + [Sealed(w.b, Ack, body)])
  {
    hide Reachable, Inv;
    w' := ActB(w, DoWork(0));
    var rest := w.b.(todo := w.b.todo[1..]);
    assert w.b.todo[1..] == [];
    SendPlain(rest, Ack, body);
  }

  /** a takes the acknowledgement of its chunk. */
  lemma TakesAck(w: World, before: World, k: nat, n: nat, epoch: nat) returns (w': World)
    requires InFlight(w, k, n, epoch) && 0 < k <= MAX_SEQUENCE
    requires Reachable(before) && Inv(before) && before.a == w.a && before.b.sender.epoch == epoch
    requires before.b.sender.counter + 1 < MAX_COUNTER && Sealed(before.b, Ack, Put(k, 4)) in w.b.sent
    ensures Reachable(w') && Inv(w') && w'.b == w.b
    ensures Resting(w'.a, epoch, n + 1) && Written(w'.a.control, k)
  {
    hide Reachable, Inv, Pair, Received;
    NumbersAgree(w);
    Widths();
    GetPut(k, 4);
    InvIsPair(before);
    KeysAgree(before.b, before.a);
    SealedIsNewest(before.b, before.a, Ack, Put(k, 4));
    var q := Sealed(before.b, Ack, Put(k, 4));
    var w1 := ActA(w, Receive(Datagram(q.header, Some(q)), 0));
    ReceivePlain(w.a, q, w1.a);
    var w2 := ActA(w1, DoWork(0));
    assert w1.a.todo[1..] == [];
    assert w2.a == w1.a.(todo := [], control := w1.a.control.(acks := [k]));
    w' := ActA(w2, TakeAck);
    assert [k][1..] == [];
  }

  /** b's reader empties the stream. */
  lemma Drains(w: World, k: nat) returns (w': World)
    requires Reachable(w) && Inv(w) && w.b.control.recv == [Chunk] && w.b.control.pending == []
    requires |w.b.control.retained| == k
    ensures Reachable(w') && Inv(w') && w'.a == w.a
    ensures w'.b == w.b.(control := w'.b.control) && Drained(w'.b.control, k)
  {
    hide Reachable, Inv;
    w' := ActB(w, Read(1));
    assert [Chunk][1..] == [] && Chunk[1..] == [];
  }

  /** One chunk all the way. */
  lemma Round(w: World, k: nat, n: nat, epoch: nat) returns (w': World)
    requires Calm(w, k, n, epoch) && k < MAX_SEQUENCE && n + 1 < REKEY_PACKETS
    ensures Calm(w', k + 1, n + 1, epoch)
  {
    hide Reachable, Inv, Put, Transmission;
    var w1 := StartWrite(w, k, n, epoch);
    var w2 := CrossOver(w1, k + 1, n, epoch);
    var w3 := Retains(w2, k + 1, epoch);
    PutWidth(k + 1);
    var w4 := Replies(w3, Put(k + 1, 4));
    var w5 := TakesAck(w4, w3, k + 1, n + 1, epoch);
    w' := Drains(w5, k + 1);
  }

  lemma PutWidth(k: nat)
    ensures |Put(k, 4)| == 4
  {
  }

  // ---- A key update, either way -------------------------------------------

  /** An action of the sending (or, flipped, the receiving) end of a direction. */
  lemma Act(w: World, flip: bool, act: Action) returns (w': World)
    requires Reachable(w) && Deliverable(w, act)
    ensures Reachable(w') && Inv(w')
    ensures From(w', flip) == Apply(From(w, flip), act) && To(w', flip) == To(w, flip)
  {
    if flip {
      w' := ActB(w, act);
    } else {
      w' := ActA(w, act);
    }
  }

  lemma Sides(w: World, flip: bool)
    requires Inv(w)
    ensures Pair(From(w, flip), To(w, flip)) && Pair(To(w, flip), From(w, flip))
  {
    PairSwaps(w.a, w.b);
  }

  lemma CanDeliver(w: World, flip: bool, p: Packet)
    requires p in From(w, flip).sent
    ensures Deliverable(w, Receive(Datagram(p.header, Some(p)), 0))
  {
  }

  function UpdatePacket(side: bool, epoch: nat): Packet {
    Packet(Key(side, epoch), Nonce(epoch, 1), Header(KeyUpdate, epoch % 2, 1), Put(epoch, 8))
  }

  /** The used-up key gives way to the next one, which is announced. */
  lemma Advances(x: Endpoint, epoch: nat)
    requires x.fault.None? && Fresh(x.sender, epoch, REKEY_PACKETS) && epoch < MAX_KEY_EPOCH
    requires x.sender.chain == Key(x.side, epoch)
    ensures var s := x.sender;
      Apply(x, RefreshKeys(0)) == x.(
        sender := Sender(Key(x.side, epoch + 1), Key(x.side, epoch + 1), epoch + 1, 1, false, 0, Some(0)),
        sent := x.sent + [UpdatePacket(x.side, epoch + 1)])
  {
    Widths8(epoch + 1);
  }

  lemma Widths8(epoch: nat)
    ensures |Put(epoch, 8)| == 8
  {
  }

  /** x announces its next key and y adopts it. */
  lemma Announces(w: World, flip: bool, epoch: nat, other: nat, m: nat) returns (w': World)
    requires Reachable(w) && Inv(w) && epoch < MAX_KEY_EPOCH
    requires var x, y := From(w, flip), To(w, flip);
      && x.fault.None? && x.todo == [] && Fresh(x.sender, epoch, REKEY_PACKETS) && x.receiver.epoch == other
      && y.fault.None? && y.todo == [] && Fresh(y.sender, other, m) && y.receiver.epoch == epoch
    ensures Reachable(w') && Inv(w')
    ensures var x, y := From(w, flip), To(w, flip); var x', y' := From(w', flip), To(w', flip);
      && x' == x.(sender := Sender(Key(x.side, epoch + 1), Key(x.side, epoch + 1), epoch + 1, 1, false, 0, Some(0)),
                  sent := x.sent + [UpdatePacket(x.side, epoch + 1)])
      && Undisturbed(y, y') && y'.receiver.epoch == epoch + 1
      && y'.todo == [Acknowledge(epoch + 1), Dispatch(KeyUpdate, Put(epoch + 1, 8), epoch + 1, true)]
  {
    hide Reachable, Inv, Received, Put, Apply, Pair, ReceiverInv;
    Sides(w, flip);
    ChainIs(From(w, flip), To(w, flip));
    Advances(From(w, flip), epoch);
    var w1 := Act(w, flip, RefreshKeys(0));
    var p := UpdatePacket(From(w, flip).side, epoch + 1);
    assert p in From(w1, flip).sent;
    CanDeliver(w1, flip, p);
    w' := Act(w1, !flip, Receive(Datagram(p.header, Some(p)), 0));
    ApplyReceive(To(w, flip), p);
    KeysAgree(From(w, flip), To(w, flip));
    ReceiveNext(To(w, flip), p, To(w', flip));
  }

  lemma ApplyReceive(y: Endpoint, p: Packet)
    ensures Apply(y, Receive(Datagram(p.header, Some(p)), 0)) == Received(y, Datagram(p.header, Some(p)), 0)
  {
  }

  lemma ChainIs(x: Endpoint, y: Endpoint)
    requires Pair(x, y)
    ensures x.sender.chain == Key(x.side, x.sender.epoch) && x.side != y.side
  {
  }

  /** y's first piece of work: the authenticated confirmation. */
  lemma AckGoesOut(y: Endpoint, epoch: nat)
    requires y.fault.None? && Fresh(y.sender, y.sender.epoch, y.sender.counter) && y.sender.counter < REKEY_PACKETS
    requires y.todo == [Acknowledge(epoch), Dispatch(KeyUpdate, Put(epoch, 8), epoch, true)]
    ensures Apply(y, DoWork(0)) == y.(
      todo := [Dispatch(KeyUpdate, Put(epoch, 8), epoch, true)],
      sender := y.sender.(counter := y.sender.counter + 1),
      sent := y.sent + [Sealed(y, KeyAck, Put(epoch, 8))])
  {
    Widths8(epoch);
    var rest := y.(todo := y.todo[1..]);
    assert y.todo[1..] == [Dispatch(KeyUpdate, Put(epoch, 8), epoch, true)];
    SendPlain(rest, KeyAck, Put(epoch, 8));
  }

  /** Its second: the update itself, which asks for nothing more. */
  lemma UpdateIsDone(y: Endpoint, epoch: nat)
    requires y.todo == [Dispatch(KeyUpdate, Put(epoch, 8), epoch, true)] && epoch <= MAX_KEY_EPOCH
    ensures Apply(y, DoWork(0)) == y.(todo := [])
  {
    Widths();
    Widths8(epoch);
    GetPut(epoch, 8);
    assert y.todo[1..] == [];
  }

  /** The confirmation arrives. */
  lemma ConfirmationIsDone(x: Endpoint, epoch: nat, under: nat)
    requires x.todo == [Dispatch(KeyAck, Put(epoch, 8), under, false)] && epoch <= MAX_KEY_EPOCH
    requires x.sender.epoch == epoch
    ensures Apply(x, DoWork(0)) == x.(todo := [], sender := x.sender.(confirmed := true))
  {
    Widths();
    Widths8(epoch);
    GetPut(epoch, 8);
    assert x.todo[1..] == [];
  }

  /** y confirms and x hears it. */
  lemma Confirms(w: World, flip: bool, epoch: nat, other: nat, m: nat) returns (w': World)
    requires Reachable(w) && Inv(w) && epoch <= MAX_KEY_EPOCH && m < REKEY_PACKETS
    requires var x, y := From(w, flip), To(w, flip);
      && x.fault.None? && x.todo == [] && x.sender.epoch == epoch && x.receiver.epoch == other
      && y.fault.None? && Fresh(y.sender, other, m)
      && y.todo == [Acknowledge(epoch), Dispatch(KeyUpdate, Put(epoch, 8), epoch, true)]
    ensures Reachable(w') && Inv(w')
    ensures var x, y := From(w, flip), To(w, flip); var x', y' := From(w', flip), To(w', flip);
      && x'.fault.None? && x'.todo == [] && x'.control == x.control && x'.receiver.epoch == other
      && x'.sender == x.sender.(confirmed := true)
      && y'.fault.None? && y'.todo == [] && y'.control == y.control && y'.receiver == y.receiver
      && y'.sender == y.sender.(counter := m + 1)
  {
    hide Reachable, Inv, Received, Put, Apply, Pair, ReceiverInv;
    Sides(w, flip);
    AckGoesOut(To(w, flip), epoch);
    var w1 := Act(w, !flip, DoWork(0));
    UpdateIsDone(To(w1, flip), epoch);
    var w2 := Act(w1, !flip, DoWork(0));
    var q := Sealed(To(w, flip), KeyAck, Put(epoch, 8));
    SealedIsNewest(To(w, flip), From(w, flip), KeyAck, Put(epoch, 8));
    assert q in From(w2, !flip).sent;
    CanDeliver(w2, !flip, q);
    var w3 := Act(w2, flip, Receive(Datagram(q.header, Some(q)), 0));
    ApplyReceive(From(w, flip), q);
    KeysAgree(To(w, flip), From(w, flip));
    ReceivePlain(From(w, flip), q, From(w3, flip));
    ConfirmationIsDone(From(w3, flip), epoch, other);
    w' := Act(w3, flip, DoWork(0));
  }

  /** A whole key update of one direction. */
  lemma RekeyOne(w: World, flip: bool, epoch: nat, other: nat, m: nat) returns (w': World)
    requires Reachable(w) && Inv(w) && epoch < MAX_KEY_EPOCH && m < REKEY_PACKETS
    requires var x, y := From(w, flip), To(w, flip);
      && x.fault.None? && x.todo == [] && Fresh(x.sender, epoch, REKEY_PACKETS) && x.receiver.epoch == other
      && y.fault.None? && y.todo == [] && Fresh(y.sender, other, m) && y.receiver.epoch == epoch
    ensures Reachable(w') && Inv(w')
    ensures var x, y := From(w, flip), To(w, flip); var x', y' := From(w', flip), To(w', flip);
      && x'.fault.None? && x'.todo == [] && Fresh(x'.sender, epoch + 1, 1) && x'.receiver.epoch == other
      && y'.fault.None? && y'.todo == [] && Fresh(y'.sender, other, m + 1) && y'.receiver.epoch == epoch + 1
      && x'.control == x.control && y'.control == y.control
  {
    hide Reachable, Inv, Put;
    var w1 := Announces(w, flip, epoch, other, m);
    w' := Confirms(w1, flip, epoch + 1, other, m);
  }

  /** a's key is used up one packet before b's; both change, one after the other. */
  lemma RekeyBoth(w: World, k: nat, epoch: nat) returns (w': World)
    requires Calm(w, k, REKEY_PACKETS - 1, epoch) && epoch < MAX_KEY_EPOCH
    ensures Calm(w', k, 1, epoch + 1)
  {
    hide Reachable, Inv;
    var w1 := RekeyOne(w, false, epoch, epoch, REKEY_PACKETS - 1);
    w' := RekeyOne(w1, true, epoch, epoch + 1, 1);
  }

  // ---- All the way --------------------------------------------------------

  /** Before the first chunk a sends one packet that gets lost. */
  lemma Begins() returns (w: World)
    ensures Calm(w, 0, 0, 0)
  {
    hide Reachable, Inv, Transmission;
    var w0 := World(NewEndpoint(false, 0), NewEndpoint(true, 0));
    StartIsReachable(w0);
    SendPlain(w0.a, Ping, []);
    w := ActA(w0, AppSend(Ping, [], 0));
  }

  lemma StartIsReachable(w: World)
    requires w == World(NewEndpoint(false, 0), NewEndpoint(true, 0))
    ensures Reachable(w) && Inv(w)
  {
    hide Inv, NewEndpoint;
    assert Initial(w);
    assert Run([w]) && [w][|[w]| - 1] == w;
    RunHolds([w], 0);
  }

  lemma {:induction false} Reaches(k: nat) returns (w: World, n: nat, epoch: nat)
    requires k <= MAX_SEQUENCE
    ensures Calm(w, k, n, epoch) && epoch <= k && n + 1 <= REKEY_PACKETS
    decreases k
  {
    hide Calm;
    if k == 0 {
      w := Begins();
      n, epoch := 0, 0;
    } else {
      w, n, epoch := Reaches(k - 1);
      if n + 1 == REKEY_PACKETS {
        w := RekeyBoth(w, k - 1, epoch);
        n, epoch := 1, epoch + 1;
      }
      w := Round(w, k - 1, n, epoch);
      n := n + 1;
    }
  }

  /** Two honest peers reach the last number of the sequence space; the acknowledgement of
      that chunk is lost; and when the chunk is transmitted again and received, the receiver
      sends nothing and has nothing left to do, while the writer still waits. */
  lemma LastAckIsNeverRepeated() returns (w: World, p: Packet, w': World)
    ensures Reachable(w) && |w.b.control.retained| == MAX_SEQUENCE && w.a.control.waiting
    ensures Reachable(w') && w'.a.sent == w.a.sent + [p] && p.header.kind == Control
    ensures p.body == BodyOf(MAX_SEQUENCE) && w'.a.control == w.a.control
    ensures (w.b.receiver.epoch, p.header.counter) in w'.b.log
    ensures w'.b.todo == [] && w'.b.sent == w.b.sent && w'.b.control == w.b.control
  {
    hide Calm, Reachable, Inv;
    var start, n, epoch := Ready();
    w := LastIsRetained(start, n, epoch);
    p, w' := Unanswered(w, n + 1, epoch);
  }

  /** One round before the end, with a key that lasts for two more packets. */
  lemma Ready() returns (w: World, n: nat, epoch: nat)
    ensures Calm(w, MAX_SEQUENCE - 1, n, epoch) && n + 2 < REKEY_PACKETS
  {
    hide Calm;
    w, n, epoch := Reaches(MAX_SEQUENCE - 2);
    if n + 1 == REKEY_PACKETS {
      w := RekeyBoth(w, MAX_SEQUENCE - 2, epoch);
      n, epoch := 1, epoch + 1;
    }
    w := Round(w, MAX_SEQUENCE - 2, n, epoch);
    n := n + 1;
    if n + 2 >= REKEY_PACKETS {
      w, n, epoch := Renewed(w, MAX_SEQUENCE - 1, n, epoch);
    }
  }

  /** A key with a single packet left is used up on a packet that gets lost, and replaced. */
  lemma Renewed(w: World, k: nat, n: nat, epoch: nat) returns (w': World, n': nat, epoch': nat)
    requires Calm(w, k, n, epoch) && REKEY_PACKETS <= n + 2 <= REKEY_PACKETS + 1 && epoch < MAX_KEY_EPOCH
    ensures Calm(w', k, n', epoch') && n' + 2 < REKEY_PACKETS
  {
    hide Reachable, Inv;
    w', n', epoch' := w, n, epoch;
    if n + 1 < REKEY_PACKETS {
      w' := BothSendOne(w, k, n, epoch);
    }
    w' := RekeyBoth(w', k, epoch);
    n', epoch' := 1, epoch + 1;
  }

  lemma BothSendOne(w: World, k: nat, n: nat, epoch: nat) returns (w': World)
    requires Calm(w, k, n, epoch) && n + 1 < REKEY_PACKETS
    ensures Calm(w', k, n + 1, epoch)
  {
    hide Reachable, Inv;
    SendPlain(w.a, Ping, []);
    SendPlain(w.b, Ping, []);
    var w1 := ActA(w, AppSend(Ping, [], 0));
    w' := ActB(w1, AppSend(Ping, [], 0));
  }

  /** The last chunk is retained, and b's acknowledgement is sent but lost. */
  lemma LastIsRetained(w: World, n: nat, epoch: nat) returns (w': World)
    requires Calm(w, MAX_SEQUENCE - 1, n, epoch) && n + 1 < REKEY_PACKETS
    ensures InFlight(w', MAX_SEQUENCE, n + 1, epoch)
    ensures Resting(w'.b, epoch, w'.b.sender.counter) && |w'.b.control.retained| == MAX_SEQUENCE
  {
    hide Reachable, Inv, Put, Transmission;
    var w1 := StartWrite(w, MAX_SEQUENCE - 1, n, epoch);
    var w2 := CrossOver(w1, MAX_SEQUENCE, n, epoch);
    var w3 := Retains(w2, MAX_SEQUENCE, epoch);
    PutWidth(MAX_SEQUENCE);
    w' := Replies(w3, Put(MAX_SEQUENCE, 4));
  }

  lemma Unanswered(w: World, n: nat, epoch: nat) returns (p: Packet, w': World)
    requires InFlight(w, MAX_SEQUENCE, n, epoch) && n + 1 < REKEY_PACKETS
    requires Resting(w.b, epoch, w.b.sender.counter) && |w.b.control.retained| == MAX_SEQUENCE
    ensures Reachable(w') && w'.a.sent == w.a.sent + [p] && p.header.kind == Control
    ensures p.body == BodyOf(MAX_SEQUENCE) && w'.a.control == w.a.control
    ensures (w.b.receiver.epoch, p.header.counter) in w'.b.log
    ensures w'.b.todo == [] && w'.b.sent == w.b.sent && w'.b.control == w.b.control
  {
    hide Reachable, Inv, Pair, Received;
    NumbersAgree(w);
    BodyParts(MAX_SEQUENCE);
    var w1 := CrossAgain(w, n, epoch);
    p := Sealed(w.a, Control, BodyOf(MAX_SEQUENCE));
    w' := ActB(w1, DoWork(0));
    assert w1.b.todo[1..] == [];
    NumbersAgree(w1);
  }

  /** As CrossOver, and it is in the acceptance log. */
  lemma CrossAgain(w: World, n: nat, epoch: nat) returns (w': World)
    requires InFlight(w, MAX_SEQUENCE, n, epoch) && n + 1 < REKEY_PACKETS
    requires Resting(w.b, epoch, w.b.sender.counter)
    ensures Reachable(w') && Inv(w') && w'.a.control == w.a.control
    ensures w'.a.sent == w.a.sent + [Sealed(w.a, Control, BodyOf(MAX_SEQUENCE))]
    ensures Undisturbed(w.b, w'.b) && (epoch, w.a.sender.counter + 1) in w'.b.log
    ensures w'.b.todo == [Dispatch(Control, BodyOf(MAX_SEQUENCE), epoch, false)]
  {
    hide Reachable, Inv, Pair;
    var k := MAX_SEQUENCE;
    NumbersAgree(w);
    BodyParts(k);
    InvIsPair(w);
    KeysAgree(w.a, w.b);
    SendPlain(w.a, Control, BodyOf(k));
    SealedIsNewest(w.a, w.b, Control, BodyOf(k));
    var p := Sealed(w.a, Control, BodyOf(k));
    hide Received, Send, Decrypt;
    var w1 := ActA(w, Transmit(0));
    assert w1.a == Transmission(w.a, 0, Control, BodyOf(k));
    assert w1.a.sent[|w.a.sent|] == p;
    w' := ActB(w1, Receive(Datagram(p.header, Some(p)), 0));
    ReceivePlain(w.b, p, w'.b);
    ReceiptIsLogged(w.b, p, w'.b);
  }

  lemma ReceiptIsLogged(y: Endpoint, p: Packet, y': Endpoint)
    requires y' == Received(y, Datagram(p.header, Some(p)), 0) && y.fault.None? && y.todo == []
    requires y'.todo == [Dispatch(p.header.kind, p.body, y.receiver.epoch, false)]
    ensures (y.receiver.epoch, p.header.counter) in y'.log
  {
    hide Decrypt;
    var o := Decrypt(y.receiver, Datagram(p.header, Some(p)), 0);
    var v := o.result.value;
    assert y'.todo[|y'.todo| - 1] == Dispatch(p.header.kind, v.body, v.epoch, v.advanced);
    assert y'.log[|y.log|] == (y.receiver.epoch, p.header.counter);
  }
}
