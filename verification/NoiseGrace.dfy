/** Packets that a change of key overtakes: how long the old key still opens them, told by
    the clock and the acceptance log alone (internal/noiseudp/rekey.go). */
module NoiseGrace {
  import opened Common
  import opened BigEndian
  import opened ReplayWindow
  import opened NoiseKeys
  import opened NoiseInvariants
  import opened NoisePeers
  import NoiseSafety

  /** A packet as the given side seals it in the given epoch. */
  ghost predicate Genuine(side: bool, epoch: nat, p: Packet) {
    && p.key == Key(side, epoch) && p.nonce == Nonce(epoch, p.header.counter)
    && p.header.phase == epoch % 2 && 0 < p.header.counter < MAX_COUNTER
  }

  /** Never accepted before, and less than 64 below everything accepted in that epoch. */
  ghost predicate Fresh(log: seq<(nat, nat)>, epoch: nat, n: nat) {
    (epoch, n) !in log && forall c: nat :: (epoch, c) in log ==> c < n + 64
  }

  function Result(r: Receiver, p: Packet, now: int): Option<Opened> {
    Decrypt(r, Datagram(p.header, Some(p)), now).result
  }

  lemma FreshIsUnseen(w: Window, log: seq<(nat, nat)>, epoch: nat, n: nat)
    requires Tracks(w, Counters(log, epoch)) && 0 < n < MAX_COUNTER
    ensures Fresh(log, epoch, n) <==> !w.Seen(n)
  {
    SeenExactly(w, Counters(log, epoch), n);
    InLog(log, epoch, n);
    forall c: nat ensures (epoch, c) in log <==> c in Counters(log, epoch) {
      InLog(log, epoch, c);
    }
    if Counters(log, epoch) != {} {
      assert (epoch, w.highest) in log;
    }
  }

  // ---- One change of key --------------------------------------------------

  /** Since the step to the next epoch at the given time, the old key is still there, or its
      three seconds are over. */
  ghost predicate Keeps(r: Receiver, epoch: nat, at: int, now: int) {
    && r.epoch == epoch + 1 && r.previousUntil == at + 3 * SECOND
    && (r.previous.Some? || now >= at + 3 * SECOND)
  }

  lemma AdvanceKeepsOld(r: Receiver, d: Datagram, at: int)
    requires Decrypt(r, d, at).receiver.epoch != r.epoch
    ensures Keeps(Decrypt(r, d, at).receiver, r.epoch, at, at) && Decrypt(r, d, at).receiver.previous.Some?
  {
  }

  lemma LaterKeepsOld(r: Receiver, epoch: nat, at: int, d: Datagram, handled: int, now: int)
    requires Keeps(r, epoch, at, now) && Decrypt(r, d, handled).receiver.epoch == r.epoch && handled <= now
    ensures Keeps(Decrypt(r, d, handled).receiver, epoch, at, now)
  {
  }

  lemma OldOpens(side: bool, r: Receiver, log: seq<(nat, nat)>, epoch: nat, at: int, p: Packet, now: int)
    requires ReceiverInv(side, r, log) && Keeps(r, epoch, at, now) && Genuine(!side, epoch, p)
    ensures Result(r, p, now).Some? <==> now < at + 3 * SECOND && Fresh(log, epoch, p.header.counter)
    ensures Result(r, p, now).Some? ==> Result(r, p, now) == Some(Opened(p.body, epoch, false))
  {
    if now < at + 3 * SECOND {
      FreshIsUnseen(r.previousReplay, log, epoch, p.header.counter);
    }
  }

  /** After a decryption that stepped from epoch e to the next at some time, a packet of
      epoch e that was overtaken opens, at e and with its body, if and only if less than three
      seconds have passed and it is fresh. */
  lemma OvertakenOpens(
    side: bool, r: Receiver, log: seq<(nat, nat)>, d: Datagram, at: int, o: Opening, p: Packet, now: int)
    requires ReceiverInv(side, r, log) && o == Decrypt(r, d, at) && o.receiver.epoch != r.epoch
    requires Genuine(!side, r.epoch, p)
    ensures Result(o.receiver, p, now).Some?
      <==> now < at + 3 * SECOND && Fresh(log, r.epoch, p.header.counter)
    ensures Result(o.receiver, p, now).Some? ==> Result(o.receiver, p, now) == Some(Opened(p.body, r.epoch, false))
  {
    DecryptVerdict(side, r, log, d, at, o);
    AdvanceKeepsOld(r, d, at);
    var more := Logged(log, d, o);
    forall c: nat ensures (r.epoch, c) in more <==> (r.epoch, c) in log {
    }
    OldOpens(side, o.receiver, more, r.epoch, at, p, now);
  }

  /** Packets of the receiver's own epoch open exactly when they are fresh, and one of the
      next epoch opens always and makes it the receiver's. */
  lemma OthersOpen(side: bool, r: Receiver, log: seq<(nat, nat)>, p: Packet, now: int)
    requires ReceiverInv(side, r, log)
    ensures Genuine(!side, r.epoch, p) ==>
      Result(r, p, now)
        == if Fresh(log, r.epoch, p.header.counter) then Some(Opened(p.body, r.epoch, false)) else None
    ensures Genuine(!side, r.epoch + 1, p) && r.epoch < MAX_KEY_EPOCH ==>
      Result(r, p, now) == Some(Opened(p.body, r.epoch + 1, true))
  {
    if Genuine(!side, r.epoch, p) {
      FreshIsUnseen(r.replay, log, r.epoch, p.header.counter);
    }
  }

  // ---- Whole runs ---------------------------------------------------------

  /** A step of a run with the endpoint that takes it. */
  datatype Move = Move(second: bool, action: Action)

  ghost predicate Moves(w: World, m: Move, w': World) {
    && Deliverable(w, m.action)
    && w' == if m.second then World(w.a, Apply(w.b, m.action)) else World(Apply(w.a, m.action), w.b)
  }

  ghost predicate RunBy(ws: seq<World>, moves: seq<Move>) {
    && |ws| == |moves| + 1 && Initial(ws[0])
    && forall i :: 0 <= i < |moves| ==> Moves(ws[i], moves[i], ws[i + 1])
  }

  lemma RunByIsRun(ws: seq<World>, moves: seq<Move>)
    requires RunBy(ws, moves)
    ensures Run(ws)
  {
    hide Apply, Deliverable, Initial;
    forall i | 0 <= i < |ws| - 1 ensures Next(ws[i], ws[i + 1]) {
      assert Moves(ws[i], moves[i], ws[i + 1]);
      assert Deliverable(ws[i], moves[i].action);
    }
  }

  /** What one step can do to the receiving half of the endpoint that takes it. */
  lemma ReceiverStep(x: Endpoint, a: Action)
    ensures Apply(x, a).receiver == x.receiver
      || (a.Receive? && Apply(x, a).receiver == Decrypt(x.receiver, a.datagram, a.now).receiver)
    ensures x.receiver.epoch <= Apply(x, a).receiver.epoch
  {
    hide Send, Prepare, Open;
    if a.DoWork? {
      WorkSparesReceiver(x, a.now);
    }
  }

  lemma WorkSparesReceiver(x: Endpoint, now: int)
    ensures Worked(x, now).receiver == x.receiver
  {
  }

  /** The receiving end of the direction takes a step. */
  predicate Receiving(m: Move, flip: bool) {
    m.second == !flip && m.action.Receive?
  }

  lemma DirectionStep(w: World, m: Move, w': World, flip: bool)
    requires Moves(w, m, w')
    ensures var r, r' := NoiseSafety.To(w, flip).receiver, NoiseSafety.To(w', flip).receiver;
      && (r' == r || (Receiving(m, flip) && r' == Decrypt(r, m.action.datagram, m.action.now).receiver))
      && r.epoch <= r'.epoch
  {
    hide Apply, Decrypt;
    ReceiverStep(NoiseSafety.To(w, flip), m.action);
  }

  lemma {:induction false} EpochsGrow(ws: seq<World>, moves: seq<Move>, i: nat, j: nat, flip: bool)
    requires RunBy(ws, moves) && i <= j < |ws|
    ensures NoiseSafety.To(ws[i], flip).receiver.epoch <= NoiseSafety.To(ws[j], flip).receiver.epoch
    decreases j
  {
    hide Initial, Moves;
    if i < j {
      EpochsGrow(ws, moves, i, j - 1, flip);
      assert Moves(ws[j - 1], moves[j - 1], ws[j - 1 + 1]);
      DirectionStep(ws[j - 1], moves[j - 1], ws[j], flip);
    }
  }

  /** The receiver's clock has not passed `now` in the steps from i to j. */
  ghost predicate NotAfter(moves: seq<Move>, i: nat, j: nat, flip: bool, now: int) {
    forall m :: i <= m < j <= |moves| && Receiving(moves[m], flip) ==> moves[m].action.now <= now
  }

  lemma {:induction false} KeptInRun(
    ws: seq<World>, moves: seq<Move>, i: nat, j: nat, flip: bool, at: int, now: int)
    requires RunBy(ws, moves) && i < j < |ws| && Receiving(moves[i], flip) && moves[i].action.now == at
    requires var e := NoiseSafety.To(ws[i], flip).receiver.epoch;
      NoiseSafety.To(ws[i + 1], flip).receiver.epoch == e + 1 == NoiseSafety.To(ws[j], flip).receiver.epoch
    requires NotAfter(moves, i + 1, j, flip, now)
    ensures Keeps(NoiseSafety.To(ws[j], flip).receiver, NoiseSafety.To(ws[i], flip).receiver.epoch, at, now)
    decreases j
  {
    hide Initial, Moves, Decrypt;
    assert Moves(ws[j - 1], moves[j - 1], ws[j - 1 + 1]);
    DirectionStep(ws[j - 1], moves[j - 1], ws[j], flip);
    var r := NoiseSafety.To(ws[j - 1], flip).receiver;
    if j == i + 1 {
      AdvanceKeepsOld(r, moves[i].action.datagram, at);
    } else {
      EpochsGrow(ws, moves, i + 1, j - 1, flip);
      KeptInRun(ws, moves, i, j - 1, flip, at, now);
      if NoiseSafety.To(ws[j], flip).receiver != r {
        LaterKeepsOld(r, r.epoch - 1, at, moves[j - 1].action.datagram, moves[j - 1].action.now, now);
      }
    }
  }

  /** In every run, whatever was handled since the receiver stepped from epoch e to the next,
      and as long as its clock does not run backwards: a packet of epoch e that the peer really
      sent opens, at e and with its body, if and only if less than three seconds have passed
      since that step and the packet is fresh. */
  lemma OvertakenInRuns(
    ws: seq<World>, moves: seq<Move>, i: nat, j: nat, flip: bool, at: int, k: nat, now: int)
    requires RunBy(ws, moves) && i < j < |ws| && Receiving(moves[i], flip) && moves[i].action.now == at
    requires var e := NoiseSafety.To(ws[i], flip).receiver.epoch;
      && NoiseSafety.To(ws[i + 1], flip).receiver.epoch == e + 1 == NoiseSafety.To(ws[j], flip).receiver.epoch
      && k < |NoiseSafety.From(ws[j], flip).sent| && NoiseSafety.From(ws[j], flip).sent[k].key.generation == e
    requires NotAfter(moves, i + 1, j, flip, now)
    ensures var y := NoiseSafety.To(ws[j], flip);
      var p := NoiseSafety.From(ws[j], flip).sent[k];
      var e := p.key.generation;
      && (Result(y.receiver, p, now).Some? <==> now < at + 3 * SECOND && Fresh(y.log, e, p.header.counter))
      && (Result(y.receiver, p, now).Some? ==> Result(y.receiver, p, now) == Some(Opened(p.body, e, false)))
  {
    RunByIsRun(ws, moves);
    NoiseSafety.DirectionHolds(ws, j, flip);
    KeptInRun(ws, moves, i, j, flip, at, now);
    var x, y := NoiseSafety.From(ws[j], flip), NoiseSafety.To(ws[j], flip);
    assert SentUnder(x.side, x.sender, x.sent[k]);
    hide ReceiverInv, Fresh, Keeps, Result, RunBy, NoiseSafety.Link, SenderInv;
    OldOpens(y.side, y.receiver, y.log, x.sent[k].key.generation, at, x.sent[k], now);
  }
}
