/** The connection object whose fields the send lock and the read loop update in place
    (internal/noiseudp/conn.go, internal/noiseudp/rekey.go). Each method computes exactly
    the step that the run-level proofs reason about, and the public ones keep what those
    proofs need: the sealed stream, the acceptance log, and 64-bit replay words that are
    exact for it. */
module NoiseConn {
  import opened Common
  import opened BigEndian
  import RW = ReplayWindow
  import opened ReplayBits
  import opened NoiseKeys
  import opened NoiseInvariants

  class Conn {
    const side: bool
    var tx: Key
    var txState: Key
    var txEpoch: nat
    var counter: nat
    var txConfirmed: bool
    var keySince: int
    var updateSent: Option<int>
    var rx: Key
    var rxNext: Key
    var rxState: Key
    var rxPrevious: Option<Key>
    var rxEpoch: nat
    var replay: BitWindow
    var previousReplay: BitWindow
    var previousUntil: int
    ghost var sent: seq<Packet>
    ghost var log: seq<(nat, nat)>

    ghost function Tx(): Sender
      reads this
    {
      Sender(tx, txState, txEpoch, counter, txConfirmed, keySince, updateSent)
    }

    ghost function Rx(): Receiver
      reads this
    {
      Receiver(rx, rxNext, rxState, rxPrevious, rxEpoch, Abstract(replay), Abstract(previousReplay), previousUntil)
    }

    /** Everything sealed so far has rising nonces and announced epochs, and the keys and
        replay words are those of what was accepted so far. */
    ghost predicate Valid()
      reads this
    {
      SenderInv(side, Tx(), sent) && ReceiverInv(side, Rx(), log)
    }

    constructor (side: bool, now: int)
      ensures this.side == side && Tx() == NewSender(side, now) && Rx() == NewReceiver(side)
      ensures Valid() && sent == [] && log == []
    {
      this.side := side;
      tx, txState, txEpoch, counter := Key(side, 0), Key(side, 0), 0, 0;
      txConfirmed, keySince, updateSent := true, now, None;
      rx, rxState := Key(!side, 0), Key(!side, 0);
      rxPrevious, rxEpoch, replay, previousReplay, previousUntil := None, 0, EMPTY, EMPTY, 0;
      sent, log := [], [];
      new;
      rxState := rxState.Rekeyed();
      rxNext := rxState;
      EmptyRefines();
      NewHalves(side, now);
    }

    method SendLocked(kind: Kind, body: seq<Byte>) returns (packets: seq<Packet>, fault: Option<Fault>)
      modifies this`counter
      ensures Sending(Tx(), packets, fault) == Seal(old(Tx()), kind, body)
    {
      if counter + 1 >= RW.MAX_COUNTER {
        return [], Some(PacketBudgetExhausted);
      }
      if |body| + OVERHEAD > MAX_PACKET {
        return [], None;
      }
      counter := counter + 1;
      var header := Header(kind, txEpoch % 2, counter);
      return [Packet(tx, Nonce(txEpoch, counter), header, body)], None;
    }

    method PrepareKeysLocked(now: int) returns (packets: seq<Packet>, fault: Option<Fault>)
      modifies this
      ensures Sending(Tx(), packets, fault) == Prepare(old(Tx()), now)
      ensures Rx() == old(Rx()) && sent == old(sent) && log == old(log)
    {
      if !txConfirmed && now - keySince >= REKEY_TIMEOUT {
        return [], Some(KeyConfirmationTimeout);
      }
      if txConfirmed && (counter >= REKEY_PACKETS || now - keySince >= REKEY_AFTER) {
        if txEpoch >= MAX_KEY_EPOCH {
          return [], Some(KeyGenerationExhausted);
        }
        StartEpoch(now);
      }
      packets, fault := AnnounceEpoch(now);
    }

    method StartEpoch(now: int)
      modifies this`tx, this`txState, this`txEpoch, this`counter
      modifies this`keySince, this`txConfirmed, this`updateSent
      ensures Tx() == Advance(old(Tx()), now)
    {
      txState := txState.Rekeyed();
      tx, txEpoch, counter := txState, txEpoch + 1, 0;
      keySince, txConfirmed, updateSent := now, false, None;
    }

    method AnnounceEpoch(now: int) returns (packets: seq<Packet>, fault: Option<Fault>)
      modifies this`counter, this`updateSent
      ensures Sending(Tx(), packets, fault) == Announce(old(Tx()), now)
    {
      if txConfirmed || (updateSent.Some? && now - updateSent.value < REKEY_RETRY) {
        return [], None;
      }
      packets, fault := SendLocked(KeyUpdate, Put(txEpoch, 8));
      if fault.None? {
        updateSent := Some(now);
      }
    }

    /** refreshKeys. */
    method RefreshKeys(now: int) returns (packets: seq<Packet>, fault: Option<Fault>)
      requires Valid()
      modifies this
      ensures Valid() && sent == old(sent) + packets && log == old(log)
      ensures Sending(Tx(), packets, fault) == Prepare(old(Tx()), now)
      ensures Rx() == old(Rx())
    {
      PrepareKeeps(side, Tx(), sent, now);
      packets, fault := PrepareKeysLocked(now);
      sent := sent + packets;
    }

    /** send. */
    method Transmit(now: int, kind: Kind, body: seq<Byte>) returns (packets: seq<Packet>, fault: Option<Fault>)
      requires Valid() && kind != KeyUpdate
      modifies this
      ensures Valid() && sent == old(sent) + packets && log == old(log)
      ensures Sending(Tx(), packets, fault) == Send(old(Tx()), now, kind, body)
      ensures Rx() == old(Rx())
    {
      SendKeeps(side, Tx(), sent, now, kind, body);
      packets, fault := SendUnlocked(now, kind, body);
      sent := sent + packets;
    }

    method SendUnlocked(now: int, kind: Kind, body: seq<Byte>) returns (packets: seq<Packet>, fault: Option<Fault>)
      modifies this
      ensures Sending(Tx(), packets, fault) == Send(old(Tx()), now, kind, body)
      ensures Rx() == old(Rx()) && sent == old(sent) && log == old(log)
    {
      if |body| + OVERHEAD > MAX_PACKET {
        return [], None;
      }
      var updates;
      updates, fault := PrepareKeysLocked(now);
      if fault.Some? {
        return updates, fault;
      }
      packets, fault := SendLocked(kind, body);
      packets := updates + packets;
    }

    method Confirmed(epoch: nat)
      requires Valid()
      modifies this`txConfirmed
      ensures Valid() && Tx() == Confirm(old(Tx()), epoch)
    {
      ConfirmedStream(side, Tx(), sent, epoch);
      hide SenderInv, ReceiverInv;
      if epoch == txEpoch {
        txConfirmed := true;
      }
    }

    /** Whatever arrives, the object stays valid; what is accepted was sealed by the peer
        under the reported epoch and was never accepted before. */
    method DecryptPacket(d: Datagram, now: int) returns (result: Option<Opened>)
      requires Valid()
      modifies this
      ensures Valid() && sent == old(sent)
      ensures Opening(Rx(), result) == Decrypt(old(Rx()), d, now) && Tx() == old(Tx())
      ensures result.None? ==> log == old(log)
      ensures result.Some? ==>
        && (result.value.epoch, d.header.counter) !in old(log)
        && log == old(log) + [(result.value.epoch, d.header.counter)]
        && d.cipher == Some(Packet(Key(!side, result.value.epoch), Nonce(result.value.epoch, d.header.counter),
                                   d.header, result.value.body))
    {
      hide ReceiverInv, SenderInv, Decrypt;
      ghost var o := Decrypt(Rx(), d, now);
      DecryptVerdict(side, Rx(), log, d, now, o);
      result := OpenPacket(d, now);
      log := Logged(log, d, o);
    }

    method OpenPacket(d: Datagram, now: int) returns (result: Option<Opened>)
      modifies this
      ensures Opening(Rx(), result) == Decrypt(old(Rx()), d, now) && Tx() == old(Tx())
      ensures sent == old(sent) && log == old(log)
    {
      hide Abstract, BitWindow.Seen, BitWindow.Add, RW.Window.Seen, RW.Window.Add;
      var n := d.header.counter;
      if n == 0 || n >= RW.MAX_COUNTER {
        return None;
      }
      DropExpired(now);
      if d.header.phase == rxEpoch % 2 {
        SeenRefines(replay, n);
        if replay.Seen(n) {
          return None;
        }
        var body := Open(rx, Nonce(rxEpoch, n), d);
        if body.None? {
          return None;
        }
        AddRefines(replay, n);
        replay := replay.Add(n);
        return Some(Opened(body.value, rxEpoch, false));
      }
      SeenRefines(previousReplay, n);
      if rxEpoch > 0 && rxPrevious.Some? && !previousReplay.Seen(n) {
        var body := Open(rxPrevious.value, Nonce(rxEpoch - 1, n), d);
        if body.Some? {
          AddRefines(previousReplay, n);
          previousReplay := previousReplay.Add(n);
          return Some(Opened(body.value, rxEpoch - 1, false));
        }
      }
      if rxEpoch >= MAX_KEY_EPOCH {
        return None;
      }
      var body := Open(rxNext, Nonce(rxEpoch + 1, n), d);
      if body.None? {
        return None;
      }
      AdoptNext(n, now);
      return Some(Opened(body.value, rxEpoch, true));
    }

    method DropExpired(now: int)
      modifies this`rxPrevious, this`previousReplay
      ensures Rx() == Expire(old(Rx()), now)
    {
      hide Abstract;
      EmptyRefines();
      if rxPrevious.Some? && now >= previousUntil {
        rxPrevious, previousReplay := None, EMPTY;
      }
    }

    method AdoptNext(n: nat, now: int)
      modifies this`rx, this`rxNext, this`rxState, this`rxPrevious, this`rxEpoch
      modifies this`replay, this`previousReplay, this`previousUntil
      ensures Rx() == Step(old(Rx()), n, now)
    {
      hide Abstract, BitWindow.Add;
      EmptyRefines();
      AddRefines(EMPTY, n);
      rxPrevious, previousReplay, previousUntil := Some(rx), replay, now + OLD_KEY_GRACE;
      rx, rxEpoch, replay := rxNext, rxEpoch + 1, EMPTY.Add(n);
      rxState := rxState.Rekeyed();
      rxNext := rxState;
    }
  }

  lemma ConfirmedStream(side: bool, s: Sender, sent: seq<Packet>, epoch: nat)
    requires SenderInv(side, s, sent)
    ensures SenderInv(side, Confirm(s, epoch), sent)
  {
    StreamFrame(side, s, Confirm(s, epoch), sent);
  }
}
