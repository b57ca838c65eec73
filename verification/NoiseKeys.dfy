/** Key generations, nonces and packet decryption of one Noise UDP connection
    (internal/noiseudp/rekey.go and the send path of conn.go).

    The AEAD is ideal: a ciphertext opens only under the key, nonce and header it
    was sealed with. A key is named by the side that sends under it and by how many
    times that side's cipher state has been rekeyed, so the epoch a peer believes in
    and the key it holds stay separate values. */
module NoiseKeys {
  import opened Common
  import opened BigEndian
  import opened ReplayWindow

  const SECOND: int := 1_000_000_000
  const REKEY_AFTER: int := 12 * 3600 * SECOND
  const REKEY_RETRY: int := 5 * SECOND
  const REKEY_TIMEOUT: int := 30 * SECOND
  const OLD_KEY_GRACE: int := 3 * SECOND
  const REKEY_PACKETS: nat := MAX_COUNTER / 2
  const MAX_KEY_EPOCH: nat := 0x100_0000_0000 - 2
  const MAX_PACKET: nat := 1200
  const OVERHEAD: nat := 21

  datatype Key = Key(side: bool, generation: nat) {
    function Rekeyed(): Key {
      Key(side, generation + 1)
    }
  }

  datatype Kind = Voice | Control | Ack | Ping | Pong | Closing | KeyUpdate | KeyAck | Unknown

  datatype Header = Header(kind: Kind, phase: nat, counter: nat)

  /** A sealed packet: everything its ciphertext authenticates. */
  datatype Packet = Packet(key: Key, nonce: nat, header: Header, body: seq<Byte>)

  /** What arrives from the network: any header beside a genuine ciphertext, or a forgery. */
  datatype Datagram = Datagram(header: Header, cipher: Option<Packet>)

  datatype Fault =
    | KeyConfirmationTimeout
    | KeyGenerationExhausted
    | PacketBudgetExhausted
    | BadKeyUpdate
    | BadKeyConfirmation
    | BadControlChunk
    | UnknownPacket
    | SequenceExhausted
    | RemoteClosed
    | Other

  datatype Sender = Sender(
    key: Key, chain: Key, epoch: nat, counter: nat,
    confirmed: bool, keySince: int, updateSent: Option<int>)

  datatype Receiver = Receiver(
    key: Key, next: Key, chain: Key, previous: Option<Key>, epoch: nat,
    replay: Window, previousReplay: Window, previousUntil: int)

  datatype Sending = Sending(sender: Sender, packets: seq<Packet>, fault: Option<Fault>)

  datatype Opened = Opened(body: seq<Byte>, epoch: nat, advanced: bool)

  datatype Opening = Opening(receiver: Receiver, result: Option<Opened>)

  /** `epoch << 24 | counter`; the counter always fits the low 24 bits. */
  function Nonce(epoch: nat, counter: nat): nat {
    epoch * MAX_COUNTER + counter
  }

  function NewSender(side: bool, now: int): Sender {
    Sender(Key(side, 0), Key(side, 0), 0, 0, true, now, None)
  }

  function NewReceiver(side: bool): Receiver {
    var chain := Key(!side, 0).Rekeyed();
    Receiver(Key(!side, 0), chain, chain, None, 0, EMPTY, EMPTY, 0)
  }

  function Open(key: Key, nonce: nat, d: Datagram): Option<seq<Byte>> {
    if d.cipher.Some? && d.cipher.value.key == key && d.cipher.value.nonce == nonce
      && d.cipher.value.header == d.header
    then Some(d.cipher.value.body)
    else None
  }

  /** sendLocked: number, seal and emit one packet under the current key. */
  function Seal(s: Sender, kind: Kind, body: seq<Byte>): Sending {
    if s.counter + 1 >= MAX_COUNTER then
      Sending(s, [], Some(PacketBudgetExhausted))
    else if |body| + OVERHEAD > MAX_PACKET then
      Sending(s, [], None)
    else
      var n := s.counter + 1;
      var header := Header(kind, s.epoch % 2, n);
      Sending(s.(counter := n), [Packet(s.key, Nonce(s.epoch, n), header, body)], None)
  }

  predicate RekeyDue(s: Sender, now: int) {
    s.confirmed && (s.counter >= REKEY_PACKETS || now - s.keySince >= REKEY_AFTER)
  }

  function Advance(s: Sender, now: int): Sender {
    Sender(s.chain.Rekeyed(), s.chain.Rekeyed(), s.epoch + 1, 0, false, now, None)
  }

  /** The key update that announces the current generation, when it is due. */
  function Announce(s: Sender, now: int): Sending {
    if !s.confirmed && (s.updateSent.None? || now - s.updateSent.value >= REKEY_RETRY) then
      var sealed := Seal(s, KeyUpdate, Put(s.epoch, 8));
      if sealed.fault.Some? then sealed
      else sealed.(sender := sealed.sender.(updateSent := Some(now)))
    else
      Sending(s, [], None)
  }

  /** prepareKeysLocked. */
  function Prepare(s: Sender, now: int): Sending {
    if !s.confirmed && now - s.keySince >= REKEY_TIMEOUT then
      Sending(s, [], Some(KeyConfirmationTimeout))
    else if RekeyDue(s, now) && s.epoch >= MAX_KEY_EPOCH then
      Sending(s, [], Some(KeyGenerationExhausted))
    else
      Announce(if RekeyDue(s, now) then Advance(s, now) else s, now)
  }

  /** send. */
  function Send(s: Sender, now: int, kind: Kind, body: seq<Byte>): Sending {
    if |body| + OVERHEAD > MAX_PACKET then
      Sending(s, [], None)
    else
      var prepared := Prepare(s, now);
      if prepared.fault.Some? then prepared
      else
        var sealed := Seal(prepared.sender, kind, body);
        sealed.(packets := prepared.packets + sealed.packets)
  }

  /** The arrival of a key confirmation for `epoch`. */
  function Confirm(s: Sender, epoch: nat): Sender {
    if epoch == s.epoch then s.(confirmed := true) else s
  }

  function Expire(r: Receiver, now: int): Receiver {
    if r.previous.Some? && now >= r.previousUntil
    then r.(previous := None, previousReplay := EMPTY)
    else r
  }

  /** decryptPacket. */
  function Decrypt(received: Receiver, d: Datagram, now: int): Opening {
    var n := d.header.counter;
    if n == 0 || n >= MAX_COUNTER then Opening(received, None) else
    var r := Expire(received, now);
    if d.header.phase == r.epoch % 2 then
      if r.replay.Seen(n) then Opening(r, None) else
      var body := Open(r.key, Nonce(r.epoch, n), d);
      if body.None? then Opening(r, None)
      else Opening(r.(replay := r.replay.Add(n)), Some(Opened(body.value, r.epoch, false)))
    else
      var earlier := OpenPrevious(r, d);
      if earlier.Some? then
        Opening(r.(previousReplay := r.previousReplay.Add(n)), Some(Opened(earlier.value, r.epoch - 1, false)))
      else if r.epoch >= MAX_KEY_EPOCH then Opening(r, None) else
      var body := Open(r.next, Nonce(r.epoch + 1, n), d);
      if body.None? then Opening(r, None)
      else Opening(Step(r, n, now), Some(Opened(body.value, r.epoch + 1, true)))
  }

  function OpenPrevious(r: Receiver, d: Datagram): (body: Option<seq<Byte>>)
    ensures body.Some? ==> r.epoch > 0
  {
    if r.epoch > 0 && r.previous.Some? && !r.previousReplay.Seen(d.header.counter)
    then Open(r.previous.value, Nonce(r.epoch - 1, d.header.counter), d)
    else None
  }

  /** Adopting the next generation on its first authentic packet. */
  function Step(r: Receiver, n: nat, now: int): Receiver {
    Receiver(r.next, r.chain.Rekeyed(), r.chain.Rekeyed(), Some(r.key), r.epoch + 1,
             EMPTY.Add(n), r.replay, now + OLD_KEY_GRACE)
  }
}
