/** Two Noise UDP endpoints over a network that may lose, duplicate, delay, reorder
    and tamper (internal/noiseudp/conn.go), as a state machine over their steps.

    The read loop's work after a decryption is a queue of steps, because each of its
    sends takes the send lock separately and other goroutines may send in between. */
module NoisePeers {
  import opened Common
  import opened BigEndian
  import opened NoiseKeys
  import opened NoiseInvariants

  const MAX_CHUNK: nat := 1000
  const MAX_SEQUENCE: nat := 0xffff_ffff
  const RECEIVE_QUEUE: nat := 32
  const ACK_QUEUE: nat := 8

  /** What the read loop still has to do for the packet it decrypted. */
  datatype Work =
    | Acknowledge(epoch: nat)
    | Dispatch(kind: Kind, body: seq<Byte>, epoch: nat, advanced: bool)
    | Reply(kind: Kind, body: seq<Byte>)

  /** The stop-and-wait byte stream. The last four fields record history: bytes given
      to Write, chunks numbered so far, chunks retained here, bytes returned by Read. */
  datatype ByteStream = ByteStream(
    writeSeq: nat, left: seq<Byte>, waiting: bool, acks: seq<nat>,
    expected: nat, recv: seq<seq<Byte>>, pending: seq<Byte>,
    written: seq<Byte>, chunks: seq<seq<Byte>>, retained: seq<seq<Byte>>, delivered: seq<Byte>)

  datatype Endpoint = Endpoint(
    side: bool, sender: Sender, receiver: Receiver, control: ByteStream,
    fault: Option<Fault>, todo: seq<Work>,
    sent: seq<Packet>, log: seq<(nat, nat)>)

  datatype Action =
    | Receive(datagram: Datagram, now: int)
    | DoWork(now: int)
    | AppSend(kind: Kind, body: seq<Byte>, now: int)
    | RefreshKeys(now: int)
    | BeginWrite(data: seq<Byte>)
    | NextChunk
    | Transmit(now: int)
    | TakeAck
    | Read(room: nat)
    | Fail(fault: Fault)

  function NewEndpoint(side: bool, now: int): Endpoint {
    Endpoint(side, NewSender(side, now), NewReceiver(side),
             ByteStream(0, [], false, [], 1, [], [], [], [], [], []), None, [], [], [])
  }

  function Failing(x: Endpoint, fault: Fault): Endpoint {
    if x.fault.Some? then x else x.(fault := Some(fault))
  }

  function Emit(x: Endpoint, r: Sending): Endpoint {
    var out := x.(sender := r.sender, sent := x.sent + r.packets);
    if r.fault.Some? then Failing(out, r.fault.value) else out
  }

  function Transmission(x: Endpoint, now: int, kind: Kind, body: seq<Byte>): Endpoint {
    if x.fault.Some? then x else Emit(x, Send(x.sender, now, kind, body))
  }

  function Received(x: Endpoint, d: Datagram, now: int): Endpoint {
    if x.fault.Some? || x.todo != [] then x else
    var o := Decrypt(x.receiver, d, now);
    x.(receiver := o.receiver, log := Logged(x.log, d, o), todo := Following(d, o))
  }

  function Following(d: Datagram, o: Opening): seq<Work> {
    match o.result
    case None => []
    case Some(v) =>
      (if v.advanced then [Acknowledge(v.epoch)] else [])
        + [Dispatch(d.header.kind, v.body, v.epoch, v.advanced)]
  }

  function Worked(x: Endpoint, now: int): Endpoint {
    if x.todo == [] then x else
    var rest := x.(todo := x.todo[1..]);
    match x.todo[0]
    case Acknowledge(epoch) => Transmission(rest, now, KeyAck, Put(epoch, 8))
    case Reply(kind, body) => Transmission(rest, now, kind, body)
    case Dispatch(kind, body, epoch, advanced) => Dispatched(rest, kind, body, epoch, advanced)
  }

  function Dispatched(x: Endpoint, kind: Kind, body: seq<Byte>, epoch: nat, advanced: bool): Endpoint {
    match kind
    case KeyUpdate =>
      if |body| != 8 || Get(body) != epoch then Failing(x, BadKeyUpdate)
      else if advanced then x
      else x.(todo := [Acknowledge(epoch)] + x.todo)
    case KeyAck =>
      if |body| != 8 then Failing(x, BadKeyConfirmation)
      else x.(sender := Confirm(x.sender, Get(body)))
    case Voice => x
    case Control =>
      if |body| < 5 || |body| > 4 + MAX_CHUNK then Failing(x, BadControlChunk)
      else ChunkArrived(x, body)
    case Ack =>
      if |body| == 4 && |x.control.acks| < ACK_QUEUE
      then x.(control := x.control.(acks := x.control.acks + [Get(body)]))
      else x
    case Ping => if body == [] then x.(todo := [Reply(Pong, [])] + x.todo) else x
    case Pong => x
    case Closing => if |body| == 8 then Failing(x, RemoteClosed) else x
    case Unknown => Failing(x, UnknownPacket)
  }

  /** A chunk in order that fits, or one that was retained before, is acknowledged; a full
      queue leaves it to the retry. */
  predicate Answers(c: ByteStream, body: seq<Byte>)
    requires |body| >= 4
  {
    var seqno := Get(body[..4]);
    if seqno == c.expected then |c.recv| < RECEIVE_QUEUE else 0 < seqno < c.expected
  }

  function Arrived(c: ByteStream, body: seq<Byte>): ByteStream
    requires |body| >= 4
  {
    if Get(body[..4]) == c.expected && |c.recv| < RECEIVE_QUEUE then Retain(c, body[4..]) else c
  }

  function ChunkArrived(x: Endpoint, body: seq<Byte>): Endpoint
    requires |body| >= 4
  {
    if Answers(x.control, body)
    then x.(todo := [Reply(Ack, body[..4])] + x.todo, control := Arrived(x.control, body))
    else x
  }

  function Retain(c: ByteStream, chunk: seq<Byte>): ByteStream {
    c.(recv := c.recv + [chunk], retained := c.retained + [chunk],
       expected := (c.expected + 1) % (MAX_SEQUENCE + 1))
  }

  function ChunkTaken(c: ByteStream): ByteStream {
    var n := if |c.left| < MAX_CHUNK then |c.left| else MAX_CHUNK;
    c.(writeSeq := c.writeSeq + 1, chunks := c.chunks + [c.left[..n]], left := c.left[n..], waiting := true)
  }

  function AckTaken(c: ByteStream): ByteStream
    requires c.acks != []
  {
    c.(acks := c.acks[1..], waiting := c.waiting && c.acks[0] != c.writeSeq)
  }

  function ReadOnce(c: ByteStream, room: nat): ByteStream {
    if room == 0 || (c.pending == [] && c.recv == []) then c else
    var ready := if c.pending == [] then c.(pending := c.recv[0], recv := c.recv[1..]) else c;
    var n := if room < |ready.pending| then room else |ready.pending|;
    ready.(pending := ready.pending[n..], delivered := ready.delivered + ready.pending[..n])
  }

  predicate AppMaySend(kind: Kind, body: seq<Byte>) {
    kind == Voice || (kind == Closing && |body| == 8) || (kind == Ping && body == [])
  }

  function Apply(x: Endpoint, a: Action): Endpoint {
    match a
    case Receive(d, now) => Received(x, d, now)
    case DoWork(now) => Worked(x, now)
    case AppSend(kind, body, now) => if AppMaySend(kind, body) then Transmission(x, now, kind, body) else x
    case RefreshKeys(now) => if x.fault.Some? then x else Emit(x, Prepare(x.sender, now))
    case BeginWrite(data) =>
      if x.fault.Some? || x.control.waiting || x.control.left != [] then x
      else x.(control := x.control.(left := data, written := x.control.written + data))
    case NextChunk =>
      if x.fault.Some? || x.control.waiting || x.control.left == [] then x
      else if x.control.writeSeq == MAX_SEQUENCE then Failing(x, SequenceExhausted)
      else x.(control := ChunkTaken(x.control))
    case Transmit(now) =>
      if x.control.waiting && x.control.chunks != []
      then Transmission(x, now, Control,
                        Put(x.control.writeSeq, 4) + x.control.chunks[|x.control.chunks| - 1])
      else x
    case TakeAck =>
      if x.control.waiting && x.control.acks != [] then x.(control := AckTaken(x.control)) else x
    case Read(room) => x.(control := ReadOnce(x.control, room))
    case Fail(fault) => if Local(fault) then Failing(x, fault) else x
  }

  /** Faults a caller, timer or socket may raise on its own. */
  predicate Local(fault: Fault) {
    fault == Other
  }

  datatype World = World(a: Endpoint, b: Endpoint)

  ghost predicate Initial(w: World) {
    exists s: int, t: int :: w == World(NewEndpoint(false, s), NewEndpoint(true, t))
  }

  /** The network may pair any header with any ciphertext ever sealed by either side,
      any number of times, or with one that nobody sealed. */
  predicate Deliverable(w: World, a: Action) {
    a.Receive? && a.datagram.cipher.Some? ==>
      a.datagram.cipher.value in w.a.sent || a.datagram.cipher.value in w.b.sent
  }

  ghost predicate Next(w: World, w': World) {
    exists a: Action ::
      && Deliverable(w, a)
      && (w' == World(Apply(w.a, a), w.b) || w' == World(w.a, Apply(w.b, a)))
  }

  ghost predicate Run(ws: seq<World>) {
    && ws != [] && Initial(ws[0])
    && forall i :: 0 <= i < |ws| - 1 ==> Next(ws[i], ws[i + 1])
  }
}
