/** What an endpoint sends back for a packet that opens (receive of internal/noiseudp/conn.go). */
module NoiseAnswers {
  import opened Common
  import opened BigEndian
  import opened NoiseKeys
  import opened NoiseInvariants
  import opened NoisePeers
  import NoiseSafety

  datatype Answer = Answer(kind: Kind, body: seq<Byte>)

  /** An update that names its epoch is confirmed, unless the step to the epoch already was; the
      chunk after the k retained ones is acknowledged if less than 32 wait to be read, and
      a retained one always; an empty ping is answered. */
  function Owed(kind: Kind, body: seq<Byte>, epoch: nat, advanced: bool, k: nat, unread: nat): Option<Answer> {
    if kind == KeyUpdate && !advanced && |body| == 8 && Get(body) == epoch then Some(Answer(KeyAck, body))
    else if kind == Control && 5 <= |body| <= 1004
      && ((Get(body[..4]) == k + 1 && unread < 32) || 1 <= Get(body[..4]) <= k)
    then Some(Answer(Ack, body[..4]))
    else if kind == Ping && body == [] then Some(Answer(Pong, []))
    else None
  }

  /** The read loop done with one packet. */
  function Handled(x: Endpoint, d: Datagram, now: int, later: int): Endpoint {
    Worked(Worked(Worked(Received(x, d, now), later), later), later)
  }

  /** The confirmation of a new epoch goes first. */
  function Confirming(x: Endpoint, o: Opened, later: int): Endpoint {
    if o.advanced then Transmission(x, later, KeyAck, Put(o.epoch, 8)) else x
  }

  lemma DispatchOwes(x: Endpoint, kind: Kind, body: seq<Byte>, epoch: nat, advanced: bool)
    requires x.todo == [] && NoiseSafety.Kept(x.control) && x.control.expected != 0
    ensures var a := Owed(kind, body, epoch, advanced, |x.control.retained|, |x.control.recv|);
      var y := Dispatched(x, kind, body, epoch, advanced);
      && y.sent == x.sent
      && (a.None? ==> y.todo == [])
      && (a.Some? ==>
            && y.sender == x.sender && y.fault == x.fault
            && y.todo == [if a.value.kind == KeyAck then Acknowledge(epoch) else Reply(a.value.kind, a.value.body)]
            && (a.value.kind == KeyAck ==> a.value.body == Put(epoch, 8)))
  {
    if kind == KeyUpdate && |body| == 8 {
      PutGet(body);
    }
  }

  lemma SendSame(x: Endpoint, y: Endpoint, later: int, kind: Kind, body: seq<Byte>)
    requires x.sender == y.sender && x.fault == y.fault && x.sent == y.sent
    ensures Transmission(x, later, kind, body).sent == Transmission(y, later, kind, body).sent
    ensures Transmission(x, later, kind, body).todo == x.todo
    ensures Transmission(x, later, kind, body).control == x.control
  {
    hide Send;
  }

  /** Everything that is sent for a packet that opens, in order: the confirmation of a new
      epoch, and what is owed for the packet itself. */
  lemma AnswersExactly(x: Endpoint, d: Datagram, now: int, later: int)
    requires x.fault.None? && x.todo == [] && NoiseSafety.Kept(x.control) && x.control.expected != 0
    requires Decrypt(x.receiver, d, now).result.Some?
    ensures var o := Decrypt(x.receiver, d, now).result.value;
      var a := Owed(d.header.kind, o.body, o.epoch, o.advanced, |x.control.retained|, |x.control.recv|);
      var first := Confirming(x, o, later);
      && Handled(x, d, now, later).todo == []
      && Handled(x, d, now, later).sent
           == if a.Some? then Transmission(first, later, a.value.kind, a.value.body).sent else first.sent
  {
    hide Decrypt, Transmission, Owed, Dispatched, NoiseSafety.Kept, Logged, Put;
    var o := Decrypt(x.receiver, d, now);
    var v := o.result.value;
    var y := x.(receiver := o.receiver, log := Logged(x.log, d, o), todo := []);
    var first, base := Confirming(x, v, later), Confirming(y, v, later);
    SendSame(y, x, later, KeyAck, Put(v.epoch, 8));
    FirstSame(x, y, v, later);
    var work := Dispatch(d.header.kind, v.body, v.epoch, v.advanced);
    var full := x.(receiver := o.receiver, log := Logged(x.log, d, o), todo := Following(d, o));
    assert full == Received(x, d, now);
    DispatchOwes(base, d.header.kind, v.body, v.epoch, v.advanced);
    var next := Dispatched(base, d.header.kind, v.body, v.epoch, v.advanced);
    var a := Owed(d.header.kind, v.body, v.epoch, v.advanced, |x.control.retained|, |x.control.recv|);
    NextWork(full, y, d.header.kind, v, later);
    LastWork(next, first, a, v.epoch, later);
  }

  lemma FirstSame(x: Endpoint, y: Endpoint, v: Opened, later: int)
    requires x.sender == y.sender && x.fault == y.fault && x.sent == y.sent && x.control == y.control && y.todo == []
    ensures var a, b := Confirming(x, v, later), Confirming(y, v, later);
      b.sender == a.sender && b.fault == a.fault && b.sent == a.sent && b.control == x.control && b.todo == []
  {
    hide Send;
  }

  lemma SendBesideWork(x: Endpoint, todo: seq<Work>, later: int, kind: Kind, body: seq<Byte>)
    ensures Transmission(x.(todo := todo), later, kind, body) == Transmission(x, later, kind, body).(todo := todo)
  {
    hide Send;
  }

  /** The first one or two pieces of work. */
  lemma NextWork(full: Endpoint, y: Endpoint, kind: Kind, v: Opened, later: int)
    requires y.todo == []
    requires full == y.(
      todo := (if v.advanced then [Acknowledge(v.epoch)] else []) + [Dispatch(kind, v.body, v.epoch, v.advanced)])
    ensures var next := Dispatched(Confirming(y, v, later), kind, v.body, v.epoch, v.advanced);
      if v.advanced then Worked(Worked(full, later), later) == next else Worked(full, later) == next
  {
    hide Dispatched, Transmission;
    var work := Dispatch(kind, v.body, v.epoch, v.advanced);
    if v.advanced {
      assert full.todo[1..] == [work];
      SendBesideWork(y, [work], later, KeyAck, Put(v.epoch, 8));
      SendBesideWork(y, [], later, KeyAck, Put(v.epoch, 8));
      assert y.(todo := []) == y && [work][1..] == [];
    } else {
      assert full.todo == [work] && full.todo[1..] == [];
      assert full.(todo := []) == y;
    }
  }

  /** The last piece, and nothing after it. */
  lemma LastWork(next: Endpoint, first: Endpoint, a: Option<Answer>, epoch: nat, later: int)
    requires next.sent == first.sent && (a.None? ==> next.todo == [])
    requires a.Some? ==>
      && next.sender == first.sender && next.fault == first.fault
      && next.todo == [if a.value.kind == KeyAck then Acknowledge(epoch) else Reply(a.value.kind, a.value.body)]
      && (a.value.kind == KeyAck ==> a.value.body == Put(epoch, 8))
    ensures var y := Worked(next, later);
      && y.todo == [] && Worked(y, later) == y
      && y.sent == if a.Some? then Transmission(first, later, a.value.kind, a.value.body).sent else first.sent
  {
    hide Transmission;
    if a.Some? {
      assert next.todo[1..] == [];
      SendSame(next.(todo := []), first, later, a.value.kind, a.value.body);
    }
  }

  /** The faults that a packet raises, and what it changes beside the answers: a confirmation of
      the current epoch confirms it, and an acknowledgement is queued while there is room. */
  lemma EffectsExactly(x: Endpoint, kind: Kind, body: seq<Byte>, epoch: nat, advanced: bool)
    requires x.fault.None?
    ensures Dispatched(x, kind, body, epoch, advanced).fault
      == match kind
         case KeyUpdate => if |body| == 8 && Get(body) == epoch then None else Some(BadKeyUpdate)
         case KeyAck => if |body| == 8 then None else Some(BadKeyConfirmation)
         case Control => if 5 <= |body| <= 1004 then None else Some(BadControlChunk)
         case Closing => if |body| == 8 then Some(RemoteClosed) else None
         case Unknown => Some(UnknownPacket)
         case _ => None
    ensures Dispatched(x, kind, body, epoch, advanced).sender
      == if kind == KeyAck && |body| == 8 && Get(body) == x.sender.epoch then x.sender.(confirmed := true) else x.sender
    ensures Dispatched(x, kind, body, epoch, advanced).control.acks
      == if kind == Ack && |body| == 4 && |x.control.acks| < 8 then x.control.acks + [Get(body)] else x.control.acks
    ensures Dispatched(x, kind, body, epoch, advanced).receiver == x.receiver
  {
  }

  /** Everything else an endpoint can be asked to send: application packets, closing and pings
      as given, and the chunk in flight under its number, each as the send path has it. */
  lemma SendsAsked(x: Endpoint, kind: Kind, body: seq<Byte>, now: int)
    requires x.fault.None?
    ensures kind == Voice || (kind == Closing && |body| == 8) || (kind == Ping && body == []) ==>
      && Apply(x, AppSend(kind, body, now)).sent == x.sent + Send(x.sender, now, kind, body).packets
      && Apply(x, AppSend(kind, body, now)).sender == Send(x.sender, now, kind, body).sender
    ensures Apply(x, RefreshKeys(now)).sent == x.sent + Prepare(x.sender, now).packets
    ensures x.control.waiting && x.control.chunks != [] ==>
      var chunk := x.control.chunks[|x.control.chunks| - 1];
      Apply(x, Transmit(now)).sent
        == x.sent + Send(x.sender, now, Control, Put(x.control.writeSeq, 4) + chunk).packets
  {
    hide Send, Prepare, Put;
  }
}
