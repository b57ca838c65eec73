/** The control stream's fields as `receive`, `Read`, `Write` and `writeChunk` update them
    (internal/noiseudp/conn.go). Where the source blocks, a method ends: the loops of Write
    are StartChunk and AwaitAck in turn. Each method computes exactly the step that the
    run-level proofs reason about, and keeps the accounts: what was written is the numbered
    chunks and what is left, what was retained is what was read and what is waiting. */
module NoiseStream {
  import opened Common
  import opened BigEndian
  import opened NoiseKeys
  import opened NoisePeers
  import NoiseSafety

  /** Until the expected number has wrapped, whatever arrives keeps the accounts. */
  lemma ArrivedKeeps(c: ByteStream, body: seq<Byte>)
    requires |body| >= 5 && NoiseSafety.Bytes(c)
    ensures c.expected != 0 ==> NoiseSafety.Bytes(Arrived(c, body))
  {
    if c.expected != 0 {
      NoiseSafety.RetainKeeps(c, body[4..]);
    }
  }

  /** A chunk at the receiver, by the number of those it has retained. */
  lemma ArrivedExactly(c: ByteStream, body: seq<Byte>)
    requires |body| >= 5
    ensures NoiseSafety.Bytes(c) && c.expected != 0 ==>
      var n, k := Get(body[..4]), |c.retained|;
      var fits := n == k + 1 && |c.recv| < 32;
      && Answers(c, body) == (fits || 1 <= n <= k)
      && Arrived(c, body).retained == c.retained + (if fits then [body[4..]] else [])
      && Arrived(c, body).recv == c.recv + (if fits then [body[4..]] else [])
  {
  }

  /** What a reader could get at once: what is left of the chunk it is in, or the next one. */
  function Available(pending: seq<Byte>, recv: seq<seq<Byte>>): seq<Byte> {
    if pending != [] then pending else if recv != [] then recv[0] else []
  }

  function Fewer(a: nat, b: nat): nat {
    if a < b then a else b
  }

  /** A read with room gets at least one byte whenever one is retained and undelivered. */
  lemma SomethingAvailable(c: ByteStream)
    requires NoiseSafety.Bytes(c) && |c.delivered| < |NoiseSafety.Flatten(c.retained)|
    ensures Available(c.pending, c.recv) != []
  {
  }

  class Control {
    var writeSeq: nat
    var left: seq<Byte>
    var waiting: bool
    var acks: seq<nat>
    var expected: nat
    var recv: seq<seq<Byte>>
    var pending: seq<Byte>
    ghost var written: seq<Byte>
    ghost var chunks: seq<seq<Byte>>
    ghost var retained: seq<seq<Byte>>
    ghost var delivered: seq<Byte>

    ghost function Value(): ByteStream
      reads this
    {
      ByteStream(writeSeq, left, waiting, acks, expected, recv, pending, written, chunks, retained, delivered)
    }

    ghost predicate Valid()
      reads this
    {
      NoiseSafety.Bytes(Value())
    }

    constructor (side: bool)
      ensures Value() == NewEndpoint(side, 0).control && Valid()
    {
      writeSeq, left, waiting, acks := 0, [], false, [];
      expected, recv, pending := 1, [], [];
      written, chunks, retained, delivered := [], [], [], [];
    }

    /** The control case of receive, past the length check. Until the expected number has
        wrapped, exactly the chunk after those retained is retained, if less than 32 wait,
        and exactly it and the retained ones are answered. */
    method OnChunk(body: seq<Byte>) returns (ack: bool)
      requires |body| >= 5 && Valid()
      modifies this
      ensures old(expected) != 0 ==> Valid()
      ensures ack == Answers(old(Value()), body) && Value() == Arrived(old(Value()), body)
      ensures old(expected) != 0 ==>
        var n, k := Get(body[..4]), |old(retained)|;
        var fits := n == k + 1 && |old(recv)| < 32;
        && ack == (fits || 1 <= n <= k)
        && retained == old(retained) + (if fits then [body[4..]] else [])
        && recv == old(recv) + (if fits then [body[4..]] else [])
    {
      ArrivedKeeps(Value(), body);
      hide NoiseSafety.Bytes, Arrived, Answers;
      ack := Take(body);
      ArrivedExactly(old(Value()), body);
    }

    method Take(body: seq<Byte>) returns (ack: bool)
      requires |body| >= 5
      modifies this
      ensures ack == Answers(old(Value()), body) && Value() == Arrived(old(Value()), body)
    {
      var seqno := Get(body[..4]);
      if seqno == expected {
        if |recv| >= RECEIVE_QUEUE {
          return false;
        }
        recv := recv + [body[4..]];
        retained := retained + [body[4..]];
        expected := (expected + 1) % (MAX_SEQUENCE + 1);
      } else if seqno == 0 || seqno >= expected {
        return false;
      }
      return true;
    }

    /** What Read returns when it does not have to wait: as much of what is available as
        there is room for, and never nothing while there is something. */
    method Read(room: nat) returns (out: seq<Byte>)
      requires Valid()
      modifies this
      ensures Valid()
      ensures Value() == ReadOnce(old(Value()), room)
      ensures var available := Available(old(pending), old(recv));
        && out == available[..Fewer(room, |available|)]
        && delivered == old(delivered) + out
        && (room > 0 ==>
              && pending == available[|out|..]
              && recv == if old(pending) == [] && old(recv) != [] then old(recv)[1..] else old(recv))
        && (room == 0 ==> Value() == old(Value()))
      ensures room > 0 && |old(delivered)| < |NoiseSafety.Flatten(old(retained))| ==> out != []
    {
      NoiseSafety.ReadOnceKept(Value(), room);
      ghost var before := Value();
      if |delivered| < |NoiseSafety.Flatten(retained)| {
        SomethingAvailable(before);
      }
      if room == 0 {
        return [];
      }
      if pending == [] {
        if recv == [] {
          return [];
        }
        pending, recv := recv[0], recv[1..];
      }
      var n := if room < |pending| then room else |pending|;
      out := pending[..n];
      pending := pending[n..];
      delivered := delivered + out;
    }

    /** One round of Write's loop, up to the first transmission; None when the numbers
        are used up. */
    method StartChunk() returns (body: Option<seq<Byte>>)
      requires !waiting && left != [] && Valid()
      modifies this
      ensures Valid()
      ensures body.Some? <==> old(writeSeq) != MAX_SEQUENCE
      ensures body.Some? ==>
        && Value() == ChunkTaken(old(Value()))
        && body.value == Put(writeSeq, 4) + chunks[|chunks| - 1]
        && writeSeq == |old(chunks)| + 1 && waiting
        && chunks == old(chunks) + [old(left)[..Fewer(1000, |old(left)|)]]
        && left == old(left)[Fewer(1000, |old(left)|)..]
      ensures body.None? ==> Value() == old(Value())
    {
      if writeSeq == MAX_SEQUENCE {
        return None;
      }
      NoiseSafety.ChunkTakenNumbered(Value());
      writeSeq := writeSeq + 1;
      var n := if |left| < MAX_CHUNK then |left| else MAX_CHUNK;
      body := Some(Put(writeSeq, 4) + left[..n]);
      chunks := chunks + [left[..n]];
      left := left[n..];
      waiting := true;
    }

    /** One receive from the acknowledgement queue: only the number in flight counts. */
    method AwaitAck() returns (done: bool)
      requires waiting && acks != [] && Valid()
      modifies this
      ensures Valid()
      ensures Value() == AckTaken(old(Value())) && done == !waiting && acks == old(acks)[1..]
      ensures done <==> old(acks)[0] == writeSeq
    {
      var id := acks[0];
      acks := acks[1..];
      if id == writeSeq {
        waiting := false;
      }
      return !waiting;
    }
  }
}
