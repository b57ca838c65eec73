/** Voice datagrams: EncodeVoice and DecodeVoice of internal/nativewire/wire.go, and the
    client's own framing of the same bytes in client/src/session.rs. */
module VoiceWire {
  import opened Common
  import opened BigEndian

  const MAX_PAYLOAD: nat := 1024
  const CLIENT_HEADER: nat := 7
  const SERVER_HEADER: nat := 13

  /** `epoch` belongs to the sender on upload and to the recipient on download. */
  datatype Voice = Voice(
    epoch: UInt32, senderEpoch: UInt32, sender: UInt16, sequence: UInt16, end: bool, data: seq<Byte>)

  function HeaderSize(downstream: bool): nat {
    if downstream then SERVER_HEADER else CLIENT_HEADER
  }

  predicate Encodable(v: Voice, downstream: bool) {
    && v.epoch != 0 && |v.data| <= MAX_PAYLOAD && v.end == (v.data == [])
    && (downstream ==> v.sender != 0 && v.senderEpoch != 0)
  }

  /** The layout of an encodable frame. */
  function Layout(v: Voice, downstream: bool): (b: seq<Byte>)
    ensures |b| == HeaderSize(downstream) + |v.data|
  {
    Head(v, downstream) + v.data
  }

  function Head(v: Voice, downstream: bool): (b: seq<Byte>)
    ensures |b| == HeaderSize(downstream)
  {
    [if v.end then 1 else 0] + Put(v.epoch, 4) + Put(v.sequence, 2)
      + (if downstream then Put(v.sender, 2) + Put(v.senderEpoch, 4) else [])
  }

  function Encode(v: Voice, downstream: bool): Option<seq<Byte>> {
    if Encodable(v, downstream) then Some(Layout(v, downstream)) else None
  }

  function Get16(b: seq<Byte>): UInt16
    requires |b| == 2
  {
    Widths();
    PutGet(b);
    Get(b)
  }

  function Get32(b: seq<Byte>): UInt32
    requires |b| == 4
  {
    Widths();
    PutGet(b);
    Get(b)
  }

  /** DecodeVoice. */
  function Decode(b: seq<Byte>, downstream: bool): Option<Voice> {
    var header := HeaderSize(downstream);
    if |b| < header || |b| > header + MAX_PAYLOAD || b[0] > 1 then None else
    var v := Voice(Get32(b[1..5]),
                   if downstream then Get32(b[9..13]) else 0,
                   if downstream then Get16(b[7..9]) else 0,
                   Get16(b[5..7]), b[0] == 1, b[header..]);
    if downstream && (v.sender == 0 || v.senderEpoch == 0) then None
    else if v.epoch == 0 || v.end != (v.data == []) then None
    else Some(v)
  }

  /** Upload carries no sender fields: the server knows who is talking. */
  function Carried(v: Voice, downstream: bool): Voice {
    if downstream then v else v.(sender := 0, senderEpoch := 0)
  }

  lemma {:induction false} LayoutParts(v: Voice, downstream: bool)
    ensures var b := Layout(v, downstream);
      && b[0] == (if v.end then 1 else 0)
      && b[1..5] == Put(v.epoch, 4) && b[5..7] == Put(v.sequence, 2)
      && (downstream ==> b[7..9] == Put(v.sender, 2) && b[9..13] == Put(v.senderEpoch, 4))
      && b[HeaderSize(downstream)..] == v.data
  {}

  lemma FieldsReturn(v: Voice)
    ensures Get(Put(v.epoch, 4)) == v.epoch && Get(Put(v.sequence, 2)) == v.sequence
    ensures Get(Put(v.sender, 2)) == v.sender && Get(Put(v.senderEpoch, 4)) == v.senderEpoch
  {
    Widths();
    GetPut(v.epoch, 4);
    GetPut(v.sequence, 2);
    GetPut(v.sender, 2);
    GetPut(v.senderEpoch, 4);
  }

  /** Whatever encodes, decodes to the fields that direction carries. */
  lemma {:induction false} DecodeEncoded(v: Voice, downstream: bool)
    requires Encodable(v, downstream)
    ensures Decode(Layout(v, downstream), downstream) == Some(Carried(v, downstream))
  {
    LayoutParts(v, downstream);
    FieldsReturn(v);
  }

  /** Whatever decodes is the one encoding of what it decodes to. */
  lemma {:induction false} EncodeDecoded(b: seq<Byte>, downstream: bool)
    requires Decode(b, downstream).Some?
    ensures Encode(Decode(b, downstream).value, downstream) == Some(b)
  {
    PutGet(b[1..5]);
    PutGet(b[5..7]);
    Pieces(b);
    if downstream {
      PutGet(b[7..9]);
      PutGet(b[9..13]);
    }
  }

  lemma {:induction false} Pieces(b: seq<Byte>)
    requires |b| >= CLIENT_HEADER
    ensures b == [b[0]] + b[1..5] + b[5..7] + [] + b[7..]
    ensures |b| >= SERVER_HEADER ==> b == [b[0]] + b[1..5] + b[5..7] + (b[7..9] + b[9..13]) + b[13..]
  {}

  /** Writes a big-endian field into the buffer. */
  method PutAt(b: array<Byte>, at: nat, v: nat, width: nat)
    requires at + width <= b.Length
    modifies b
    ensures b[at..at + width] == Put(v, width)
    ensures b[..at] == old(b[..at]) && b[at + width..] == old(b[at + width..])
  {
    var field := Put(v, width);
    var i := 0;
    while i < width
      invariant 0 <= i <= width
      invariant b[..at] == old(b[..at])
      invariant b[at..at + i] == field[..i]
      invariant b[at + width..] == old(b[at + width..])
    {
      b[at + i] := field[i];
      i := i + 1;
    }
  }

  /** EncodeVoice: the buffer filled field by field. */
  method EncodeVoice(v: Voice, downstream: bool) returns (r: Option<seq<Byte>>)
    ensures r == Encode(v, downstream)
  {
    if v.epoch == 0 || |v.data| > MAX_PAYLOAD || v.end != (v.data == []) {
      return None;
    }
    var header := CLIENT_HEADER;
    if downstream {
      header := SERVER_HEADER;
      if v.sender == 0 {
        return None;
      }
    }
    var b := new Byte[header + |v.data|](i => 0);
    PutFixed(b, v);
    if downstream {
      if v.senderEpoch == 0 {
        return None;
      }
      PutSender(b, v);
    }
    CopyAt(b, header, v.data);
    assert b[..] == b[..header] + b[header..];
    return Some(b[..]);
  }

  method PutFixed(b: array<Byte>, v: Voice)
    requires b.Length >= CLIENT_HEADER && b[0] == 0
    modifies b
    ensures b[..CLIENT_HEADER] == Head(v, false)
  {
    hide Put;
    if v.end {
      b[0] := 1;
    }
    assert b[..1] == [if v.end then 1 else 0];
    PutAt(b, 1, v.epoch, 4);
    PutAt(b, 5, v.sequence, 2);
    assert b[..5][..1] == b[..1] && b[..5][1..5] == b[1..5];
    assert b[..7] == b[..5] + b[5..7] && b[..5] == b[..1] + b[1..5];
  }

  method PutSender(b: array<Byte>, v: Voice)
    requires b.Length >= SERVER_HEADER && b[..CLIENT_HEADER] == Head(v, false)
    modifies b
    ensures b[..SERVER_HEADER] == Head(v, true)
  {
    PutAt(b, 7, v.sender, 2);
    PutAt(b, 9, v.senderEpoch, 4);
    assert b[..9][..7] == b[..7] && b[..9][7..9] == b[7..9];
    assert b[..13] == b[..9] + b[9..13] && b[..9] == b[..7] + b[7..9];
    assert b[..13] == Head(v, false) + (b[7..9] + b[9..13]);
  }

  method CopyAt(b: array<Byte>, at: nat, data: seq<Byte>)
    requires at + |data| == b.Length
    modifies b
    ensures b[..at] == old(b[..at]) && b[at..] == data
  {
    var i := 0;
    while i < |data|
      invariant 0 <= i <= |data|
      invariant b[..at] == old(b[..at]) && b[at..at + i] == data[..i]
    {
      b[at + i] := data[i];
      i := i + 1;
    }
  }

  /** The client's own parse of a downstream datagram (Driver::voice), before it looks at
      its snapshot. */
  function ClientParse(data: seq<Byte>): Option<Voice> {
    if |data| < 13 || |data| > 1037 || data[0] > 1 then None else
    var v := Voice(Get32(data[1..5]), Get32(data[9..13]), Get16(data[7..9]), Get16(data[5..7]),
                   data[0] == 1, data[13..]);
    if v.sender == 0 || v.end != (|data| == 13) then None else Some(v)
  }

  /** The client accepts a frame the server's decoder would accept, with the same fields,
      except that it leaves the two epochs' zero checks to the snapshot comparison. */
  lemma ClientAgrees(data: seq<Byte>)
    ensures Decode(data, true).Some? ==> ClientParse(data) == Decode(data, true)
    ensures ClientParse(data).Some? && ClientParse(data).value.epoch != 0 && ClientParse(data).value.senderEpoch != 0
      ==> Decode(data, true) == ClientParse(data)
  {
    if |data| >= 13 {
      assert (data[13..] == []) == (|data| == 13);
    }
  }

  /** The client's upload framing (VoiceSender::send_inner). */
  function ClientFrame(epoch: UInt32, sequence: UInt16, opus: seq<Byte>): seq<Byte> {
    [if opus == [] then 1 else 0] + Put(epoch, 4) + Put(sequence, 2) + opus
  }

  /** The server reads back exactly what the client framed, unless the epoch is 0. */
  lemma {:induction false} UploadDecodes(epoch: UInt32, sequence: UInt16, opus: seq<Byte>)
    requires |opus| <= MAX_PAYLOAD
    ensures Decode(ClientFrame(epoch, sequence, opus), false)
      == if epoch == 0 then None else Some(Voice(epoch, 0, 0, sequence, opus == [], opus))
  {
    var v := Voice(epoch, 0, 0, sequence, opus == [], opus);
    assert ClientFrame(epoch, sequence, opus) == Layout(v, false);
    LayoutParts(v, false);
    FieldsReturn(v);
  }
}
