/** Fixed-width big-endian integers, as binary.BigEndian and to_be_bytes write them. */
module BigEndian {
  type Byte = b: int | 0 <= b < 256

  function Limit(width: nat): (l: nat)
    ensures l > 0
  {
    if width == 0 then 1 else 256 * Limit(width - 1)
  }

  /** The low `width` bytes of v, most significant first. */
  function Put(v: nat, width: nat): (b: seq<Byte>)
    ensures |b| == width
  {
    if width == 0 then [] else Put(v / 256, width - 1) + [v % 256]
  }

  function Get(b: seq<Byte>): nat {
    if b == [] then 0 else 256 * Get(b[..|b| - 1]) + b[|b| - 1]
  }

  lemma {:induction false} GetPut(v: nat, width: nat)
    requires v < Limit(width)
    ensures Get(Put(v, width)) == v
  {
    if width > 0 {
      GetPut(v / 256, width - 1);
      var b := Put(v, width);
      assert b[..|b| - 1] == Put(v / 256, width - 1);
    }
  }

  lemma {:induction false} PutGet(b: seq<Byte>)
    ensures Get(b) < Limit(|b|)
    ensures Put(Get(b), |b|) == b
  {
    if b != [] {
      PutGet(b[..|b| - 1]);
      assert b == b[..|b| - 1] + [b[|b| - 1]];
    }
  }

  lemma Widths()
    ensures Limit(2) == 0x1_0000
    ensures Limit(4) == 0x1_0000_0000
    ensures Limit(8) == 0x1_0000_0000_0000_0000
  {
    assert Limit(2) == 256 * Limit(1);
    assert Limit(4) == 256 * Limit(3);
    assert Limit(6) == 256 * Limit(5);
    assert Limit(8) == 256 * Limit(7);
  }

  lemma LowByte(q: nat, r: Byte)
    ensures (q * 256 + r) / 256 == q && (q * 256 + r) % 256 == r
  {
  }

  /** The most significant byte comes first. */
  lemma BytesInOrder(a: Byte, b: Byte, c: Byte, d: Byte)
    ensures Put(c * 256 + d, 2) == [c, d]
    ensures Put(a * 0x100_0000 + b * 0x1_0000 + c * 0x100 + d, 4) == [a, b, c, d]
  {
    var two, three := a * 256 + b, a * 0x1_0000 + b * 256 + c;
    LowByte(c, d);
    LowByte(a, b);
    LowByte(two, c);
    LowByte(three, d);
    assert Put(c, 1) == [c] && Put(a, 1) == [a] && Put(two, 2) == [a, b] && Put(three, 3) == [a, b, c];
  }
}
