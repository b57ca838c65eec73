/** The replay window as the 64-bit word of internal/noiseudp/conn.go, and that it is the
    set of positions the protocol proofs use. A shift is taken one place at a time, so
    every operation on the word has a constant amount. */
module ReplayBits {
  import RW = ReplayWindow

  /** b << k, for any k; 64 or more shifts everything out. */
  function Shl(b: bv64, k: nat): bv64 {
    if k == 0 then b else Shl(b, k - 1) << 1
  }

  function Or(x: bv64, y: bv64): bv64 {
    x | y
  }

  predicate Hit(b: bv64, mask: bv64) {
    b & mask != 0
  }

  /** The word has bit i. */
  predicate Bit(b: bv64, i: nat) {
    Hit(b, Shl(1, i))
  }

  datatype BitWindow = BitWindow(highest: nat, bits: bv64) {
    predicate Seen(n: nat) {
      n == 0 || n >= RW.MAX_COUNTER
      || (n <= highest && (highest - n >= 64 || Hit(bits, Shl(1, highest - n))))
    }

    function Add(n: nat): BitWindow {
      var moved := if n > highest then BitWindow(n, Shl(bits, n - highest)) else this;
      BitWindow(moved.highest, Or(moved.bits, Shl(1, moved.highest - n)))
    }
  }

  const EMPTY: BitWindow := BitWindow(0, 0)

  /** The positions of the one bits. */
  ghost function Positions(b: bv64): RW.Word64 {
    set i: nat | i < 64 && Bit(b, i)
  }

  ghost function Abstract(w: BitWindow): RW.Window {
    RW.Window(w.highest, Positions(w.bits))
  }

  // ---- Facts about words, without indices ---------------------------------

  lemma OrDistributes(x: bv64, y: bv64, m: bv64)
    ensures (x | y) & m == (x & m) | (y & m)
  {}

  lemma OrZero(x: bv64, y: bv64)
    ensures x | y == 0 <==> x == 0 && y == 0
  {}

  lemma OrMiss(x: bv64, y: bv64, m: bv64)
    ensures (x | y) & m == 0 <==> x & m == 0 && y & m == 0
  {
    OrDistributes(x, y, m);
    OrZero(x & m, y & m);
  }

  lemma OrHit(x: bv64, y: bv64, m: bv64)
    ensures Hit(x | y, m) <==> Hit(x, m) || Hit(y, m)
  {
    OrMiss(x, y, m);
  }

  lemma OrIsHit(x: bv64, y: bv64, m: bv64)
    ensures Hit(Or(x, y), m) <==> Hit(x, m) || Hit(y, m)
  {
    hide Hit;
    OrHit(x, y, m);
  }

  /** The mask is a single bit, as far as x can tell. */
  ghost predicate Picks(x: bv64, m: bv64) {
    x & m == 0 || x & m == m
  }

  lemma OnePicks(x: bv64)
    ensures Picks(x, 1)
  {}

  lemma Slide(x: bv64, m: bv64)
    ensures x & (m << 1) == ((x >> 1) & m) << 1
  {}

  lemma SlidePicks(x: bv64, m: bv64)
    requires (x >> 1) & m == 0 || (x >> 1) & m == m
    ensures x & (m << 1) == 0 || x & (m << 1) == m << 1
  {
    Slide(x, m);
  }

  lemma PicksNext(x: bv64, m: bv64)
    requires Picks(x >> 1, m)
    ensures Picks(x, m << 1)
  {
    SlidePicks(x, m);
  }

  lemma ShiftBoth(x: bv64, y: bv64)
    ensures (x << 1) & (y << 1) == (x & y) << 1
  {}

  lemma ShiftHit(x: bv64, m: bv64)
    requires Picks(x, m) && m << 1 != 0
    ensures Hit(x << 1, m << 1) <==> Hit(x, m)
  {
    ShiftBoth(x, m);
  }

  lemma LowClear(x: bv64)
    ensures !Hit(x << 1, 1) && !Hit(1, x << 1)
  {}

  lemma OneHit()
    ensures Hit(1, 1)
  {}

  lemma ZeroMisses(m: bv64)
    ensures !Hit(0, m)
  {}

  // ---- Facts about bits ---------------------------------------------------

  lemma ShlZero(b: bv64)
    ensures Shl(b, 0) == b
  {}

  lemma ShlNext(b: bv64, k: nat)
    requires k > 0
    ensures Shl(b, k) == Shl(b, k - 1) << 1
  {}

  lemma TopBit()
    ensures Shl(1, 63) == 0x8000_0000_0000_0000
  {
    assert Shl(1, 4) == 0x10;
    assert Shl(1, 8) == 0x100;
    assert Shl(1, 12) == 0x1000;
    assert Shl(1, 16) == 0x1_0000;
    assert Shl(1, 20) == 0x10_0000;
    assert Shl(1, 24) == 0x100_0000;
    assert Shl(1, 28) == 0x1000_0000;
    assert Shl(1, 32) == 0x1_0000_0000;
    TopHalf();
  }

  lemma TopHalf()
    requires Shl(1, 32) == 0x1_0000_0000
    ensures Shl(1, 63) == 0x8000_0000_0000_0000
  {
    assert Shl(1, 36) == 0x10_0000_0000;
    assert Shl(1, 40) == 0x100_0000_0000;
    assert Shl(1, 44) == 0x1000_0000_0000;
    assert Shl(1, 48) == 0x1_0000_0000_0000;
    assert Shl(1, 52) == 0x10_0000_0000_0000;
    assert Shl(1, 56) == 0x100_0000_0000_0000;
    assert Shl(1, 60) == 0x1000_0000_0000_0000;
  }

  lemma {:induction false} MaskIsSet(k: nat)
    requires k < 64
    ensures Shl(1, k) != 0
    decreases 64 - k
  {
    if k == 63 {
      TopBit();
    } else {
      MaskIsSet(k + 1);
      ShlNext(1, k + 1);
    }
  }

  lemma {:induction false} MaskPicks(x: bv64, k: nat)
    ensures Picks(x, Shl(1, k))
  {
    hide Picks, Shl;
    if k == 0 {
      ShlZero(1);
      OnePicks(x);
    } else {
      MaskPicks(x >> 1, k - 1);
      PicksNext(x, Shl(1, k - 1));
      ShlNext(1, k);
    }
  }

  lemma BitOfShift(x: bv64, i: nat)
    requires i < 64
    ensures Bit(x << 1, i) <==> i > 0 && Bit(x, i - 1)
  {
    hide Picks, Shl, Hit;
    if i == 0 {
      ShlZero(1);
      LowClear(x);
    } else {
      MaskPicks(x, i - 1);
      ShlNext(1, i);
      MaskIsSet(i);
      ShiftHit(x, Shl(1, i - 1));
    }
  }

  /** Bit i of a shifted word is bit i - k of the word, or zero. */
  lemma {:induction false} ShiftedBit(b: bv64, k: nat, i: nat)
    requires i < 64
    ensures Bit(Shl(b, k), i) <==> k <= i && Bit(b, i - k)
  {
    hide Bit, Shl;
    if k == 0 {
      ShlZero(b);
    } else {
      ShlNext(b, k);
      BitOfShift(Shl(b, k - 1), i);
      if i > 0 {
        ShiftedBit(b, k - 1, i - 1);
      }
    }
  }

  lemma BitOfOr(x: bv64, y: bv64, i: nat)
    ensures Bit(Or(x, y), i) <==> Bit(x, i) || Bit(y, i)
  {
    hide Hit, Shl, Or;
    OrIsHit(x, y, Shl(1, i));
  }

  lemma BitOfOne(i: nat)
    requires i < 64
    ensures Bit(1, i) <==> i == 0
  {
    hide Hit, Shl;
    if i > 0 {
      ShlNext(1, i);
      LowClear(Shl(1, i - 1));
    } else {
      ShlZero(1);
      OneHit();
    }
  }

  lemma MaskBit(k: nat, i: nat)
    requires i < 64
    ensures Bit(Shl(1, k), i) <==> k == i
  {
    hide Bit, Shl;
    ShiftedBit(1, k, i);
    if k <= i {
      BitOfOne(i - k);
    }
  }

  // ---- The word is the set ------------------------------------------------

  lemma ShiftIsShift(b: bv64, k: nat)
    ensures Positions(Shl(b, k)) == RW.ShiftLeft(Positions(b), k)
  {
    hide Bit, Shl;
    forall i: nat | i < 64 ensures i in Positions(Shl(b, k)) <==> RW.CameFrom(Positions(b), k, i) {
      ShiftedBit(b, k, i);
    }
  }

  lemma MaskIsOne(k: nat)
    ensures Positions(Shl(1, k)) == RW.ShiftLeft({0}, k)
  {
    hide Bit, Shl;
    forall i: nat | i < 64 ensures i in Positions(Shl(1, k)) <==> RW.CameFrom({0}, k, i) {
      MaskBit(k, i);
    }
  }

  lemma OrIsUnion(x: bv64, y: bv64)
    ensures Positions(Or(x, y)) == Positions(x) + Positions(y)
  {
    hide Bit, Or;
    forall i: nat | i < 64 ensures i in Positions(Or(x, y)) <==> i in Positions(x) || i in Positions(y) {
      BitOfOr(x, y, i);
    }
  }

  lemma SetBit(w: BitWindow, k: nat)
    ensures Positions(Or(w.bits, Shl(1, k))) == Positions(w.bits) + RW.ShiftLeft({0}, k)
  {
    hide Positions, Shl, Or;
    OrIsUnion(w.bits, Shl(1, k));
    MaskIsOne(k);
  }

  /** The word answers as the set of positions does. */
  lemma SeenRefines(w: BitWindow, n: nat)
    ensures w.Seen(n) <==> Abstract(w).Seen(n)
  {
    hide Hit, Shl;
    if n <= w.highest && w.highest - n < 64 {
      var k := w.highest - n;
      assert RW.ShiftLeft({0}, k) == {k};
      assert Bit(w.bits, k) <==> k in Positions(w.bits);
      assert k in Positions(w.bits) <==> k in Positions(w.bits) * {k};
    }
  }

  /** And changes as it does. */
  lemma AddRefines(w: BitWindow, n: nat)
    ensures Abstract(w.Add(n)) == Abstract(w).Add(n)
  {
    hide Shl, Positions, Or;
    if n > w.highest {
      ShiftIsShift(w.bits, n - w.highest);
      SetBit(BitWindow(n, Shl(w.bits, n - w.highest)), 0);
    } else {
      SetBit(w, w.highest - n);
    }
  }

  lemma EmptyRefines()
    ensures Abstract(EMPTY) == RW.EMPTY
  {
    hide Hit, Shl;
    forall i: nat | i < 64 ensures !Bit(0, i) {
      ZeroMisses(Shl(1, i));
    }
  }

  /** The word after a run of acceptances. */
  function Accepted(ns: seq<nat>): BitWindow {
    if ns == [] then EMPTY else Accepted(ns[..|ns| - 1]).Add(ns[|ns| - 1])
  }

  ghost function Elements(ns: seq<nat>): set<nat> {
    set n | n in ns
  }

  /** Each counter was accepted only because the word had not seen it. */
  ghost predicate EachUnseen(ns: seq<nat>) {
    forall i :: 0 <= i < |ns| ==> !Accepted(ns[..i]).Seen(ns[i])
  }

  lemma AcceptTracks(w: BitWindow, accepted: set<nat>, n: nat)
    requires RW.Tracks(Abstract(w), accepted) && !w.Seen(n)
    ensures RW.Tracks(Abstract(w.Add(n)), accepted + {n})
  {
    hide BitWindow.Seen, BitWindow.Add, Abstract, RW.Tracks, RW.Window.Seen, RW.Window.Add;
    SeenRefines(w, n);
    AddRefines(w, n);
    RW.AddTracks(Abstract(w), accepted, n);
  }

  lemma EarlierUnseen(ns: seq<nat>)
    requires EachUnseen(ns) && ns != []
    ensures EachUnseen(ns[..|ns| - 1]) && !Accepted(ns[..|ns| - 1]).Seen(ns[|ns| - 1])
  {
    hide Accepted, BitWindow.Seen;
    var rest := ns[..|ns| - 1];
    forall i | 0 <= i < |rest| ensures !Accepted(rest[..i]).Seen(rest[i]) {
      assert rest[..i] == ns[..i];
    }
  }

  lemma AcceptedMore(ns: seq<nat>)
    requires ns != []
    ensures Accepted(ns) == Accepted(ns[..|ns| - 1]).Add(ns[|ns| - 1])
    ensures Elements(ns) == Elements(ns[..|ns| - 1]) + {ns[|ns| - 1]}
  {
    hide BitWindow.Add;
    assert ns == ns[..|ns| - 1] + [ns[|ns| - 1]];
  }

  lemma {:induction false} WordTracks(ns: seq<nat>)
    requires EachUnseen(ns)
    ensures RW.Tracks(Abstract(Accepted(ns)), Elements(ns))
  {
    hide Accepted, BitWindow.Seen, BitWindow.Add, Abstract, RW.Tracks;
    if ns == [] {
      EmptyTracks();
      assert Elements(ns) == {};
    } else {
      var rest, n := ns[..|ns| - 1], ns[|ns| - 1];
      EarlierUnseen(ns);
      WordTracks(rest);
      AcceptTracks(Accepted(rest), Elements(rest), n);
      AcceptedMore(ns);
    }
  }

  lemma EmptyTracks()
    ensures RW.Tracks(Abstract(Accepted([])), {})
  {
    EmptyRefines();
  }

  /** The 64-bit word is exact: after any run of acceptances, a counter is reported seen
      exactly when it is out of range, was accepted, or is 64 or more below the highest. */
  lemma WordSeenExactly(ns: seq<nat>, n: nat)
    requires EachUnseen(ns)
    ensures var w := Accepted(ns);
      w.Seen(n) <==> n == 0 || n >= RW.MAX_COUNTER || n in ns || n + 64 <= w.highest
  {
    hide BitWindow.Seen, Accepted, Positions, RW.Window.Seen;
    WordTracks(ns);
    SeenRefines(Accepted(ns), n);
    RW.SeenExactly(Abstract(Accepted(ns)), Elements(ns), n);
  }

  /** The two fields as the connection updates them. */
  class Register {
    var highest: nat
    var bits: bv64

    ghost function Value(): BitWindow
      reads this
    {
      BitWindow(highest, bits)
    }

    constructor ()
      ensures Value() == EMPTY
    {
      highest, bits := 0, 0;
    }

    method Query(n: nat) returns (seen: bool)
      ensures seen == Abstract(Value()).Seen(n)
    {
      SeenRefines(Value(), n);
      seen := BitWindow(highest, bits).Seen(n);
    }

    method Record(n: nat)
      modifies this
      ensures Abstract(Value()) == Abstract(old(Value())).Add(n)
    {
      hide Abstract, Shl, Or, RW.Window.Add;
      AddRefines(Value(), n);
      if n > highest {
        bits := Shl(bits, n - highest);
        highest := n;
      }
      bits := Or(bits, Shl(1, highest - n));
    }
  }
}
