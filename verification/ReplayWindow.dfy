/** The 64-bit sliding replay window of internal/noiseudp/conn.go, related to the
    set of counters it has accepted. */
module ReplayWindow {
  const MAX_COUNTER: nat := 0x100_0000

  /** A 64-bit unsigned word as the positions of its one bits. Union is bitwise
      or, intersection is bitwise and, and the empty set is zero. */
  type Word64 = x: set<nat> | forall i :: i in x ==> i < 64

  /** `x << k`: bits shifted past the top are lost, so k >= 64 leaves zero. */
  function ShiftLeft(x: Word64, k: nat): Word64 {
    set i: nat | i < 64 && CameFrom(x, k, i)
  }

  predicate CameFrom(x: Word64, k: nat, i: nat) {
    k <= i && i - k in x
  }

  datatype Window = Window(highest: nat, bits: Word64) {
    predicate Seen(n: nat) {
      || n == 0
      || n >= MAX_COUNTER
      || (n <= highest && (highest - n >= 64 || bits * ShiftLeft({0}, highest - n) != {}))
    }

    function Add(n: nat): Window {
      var moved := if n > highest then Window(n, ShiftLeft(bits, n - highest)) else this;
      Window(moved.highest, moved.bits + ShiftLeft({0}, moved.highest - n))
    }
  }

  const EMPTY: Window := Window(0, {})

  /** The window holds exactly the part of `accepted` within 64 of the highest. */
  ghost predicate Tracks(w: Window, accepted: set<nat>) {
    && (accepted == {} ==> w.highest == 0)
    && (accepted != {} ==> w.highest in accepted)
    && (forall n :: n in accepted ==> 1 <= n <= w.highest && n < MAX_COUNTER)
    && (forall i: nat :: i in w.bits <==> i < 64 && i <= w.highest && w.highest - i in accepted)
  }

  /** `seen` is exact: out of range, already accepted, or 64 or more below the highest. */
  lemma SeenExactly(w: Window, accepted: set<nat>, n: nat)
    requires Tracks(w, accepted)
    ensures w.Seen(n) <==> n == 0 || n >= MAX_COUNTER || n in accepted || n + 64 <= w.highest
  {
    if n <= w.highest && w.highest - n < 64 {
      var k := w.highest - n;
      assert ShiftLeft({0}, k) == {k};
      assert k in w.bits <==> k in w.bits * {k};
    }
  }

  /** Recording a fresh counter keeps the window exact. */
  lemma AddTracks(w: Window, accepted: set<nat>, n: nat)
    requires Tracks(w, accepted) && !w.Seen(n)
    ensures Tracks(w.Add(n), accepted + {n})
  {
    SeenExactly(w, accepted, n);
    if n > w.highest {
      AddNewest(w, accepted, n);
    } else {
      AddWithin(w, accepted, n);
    }
  }

  lemma AddNewest(w: Window, accepted: set<nat>, n: nat)
    requires Tracks(w, accepted) && w.highest < n < MAX_COUNTER
    ensures Tracks(w.Add(n), accepted + {n})
  {
    var k := n - w.highest;
    assert ShiftLeft({0}, 0) == {0};
    assert w.Add(n) == Window(n, ShiftLeft(w.bits, k) + {0});
    forall i: nat
      ensures i in w.Add(n).bits <==> i < 64 && i <= n && n - i in accepted + {n}
    {
      if 0 < i < k {
        assert n - i !in accepted;
      } else if k <= i < 64 {
        assert i - k in w.bits <==> i - k <= w.highest && w.highest - (i - k) in accepted;
      }
    }
  }

  lemma AddWithin(w: Window, accepted: set<nat>, n: nat)
    requires Tracks(w, accepted) && 0 < n <= w.highest < n + 64 && n < MAX_COUNTER
    ensures Tracks(w.Add(n), accepted + {n})
  {
    var k := w.highest - n;
    assert ShiftLeft({0}, k) == {k};
    assert w.Add(n) == Window(w.highest, w.bits + {k});
    assert accepted != {};
  }
}
