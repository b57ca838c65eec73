/** The factor search of drfti1 in native/speexdsp/smallft.c: how a transform size is
    split, in place, into the table that both passes read. */
module FftFactors {
  import opened Arithmetic

  const TABLE: nat := 32
  const INT_LIMIT: nat := 0x8000_0000

  function Product(f: seq<int>): int {
    if f == [] then 1 else Product(f[..|f| - 1]) * f[|f| - 1]
  }

  function Pow2(k: nat): (p: nat)
    ensures p > 0
  {
    if k == 0 then 1 else 2 * Pow2(k - 1)
  }

  lemma ProductMore(f: seq<int>, x: int)
    ensures Product(f + [x]) == Product(f) * x
  {
    assert (f + [x])[..|f|] == f;
  }

  lemma {:induction false} ProductFirst(x: int, f: seq<int>)
    ensures Product([x] + f) == x * Product(f)
  {
    if f == [] {
      assert [x] + f == [x];
      assert [x][..0] == [];
    } else {
      var n := |f| - 1;
      ProductFirst(x, f[..n]);
      assert ([x] + f)[..n + 1] == [x] + f[..n];
      assert x * Product(f[..n]) * f[n] == x * (Product(f[..n]) * f[n]);
    }
  }

  lemma {:induction false} Pow2Monotone(a: nat, b: nat)
    requires a <= b
    ensures Pow2(a) <= Pow2(b)
    decreases b
  {
    if a < b {
      Pow2Monotone(a, b - 1);
    }
  }

  lemma Pow2Of31()
    ensures Pow2(31) == INT_LIMIT
  {
    assert Pow2(4) == 16;
    assert Pow2(8) == 256;
    assert Pow2(12) == 4096;
    assert Pow2(16) == 65536;
    assert Pow2(20) == 1048576;
    assert Pow2(24) == 16777216;
    assert Pow2(28) == 268435456;
  }

  /** Every factor doubles a lower bound on n, so the table cannot overflow. */
  lemma TableSuffices(nf: nat, nl: nat, n: nat)
    requires Pow2(nf) * nl <= n < INT_LIMIT && nl >= 1
    ensures nf <= 30
  {
    AtLeast(Pow2(nf), nl);
    Pow2Of31();
    if nf >= 31 {
      Pow2Monotone(31, nf);
    }
  }

  /** The j-th trial divisor: 4, 2, 3, 5, then the odd numbers. */
  function Trial(j: nat): nat {
    if j == 0 then 4 else if j == 1 then 2 else 2 * j - 1
  }

  /** What has been ruled out before trial j: 4, then 2, then the odd numbers below it. */
  ghost predicate RuledOut(nl: nat, j: nat) {
    && (j >= 1 ==> nl % 4 != 0)
    && (j >= 2 ==> nl % 2 != 0)
    && (forall i :: 2 <= i < j ==> nl % Trial(i) != 0)
  }

  lemma DividesThrough(d: nat, q: nat, t: nat)
    requires d > 0 && q % d == 0
    ensures (t * q) % d == 0
  {
    var c := q / d;
    assert q == d * c;
    assert t * q == d * (t * c) by {
      assert t * (d * c) == d * (t * c);
    }
    MultipleModZero(d, t * c);
  }

  lemma {:induction false} MultipleModZero(d: nat, m: nat)
    requires d > 0
    ensures (d * m) % d == 0
  {
    if m > 0 {
      MultipleModZero(d, m - 1);
      assert d * m == d * (m - 1) + d;
      assert (d * (m - 1) + d) % d == (d * (m - 1)) % d by {
        ModPlus(d * (m - 1), d);
      }
    }
  }

  lemma ModPlus(a: nat, d: nat)
    requires d > 0
    ensures (a + d) % d == a % d
  {
    var q, r := a / d, a % d;
    assert a == d * q + r;
    assert a + d == d * (q + 1) + r;
    DivModUnique(a + d, d, q + 1, r);
  }

  lemma DivisionKeepsRuledOut(nl: nat, j: nat, q: nat)
    requires RuledOut(nl, j) && nl == Trial(j) * q
    ensures RuledOut(q, j)
  {
    if j >= 1 && q % 4 == 0 { DividesThrough(4, q, Trial(j)); }
    if j >= 2 && q % 2 == 0 { DividesThrough(2, q, Trial(j)); }
    forall i | 2 <= i < j ensures q % Trial(i) != 0 {
      if q % Trial(i) == 0 { DividesThrough(Trial(i), q, Trial(j)); }
    }
  }

  /** The search never passes the number it is dividing, so it always finds a divisor. */
  lemma TrialInRange(nl: nat, j: nat)
    requires RuledOut(nl, j) && nl > 1 && j >= 2
    ensures Trial(j) <= nl
  {
    var i := (nl + 1) / 2;
    assert Trial(i) == nl;
    assert nl % Trial(i) == 0;
  }

  /** Makes room at the front of the factors by moving nf - 1 of them up one slot. */
  method ShiftUp(ifac: array<int>, nf: nat)
    requires 1 <= nf && nf + 2 <= ifac.Length
    modifies ifac
    ensures ifac[3..nf + 2] == old(ifac[2..nf + 1])
    ensures ifac[..3] == old(ifac[..3]) && ifac[nf + 2..] == old(ifac[nf + 2..])
  {
    var i := 1;
    while i < nf
      invariant 1 <= i <= nf
      invariant forall k :: 0 <= k <= nf - i + 2 && k < ifac.Length ==> ifac[k] == old(ifac[k])
      invariant forall k :: nf - i + 2 < k < nf + 2 ==> ifac[k] == old(ifac[k - 1])
      invariant forall k :: nf + 2 <= k < ifac.Length ==> ifac[k] == old(ifac[k])
    {
      var ib := nf - i + 1;
      ifac[ib + 1] := ifac[ib];
      i := i + 1;
    }
  }

  ghost predicate AtLeastTwo(f: seq<int>) {
    forall i :: 0 <= i < |f| ==> f[i] >= 2
  }

  ghost predicate Factors(f: seq<int>, n: int) {
    Product(f) == n && AtLeastTwo(f)
  }

  /** The order in which factors are tried, from 4 on; a 2 stands at the front. */
  function Rank(x: int): int {
    if x == 2 then 0 else if x == 4 then 1 else x
  }

  ghost predicate Prime(p: int) {
    p >= 2 && forall a, b :: 2 <= a && 2 <= b ==> a * b != p
  }

  /** At most one 2, in front, then the 4s, then odd primes in ascending order. */
  ghost predicate Canonical(f: seq<int>) {
    && (forall i :: 0 <= i < |f| ==> f[i] == 2 || f[i] == 4 || (f[i] % 2 == 1 && Prime(f[i])))
    && (forall i, j :: 0 <= i < j < |f| ==> Rank(f[i]) <= Rank(f[j]))
    && (forall i :: 0 < i < |f| ==> f[i] != 2)
  }

  function TopRank(j: nat): int {
    if j <= 1 then 1 else Trial(j)
  }

  /** Nothing found ranks above the trial, and after a 2 the cofactor is odd. */
  ghost predicate InOrder(f: seq<int>, nl: int, j: nat) {
    && Canonical(f)
    && (forall i :: 0 <= i < |f| ==> Rank(f[i]) <= TopRank(j))
    && (j == 0 ==> forall i :: 0 <= i < |f| ==> f[i] == 4)
    && (f != [] && f[0] == 2 ==> nl % 2 == 1)
  }

  /** A trial divisor above 4 is prime, since all smaller ones have been ruled out. */
  lemma TrialIsPrime(nl: nat, j: nat, nq: nat)
    requires j >= 2 && RuledOut(nl, j) && nl == nq * Trial(j)
    ensures Prime(Trial(j)) && Trial(j) % 2 == 1
  {
    NotDivided(nl, j);
    forall a, b | 2 <= a && 2 <= b ensures a * b != Trial(j) {
      NoFactors(nl, Trial(j), nq, a, b);
    }
  }

  /** No odd number from 3 up to the limit divides. */
  ghost predicate OddFree(nl: nat, limit: nat) {
    forall x: nat :: 3 <= x < limit && x % 2 == 1 ==> nl % x != 0
  }

  lemma NotDivided(nl: nat, j: nat)
    requires RuledOut(nl, j) && j >= 2
    ensures OddFree(nl, Trial(j)) && Trial(j) % 2 == 1
  {
    forall x: nat | 3 <= x < Trial(j) && x % 2 == 1 ensures nl % x != 0 {
      var i := (x + 1) / 2;
      assert Trial(i) == x && 2 <= i < j;
    }
  }

  lemma NoFactors(nl: nat, t: nat, nq: nat, a: nat, b: nat)
    requires OddFree(nl, t) && t % 2 == 1 && nl == nq * t && 2 <= a && 2 <= b
    ensures a * b != t
  {
    if a * b == t {
      SmallerFactor(a, b, t);
      DividesThrough(a, t, nq);
      assert false;
    }
  }

  lemma SmallerFactor(a: nat, b: nat, t: nat)
    requires 2 <= a && 2 <= b && a * b == t && t % 2 == 1
    ensures a % 2 == 1 && a < t && t % a == 0
  {
    EvenTimes(a, b);
    AtLeast(a, b);
    assert a * b >= a * 2;
    MultipleModZero(a, b);
  }

  lemma EvenTimes(a: nat, b: nat)
    ensures a % 2 == 0 ==> (a * b) % 2 == 0
  {
    if a % 2 == 0 {
      var h := a / 2;
      assert a * b == 2 * (h * b);
    }
  }

  /** A factor found goes last, or in front if it is the 2. */
  lemma FoundInOrder(f: seq<int>, nl: nat, j: nat, nq: nat)
    requires InOrder(f, nl, j) && RuledOut(nl, j) && nl == Trial(j) * nq && nq >= 1
    ensures InOrder(if Trial(j) == 2 then [2] + f else f + [Trial(j)], nq, j)
  {
    hide Prime;
    if j == 1 {
      assert nl % 2 == 0;
      TwoInFront(f, nl, nq);
    } else {
      if j >= 2 {
        TrialIsPrime(nl, j, nq);
        DivisionKeepsRuledOut(nl, j, nq);
      }
      var more := f + [Trial(j)];
      assert forall i :: 0 <= i < |f| ==> more[i] == f[i];
      assert more[|f|] == Trial(j);
      if f != [] && more[0] == 2 {
        assert j >= 2;
      }
    }
  }

  lemma LowRank(x: int)
    requires x == 2 || x == 4 || (x % 2 == 1 && Prime(x))
    ensures Rank(x) <= 1 <==> x in {2, 4}
  {
  }

  lemma TwoInFront(f: seq<int>, nl: nat, nq: nat)
    requires InOrder(f, nl, 1) && RuledOut(nl, 1) && nl == 2 * nq
    ensures InOrder([2] + f, nq, 1)
  {
    forall i | 0 <= i < |f| ensures f[i] == 4 {
      LowRank(f[i]);
    }
    hide Prime;
    var more := [2] + f;
    assert forall i :: 0 < i < |more| ==> more[i] == f[i - 1];
    assert f != [] ==> f[0] != 2;
  }

  lemma MissedInOrder(f: seq<int>, nl: nat, j: nat)
    requires InOrder(f, nl, j)
    ensures InOrder(f, nl, j + 1)
  {
    hide Prime;
  }

  /** The search so far: factors f found, cofactor nl left, trial j next. */
  ghost predicate Searching(n: int, f: seq<int>, nl: int, j: nat) {
    && 1 <= nl <= n
    && |f| <= 30 && (nl == 1 ==> f != [])
    && Product(f) * nl == n && AtLeastTwo(f)
    && Pow2(|f|) * nl <= n
    && RuledOut(nl, j)
  }

  lemma Found(n: int, f: seq<int>, nl: int, j: nat, nq: int)
    requires 2 <= n < INT_LIMIT && Searching(n, f, nl, j) && nl > 1 && nl == Trial(j) * nq
    ensures |f| < 30 && 1 <= nq < nl
    ensures Searching(n, f + [Trial(j)], nq, j)
    ensures Searching(n, [Trial(j)] + f, nq, j)
  {
    var ntry := Trial(j);
    assert 1 <= nq < nl by {
      if nq <= 0 { NonPositive(ntry, nq); }
      assert ntry * nq >= 2 * nq;
    }
    BoundKept(|f|, nl, ntry, nq, n);
    OneMore(f, ntry, nl, nq, n);
    DivisionKeepsRuledOut(nl, j, nq);
    TableSuffices(|f| + 1, nq, n);
  }

  lemma Missed(n: int, f: seq<int>, nl: int, j: nat)
    requires Searching(n, f, nl, j) && nl > 1 && nl - Trial(j) * (nl / Trial(j)) != 0
    ensures Searching(n, f, nl, j + 1)
    ensures 2 * j <= nl + 3
  {
    assert nl % Trial(j) != 0;
    if j >= 2 {
      TrialInRange(nl, j);
    }
  }

  lemma NonPositive(x: nat, y: int)
    requires y <= 0
    ensures x * y <= 0
  {}

  /** The table as the passes read it: n, the factor count, then the factors. */
  ghost predicate Table(t: seq<int>, n: int) {
    && |t| == TABLE && t[0] == n
    && 1 <= t[1] <= 30
    && Factors(t[2..2 + t[1]], n) && Canonical(t[2..2 + t[1]])
  }

  lemma OneMore(f: seq<int>, ntry: int, nl: int, nq: int, n: int)
    requires Product(f) * nl == n && nl == ntry * nq
    ensures Product(f + [ntry]) * nq == n
    ensures Product([ntry] + f) * nq == n
  {
    ProductMore(f, ntry);
    ProductFirst(ntry, f);
    assert Product(f) * (ntry * nq) == Product(f) * ntry * nq;
    assert ntry * Product(f) == Product(f) * ntry;
  }

  lemma BoundKept(nf: nat, nl: nat, ntry: nat, nq: nat, n: nat)
    requires Pow2(nf) * nl <= n && nl == ntry * nq && ntry >= 2
    ensures Pow2(nf + 1) * nq <= n
  {
    assert ntry * nq >= 2 * nq;
    assert Pow2(nf) * (2 * nq) <= Pow2(nf) * nl;
    assert Pow2(nf) * (2 * nq) == 2 * Pow2(nf) * nq;
  }

  /** Records one factor; a lone 2 found after 4s goes to the front. */
  method Record(ifac: array<int>, nf: nat, ntry: int, ghost f: seq<int>) returns (ghost f': seq<int>)
    requires 1 <= nf <= 30 && ifac.Length == TABLE && ifac[2..nf + 1] == f
    modifies ifac
    ensures f' == (if ntry == 2 then [ntry] + f else f + [ntry])
    ensures ifac[2..nf + 2] == f'
  {
    f' := if ntry == 2 then [ntry] + f else f + [ntry];
    ifac[nf + 1] := ntry;
    if ntry == 2 && nf != 1 {
      ShiftUp(ifac, nf);
      ifac[2] := 2;
      assert ifac[2..nf + 2] == [2] + ifac[3..nf + 2];
    }
  }

  /** drfti1, L101 to L107: the search ends for every size; its factors multiply to it and stand
      in the canonical order. */
  method Factorize(n: int, ifac: array<int>)
    requires 2 <= n < INT_LIMIT && ifac.Length == TABLE
    modifies ifac
    ensures Table(ifac[..], n)
  {
    var nl, nf := n, 0;
    var j, ntry := 0, 4;
    ghost var f: seq<int> := [];
    while nl != 1
      invariant 0 <= j && 0 <= nf <= 30 && ntry == Trial(j)
      invariant f == ifac[2..nf + 2] && Searching(n, f, nl, j) && InOrder(f, nl, j)
      decreases nl, nl + 10 - 2 * j
    {
      var nq := nl / ntry;
      var nr := nl - ntry * nq;
      if nr != 0 {
        Missed(n, f, nl, j);
        MissedInOrder(f, nl, j);
        j := j + 1;
        ntry := if j < 4 then [4, 2, 3, 5][j] else ntry + 2;
      } else {
        Found(n, f, nl, j, nq);
        FoundInOrder(f, nl, j, nq);
        nf := nf + 1;
        f := Record(ifac, nf, ntry, f);
        nl := nq;
      }
    }
    assert Product(f) * nl == n;
    ifac[0] := n;
    ifac[1] := nf;
    assert ifac[..][2..2 + nf] == f;
  }
}
