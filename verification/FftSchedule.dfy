/** The integer schedule of native/speexdsp/smallft.c: the initialiser that fills the
    twiddle table and the two passes that read it compute their offsets separately, in
    opposite orders, and must agree for every size. */
module FftSchedule {
  import opened Arithmetic
  import opened FftFactors

  /** One butterfly stage: radix, span before it, inner length, start of its twiddles. */
  datatype Stage = Stage(ip: int, l1: int, ido: int, start: int)

  /** The closed form all three computations are measured against. */
  ghost function Planned(n: int, f: seq<int>, k: nat): Stage
    requires Factors(f, n) && k < |f|
  {
    Positive(f[..k]);
    Positive(f[..k + 1]);
    Stage(f[k], Product(f[..k]), n / Product(f[..k + 1]), n - n / Product(f[..k]))
  }

  lemma {:induction false} Positive(f: seq<int>)
    requires AtLeastTwo(f)
    ensures Product(f) >= 1
  {
    if f != [] {
      Positive(f[..|f| - 1]);
      AtLeast(Product(f[..|f| - 1]), f[|f| - 1]);
    }
  }

  lemma {:induction false} ProductSplit(f: seq<int>, k: nat)
    requires k <= |f|
    ensures Product(f) == Product(f[..k]) * Product(f[k..])
    decreases |f|
  {
    if k == |f| {
      assert f[..k] == f && f[k..] == [];
    } else {
      var n := |f| - 1;
      ProductSplit(f[..n], k);
      assert f[..n][..k] == f[..k] && f[..n][k..] == f[k..][..n - k];
      assert f[k..][n - k] == f[n];
      assert Product(f[..k]) * Product(f[k..][..n - k]) * f[n]
          == Product(f[..k]) * (Product(f[k..][..n - k]) * f[n]);
    }
  }

  /** Exact division: the span before a point times what is left after it is n. */
  lemma Exact(n: int, f: seq<int>, k: nat)
    requires Factors(f, n) && k <= |f|
    ensures Product(f[..k]) >= 1 && Product(f[k..]) >= 1
    ensures n / Product(f[..k]) == Product(f[k..])
    ensures k < |f| ==> Product(f[..k + 1]) == Product(f[..k]) * f[k]
    ensures k < |f| ==> Product(f[k..]) == f[k] * Product(f[k + 1..])
  {
    Positive(f[..k]);
    Positive(f[k..]);
    ProductSplit(f, k);
    DivModUnique(n, Product(f[..k]), Product(f[k..]), 0);
    if k < |f| {
      assert f[..k + 1] == f[..k] + [f[k]];
      ProductMore(f[..k], f[k]);
      assert f[k..] == [f[k]] + f[k + 1..];
      ProductFirst(f[k], f[k + 1..]);
    }
  }

  lemma SpanTimesRest(n: int, f: seq<int>, k: nat)
    requires Factors(f, n) && k < |f|
    ensures Product(f[..k]) * f[k] * Product(f[k + 1..]) == n
  {
    Exact(n, f, k);
    ProductSplit(f, k + 1);
  }

  /** Stage k's span, radix and inner length multiply to n, and its twiddle vectors end exactly
      where stage k + 1's begin. */
  lemma StartsChain(n: int, f: seq<int>, k: nat)
    requires Factors(f, n) && k < |f|
    ensures var s := Planned(n, f, k);
      && s.ido == Product(f[k + 1..]) >= 1
      && s.start == n - Product(f[k..])
      && s.start + (s.ip - 1) * s.ido == n - Product(f[k + 1..])
      && s.start >= 0
      && s.ip == f[k] && s.l1 * s.ip * s.ido == n
  {
    SpanTimesRest(n, f, k);
    Exact(n, f, k);
    Exact(n, f, k + 1);
    ProductSplit(f, k);
    AtLeast(Product(f[k..]), Product(f[..k]));
    assert (f[k] - 1) * Product(f[k + 1..]) == f[k] * Product(f[k + 1..]) - Product(f[k + 1..]);
  }

  lemma ForwardStep(n: int, f: seq<int>, kh: nat, l2: int, iw: int)
    requires Factors(f, n) && 1 <= kh <= |f|
    requires l2 == Product(f[..kh]) && iw - 1 == n - Product(f[kh..])
    ensures var ip := f[kh - 1];
      && l2 >= 1 && ip >= 2
      && Stage(ip, l2 / ip, n / l2, iw - (ip - 1) * (n / l2) - 1) == Planned(n, f, kh - 1)
      && l2 / ip == Product(f[..kh - 1])
      && iw - (ip - 1) * (n / l2) - 1 == n - Product(f[kh - 1..])
  {
    var ip := f[kh - 1];
    Exact(n, f, kh - 1);
    Exact(n, f, kh);
    StartsChain(n, f, kh - 1);
    DivModUnique(l2, ip, Product(f[..kh - 1]), 0);
  }

  lemma BackwardStep(n: int, f: seq<int>, k: nat, l1: int, iw: int)
    requires Factors(f, n) && k < |f|
    requires l1 == Product(f[..k]) && iw - 1 == n - Product(f[k..])
    ensures var ip := f[k];
      && ip * l1 >= 1
      && Stage(ip, l1, n / (ip * l1), iw - 1) == Planned(n, f, k)
      && ip * l1 == Product(f[..k + 1])
      && iw + (ip - 1) * (n / (ip * l1)) - 1 == n - Product(f[k + 1..])
  {
    var s := Planned(n, f, k);
    SpanGrows(n, f, k, l1);
    StartsChain(n, f, k);
    assert s.l1 == l1 && s.ido == n / (f[k] * l1) && s.start == iw - 1;
  }

  lemma SpanGrows(n: int, f: seq<int>, k: nat, l1: int)
    requires Factors(f, n) && k < |f| && l1 == Product(f[..k])
    ensures f[k] * l1 == Product(f[..k + 1]) >= 1
  {
    Exact(n, f, k);
    Positive(f[..k + 1]);
    assert f[k] * l1 == l1 * f[k];
  }

  /** One round of drftb1's loop, without the butterflies. */
  method BackwardStage(n: int, ip: int, l1: int, iw: int, ghost f: seq<int>, ghost k: nat)
    returns (s: Stage, l2: int, iw': int)
    requires Factors(f, n) && k < |f| && ip == f[k]
    requires l1 == Product(f[..k]) && iw - 1 == n - Product(f[k..])
    ensures s == Planned(n, f, k)
    ensures l2 == Product(f[..k + 1]) && iw' - 1 == n - Product(f[k + 1..])
  {
    BackwardStep(n, f, k, l1, iw);
    l2 := ip * l1;
    var ido := n / l2;
    s := Stage(ip, l1, ido, iw - 1);
    iw' := iw + (ip - 1) * ido;
  }

  /** One round of drftf1's loop, without the butterflies. */
  method ForwardStage(n: int, ip: int, l2: int, iw: int, ghost f: seq<int>, ghost kh: nat)
    returns (s: Stage, l1: int, iw': int)
    requires Factors(f, n) && 1 <= kh && Standing(n, f, kh, l2, iw) && ip == f[kh - 1]
    ensures s == Planned(n, f, kh - 1)
    ensures Standing(n, f, kh - 1, l1, iw')
  {
    ForwardStep(n, f, kh, l2, iw);
    l1 := l2 / ip;
    var ido := n / l2;
    iw' := iw - (ip - 1) * ido;
    s := Stage(ip, l1, ido, iw' - 1);
  }

  /** drftb1: first factor to last, the offset counted up from 1. */
  method BackwardPlan(n: int, ifac: array<int>) returns (plan: seq<Stage>)
    requires ifac.Length == TABLE && Table(ifac[..], n)
    ensures |plan| == ifac[1]
    ensures forall k :: 0 <= k < |plan| ==> plan[k] == Planned(n, ifac[2..2 + ifac[1]], k)
  {
    var nf := ifac[1];
    ghost var f := ifac[2..2 + nf];
    var l1, iw, k1 := 1, 1, 0;
    plan := [];
    assert ifac[..][2..2 + nf] == f;
    Exact(n, f, 0);
    assert f[..0] == [] && f[0..] == f;
    while k1 < nf
      invariant 0 <= k1 <= nf && |plan| == k1
      invariant l1 == Product(f[..k1]) && iw - 1 == n - Product(f[k1..])
      invariant forall k :: 0 <= k < k1 ==> plan[k] == Planned(n, f, k)
    {
      assert ifac[k1 + 2] == f[k1];
      var s, l2, next := BackwardStage(n, ifac[k1 + 2], l1, iw, f, k1);
      plan := plan + [s];
      l1, iw := l2, next;
      k1 := k1 + 1;
    }
  }

  /** drftf1: last factor to first, the offset counted down from n. */
  method ForwardPlan(n: int, ifac: array<int>) returns (plan: seq<Stage>)
    requires ifac.Length == TABLE && Table(ifac[..], n)
    ensures |plan| == ifac[1]
    ensures forall k :: 0 <= k < |plan| ==> plan[k] == Planned(n, ifac[2..2 + ifac[1]], |plan| - 1 - k)
  {
    var nf := ifac[1];
    ghost var f := ifac[2..2 + nf];
    var l2, iw, k1 := n, n, 0;
    plan := [];
    assert ifac[..][2..2 + nf] == f;
    StandingAtEnd(n, f);
    while k1 < nf
      invariant 0 <= k1 <= nf && |plan| == k1
      invariant Standing(n, f, nf - k1, l2, iw)
      invariant PlannedDown(n, f, plan)
    {
      var kh := nf - k1;
      assert ifac[kh + 1] == f[kh - 1];
      var s, l1, next := ForwardStage(n, ifac[kh + 1], l2, iw, f, kh);
      PlannedDownMore(n, f, plan, s);
      plan := plan + [s];
      l2, iw := l1, next;
      k1 := k1 + 1;
    }
  }

  /** Between stages kh - 1 and kh, both running values are what the factors say. */
  ghost predicate Standing(n: int, f: seq<int>, kh: nat, l2: int, iw: int) {
    kh <= |f| && l2 == Product(f[..kh]) && iw - 1 == n - Product(f[kh..])
  }

  lemma StandingAtEnd(n: int, f: seq<int>)
    requires Factors(f, n)
    ensures Standing(n, f, |f|, n, n)
  {
    assert f[..|f|] == f && f[|f|..] == [];
  }

  ghost predicate PlannedDown(n: int, f: seq<int>, plan: seq<Stage>)
    requires Factors(f, n)
  {
    |plan| <= |f| && forall k :: 0 <= k < |plan| ==> plan[k] == Planned(n, f, |f| - 1 - k)
  }

  lemma PlannedDownMore(n: int, f: seq<int>, plan: seq<Stage>, s: Stage)
    requires Factors(f, n) && PlannedDown(n, f, plan) && |plan| < |f|
    requires s == Planned(n, f, |f| - 1 - |plan|)
    ensures PlannedDown(n, f, plan + [s])
  {
  }

  // ---- The twiddle table --------------------------------------------------

  /** A table entry, by the multiple of 2 pi / n whose cosine or sine it holds. */
  datatype Twiddle = Unset | Cos(angle: int) | Sin(angle: int)

  /** Vector j of a stage is written: pair m holds the angle (m + 1)(j + 1) l1. */
  ghost predicate VectorFilled(wa: seq<Twiddle>, s: Stage, j: int, upTo: int) {
    forall m :: 0 <= m && 2 * m + 2 < upTo ==> PairFilled(wa, s, j, m)
  }

  ghost predicate PairFilled(wa: seq<Twiddle>, s: Stage, j: int, m: int) {
    PairAt(wa, s.start + j * s.ido + 2 * m, (m + 1) * ((j + 1) * s.l1))
  }

  ghost predicate PairAt(wa: seq<Twiddle>, i: int, angle: int) {
    0 <= i && i + 1 < |wa| && wa[i] == Cos(angle) && wa[i + 1] == Sin(angle)
  }

  ghost predicate StageFilled(wa: seq<Twiddle>, s: Stage, vectors: int) {
    forall j :: 0 <= j < vectors ==> VectorFilled(wa, s, j, s.ido)
  }

  /** Everything below the limit is as it was. */
  ghost predicate SameBelow(wa: seq<Twiddle>, wa': seq<Twiddle>, limit: int) {
    |wa| == |wa'| && forall i :: 0 <= i < limit && i < |wa| ==> wa[i] == wa'[i]
  }

  lemma VectorFrame(wa: seq<Twiddle>, wa': seq<Twiddle>, s: Stage, j: int, limit: int)
    requires VectorFilled(wa, s, j, s.ido) && SameBelow(wa, wa', limit)
    requires s.start + j * s.ido + s.ido <= limit
    ensures VectorFilled(wa', s, j, s.ido)
  {
    forall m | 0 <= m && 2 * m + 2 < s.ido
      ensures PairFilled(wa', s, j, m)
    {
      assert PairFilled(wa, s, j, m);
    }
  }

  lemma RowFits(j: int, vectors: int, ido: int)
    requires 0 <= j < vectors && ido >= 1
    ensures j * ido + ido <= vectors * ido
  {
    assert (j + 1) * ido == j * ido + ido;
    assert (vectors - (j + 1)) * ido >= 0;
    assert (vectors - (j + 1)) * ido == vectors * ido - (j + 1) * ido;
  }

  lemma StageFrame(wa: seq<Twiddle>, wa': seq<Twiddle>, s: Stage, vectors: int, limit: int)
    requires StageFilled(wa, s, vectors) && SameBelow(wa, wa', limit) && s.ido >= 1
    requires s.start + vectors * s.ido <= limit
    ensures StageFilled(wa', s, vectors)
  {
    forall j | 0 <= j < vectors ensures VectorFilled(wa', s, j, s.ido) {
      RowFits(j, vectors, s.ido);
      VectorFrame(wa, wa', s, j, limit);
    }
  }

  /** One inner loop of the initialiser: vector j, pairs 2, 4, ... below ido. */
  method FillVector(wa: array<Twiddle>, s: Stage, ghost j: int, ld: int, base: int)
    requires s.ido >= 1 && 0 <= base && base + s.ido <= wa.Length
    requires base == s.start + j * s.ido && ld == (j + 1) * s.l1
    modifies wa
    ensures VectorFilled(wa[..], s, j, s.ido)
    ensures SameBelow(old(wa[..]), wa[..], base)
  {
    var i, fi, ii := base, 0, 2;
    while ii < s.ido
      invariant 2 <= ii && ii == 2 * fi + 2 && i == base + 2 * fi && (ii < s.ido ==> i + 1 < wa.Length)
      invariant VectorFilled(wa[..], s, j, ii)
      invariant SameBelow(old(wa[..]), wa[..], base)
    {
      ghost var before := wa[..];
      fi := fi + 1;
      wa[i] := Cos(fi * ld);
      wa[i + 1] := Sin(fi * ld);
      ghost var after := wa[..];
      assert PairAt(after, base + 2 * (fi - 1), fi * ld);
      forall m | 0 <= m && 2 * m + 2 < ii + 2
        ensures PairFilled(after, s, j, m)
      {
        if m < fi - 1 {
          assert PairFilled(before, s, j, m);
        }
      }
      i := i + 2;
      ii := ii + 2;
    }
    assert VectorFilled(wa[..], s, j, s.ido);
  }

  /** Every vector of every stage before the last holds its own angles. */
  ghost predicate TableFilled(wa: seq<Twiddle>, n: int, f: seq<int>, stages: nat)
    requires Factors(f, n) && stages <= |f|
  {
    forall k :: 0 <= k < stages ==> StageFilled(wa, Planned(n, f, k), f[k] - 1)
  }

  lemma StartsOrdered(n: int, f: seq<int>, k: nat, k': nat)
    requires Factors(f, n) && k < k' <= |f|
    ensures Planned(n, f, k).start + (f[k] - 1) * Planned(n, f, k).ido <= n - Product(f[k'..])
    decreases k' - k
  {
    StartsChain(n, f, k);
    if k + 1 < k' {
      StartsOrdered(n, f, k + 1, k');
      StartsChain(n, f, k + 1);
      assert f[k + 1] >= 2;
      Exact(n, f, k + 1);
      assert Product(f[k + 2..]) <= Product(f[k + 1..]) by {
        Exact(n, f, k + 2);
        AtLeast(Product(f[k + 2..]), f[k + 1]);
      }
    }
  }

  lemma TableFrame(wa: seq<Twiddle>, wa': seq<Twiddle>, n: int, f: seq<int>, stages: nat)
    requires Factors(f, n) && stages <= |f| && TableFilled(wa, n, f, stages)
    requires SameBelow(wa, wa', n - Product(f[stages..]))
    ensures TableFilled(wa', n, f, stages)
  {
    forall k | 0 <= k < stages ensures StageFilled(wa', Planned(n, f, k), f[k] - 1) {
      StartsOrdered(n, f, k, stages);
      StartsChain(n, f, k);
      StageFrame(wa, wa', Planned(n, f, k), f[k] - 1, n - Product(f[stages..]));
    }
  }

  /** One round of drfti1's outer loop: all vectors of stage k, from `base` on. */
  method FillStage(wa: array<Twiddle>, n: int, ip: int, l1: int, base: int, ghost f: seq<int>, ghost k: nat)
    returns (l2: int, next: int)
    requires Factors(f, n) && k < |f| && ip == f[k] && wa.Length >= n
    requires l1 == Product(f[..k]) && base == n - Product(f[k..])
    modifies wa
    ensures StageFilled(wa[..], Planned(n, f, k), ip - 1)
    ensures SameBelow(old(wa[..]), wa[..], base)
    ensures l2 == Product(f[..k + 1]) && next == n - Product(f[k + 1..])
  {
    BackwardStep(n, f, k, l1, base + 1);
    StartsChain(n, f, k);
    assert l1 * ip == ip * l1;
    l2 := l1 * ip;
    var s := Stage(ip, l1, n / l2, base);
    var ld, j := 0, 0;
    next := base;
    while j < ip - 1
      invariant 0 <= j <= ip - 1 && ld == j * l1 && next == base + j * s.ido
      invariant StageFilled(wa[..], s, j)
      invariant SameBelow(old(wa[..]), wa[..], base)
    {
      ld := ld + l1;
      WithinStage(s, j, n);
      ghost var before := wa[..];
      FillVector(wa, s, j, ld, next);
      StageFrame(before, wa[..], s, j, next);
      next := next + s.ido;
      j := j + 1;
    }
  }

  lemma WithinStage(s: Stage, j: int, n: int)
    requires 0 <= j < s.ip - 1 && s.ido >= 1 && s.start + (s.ip - 1) * s.ido <= n
    ensures (j + 1) * s.ido == j * s.ido + s.ido && (j + 1) * s.l1 == j * s.l1 + s.l1
    ensures 0 <= j * s.ido && s.start + j * s.ido + s.ido <= n
  {
    assert (j + 1) * s.ido <= (s.ip - 1) * s.ido;
  }

  /** The rest of drfti1: every write is in bounds and no two vectors overlap, so each
      one keeps its own angles to the end. */
  method FillTwiddles(n: int, wa: array<Twiddle>, ifac: array<int>)
    requires ifac.Length == TABLE && Table(ifac[..], n) && wa.Length >= n
    modifies wa
    ensures TableFilled(wa[..], n, ifac[2..2 + ifac[1]], ifac[1] - 1)
  {
    var nf := ifac[1];
    ghost var f := ifac[2..2 + nf];
    assert ifac[..][2..2 + nf] == f;
    var base, l1, k1 := 0, 1, 0;
    Exact(n, f, 0);
    assert f[..0] == [] && f[0..] == f;
    while k1 < nf - 1
      invariant 0 <= k1 <= nf - 1
      invariant l1 == Product(f[..k1]) && base == n - Product(f[k1..])
      invariant TableFilled(wa[..], n, f, k1)
      invariant ifac[2..2 + nf] == f
    {
      assert ifac[k1 + 2] == f[k1];
      ghost var before := wa[..];
      var l2, next := FillStage(wa, n, ifac[k1 + 2], l1, base, f, k1);
      TableFrame(before, wa[..], n, f, k1);
      l1, base := l2, next;
      k1 := k1 + 1;
    }
  }

  /** Whatever pair a pass reads, in any stage of any size, is the one the initialiser
      wrote for that stage, vector and position; the unfilled last stage reads none. */
  lemma ReadsAreFilled(wa: seq<Twiddle>, n: int, f: seq<int>, k: nat, j: int, m: int)
    requires Factors(f, n) && k < |f| && TableFilled(wa, n, f, |f| - 1)
    requires 0 <= j < f[k] - 1 && 0 <= m && 2 * m + 2 < Planned(n, f, k).ido
    ensures k < |f| - 1
    ensures PairFilled(wa, Planned(n, f, k), j, m)
  {
    StartsChain(n, f, k);
    assert f[|f|..] == [];
    assert StageFilled(wa, Planned(n, f, k), f[k] - 1);
    assert VectorFilled(wa, Planned(n, f, k), j, Planned(n, f, k).ido);
  }
}
