/** Which twiddle pairs a stage's butterflies read, from their own index computations in
    native/speexdsp/smallft.c: pointers stepped by the inner length for radix 2, 3 and 4, and
    a running index for every other radix. */
module FftReads {
  import opened FftFactors
  import opened FftSchedule

  /** Pair m of vector j. */
  function PairIndex(s: Stage, j: int, m: int): int {
    s.start + j * s.ido + 2 * m
  }

  /** Exactly the pairs of the first `vectors` vectors. */
  ghost predicate ReadsVectors(s: Stage, vectors: int, pairs: seq<(int, int, int)>) {
    && (forall i :: 0 <= i < |pairs| ==> ReadOf(s, vectors, pairs[i]))
    && forall j, m :: 0 <= j < vectors && 0 <= m && 2 * m + 2 < s.ido ==> (PairIndex(s, j, m), j, m) in pairs
  }

  /** One read: the index into the table, and the vector and pair it stands for. */
  ghost predicate ReadOf(s: Stage, vectors: int, r: (int, int, int)) {
    0 <= r.1 < vectors && 0 <= r.2 && 2 * r.2 + 2 < s.ido && r.0 == PairIndex(s, r.1, r.2)
  }

  /** The inner loop over one vector: i = 2, 4, ... below ido reads base + i - 2 and the next. */
  method VectorReads(s: Stage, base: int, j: int, before: seq<(int, int, int)>) returns (pairs: seq<(int, int, int)>)
    requires 0 <= j && base == s.start + j * s.ido && ReadsVectors(s, j, before)
    ensures ReadsVectors(s, j + 1, pairs)
  {
    pairs := before;
    var i, m := 2, 0;
    while i < s.ido
      invariant i == 2 * m + 2 && 0 <= m
      invariant forall k :: 0 <= k < |pairs| ==> ReadOf(s, j + 1, pairs[k])
      invariant forall r :: r in before ==> r in pairs
      invariant forall k :: 0 <= k < m && 2 * k + 2 < s.ido ==> (PairIndex(s, j, k), j, k) in pairs
      decreases s.ido - i
    {
      pairs := pairs + [(base + i - 2, j, m)];
      i := i + 2;
      m := m + 1;
    }
  }

  /** Radix 2, 3 and 4: one pointer per vector, each one inner length after the last. */
  method FixedReads(s: Stage, iw: int) returns (pairs: seq<(int, int, int)>)
    requires 2 <= s.ip <= 4 && iw - 1 == s.start
    ensures ReadsVectors(s, s.ip - 1, pairs)
  {
    pairs := VectorReads(s, iw - 1, 0, []);
    if s.ip >= 3 {
      var ix2 := iw + s.ido;
      pairs := VectorReads(s, ix2 - 1, 1, pairs);
      if s.ip >= 4 {
        var ix3 := ix2 + s.ido;
        pairs := VectorReads(s, ix3 - 1, 2, pairs);
      }
    }
  }

  /** Every other radix: the index starts one inner length before the vectors. The two
      passes keep it at different offsets and add 2 before and after. */
  method GeneralReads(s: Stage, iw: int, forward: bool) returns (pairs: seq<(int, int, int)>)
    requires 2 <= s.ip && iw - 1 == s.start
    ensures ReadsVectors(s, s.ip - 1, pairs)
  {
    pairs := [];
    var at := if forward then -s.ido else -s.ido - 1;
    var j := 1;
    while j < s.ip
      invariant 1 <= j <= s.ip
      invariant at == (j - 2) * s.ido - (if forward then 0 else 1)
      invariant ReadsVectors(s, j - 1, pairs)
    {
      at := at + s.ido;
      assert (j - 1) * s.ido == (j - 2) * s.ido + s.ido;
      var idij := if forward then at - 1 else at;
      pairs := IndexedReads(s, iw - 1, idij, j - 1, pairs);
      j := j + 1;
    }
  }

  /** The running index: add 2, then read one below it and at it. */
  method IndexedReads(s: Stage, wa: int, first: int, j: int, before: seq<(int, int, int)>)
    returns (pairs: seq<(int, int, int)>)
    requires 0 <= j && wa == s.start && first == j * s.ido - 1 && ReadsVectors(s, j, before)
    ensures ReadsVectors(s, j + 1, pairs)
  {
    pairs := before;
    var idij, i, m := first, 2, 0;
    while i < s.ido
      invariant i == 2 * m + 2 && 0 <= m && idij == first + 2 * m
      invariant forall k :: 0 <= k < |pairs| ==> ReadOf(s, j + 1, pairs[k])
      invariant forall r :: r in before ==> r in pairs
      invariant forall k :: 0 <= k < m && 2 * k + 2 < s.ido ==> (PairIndex(s, j, k), j, k) in pairs
      decreases s.ido - i
    {
      idij := idij + 2;
      pairs := pairs + [(wa + idij - 1, j, m)];
      i := i + 2;
      m := m + 1;
    }
  }

  /** What one stage of a pass reads, by its radix: exactly the pairs of its ip - 1 vectors.
      When the initialiser has filled the table, each of them is the pair it wrote for that
      stage, vector and position. */
  method StageReads(n: int, f: seq<int>, k: nat, forward: bool, ghost wa: seq<Twiddle>)
    returns (pairs: seq<(int, int, int)>)
    requires Factors(f, n) && k < |f|
    ensures ReadsVectors(Planned(n, f, k), f[k] - 1, pairs)
    ensures TableFilled(wa, n, f, |f| - 1) ==>
      forall i :: 0 <= i < |pairs| ==> PairFilled(wa, Planned(n, f, k), pairs[i].1, pairs[i].2)
  {
    var s := StageOf(n, f, k);
    StartsChain(n, f, k);
    if s.ip == 4 || s.ip == 2 || (s.ip == 3 && !forward) {
      pairs := FixedReads(s, s.start + 1);
    } else {
      pairs := GeneralReads(s, s.start + 1, forward);
    }
    if TableFilled(wa, n, f, |f| - 1) {
      forall i | 0 <= i < |pairs| ensures PairFilled(wa, s, pairs[i].1, pairs[i].2) {
        assert ReadOf(s, s.ip - 1, pairs[i]);
        ReadsAreFilled(wa, n, f, k, pairs[i].1, pairs[i].2);
      }
    }
  }

  /** The stage, computed. */
  method StageOf(n: int, f: seq<int>, k: nat) returns (s: Stage)
    requires Factors(f, n) && k < |f|
    ensures s == Planned(n, f, k)
  {
    Positive(f[..k]);
    Positive(f[..k + 1]);
    s := Stage(f[k], Product(f[..k]), n / Product(f[..k + 1]), n - n / Product(f[..k]));
  }
}
