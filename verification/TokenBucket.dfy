/** The rate limiter of internal/server/server.go over exact time and tokens, with the
    handshake limiter of internal/noiseudp/handshake.go as one instance. */
module TokenBucket {
  datatype Stamp = Never | At(time: real)

  datatype State = State(at: Stamp, tokens: real)

  /** One call: when, and with which rate and burst. */
  datatype Call = Call(now: real, rate: real, burst: real)

  function Min(a: real, b: real): real {
    if a < b then a else b
  }

  /** What waiting from one call to the next earns. */
  function Earned(before: real, now: real, rate: real): real {
    (now - before) * rate
  }

  /** The tokens in the bucket after refilling and before the grant. */
  function Refill(s: State, c: Call): real {
    if s.at.Never? then c.burst else Min(c.burst, s.tokens + Earned(s.at.time, c.now, c.rate))
  }

  predicate Granted(s: State, c: Call) {
    !(Refill(s, c) < 1.0)
  }

  function After(s: State, c: Call): State {
    State(At(c.now), if Granted(s, c) then Refill(s, c) - 1.0 else Refill(s, c))
  }

  class Bucket {
    var at: Stamp
    var tokens: real

    ghost function Now(): State
      reads this
    {
      State(at, tokens)
    }

    constructor ()
      ensures Now() == State(Never, 0.0)
    {
      at, tokens := Never, 0.0;
    }

    method Take(now: real, rate: real, burst: real) returns (granted: bool)
      modifies this
      ensures Now() == After(old(Now()), Call(now, rate, burst))
      ensures granted == Granted(old(Now()), Call(now, rate, burst))
    {
      if at == Never {
        tokens := burst;
      } else {
        tokens := Min(burst, tokens + Earned(at.time, now, rate));
      }
      at := At(now);
      if tokens < 1.0 {
        return false;
      }
      tokens := tokens - 1.0;
      return true;
    }
  }

  function StateAfter(s: State, calls: seq<Call>): State {
    if calls == [] then s else After(StateAfter(s, calls[..|calls| - 1]), calls[|calls| - 1])
  }

  /** How many of the calls were granted. */
  function Grants(s: State, calls: seq<Call>): nat {
    if calls == [] then 0 else
    var before := StateAfter(s, calls[..|calls| - 1]);
    Grants(s, calls[..|calls| - 1]) + (if Granted(before, calls[|calls| - 1]) then 1 else 0)
  }

  ghost predicate Ordered(calls: seq<Call>) {
    forall i, j :: 0 <= i < j < |calls| ==> calls[i].now <= calls[j].now
  }

  /** Every call stays within these two limits. */
  ghost predicate Within(calls: seq<Call>, rate: real, burst: real) {
    forall i :: 0 <= i < |calls| ==> 0.0 <= calls[i].rate <= rate && 0.0 <= calls[i].burst <= burst
  }

  /** Tokens are never owed, and a bucket was last used before the next call. */
  ghost predicate Sound(s: State, calls: seq<Call>) {
    && (s.at.At? ==> s.tokens >= 0.0)
    && (s.at.At? && calls != [] ==> s.at.time <= calls[0].now)
  }

  lemma RateTimesWait(wait: real, rate: real, limit: real)
    requires 0.0 <= wait && 0.0 <= rate <= limit
    ensures 0.0 <= wait * rate <= wait * limit
  {}

  lemma RateSplits(a: real, b: real, rate: real)
    ensures (a + b) * rate == a * rate + b * rate
  {}

  lemma EarnedBounds(before: real, now: real, rate: real, limit: real)
    requires before <= now && 0.0 <= rate <= limit
    ensures 0.0 <= Earned(before, now, rate) <= Earned(before, now, limit)
  {
    RateTimesWait(now - before, rate, limit);
  }

  lemma MinBounds(burst: real, tokens: real, earned: real, most: real)
    requires 0.0 <= burst && 0.0 <= tokens && 0.0 <= earned <= most
    ensures 0.0 <= Min(burst, tokens + earned) <= burst && Min(burst, tokens + earned) <= tokens + most
  {}

  /** One call: it leaves no debt, and grant plus tokens left stay within the refill. */
  lemma OneCall(s: State, c: Call, rate: real)
    requires 0.0 <= c.rate <= rate && 0.0 <= c.burst
    requires s.at.At? ==> s.tokens >= 0.0 && s.at.time <= c.now
    ensures After(s, c).at == At(c.now) && After(s, c).tokens >= 0.0
    ensures var grant := if Granted(s, c) then 1.0 else 0.0;
      && grant + After(s, c).tokens <= c.burst
      && (s.at.At? ==> grant + After(s, c).tokens <= s.tokens + Earned(s.at.time, c.now, rate))
  {
    if s.at.At? {
      EarnedBounds(s.at.time, c.now, c.rate, rate);
      MinBounds(c.burst, s.tokens, Earned(s.at.time, c.now, c.rate), Earned(s.at.time, c.now, rate));
    }
  }

  /** What the waits between the calls add up to at the given rate. */
  ghost function Gain(calls: seq<Call>, rate: real): real {
    if |calls| <= 1 then 0.0 else
    Gain(calls[..|calls| - 1], rate) + Earned(calls[|calls| - 2].now, calls[|calls| - 1].now, rate)
  }

  lemma {:induction false} GainIsElapsed(calls: seq<Call>, rate: real)
    requires calls != []
    ensures Gain(calls, rate) == Earned(calls[0].now, calls[|calls| - 1].now, rate)
  {
    var n := |calls| - 1;
    if n > 0 {
      GainIsElapsed(calls[..n], rate);
      RateSplits(calls[n - 1].now - calls[0].now, calls[n].now - calls[n - 1].now, rate);
    }
  }

  lemma GrantsLast(s: State, calls: seq<Call>)
    requires calls != []
    ensures var n := |calls| - 1; var before := StateAfter(s, calls[..n]);
      && StateAfter(s, calls) == After(before, calls[n])
      && Grants(s, calls) as real
           == Grants(s, calls[..n]) as real + (if Granted(before, calls[n]) then 1.0 else 0.0)
  {}

  /** The potential argument: grants plus tokens left never exceed one full burst plus
      the refill of the window. */
  lemma {:induction false} Potential(s: State, calls: seq<Call>, rate: real, burst: real)
    requires calls != [] && Ordered(calls) && Within(calls, rate, burst) && Sound(s, calls)
    ensures var after := StateAfter(s, calls);
      && after.at == At(calls[|calls| - 1].now) && after.tokens >= 0.0
      && Grants(s, calls) as real + after.tokens <= burst + Gain(calls, rate)
    decreases |calls|
  {
    var n := |calls| - 1;
    var before := calls[..n];
    GrantsLast(s, calls);
    if n == 0 {
      assert before == [];
      OneCall(s, calls[0], rate);
    } else {
      assert Within(before, rate, burst);
      Potential(s, before, rate, burst);
      assert before[n - 1] == calls[n - 1];
      OneCall(StateAfter(s, before), calls[n], rate);
    }
  }

  lemma {:induction false} GrantsSplit(s: State, first: seq<Call>, rest: seq<Call>)
    ensures StateAfter(s, first + rest) == StateAfter(StateAfter(s, first), rest)
    ensures Grants(s, first + rest) == Grants(s, first) + Grants(StateAfter(s, first), rest)
    decreases |rest|
  {
    if rest == [] {
      assert first + rest == first;
    } else {
      var n := |rest| - 1;
      GrantsSplit(s, first, rest[..n]);
      assert (first + rest)[..|first| + n] == first + rest[..n];
      assert (first + rest)[|first| + n] == rest[n];
    }
  }

  /** Calls i to j - 1 of a run that were granted. */
  function WindowGrants(start: State, calls: seq<Call>, i: nat, j: nat): nat
    requires i <= j <= |calls|
  {
    Grants(StateAfter(start, calls[..i]), calls[i..j])
  }

  lemma {:induction false} WindowIsDifference(start: State, calls: seq<Call>, i: nat, j: nat)
    requires i <= j <= |calls|
    ensures Grants(start, calls[..j]) == Grants(start, calls[..i]) + WindowGrants(start, calls, i, j)
  {
    assert calls[..j] == calls[..i] + calls[i..j];
    GrantsSplit(start, calls[..i], calls[i..j]);
  }

  /** Over any window of any run, from an unused bucket or one that owes nothing, and however
      rates and bursts vary from call to call, no more than the largest burst plus the largest
      rate times the window is granted. */
  lemma {:induction false} WindowBound(start: State, calls: seq<Call>, i: nat, j: nat, rate: real, burst: real)
    requires i < j <= |calls| && Ordered(calls) && Within(calls, rate, burst) && Sound(start, calls)
    ensures WindowGrants(start, calls, i, j) as real <= burst + Earned(calls[i].now, calls[j - 1].now, rate)
  {
    var window := calls[i..j];
    SoundAfter(start, calls, i, rate, burst);
    assert window[0] == calls[i] && window[|window| - 1] == calls[j - 1];
    assert Within(window, rate, burst);
    Potential(StateAfter(start, calls[..i]), window, rate, burst);
    GainIsElapsed(window, rate);
  }

  lemma {:induction false} SoundAfter(start: State, calls: seq<Call>, i: nat, rate: real, burst: real)
    requires i < |calls| && Ordered(calls) && Within(calls, rate, burst) && Sound(start, calls)
    ensures Sound(StateAfter(start, calls[..i]), calls[i..])
  {
    if i > 0 {
      var first := calls[..i];
      assert Within(first, rate, burst);
      Potential(start, first, rate, burst);
      assert first[i - 1] == calls[i - 1];
    }
  }

  /** Every call asks for the same rate and burst. */
  ghost predicate Uniform(calls: seq<Call>, rate: real, burst: real) {
    forall i :: 0 <= i < |calls| ==> calls[i].rate == rate && calls[i].burst == burst
  }

  /** The handshake limiter starts full, refills 10 tokens a second up to 20, and admits at
      most 20 + 10 t in any window of t seconds. */
  lemma {:induction false} HandshakeBound(started: real, calls: seq<Call>, i: nat, j: nat)
    requires i < j <= |calls| && Ordered(calls) && started <= calls[0].now && Uniform(calls, 10.0, 20.0)
    ensures WindowGrants(State(At(started), 20.0), calls, i, j) as real
      <= 20.0 + 10.0 * (calls[j - 1].now - calls[i].now)
  {
    hide WindowGrants, Uniform;
    HandshakeWithin(calls);
    WindowBound(State(At(started), 20.0), calls, i, j, 10.0, 20.0);
  }

  lemma HandshakeWithin(calls: seq<Call>)
    requires Uniform(calls, 10.0, 20.0)
    ensures Within(calls, 10.0, 20.0)
  {
  }

  // ---- Exactly which calls are granted ------------------------------------

  /** An unused bucket, or one that starts full, as the handshake limiter's does. */
  predicate Full(s: State, calls: seq<Call>, burst: real) {
    s.at.At? ==> s.tokens == burst && calls != [] && s.at.time <= calls[0].now
  }

  /** What a limit of `burst` plus `rate` leaves call j, counting from call i on. */
  ghost function Left(start: State, calls: seq<Call>, i: nat, j: nat, rate: real, burst: real): real
    requires i <= j < |calls|
  {
    burst + Earned(calls[i].now, calls[j].now, rate) - WindowGrants(start, calls, i, j) as real
  }

  lemma WindowMore(start: State, calls: seq<Call>, i: nat, j: nat)
    requires i <= j < |calls|
    ensures WindowGrants(start, calls, i, j + 1)
      == WindowGrants(start, calls, i, j) + if Granted(StateAfter(start, calls[..j]), calls[j]) then 1 else 0
  {
    WindowIsDifference(start, calls, i, j);
    WindowIsDifference(start, calls, i, j + 1);
    assert calls[..j + 1][..j] == calls[..j];
  }

  lemma LeftMore(start: State, calls: seq<Call>, i: nat, j: nat, rate: real, burst: real)
    requires i <= j && j + 1 < |calls|
    ensures Left(start, calls, i, j + 1, rate, burst)
      == Left(start, calls, i, j, rate, burst) + Earned(calls[j].now, calls[j + 1].now, rate)
         - if Granted(StateAfter(start, calls[..j]), calls[j]) then 1.0 else 0.0
  {
    WindowMore(start, calls, i, j);
    RateSplits(calls[j].now - calls[i].now, calls[j + 1].now - calls[j].now, rate);
  }

  lemma LeftNow(start: State, calls: seq<Call>, j: nat, rate: real, burst: real)
    requires j < |calls|
    ensures Left(start, calls, j, j, rate, burst) == burst
  {
    assert calls[j..j] == [];
  }

  /** The refilled bucket holds the least of what any starting point leaves. */
  lemma {:induction false} RefillIsLeast(start: State, calls: seq<Call>, j: nat, rate: real, burst: real)
    returns (at: nat)
    requires j < |calls| && Ordered(calls) && Uniform(calls, rate, burst) && rate >= 0.0 && Full(start, calls, burst)
    ensures forall i :: 0 <= i <= j ==>
      Refill(StateAfter(start, calls[..j]), calls[j]) <= Left(start, calls, i, j, rate, burst)
    ensures at <= j && Refill(StateAfter(start, calls[..j]), calls[j]) == Left(start, calls, at, j, rate, burst)
  {
    LeftNow(start, calls, j, rate, burst);
    if j == 0 {
      at := 0;
      assert calls[..0] == [];
      FullRefill(start, calls[0], rate);
    } else {
      at := RefillIsLeast(start, calls, j - 1, rate, burst);
      var before := StateAfter(start, calls[..j - 1]);
      assert calls[..j][..j - 1] == calls[..j - 1] && calls[..j][j - 1] == calls[j - 1];
      assert StateAfter(start, calls[..j]) == After(before, calls[j - 1]);
      hide StateAfter, Left;
      forall i | 0 <= i < j
        ensures Left(start, calls, i, j, rate, burst)
          == Left(start, calls, i, j - 1, rate, burst) + Earned(calls[j - 1].now, calls[j].now, rate)
             - if Granted(before, calls[j - 1]) then 1.0 else 0.0
      {
        LeftMore(start, calls, i, j - 1, rate, burst);
      }
      if Refill(After(before, calls[j - 1]), calls[j]) == burst {
        at := j;
      }
    }
  }

  lemma FullRefill(s: State, c: Call, rate: real)
    requires s.at.At? ==> s.tokens == c.burst && s.at.time <= c.now
    requires c.rate == rate >= 0.0
    ensures Refill(s, c) == c.burst
  {
    if s.at.At? {
      RateTimesWait(c.now - s.at.time, rate, rate);
    }
  }

  /** A call is granted if and only if, counting from any call up to it, the grants so far and
      this one stay within the burst plus the rate times the time since: nothing is refused
      that the limit allows. */
  lemma GrantedExactly(start: State, calls: seq<Call>, j: nat, rate: real, burst: real)
    requires j < |calls| && Ordered(calls) && Uniform(calls, rate, burst) && rate >= 0.0 && Full(start, calls, burst)
    ensures Granted(StateAfter(start, calls[..j]), calls[j]) <==>
      forall i :: 0 <= i <= j ==>
        WindowGrants(start, calls, i, j) as real + 1.0 <= burst + Earned(calls[i].now, calls[j].now, rate)
  {
    var at := RefillIsLeast(start, calls, j, rate, burst);
    hide StateAfter, WindowGrants, Earned, Refill;
    if forall i :: 0 <= i <= j ==>
      WindowGrants(start, calls, i, j) as real + 1.0 <= burst + Earned(calls[i].now, calls[j].now, rate)
    {
      assert WindowGrants(start, calls, at, j) as real + 1.0 <= burst + Earned(calls[at].now, calls[j].now, rate);
    } else {
      var i: nat :| i <= j
        && WindowGrants(start, calls, i, j) as real + 1.0 > burst + Earned(calls[i].now, calls[j].now, rate);
      assert Left(start, calls, i, j, rate, burst) < 1.0;
    }
  }

  /** So the handshake limiter refuses a call only if some window that ends with it would
      otherwise hold more than 20 + 10 t. */
  lemma HandshakeExactly(started: real, calls: seq<Call>, j: nat)
    requires j < |calls| && Ordered(calls) && started <= calls[0].now && Uniform(calls, 10.0, 20.0)
    ensures Granted(StateAfter(State(At(started), 20.0), calls[..j]), calls[j]) <==>
      forall i :: 0 <= i <= j ==>
        WindowGrants(State(At(started), 20.0), calls, i, j) as real + 1.0
          <= 20.0 + 10.0 * (calls[j].now - calls[i].now)
  {
    hide WindowGrants, StateAfter, Granted, Uniform, Ordered;
    GrantedExactly(State(At(started), 20.0), calls, j, 10.0, 20.0);
  }
}
