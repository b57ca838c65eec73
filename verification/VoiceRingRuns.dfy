/** Producers, one consumer and the one-slot wake token of internal/nativewire/voice_ring.go,
    interleaved at every unlock. */
module VoiceRingRuns {
  import opened VoiceRing

  /** The consumer is about to lock, is waiting for a token, or has returned for good. */
  datatype Consumer = Checking | Waiting | Stopped

  /** `pushed` records every accepted packet and `taken` the positions delivered. */
  datatype System<T> = System(
    capacity: nat, contents: seq<T>, closed: bool, wake: bool, consumer: Consumer,
    pushed: seq<T>, taken: seq<nat>)

  datatype Action<T> = Push(packet: T) | Check | TakeToken | Close

  function Start<T>(capacity: nat): System<T> {
    System(capacity, [], false, false, Checking, [], [])
  }

  function Apply<T>(s: System<T>, a: Action<T>): System<T> {
    match a
    case Push(packet) =>
      if s.closed then s else
      s.(contents := Newest(s.contents + [packet], s.capacity),
         pushed := s.pushed + [packet],
         wake := s.wake || s.contents == [] || s.capacity == 1)
    case Check =>
      if s.consumer != Checking then s
      else if s.closed then s.(consumer := Stopped)
      else if s.contents == [] then s.(consumer := Waiting)
      else if |s.contents| > |s.pushed| then s
      else s.(contents := s.contents[1..], taken := s.taken + [|s.pushed| - |s.contents|])
    case TakeToken =>
      if s.consumer == Waiting && s.wake then s.(consumer := Checking, wake := false) else s
    case Close => s.(closed := true, contents := [], wake := true)
  }

  function RunFrom<T>(s: System<T>, actions: seq<Action<T>>): System<T> {
    if actions == [] then s else Apply(RunFrom(s, actions[..|actions| - 1]), actions[|actions| - 1])
  }

  /** The position after the last delivered packet. */
  function Delivered(taken: seq<nat>): nat {
    if taken == [] then 0 else taken[|taken| - 1] + 1
  }

  ghost predicate Inv<T>(s: System<T>) {
    && s.capacity > 0
    && Delivered(s.taken) <= |s.pushed|
    && (!s.closed ==> s.contents == Newest(s.pushed[Delivered(s.taken)..], s.capacity))
    && (s.closed ==> s.contents == [])
    && (forall i, j :: 0 <= i < j < |s.taken| ==> s.taken[i] < s.taken[j])
    && (forall i :: 0 <= i < |s.taken| ==> s.taken[i] < |s.pushed|)
    && (s.consumer == Waiting && (s.contents != [] || s.closed) ==> s.wake)
  }

  lemma NewestAppend<T>(s: seq<T>, x: T, capacity: nat)
    requires capacity > 0
    ensures Newest(Newest(s, capacity) + [x], capacity) == Newest(s + [x], capacity)
  {
    if |s| > capacity {
      assert Newest(s, capacity) + [x] == (s + [x])[|s| - capacity..];
    }
  }

  lemma PushKeeps<T>(s: System<T>, x: T)
    requires Inv(s) && !s.closed
    ensures Inv(Apply(s, Push(x)))
  {
    var n := Delivered(s.taken);
    NewestAppend(s.pushed[n..], x, s.capacity);
    assert (s.pushed + [x])[n..] == s.pushed[n..] + [x];
  }

  lemma NewestIsTail<T>(s: seq<T>, capacity: nat)
    requires capacity > 0
    ensures |Newest(s, capacity)| <= |s| && Newest(s, capacity) == s[|s| - |Newest(s, capacity)|..]
    ensures |Newest(s, capacity)| <= capacity && (|Newest(s, capacity)| < |s| ==> |Newest(s, capacity)| == capacity)
  {
  }

  /** What is queued is a tail of what was pushed, after what was delivered. */
  lemma QueueIsTail<T>(s: System<T>)
    requires Inv(s) && !s.closed
    ensures |s.contents| <= |s.pushed| - Delivered(s.taken)
    ensures s.contents == s.pushed[|s.pushed| - |s.contents|..]
  {
    var rest := s.pushed[Delivered(s.taken)..];
    NewestIsTail(rest, s.capacity);
    assert rest[|rest| - |s.contents|..] == s.pushed[|s.pushed| - |s.contents|..];
  }

  lemma CheckKeeps<T>(s: System<T>)
    requires Inv(s) && s.consumer == Checking && !s.closed && s.contents != []
    ensures Inv(Apply(s, Check)) && |s.contents| <= |s.pushed|
  {
    QueueIsTail(s);
    TailAfter(s.pushed, s.contents, s.capacity, Delivered(s.taken));
    var k := |s.pushed| - |s.contents|;
    var s' := Apply(s, Check);
    assert Delivered(s'.taken) == k + 1;
    hide Newest;
    assert s'.contents == Newest(s'.pushed[k + 1..], s'.capacity);
  }

  lemma TailAfter<T>(pushed: seq<T>, contents: seq<T>, capacity: nat, from: nat)
    requires capacity > 0 && from <= |pushed| && contents == Newest(pushed[from..], capacity) && contents != []
    requires |contents| <= |pushed| && contents == pushed[|pushed| - |contents|..]
    ensures contents[1..] == Newest(pushed[|pushed| - |contents| + 1..], capacity)
  {
    NewestIsTail(pushed[from..], capacity);
    assert contents[1..] == pushed[|pushed| - |contents| + 1..];
  }

  lemma ApplyKeeps<T>(s: System<T>, a: Action<T>)
    requires Inv(s)
    ensures Inv(Apply(s, a))
  {
    if a.Push? && !s.closed {
      PushKeeps(s, a.packet);
    } else if a.Check? && s.consumer == Checking && !s.closed && s.contents != [] {
      CheckKeeps(s);
    }
  }

  lemma {:induction false} RunKeeps<T>(capacity: nat, actions: seq<Action<T>>)
    requires capacity > 0
    ensures Inv(RunFrom(Start(capacity), actions))
  {
    if actions != [] {
      RunKeeps<T>(capacity, actions[..|actions| - 1]);
      ApplyKeeps(RunFrom(Start(capacity), actions[..|actions| - 1]), actions[|actions| - 1]);
    }
  }

  /** For every interleaving, a waiting consumer with something to do has a token. */
  lemma {:induction false} NoLostWakeup<T>(capacity: nat, actions: seq<Action<T>>)
    requires capacity > 0
    ensures var s := RunFrom(Start(capacity), actions);
      s.consumer == Waiting && (s.contents != [] || s.closed) ==> s.wake
  {
    RunKeeps<T>(capacity, actions);
  }

  /** For every interleaving, the open ring holds exactly the newest packets pushed after
      the last one delivered, and deliveries keep push order without repetition. */
  lemma KeepsNewest<T>(capacity: nat, actions: seq<Action<T>>)
    requires capacity > 0
    ensures var s := RunFrom(Start(capacity), actions);
      && Delivered(s.taken) <= |s.pushed|
      && (!s.closed ==> s.contents == Newest(s.pushed[Delivered(s.taken)..], capacity))
      && (forall i, j :: 0 <= i < j < |s.taken| ==> s.taken[i] < s.taken[j] < |s.pushed|)
  {
    RunKeeps<T>(capacity, actions);
    CapacityFixed<T>(capacity, actions);
  }

  lemma {:induction false} CapacityFixed<T>(capacity: nat, actions: seq<Action<T>>)
    ensures RunFrom(Start(capacity), actions).capacity == capacity
  {
    if actions != [] {
      CapacityFixed<T>(capacity, actions[..|actions| - 1]);
    }
  }

  /** In every interleaving an accepted packet is pushed, a check of an open ring takes the
      oldest packet queued, which is the one pushed at the position it records, and a wait ends
      exactly when a token is there. */
  lemma StepsExactly<T>(capacity: nat, actions: seq<Action<T>>, packet: T)
    requires capacity > 0
    ensures var s := RunFrom(Start(capacity), actions);
      && Apply(s, Push(packet)).pushed == (if s.closed then s.pushed else s.pushed + [packet])
      && (s.consumer == Checking ==>
            var t := Apply(s, Check);
            if s.closed then t.consumer == Stopped
            else if s.contents == [] then t.consumer == Waiting && t.taken == s.taken
            else
              && |s.contents| <= |s.pushed| && s.pushed[|s.pushed| - |s.contents|] == s.contents[0]
              && t.consumer == Checking && t.taken == s.taken + [|s.pushed| - |s.contents|])
      && (s.consumer == Waiting ==> (Apply(s, TakeToken).consumer == Checking <==> s.wake))
      && Apply(s, Close).closed
  {
    hide Newest;
    RunKeeps<T>(capacity, actions);
    var s := RunFrom(Start(capacity), actions);
    hide RunFrom;
    if !s.closed {
      QueueIsTail(s);
    }
  }
}
