/** The bounded voice queue of internal/nativewire/voice_ring.go: many producers, one
    consumer, the oldest packet dropped when full. */
module VoiceRing {
  import opened Arithmetic

  /** The newest `capacity` elements, in order. */
  function Newest<T>(s: seq<T>, capacity: nat): seq<T> {
    if |s| <= capacity then s else s[|s| - capacity..]
  }

  /** How a round of pop ends. */
  datatype Round<T> = Stop | Packet(packet: T) | Wait

  class Ring<T(0)> {
    const items: array<T>
    var head: nat
    var size: nat
    var closed: bool
    var wake: bool

    ghost predicate Valid()
      reads this, items
    {
      0 < items.Length && head < items.Length && size <= items.Length
    }

    /** The queued packets, oldest first. */
    ghost function Contents(): (s: seq<T>)
      requires Valid()
      reads this, items
      ensures |s| == size
    {
      if head + size <= items.Length then items[head..head + size]
      else items[head..] + items[..head + size - items.Length]
    }

    constructor (capacity: nat)
      requires capacity > 0
      ensures Valid() && fresh(items) && items.Length == capacity
      ensures Contents() == [] && !closed && !wake
    {
      items := new T[capacity];
      head, size, closed, wake := 0, 0, false, false;
    }

    method Notify()
      modifies this`wake
      ensures wake
    {
      wake := true;
    }

    /** Forgets the oldest packet. */
    method DropOldest()
      requires Valid() && size > 0
      modifies this`head, this`size
      ensures Valid() && Contents() == old(Contents())[1..]
    {
      Lap(head + 1, items.Length);
      head := (head + 1) % items.Length;
      size := size - 1;
    }

    /** Never waits: a full ring forgets its oldest packet, never the newest. */
    method Push(packet: T) returns (accepted: bool)
      requires Valid()
      modifies this`head, this`size, this`wake, items
      ensures Valid() && accepted == !old(closed)
      ensures Contents() == if accepted then Newest(old(Contents()) + [packet], items.Length) else old(Contents())
      ensures wake <==> old(wake) || (accepted && (old(size) == 0 || items.Length == 1))
    {
      if closed {
        return false;
      }
      if size == items.Length {
        DropOldest();
      }
      var empty := size == 0;
      Append(packet);
      if empty {
        Notify();
      }
      return true;
    }

    method Append(packet: T)
      requires Valid() && size < items.Length
      modifies this`size, items
      ensures Valid() && Contents() == old(Contents()) + [packet]
    {
      Lap(head + size, items.Length);
      items[(head + size) % items.Length] := packet;
      size := size + 1;
    }

    /** One locked round of pop: stop for good, take the oldest packet, or go on to wait. */
    method TryPop(cancelled: bool) returns (round: Round<T>)
      requires Valid()
      modifies this`head, this`size
      ensures Valid()
      ensures round == Stop <==> old(closed) || cancelled
      ensures round == Wait <==> !old(closed) && !cancelled && old(size) == 0
      ensures round.Packet? ==> old(size) > 0
      ensures round.Packet? ==> round.packet == old(Contents())[0] && Contents() == old(Contents())[1..]
      ensures !round.Packet? ==> Contents() == old(Contents())
    {
      if closed || cancelled {
        return Stop;
      }
      if size != 0 {
        round := Packet(items[head]);
        DropOldest();
        return;
      }
      return Wait;
    }

    method Close()
      requires Valid()
      modifies this`closed, this`size, this`wake
      ensures Valid() && closed && wake && Contents() == []
    {
      closed := true;
      size := 0;
      Notify();
    }
  }
}
