/** When keys change and key updates are sent, told by the clock and by what was sent and
    confirmed so far (internal/noiseudp/rekey.go and the send path of conn.go). */
module NoiseTiming {
  import opened Common
  import opened BigEndian
  import opened ReplayWindow
  import opened NoiseKeys

  const HOUR: int := 3600 * SECOND

  /** A packet and when it was sent. */
  datatype Timed = Timed(at: int, packet: Packet)

  datatype Use =
    | Sends(now: int, kind: Kind, body: seq<Byte>)
    | Refreshes(now: int)
    | Confirms(epoch: nat)

  /** The sending half, what it sent, the epochs confirmed while they were current, and
      whether the connection has failed. */
  datatype Trace = Trace(s: Sender, sent: seq<Timed>, confirmed: set<nat>, failed: bool)

  function Stamped(now: int, packets: seq<Packet>): (sent: seq<Timed>)
    ensures |sent| == |packets|
    ensures forall i :: 0 <= i < |packets| ==> sent[i] == Timed(now, packets[i])
  {
    seq(|packets|, i requires 0 <= i < |packets| => Timed(now, packets[i]))
  }

  function Emitted(t: Trace, now: int, r: Sending): Trace {
    Trace(r.sender, t.sent + Stamped(now, r.packets), t.confirmed, r.fault.Some?)
  }

  function Used(t: Trace, use: Use): Trace {
    if t.failed then t else
    match use
    case Sends(now, kind, body) => if kind == KeyUpdate then t else Emitted(t, now, Send(t.s, now, kind, body))
    case Refreshes(now) => Emitted(t, now, Prepare(t.s, now))
    case Confirms(epoch) =>
      t.(s := Confirm(t.s, epoch), confirmed := t.confirmed + if epoch == t.s.epoch then {epoch} else {})
  }

  function Traced(side: bool, start: int, uses: seq<Use>): Trace {
    if uses == [] then Trace(NewSender(side, start), [], {}, false)
    else Used(Traced(side, start, uses[..|uses| - 1]), uses[|uses| - 1])
  }

  // ---- What the history says ----------------------------------------------

  predicate In(t: Timed, epoch: nat) {
    t.packet.key.generation == epoch
  }

  predicate UpdateIn(t: Timed, epoch: nat) {
    In(t, epoch) && t.packet.header.kind == KeyUpdate
  }

  ghost predicate FirstAt(sent: seq<Timed>, epoch: nat, i: nat, at: int) {
    i < |sent| && In(sent[i], epoch) && sent[i].at == at && forall j :: 0 <= j < i ==> !In(sent[j], epoch)
  }

  /** Since when the epoch has been in use: its first packet, or the handshake. */
  ghost predicate Since(sent: seq<Timed>, epoch: nat, start: int, at: int) {
    if epoch == 0 then at == start else exists i :: FirstAt(sent, epoch, i, at)
  }

  ghost predicate LastAt(sent: seq<Timed>, epoch: nat, i: nat, at: int) {
    i < |sent| && UpdateIn(sent[i], epoch) && sent[i].at == at
    && forall j :: i < j < |sent| ==> !UpdateIn(sent[j], epoch)
  }

  /** When the last key update of the epoch was sent. */
  ghost predicate LastUpdate(sent: seq<Timed>, epoch: nat, at: int) {
    exists i :: LastAt(sent, epoch, i, at)
  }

  /** How many packets were sent in the epoch. */
  function Count(sent: seq<Timed>, epoch: nat): nat {
    if sent == [] then 0 else
    Count(sent[..|sent| - 1], epoch) + if In(sent[|sent| - 1], epoch) then 1 else 0
  }

  /** The epoch needs no confirmation or has had it. */
  predicate Settled(t: Trace) {
    t.s.epoch == 0 || t.s.epoch in t.confirmed
  }

  // ---- The invariant ------------------------------------------------------

  ghost predicate Inv(side: bool, start: int, t: Trace) {
    var s := t.s;
    && s.key == Key(side, s.epoch) && s.chain == s.key && s.counter < MAX_COUNTER
    && (forall i :: 0 <= i < |t.sent| ==> t.sent[i].packet.key.generation <= s.epoch)
    && (forall e :: e in t.confirmed ==> e <= s.epoch)
    && (s.confirmed <==> Settled(t))
    && s.counter == Count(t.sent, s.epoch)
    && Since(t.sent, s.epoch, start, s.keySince)
    && (s.epoch > 0 ==> s.updateSent.Some? && LastUpdate(t.sent, s.epoch, s.updateSent.value))
  }

  lemma CountMore(sent: seq<Timed>, m: Timed, epoch: nat)
    ensures Count(sent + [m], epoch) == Count(sent, epoch) + if In(m, epoch) then 1 else 0
  {
    assert (sent + [m])[..|sent|] == sent;
  }

  lemma {:induction false} NoneIn(sent: seq<Timed>, epoch: nat)
    requires forall i :: 0 <= i < |sent| ==> !In(sent[i], epoch)
    ensures Count(sent, epoch) == 0
  {
    if sent != [] {
      NoneIn(sent[..|sent| - 1], epoch);
    }
  }

  /** One packet of the current epoch that is no update. */
  lemma OneMore(side: bool, start: int, t: Trace, m: Timed, t': Trace)
    requires Inv(side, start, t) && In(m, t.s.epoch) && !UpdateIn(m, t.s.epoch) && t.s.counter + 1 < MAX_COUNTER
    requires t' == t.(s := t.s.(counter := t.s.counter + 1), sent := t.sent + [m], failed := t'.failed)
    ensures Inv(side, start, t')
  {
    var e := t.s.epoch;
    CountMore(t.sent, m, e);
    if e > 0 {
      SinceMore(t.sent, m, e, start, t.s.keySince);
      var i: nat :| LastAt(t.sent, e, i, t.s.updateSent.value);
      assert LastAt(t'.sent, e, i, t.s.updateSent.value);
    }
  }

  lemma SinceMore(sent: seq<Timed>, m: Timed, epoch: nat, start: int, at: int)
    requires Since(sent, epoch, start, at)
    ensures Since(sent + [m], epoch, start, at)
  {
    if epoch > 0 {
      var i: nat :| FirstAt(sent, epoch, i, at);
      assert FirstAt(sent + [m], epoch, i, at);
    }
  }

  /** A repeated update. */
  lemma OneUpdate(side: bool, start: int, t: Trace, m: Timed, t': Trace)
    requires Inv(side, start, t) && UpdateIn(m, t.s.epoch) && t.s.epoch > 0 && t.s.counter + 1 < MAX_COUNTER
    requires t' == t.(s := t.s.(counter := t.s.counter + 1, updateSent := Some(m.at)), sent := t.sent + [m],
                      failed := t'.failed)
    ensures Inv(side, start, t')
  {
    var e := t.s.epoch;
    CountMore(t.sent, m, e);
    SinceMore(t.sent, m, e, start, t.s.keySince);
    assert LastAt(t'.sent, e, |t.sent|, m.at);
  }

  /** The update that opens an epoch. */
  lemma OneEpoch(side: bool, start: int, t: Trace, m: Timed, t': Trace)
    requires Inv(side, start, t) && UpdateIn(m, t.s.epoch + 1)
    requires t' == t.(s := Advance(t.s, m.at).(counter := 1, updateSent := Some(m.at)), sent := t.sent + [m],
                      failed := t'.failed)
    ensures Inv(side, start, t')
  {
    var e := t.s.epoch + 1;
    NoneIn(t.sent, e);
    CountMore(t.sent, m, e);
    assert FirstAt(t'.sent, e, |t.sent|, m.at);
    assert LastAt(t'.sent, e, |t.sent|, m.at);
  }

  // ---- What preparing and sending do --------------------------------------

  /** Half the numbers of a key, or twelve hours. */
  predicate Worn(t: Trace, since: int, now: int) {
    Count(t.sent, t.s.epoch) >= 0x80_0000 || now >= since + 12 * HOUR
  }

  predicate Late(t: Trace, since: int, now: int) {
    !Settled(t) && now >= since + 30 * SECOND
  }

  predicate Turns(t: Trace, since: int, now: int) {
    Settled(t) && Worn(t, since, now)
  }

  /** An update of the current epoch is repeated after five seconds. */
  predicate Repeats(t: Trace, since: int, update: int, now: int) {
    !Settled(t) && !Late(t, since, now) && now >= update + 5 * SECOND
  }

  function PacketOf(side: bool, epoch: nat, n: nat, kind: Kind, body: seq<Byte>): Packet {
    Packet(Key(side, epoch), epoch * MAX_COUNTER + n, Header(kind, epoch % 2, n), body)
  }

  function UpdateOf(side: bool, epoch: nat, n: nat): Packet {
    PacketOf(side, epoch, n, KeyUpdate, Put(epoch, 8))
  }

  /** The times are the only ones. */
  lemma OneSince(sent: seq<Timed>, epoch: nat, start: int, a: int, b: int)
    requires Since(sent, epoch, start, a) && Since(sent, epoch, start, b)
    ensures a == b
  {
    if epoch > 0 {
      var i: nat :| FirstAt(sent, epoch, i, a);
      var j: nat :| FirstAt(sent, epoch, j, b);
    }
  }

  lemma OneLast(sent: seq<Timed>, epoch: nat, a: int, b: int)
    requires LastUpdate(sent, epoch, a) && LastUpdate(sent, epoch, b)
    ensures a == b
  {
    var i: nat :| LastAt(sent, epoch, i, a);
    var j: nat :| LastAt(sent, epoch, j, b);
  }

  /** Everything a key preparation does. */
  ghost predicate Prepares(side: bool, t: Trace, since: int, update: int, now: int, r: Sending) {
    var e, n := t.s.epoch, Count(t.sent, t.s.epoch);
    if Late(t, since, now) then
      r.packets == [] && r.sender == t.s && r.fault == Some(KeyConfirmationTimeout)
    else if Turns(t, since, now) && e >= 0x100_0000_0000 - 2 then
      r.packets == [] && r.sender == t.s && r.fault == Some(KeyGenerationExhausted)
    else if Turns(t, since, now) then
      && r.packets == [UpdateOf(side, e + 1, 1)] && r.fault.None?
      && r.sender == Advance(t.s, now).(counter := 1, updateSent := Some(now))
    else if Repeats(t, since, update, now) && n + 1 >= MAX_COUNTER then
      r.packets == [] && r.sender == t.s && r.fault == Some(PacketBudgetExhausted)
    else if Repeats(t, since, update, now) then
      && r.packets == [UpdateOf(side, e, n + 1)] && r.fault.None?
      && r.sender == t.s.(counter := n + 1, updateSent := Some(now))
    else
      r.packets == [] && r.sender == t.s && r.fault.None?
  }

  lemma PrepareExactly(side: bool, start: int, t: Trace, since: int, update: int, now: int)
    requires Inv(side, start, t) && Since(t.sent, t.s.epoch, start, since)
    requires t.s.epoch > 0 ==> LastUpdate(t.sent, t.s.epoch, update)
    ensures Prepares(side, t, since, update, now, Prepare(t.s, now))
  {
    hide Count, Since, LastUpdate, Put;
    OneSince(t.sent, t.s.epoch, start, since, t.s.keySince);
    if t.s.epoch > 0 {
      OneLast(t.sent, t.s.epoch, update, t.s.updateSent.value);
    }
  }

  /** A send prepares the keys and then seals exactly the packet asked for under the current
      one, or fails because the key's numbers are used up. */
  ghost predicate SendsAll(side: bool, p: Sending, kind: Kind, body: seq<Byte>, r: Sending) {
    if |body| > 1179 then r.packets == [] && r.fault.None?
    else if p.fault.Some? then r == p
    else if p.sender.counter + 1 >= MAX_COUNTER then
      r.packets == p.packets && r.fault == Some(PacketBudgetExhausted) && r.sender == p.sender
    else
      && r.packets == p.packets + [PacketOf(side, p.sender.epoch, p.sender.counter + 1, kind, body)]
      && r.fault.None? && r.sender == p.sender.(counter := p.sender.counter + 1)
  }

  lemma SendExactly(side: bool, start: int, t: Trace, now: int, kind: Kind, body: seq<Byte>)
    requires Inv(side, start, t)
    ensures SendsAll(side, Prepare(t.s, now), kind, body, Send(t.s, now, kind, body))
    ensures |body| > 1179 ==> Send(t.s, now, kind, body).sender == t.s
  {
  }

  // ---- Whole histories ----------------------------------------------------

  lemma PrepareKeeps(side: bool, start: int, t: Trace, now: int, t': Trace)
    requires Inv(side, start, t) && t' == Emitted(t, now, Prepare(t.s, now))
    ensures Inv(side, start, t')
  {
    var s := t.s;
    var update := if s.updateSent.Some? then s.updateSent.value else 0;
    PrepareExactly(side, start, t, s.keySince, update, now);
    var r := Prepare(s, now);
    hide Prepare, Count, Since, LastUpdate;
    if r.packets == [] {
      assert t'.sent == t.sent;
      assert t' == t.(failed := t'.failed);
    } else {
      var m := Timed(now, r.packets[0]);
      assert t'.sent == t.sent + [m];
      if r.sender.epoch == s.epoch {
        assert s.epoch > 0;
        OneUpdate(side, start, t, m, t');
      } else {
        OneEpoch(side, start, t, m, t');
      }
    }
  }

  lemma FailureKeeps(side: bool, start: int, t: Trace, failed: bool)
    requires Inv(side, start, t)
    ensures Inv(side, start, t.(failed := failed))
  {
  }

  lemma NoUpdate(side: bool, s: Sender, kind: Kind, body: seq<Byte>, m: Timed)
    requires kind != KeyUpdate && m.packet == PacketOf(side, s.epoch, s.counter + 1, kind, body)
    ensures In(m, s.epoch) && !UpdateIn(m, s.epoch)
  {
  }

  lemma SendKeeps(side: bool, start: int, t: Trace, now: int, kind: Kind, body: seq<Byte>, t': Trace)
    requires Inv(side, start, t) && kind != KeyUpdate && t' == Emitted(t, now, Send(t.s, now, kind, body))
    ensures Inv(side, start, t')
  {
    hide Prepare, Send, Inv, UpdateIn;
    SendExactly(side, start, t, now, kind, body);
    var p := Prepare(t.s, now);
    var mid := Emitted(t, now, p);
    PrepareKeeps(side, start, t, now, mid);
    var r := Send(t.s, now, kind, body);
    if |body| > 1179 {
      assert t' == t.(failed := t'.failed, sent := t.sent + []);
      assert t.sent + [] == t.sent;
      FailureKeeps(side, start, t, t'.failed);
    } else if p.fault.Some? || p.sender.counter + 1 >= MAX_COUNTER {
      assert t' == mid.(failed := t'.failed);
      FailureKeeps(side, start, mid, t'.failed);
    } else {
      var m := Timed(now, PacketOf(side, p.sender.epoch, p.sender.counter + 1, kind, body));
      assert Stamped(now, r.packets) == Stamped(now, p.packets) + [m];
      assert t'.sent == mid.sent + [m];
      assert In(m, mid.s.epoch) && !UpdateIn(m, mid.s.epoch) by {
        NoUpdate(side, p.sender, kind, body, m);
      }
      OneMore(side, start, mid, m, t');
    }
  }

  lemma ConfirmKeeps(side: bool, start: int, t: Trace, epoch: nat)
    requires Inv(side, start, t) && !t.failed
    ensures Inv(side, start, Used(t, Confirms(epoch)))
  {
    hide Count, Since, LastUpdate;
  }

  lemma {:induction false} HistoryHolds(side: bool, start: int, uses: seq<Use>)
    ensures Inv(side, start, Traced(side, start, uses))
    decreases |uses|
  {
    if uses == [] {
      assert Count([], 0) == 0;
    } else {
      HistoryHolds(side, start, uses[..|uses| - 1]);
      var t, use := Traced(side, start, uses[..|uses| - 1]), uses[|uses| - 1];
      hide Inv, Send, Prepare, Confirm;
      if !t.failed {
        match use
        case Sends(now, kind, body) =>
          if kind != KeyUpdate {
            SendKeeps(side, start, t, now, kind, body, Used(t, use));
          }
        case Refreshes(now) => PrepareKeeps(side, start, t, now, Used(t, use));
        case Confirms(epoch) => ConfirmKeeps(side, start, t, epoch);
      }
    }
  }

  /** After any history of sends, maintenance and confirmations, what the next preparation
      does: it fails exactly when a key has gone unconfirmed for 30 seconds; it starts a new
      epoch, and announces it, exactly when the current key is confirmed and has used half its
      numbers or is twelve hours old; it repeats an unconfirmed announcement exactly when the
      last one is five seconds old; and otherwise it does nothing. */
  lemma KeysOnTime(side: bool, start: int, uses: seq<Use>, since: int, update: int, now: int)
    requires var t := Traced(side, start, uses);
      Since(t.sent, t.s.epoch, start, since) && (t.s.epoch > 0 ==> LastUpdate(t.sent, t.s.epoch, update))
    ensures Prepares(side, Traced(side, start, uses), since, update, now, Prepare(Traced(side, start, uses).s, now))
  {
    HistoryHolds(side, start, uses);
    PrepareExactly(side, start, Traced(side, start, uses), since, update, now);
  }

  /** After any such history a send does that and then sends exactly its packet. */
  lemma SendsOnTime(side: bool, start: int, uses: seq<Use>, now: int, kind: Kind, body: seq<Byte>)
    ensures var s := Traced(side, start, uses).s; SendsAll(side, Prepare(s, now), kind, body, Send(s, now, kind, body))
  {
    HistoryHolds(side, start, uses);
    SendExactly(side, start, Traced(side, start, uses), now, kind, body);
  }
}
