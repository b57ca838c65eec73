/** What every send keeps of the sealed stream and every decryption keeps of the
    receive keys, replay windows and acceptance log. */
module NoiseInvariants {
  import opened Common
  import opened BigEndian
  import opened ReplayWindow
  import opened NoiseKeys

  // ---- Sending side -------------------------------------------------------

  ghost predicate SentUnder(side: bool, s: Sender, p: Packet) {
    && p.key.side == side
    && p.key.generation <= s.epoch
    && 1 <= p.header.counter < MAX_COUNTER
    && p.nonce == Nonce(p.key.generation, p.header.counter)
    && p.header.phase == p.key.generation % 2
    && (p.key.generation == s.epoch ==> p.header.counter <= s.counter)
    && (p.header.kind == KeyUpdate ==> p.body == Put(p.key.generation, 8))
  }

  ghost predicate OpensEpoch(sent: seq<Packet>, i: nat)
    requires i < |sent|
  {
    sent[i].key.generation > 0 && (i == 0 || sent[i - 1].key.generation < sent[i].key.generation)
  }

  /** The sealed stream in the order it was sent: nonces strictly increase and each
      epoch after 0 opens with the key update that names it. */
  ghost predicate Stream(side: bool, s: Sender, sent: seq<Packet>) {
    && s.key == Key(side, s.epoch) && s.chain == s.key
    && s.epoch <= MAX_KEY_EPOCH && s.counter < MAX_COUNTER
    && (forall i :: 0 <= i < |sent| ==> SentUnder(side, s, sent[i]))
    && (forall i, j :: 0 <= i < j < |sent| ==> sent[i].nonce < sent[j].nonce)
    && (forall i :: 0 <= i < |sent| && OpensEpoch(sent, i) ==> sent[i].header.kind == KeyUpdate)
  }

  ghost predicate Announced(s: Sender, sent: seq<Packet>) {
    s.epoch == 0 || (sent != [] && sent[|sent| - 1].key.generation == s.epoch)
  }

  ghost predicate SenderInv(side: bool, s: Sender, sent: seq<Packet>) {
    Stream(side, s, sent) && Announced(s, sent)
  }

  lemma NonceOrder(e: nat, c: nat, e': nat, c': nat)
    requires c < MAX_COUNTER && c' < MAX_COUNTER
    requires e < e' || (e == e' && c < c')
    ensures Nonce(e, c) < Nonce(e', c')
  {
    if e < e' {
      assert e' * MAX_COUNTER >= (e + 1) * MAX_COUNTER;
    }
  }

  lemma NonceInjective(e: nat, c: nat, e': nat, c': nat)
    requires c < MAX_COUNTER && c' < MAX_COUNTER
    ensures Nonce(e, c) == Nonce(e', c') ==> e == e' && c == c'
  {
    if e < e' || (e == e' && c < c') {
      NonceOrder(e, c, e', c');
    } else if e' < e || (e == e' && c' < c) {
      NonceOrder(e', c', e, c);
    }
  }

  /** Every nonce stays clear of the final 2^24 block, which holds Noise's reserved nonce. */
  lemma NonceBound(side: bool, s: Sender, p: Packet)
    requires SentUnder(side, s, p) && s.epoch <= MAX_KEY_EPOCH
    ensures p.nonce < 0x1_0000_0000_0000_0000 - 0x100_0000
  {
    NonceOrder(p.key.generation, p.header.counter, MAX_KEY_EPOCH + 1, 0);
  }

  lemma SealKeeps(side: bool, s: Sender, sent: seq<Packet>, kind: Kind, body: seq<Byte>)
    requires Stream(side, s, sent)
    requires kind == KeyUpdate ==> body == Put(s.epoch, 8)
    requires kind == KeyUpdate || Announced(s, sent)
    ensures var r := Seal(s, kind, body);
      && Stream(side, r.sender, sent + r.packets)
      && (Announced(s, sent) || r.packets != [] ==> Announced(r.sender, sent + r.packets))
  {
    var r := Seal(s, kind, body);
    if r.packets == [] {
      assert sent + r.packets == sent;
    } else {
      var p := r.packets[0];
      var out := sent + [p];
      assert out == sent + r.packets;
      forall i | 0 <= i < |sent| ensures SentUnder(side, r.sender, sent[i]) && sent[i].nonce < p.nonce {
        NonceOrder(sent[i].key.generation, sent[i].header.counter, s.epoch, p.header.counter);
      }
      forall i | 0 <= i < |out| && OpensEpoch(out, i) ensures out[i].header.kind == KeyUpdate {
        if i < |sent| {
          assert OpensEpoch(sent, i);
        }
      }
    }
  }

  lemma AdvanceKeeps(side: bool, s: Sender, sent: seq<Packet>, now: int)
    requires Stream(side, s, sent) && s.epoch < MAX_KEY_EPOCH
    ensures Stream(side, Advance(s, now), sent)
  {
    forall i | 0 <= i < |sent| ensures SentUnder(side, Advance(s, now), sent[i]) {
      assert SentUnder(side, s, sent[i]);
    }
  }

  /** Confirmation and timing fields do not matter to the stream. */
  lemma StreamFrame(side: bool, s: Sender, s': Sender, sent: seq<Packet>)
    requires Stream(side, s, sent)
    requires s'.key == s.key && s'.chain == s.chain && s'.epoch == s.epoch && s'.counter == s.counter
    ensures Stream(side, s', sent)
  {
    forall i | 0 <= i < |sent| ensures SentUnder(side, s', sent[i]) {
      assert SentUnder(side, s, sent[i]);
    }
  }

  lemma AnnounceKeeps(side: bool, s: Sender, sent: seq<Packet>, now: int)
    requires Stream(side, s, sent)
    requires Announced(s, sent) || (!s.confirmed && s.updateSent.None? && s.counter == 0)
    ensures var r := Announce(s, now); SenderInv(side, r.sender, sent + r.packets)
  {
    SealKeeps(side, s, sent, KeyUpdate, Put(s.epoch, 8));
    var r := Seal(s, KeyUpdate, Put(s.epoch, 8));
    assert sent + [] == sent;
    assert r.fault.None? ==> r.packets != [];
    var marked := r.sender.(updateSent := Some(now));
    StreamFrame(side, r.sender, marked, sent + r.packets);
  }

  lemma PrepareKeeps(side: bool, s: Sender, sent: seq<Packet>, now: int)
    requires SenderInv(side, s, sent)
    ensures var r := Prepare(s, now); SenderInv(side, r.sender, sent + r.packets)
  {
    assert sent + [] == sent;
    if Prepare(s, now).fault == Some(KeyConfirmationTimeout) {
    } else if !RekeyDue(s, now) {
      AnnounceKeeps(side, s, sent, now);
    } else if s.epoch < MAX_KEY_EPOCH {
      AdvanceKeeps(side, s, sent, now);
      AnnounceKeeps(side, Advance(s, now), sent, now);
    }
  }

  /** Sending anything but a key update keeps the stream well formed and announced. */
  lemma SendKeeps(side: bool, s: Sender, sent: seq<Packet>, now: int, kind: Kind, body: seq<Byte>)
    requires SenderInv(side, s, sent) && kind != KeyUpdate
    ensures var r := Send(s, now, kind, body); SenderInv(side, r.sender, sent + r.packets)
  {
    var prepared := Prepare(s, now);
    PrepareKeeps(side, s, sent, now);
    assert sent + [] == sent;
    if prepared.fault.None? {
      var sealed := Seal(prepared.sender, kind, body);
      SealKeeps(side, prepared.sender, sent + prepared.packets, kind, body);
      assert sent + (prepared.packets + sealed.packets) == sent + prepared.packets + sealed.packets;
    }
  }

  // ---- Receiving side -----------------------------------------------------

  /** The counters accepted so far under one epoch. */
  ghost function Counters(log: seq<(nat, nat)>, epoch: nat): set<nat> {
    set i | 0 <= i < |log| && log[i].0 == epoch :: log[i].1
  }

  ghost predicate ReceiverInv(side: bool, r: Receiver, log: seq<(nat, nat)>) {
    && r.key == Key(!side, r.epoch)
    && r.next == Key(!side, r.epoch + 1) && r.chain == r.next
    && r.epoch <= MAX_KEY_EPOCH
    && (r.previous.Some? ==> r.epoch > 0 && r.previous.value == Key(!side, r.epoch - 1))
    && (forall i :: 0 <= i < |log| ==> log[i].0 <= r.epoch)
    && (forall i, j :: 0 <= i < j < |log| ==> log[i] != log[j])
    && Tracks(r.replay, Counters(log, r.epoch))
    && (r.previous.Some? ==> Tracks(r.previousReplay, Counters(log, r.epoch - 1)))
  }

  /** Two new halves that have sent and accepted nothing. */
  lemma NewHalves(side: bool, now: int)
    ensures SenderInv(side, NewSender(side, now), []) && ReceiverInv(side, NewReceiver(side), [])
  {
    assert Counters([], 0) == {};
  }

  lemma CountersAfter(log: seq<(nat, nat)>, epoch: nat, n: nat, other: nat)
    ensures Counters(log + [(epoch, n)], other)
         == if other == epoch then Counters(log, other) + {n} else Counters(log, other)
  {
    var out := log + [(epoch, n)];
    forall c | c in Counters(log, other) ensures c in Counters(out, other) {
      var i :| 0 <= i < |log| && log[i].0 == other && log[i].1 == c;
      assert out[i] == log[i];
    }
    assert out[|log|] == (epoch, n);
  }

  lemma InLog(log: seq<(nat, nat)>, epoch: nat, n: nat)
    ensures (epoch, n) in log <==> n in Counters(log, epoch)
  {
    if n in Counters(log, epoch) {
      var i :| 0 <= i < |log| && log[i].0 == epoch && log[i].1 == n;
      assert log[i] == (epoch, n);
    }
  }

  function Logged(log: seq<(nat, nat)>, d: Datagram, o: Opening): seq<(nat, nat)> {
    if o.result.Some? then log + [(o.result.value.epoch, d.header.counter)] else log
  }

  lemma NewCounterTracked(w: Window, log: seq<(nat, nat)>, epoch: nat, n: nat)
    requires Tracks(w, Counters(log, epoch)) && !w.Seen(n)
    ensures (epoch, n) !in log
    ensures Tracks(w.Add(n), Counters(log + [(epoch, n)], epoch))
  {
    SeenExactly(w, Counters(log, epoch), n);
    InLog(log, epoch, n);
    AddTracks(w, Counters(log, epoch), n);
    CountersAfter(log, epoch, n, epoch);
  }

  lemma FirstCounterTracked(log: seq<(nat, nat)>, epoch: nat, n: nat)
    requires forall i :: 0 <= i < |log| ==> log[i].0 < epoch
    requires 0 < n < MAX_COUNTER
    ensures (epoch, n) !in log
    ensures Tracks(EMPTY.Add(n), Counters(log + [(epoch, n)], epoch))
  {
    assert Counters(log, epoch) == {};
    assert Tracks(EMPTY, {});
    SeenExactly(EMPTY, {}, n);
    NewCounterTracked(EMPTY, log, epoch, n);
  }

  /** Whatever opens was sealed by the peer, under the reported epoch, with this header. */
  lemma DecryptAuthentic(side: bool, r: Receiver, log: seq<(nat, nat)>, d: Datagram, now: int)
    requires ReceiverInv(side, r, log)
    requires Decrypt(r, d, now).result.Some?
    ensures var o := Decrypt(r, d, now); var e := o.result.value.epoch;
      && 0 < d.header.counter < MAX_COUNTER
      && d.cipher == Some(Packet(Key(!side, e), Nonce(e, d.header.counter), d.header, o.result.value.body))
      && e <= o.receiver.epoch
      && o.receiver.epoch == (if o.result.value.advanced then r.epoch + 1 else r.epoch)
  {
    var ready := Expire(r, now);
    assert ready.key == r.key && ready.next == r.next && ready.epoch == r.epoch;
    assert ready.previous.Some? ==> ready.previous == r.previous;
  }

  lemma CurrentKept(side: bool, r: Receiver, log: seq<(nat, nat)>, n: nat)
    requires ReceiverInv(side, r, log) && !r.replay.Seen(n)
    ensures ReceiverInv(side, r.(replay := r.replay.Add(n)), log + [(r.epoch, n)])
    ensures (r.epoch, n) !in log
  {
    hide Tracks, Counters, Window.Seen, Window.Add;
    NewCounterTracked(r.replay, log, r.epoch, n);
    if r.epoch > 0 {
      CountersAfter(log, r.epoch, n, r.epoch - 1);
    }
  }

  lemma PreviousKept(side: bool, r: Receiver, log: seq<(nat, nat)>, n: nat)
    requires ReceiverInv(side, r, log) && r.previous.Some? && !r.previousReplay.Seen(n)
    ensures ReceiverInv(side, r.(previousReplay := r.previousReplay.Add(n)), log + [(r.epoch - 1, n)])
    ensures (r.epoch - 1, n) !in log
  {
    hide Tracks, Counters, Window.Seen, Window.Add;
    NewCounterTracked(r.previousReplay, log, r.epoch - 1, n);
    CountersAfter(log, r.epoch - 1, n, r.epoch);
  }

  lemma NextKept(side: bool, r: Receiver, log: seq<(nat, nat)>, n: nat, now: int)
    requires ReceiverInv(side, r, log) && r.epoch < MAX_KEY_EPOCH && 0 < n < MAX_COUNTER
    ensures ReceiverInv(side, Step(r, n, now), log + [(r.epoch + 1, n)])
    ensures (r.epoch + 1, n) !in log
  {
    hide Tracks, Counters, Window.Seen, Window.Add;
    FirstCounterTracked(log, r.epoch + 1, n);
    CountersAfter(log, r.epoch + 1, n, r.epoch);
  }

  /** The only ways decryption can leave a receiver whose old key was expired first. */
  ghost predicate Outcome(r: Receiver, n: nat, now: int, o: Opening) {
    match o.result
    case None => o.receiver == r
    case Some(v) =>
      && 0 < n < MAX_COUNTER
      && (|| (v.epoch == r.epoch && !r.replay.Seen(n) && o.receiver == r.(replay := r.replay.Add(n)))
          || (v.epoch == r.epoch - 1 && r.previous.Some? && !r.previousReplay.Seen(n)
              && o.receiver == r.(previousReplay := r.previousReplay.Add(n)))
          || (v.epoch == r.epoch + 1 && r.epoch < MAX_KEY_EPOCH && o.receiver == Step(r, n, now)))
  }

  lemma DecryptOutcome(r: Receiver, d: Datagram, now: int)
    ensures var o := Decrypt(r, d, now);
      Outcome(r, d.header.counter, now, o) || Outcome(Expire(r, now), d.header.counter, now, o)
  {}

  lemma OutcomeKeeps(side: bool, r: Receiver, log: seq<(nat, nat)>, d: Datagram, now: int, o: Opening)
    requires ReceiverInv(side, r, log) && Outcome(r, d.header.counter, now, o)
    ensures ReceiverInv(side, o.receiver, Logged(log, d, o))
    ensures o.result.Some? ==> (o.result.value.epoch, d.header.counter) !in log
  {
    if o.result.Some? {
      var n := d.header.counter;
      if o.result.value.epoch == r.epoch + 1 {
        NextKept(side, r, log, n, now);
      } else if o.result.value.epoch == r.epoch {
        CurrentKept(side, r, log, n);
      } else {
        PreviousKept(side, r, log, n);
      }
    }
  }

  lemma ExpireKeeps(side: bool, r: Receiver, log: seq<(nat, nat)>, now: int)
    requires ReceiverInv(side, r, log)
    ensures ReceiverInv(side, Expire(r, now), log)
  {}

  /** Whatever arrives: the keys stay aligned with the epoch, each window stays exact
      and no (epoch, counter) is accepted twice. */
  lemma DecryptKeeps(side: bool, r: Receiver, log: seq<(nat, nat)>, d: Datagram, now: int, o: Opening)
    requires ReceiverInv(side, r, log) && o == Decrypt(r, d, now)
    ensures ReceiverInv(side, o.receiver, Logged(log, d, o))
    ensures o.result.Some? ==> (o.result.value.epoch, d.header.counter) !in log
  {
    ExpireKeeps(side, r, log, now);
    DecryptOutcome(r, d, now);
    if Outcome(r, d.header.counter, now, o) {
      OutcomeKeeps(side, r, log, d, now, o);
    } else {
      OutcomeKeeps(side, Expire(r, now), log, d, now, o);
    }
  }

  /** All that one decryption promises. */
  ghost predicate Verdict(side: bool, r: Receiver, log: seq<(nat, nat)>, d: Datagram, o: Opening) {
    && ReceiverInv(side, o.receiver, Logged(log, d, o))
    && match o.result
       case None => o.receiver.epoch == r.epoch
       case Some(v) =>
         && (v.epoch, d.header.counter) !in log
         && d.cipher == Some(Packet(Key(!side, v.epoch), Nonce(v.epoch, d.header.counter), d.header, v.body))
         && v.epoch <= o.receiver.epoch
         && o.receiver.epoch == (if v.advanced then r.epoch + 1 else r.epoch)
         && (v.advanced ==> v.epoch == r.epoch + 1)
  }

  lemma DecryptVerdict(side: bool, r: Receiver, log: seq<(nat, nat)>, d: Datagram, now: int, o: Opening)
    requires ReceiverInv(side, r, log) && o == Decrypt(r, d, now)
    ensures Verdict(side, r, log, d, o)
  {
    DecryptKeeps(side, r, log, d, now, o);
    if o.result.Some? {
      DecryptAuthentic(side, r, log, d, now);
    } else {
      RejectedChangesNothing(r, d, now);
    }
  }

  /** Nothing that fails to authenticate changes an epoch, a key or a window, other
      than dropping the previous key once its grace period is over. */
  lemma RejectedChangesNothing(r: Receiver, d: Datagram, now: int)
    requires Decrypt(r, d, now).result.None?
    ensures Decrypt(r, d, now).receiver == r || Decrypt(r, d, now).receiver == Expire(r, now)
    ensures Expire(r, now) == r.(previous := Expire(r, now).previous, previousReplay := Expire(r, now).previousReplay)
  {}

  /** Exactly which genuine packets open, and at which epoch, although the header
      carries only one bit of it. */
  lemma AcceptsExactly(side: bool, r: Receiver, log: seq<(nat, nat)>, s: Sender, p: Packet, now: int)
    requires ReceiverInv(side, r, log)
    requires SentUnder(!side, s, p) && s.epoch <= r.epoch + 1 && s.epoch <= MAX_KEY_EPOCH
    ensures var o := Decrypt(r, Datagram(p.header, Some(p)), now);
      var e := p.key.generation;
      && (o.result.Some? <==>
            || e == r.epoch + 1
            || (e == r.epoch && !r.replay.Seen(p.header.counter))
            || (e + 1 == r.epoch && Expire(r, now).previous.Some?
                && !r.previousReplay.Seen(p.header.counter)))
      && (o.result.Some? ==> o.result.value.epoch == e && o.result.value.body == p.body)
  {
    var e := p.key.generation;
    var ready := Expire(r, now);
    if e == r.epoch + 1 || e + 1 == r.epoch {
      assert p.header.phase != r.epoch % 2;
    }
  }
}
