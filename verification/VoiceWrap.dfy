/** What the missing overflow guard of login and logout costs: not a leak, but sessions. A
    client refuses the state that follows the last epoch, and so does everybody who is shown
    the zero epoch (internal/server/accounts.go, client/src/session.rs, client/src/wire.rs). */
module VoiceWrap {
  import opened Common
  import opened VoiceScope

  /** Before and after a login or logout, with a move to another channel in the same section
      or without. */
  predicate Relogged(s: Session, t: Session) {
    Plain(t) == Plain(Reauthenticated(s)) || Plain(t) == Plain(Moved(Reauthenticated(s), t.channel))
  }

  /** Everybody listed but one has an epoch that clients accept. */
  predicate OthersCount(s: Snapshot, id: UInt16) {
    forall m :: m in s.members && m != id ==> s.members[m].epoch != 0
  }

  /** The session's own client, when it is up to date, ends if and only if the login happened
      in the last epoch. */
  lemma OwnClientEnds(peers: map<UInt16, Session>, id: UInt16, all: bool, client: Client, s: Session)
    requires Heeded(peers, id) && Relogged(s, peers[id])
    requires client.Live? && client.held.snapshot.epoch == s.epoch
    requires OthersCount(StateFor(peers, id, all), id)
    ensures Refuses(client, StateFor(peers, id, all)) <==> s.epoch == LAST_EPOCH
  {
    assert id in StateFor(peers, id, all).members;
  }

  /** Another client that is shown the session ends if and only if the login happened in the
      last epoch and no move took the session on. */
  lemma ViewerEnds(
    peers: map<UInt16, Session>, viewer: UInt16, id: UInt16, all: bool, client: Client, s: Session)
    requires Heeded(peers, viewer) && Heeded(peers, id) && viewer != id && Relogged(s, peers[id])
    requires client.Live? && 0 < client.held.snapshot.epoch <= peers[viewer].epoch
    requires all || peers[id].channel == peers[viewer].channel
    requires OthersCount(StateFor(peers, viewer, all), id)
    ensures Refuses(client, StateFor(peers, viewer, all))
      <==> s.epoch == LAST_EPOCH && Plain(peers[id]) == Plain(Reauthenticated(s))
  {
    var state := StateFor(peers, viewer, all);
    assert id in state.members && state.members[id].epoch == peers[id].epoch;
  }

  // ---- It does happen -----------------------------------------------------

  ghost predicate Reachable(w: World) {
    exists ws :: Run(ws) && ws[|ws| - 1] == w
  }

  lemma Acts(w: World, a: Action) returns (w': World)
    requires Reachable(w)
    ensures w' == Apply(w, a) && Reachable(w')
  {
    hide Apply;
    w' := Apply(w, a);
    var ws: seq<World> :| Run(ws) && ws[|ws| - 1] == w;
    var more := ws + [w'];
    forall i | 0 <= i < |more| - 1 ensures Next(more[i], more[i + 1]) {
      if i < |ws| - 1 {
        assert Next(ws[i], ws[i + 1]);
      }
    }
    assert Run(more) && more[|more| - 1] == w';
  }

  function Talker(epoch: UInt32): Session {
    Session(5, epoch, true, false, false)
  }

  /** Two sessions in one channel, the first in the given epoch. */
  function Pair(epoch: UInt32): map<UInt16, Session> {
    map[1 := Talker(epoch), 2 := Talker(1)]
  }

  function Shown(self: UInt16, epoch: UInt32): Snapshot {
    Snapshot(self, if self == 1 then epoch else 1, map[1 := Member(epoch, 5), 2 := Member(1, 5)])
  }

  lemma PairShown(epoch: UInt32)
    ensures StateFor(Pair(epoch), 1, false) == Shown(1, epoch) && StateFor(Pair(epoch), 2, false) == Shown(2, epoch)
  {
  }

  /** Everything published has been applied. */
  ghost predicate Settled(line: Line, s: Snapshot) {
    && line.out == [] && line.transit == [] && !line.closed && !line.all
    && line.client.Live? && line.client.held.snapshot == s && line.last.snapshot == s
  }

  ghost predicate Calm(w: World, epoch: UInt32) {
    && Reachable(w) && w.peers == Pair(epoch) && w.lines.Keys == {1, 2}
    && Settled(w.lines[1], Shown(1, epoch)) && Settled(w.lines[2], Shown(2, epoch))
  }

  /** One state is queued and nothing else. */
  ghost predicate Offered(line: Line, s: Snapshot) {
    && |line.out| == 1 && line.out[0].snapshot == s && line.transit == [] && !line.closed && !line.all
    && line.last.snapshot == s && !line.client.Ended?
  }

  /** It crosses the stream, and the client takes it or ends. */
  lemma Delivers(w: World, id: UInt16, s: Snapshot) returns (w': World)
    requires Reachable(w) && id in w.lines && Offered(w.lines[id], s)
    ensures Reachable(w') && w'.peers == w.peers && w'.next == w.next && w'.lines.Keys == w.lines.Keys
    ensures forall k :: k in w.lines && k != id ==> w'.lines[k] == w.lines[k]
    ensures if Refuses(w.lines[id].client, s) then w'.lines[id].client.Ended? else Settled(w'.lines[id], s)
  {
    hide Reachable;
    var x := Acts(w, Write(id));
    assert w.lines[id].out[1..] == [];
    w' := Acts(x, Take(id));
  }

  /** A login of the first session, and what it publishes. */
  lemma LogsIn(w: World, epoch: UInt32) returns (w': World)
    requires Calm(w, epoch)
    ensures var e := Reauthenticated(Talker(epoch)).epoch;
      && Reachable(w') && w'.peers == Pair(e) && w'.lines.Keys == {1, 2}
      && Offered(w'.lines[1], Shown(1, e)) && Offered(w'.lines[2], Shown(2, e))
      && w'.lines[1].client == w.lines[1].client && w'.lines[2].client == w.lines[2].client
  {
    hide Reachable, Broadcast, Sectioned, StateFor;
    var t := Reauthenticated(Talker(epoch));
    var ways := map[1 := Passage(t, t, t)];
    assert Legal(w.peers, ways);
    w' := Acts(w, Section(ways));
    var inside := Sectioned(w, ways);
    SectionParts(w, ways, inside);
    assert inside.peers == Pair(t.epoch);
    PairShown(t.epoch);
    ShownDiffers(epoch, t.epoch);
    hide Pair, Shown;
    Publishes(inside, 1, Shown(1, epoch), Shown(1, t.epoch));
    Publishes(inside, 2, Shown(2, epoch), Shown(2, t.epoch));
    SamePeers(inside);
  }

  lemma ShownDiffers(a: UInt32, b: UInt32)
    ensures a != b ==> Shown(1, a) != Shown(1, b) && Shown(2, a) != Shown(2, b)
  {
    assert Shown(2, a).members[1].epoch == a && Shown(2, b).members[1].epoch == b;
  }

  lemma SamePeers(w: World)
    ensures Broadcast(w).peers == w.peers && Broadcast(w).lines.Keys == w.lines.Keys
  {
  }

  lemma Welcomes(w: World, id: UInt16)
    requires id in w.lines && id in w.peers && w.lines[id].last.snapshot == StateFor(w.peers, id, w.lines[id].all)
    ensures Broadcast(w).lines[id] == w.lines[id]
  {
  }

  /** The broadcast queues a state that has changed. */
  lemma Publishes(w: World, id: UInt16, old': Snapshot, s: Snapshot)
    requires id in w.lines && Heeded(w.peers, id) && Settled(w.lines[id], old')
    requires StateFor(w.peers, id, false) == s && s != old'
    ensures Offered(Broadcast(w).lines[id], s) && Broadcast(w).lines[id].client == w.lines[id].client
  {
    hide StateFor;
  }

  /** Epoch after epoch, as long as there is one. */
  lemma {:induction false} Reaches(epoch: UInt32) returns (w: World)
    requires epoch > 0
    ensures Calm(w, epoch)
    decreases epoch
  {
    hide Calm;
    if epoch == 1 {
      w := Begins();
    } else {
      var before := Reaches(epoch - 1);
      w := NextEpoch(before, epoch - 1);
    }
  }

  lemma NextEpoch(w: World, epoch: UInt32) returns (w': World)
    requires Calm(w, epoch) && 0 < epoch < LAST_EPOCH
    ensures Calm(w', epoch + 1)
  {
    hide Reachable;
    var x := LogsIn(w, epoch);
    var y := Delivers(x, 1, Shown(1, epoch + 1));
    w' := Delivers(y, 2, Shown(2, epoch + 1));
  }

  lemma Begins() returns (w: World)
    ensures Calm(w, 1)
  {
    assert Run([EMPTY]) && [EMPTY][|[EMPTY]| - 1] == EMPTY;
    hide Reachable;
    var one := FirstJoins();
    w := SecondJoins(one);
  }

  const Alone: Snapshot := Snapshot(1, 1, map[1 := Member(1, 5)])

  lemma FirstJoins() returns (w: World)
    requires Reachable(EMPTY)
    ensures Reachable(w) && w.peers == map[1 := Talker(1)] && w.next == 1 && w.lines.Keys == {1}
    ensures Settled(w.lines[1], Alone)
  {
    hide Reachable;
    var x := Acts(EMPTY, Join(5));
    assert StateFor(map[1 := Talker(1)], 1, false) == Alone;
    assert Offered(x.lines[1], Alone);
    w := Delivers(x, 1, Alone);
  }

  lemma SecondJoins(one: World) returns (w: World)
    requires Reachable(one) && one.peers == map[1 := Talker(1)] && one.next == 1 && one.lines.Keys == {1}
    requires Settled(one.lines[1], Alone)
    ensures Calm(w, 1)
  {
    hide Reachable, Broadcast, StateFor;
    var x := Acts(one, Join(5));
    var inside := VoiceScope.Joined(one, 2, 5);
    assert inside.peers == Pair(1);
    PairShown(1);
    assert Alone != Shown(1, 1) by {
      assert 2 in Shown(1, 1).members && 2 !in Alone.members;
    }
    SamePeers(inside);
    Publishes(inside, 1, Alone, Shown(1, 1));
    Welcomes(inside, 2);
    var y := Delivers(x, 1, Shown(1, 1));
    w := Delivers(y, 2, Shown(2, 1));
  }

  /** A run in which one session logs in until its epoch wraps: its own client ends, and so
      does the client of the other session in the channel, which did nothing. */
  lemma WrapEndsSessions() returns (before: World, after: World)
    ensures Reachable(before) && before.peers == Pair(LAST_EPOCH) && before.lines.Keys == {1, 2}
    ensures before.lines[1].client.Live? && before.lines[2].client.Live?
    ensures Reachable(after) && after.peers == Pair(0) && after.lines.Keys == {1, 2}
    ensures after.lines[1].client.Ended? && after.lines[2].client.Ended?
  {
    hide Reachable;
    before := Reaches(LAST_EPOCH);
    var x := LogsIn(before, LAST_EPOCH);
    var y := Delivers(x, 1, Shown(1, 0));
    assert 1 in Shown(2, 0).members;
    after := Delivers(y, 2, Shown(2, 0));
  }
}
