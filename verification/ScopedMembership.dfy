/** The membership events and the voice scoping speak of the same sessions: whatever an
    event does to a session is a short path of the steps the scoping proof allows, so a
    channel never changes without a new epoch. */
module ScopedMembership {
  import opened Common
  import opened Resources
  import M = Membership
  import V = VoiceScope
  import W = VoiceWrap

  /** What the voice path looks at. */
  function Voice(p: M.Peer): V.Session {
    V.Session(p.channel, p.epoch, p.muted, p.deafened, p.removed)
  }

  /** One pass of enforcement is one step. */
  lemma EnforcedIsStep(r: Record, p: M.Peer)
    ensures V.Step(Voice(p), Voice(M.EnforcedOne(r, p)))
  {
  }

  lemma MoveIsStep(p: M.Peer, channel: UInt16, temporary: bool)
    requires M.Move(p, channel, temporary).Some?
    ensures V.Step(Voice(p), Voice(M.Move(p, channel, temporary).value))
  {
  }

  lemma LoginIsStep(p: M.Peer, uid: string, expires: int)
    ensures V.Step(Voice(p), Voice(M.LoggedIn(p, uid, expires)))
  {
  }

  lemma LogoutIsPath(p: M.Peer) returns (mid: V.Session)
    ensures V.Step(Voice(p), mid) && V.Step(mid, Voice(M.LoggedOut(p)))
  {
    mid := Voice(p).(muted := true);
  }

  /** Every membership event takes every session along such a path. */
  lemma EventsAreScoped(
    r: Record, deleting: UInt16, home: UInt16, peers: M.Peers, event: M.Event, id: UInt16, q: M.Peer)
    returns (way: V.Passage)
    requires id in peers
    requires var after := M.After(r, deleting, home, peers, event).peers;
      id in after && after[id] == q
    ensures V.Path(Voice(peers[id]), way) && way.end == Voice(q)
  {
    hide M.ModerationCode, M.Present, M.CanEnter, M.ChannelById, M.Housed;
    var p := peers[id];
    way := V.Passage(Voice(p), Voice(p), Voice(q));
    match event
    case SelfMove(target, channel) =>
      if target == id && M.Move(p, channel, false).Some? {
        MoveIsStep(p, channel, false);
      }
    case ModeratedMove(_, target, _, channel, _) =>
      if target == id {
        if M.Move(p, channel, true).Some? {
          MoveIsStep(p, channel, true);
          MoveIsStep(p, channel, false);
        }
      }
    case Login(target, uid, expires) =>
      if target in peers && !peers[target].removed {
        var with := M.WithLogin(peers, target, uid, expires)[id];
        LoginIsStep(p, uid, expires);
        EnforcedIsStep(r, with);
        way := V.Passage(Voice(p), Voice(with), Voice(q));
      }
    case Logout(target) =>
      if target in peers {
        var with := M.WithLogout(peers, target)[id];
        EnforcedIsStep(r, with);
        var mid := Voice(p);
        if target == id {
          mid := LogoutIsPath(p);
        }
        way := V.Passage(mid, Voice(with), Voice(q));
      }
    case Enforce => EnforcedIsStep(r, p);
    case _ =>
  }

  // ---- The missing overflow guard -----------------------------------------

  /** After a login or logout a session that is still live has had its epoch advanced without
      a guard, and possibly been moved by the enforcement that follows. */
  lemma LoginRelogs(r: Record, p: M.Peer, uid: string, expires: int)
    ensures var q := M.EnforcedOne(r, M.LoggedIn(p, uid, expires)); q.removed || W.Relogged(Voice(p), Voice(q))
    ensures var q := M.EnforcedOne(r, M.LoggedOut(p)); q.removed || W.Relogged(Voice(p), Voice(q))
  {
  }

  function Voices(peers: M.Peers): map<UInt16, V.Session> {
    map id | id in peers :: Voice(peers[id])
  }

  predicate LogsInOrOut(event: M.Event, id: UInt16) {
    (event.Login? && event.id == id) || event == M.Logout(id)
  }

  lemma EventRelogs(r: Record, deleting: UInt16, home: UInt16, peers: M.Peers, event: M.Event, id: UInt16, q: M.Peer)
    requires id in peers && !peers[id].removed && LogsInOrOut(event, id)
    requires q == M.After(r, deleting, home, peers, event).peers[id]
    ensures q.removed || W.Relogged(Voice(peers[id]), Voice(q))
  {
    hide W.Relogged;
    if event.Login? {
      LoginRelogs(r, peers[id], event.uid, event.expires);
    } else {
      LoginRelogs(r, peers[id], "", 0);
    }
  }

  /** A login or logout in the last epoch ends the session of its own client, if that is up to
      date, and one in any other epoch does not. */
  lemma LoginEndsOwnClient(
    r: Record, deleting: UInt16, home: UInt16, peers: M.Peers, event: M.Event, id: UInt16,
    after: M.Peers, all: bool, client: V.Client)
    requires id in peers && !peers[id].removed && LogsInOrOut(event, id)
    requires after == M.After(r, deleting, home, peers, event).peers && id in after && !after[id].removed
    requires client.Live? && client.held.snapshot.epoch == peers[id].epoch
    requires W.OthersCount(V.StateFor(Voices(after), id, all), id)
    ensures V.Refuses(client, V.StateFor(Voices(after), id, all)) <==> peers[id].epoch == LAST_EPOCH
  {
    hide M.After, V.StateFor, V.Refuses, W.Relogged;
    EventRelogs(r, deleting, home, peers, event, id, after[id]);
    W.OwnClientEnds(Voices(after), id, all, client, Voice(peers[id]));
  }

  /** It ends the sessions of all others that are shown it, too, unless the enforcement in the
      same section has moved the session on to epoch 1. */
  lemma LoginEndsViewers(
    r: Record, deleting: UInt16, home: UInt16, peers: M.Peers, event: M.Event, id: UInt16,
    after: M.Peers, viewer: UInt16, all: bool, client: V.Client)
    requires id in peers && !peers[id].removed && LogsInOrOut(event, id) && viewer != id
    requires after == M.After(r, deleting, home, peers, event).peers
    requires id in after && !after[id].removed && viewer in after && !after[viewer].removed
    requires client.Live? && 0 < client.held.snapshot.epoch <= after[viewer].epoch
    requires all || after[id].channel == after[viewer].channel
    requires W.OthersCount(V.StateFor(Voices(after), viewer, all), id)
    ensures V.Refuses(client, V.StateFor(Voices(after), viewer, all))
      <==> peers[id].epoch == LAST_EPOCH && after[id].channel == peers[id].channel
  {
    hide M.After, V.StateFor, V.Refuses;
    EventRelogs(r, deleting, home, peers, event, id, after[id]);
    W.ViewerEnds(Voices(after), viewer, id, all, client, Voice(peers[id]));
  }
}
