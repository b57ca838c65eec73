/** Who is in which channel: admission, moves, temporary admissions, logins and the
    enforcement pass (internal/server/channel_access.go, server.go, admin_members.go and
    accounts.go). */
module Membership {
  import opened Common
  import opened Resources
  import opened Governance

  /** One session. An empty uid is a guest; temporary is 0 or an admission. */
  datatype Peer = Peer(
    instance: nat, uid: string, expires: int, channel: UInt16, temporary: UInt16,
    epoch: UInt32, removed: bool, muted: bool, deafened: bool)

  type Peers = map<UInt16, Peer>

  datatype Code = Done | WrongChannel | PermissionDenied | NotFound | Invalid | Closed

  datatype Outcome = Outcome(code: Code, peers: Peers)

  /** A moderator acts from the console or from a session of its own. */
  datatype Moderator = Console(uid: string) | Session(id: UInt16)

  // ---- The lookups --------------------------------------------------------

  function ChannelById(channels: seq<Channel>, id: UInt16): (found: Option<Channel>)
    ensures found.Some? ==> found.value in channels && found.value.id == id
    ensures found.None? <==> id !in Ids(channels)
  {
    if channels == [] then None
    else if channels[0].id == id then Some(channels[0])
    else
      assert channels == [channels[0]] + channels[1..];
      ChannelById(channels[1..], id)
  }

  predicate Privileged(r: Record, uid: string) {
    RoleOf(r, uid) == Owner || RoleOf(r, uid) == Admin
  }

  predicate CanEnter(r: Record, p: Peer, ch: Channel) {
    !ch.adminOnly || Privileged(r, p.uid) || p.temporary == ch.id
  }

  // ---- One session --------------------------------------------------------

  /** movePeerLocked: a real move starts a new epoch and ends any temporary admission. */
  function Move(p: Peer, channel: UInt16, temporary: bool): Option<Peer> {
    if p.channel == channel then Some(p)
    else if p.epoch == LAST_EPOCH then None
    else Some(p.(channel := channel, temporary := if temporary then channel else 0, epoch := p.epoch + 1))
  }

  function Removed(p: Peer): Peer {
    p.(removed := true, muted := true, deafened := true)
  }

  /** The session is where it may be. */
  predicate Housed(r: Record, p: Peer) {
    var ch := ChannelById(r.channels.channels, p.channel);
    ch.Some? && CanEnter(r, p, ch.value)
  }

  predicate Tidy(p: Peer) {
    p.temporary == 0 || p.temporary == p.channel
  }

  function EnforcedOne(r: Record, p: Peer): Peer {
    if p.removed || Housed(r, p) then p else
    match Move(p, r.channels.defaultId, false)
    case Some(moved) => moved
    case None => Removed(p)
  }

  function NextEpoch(e: UInt32): UInt32 {
    (e + 1) % 0x1_0000_0000
  }

  function LoggedIn(p: Peer, uid: string, expires: int): Peer {
    p.(uid := uid, expires := expires, epoch := NextEpoch(p.epoch),
       temporary := if p.uid != uid then 0 else p.temporary)
  }

  function LoggedOut(p: Peer): Peer {
    p.(uid := "", expires := 0, temporary := 0, muted := true, epoch := NextEpoch(p.epoch))
  }

  // ---- All sessions -------------------------------------------------------

  function Enforced(r: Record, peers: Peers): Peers {
    map id | id in peers :: EnforcedOne(r, peers[id])
  }

  /** Every other live session of the account ends. */
  function Replaced(peers: Peers, id: UInt16, uid: string): Peers {
    map k | k in peers :: if k != id && !peers[k].removed && peers[k].uid == uid then Removed(peers[k]) else peers[k]
  }

  function WithLogin(peers: Peers, id: UInt16, uid: string, expires: int): (after: Peers)
    requires id in peers
    ensures after.Keys == peers.Keys
    ensures forall k :: k in peers ==> after[k].channel == peers[k].channel
  {
    Replaced(peers, id, uid)[id := LoggedIn(peers[id], uid, expires)]
  }

  function WithLogout(peers: Peers, id: UInt16): (after: Peers)
    requires id in peers
    ensures after.Keys == peers.Keys
    ensures forall k :: k in peers ==> after[k].channel == peers[k].channel
  {
    peers[id := LoggedOut(peers[id])]
  }

  /** disconnectBanned. */
  function Dropped(peers: Peers, banned: set<UInt16>): Peers {
    map id | id in peers :: if id in banned && !peers[id].removed then Removed(peers[id]) else peers[id]
  }

  predicate Present(peers: Peers, uid: string, channel: UInt16, now: int) {
    exists id :: id in peers && IsPresent(peers[id], uid, channel, now)
  }

  predicate IsPresent(p: Peer, uid: string, channel: UInt16, now: int) {
    !p.removed && p.uid == uid && p.channel == channel && now < p.expires
  }

  /** The account a moderator acts for, if its session is still good. */
  function ActorOf(peers: Peers, mod: Moderator, now: int): Option<string> {
    match mod
    case Console(uid) => Some(uid)
    case Session(id) =>
      if id !in peers || peers[id].removed || (peers[id].uid != "" && now >= peers[id].expires) then None
      else Some(peers[id].uid)
  }

  datatype Event =
    | Join(id: UInt16, instance: nat)
    | Leave(id: UInt16)
    | SelfMove(id: UInt16, channel: UInt16)
    | SetVoice(id: UInt16, muted: bool, deafened: bool)
    | ModeratedMove(mod: Moderator, id: UInt16, instance: nat, channel: UInt16, now: int)
    | Kick(mod: Moderator, id: UInt16, instance: nat, now: int)
    | Login(id: UInt16, uid: string, expires: int)
    | Logout(id: UInt16)
    | Enforce
    | DropBanned(banned: set<UInt16>)

  /** One critical section, with the cached record and the channel being deleted. */
  function After(r: Record, deleting: UInt16, home: UInt16, peers: Peers, event: Event): Outcome {
    match event
    case Join(id, instance) =>
      if id in peers then Outcome(Closed, peers)
      else Outcome(Done, peers[id := Peer(instance, "", 0, home, 0, 1, false, true, false)])
    case Leave(id) => Outcome(Done, peers - {id})
    case SelfMove(id, channel) => AfterSelfMove(r, deleting, peers, id, channel)
    case SetVoice(id, muted, deafened) =>
      if id !in peers || peers[id].removed then Outcome(Closed, peers)
      else Outcome(Done, peers[id := peers[id].(muted := muted, deafened := deafened)])
    case ModeratedMove(mod, id, instance, channel, now) =>
      var code := ModerationCode(r, peers, mod, id, instance, now);
      if code != Done then Outcome(code, peers) else AfterModerated(r, peers, mod, id, channel, now)
    case Kick(mod, id, instance, now) =>
      var code := ModerationCode(r, peers, mod, id, instance, now);
      if code != Done then Outcome(code, peers) else Outcome(Done, peers[id := Removed(peers[id])])
    case Login(id, uid, expires) =>
      if id !in peers || peers[id].removed then Outcome(Closed, peers)
      else Outcome(Done, Enforced(r, WithLogin(peers, id, uid, expires)))
    case Logout(id) =>
      if id !in peers then Outcome(Closed, peers)
      else Outcome(Done, Enforced(r, WithLogout(peers, id)))
    case Enforce => Outcome(Done, Enforced(r, peers))
    case DropBanned(banned) =>
      Outcome(Done, Dropped(peers, banned))
  }

  function AfterSelfMove(r: Record, deleting: UInt16, peers: Peers, id: UInt16, channel: UInt16): Outcome {
    if id !in peers || peers[id].removed then Outcome(Closed, peers) else
    var ch := ChannelById(r.channels.channels, channel);
    if ch.None? || channel == deleting then Outcome(WrongChannel, peers)
    else if !CanEnter(r, peers[id], ch.value) then Outcome(PermissionDenied, peers)
    else
      match Move(peers[id], channel, false)
      case Some(moved) => Outcome(Done, peers[id := moved])
      case None => Outcome(Closed, peers)
  }

  /** What moderation checks before it looks at the action. */
  function ModerationCode(r: Record, peers: Peers, mod: Moderator, id: UInt16, instance: nat, now: int): (code: Code)
    ensures code == Done ==> id in peers && !peers[id].removed && ActorOf(peers, mod, now).Some?
  {
    var actor := ActorOf(peers, mod, now);
    if actor.None? then PermissionDenied
    else if id !in peers || peers[id].removed || peers[id].instance != instance then NotFound
    else if !Authorized(r, actor.value, now, Members, Write, Holder(RoleOf(r, peers[id].uid))) then PermissionDenied
    else Done
  }

  function AfterModerated(r: Record, peers: Peers, mod: Moderator, id: UInt16, channel: UInt16, now: int): Outcome
    requires id in peers && ActorOf(peers, mod, now).Some?
  {
    var ch := ChannelById(r.channels.channels, channel);
    if ch.None? then Outcome(Invalid, peers) else
    var temporary := ch.value.adminOnly && !Privileged(r, peers[id].uid);
    if temporary && !Present(peers, ActorOf(peers, mod, now).value, channel, now) then Outcome(PermissionDenied, peers)
    else
      match Move(peers[id], channel, temporary)
      case Some(moved) => Outcome(Done, peers[id := moved])
      case None => Outcome(Invalid, peers)
  }

  // ---- What every critical section keeps ----------------------------------

  ghost predicate AllTidy(peers: Peers) {
    forall id :: id in peers ==> Tidy(peers[id])
  }

  /** Every live session is in an existing channel that it may enter. */
  ghost predicate Settled(r: Record, peers: Peers) {
    forall id :: id in peers ==> peers[id].removed || Housed(r, peers[id])
  }

  /** No account has two live sessions. */
  ghost predicate OneSession(peers: Peers) {
    forall a, b :: a in peers && b in peers && a != b && !peers[a].removed && !peers[b].removed && peers[a].uid != ""
      ==> peers[a].uid != peers[b].uid
  }

  /** What holds at all times, whatever the record says. */
  ghost predicate Regular(peers: Peers) {
    AllTidy(peers) && OneSession(peers)
  }

  /** And what an enforcement pass adds, as long as its record is the one in force. */
  ghost predicate Orderly(r: Record, peers: Peers) {
    Regular(peers) && Settled(r, peers)
  }

  lemma DefaultIsOpen(r: Record, p: Peer)
    requires ValidChannelRecord(r.channels) && p.channel == r.channels.defaultId
    ensures Housed(r, p)
  {
    var ch := ChannelById(r.channels.channels, p.channel);
    var i :| 0 <= i < |r.channels.channels| && r.channels.channels[i] == ch.value;
  }

  /** One session's fate in an enforcement pass: it stays, or goes to the default channel
      in its next epoch, or ends because no epoch is left. */
  lemma EnforcedFate(r: Record, p: Peer)
    requires ValidChannelRecord(r.channels)
    ensures var q := EnforcedOne(r, p);
      && (q.removed || Housed(r, q))
      && (q == p <==> p.removed || Housed(r, p))
      && (q != p && p.epoch < LAST_EPOCH ==>
            q == p.(channel := r.channels.defaultId, temporary := 0, epoch := p.epoch + 1))
      && (q != p && p.epoch == LAST_EPOCH ==> q == Removed(p))
      && (Tidy(p) ==> Tidy(q)) && q.uid == p.uid
  {
    if !p.removed && !Housed(r, p) {
      if p.channel == r.channels.defaultId {
        DefaultIsOpen(r, p);
      }
      DefaultIsOpen(r, p.(channel := r.channels.defaultId, temporary := 0, epoch := NextEpoch(p.epoch)));
    }
  }

  /** The pass settles any sessions, whatever the record said before. */
  lemma EnforcementSettles(r: Record, peers: Peers)
    requires ValidChannelRecord(r.channels)
    ensures Settled(r, Enforced(r, peers))
    ensures Settled(r, peers) ==> Enforced(r, peers) == peers
  {
    forall id | id in peers
      ensures var q := Enforced(r, peers)[id];
        && (q.removed || Housed(r, q))
        && (peers[id].removed || Housed(r, peers[id]) ==> q == peers[id])
    {
      EnforcedFate(r, peers[id]);
    }
  }

  /** Under any record at all, a pass leaves admissions and accounts regular. */
  lemma EnforcedRegular(r: Record, peers: Peers)
    requires Regular(peers)
    ensures Regular(Enforced(r, peers))
  {
    forall id | id in peers
      ensures var q := Enforced(r, peers)[id];
        Tidy(q) && q.uid == peers[id].uid && (peers[id].removed ==> q.removed)
    {
    }
  }

  /** A pass by another record with the same default channel unsettles nobody. */
  lemma EnforcedElsewhere(r: Record, other: Record, peers: Peers)
    requires ValidChannelRecord(r.channels) && Settled(r, peers)
    requires other.channels.defaultId == r.channels.defaultId
    ensures Settled(r, Enforced(other, peers))
  {
    forall id | id in peers
      ensures Enforced(other, peers)[id].removed || Housed(r, Enforced(other, peers)[id])
    {
      OtherFate(r, other, peers[id]);
    }
  }

  lemma OtherFate(r: Record, other: Record, p: Peer)
    requires ValidChannelRecord(r.channels) && (p.removed || Housed(r, p))
    requires other.channels.defaultId == r.channels.defaultId
    ensures EnforcedOne(other, p).removed || Housed(r, EnforcedOne(other, p))
  {
    var q := EnforcedOne(other, p);
    if q != p && q.channel == r.channels.defaultId {
      DefaultIsOpen(r, q);
    }
  }

  /** A move keeps tidiness, and the destination decides where the session is housed. */
  lemma MoveHouses(r: Record, p: Peer, channel: UInt16, temporary: bool)
    requires Tidy(p) && (p.removed || Housed(r, p)) && Move(p, channel, temporary).Some?
    requires var ch := ChannelById(r.channels.channels, channel);
      ch.Some? && (temporary || !ch.value.adminOnly || Privileged(r, p.uid) || p.temporary == ch.value.id)
    ensures var q := Move(p, channel, temporary).value;
      Tidy(q) && (q.removed || Housed(r, q)) && q.uid == p.uid && q.removed == p.removed && q.channel == channel
  {
  }

  /** Every critical section, under any record, with any channel being deleted and any
      home, leaves every admission at 0 or the session's own channel and one live session
      per account. */
  lemma EventRegular(r: Record, deleting: UInt16, home: UInt16, peers: Peers, event: Event)
    requires Regular(peers)
    ensures Regular(After(r, deleting, home, peers, event).peers)
  {
    match event
    case Join(id, instance) =>
      OneChanges(peers, id, Peer(instance, "", 0, home, 0, 1, false, true, false));
    case Leave(id) =>
    case SelfMove(id, channel) =>
      if AfterSelfMove(r, deleting, peers, id, channel).peers != peers {
        OneChanges(peers, id, Move(peers[id], channel, false).value);
      }
    case SetVoice(id, muted, deafened) =>
      if id in peers && !peers[id].removed {
        OneChanges(peers, id, peers[id].(muted := muted, deafened := deafened));
      }
    case ModeratedMove(mod, id, instance, channel, now) =>
      if ModerationCode(r, peers, mod, id, instance, now) == Done {
        ModeratedRegular(r, peers, mod, id, channel, now);
      }
    case Kick(mod, id, instance, now) =>
      if ModerationCode(r, peers, mod, id, instance, now) == Done {
        OneChanges(peers, id, Removed(peers[id]));
      }
    case Login(id, uid, expires) =>
      if id in peers && !peers[id].removed {
        LoginReplaces(peers, id, uid, expires);
        EnforcedRegular(r, WithLogin(peers, id, uid, expires));
      }
    case Logout(id) =>
      if id in peers {
        OneChanges(peers, id, LoggedOut(peers[id]));
        EnforcedRegular(r, WithLogout(peers, id));
      }
    case Enforce => EnforcedRegular(r, peers);
    case DropBanned(banned) => DroppedRegular(peers, banned);
  }

  /** While the record stands still, every critical section leaves every live session where
      it may be. */
  lemma EventSettled(r: Record, deleting: UInt16, peers: Peers, event: Event)
    requires ValidChannelRecord(r.channels) && AllTidy(peers) && Settled(r, peers)
    ensures Settled(r, After(r, deleting, r.channels.defaultId, peers, event).peers)
  {
    match event
    case Join(id, instance) =>
      DefaultIsOpen(r, Peer(instance, "", 0, r.channels.defaultId, 0, 1, false, true, false));
    case Leave(id) =>
    case SelfMove(id, channel) =>
      if AfterSelfMove(r, deleting, peers, id, channel).peers != peers {
        MoveHouses(r, peers[id], channel, false);
      }
    case SetVoice(id, muted, deafened) =>
    case ModeratedMove(mod, id, instance, channel, now) =>
      if ModerationCode(r, peers, mod, id, instance, now) == Done {
        ModeratedSettled(r, peers, mod, id, channel, now);
      }
    case Kick(mod, id, instance, now) =>
    case Login(id, uid, expires) =>
      if id in peers && !peers[id].removed {
        EnforcementSettles(r, WithLogin(peers, id, uid, expires));
      }
    case Logout(id) =>
      if id in peers {
        EnforcementSettles(r, WithLogout(peers, id));
      }
    case Enforce => EnforcementSettles(r, peers);
    case DropBanned(banned) =>
  }

  lemma EventKeeps(r: Record, deleting: UInt16, peers: Peers, event: Event)
    requires ValidChannelRecord(r.channels) && Orderly(r, peers)
    ensures Orderly(r, After(r, deleting, r.channels.defaultId, peers, event).peers)
  {
    EventRegular(r, deleting, r.channels.defaultId, peers, event);
    EventSettled(r, deleting, peers, event);
  }

  lemma OneChanges(peers: Peers, id: UInt16, p: Peer)
    requires Regular(peers) && Tidy(p)
    requires p.removed || p.uid == "" || (id in peers && !peers[id].removed && p.uid == peers[id].uid)
    ensures Regular(peers[id := p])
  {
  }

  lemma DroppedRegular(peers: Peers, banned: set<UInt16>)
    requires Regular(peers)
    ensures Regular(Dropped(peers, banned))
  {
  }

  lemma ModeratedRegular(r: Record, peers: Peers, mod: Moderator, id: UInt16, channel: UInt16, now: int)
    requires id in peers && !peers[id].removed && ActorOf(peers, mod, now).Some? && Regular(peers)
    ensures Regular(AfterModerated(r, peers, mod, id, channel, now).peers)
  {
    var ch := ChannelById(r.channels.channels, channel);
    if AfterModerated(r, peers, mod, id, channel, now).peers != peers {
      OneChanges(peers, id, Move(peers[id], channel, ch.value.adminOnly && !Privileged(r, peers[id].uid)).value);
    }
  }

  lemma ModeratedSettled(r: Record, peers: Peers, mod: Moderator, id: UInt16, channel: UInt16, now: int)
    requires id in peers && !peers[id].removed && ActorOf(peers, mod, now).Some?
    requires AllTidy(peers) && Settled(r, peers)
    ensures Settled(r, AfterModerated(r, peers, mod, id, channel, now).peers)
  {
    var ch := ChannelById(r.channels.channels, channel);
    if AfterModerated(r, peers, mod, id, channel, now).peers != peers {
      MoveHouses(r, peers[id], channel, ch.value.adminOnly && !Privileged(r, peers[id].uid));
    }
  }

  lemma LoginReplaces(peers: Peers, id: UInt16, uid: string, expires: int)
    requires Regular(peers) && id in peers && !peers[id].removed
    ensures Regular(WithLogin(peers, id, uid, expires))
  {
    var after := WithLogin(peers, id, uid, expires);
    forall k | k in after && k != id ensures after[k].removed || after[k] == peers[k] {
    }
  }

  /** While the record stands still, so do these facts, over any run. */
  function Ran(r: Record, deleting: UInt16, peers: Peers, events: seq<Event>): Peers {
    if events == [] then peers
    else After(r, deleting, r.channels.defaultId,
             Ran(r, deleting, peers, events[..|events| - 1]), events[|events| - 1]).peers
  }

  lemma {:induction false} RunStaysOrderly(r: Record, deleting: UInt16, peers: Peers, events: seq<Event>)
    requires ValidChannelRecord(r.channels) && Orderly(r, peers)
    ensures Orderly(r, Ran(r, deleting, peers, events))
    decreases |events|
  {
    if events != [] {
      RunStaysOrderly(r, deleting, peers, events[..|events| - 1]);
      EventKeeps(r, deleting, Ran(r, deleting, peers, events[..|events| - 1]), events[|events| - 1]);
    }
  }

  /** An ordinary session in a restricted channel. */
  ghost predicate Guesting(r: Record, p: Peer) {
    var ch := ChannelById(r.channels.channels, p.channel);
    !Privileged(r, p.uid) && ch.Some? && ch.value.adminOnly
  }

  /** A moderator with a live session in the channel brought the session there. */
  ghost predicate Escorted(r: Record, peers: Peers, event: Event, id: UInt16, q: Peer)
    requires id in peers
  {
    && event.ModeratedMove? && event.id == id && q.temporary == event.channel == q.channel
    && ActorOf(peers, event.mod, event.now).Some?
    && var actor := ActorOf(peers, event.mod, event.now).value;
    && Authorized(r, actor, event.now, Members, Write, Holder(RoleOf(r, peers[id].uid)))
    && Present(peers, actor, event.channel, event.now)
  }

  /** The only way an ordinary session gets into a restricted channel is a temporary
      admission by somebody authorized who is there. */
  lemma RestrictedEntry(r: Record, deleting: UInt16, peers: Peers, event: Event, id: UInt16, q: Peer)
    requires ValidChannelRecord(r.channels) && id in peers && Tidy(peers[id])
    requires var after := After(r, deleting, r.channels.defaultId, peers, event).peers;
      id in after && after[id] == q
    requires q.channel != peers[id].channel && Guesting(r, q)
    ensures Escorted(r, peers, event, id, q)
  {
    match event
    case ModeratedMove(mod, target, instance, channel, now) =>
      ModeratedEntry(r, peers, event, id, q);
    case SelfMove(target, channel) =>
      SelfMoveNeedsRights(r, deleting, peers, target, channel, id, q);
      assert false;
    case _ =>
      OthersGoHome(r, deleting, peers, event, id, q);
      DefaultUnrestricted(r);
      assert false;
  }

  lemma ModeratedEntry(r: Record, peers: Peers, event: Event, id: UInt16, q: Peer)
    requires id in peers && event.ModeratedMove?
    requires ModerationCode(r, peers, event.mod, event.id, event.instance, event.now) == Done
    requires AfterModerated(r, peers, event.mod, event.id, event.channel, event.now).peers[id] == q
    requires q.channel != peers[id].channel && Guesting(r, q)
    ensures Escorted(r, peers, event, id, q)
  {
  }

  lemma OthersGoHome(r: Record, deleting: UInt16, peers: Peers, event: Event, id: UInt16, q: Peer)
    requires id in peers && !event.ModeratedMove? && !event.SelfMove?
    requires var after := After(r, deleting, r.channels.defaultId, peers, event).peers;
      id in after && after[id] == q
    ensures q.channel in {peers[id].channel, r.channels.defaultId}
  {
    match event
    case Login(target, uid, expires) =>
      if target in peers {
        EnforcedHome(r, WithLogin(peers, target, uid, expires), id);
      }
    case Logout(target) =>
      if target in peers {
        EnforcedHome(r, WithLogout(peers, target), id);
      }
    case Enforce => EnforcedHome(r, peers, id);
    case Kick(mod, target, instance, now) =>
    case SetVoice(_, _, _) =>
    case Join(_, _) =>
    case Leave(_) =>
    case DropBanned(_) =>
  }

  lemma SelfMoveNeedsRights(
    r: Record, deleting: UInt16, peers: Peers, target: UInt16, channel: UInt16, id: UInt16, q: Peer)
    requires ValidChannelRecord(r.channels) && id in peers && Tidy(peers[id])
    requires AfterSelfMove(r, deleting, peers, target, channel).peers[id] == q
    ensures q.channel == peers[id].channel || !Guesting(r, q)
  {
  }

  lemma EnforcedHome(r: Record, peers: Peers, id: UInt16)
    requires id in peers
    ensures Enforced(r, peers)[id].channel in {peers[id].channel, r.channels.defaultId}
  {
  }

  lemma DefaultUnrestricted(r: Record)
    requires ValidChannelRecord(r.channels)
    ensures var ch := ChannelById(r.channels.channels, r.channels.defaultId);
      ch.Some? && !ch.value.adminOnly
  {
    var ch := ChannelById(r.channels.channels, r.channels.defaultId);
    var i :| 0 <= i < |r.channels.channels| && r.channels.channels[i] == ch.value;
  }

  /** A session that changes its account or gives it up keeps no temporary admission and
      does not stay in a restricted channel on the strength of one. */
  lemma AccountChangeEndsAdmission(r: Record, deleting: UInt16, peers: Peers, event: Event, id: UInt16, q: Peer)
    requires ValidChannelRecord(r.channels) && Orderly(r, peers) && id in peers && !peers[id].removed
    requires event == Logout(id) || (event.Login? && event.id == id && event.uid != peers[id].uid)
    requires q == After(r, deleting, r.channels.defaultId, peers, event).peers[id]
    ensures q.temporary == 0 && q.uid == (if event.Login? then event.uid else "")
    ensures q.removed || !Guesting(r, q)
  {
    var before := if event.Login? then WithLogin(peers, id, event.uid, event.expires) else WithLogout(peers, id);
    EnforcedFate(r, before[id]);
    assert q == EnforcedOne(r, before[id]);
    NoChannelZero(r);
  }

  lemma NoChannelZero(r: Record)
    requires ValidChannelRecord(r.channels)
    ensures forall c :: c in r.channels.channels ==> c.id != 0
  {
    forall c | c in r.channels.channels ensures c.id != 0 {
      var i :| 0 <= i < |r.channels.channels| && r.channels.channels[i] == c;
      assert ValidChannel(r.channels.channels[i]);
    }
  }

  // ---- The server's own loops ---------------------------------------------

  class Room {
    var peers: Peers
    var deleting: UInt16

    constructor ()
      ensures peers == map[] && deleting == 0
    {
      peers, deleting := map[], 0;
    }

    /** enforceChannelAccessLocked visits the sessions in no particular order. */
    method EnforceAccess(r: Record)
      modifies this`peers
      ensures peers == Enforced(r, old(peers))
    {
      var todo := peers.Keys;
      while todo != {}
        invariant todo <= peers.Keys == old(peers).Keys
        invariant forall id :: id in peers ==>
          peers[id] == if id in todo then old(peers)[id] else EnforcedOne(r, old(peers)[id])
        decreases todo
      {
        var id :| id in todo;
        todo := todo - {id};
        var p := peers[id];
        if p.removed {
          continue;
        }
        var ch := ChannelById(r.channels.channels, p.channel);
        if ch.Some? && CanEnter(r, p, ch.value) {
          continue;
        }
        var moved := Move(p, r.channels.defaultId, false);
        peers := peers[id := if moved.Some? then moved.value else Removed(p)];
      }
    }

    /** The critical section that follows a successful Issue. */
    method Login(r: Record, id: UInt16, uid: string, expires: int) returns (ok: bool, replaced: set<UInt16>)
      modifies this`peers
      ensures ok == (id in old(peers) && !old(peers)[id].removed)
      ensures peers == After(r, deleting, r.channels.defaultId, old(peers), Event.Login(id, uid, expires)).peers
      ensures ok ==>
        replaced == set k | k in old(peers) && k != id && !old(peers)[k].removed && old(peers)[k].uid == uid
    {
      if id !in peers || peers[id].removed {
        return false, {};
      }
      replaced := {};
      var todo := peers.Keys;
      while todo != {}
        invariant todo <= peers.Keys == old(peers).Keys
        invariant forall k :: k in peers ==>
          peers[k] == if k in todo then old(peers)[k] else Replaced(old(peers), id, uid)[k]
        invariant replaced ==
          set k | k in old(peers) && k !in todo && k != id && !old(peers)[k].removed && old(peers)[k].uid == uid
        decreases todo
      {
        var k :| k in todo;
        todo := todo - {k};
        if k != id && !peers[k].removed && peers[k].uid == uid {
          peers := peers[k := Removed(peers[k])];
          replaced := replaced + {k};
        }
      }
      assert peers == Replaced(old(peers), id, uid);
      peers := peers[id := LoggedIn(peers[id], uid, expires)];
      EnforceAccess(r);
      ok := true;
    }

    /** The search for the moderator's own session in the restricted channel. */
    method FindPresent(uid: string, channel: UInt16, now: int) returns (present: bool)
      ensures present == Present(peers, uid, channel, now)
    {
      present := false;
      var todo := peers.Keys;
      while todo != {}
        invariant todo <= peers.Keys
        invariant !present
        invariant forall id :: id in peers && id !in todo ==> !IsPresent(peers[id], uid, channel, now)
        decreases todo
      {
        var id :| id in todo;
        todo := todo - {id};
        if IsPresent(peers[id], uid, channel, now) {
          return true;
        }
      }
    }
  }
}
