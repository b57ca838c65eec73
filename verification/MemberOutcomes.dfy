/** What each membership event comes to: its code, exactly when, and what it does to the
    session, told by the record, the sessions and the event alone (internal/server/server.go,
    admin_members.go and accounts.go; roles from authorization.go). */
module MemberOutcomes {
  import opened Common
  import opened Resources
  import opened Governance
  import opened Membership

  // ---- Who may do what ----------------------------------------------------

  predicate IsOwner(r: Record, uid: string) {
    uid != "" && uid == r.owner
  }

  /** The owner is also an admin. */
  predicate IsStaff(r: Record, uid: string) {
    uid != "" && (uid == r.owner || uid in r.admins)
  }

  predicate InForce(r: Record, uid: string, now: int) {
    exists i :: 0 <= i < |r.bans| && r.bans[i].identity == uid && now < r.bans[i].expires
  }

  /** Admins see the panel, edit channels and moderate guests and members; the owner also
      moderates admins, gives roles, changes settings and bans anyone but itself. */
  predicate Allowed(r: Record, uid: string, object': Object, act: Act, target: Target) {
    match object'
    case Panel => act == Read && IsStaff(r, uid)
    case Channels => act == Write && IsStaff(r, uid)
    case Members =>
      && act == Write
      && ((IsStaff(r, uid) && target in {Holder(Guest), Holder(Member)})
          || (IsOwner(r, uid) && target == Holder(Admin)))
    case Roles => act == Write && IsOwner(r, uid)
    case ServerSettings => act == Write && IsOwner(r, uid)
    case Bans => act == Write && IsOwner(r, uid) && target in {Holder(Guest), Holder(Member), Holder(Admin)}
  }

  /** The policy table decides exactly that, for well-formed identities that are not banned. */
  lemma PolicyExactly(r: Record, actor: string, now: int, object': Object, act: Act, target: Target)
    ensures Authorized(r, actor, now, object', act, target)
      <==> ValidIdentity(actor) && !InForce(r, actor, now) && Allowed(r, actor, object', act, target)
  {
    var role := RoleOf(r, actor);
    if exists i :: 0 <= i < |POLICIES| && Matches(POLICIES[i], role, object', act, target) {
      var i :| 0 <= i < |POLICIES| && Matches(POLICIES[i], role, object', act, target);
      RowGrants(i, role, object', act, target);
    }
    if Granted(role, object', act, target) {
      var i := RowFor(role, object', act, target);
    }
  }

  /** The same by role. */
  predicate Granted(role: Role, object': Object, act: Act, target: Target) {
    match object'
    case Panel => act == Read && role in {Admin, Owner}
    case Channels => act == Write && role in {Admin, Owner}
    case Members =>
      && act == Write
      && ((role in {Admin, Owner} && target in {Holder(Guest), Holder(Member)})
          || (role == Owner && target == Holder(Admin)))
    case Roles => act == Write && role == Owner
    case ServerSettings => act == Write && role == Owner
    case Bans => act == Write && role == Owner && target in {Holder(Guest), Holder(Member), Holder(Admin)}
  }

  lemma RowGrants(i: nat, role: Role, object': Object, act: Act, target: Target)
    requires i < |POLICIES| && Matches(POLICIES[i], role, object', act, target)
    ensures Granted(role, object', act, target)
  {
  }

  lemma RowFor(role: Role, object': Object, act: Act, target: Target) returns (i: nat)
    requires Granted(role, object', act, target)
    ensures i < |POLICIES| && Matches(POLICIES[i], role, object', act, target)
  {
    match object'
    case Panel => i := 0;
    case Channels => i := 1;
    case Members => i := if target == Holder(Member) then 2 else if target == Holder(Guest) then 3 else 4;
    case Roles => i := 5;
    case ServerSettings => i := 6;
    case Bans => i := if target == Holder(Member) then 7 else if target == Holder(Guest) then 8 else 9;
  }

  // ---- Moving about -------------------------------------------------------

  predicate HasLive(peers: Peers, id: UInt16) {
    id in peers && !peers[id].removed
  }

  predicate MayEnter(r: Record, p: Peer, c: Channel) {
    !c.adminOnly || IsStaff(r, p.uid) || p.temporary == c.id
  }

  /** A move needs an epoch to go to. */
  predicate Stuck(p: Peer, channel: UInt16) {
    p.channel != channel && p.epoch == LAST_EPOCH
  }

  /** In the channel, in the next epoch and with the given admission if that is another one. */
  function InChannel(p: Peer, channel: UInt16, temporary: UInt16): Peer
    requires !Stuck(p, channel)
  {
    if p.channel == channel then p else p.(channel := channel, temporary := temporary, epoch := p.epoch + 1)
  }

  lemma Lookup(r: Record, c: Channel)
    requires ValidChannelRecord(r.channels) && c in r.channels.channels
    ensures ChannelById(r.channels.channels, c.id) == Some(c) && c.id in Ids(r.channels.channels)
  {
    var found := ChannelById(r.channels.channels, c.id);
    var i :| 0 <= i < |r.channels.channels| && r.channels.channels[i] == c;
    var j :| 0 <= j < |r.channels.channels| && r.channels.channels[j] == found.value;
  }

  /** A session's own move. */
  lemma SelfMoveExactly(
    r: Record, deleting: UInt16, home: UInt16, peers: Peers, id: UInt16, channel: UInt16, c: Channel)
    requires ValidChannelRecord(r.channels)
    requires channel in Ids(r.channels.channels) ==> c in r.channels.channels && c.id == channel
    ensures After(r, deleting, home, peers, SelfMove(id, channel))
      == if !HasLive(peers, id) then Outcome(Closed, peers)
         else if channel !in Ids(r.channels.channels) || channel == deleting then Outcome(WrongChannel, peers)
         else if !MayEnter(r, peers[id], c) then Outcome(PermissionDenied, peers)
         else if Stuck(peers[id], channel) then Outcome(Closed, peers)
         else Outcome(Done, peers[id := InChannel(peers[id], channel, 0)])
  {
    hide ValidChannelRecord, ChannelById;
    if channel in Ids(r.channels.channels) {
      Lookup(r, c);
    }
    hide Ids;
    if HasLive(peers, id) && channel in Ids(r.channels.channels) && !Stuck(peers[id], channel) {
      assert peers[id].channel == channel ==> peers[id := peers[id]] == peers;
    }
  }

  // ---- Coming, going and muting -------------------------------------------

  /** A session starts as a guest in the home channel, muted, in epoch 1; it leaves alone; and it
      sets exactly the two flags it names. */
  lemma PresenceExactly(
    r: Record, deleting: UInt16, home: UInt16, peers: Peers, id: UInt16, instance: nat, muted: bool, deafened: bool)
    ensures var joined := After(r, deleting, home, peers, Join(id, instance));
      if id in peers then joined == Outcome(Closed, peers) else
      && joined.code == Done && joined.peers.Keys == peers.Keys + {id}
      && (forall k :: k in peers ==> joined.peers[k] == peers[k])
      && var p := joined.peers[id];
      && p.instance == instance && p.uid == "" && p.channel == home && p.temporary == 0 && p.epoch == 1
      && p.muted && !p.deafened && !p.removed
    ensures After(r, deleting, home, peers, Leave(id)) == Outcome(Done, map k | k in peers && k != id :: peers[k])
    ensures After(r, deleting, home, peers, SetVoice(id, muted, deafened))
      == if !HasLive(peers, id) then Outcome(Closed, peers)
         else Outcome(Done, peers[id := peers[id].(muted := muted, deafened := deafened)])
  {
  }

  // ---- Moderation ---------------------------------------------------------

  /** The account the moderator acts for, if its session is live and its login unexpired. */
  function Acting(peers: Peers, mod: Moderator, now: int): Option<string> {
    match mod
    case Console(uid) => Some(uid)
    case Session(id) =>
      if HasLive(peers, id) && (peers[id].uid == "" || now < peers[id].expires) then Some(peers[id].uid) else None
  }

  /** Staff moderates guests and members, the owner also admins, and nobody the owner. */
  predicate MayModerate(r: Record, actor: string, target: string, now: int) {
    && ValidIdentity(actor) && !InForce(r, actor, now)
    && !IsOwner(r, target) && (if IsStaff(r, target) then IsOwner(r, actor) else IsStaff(r, actor))
  }

  lemma MayModerateExactly(r: Record, actor: string, target: string, now: int)
    ensures Authorized(r, actor, now, Members, Write, Holder(RoleOf(r, target))) <==> MayModerate(r, actor, target, now)
  {
    PolicyExactly(r, actor, now, Members, Write, Holder(RoleOf(r, target)));
  }

  /** Why a moderator may not act on a session. */
  function Objection(r: Record, peers: Peers, mod: Moderator, id: UInt16, instance: nat, now: int): Option<Code> {
    var actor := Acting(peers, mod, now);
    if actor.None? then Some(PermissionDenied)
    else if !HasLive(peers, id) || peers[id].instance != instance then Some(NotFound)
    else if !MayModerate(r, actor.value, peers[id].uid, now) then Some(PermissionDenied)
    else None
  }

  lemma ObjectionExactly(r: Record, peers: Peers, mod: Moderator, id: UInt16, instance: nat, now: int)
    ensures var objection := Objection(r, peers, mod, id, instance, now);
      ModerationCode(r, peers, mod, id, instance, now) == if objection.Some? then objection.value else Done
    ensures Objection(r, peers, mod, id, instance, now) != Some(Done)
    ensures Acting(peers, mod, now) == ActorOf(peers, mod, now)
  {
    hide Authorized, MayModerate, RoleOf;
    var actor := Acting(peers, mod, now);
    if actor.Some? && id in peers {
      MayModerateExactly(r, actor.value, peers[id].uid, now);
    }
  }

  /** A kick ends exactly the session named, silencing it. */
  lemma KickExactly(
    r: Record, deleting: UInt16, home: UInt16, peers: Peers, mod: Moderator, id: UInt16, instance: nat, now: int)
    ensures var objection := Objection(r, peers, mod, id, instance, now);
      After(r, deleting, home, peers, Kick(mod, id, instance, now))
        == if objection.Some? then Outcome(objection.value, peers)
           else Outcome(Done, peers[id := peers[id].(removed := true, muted := true, deafened := true)])
  {
    hide ModerationCode, Objection;
    ObjectionExactly(r, peers, mod, id, instance, now);
  }

  /** A live, unexpired session of the account in the channel. */
  ghost predicate IsThere(peers: Peers, uid: string, channel: UInt16, now: int) {
    exists k :: HasLive(peers, k) && peers[k].uid == uid && peers[k].channel == channel && now < peers[k].expires
  }

  /** A move by a moderator: into a restricted channel an ordinary session goes only with a
      temporary admission, which takes a moderator who is there. */
  lemma ModeratedMoveExactly(
    r: Record, deleting: UInt16, home: UInt16, peers: Peers, mod: Moderator, id: UInt16, instance: nat,
    channel: UInt16, c: Channel, now: int)
    requires ValidChannelRecord(r.channels)
    requires channel in Ids(r.channels.channels) ==> c in r.channels.channels && c.id == channel
    ensures var objection := Objection(r, peers, mod, id, instance, now);
      After(r, deleting, home, peers, ModeratedMove(mod, id, instance, channel, now))
        == if objection.Some? then Outcome(objection.value, peers)
           else if channel !in Ids(r.channels.channels) then Outcome(Invalid, peers)
           else
             var admitted := c.adminOnly && !IsStaff(r, peers[id].uid);
             if admitted && !IsThere(peers, Acting(peers, mod, now).value, channel, now)
             then Outcome(PermissionDenied, peers)
             else if Stuck(peers[id], channel) then Outcome(Invalid, peers)
             else Outcome(Done, peers[id := InChannel(peers[id], channel, if admitted then channel else 0)])
  {
    hide ModerationCode, Objection, ValidChannelRecord, ChannelById, MayModerate, Acting;
    ObjectionExactly(r, peers, mod, id, instance, now);
    if channel in Ids(r.channels.channels) {
      Lookup(r, c);
    }
    hide Ids;
    if Acting(peers, mod, now).Some? {
      ThereExactly(peers, Acting(peers, mod, now).value, channel, now);
    }
  }

  lemma ThereExactly(peers: Peers, uid: string, channel: UInt16, now: int)
    ensures Present(peers, uid, channel, now) <==> IsThere(peers, uid, channel, now)
  {
    if IsThere(peers, uid, channel, now) {
      var k :| HasLive(peers, k) && peers[k].uid == uid && peers[k].channel == channel && now < peers[k].expires;
      assert IsPresent(peers[k], uid, channel, now);
    }
  }

  // ---- Logging in and out, and enforcement --------------------------------

  predicate Rightful(r: Record, p: Peer) {
    exists c :: c in r.channels.channels && c.id == p.channel && MayEnter(r, p, c)
  }

  function Ended(p: Peer): Peer {
    p.(removed := true, muted := true, deafened := true)
  }

  /** After enforcement a session is as it was, if it is removed or may be where it is; else
      it is in the default channel in its next epoch, or ended when it has none. */
  function Sheltered(r: Record, p: Peer): Peer {
    if p.removed || Rightful(r, p) then p
    else if Stuck(p, r.channels.defaultId) then Ended(p)
    else InChannel(p, r.channels.defaultId, 0)
  }

  lemma EnforcedExactly(r: Record, p: Peer)
    requires ValidChannelRecord(r.channels)
    ensures EnforcedOne(r, p) == Sheltered(r, p)
  {
    hide ValidChannelRecord, ChannelById, Sheltered, Move, EnforcedOne, Rightful, Housed;
    HousedExactly(r, p);
    EnforcedFate(r, p);
    ShelteredCases(r, p, EnforcedOne(r, p));
  }

  lemma HousedExactly(r: Record, p: Peer)
    requires ValidChannelRecord(r.channels)
    ensures Housed(r, p) <==> Rightful(r, p)
  {
    hide ValidChannelRecord;
    if p.channel in Ids(r.channels.channels) {
      var c :| c in r.channels.channels && c.id == p.channel;
      Lookup(r, c);
    }
    hide ChannelById;
    if Rightful(r, p) {
      var c :| c in r.channels.channels && c.id == p.channel && MayEnter(r, p, c);
      Lookup(r, c);
    }
  }

  lemma DefaultIsRightful(r: Record, p: Peer)
    requires ValidChannelRecord(r.channels) && p.channel == r.channels.defaultId
    ensures Rightful(r, p)
  {
    DefaultIsOpen(r, p);
    HousedExactly(r, p);
  }

  lemma ShelteredCases(r: Record, p: Peer, q: Peer)
    requires ValidChannelRecord(r.channels)
    requires q == p <==> p.removed || Rightful(r, p)
    requires q != p && p.epoch < LAST_EPOCH ==>
      q == p.(channel := r.channels.defaultId, temporary := 0, epoch := p.epoch + 1)
    requires q != p && p.epoch == LAST_EPOCH ==> q == Ended(p)
    ensures q == Sheltered(r, p)
  {
    hide ValidChannelRecord, Rightful;
    if p.channel == r.channels.defaultId {
      DefaultIsRightful(r, p);
    }
  }

  /** The session that logs in has the account, its term and the next 32-bit epoch, and keeps a
      temporary admission only under the same account; the account's other live sessions end. */
  function LoginOf(peers: Peers, id: UInt16, uid: string, expires: int, k: UInt16): Peer
    requires k in peers
  {
    var p := peers[k];
    if k == id then
      p.(uid := uid, expires := expires, epoch := if p.epoch == LAST_EPOCH then 0 else p.epoch + 1,
         temporary := if p.uid == uid then p.temporary else 0)
    else if !p.removed && p.uid == uid then Ended(p)
    else p
  }

  /** One that logs out is a muted guest without admission in the next 32-bit epoch. */
  function LogoutOf(peers: Peers, id: UInt16, k: UInt16): Peer
    requires k in peers
  {
    var p := peers[k];
    if k == id then
      p.(uid := "", expires := 0, temporary := 0, muted := true,
         epoch := if p.epoch == LAST_EPOCH then 0 else p.epoch + 1)
    else p
  }

  lemma PassExactly(r: Record, before: Peers, after: Peers)
    requires ValidChannelRecord(r.channels) && after == Enforced(r, before)
    ensures after.Keys == before.Keys && forall k :: k in before ==> after[k] == Sheltered(r, before[k])
  {
    hide ValidChannelRecord, Sheltered, EnforcedOne;
    forall k | k in before ensures after[k] == Sheltered(r, before[k]) {
      EnforcedExactly(r, before[k]);
    }
  }

  /** What a login does to every session. */
  lemma LoginExactly(
    r: Record, deleting: UInt16, home: UInt16, peers: Peers, id: UInt16, uid: string, expires: int, o: Outcome)
    requires ValidChannelRecord(r.channels) && o == After(r, deleting, home, peers, Login(id, uid, expires))
    ensures !HasLive(peers, id) ==> o == Outcome(Closed, peers)
    ensures HasLive(peers, id) ==>
      && o.code == Done && o.peers.Keys == peers.Keys
      && forall k :: k in peers ==> o.peers[k] == Sheltered(r, LoginOf(peers, id, uid, expires, k))
  {
    hide ValidChannelRecord, Sheltered, EnforcedOne, Enforced;
    if HasLive(peers, id) {
      var base := WithLogin(peers, id, uid, expires);
      PassExactly(r, base, o.peers);
      forall k | k in peers ensures base[k] == LoginOf(peers, id, uid, expires, k) {
      }
    }
  }

  /** What a logout does to every session. */
  lemma LogoutExactly(r: Record, deleting: UInt16, home: UInt16, peers: Peers, id: UInt16, o: Outcome)
    requires ValidChannelRecord(r.channels) && o == After(r, deleting, home, peers, Logout(id))
    ensures id !in peers ==> o == Outcome(Closed, peers)
    ensures id in peers ==>
      && o.code == Done && o.peers.Keys == peers.Keys
      && forall k :: k in peers ==> o.peers[k] == Sheltered(r, LogoutOf(peers, id, k))
  {
    hide ValidChannelRecord, Sheltered, EnforcedOne, Enforced;
    if id in peers {
      var base := WithLogout(peers, id);
      PassExactly(r, base, o.peers);
      forall k | k in peers ensures base[k] == LogoutOf(peers, id, k) {
      }
    }
  }

  /** What enforcement and the removal of banned sessions do. */
  lemma PassesExactly(r: Record, deleting: UInt16, home: UInt16, peers: Peers, banned: set<UInt16>)
    requires ValidChannelRecord(r.channels)
    ensures var o := After(r, deleting, home, peers, Enforce);
      && o.code == Done && o.peers.Keys == peers.Keys
      && forall k :: k in peers ==> o.peers[k] == Sheltered(r, peers[k])
    ensures var o := After(r, deleting, home, peers, DropBanned(banned));
      && o.code == Done && o.peers.Keys == peers.Keys
      && forall k :: k in peers ==>
           o.peers[k] == if k in banned && !peers[k].removed then Ended(peers[k]) else peers[k]
  {
    hide ValidChannelRecord, Sheltered, EnforcedOne, Enforced;
    PassExactly(r, peers, Enforced(r, peers));
  }
}
