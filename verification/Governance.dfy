/** Who may change what: roles, the fixed policy table, the one-use owner claim, admin
    delegation and bans (internal/server/authorization.go, ownership.go, admin_members.go). */
module Governance {
  import opened Common
  import opened Resources
  import opened RecordSize

  datatype Role = Guest | Member | Admin | Owner

  datatype Object = Panel | Channels | Members | Roles | ServerSettings | Bans

  datatype Act = Read | Write

  datatype Target = Anything | Holder(role: Role)

  datatype Policy = Policy(subject: Role, object': Object, act: Act, target: Target)

  const POLICIES: seq<Policy> := [
    Policy(Admin, Panel, Read, Anything),
    Policy(Admin, Channels, Write, Anything),
    Policy(Admin, Members, Write, Holder(Member)),
    Policy(Admin, Members, Write, Holder(Guest)),
    Policy(Owner, Members, Write, Holder(Admin)),
    Policy(Owner, Roles, Write, Anything),
    Policy(Owner, ServerSettings, Write, Anything),
    Policy(Owner, Bans, Write, Holder(Member)),
    Policy(Owner, Bans, Write, Holder(Guest)),
    Policy(Owner, Bans, Write, Holder(Admin))
  ]

  function RoleOf(r: Record, identity: string): Role {
    if identity == "" then Guest
    else if identity == r.owner then Owner
    else if identity in r.admins then Admin
    else Member
  }

  predicate IsBanned(r: Record, identity: string, now: int) {
    exists i :: 0 <= i < |r.bans| && r.bans[i].identity == identity && now < r.bans[i].expires
  }

  /** An owner is also an admin; a policy for anything covers every target. */
  predicate Matches(p: Policy, role: Role, object': Object, act: Act, target: Target) {
    && (role == p.subject || (role == Owner && p.subject == Admin))
    && p.object' == object' && p.act == act
    && (p.target == Anything || p.target == target)
  }

  predicate Authorized(r: Record, actor: string, now: int, object': Object, act: Act, target: Target) {
    && ValidIdentity(actor) && !IsBanned(r, actor, now)
    && exists i :: 0 <= i < |POLICIES| && Matches(POLICIES[i], RoleOf(r, actor), object', act, target)
  }

  // ---- Drafts -------------------------------------------------------------

  datatype Change =
    | ProvisionClaim(replace: bool, digest: string)
    | ClaimOwner(identity: string, tokenMatches: bool)
    | SetRole(actor: string, identity: string, role: Role)
    | SetBan(actor: string, identity: string, reason: Text, ttl: int, lift: bool)
    | PutSettings(actor: string, settings: Settings, connected: int)
    | InitializeSettings(settings: Settings)
    | InitializeAuthentication
    | PutChannels(actor: string, channels: ChannelRecord)

  const MINUTE: int := 60 * 1_000_000_000
  const DAY: int := 24 * 60 * MINUTE

  function Draft(r: Record, change: Change, now: int): Option<Record> {
    match change
    case ProvisionClaim(replace, digest) =>
      if r.owner != "" || (!replace && r.claim.Some?) then None
      else Some(r.(claim := Some(Claim(digest, now + DAY))))
    case ClaimOwner(identity, tokenMatches) =>
      if !ValidIdentity(identity) || r.owner != "" || r.claim.None? || now >= r.claim.value.expires || !tokenMatches
      then None
      else Some(r.(owner := identity, claim := None))
    case SetRole(actor, identity, role) =>
      if !Authorized(r, actor, now, Roles, Write, Anything) then None
      else AssignAdmin(r, identity, role, now)
    case SetBan(actor, identity, reason, ttl, lift) =>
      if identity == r.owner || !Authorized(r, actor, now, Bans, Write, Holder(RoleOf(r, identity))) then None
      else if !ValidIdentity(identity) || (!lift && (ttl < MINUTE || ttl > 365 * DAY || !ValidReason(reason))) then None
      else
        var rest := LiveBans(r.bans, identity, now);
        if lift then Some(r.(bans := rest))
        else if |rest| >= MAX_BANS then None
        else Some(r.(bans := rest + [Ban(identity, reason, now + ttl)]))
    case PutSettings(actor, settings, connected) =>
      if !ValidSettings(settings) || !Authorized(r, actor, now, ServerSettings, Write, Anything)
        || settings.maxClients < connected
      then None
      else Some(r.(settings := Some(settings)))
    case InitializeSettings(settings) =>
      if !ValidSettings(settings) then None
      else if r.settings.Some? then Some(r)
      else Some(r.(settings := Some(settings)))
    case InitializeAuthentication => Some(r.(authInitialized := true))
    case PutChannels(actor, channels) =>
      if Authorized(r, actor, now, Channels, Write, Anything) then Some(r.(channels := channels)) else None
  }

  function AssignAdmin(r: Record, identity: string, role: Role, now: int): Option<Record> {
    if !ValidIdentity(identity) || identity == r.owner || (role != Admin && role != Member)
      || (role == Admin && IsBanned(r, identity, now))
    then None
    else if role == Admin && identity !in r.admins && |r.admins| >= MAX_ADMINS then None
    else
      var rest := Without(r.admins, identity);
      Some(r.(admins := if role == Admin then Sorted(rest + [identity]) else rest))
  }

  function Without(ids: seq<string>, identity: string): (out: seq<string>)
    ensures forall x :: x in out <==> x in ids && x != identity
    ensures |out| <= |ids| && (identity in ids ==> |out| < |ids|)
    ensures Distinct(ids) ==> Distinct(out)
  {
    if ids == [] then []
    else if ids[0] == identity then Without(ids[1..], identity)
    else
      var rest := Without(ids[1..], identity);
      DistinctHead(ids);
      DistinctCons(ids[0], rest);
      [ids[0]] + rest
  }

  lemma DistinctHead(ids: seq<string>)
    requires ids != []
    ensures Distinct(ids) ==> ids[0] !in ids[1..] && Distinct(ids[1..])
  {}

  lemma DistinctCons(x: string, ids: seq<string>)
    ensures Distinct(ids) && x !in ids ==> Distinct([x] + ids)
  {}

  predicate Distinct(ids: seq<string>) {
    forall i, j :: 0 <= i < j < |ids| ==> ids[i] != ids[j]
  }

  predicate AtMost(a: string, b: string) {
    a == [] || (b != [] && (a[0] < b[0] || (a[0] == b[0] && AtMost(a[1..], b[1..]))))
  }

  function Inserted(ids: seq<string>, x: string): (out: seq<string>)
    ensures |out| == |ids| + 1
    ensures forall y :: y in out <==> y in ids || y == x
    ensures Distinct(ids) && x !in ids ==> Distinct(out)
  {
    if ids == [] then [x]
    else if AtMost(x, ids[0]) then
      DistinctCons(x, ids);
      [x] + ids
    else
      var rest := Inserted(ids[1..], x);
      DistinctHead(ids);
      DistinctCons(ids[0], rest);
      [ids[0]] + rest
  }

  function Sorted(ids: seq<string>): (out: seq<string>)
    ensures |out| == |ids|
    ensures forall y :: y in out <==> y in ids
    ensures Distinct(ids) ==> Distinct(out)
  {
    if ids == [] then [] else Inserted(Sorted(ids[1..]), ids[0])
  }

  /** Bans still running, other than this identity's. */
  function LiveBans(bans: seq<Ban>, identity: string, now: int): (out: seq<Ban>)
    ensures forall b :: b in out <==> b in bans && b.identity != identity && now < b.expires
    ensures |out| <= |bans|
    ensures DistinctBans(bans) ==> DistinctBans(out)
  {
    if bans == [] then []
    else if bans[0].identity == identity || now >= bans[0].expires then LiveBans(bans[1..], identity, now)
    else [bans[0]] + LiveBans(bans[1..], identity, now)
  }

  predicate DistinctBans(bans: seq<Ban>) {
    forall i, j :: 0 <= i < j < |bans| ==> bans[i].identity != bans[j].identity
  }

  // ---- What holds in every reachable record -------------------------------

  /** Without an owner nobody has been given or denied anything. */
  ghost predicate UnownedIsBare(r: Record) {
    r.owner == "" ==> r.admins == [] && r.bans == []
  }

  lemma OnlyOwners(r: Record, actor: string, now: int, object': Object, target: Target)
    requires Authorized(r, actor, now, object', Write, target)
    requires object' == Roles || object' == Bans || object' == ServerSettings
    ensures RoleOf(r, actor) == Owner && r.owner == actor && r.owner != ""
  {
    assert ValidIdentity(actor);
  }

  /** Powers come from the owner alone: whatever changes the admins or adds a ban is an
      order of the current owner, and an owner appears only by an unexpired claim. */
  lemma PowersComeFromOwner(r: Record, change: Change, now: int)
    requires Draft(r, change, now).Some?
    ensures var after := Draft(r, change, now).value;
      && (after.admins != r.admins ==> change.SetRole? && change.actor == r.owner != "")
      && (after.bans != r.bans ==> change.SetBan? && change.actor == r.owner != "")
      && (after.owner != r.owner ==>
            change.ClaimOwner? && r.owner == "" && r.claim.Some? && now < r.claim.value.expires
            && change.tokenMatches && after.owner == change.identity && after.claim.None?)
  {
    match change
    case SetRole(actor, _, _) => OnlyOwners(r, actor, now, Roles, Anything);
    case SetBan(actor, identity, _, _, _) => OnlyOwners(r, actor, now, Bans, Holder(RoleOf(r, identity)));
    case _ =>
  }

  lemma BareKept(r: Record, change: Change, now: int)
    requires UnownedIsBare(r) && Draft(r, change, now).Some?
    ensures UnownedIsBare(Draft(r, change, now).value)
  {
    PowersComeFromOwner(r, change, now);
    assert change.ClaimOwner? ==> ValidIdentity(change.identity);
  }

  /** A history in which every commit is one of these drafts. */
  ghost predicate Governed(log: seq<Entry>) {
    && History(log) && UnownedIsBare(log[0].record)
    && forall i :: 0 <= i < |log| - 1 ==> Drafted(log[i].record, log[i + 1].record)
  }

  ghost predicate Drafted(before: Record, after: Record) {
    exists change: Change, now: int :: Draft(before, change, now) == Some(after)
  }

  lemma {:induction false} UnownedStaysBare(log: seq<Entry>, i: nat)
    requires Governed(log) && i < |log|
    ensures UnownedIsBare(log[i].record)
  {
    hide ValidRecord, ValidTransition;
    if i > 0 {
      UnownedStaysBare(log, i - 1);
      assert Drafted(log[i - 1].record, log[i].record);
      var change: Change, now: int :| Draft(log[i - 1].record, change, now) == Some(log[i].record);
      BareKept(log[i - 1].record, change, now);
    }
  }

  /** In every reachable record an accepted claim passes validation, installs the owner
      and consumes the code, and no later claim is ever accepted. */
  lemma ClaimAlwaysValid(log: seq<Entry>, i: nat, identity: string, now: int)
    requires Governed(log) && i < |log|
    requires Draft(log[i].record, ClaimOwner(identity, true), now).Some?
    ensures var after := Draft(log[i].record, ClaimOwner(identity, true), now).value;
      && ValidRecord(after) && ValidTransition(log[i].record, after)
      && after == log[i].record.(owner := identity, claim := None) && after.owner != ""
  {
    UnownedStaysBare(log, i);
    TransitionReflexive(log[i].record);
    assert identity != "" by {
      assert ValidIdentity(identity);
    }
    FewBansFit(log[i].record.(owner := identity, claim := None));
  }

  lemma OneClaimOnly(log: seq<Entry>, i: nat, j: nat, identity: string, token: bool, now: int)
    requires History(log) && i <= j < |log| && log[i].record.owner != ""
    ensures Draft(log[j].record, ClaimOwner(identity, token), now).None?
  {
    OwnerAndDefaultFixed(log, i, j);
  }

  /** Delegation drafts a record that passes every field check and changes the admins by
      exactly that identity. Validation refuses it if and only if the new list of admins
      takes the record over the limit; up to 16 bans it never does. */
  lemma RoleDraftValid(r: Record, actor: string, identity: string, role: Role, now: int)
    requires ValidFields(r) && Draft(r, SetRole(actor, identity, role), now).Some?
    ensures var after := Draft(r, SetRole(actor, identity, role), now).value;
      && ValidFields(after)
      && (forall x :: x in after.admins <==> if x == identity then role == Admin else x in r.admins)
      && (ValidRecord(after)
          <==> EncodedSize(r) + AdminBytes(|after.admins|) <= MAX_RECORD + AdminBytes(|r.admins|))
      && (|r.bans| <= 16 ==> ValidRecord(after))
  {
    var after := Draft(r, SetRole(actor, identity, role), now).value;
    RoleFields(r, actor, identity, role, now, after);
    AdminsExact(r.owner, r.admins);
    AdminsExact(r.owner, after.admins);
    if |r.bans| <= 16 {
      FewBansFit(after);
    }
  }

  lemma RoleFields(r: Record, actor: string, identity: string, role: Role, now: int, after: Record)
    requires ValidFields(r) && Draft(r, SetRole(actor, identity, role), now) == Some(after)
    ensures ValidFields(after) && after == r.(admins := after.admins)
    ensures forall x :: x in after.admins <==> if x == identity then role == Admin else x in r.admins
  {
    var rest := Without(r.admins, identity);
    assert Distinct(r.admins);
    assert Distinct(rest + [identity]);
    forall i | 0 <= i < |after.admins| ensures ValidIdentity(after.admins[i]) && after.admins[i] != r.owner {
      var x := after.admins[i];
      assert x in after.admins;
      if x != identity {
        assert x in r.admins;
      }
    }
  }

  /** A ban drafts a record that passes every field check, after which the identity is
      banned exactly if the ban was not lifted. Validation refuses it if and only if the new
      entry does not fit beside what is left of the list; lifting always fits. */
  lemma BanDraftValid(r: Record, actor: string, identity: string, reason: Text, ttl: int, lift: bool, now: int)
    requires ValidFields(r) && now > 0 && Draft(r, SetBan(actor, identity, reason, ttl, lift), now).Some?
    ensures var after := Draft(r, SetBan(actor, identity, reason, ttl, lift), now).value;
      var rest := LiveBans(r.bans, identity, now);
      && ValidFields(after)
      && (IsBanned(after, identity, now) <==> !lift)
      && (!lift ==>
            (ValidRecord(after) <==>
               EncodedSize(r.(bans := rest)) + BanSize(Ban(identity, reason, now + ttl))
                 + (if rest == [] then 10 else 1) <= MAX_RECORD))
      && (lift && ValidRecord(r) ==> ValidRecord(after))
      && (|after.bans| <= 16 ==> ValidRecord(after))
  {
    var after := Draft(r, SetBan(actor, identity, reason, ttl, lift), now).value;
    var rest := LiveBans(r.bans, identity, now);
    BanFields(r, actor, identity, reason, ttl, lift, now, after);
    hide Draft, ValidFields;
    LiveBansSmaller(r.bans, identity, now);
    if !lift {
      OneMoreBan(r, rest, Ban(identity, reason, now + ttl));
    }
    if |after.bans| <= 16 {
      FewBansFit(after);
    }
  }

  lemma OneMoreBan(r: Record, rest: seq<Ban>, b: Ban)
    ensures EncodedSize(r.(bans := rest + [b]))
      == EncodedSize(r.(bans := rest)) + BanSize(b) + (if rest == [] then 10 else 1)
  {
    BansPush(rest, b);
  }

  /** Dropping bans never makes the record longer. */
  lemma {:induction false} LiveBansSmaller(bans: seq<Ban>, identity: string, now: int)
    ensures BansSize(LiveBans(bans, identity, now)) <= BansSize(bans)
  {
    hide LiveBans, BansSize, BanSize;
    if bans == [] {
      LiveBansNone(identity, now);
    } else {
      LiveBansFirst(bans, identity, now);
      LiveBansSmaller(bans[1..], identity, now);
      assert bans == [bans[0]] + bans[1..];
      BansFront(bans[0], bans[1..]);
      var rest := LiveBans(bans[1..], identity, now);
      BansFront(bans[0], rest);
      BansSizeLeast(rest);
      BansSizeLeast(bans[1..]);
      assert [] + rest == rest;
    }
  }

  lemma BansSizeLeast(bans: seq<Ban>)
    ensures if bans == [] then BansSize(bans) == 0 else BansSize(bans) >= 10
  {
  }

  lemma LiveBansNone(identity: string, now: int)
    ensures LiveBans([], identity, now) == []
  {
  }

  lemma LiveBansFirst(bans: seq<Ban>, identity: string, now: int)
    requires bans != []
    ensures LiveBans(bans, identity, now)
      == (if bans[0].identity != identity && now < bans[0].expires then [bans[0]] else [])
         + LiveBans(bans[1..], identity, now)
  {
  }

  lemma BanFields(
    r: Record, actor: string, identity: string, reason: Text, ttl: int, lift: bool, now: int, after: Record)
    requires ValidFields(r) && now > 0 && Draft(r, SetBan(actor, identity, reason, ttl, lift), now) == Some(after)
    ensures ValidFields(after) && (IsBanned(after, identity, now) <==> !lift)
    ensures var rest := LiveBans(r.bans, identity, now);
      after == r.(bans := if lift then rest else rest + [Ban(identity, reason, now + ttl)])
  {
    hide Authorized, RoleOf, ValidChannelRecord, ValidAdmins, ValidSettings;
    var rest := LiveBans(r.bans, identity, now);
    assert DistinctBans(r.bans);
    forall i | 0 <= i < |rest|
      ensures ValidIdentity(rest[i].identity) && rest[i].identity != r.owner && rest[i].expires != 0
        && ValidReason(rest[i].reason) && rest[i].identity != identity
    {
      assert rest[i] in rest;
      assert rest[i] in r.bans;
    }
    if !lift {
      assert after.bans[|rest|].identity == identity;
    }
  }
}
