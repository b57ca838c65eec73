/** A record at the limit: every field check passes, the owner's orders are drafted without
    an error, and the store then refuses them (internal/server/store.go). */
module RecordLimit {
  import opened Common
  import opened Resources
  import opened RecordSize
  import opened Governance
  import ChannelEdits

  // ---- The record ---------------------------------------------------------

  function HexDigit(d: nat): char
    requires d < 16
  {
    if d < 10 then '0' + d as char else 'a' + (d - 10) as char
  }

  /** Distinct identities. */
  function Identity(i: nat): string
    requires i < 256
  {
    seq(62, k => '0') + [HexDigit(i / 16), HexDigit(i % 16)]
  }

  lemma Identities(i: nat, j: nat)
    requires i < 256 && j < 256
    ensures ValidIdentity(Identity(i)) && Identity(i) != ""
    ensures Identity(i) == Identity(j) ==> i == j
  {
    assert Identity(i)[62] == HexDigit(i / 16) && Identity(i)[63] == HexDigit(i % 16);
    assert Identity(j)[62] == HexDigit(j / 16) && Identity(j)[63] == HexDigit(j % 16);
  }

  const SECOND: int := 1_000_000_000
  const TOMORROW: int := 86_400 * SECOND

  /** 200 characters that each take 6 bytes in JSON, and a reason that fills the rest. */
  const Long: Text := Text(200, 200, 1200, true)
  const Filler: Text := Text(200, 200, 771, true)

  function BanOf(i: nat): Ban
    requires i < 99
  {
    Ban(Identity(i), if i < 98 then Long else Filler, TOMORROW)
  }

  function Bans(n: nat): (bans: seq<Ban>)
    requires n <= 99
    ensures |bans| == n && forall i :: 0 <= i < n ==> bans[i] == BanOf(i)
  {
    seq(n, i requires 0 <= i < n => BanOf(i))
  }

  const Lobby: Channel := Channel(1, Text(4, 4, 4, true), Text(0, 0, 0, true), 32000, false)

  function Full(): Record {
    Record(ChannelRecord(2, 1, [Lobby]), Identity(255), None, [], Bans(99), None, false)
  }

  // ---- It is exactly full -------------------------------------------------

  lemma FullFields()
    ensures ValidFields(Full())
  {
    var r := Full();
    Identities(255, 255);
    assert ValidChannelRecord(r.channels) by {
      assert Lobby in [Lobby];
      assert [Lobby][..0] == [] && TextSize([Lobby]) == 4;
    }
    forall i | 0 <= i < 99 ensures ValidIdentity(r.bans[i].identity) && r.bans[i].identity != r.owner {
      Identities(i, 255);
    }
    forall i, j | 0 <= i < j < 99 ensures r.bans[i].identity != r.bans[j].identity {
      Identities(i, j);
    }
  }

  lemma StampIsShort(seconds: int)
    ensures StampSize(seconds * SECOND) == 20
  {
    assert (seconds * SECOND) % SECOND == 0;
  }

  lemma LongBans()
    ensures BansSize(Bans(98)) == 10 + 98 * 1325 - 1
  {
    StampIsShort(86_400);
    forall i | 0 <= i < 98 ensures BanSizes(Bans(98))[i] == 1324 {
      Identities(i, i);
    }
    UniformList(BanSizes(Bans(98)), 1324);
  }

  lemma FullBans()
    ensures BansSize(Bans(99)) == 10 + 98 * 1325 + 895
  {
    LongBans();
    StampIsShort(86_400);
    Identities(98, 98);
    assert Bans(99) == Bans(98) + [BanOf(98)];
    BansPush(Bans(98), BanOf(98));
  }

  lemma FullSize()
    ensures EncodedSize(Full()) == MAX_RECORD
  {
    FullBans();
    Identities(255, 255);
    assert ChannelSizes([Lobby])[..0] == [];
    assert Digits(32000) == 5 by {
      assert Digits(3) == 1 && Digits(32) == 2 && Digits(320) == 3 && Digits(3200) == 4;
    }
    assert ListSize(ChannelSizes([Lobby])) == 73;
  }

  // ---- The owner's orders -------------------------------------------------

  lemma OwnerMay(now: int, object': Object, target: Target, policy: nat)
    requires policy < |POLICIES| && Matches(POLICIES[policy], Owner, object', Write, target)
    ensures Authorized(Full(), Identity(255), now, object', Write, target)
  {
    Identities(255, 255);
    forall i | 0 <= i < 99 ensures Full().bans[i].identity != Identity(255) {
      Identities(i, 255);
    }
  }

  /** A ban, a role and a channel, each drafted without an error and each refused. */
  lemma OrdersAreRefused() returns (ban: Record, role: Record, channel: ChannelRecord)
    ensures ValidRecord(Full())
    ensures Draft(Full(), SetBan(Identity(255), Identity(200), NoReason, MINUTE, false), SECOND) == Some(ban)
    ensures Draft(Full(), SetRole(Identity(255), Identity(200), Admin), SECOND) == Some(role)
    ensures ChannelEdits.Edited(
      Full().channels, ChannelEdits.Create(Text(4, 4, 4, true), Text(0, 0, 0, true), 0, false), {})
      == ChannelEdits.Draft(channel)
    ensures ValidFields(ban) && ValidFields(role) && ValidFields(Full().(channels := channel))
    ensures !ValidRecord(ban) && !ValidRecord(role) && !ValidRecord(Full().(channels := channel))
  {
    FullFields();
    FullSize();
    ban := RefusedBan();
    role := RefusedRole();
    channel := RefusedChannel();
  }

  lemma NobodyElse()
    ensures RoleOf(Full(), Identity(200)) == Member && !IsBanned(Full(), Identity(200), SECOND)
    ensures Identity(200) != Full().owner
  {
    Identities(200, 255);
    forall i | 0 <= i < 99 ensures Full().bans[i].identity != Identity(200) {
      Identities(i, 200);
    }
  }

  /** Nothing has expired and nobody of that name is there, so the whole list stays. */
  lemma {:induction false} OthersLive(bans: seq<Ban>, identity: string)
    requires forall i :: 0 <= i < |bans| ==> bans[i].identity != identity && bans[i].expires == TOMORROW
    ensures LiveBans(bans, identity, SECOND) == bans
  {
    if bans != [] {
      OthersLive(bans[1..], identity);
      assert [bans[0]] + bans[1..] == bans;
    }
  }

  const NoReason: Text := Text(0, 0, 0, true)

  lemma BanIsDrafted(r: Record, actor: string, identity: string, reason: Text, now: int)
    requires identity != r.owner && ValidIdentity(identity) && ValidReason(reason)
    requires Authorized(r, actor, now, Governance.Bans, Write, Holder(RoleOf(r, identity)))
    requires |LiveBans(r.bans, identity, now)| < MAX_BANS
    ensures Draft(r, SetBan(actor, identity, reason, MINUTE, false), now).Some?
  {
    hide Authorized, LiveBans, RoleOf, ValidIdentity, ValidReason;
  }

  lemma WholeListStays()
    ensures LiveBans(Full().bans, Identity(200), SECOND) == Full().bans && |Full().bans| == 99
  {
    forall i | 0 <= i < 99 ensures Full().bans[i].identity != Identity(200) {
      Identities(i, 200);
    }
    OthersLive(Full().bans, Identity(200));
  }

  lemma OwnerMayBan()
    ensures Authorized(Full(), Identity(255), SECOND, Governance.Bans, Write, Holder(Member))
  {
    assert Matches(POLICIES[7], Owner, Governance.Bans, Write, Holder(Member));
    OwnerMay(SECOND, Governance.Bans, Holder(Member), 7);
  }

  lemma DraftedBan() returns (ban: Record)
    ensures Draft(Full(), SetBan(Identity(255), Identity(200), NoReason, MINUTE, false), SECOND) == Some(ban)
    ensures LiveBans(Full().bans, Identity(200), SECOND) == Full().bans
  {
    hide Authorized, LiveBans, Full, Identity, RoleOf, ValidIdentity, Draft;
    NobodyElse();
    Identities(200, 255);
    WholeListStays();
    OwnerMayBan();
    BanIsDrafted(Full(), Identity(255), Identity(200), NoReason, SECOND);
    ban := Draft(Full(), SetBan(Identity(255), Identity(200), NoReason, MINUTE, false), SECOND).value;
  }

  lemma RefusedBan() returns (ban: Record)
    requires ValidFields(Full()) && EncodedSize(Full()) == MAX_RECORD
    ensures Draft(Full(), SetBan(Identity(255), Identity(200), NoReason, MINUTE, false), SECOND) == Some(ban)
    ensures ValidFields(ban) && !ValidRecord(ban)
  {
    hide Draft, Full, Identity, LiveBans, ValidFields, ValidRecord, EncodedSize;
    ban := DraftedBan();
    BanDraftValid(Full(), Identity(255), Identity(200), NoReason, MINUTE, false, SECOND);
    assert Full().(bans := Full().bans) == Full();
  }

  lemma RefusedRole() returns (role: Record)
    requires ValidFields(Full()) && EncodedSize(Full()) == MAX_RECORD
    ensures Draft(Full(), SetRole(Identity(255), Identity(200), Admin), SECOND) == Some(role)
    ensures ValidFields(role) && !ValidRecord(role)
  {
    NobodyElse();
    Identities(200, 255);
    assert Matches(POLICIES[5], Owner, Roles, Write, Anything);
    OwnerMay(SECOND, Roles, Anything, 5);
    role := Draft(Full(), SetRole(Identity(255), Identity(200), Admin), SECOND).value;
    RoleDraftValid(Full(), Identity(255), Identity(200), Admin, SECOND);
    assert Identity(200) in role.admins;
  }

  lemma RefusedChannel() returns (channel: ChannelRecord)
    requires ValidFields(Full()) && EncodedSize(Full()) == MAX_RECORD
    ensures ChannelEdits.Edited(
      Full().channels, ChannelEdits.Create(Text(4, 4, 4, true), Text(0, 0, 0, true), 0, false), {})
      == ChannelEdits.Draft(channel)
    ensures ValidFields(Full().(channels := channel)) && !ValidRecord(Full().(channels := channel))
  {
    var edit := ChannelEdits.Create(Text(4, 4, 4, true), Text(0, 0, 0, true), 0, false);
    var more := Channel(2, Text(4, 4, 4, true), Text(0, 0, 0, true), 32000, false);
    channel := ChannelRecord(3, 1, [Lobby] + [more]);
    assert [Lobby][..0] == [] && TextSize([Lobby]) == 4;
    assert ([Lobby] + [more])[..1] == [Lobby] && TextSize([Lobby] + [more]) == 8;
    assert ChannelSizes([Lobby] + [more]) == ChannelSizes([Lobby]) + [ChannelSize(more)];
    ListPush(ChannelSizes([Lobby]), ChannelSize(more));
    ChannelEdits.EditedValid(Full(), edit, {}, channel);
  }

  // ---- How it comes about -------------------------------------------------

  const NOON: int := TOMORROW - SECOND

  /** The record with its first n bans. */
  function Banned(n: nat): Record
    requires n <= 99
  {
    Full().(bans := Bans(n))
  }

  function Unclaimed(): Record {
    Full().(owner := "", bans := [], claim := Some(Claim(Identity(0), TOMORROW)))
  }

  lemma BannedFields(n: nat)
    requires n <= 99
    ensures ValidFields(Banned(n)) && UnownedIsBare(Unclaimed()) && ValidFields(Unclaimed())
  {
    FullFields();
    Identities(0, 0);
    Identities(255, 255);
    assert forall i :: 0 <= i < n ==> Banned(n).bans[i] == Full().bans[i];
  }

  lemma {:induction false} BannedSize(n: nat)
    requires n <= 99
    ensures EncodedSize(Banned(n)) <= MAX_RECORD
    decreases 99 - n
  {
    if n == 99 {
      FullSize();
      assert Banned(99) == Full();
    } else {
      BannedSize(n + 1);
      assert Bans(n + 1) == Bans(n) + [BanOf(n)];
      BansPush(Bans(n), BanOf(n));
    }
  }

  lemma OwnerMayAlways(n: nat, target: Target)
    requires n <= 99 && target == Holder(Member)
    ensures Authorized(Banned(n), Identity(255), SECOND, Governance.Bans, Write, target)
  {
    assert Matches(POLICIES[7], Owner, Governance.Bans, Write, target);
    Identities(255, 255);
    forall i | 0 <= i < n ensures Banned(n).bans[i].identity != Identity(255) {
      Identities(i, 255);
    }
  }

  lemma OthersStay(n: nat)
    requires n < 99
    ensures LiveBans(Bans(n), Identity(n), SECOND) == Bans(n)
  {
    forall i | 0 <= i < n ensures Bans(n)[i].identity != Identity(n) && Bans(n)[i].expires == TOMORROW {
      Identities(i, n);
    }
    hide Bans, Identity;
    OthersLive(Bans(n), Identity(n));
  }

  lemma StillMember(n: nat)
    requires n < 99
    ensures RoleOf(Banned(n), Identity(n)) == Member && Identity(n) != Banned(n).owner
  {
    hide Bans, Identity;
    Identities(n, 255);
  }

  /** One more ban, ordered by the owner. */
  lemma NextBan(n: nat)
    requires n < 99
    ensures Draft(Banned(n), SetBan(Identity(255), Identity(n), BanOf(n).reason, NOON, false), SECOND)
      == Some(Banned(n + 1))
  {
    hide Authorized, LiveBans, Identity, RoleOf, ValidIdentity, Draft, BanOf;
    Identities(n, n);
    StillMember(n);
    OwnerMayAlways(n, Holder(Member));
    OthersStay(n);
    NextIsDrafted(Banned(n), n);
    assert Bans(n + 1) == Bans(n) + [BanOf(n)];
  }

  lemma NextIsDrafted(r: Record, n: nat)
    requires n < 99 && r == Banned(n) && Identity(n) != r.owner && ValidIdentity(Identity(n))
    requires Authorized(r, Identity(255), SECOND, Governance.Bans, Write, Holder(RoleOf(r, Identity(n))))
    requires LiveBans(r.bans, Identity(n), SECOND) == Bans(n)
    ensures Draft(r, SetBan(Identity(255), Identity(n), BanOf(n).reason, NOON, false), SECOND)
      == Some(r.(bans := Bans(n) + [BanOf(n)]))
  {
    hide Authorized, LiveBans, Identity, RoleOf, ValidIdentity;
  }

  /** The claim, and then n bans. */
  function Story(n: nat): (log: seq<Entry>)
    requires n <= 99
    ensures |log| == n + 2 && log[0] == Entry(1, Unclaimed())
    ensures forall i :: 1 <= i < n + 2 ==> log[i] == Entry(i + 1, Banned(i - 1))
  {
    [Entry(1, Unclaimed())] + seq(n + 1, i requires 0 <= i <= n => Entry(i + 2, Banned(i)))
  }

  lemma ClaimedFirst()
    ensures Draft(Unclaimed(), ClaimOwner(Identity(255), true), SECOND) == Some(Banned(0))
  {
    Identities(255, 255);
    assert Bans(0) == [];
  }

  lemma StoryStep(n: nat, i: nat)
    requires n <= 99 && i < n + 1
    ensures Drafted(Story(n)[i].record, Story(n)[i + 1].record)
    ensures ValidTransition(Story(n)[i].record, Story(n)[i + 1].record)
  {
    if i == 0 {
      ClaimedFirst();
    } else {
      NextBan(i - 1);
    }
    TransitionReflexive(Story(n)[i].record);
  }

  lemma StoryValid(i: nat)
    requires i <= 100
    ensures ValidRecord(Story(99)[i].record)
  {
    if i == 0 {
      BannedFields(0);
      FewBansFit(Unclaimed());
    } else {
      BannedFields(i - 1);
      BannedSize(i - 1);
    }
  }

  lemma StoryStarts()
    ensures UnownedIsBare(Story(99)[0].record) && Story(99)[100].record == Full()
  {
    BannedFields(0);
    assert Banned(99) == Full();
  }

  /** The full record is reached: its owner claims the server and orders 99 bans, each of
      which is drafted from the record before it and passes validation. */
  lemma FullIsReached()
    ensures Governed(Story(99)) && Story(99)[100].record == Full()
  {
    hide ValidRecord, ValidTransition, Drafted, UnownedIsBare, Unclaimed, Banned, Full;
    var log := Story(99);
    StoryStarts();
    forall i | 0 <= i < |log| ensures ValidRecord(log[i].record) {
      StoryValid(i);
    }
    forall i | 0 <= i < |log| - 1
      ensures ValidTransition(log[i].record, log[i + 1].record) && Drafted(log[i].record, log[i + 1].record)
    {
      StoryStep(99, i);
    }
  }
}
