/** The 128 KiB limit on the stored record (internal/server/store.go): what always fits, and
    that the field checks alone do not guarantee it. */
module RecordSize {
  import opened Common
  import opened Resources

  // ---- Bounds on the parts ------------------------------------------------

  lemma DigitsBelow(n: int)
    ensures 0 <= n < 100_000 ==> Digits(n) <= 5
    ensures 0 <= n < 10_000_000_000 ==> Digits(n) <= 10
  {
    if 0 <= n < 10_000_000_000 {
      SmallDigits(n, 10);
    }
    if 0 <= n < 100_000 {
      SmallDigits(n, 5);
    }
  }

  function Pow10(k: nat): nat {
    if k == 0 then 1 else 10 * Pow10(k - 1)
  }

  lemma {:induction false} SmallDigits(n: int, k: nat)
    requires k > 0 && 0 <= n < Pow10(k)
    ensures Digits(n) <= k
  {
    if n >= 10 {
      SmallDigits(n / 10, k - 1);
    }
  }

  lemma StampBounds(t: int)
    ensures 20 <= StampSize(t) <= 30
  {
  }

  /** A list of short elements is short. */
  lemma {:induction false} ListBelow(sizes: seq<nat>, most: nat)
    requires forall i :: 0 <= i < |sizes| ==> sizes[i] < most
    ensures ListSize(sizes) <= |sizes| * most
  {
    if sizes != [] {
      var n := |sizes| - 1;
      ListBelow(sizes[..n], most);
      assert (n + 1) * most == n * most + most;
    }
  }

  /** The channel list: what the text budget allows, escaped, plus the frames. */
  lemma {:induction false} ChannelListBelow(channels: seq<Channel>)
    requires forall i :: 0 <= i < |channels| ==> ValidChannel(channels[i])
    ensures ListSize(ChannelSizes(channels)) <= 74 * |channels| + 6 * TextSize(channels)
  {
    if channels != [] {
      var n := |channels| - 1;
      var c := channels[n];
      ChannelListBelow(channels[..n]);
      assert ChannelSizes(channels)[..n] == ChannelSizes(channels[..n]);
      DigitsBelow(c.id);
      DigitsBelow(c.bitrate);
      assert ValidChannel(channels[n]);
    }
  }

  lemma ChannelsBelow(r: ChannelRecord)
    requires ValidChannelRecord(r)
    ensures ChannelsSize(r) <= 60 + 74 * 64 + 6 * CHANNEL_TEXT_BUDGET
  {
    ChannelListBelow(r.channels);
    DigitsBelow(r.next);
    DigitsBelow(r.defaultId);
  }

  lemma AdminsBelow(owner: string, admins: seq<string>)
    requires ValidAdmins(owner, admins)
    ensures AdminsSize(admins) <= 12 + 67 * 64
  {
    ListBelow(AdminSizes(admins), 67);
  }

  lemma BansBelow(owner: string, bans: seq<Ban>)
    requires ValidBans(owner, bans)
    ensures BansSize(bans) <= 10 + 1335 * |bans|
  {
    forall i | 0 <= i < |bans| ensures BanSizes(bans)[i] < 1335 {
      StampBounds(bans[i].expires);
      assert ValidReason(bans[i].reason);
    }
    ListBelow(BanSizes(bans), 1335);
  }

  lemma SettingsBelow(settings: Option<Settings>)
    requires settings.Some? ==> ValidSettings(settings.value)
    ensures SettingsSize(settings) <= 101 + 600 + 40
  {
    if settings.Some? {
      DigitsBelow(settings.value.maxClients);
      DigitsBelow(settings.value.maxMessages);
      DigitsBelow(settings.value.maxBytes);
      DigitsBelow(settings.value.maxAge);
    }
  }

  lemma ClaimBelow(r: Record)
    requires ValidFields(r)
    ensures OwnerSize(r.owner) + ClaimSize(r.claim) <= 11 + 64 + 94
  {
    if r.claim.Some? {
      StampBounds(r.claim.value.expires);
    }
  }

  /** Up to 16 bans, whatever the rest says, a record that passes the field checks fits. */
  lemma FewBansFit(r: Record)
    requires ValidFields(r) && |r.bans| <= 16
    ensures ValidRecord(r)
  {
    ChannelsBelow(r.channels);
    ClaimBelow(r);
    AdminsBelow(r.owner, r.admins);
    BansBelow(r.owner, r.bans);
    SettingsBelow(r.settings);
  }

  // ---- Exact changes ------------------------------------------------------

  lemma ListPush(sizes: seq<nat>, x: nat)
    ensures ListSize(sizes + [x]) == ListSize(sizes) + x + if sizes == [] then 0 else 1
  {
    assert (sizes + [x])[..|sizes|] == sizes;
  }

  lemma {:induction false} ListFront(x: nat, sizes: seq<nat>)
    ensures ListSize([x] + sizes) == x + ListSize(sizes) + if sizes == [] then 0 else 1
  {
    if sizes == [] {
      assert [x] + sizes == [] + [x];
      ListPush([], x);
    } else {
      var n := |sizes| - 1;
      ListFront(x, sizes[..n]);
      assert [x] + sizes == ([x] + sizes[..n]) + [sizes[n]];
      ListPush([x] + sizes[..n], sizes[n]);
    }
  }

  lemma {:induction false} UniformList(sizes: seq<nat>, x: nat)
    requires sizes != [] && forall i :: 0 <= i < |sizes| ==> sizes[i] == x
    ensures ListSize(sizes) == |sizes| * (x + 1) - 1
  {
    var n := |sizes| - 1;
    if n == 0 {
      assert sizes[..0] == [];
    } else {
      UniformList(sizes[..n], x);
      assert (n + 1) * (x + 1) == n * (x + 1) + (x + 1);
    }
  }

  /** Adding a ban costs its own size and a comma, or the whole list when it is the first. */
  lemma BansPush(bans: seq<Ban>, b: Ban)
    ensures BansSize(bans + [b]) == BansSize(bans) + BanSize(b) + if bans == [] then 10 else 1
  {
    assert BanSizes(bans + [b]) == BanSizes(bans) + [BanSize(b)];
    ListPush(BanSizes(bans), BanSize(b));
  }

  lemma BansFront(b: Ban, bans: seq<Ban>)
    ensures BansSize([b] + bans) == BansSize(bans) + BanSize(b) + if bans == [] then 10 else 1
  {
    assert BanSizes([b] + bans) == [BanSize(b)] + BanSizes(bans);
    ListFront(BanSize(b), BanSizes(bans));
  }

  /** What n administrators cost. */
  function AdminBytes(n: nat): nat {
    if n == 0 then 0 else 11 + 67 * n
  }

  lemma AdminsExact(owner: string, admins: seq<string>)
    requires ValidAdmins(owner, admins)
    ensures AdminsSize(admins) == AdminBytes(|admins|)
  {
    if admins != [] {
      UniformList(AdminSizes(admins), 66);
    }
  }
}
