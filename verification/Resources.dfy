/** The server's durable management record (internal/server/store.go): when a record is
    valid, when one may follow another, and what that means over a whole history. */
module Resources {
  import opened Common

  const MAX_CHANNELS: nat := 64
  const CHANNEL_TEXT_BUDGET: nat := 16 * 1024
  const MAX_ADMINS: nat := 64
  const MAX_BANS: nat := 256

  /** The limit on an encoded record. */
  const MAX_RECORD: nat := 128 * 1024

  /** A text field: its length in characters, in bytes and in bytes of JSON, and whether its
      own format check accepts it, apart from length. */
  datatype AnyText = Text(runes: nat, size: nat, encoded: nat, wellFormed: bool)

  /** A character is at least a byte, and at most 6 when it is escaped. */
  type Text = t: AnyText | t.runes <= t.size <= t.encoded <= 6 * t.runes witness Text(0, 0, 0, true)

  const MAX_NAME: nat := 100
  const MAX_REASON: nat := 200

  datatype Channel = Channel(id: UInt16, name: Text, description: Text, bitrate: nat, adminOnly: bool)

  datatype ChannelRecord = ChannelRecord(next: nat, defaultId: UInt16, channels: seq<Channel>)

  /** Times are in nanoseconds. */
  datatype Claim = Claim(digest: string, expires: int)

  datatype Ban = Ban(identity: string, reason: Text, expires: int)

  datatype Settings = Settings(name: Text, maxClients: int, maxMessages: int, maxBytes: int, maxAge: int)

  datatype Record = Record(
    channels: ChannelRecord, owner: string, claim: Option<Claim>,
    admins: seq<string>, bans: seq<Ban>, settings: Option<Settings>, authInitialized: bool)

  // ---- Validity of one record ---------------------------------------------

  predicate ValidIdentity(id: string) {
    |id| == 64 && forall i :: 0 <= i < |id| ==> '0' <= id[i] <= '9' || 'a' <= id[i] <= 'f'
  }

  predicate ValidBitrate(b: nat) {
    b == 0 || (16000 <= b <= 64000 && b % 1000 == 0)
  }

  predicate ValidChannel(c: Channel) {
    && ValidBitrate(c.bitrate) && c.id != 0
    && ValidName(c.name, MAX_NAME) && c.description.wellFormed && c.description.size <= 1024
  }

  predicate ValidName(t: Text, limit: nat) {
    t.wellFormed && t.runes <= limit
  }

  predicate ValidReason(t: Text) {
    t.size == 0 || ValidName(t, MAX_REASON)
  }

  function TextSize(channels: seq<Channel>): nat {
    if channels == [] then 0 else
    TextSize(channels[..|channels| - 1])
      + channels[|channels| - 1].name.size + channels[|channels| - 1].description.size
  }

  function Ids(channels: seq<Channel>): set<UInt16> {
    set c | c in channels :: c.id
  }

  predicate DistinctIds(channels: seq<Channel>) {
    forall i, j :: 0 <= i < j < |channels| ==> channels[i].id != channels[j].id
  }

  predicate ValidChannels(channels: seq<Channel>) {
    && 0 < |channels| <= MAX_CHANNELS
    && (forall i :: 0 <= i < |channels| ==> ValidChannel(channels[i]))
    && DistinctIds(channels)
    && TextSize(channels) <= CHANNEL_TEXT_BUDGET
  }

  predicate ValidChannelRecord(r: ChannelRecord) {
    && ValidChannels(r.channels) && 0 < r.next <= 65536
    && (forall i :: 0 <= i < |r.channels| ==>
          r.channels[i].id < r.next && !(r.channels[i].id == r.defaultId && r.channels[i].adminOnly))
    && r.defaultId in Ids(r.channels)
  }

  predicate ValidSettings(s: Settings) {
    && ValidName(s.name, MAX_NAME) && 1 <= s.maxClients <= 64 && 1 <= s.maxMessages <= 10000
    && 16384 <= s.maxBytes <= 0x1_0000_0000 && 1 <= s.maxAge <= 365 * 24 * 3600
  }

  predicate ValidAdmins(owner: string, admins: seq<string>) {
    && |admins| <= MAX_ADMINS
    && (forall i :: 0 <= i < |admins| ==> ValidIdentity(admins[i]) && admins[i] != owner)
    && forall i, j :: 0 <= i < j < |admins| ==> admins[i] != admins[j]
  }

  predicate ValidBans(owner: string, bans: seq<Ban>) {
    && |bans| <= MAX_BANS
    && (forall i :: 0 <= i < |bans| ==>
          ValidIdentity(bans[i].identity) && bans[i].identity != owner && bans[i].expires != 0
          && ValidReason(bans[i].reason))
    && forall i, j :: 0 <= i < j < |bans| ==> bans[i].identity != bans[j].identity
  }

  /** The field checks of decodeResources. */
  predicate ValidFields(r: Record) {
    && ValidChannelRecord(r.channels)
    && (r.owner != "" ==> ValidIdentity(r.owner) && r.claim.None?)
    && (r.claim.Some? ==> ValidIdentity(r.claim.value.digest) && r.claim.value.expires != 0)
    && (r.settings.Some? ==> ValidSettings(r.settings.value))
    && ValidAdmins(r.owner, r.admins)
    && ValidBans(r.owner, r.bans)
  }

  /** decodeResources: the field checks, and the limit on the encoded record. */
  predicate ValidRecord(r: Record) {
    ValidFields(r) && EncodedSize(r) <= MAX_RECORD
  }

  // ---- The size of the encoded record -------------------------------------

  function Digits(n: int): nat
    decreases if n < 0 then 1 - n else n
  {
    if n < 0 then 1 + Digits(-n) else if n < 10 then 1 else 1 + Digits(n / 10)
  }

  function TrailingZeros(n: nat): nat {
    if n == 0 || n % 10 != 0 then 0 else 1 + TrailingZeros(n / 10)
  }

  /** A time with as many fractional digits as it needs. */
  function StampSize(t: int): nat {
    var fraction := t % 1_000_000_000;
    var zeros := TrailingZeros(fraction);
    20 + if fraction == 0 || zeros > 9 then 0 else 10 - zeros
  }

  function ChannelSize(c: Channel): nat {
    58 + Digits(c.id) + c.name.encoded + c.description.encoded + Digits(c.bitrate) + if c.adminOnly then 4 else 5
  }

  function BanSize(b: Ban): nat {
    40 + |b.identity| + b.reason.encoded + StampSize(b.expires)
  }

  /** Elements and the commas between them. */
  function ListSize(sizes: seq<nat>): nat {
    if sizes == [] then 0
    else ListSize(sizes[..|sizes| - 1]) + sizes[|sizes| - 1] + if |sizes| > 1 then 1 else 0
  }

  function ChannelSizes(channels: seq<Channel>): (sizes: seq<nat>)
    ensures |sizes| == |channels|
    ensures forall i :: 0 <= i < |sizes| ==> sizes[i] == ChannelSize(channels[i])
  {
    seq(|channels|, i requires 0 <= i < |channels| => ChannelSize(channels[i]))
  }

  function BanSizes(bans: seq<Ban>): (sizes: seq<nat>)
    ensures |sizes| == |bans|
    ensures forall i :: 0 <= i < |sizes| ==> sizes[i] == BanSize(bans[i])
  {
    seq(|bans|, i requires 0 <= i < |bans| => BanSize(bans[i]))
  }

  function AdminSizes(admins: seq<string>): (sizes: seq<nat>)
    ensures |sizes| == |admins|
    ensures forall i :: 0 <= i < |sizes| ==> sizes[i] == |admins[i]| + 2
  {
    seq(|admins|, i requires 0 <= i < |admins| => |admins[i]| + 2)
  }

  function ChannelsSize(r: ChannelRecord): nat {
    49 + Digits(r.next) + Digits(r.defaultId) + ListSize(ChannelSizes(r.channels))
  }

  function OwnerSize(owner: string): nat {
    if owner == "" then 0 else 11 + |owner|
  }

  /** No claim is encoded with an empty digest and the zero time. */
  function ClaimSize(claim: Option<Claim>): nat {
    if claim.None? then 20 else |claim.value.digest| + StampSize(claim.value.expires)
  }

  function AdminsSize(admins: seq<string>): nat {
    if admins == [] then 0 else 12 + ListSize(AdminSizes(admins))
  }

  function BansSize(bans: seq<Ban>): nat {
    if bans == [] then 0 else 10 + ListSize(BanSizes(bans))
  }

  function SettingsSize(settings: Option<Settings>): nat {
    if settings.None? then 0 else
    var s := settings.value;
    101 + s.name.encoded + Digits(s.maxClients) + Digits(s.maxMessages) + Digits(s.maxBytes) + Digits(s.maxAge)
  }

  /** The length of the JSON that is stored, field names and punctuation included. An opened
      store always carries the flag for account identities. */
  function EncodedSize(r: Record): nat {
    98 + ChannelsSize(r.channels) + OwnerSize(r.owner) + ClaimSize(r.claim) + AdminsSize(r.admins)
      + BansSize(r.bans) + SettingsSize(r.settings) + if r.authInitialized then 34 else 0
  }

  // ---- One record after another -------------------------------------------

  /** validResourceTransition. */
  predicate ValidTransition(before: Record, after: Record) {
    && (before.authInitialized ==> after.authInitialized)
    && (before.owner != "" ==> after.owner == before.owner)
    && before.channels.next <= after.channels.next
    && after.channels.defaultId == before.channels.defaultId
    && forall i :: 0 <= i < |after.channels.channels| ==>
         after.channels.channels[i].id in Ids(before.channels.channels)
         || after.channels.channels[i].id >= before.channels.next
  }

  /** The source's nested loop over flags decides exactly that. */
  method CheckTransition(before: Record, after: Record) returns (ok: bool)
    ensures ok <==> ValidTransition(before, after)
  {
    if (before.authInitialized && !after.authInitialized)
      || (before.owner != "" && after.owner != before.owner)
      || after.channels.next < before.channels.next
      || after.channels.defaultId != before.channels.defaultId
    {
      return false;
    }
    var now, then' := after.channels.channels, before.channels.channels;
    var i := 0;
    while i < |now|
      invariant 0 <= i <= |now|
      invariant forall k :: 0 <= k < i ==> now[k].id in Ids(then') || now[k].id >= before.channels.next
    {
      var found := false;
      var j := 0;
      while j < |then'|
        invariant 0 <= j <= |then'|
        invariant found <==> exists k :: 0 <= k < j && then'[k].id == now[i].id
      {
        found := found || now[i].id == then'[j].id;
        j := j + 1;
      }
      assert found <==> now[i].id in Ids(then');
      if !found && now[i].id < before.channels.next {
        return false;
      }
      i := i + 1;
    }
    return true;
  }

  /** The loop of validChannels, with its map of seen IDs and its running budget. */
  method CheckChannels(channels: seq<Channel>) returns (ok: bool)
    ensures ok <==> ValidChannels(channels)
  {
    if |channels| == 0 || |channels| > MAX_CHANNELS {
      return false;
    }
    var seen: set<UInt16> := {};
    var budget := 0;
    var i := 0;
    while i < |channels|
      invariant 0 <= i <= |channels|
      invariant budget == TextSize(channels[..i])
      invariant forall id :: id in seen <==> exists k :: 0 <= k < i && channels[k].id == id
      invariant forall k :: 0 <= k < i ==> ValidChannel(channels[k])
      invariant forall j, k :: 0 <= j < k < i ==> channels[j].id != channels[k].id
    {
      var ch := channels[i];
      if !ValidBitrate(ch.bitrate) {
        return false;
      }
      if ch.id == 0 || ch.id in seen || !ValidName(ch.name, MAX_NAME)
        || !ch.description.wellFormed || ch.description.size > 1024
      {
        return false;
      }
      seen := seen + {ch.id};
      budget := budget + ch.name.size + ch.description.size;
      assert channels[..i + 1][..i] == channels[..i];
      i := i + 1;
    }
    assert channels[..|channels|] == channels;
    return budget <= CHANNEL_TEXT_BUDGET;
  }

  lemma TransitionReflexive(r: Record)
    ensures ValidTransition(r, r)
  {}

  /** Transitions compose, so a reader may skip any number of revisions. */
  lemma TransitionComposes(a: Record, b: Record, c: Record)
    requires ValidTransition(a, b) && ValidTransition(b, c)
    ensures ValidTransition(a, c)
  {
    var now := c.channels.channels;
    forall i | 0 <= i < |now|
      ensures now[i].id in Ids(a.channels.channels) || now[i].id >= a.channels.next
    {
      if now[i].id in Ids(b.channels.channels) {
        var ch :| ch in b.channels.channels && ch.id == now[i].id;
        var k :| 0 <= k < |b.channels.channels| && b.channels.channels[k] == ch;
        assert b.channels.channels[k].id == now[i].id;
      }
    }
  }

  // ---- The committed history ----------------------------------------------

  datatype Entry = Entry(revision: nat, record: Record)

  ghost predicate History(log: seq<Entry>) {
    && log != []
    && (forall i :: 0 <= i < |log| ==> ValidRecord(log[i].record) && log[i].revision > 0)
    && (forall i :: 0 <= i < |log| - 1 ==>
          log[i].revision < log[i + 1].revision && ValidTransition(log[i].record, log[i + 1].record))
  }

  lemma HistoryMore(log: seq<Entry>, e: Entry)
    requires History(log) && ValidRecord(e.record)
    requires log[|log| - 1].revision < e.revision && ValidTransition(log[|log| - 1].record, e.record)
    ensures History(log + [e])
  {
    hide ValidRecord, ValidTransition;
    var more := log + [e];
    forall i | 0 <= i < |more| - 1
      ensures more[i].revision < more[i + 1].revision && ValidTransition(more[i].record, more[i + 1].record)
    {
      if i < |log| - 1 {
        assert more[i] == log[i] && more[i + 1] == log[i + 1];
      }
    }
  }

  lemma {:induction false} HistoryComposes(log: seq<Entry>, i: nat, j: nat)
    requires History(log) && i <= j < |log|
    ensures ValidTransition(log[i].record, log[j].record)
    ensures i < j ==> log[i].revision < log[j].revision
    decreases j
  {
    hide ValidRecord, ValidTransition;
    if i < j {
      HistoryComposes(log, i, j - 1);
      TransitionComposes(log[i].record, log[j - 1].record, log[j].record);
    } else {
      TransitionReflexive(log[i].record);
    }
  }

  /** Once set, the owner never changes, nor is the flag for account identities taken back; the
      default channel never changes and is always there; the next ID never falls. */
  lemma OwnerAndDefaultFixed(log: seq<Entry>, i: nat, j: nat)
    requires History(log) && i <= j < |log|
    ensures log[i].record.authInitialized ==> log[j].record.authInitialized
    ensures log[i].record.channels.next <= log[j].record.channels.next
    ensures log[i].record.owner != "" ==> log[j].record.owner == log[i].record.owner
    ensures log[j].record.channels.defaultId == log[i].record.channels.defaultId
    ensures log[i].record.channels.defaultId in Ids(log[j].record.channels.channels)
  {
    HistoryComposes(log, i, j);
  }

  /** What can be relied on in every record of a history, in plain numbers: the channels, with an
      open default and IDs below the next one, the people, and that it fits. */
  lemma AlwaysWellFormed(log: seq<Entry>, i: nat)
    requires History(log) && i < |log|
    ensures var r := log[i].record; var c := r.channels;
      && 1 <= |c.channels| <= 64 && 1 <= c.next <= 65536
      && (forall k :: 0 <= k < |c.channels| ==>
            && 0 < c.channels[k].id < c.next
            && c.channels[k].name.wellFormed && c.channels[k].name.runes <= 100
            && c.channels[k].description.wellFormed && c.channels[k].description.size <= 1024)
      && (forall k, m :: 0 <= k < m < |c.channels| ==> c.channels[k].id != c.channels[m].id)
      && exists k :: 0 <= k < |c.channels| && c.channels[k].id == c.defaultId && !c.channels[k].adminOnly
    ensures var r := log[i].record;
      && |r.admins| <= 64 && |r.bans| <= 256 && EncodedSize(r) <= 131072
      && (r.owner != "" ==> r.claim.None? && |r.owner| == 64)
      && (forall k :: 0 <= k < |r.admins| ==> |r.admins[k]| == 64 && r.admins[k] != r.owner)
      && (forall k, m :: 0 <= k < m < |r.admins| ==> r.admins[k] != r.admins[m])
      && (forall k :: 0 <= k < |r.bans| ==> |r.bans[k].identity| == 64 && r.bans[k].identity != r.owner)
      && (forall k, m :: 0 <= k < m < |r.bans| ==> r.bans[k].identity != r.bans[m].identity)
  {
    assert ValidRecord(log[i].record);
    var c := log[i].record.channels;
    hide EncodedSize, TextSize;
    assert forall k :: 0 <= k < |c.channels| ==> ValidChannel(c.channels[k]);
    var d :| d in c.channels && d.id == c.defaultId;
    var k :| 0 <= k < |c.channels| && c.channels[k] == d;
  }

  /** A deleted channel's ID never comes back. */
  lemma DeletedNeverReturns(log: seq<Entry>, i: nat, j: nat, k: nat, id: UInt16)
    requires History(log) && i < j < k < |log|
    requires id in Ids(log[i].record.channels.channels) && id !in Ids(log[j].record.channels.channels)
    ensures id !in Ids(log[k].record.channels.channels)
  {
    HistoryComposes(log, i, j);
    HistoryComposes(log, j, k);
    var first, last := log[i].record.channels, log[k].record.channels.channels;
    var ch :| ch in first.channels && ch.id == id;
    assert id < first.next;
    assert forall n :: 0 <= n < |last| ==> last[n].id != id;
  }
}
