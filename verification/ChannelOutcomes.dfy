/** What each channel edit comes to, field by field, and when it fails with which code
    (internal/server/channels.go). */
module ChannelOutcomes {
  import opened Common
  import opened Resources
  import opened ChannelEdits

  /** A name of at most 100 characters and a description of at most a kilobyte, both well
      formed. */
  predicate GoodText(name: Text, description: Text) {
    name.wellFormed && name.runes <= 100 && description.wellFormed && description.size <= 1024
  }

  predicate GoodBitrate(bitrate: nat) {
    bitrate == 0 || (16000 <= bitrate <= 64000 && bitrate % 1000 == 0)
  }

  lemma {:induction false} TextJoin(a: seq<Channel>, b: seq<Channel>)
    ensures TextSize(a + b) == TextSize(a) + TextSize(b)
    decreases |b|
  {
    if b == [] {
      assert a + b == a;
    } else {
      TextJoin(a, b[..|b| - 1]);
      assert (a + b)[..|a + b| - 1] == a + b[..|b| - 1];
    }
  }

  lemma TextOne(c: Channel)
    ensures TextSize([c]) == c.name.size + c.description.size
  {
    assert [c][..0] == [];
  }

  /** The text of a list around one of its channels. */
  lemma TextAround(channels: seq<Channel>, i: nat, c: Channel)
    requires i < |channels|
    ensures TextSize(channels[i := c])
      == TextSize(Without(channels, i)) + c.name.size + c.description.size
  {
    var front, back := channels[..i], channels[i + 1..];
    assert channels[i := c] == front + [c] + back;
    TextJoin(front + [c], back);
    TextJoin(front, [c]);
    TextJoin(front, back);
    TextOne(c);
  }

  lemma TextInserted(channels: seq<Channel>, position: nat, c: Channel)
    requires position <= |channels|
    ensures TextSize(Inserted(channels, position, c)) == TextSize(channels) + c.name.size + c.description.size
  {
    var front, back := channels[..position], channels[position..];
    assert channels == front + back;
    TextJoin(front + [c], back);
    TextJoin(front, [c]);
    TextJoin(front, back);
    TextOne(c);
  }

  // ---- Create -------------------------------------------------------------

  /** A creation appends one channel with the next ID and the given fields, the default
      bitrate for 0; it fails at the limits of IDs and channels, or when a field is malformed or
      the texts of all channels would exceed 16 KiB. */
  lemma CreateExactly(
    r: ChannelRecord, name: Text, description: Text, bitrate: nat, adminOnly: bool, occupied: set<UInt16>)
    requires ValidChannelRecord(r)
    ensures Edited(r, Create(name, description, bitrate, adminOnly), occupied)
      == if !GoodBitrate(bitrate) then Failed(Refused)
         else if r.next == 65536 || |r.channels| == 64 then Failed(ChannelLimit)
         else if !GoodText(name, description)
           || TextSize(r.channels) + name.size + description.size > 16384 then Failed(Refused)
         else Draft(ChannelRecord(r.next + 1, r.defaultId, r.channels + [
           Channel(r.next, name, description, if bitrate == 0 then 32000 else bitrate, adminOnly)]))
  {
    if r.next < 65536 && GoodBitrate(bitrate) {
      var c := Channel(r.next, name, description, if bitrate == 0 then 32000 else bitrate, adminOnly);
      TextJoin(r.channels, [c]);
      TextOne(c);
      AppendValid(r, c);
    }
  }

  lemma AppendValid(r: ChannelRecord, c: Channel)
    requires ValidChannelRecord(r) && c.id == r.next && GoodBitrate(c.bitrate) && c.id != 0
    requires TextSize(r.channels + [c]) == TextSize(r.channels) + c.name.size + c.description.size
    ensures ValidChannels(r.channels + [c])
      <==> |r.channels| < 64 && GoodText(c.name, c.description) && TextSize(r.channels + [c]) <= 16384
  {
    hide TextSize, Ids;
    var after := r.channels + [c];
    assert after[|r.channels|] == c;
    assert forall i :: 0 <= i < |r.channels| ==> after[i] == r.channels[i];
  }

  // ---- Change -------------------------------------------------------------

  /** The channel after a change: exactly the given name and description, the given bitrate or
      its own for 0, the given access or its own. */
  function ChangedTo(c: Channel, name: Text, description: Text, bitrate: nat, access: Option<bool>): Channel {
    match access
    case Some(closed) => Channel(c.id, name, description, if bitrate == 0 then c.bitrate else bitrate, closed)
    case None => Channel(c.id, name, description, if bitrate == 0 then c.bitrate else bitrate, c.adminOnly)
  }

  /** A change touches the named channel only, at its place. It fails when there is none, when
      it would close the default channel, or when a field is malformed or the texts of all
      channels would exceed 16 KiB. */
  lemma ChangeExactly(
    r: ChannelRecord, id: UInt16, i: nat, name: Text, description: Text, bitrate: nat, access: Option<bool>,
    occupied: set<UInt16>)
    requires ValidChannelRecord(r) && i < |r.channels|
    ensures id !in Ids(r.channels) ==>
      Edited(r, Change(id, name, description, bitrate, access), occupied)
        == Failed(if GoodBitrate(bitrate) then WrongChannel else Refused)
    ensures r.channels[i].id == id ==>
      Edited(r, Change(id, name, description, bitrate, access), occupied)
        == if !GoodBitrate(bitrate) then Failed(Refused)
           else if access == Some(true) && id == r.defaultId then Failed(DefaultChannel)
           else if !GoodText(name, description)
             || TextSize(Without(r.channels, i)) + name.size + description.size > 16384 then Failed(Refused)
           else Draft(r.(
             channels := r.channels[i := ChangedTo(r.channels[i], name, description, bitrate, access)]))
  {
    hide ValidChannels, DistinctIds, TextSize, ValidChannelRecord, Ids, IndexOf, Without;
    if r.channels[i].id == id {
      OnlyIndex(r, i);
      var c := ChangedTo(r.channels[i], name, description, bitrate, access);
      TextAround(r.channels, i, c);
      OwnBitrate(r, i);
      if GoodBitrate(bitrate) {
        ReplaceValid(r, i, c);
      }
    }
  }

  lemma OwnBitrate(r: ChannelRecord, i: nat)
    requires ValidChannelRecord(r) && i < |r.channels|
    ensures GoodBitrate(r.channels[i].bitrate)
  {
    assert ValidChannel(r.channels[i]);
  }

  lemma OnlyIndex(r: ChannelRecord, i: nat)
    requires ValidChannelRecord(r) && i < |r.channels|
    ensures IndexOf(r.channels, r.channels[i].id) == i && r.channels[i].id in Ids(r.channels)
  {
    var channels := r.channels;
    assert channels[i] in channels;
    assert channels[i].id in Ids(channels);
    var k := IndexOf(channels, channels[i].id);
    assert channels[k].id == channels[i].id;
  }

  lemma ReplaceValid(r: ChannelRecord, i: nat, c: Channel)
    requires ValidChannelRecord(r) && i < |r.channels| && c.id == r.channels[i].id && GoodBitrate(c.bitrate)
    ensures ValidChannels(r.channels[i := c])
      <==> GoodText(c.name, c.description) && TextSize(r.channels[i := c]) <= 16384
  {
    hide TextSize, Ids;
    var after := r.channels[i := c];
    assert ValidChannel(r.channels[i]) && after[i] == c;
    assert forall k :: 0 <= k < |after| && k != i ==> after[k] == r.channels[k];
  }

  // ---- Delete -------------------------------------------------------------

  /** A deletion removes the named channel and keeps the rest in order. It fails exactly when
      there is none, it is the default, or somebody is in it. */
  lemma DeleteExactly(r: ChannelRecord, id: UInt16, i: nat, occupied: set<UInt16>)
    requires ValidChannelRecord(r) && i < |r.channels|
    ensures id !in Ids(r.channels) ==> Edited(r, Delete(id), occupied) == Failed(WrongChannel)
    ensures r.channels[i].id == id ==>
      Edited(r, Delete(id), occupied)
        == if id == r.defaultId then Failed(DefaultChannel)
           else if id in occupied then Failed(ChannelNotEmpty)
           else Draft(r.(channels := r.channels[..i] + r.channels[i + 1..]))
  {
    if r.channels[i].id == id {
      OnlyIndex(r, i);
      TextAround(r.channels, i, r.channels[i]);
      assert r.channels[i := r.channels[i]] == r.channels;
      if id != r.defaultId {
        RemoveValid(r, i);
      }
    }
  }

  ghost predicate Each(channels: seq<Channel>) {
    forall i :: 0 <= i < |channels| ==> ValidChannel(channels[i])
  }

  lemma WithoutKeeps(channels: seq<Channel>, i: nat)
    requires i < |channels| && DistinctIds(channels) && Each(channels)
    ensures DistinctIds(Without(channels, i)) && Each(Without(channels, i))
  {
    hide ValidChannel;
    var rest := Without(channels, i);
    assert forall k :: 0 <= k < |rest| ==> rest[k] == channels[if k < i then k else k + 1];
  }

  lemma InsertedKeeps(rest: seq<Channel>, position: nat, c: Channel)
    requires position <= |rest| && DistinctIds(rest) && Each(rest) && c.id !in Ids(rest) && ValidChannel(c)
    ensures DistinctIds(Inserted(rest, position, c)) && Each(Inserted(rest, position, c))
  {
    hide ValidChannel;
    forall k | 0 <= k < |rest| ensures rest[k].id != c.id {
      assert rest[k] in rest;
    }
    hide Ids;
    var out := Inserted(rest, position, c);
    assert forall k :: 0 <= k < |out| ==>
      out[k] == if k < position then rest[k] else if k == position then c else rest[k - 1];
  }

  lemma RemoveValid(r: ChannelRecord, i: nat)
    requires ValidChannelRecord(r) && i < |r.channels| && r.channels[i].id != r.defaultId
    requires TextSize(Without(r.channels, i)) <= TextSize(r.channels)
    ensures ValidChannels(Without(r.channels, i))
  {
    hide TextSize, ValidChannel, DistinctIds;
    var rest := Without(r.channels, i);
    IdsWithout(r.channels, i);
    assert r.defaultId in Ids(rest);
    assert rest != [];
    WithoutKeeps(r.channels, i);
  }

  // ---- Reorder ------------------------------------------------------------

  /** A reorder puts the named channel right before the one asked for, or last, and changes
      nothing else. It fails exactly when either is missing. */
  lemma ReorderExactly(r: ChannelRecord, id: UInt16, i: nat, before: UInt16, occupied: set<UInt16>)
    requires ValidChannelRecord(r) && i < |r.channels|
    ensures id !in Ids(r.channels) ==> Edited(r, Reorder(id, before), occupied) == Failed(WrongChannel)
    ensures r.channels[i].id == id ==>
      var result := Edited(r, Reorder(id, before), occupied);
      && (result == Failed(WrongChannel) <==> before != 0 && before !in Ids(r.channels))
      && (result.Failed? ==> result == Failed(WrongChannel))
      && (before == id ==> result == Draft(r))
      && (result.Draft? && before != id ==>
            && result.channels == r.(channels := result.channels.channels)
            && exists p :: Placed(r.channels, i, before, result.channels.channels, p))
  {
    hide ValidChannels, DistinctIds, TextSize, ValidChannelRecord, Ids, IndexOf, Without, Inserted, Placed;
    if r.channels[i].id == id {
      OnlyIndex(r, i);
      if before == id {
        NoZero(r);
        StillValid(r);
        assert r.(channels := r.channels) == r;
      } else {
        OthersIds(r, i);
        if Reordered(r.channels, i, before).Some? {
          MovedValid(r, i, before);
        }
      }
    }
  }

  lemma StillValid(r: ChannelRecord)
    requires ValidChannelRecord(r)
    ensures ValidChannels(r.channels)
  {
  }

  lemma OthersIds(r: ChannelRecord, i: nat)
    requires ValidChannelRecord(r) && i < |r.channels|
    ensures Ids(r.channels) == Ids(Without(r.channels, i)) + {r.channels[i].id}
  {
    IdsWithout(r.channels, i);
  }

  lemma NoZero(r: ChannelRecord)
    requires ValidChannelRecord(r)
    ensures 0 !in Ids(r.channels)
  {
    forall c | c in r.channels ensures c.id != 0 {
      var k :| 0 <= k < |r.channels| && r.channels[k] == c;
      assert ValidChannel(r.channels[k]);
    }
  }

  lemma MovedValid(r: ChannelRecord, i: nat, before: UInt16)
    requires ValidChannelRecord(r) && i < |r.channels| && before != r.channels[i].id
    requires Reordered(r.channels, i, before).Some?
    ensures ValidChannels(Reordered(r.channels, i, before).value)
    ensures exists p :: Placed(r.channels, i, before, Reordered(r.channels, i, before).value, p)
  {
    var rest := Without(r.channels, i);
    var position := if before == 0 then |rest| else IndexOf(rest, before);
    ReorderPermutes(r.channels, i, before);
    TextAround(r.channels, i, r.channels[i]);
    assert r.channels[i := r.channels[i]] == r.channels;
    TextInserted(rest, position, r.channels[i]);
    InsertValid(r.channels, i, position);
  }

  lemma InsertValid(channels: seq<Channel>, i: nat, position: nat)
    requires ValidChannels(channels) && i < |channels| && position < |channels|
    requires TextSize(Inserted(Without(channels, i), position, channels[i])) <= 16384
    ensures ValidChannels(Inserted(Without(channels, i), position, channels[i]))
  {
    hide TextSize, ValidChannel, DistinctIds, Ids;
    var rest := Without(channels, i);
    WithoutKeeps(channels, i);
    IdsWithout(channels, i);
    InsertedKeeps(rest, position, channels[i]);
  }
}
