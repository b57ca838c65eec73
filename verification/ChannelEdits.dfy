/** The channel list edits of mutateChannelAt in internal/server/channels.go, as drafts of
    the next record. */
module ChannelEdits {
  import opened Common
  import opened Resources
  import opened RecordSize

  datatype Edit =
    | Create(name: Text, description: Text, bitrate: nat, adminOnly: bool)
    | Change(id: UInt16, name: Text, description: Text, bitrate: nat, access: Option<bool>)
    | Delete(id: UInt16)
    | Reorder(id: UInt16, before: UInt16)

  datatype Code = ChannelLimit | WrongChannel | DefaultChannel | ChannelNotEmpty | Refused

  datatype Result = Draft(channels: ChannelRecord) | Failed(code: Code)

  /** The position of a channel, or none. */
  function IndexOf(channels: seq<Channel>, id: UInt16): (i: int)
    ensures -1 <= i < |channels|
    ensures i >= 0 ==> channels[i].id == id
    ensures i < 0 <==> id !in Ids(channels)
  {
    if channels == [] then -1
    else if channels[|channels| - 1].id == id then |channels| - 1
    else
      assert channels == channels[..|channels| - 1] + [channels[|channels| - 1]];
      IndexOf(channels[..|channels| - 1], id)
  }

  function Without(channels: seq<Channel>, i: nat): seq<Channel>
    requires i < |channels|
  {
    channels[..i] + channels[i + 1..]
  }

  function Inserted(channels: seq<Channel>, position: nat, c: Channel): seq<Channel>
    requires position <= |channels|
  {
    channels[..position] + [c] + channels[position..]
  }

  /** Moves channel i before the channel `before`, or to the end when that is 0. */
  function Reordered(channels: seq<Channel>, i: nat, before: UInt16): Option<seq<Channel>>
    requires i < |channels|
  {
    if before == channels[i].id then Some(channels) else
    var rest := Without(channels, i);
    var position := if before == 0 then |rest| else IndexOf(rest, before);
    if position < 0 then None else Some(Inserted(rest, position, channels[i]))
  }

  /** The draft, given which channels have somebody in them. */
  function Edited(r: ChannelRecord, edit: Edit, occupied: set<UInt16>): Result {
    if (edit.Create? || edit.Change?) && !ValidBitrate(edit.bitrate) then Failed(Refused) else
    match edit
    case Create(name, description, bitrate, adminOnly) =>
      if r.next > 65535 || |r.channels| >= MAX_CHANNELS then Failed(ChannelLimit) else
      var c := Channel(r.next, name, description, if bitrate == 0 then 32000 else bitrate, adminOnly);
      Checked(r.(channels := r.channels + [c], next := r.next + 1))
    case Change(id, name, description, bitrate, access) =>
      var i := IndexOf(r.channels, id);
      if i < 0 then Failed(WrongChannel)
      else if access == Some(true) && id == r.defaultId then Failed(DefaultChannel)
      else
        var c := r.channels[i];
        var c' := Channel(c.id, name, description, if bitrate != 0 then bitrate else c.bitrate,
                          if access.Some? then access.value else c.adminOnly);
        Checked(r.(channels := r.channels[i := c']))
    case Delete(id) =>
      var i := IndexOf(r.channels, id);
      if i < 0 then Failed(WrongChannel)
      else if id == r.defaultId then Failed(DefaultChannel)
      else if id in occupied then Failed(ChannelNotEmpty)
      else Checked(r.(channels := Without(r.channels, i)))
    case Reorder(id, before) =>
      var i := IndexOf(r.channels, id);
      if i < 0 then Failed(WrongChannel) else
      var moved := Reordered(r.channels, i, before);
      if moved.None? then Failed(WrongChannel) else Checked(r.(channels := moved.value))
  }

  function Checked(r: ChannelRecord): Result {
    if ValidChannels(r.channels) then Draft(r) else Failed(Refused)
  }

  // ---- What an accepted edit does -----------------------------------------

  lemma IdsOfParts(a: seq<Channel>, b: seq<Channel>)
    ensures Ids(a + b) == Ids(a) + Ids(b)
  {
    forall id | id in Ids(a) + Ids(b) ensures id in Ids(a + b) {
      if id in Ids(a) {
        var c :| c in a && c.id == id;
        assert c in a + b;
      } else {
        var c :| c in b && c.id == id;
        assert c in a + b;
      }
    }
  }

  lemma IdsWithout(channels: seq<Channel>, i: nat)
    requires i < |channels| && DistinctIds(channels)
    ensures Ids(Without(channels, i)) == Ids(channels) - {channels[i].id}
    ensures Ids(channels) == Ids(Without(channels, i)) + {channels[i].id}
  {
    var rest := Without(channels, i);
    forall k | 0 <= k < |channels| && k != i ensures channels[k] in rest {
      if k < i {
        assert rest[k] == channels[k];
      } else {
        assert rest[k - 1] == channels[k];
      }
    }
    forall k | 0 <= k < |rest| ensures rest[k].id != channels[i].id && rest[k] in channels {
    }
  }

  /** Channel i now stands at p, right before the one asked for; the rest keep their order. */
  ghost predicate Placed(channels: seq<Channel>, i: nat, before: UInt16, out: seq<Channel>, p: int) {
    && i < |channels| && 0 <= p < |out|
    && out[p] == channels[i] && Without(out, p) == Without(channels, i)
    && (if before == 0 then p == |out| - 1 else p + 1 < |out| && out[p + 1].id == before)
  }

  /** Reordering loses, adds and renames nothing, and puts the channel where asked. */
  lemma ReorderPermutes(channels: seq<Channel>, i: nat, before: UInt16)
    requires i < |channels| && DistinctIds(channels) && before != channels[i].id
    requires Reordered(channels, i, before).Some?
    ensures var out := Reordered(channels, i, before).value;
      && multiset(out) == multiset(channels)
      && Ids(out) == Ids(channels)
      && exists p :: Placed(channels, i, before, out, p)
  {
    var rest := Without(channels, i);
    var p := if before == 0 then |rest| else IndexOf(rest, before);
    var out := Inserted(rest, p, channels[i]);
    SameElements(channels, i, p);
    SameElementsSameIds(out, channels);
    assert Without(out, p) == rest by {
      assert out[..p] == rest[..p] && out[p + 1..] == rest[p..];
    }
    assert before != 0 ==> out[p + 1] == rest[p];
    assert Placed(channels, i, before, out, p);
  }

  lemma SameElements(channels: seq<Channel>, i: nat, p: nat)
    requires i < |channels| && p < |channels|
    ensures multiset(Inserted(Without(channels, i), p, channels[i])) == multiset(channels)
  {
    var rest := Without(channels, i);
    SplitElements(channels[..i], channels[i], channels[i + 1..]);
    SplitElements(rest[..p], channels[i], rest[p..]);
    assert channels == channels[..i] + [channels[i]] + channels[i + 1..];
    assert rest == rest[..p] + rest[p..];
  }

  lemma SplitElements(a: seq<Channel>, c: Channel, b: seq<Channel>)
    ensures multiset(a + [c] + b) == multiset(a + b) + multiset{c}
  {
    assert multiset(a + [c] + b) == multiset(a) + multiset([c]) + multiset(b);
    assert multiset(a + b) == multiset(a) + multiset(b);
  }

  lemma SameElementsSameIds(a: seq<Channel>, b: seq<Channel>)
    requires multiset(a) == multiset(b)
    ensures Ids(a) == Ids(b)
  {
    assert forall c :: c in a <==> c in multiset(a);
    assert forall c :: c in b <==> c in multiset(b);
  }

  /** Exactly which IDs an accepted edit adds or removes. */
  lemma EditedIds(r: ChannelRecord, edit: Edit, occupied: set<UInt16>)
    requires ValidChannelRecord(r) && Edited(r, edit, occupied).Draft?
    ensures var after := Edited(r, edit, occupied).channels;
      && after.defaultId == r.defaultId
      && Ids(after.channels) == (if edit.Create? then Ids(r.channels) + {r.next as UInt16}
                                 else if edit.Delete? then Ids(r.channels) - {edit.id}
                                 else Ids(r.channels))
      && after.next == (if edit.Create? then r.next + 1 else r.next)
      && (edit.Delete? ==> edit.id in Ids(r.channels) && edit.id != r.defaultId && edit.id !in occupied)
  {
    match edit
    case Create(_, _, _, _) =>
      var after := Edited(r, edit, occupied).channels;
      var c := after.channels[|r.channels|];
      IdsOfParts(r.channels, [c]);
      assert Ids([c]) == {c.id} by { assert c in [c]; }
    case Change(id, _, _, _, _) =>
      var after := Edited(r, edit, occupied).channels;
      SameIds(r.channels, after.channels);
    case Delete(id) => IdsWithout(r.channels, IndexOf(r.channels, id));
    case Reorder(id, before) =>
      if before != id {
        ReorderPermutes(r.channels, IndexOf(r.channels, id), before);
      }
  }

  lemma SameIds(a: seq<Channel>, b: seq<Channel>)
    requires |a| == |b| && forall i :: 0 <= i < |a| ==> a[i].id == b[i].id
    ensures Ids(a) == Ids(b)
  {
    forall id | id in Ids(a) ensures id in Ids(b) {
      var c :| c in a && c.id == id;
      var i :| 0 <= i < |a| && a[i] == c;
      assert b[i] in b;
    }
    forall id | id in Ids(b) ensures id in Ids(a) {
      var c :| c in b && c.id == id;
      var i :| 0 <= i < |b| && b[i] == c;
      assert a[i] in a;
    }
  }

  ghost predicate Fits(c: Channel, next: nat, defaultId: UInt16) {
    c.id < next && !(c.id == defaultId && c.adminOnly)
  }

  /** Every channel of an accepted edit has an allocated ID, and the default stays open. */
  lemma EditedFits(r: ChannelRecord, edit: Edit, occupied: set<UInt16>, c: Channel)
    requires ValidChannelRecord(r) && Edited(r, edit, occupied).Draft?
    requires c in Edited(r, edit, occupied).channels.channels
    ensures Fits(c, Edited(r, edit, occupied).channels.next, r.defaultId)
  {
    assert forall old' :: old' in r.channels ==> Fits(old', r.next, r.defaultId);
    match edit
    case Create(_, _, _, _) =>
      assert r.defaultId in Ids(r.channels);
    case Change(id, _, _, _, _) =>
      assert r.channels[IndexOf(r.channels, id)] in r.channels;
    case Delete(id) =>
    case Reorder(id, before) =>
      if before != id {
        ReorderPermutes(r.channels, IndexOf(r.channels, id), before);
        assert c in multiset(r.channels);
      }
  }

  lemma EditedRecordValid(r: ChannelRecord, edit: Edit, occupied: set<UInt16>)
    requires ValidChannelRecord(r) && Edited(r, edit, occupied).Draft?
    ensures ValidChannelRecord(Edited(r, edit, occupied).channels)
  {
    var after := Edited(r, edit, occupied).channels;
    EditedIds(r, edit, occupied);
    forall i | 0 <= i < |after.channels| ensures Fits(after.channels[i], after.next, r.defaultId) {
      EditedFits(r, edit, occupied, after.channels[i]);
    }
    assert ValidChannels(after.channels);
  }

  lemma ChannelsOnly(r: Record, after: ChannelRecord)
    requires ValidFields(r) && ValidChannelRecord(after)
    requires r.channels.next <= after.next && after.defaultId == r.channels.defaultId
    requires forall id :: id in Ids(after.channels) ==> id in Ids(r.channels.channels) || id >= r.channels.next
    ensures ValidFields(r.(channels := after)) && ValidTransition(r, r.(channels := after))
  {
    forall i | 0 <= i < |after.channels|
      ensures after.channels[i].id in Ids(r.channels.channels) || after.channels[i].id >= r.channels.next
    {
      assert after.channels[i] in after.channels;
    }
  }

  /** An accepted edit passes every field check and is a valid transition, so the store's
      validation refuses it if and only if the new channel list takes the record over the
      limit. Up to 16 bans it never does. */
  lemma EditedValid(r: Record, edit: Edit, occupied: set<UInt16>, after: ChannelRecord)
    requires ValidFields(r) && Edited(r.channels, edit, occupied) == Draft(after)
    ensures ValidFields(r.(channels := after)) && ValidTransition(r, r.(channels := after))
    ensures ValidRecord(r.(channels := after))
      <==> EncodedSize(r) + ChannelsSize(after) <= MAX_RECORD + ChannelsSize(r.channels)
    ensures |r.bans| <= 16 ==> ValidRecord(r.(channels := after))
  {
    EditedRecordValid(r.channels, edit, occupied);
    EditedIds(r.channels, edit, occupied);
    ChannelsOnly(r, after);
    if |r.bans| <= 16 {
      FewBansFit(r.(channels := after));
    }
  }

  // ---- The edits as mutateChannelAt makes them ----------------------------

  /** The search loop keeps the last match. */
  method FindIndex(channels: seq<Channel>, id: UInt16) returns (index: int)
    ensures index == IndexOf(channels, id)
  {
    index := -1;
    var i := 0;
    while i < |channels|
      invariant 0 <= i <= |channels|
      invariant index == IndexOf(channels[..i], id)
    {
      assert channels[..i + 1][..i] == channels[..i];
      if channels[i].id == id {
        index := i;
      }
      i := i + 1;
    }
    assert channels[..i] == channels;
  }

  /** The occupancy loop over all sessions, removed ones included. */
  method AnyoneIn(members: seq<UInt16>, id: UInt16) returns (found: bool)
    ensures found <==> id in members
  {
    var i := 0;
    while i < |members|
      invariant 0 <= i <= |members|
      invariant id !in members[..i]
    {
      if members[i] == id {
        return true;
      }
      i := i + 1;
    }
    return false;
  }

  /** Closing the gap in place, as append(s[:i], s[i+1:]...) does. */
  method RemoveAt(a: array<Channel>, n: nat, index: nat)
    requires index < n <= a.Length
    modifies a
    ensures a[..n - 1] == Without(old(a[..n]), index)
  {
    ghost var was := a[..n];
    var k := index;
    while k < n - 1
      invariant index <= k <= n - 1
      invariant forall j :: 0 <= j < index ==> a[j] == was[j]
      invariant forall j :: index <= j < k ==> a[j] == was[j + 1]
      invariant forall j :: k <= j < n ==> a[j] == was[j]
    {
      a[k] := a[k + 1];
      k := k + 1;
    }
    WithoutIs(was, index, a[..n - 1]);
  }

  lemma WithoutIs(was: seq<Channel>, index: nat, now: seq<Channel>)
    requires index < |was| && |now| == |was| - 1
    requires forall j :: 0 <= j < index ==> now[j] == was[j]
    requires forall j :: index <= j < |now| ==> now[j] == was[j + 1]
    ensures now == Without(was, index)
  {
  }

  /** Opening a gap in place, as the overlapping copy does, and filling it. */
  method InsertAt(a: array<Channel>, n: nat, position: nat, c: Channel)
    requires position <= n < a.Length
    modifies a
    ensures a[..n + 1] == Inserted(old(a[..n]), position, c)
  {
    ghost var was := a[..n];
    var k := n;
    while k > position
      invariant position <= k <= n
      invariant forall j :: 0 <= j < k ==> a[j] == was[j]
      invariant forall j :: k < j <= n ==> a[j] == was[j - 1]
    {
      a[k] := a[k - 1];
      k := k - 1;
    }
    a[position] := c;
    InsertedIs(was, position, c, a[..n + 1]);
  }

  lemma InsertedIs(was: seq<Channel>, position: nat, c: Channel, now: seq<Channel>)
    requires position <= |was| && |now| == |was| + 1 && now[position] == c
    requires forall j :: 0 <= j < position ==> now[j] == was[j]
    requires forall j :: position < j <= |was| ==> now[j] == was[j - 1]
    ensures now == Inserted(was, position, c)
  {
  }

  method MoveBefore(channels: seq<Channel>, index: nat, before: UInt16) returns (moved: Option<seq<Channel>>)
    requires index < |channels|
    ensures moved == Reordered(channels, index, before)
  {
    if before == channels[index].id {
      return Some(channels);
    }
    var rest := Cut(channels, index);
    var position := |rest|;
    if before != 0 {
      position := FindIndex(rest, before);
      if position < 0 {
        return None;
      }
    }
    var out := Paste(rest, position, channels[index]);
    return Some(out);
  }

  method Cut(channels: seq<Channel>, index: nat) returns (rest: seq<Channel>)
    requires index < |channels|
    ensures rest == Without(channels, index)
  {
    var n := |channels|;
    var a := new Channel[n](i requires 0 <= i < n => channels[i]);
    assert a[..n] == channels;
    RemoveAt(a, n, index);
    rest := a[..n - 1];
  }

  method Paste(channels: seq<Channel>, position: nat, c: Channel) returns (out: seq<Channel>)
    requires position <= |channels|
    ensures out == Inserted(channels, position, c)
  {
    var n := |channels|;
    var a := new Channel[n + 1](i requires 0 <= i < n + 1 => if i < n then channels[i] else c);
    assert a[..n] == channels;
    InsertAt(a, n, position, c);
    out := a[..n + 1];
  }

  /** The draft function of mutateChannelAt. */
  method Mutate(r: ChannelRecord, edit: Edit, members: seq<UInt16>) returns (result: Result)
    ensures result == Edited(r, edit, set id | id in members)
  {
    if (edit.Create? || edit.Change?) && !ValidBitrate(edit.bitrate) {
      return Failed(Refused);
    }
    var channels, next := r.channels, r.next;
    if edit.Create? {
      if next > 65535 || |channels| >= MAX_CHANNELS {
        return Failed(ChannelLimit);
      }
      var bitrate := if edit.bitrate == 0 then 32000 else edit.bitrate;
      channels := channels + [Channel(next, edit.name, edit.description, bitrate, edit.adminOnly)];
      next := next + 1;
    } else {
      var index := FindIndex(channels, edit.id);
      if index < 0 {
        return Failed(WrongChannel);
      }
      match edit {
        case Change(id, name, description, bitrate, access) =>
          var c := channels[index].(name := name, description := description);
          if access.Some? {
            if id == r.defaultId && access.value {
              return Failed(DefaultChannel);
            }
            c := c.(adminOnly := access.value);
          }
          if bitrate != 0 {
            c := c.(bitrate := bitrate);
          }
          channels := channels[index := c];
        case Delete(id) =>
          if id == r.defaultId {
            return Failed(DefaultChannel);
          }
          var busy := AnyoneIn(members, id);
          if busy {
            return Failed(ChannelNotEmpty);
          }
          channels := channels[..index] + channels[index + 1..];
        case Reorder(id, before) =>
          var moved := MoveBefore(channels, index, before);
          if moved.None? {
            return Failed(WrongChannel);
          }
          channels := moved.value;
      }
    }
    var valid := CheckChannels(channels);
    if !valid {
      return Failed(Refused);
    }
    return Draft(r.(channels := channels, next := next));
  }
}
