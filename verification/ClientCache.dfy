/** The client's bounded chat cache and its history paging (client/src/session.rs). */
module ClientCache {
  import opened Common
  import opened Resources
  import opened ChatLog

  const CACHE_MESSAGES: nat := 500
  const CACHE_BYTES: nat := 512 * 1024

  datatype ChatStatus = ChatStatus(
    channel: UInt16, epoch: nat, generation: nat, status: nat, before: nat, hasMore: bool)

  const NoStatus: ChatStatus := ChatStatus(0, 0, 0, 0, 0, false)

  /** The part of the snapshot that concerns chat. */
  datatype Snapshot = Snapshot(
    channel: UInt16, epoch: nat, revision: nat, messages: seq<Message>, status: ChatStatus, limited: bool)

  /** A frame is applied, or the session ends with an invalid-state error. */
  datatype Result = Applied(snapshot: Snapshot) | InvalidState

  datatype Frame =
    | StateFrame(wellFormed: bool, channel: UInt16, epoch: nat, watching: bool, revision: nat)
    | MessageFrame(message: Message)
    | StatusFrame(status: ChatStatus)
    | PageFrame(page: Page, requested: bool)

  // ---- Pieces -------------------------------------------------------------

  predicate ValidMessage(m: Message, channel: UInt16, epoch: nat) {
    && m.channel == channel && m.epoch == epoch && m.sequence != 0 && m.timestamp > 0
    && Hex(m.author) && |m.text| <= 8192 && |m.nickname| <= 120 && |m.clientId| <= 128
  }

  function Load(m: Message): nat {
    |m.text| + |m.nickname|
  }

  function Bytes(messages: seq<Message>): nat {
    if messages == [] then 0 else Load(messages[0]) + Bytes(messages[1..])
  }

  predicate Known(messages: seq<Message>, sequence: nat) {
    exists i :: 0 <= i < |messages| && messages[i].sequence == sequence
  }

  /** partition_point: how many of an ordered cache are older. */
  function Point(messages: seq<Message>, sequence: nat): (i: nat)
    ensures i <= |messages|
  {
    if messages == [] || messages[0].sequence >= sequence then 0 else 1 + Point(messages[1..], sequence)
  }

  function Inserted(messages: seq<Message>, m: Message): seq<Message> {
    var i := Point(messages, m.sequence);
    messages[..i] + [m] + messages[i..]
  }

  function InsertedAll(messages: seq<Message>, more: seq<Message>): seq<Message> {
    if more == [] then messages else Inserted(InsertedAll(messages, more[..|more| - 1]), more[|more| - 1])
  }

  /** Dropping the oldest until the rest fits. */
  function Evicted(messages: seq<Message>): seq<Message> {
    if |messages| > CACHE_MESSAGES || Bytes(messages) > CACHE_BYTES then Evicted(messages[1..]) else messages
  }

  function Additional(messages: seq<Message>, page: seq<Message>): seq<Message> {
    if page == [] then [] else
    var rest := Additional(messages, page[..|page| - 1]);
    var m := page[|page| - 1];
    if Known(messages, m.sequence) then rest else rest + [m]
  }

  // ---- Frames -------------------------------------------------------------

  function AfterState(s: Snapshot, f: Frame): Result
    requires f.StateFrame?
  {
    if !f.wellFormed || f.epoch < s.epoch || (f.watching && f.revision <= s.revision) then InvalidState
    else if f.epoch != s.epoch then Applied(Snapshot(f.channel, f.epoch, f.revision, [], NoStatus, false))
    else Applied(s.(channel := f.channel, revision := f.revision))
  }

  function AfterMessage(s: Snapshot, m: Message): Result {
    if m.epoch != s.epoch then Applied(s)
    else if !ValidMessage(m, s.channel, s.epoch) then InvalidState
    else if Known(s.messages, m.sequence) then Applied(s)
    else
      var all := Inserted(s.messages, m);
      Applied(s.(messages := Evicted(all), limited := s.limited || Evicted(all) != all))
  }

  function AfterStatus(s: Snapshot, status: ChatStatus): Result {
    if status.status > 2 then InvalidState
    else if status.epoch == s.epoch && status.channel == s.channel && status.generation >= s.status.generation
    then Applied(s.(status := status))
    else Applied(s)
  }

  predicate PageMatches(s: Snapshot, page: Page) {
    && page.channel == s.channel && page.epoch == s.epoch
    && page.generation == s.status.generation && page.before == s.status.before
  }

  predicate PageSound(s: Snapshot, page: Page) {
    && |page.messages| <= 20 && page.before != 0 && (page.hasMore ==> page.messages != [])
    && (forall i :: 0 <= i < |page.messages| - 1 ==> page.messages[i].sequence < page.messages[i + 1].sequence)
    && (forall i :: 0 <= i < |page.messages| ==>
          ValidMessage(page.messages[i], s.channel, s.epoch) && page.messages[i].history
          && page.messages[i].sequence < page.before)
    && page.nextBefore == if page.messages == [] then 0 else page.messages[0].sequence
  }

  /** apply_history. */
  function AfterHistory(s: Snapshot, page: Page): Result {
    if !PageMatches(s, page) then Applied(s)
    else if !PageSound(s, page) then InvalidState
    else
      var more := Additional(s.messages, page.messages);
      if |s.messages| + |more| > CACHE_MESSAGES || Bytes(s.messages) + Bytes(more) > CACHE_BYTES
      then Applied(s.(limited := true))
      else Applied(s.(messages := InsertedAll(s.messages, more),
                      status := s.status.(before := page.nextBefore, hasMore := page.hasMore)))
  }

  function After(s: Snapshot, f: Frame): Result {
    match f
    case StateFrame(_, _, _, _, _) => AfterState(s, f)
    case MessageFrame(m) => AfterMessage(s, m)
    case StatusFrame(status) => AfterStatus(s, status)
    case PageFrame(page, requested) => if requested then AfterHistory(s, page) else Applied(s)
  }

  // ---- The invariant ------------------------------------------------------

  ghost predicate OneEpoch(messages: seq<Message>, epoch: nat) {
    forall m :: m in messages ==> m.epoch == epoch
  }

  /** Strictly ordered, of one epoch, and within both bounds. */
  ghost predicate Sound(s: Snapshot) {
    SoundCache(s.messages, s.epoch)
  }

  ghost predicate SoundCache(messages: seq<Message>, epoch: nat) {
    && Ordered(messages) && OneEpoch(messages, epoch)
    && |messages| <= CACHE_MESSAGES && Bytes(messages) <= CACHE_BYTES
  }

  // ---- Sequences ----------------------------------------------------------

  lemma {:induction false} BytesJoin(a: seq<Message>, b: seq<Message>)
    ensures Bytes(a + b) == Bytes(a) + Bytes(b)
  {
    if a == [] {
      assert a + b == b;
    } else {
      BytesJoin(a[1..], b);
      assert (a + b)[1..] == a[1..] + b;
    }
  }

  /** The partition point separates older from newer. */
  lemma {:induction false} PointSplits(messages: seq<Message>, sequence: nat)
    requires Ordered(messages)
    ensures var i := Point(messages, sequence);
      && (forall k :: 0 <= k < i ==> messages[k].sequence < sequence)
      && (forall k :: i <= k < |messages| ==> messages[k].sequence >= sequence)
  {
    if messages != [] && messages[0].sequence < sequence {
      PointSplits(messages[1..], sequence);
      var i := Point(messages, sequence);
      forall k | 0 <= k < |messages| ensures (k < i) == (messages[k].sequence < sequence) {
        if k > 0 {
          assert messages[k] == messages[1..][k - 1];
        }
      }
    }
  }

  /** A new message goes where it keeps the order; nothing else moves. */
  lemma InsertKeeps(messages: seq<Message>, m: Message)
    requires Ordered(messages) && !Known(messages, m.sequence)
    ensures Ordered(Inserted(messages, m)) && |Inserted(messages, m)| == |messages| + 1
    ensures Bytes(Inserted(messages, m)) == Bytes(messages) + Load(m)
    ensures forall x :: x in Inserted(messages, m) <==> x in messages || x == m
  {
    var i := Point(messages, m.sequence);
    PointSplits(messages, m.sequence);
    assert forall k :: 0 <= k < |messages| ==> messages[k].sequence != m.sequence;
    BytesJoin(messages[..i] + [m], messages[i..]);
    BytesJoin(messages[..i], [m]);
    BytesJoin(messages[..i], messages[i..]);
    assert messages[..i] + messages[i..] == messages;
    InsertOrdered(messages, i, m);
  }

  lemma InsertOrdered(messages: seq<Message>, i: nat, m: Message)
    requires Ordered(messages) && i <= |messages|
    requires forall k :: 0 <= k < i ==> messages[k].sequence < m.sequence
    requires forall k :: i <= k < |messages| ==> messages[k].sequence > m.sequence
    ensures Ordered(messages[..i] + [m] + messages[i..])
  {
    var out := messages[..i] + [m] + messages[i..];
    assert forall k :: 0 <= k < |out| ==>
      out[k] == if k < i then messages[k] else if k == i then m else messages[k - 1];
  }

  /** Eviction leaves the newest run that fits, and takes no more than it must. */
  lemma {:induction false} EvictKeeps(messages: seq<Message>)
    requires Ordered(messages)
    ensures var rest := Evicted(messages);
      && |rest| <= |messages| && rest == messages[|messages| - |rest|..] && Ordered(rest)
      && |rest| <= CACHE_MESSAGES && Bytes(rest) <= CACHE_BYTES
      && (|rest| < |messages| ==>
            |rest| == CACHE_MESSAGES || Bytes(messages[|messages| - |rest| - 1..]) > CACHE_BYTES)
    decreases |messages|
  {
    if |messages| > CACHE_MESSAGES || Bytes(messages) > CACHE_BYTES {
      EvictKeeps(messages[1..]);
      var rest := Evicted(messages);
      assert messages[1..][|messages| - 1 - |rest|..] == messages[|messages| - |rest|..];
      if |rest| == |messages| - 1 {
        assert messages[0..] == messages;
      } else {
        assert messages[1..][|messages| - 1 - |rest| - 1..] == messages[|messages| - |rest| - 1..];
      }
    }
  }

  /** Inserting a page of unknown messages adds exactly those. */
  lemma {:induction false} InsertAllKeeps(messages: seq<Message>, more: seq<Message>)
    requires Ordered(messages) && Ordered(more)
    requires forall m :: m in more ==> !Known(messages, m.sequence)
    ensures var all := InsertedAll(messages, more);
      && Ordered(all) && |all| == |messages| + |more| && Bytes(all) == Bytes(messages) + Bytes(more)
      && forall x :: x in all <==> x in messages || x in more
    decreases |more|
  {
    if more != [] {
      var rest, m := more[..|more| - 1], more[|more| - 1];
      assert more == rest + [m];
      InsertAllKeeps(messages, rest);
      var part := InsertedAll(messages, rest);
      assert !Known(part, m.sequence) by {
        StillUnknown(messages, rest, part, m);
      }
      InsertKeeps(part, m);
      BytesJoin(rest, [m]);
    }
  }

  lemma StillUnknown(messages: seq<Message>, rest: seq<Message>, part: seq<Message>, m: Message)
    requires Ordered(rest + [m]) && !Known(messages, m.sequence)
    requires forall x :: x in part ==> x in messages || x in rest
    ensures !Known(part, m.sequence)
  {
    forall i | 0 <= i < |part| ensures part[i].sequence != m.sequence {
      var x := part[i];
      assert x in part;
      if x in messages {
        var k :| 0 <= k < |messages| && messages[k] == x;
      } else {
        var k :| 0 <= k < |rest| && rest[k] == x;
        assert (rest + [m])[k] == x && (rest + [m])[|rest|] == m;
      }
    }
  }

  lemma {:induction false} AdditionalFacts(messages: seq<Message>, page: seq<Message>)
    requires Ordered(page)
    ensures var more := Additional(messages, page);
      && Ordered(more) && |more| <= |page|
      && forall m :: m in more <==> m in page && !Known(messages, m.sequence)
    ensures forall m :: m in Additional(messages, page) && page != [] ==> m.sequence <= page[|page| - 1].sequence
  {
    if page != [] {
      var rest := page[..|page| - 1];
      assert page == rest + [page[|page| - 1]];
      AdditionalFacts(messages, rest);
      forall m | m in Additional(messages, rest) ensures m.sequence < page[|page| - 1].sequence {
        assert rest != [];
      }
    }
  }

  lemma {:induction false} StepwiseOrdered(messages: seq<Message>, i: nat, j: nat)
    requires forall k :: 0 <= k < |messages| - 1 ==> messages[k].sequence < messages[k + 1].sequence
    requires i < j < |messages|
    ensures messages[i].sequence < messages[j].sequence
    decreases j
  {
    if i < j - 1 {
      StepwiseOrdered(messages, i, j - 1);
    }
    assert messages[j - 1].sequence < messages[j - 1 + 1].sequence;
  }

  lemma SoundPageOrdered(s: Snapshot, page: Page)
    requires PageSound(s, page)
    ensures Ordered(page.messages) && OneEpoch(page.messages, s.epoch)
  {
    forall i, j | 0 <= i < j < |page.messages| ensures page.messages[i].sequence < page.messages[j].sequence {
      StepwiseOrdered(page.messages, i, j);
    }
  }

  // ---- What each frame does -----------------------------------------------

  ghost predicate SuffixOf(part: seq<Message>, all: seq<Message>) {
    |part| <= |all| && part == all[|all| - |part|..]
  }

  lemma InsertThenEvict(messages: seq<Message>, m: Message, epoch: nat)
    requires SoundCache(messages, epoch) && !Known(messages, m.sequence) && m.epoch == epoch
    ensures var all := Inserted(messages, m);
      SoundCache(Evicted(all), epoch) && SuffixOf(Evicted(all), all) && |all| == |messages| + 1
  {
    var all := Inserted(messages, m);
    InsertKeeps(messages, m);
    EvictKeeps(all);
    assert OneEpoch(all, epoch);
    forall x | x in Evicted(all) ensures x in all {
    }
  }

  /** A message that is new ends up in its place, and if the cache overflows it is the
      oldest messages that go. */
  lemma MessageKeeps(s: Snapshot, m: Message)
    requires Sound(s) && AfterMessage(s, m).Applied?
    ensures var after := AfterMessage(s, m).snapshot;
      && Sound(after)
      && (m.epoch != s.epoch || Known(s.messages, m.sequence) ==> after == s)
      && (m.epoch == s.epoch && !Known(s.messages, m.sequence) ==>
            && SuffixOf(after.messages, Inserted(s.messages, m))
            && (after.limited <==> s.limited || |after.messages| < |s.messages| + 1))
  {
    hide Inserted, Evicted, Known, SoundCache, ValidMessage;
    if m.epoch == s.epoch && !Known(s.messages, m.sequence) {
      InsertThenEvict(s.messages, m, s.epoch);
    }
  }

  lemma MergeKeeps(messages: seq<Message>, page: seq<Message>, epoch: nat)
    requires SoundCache(messages, epoch) && Ordered(page) && OneEpoch(page, epoch)
    ensures var more := Additional(messages, page);
      var all := InsertedAll(messages, more);
      && Ordered(all) && OneEpoch(all, epoch)
      && |all| == |messages| + |more| && Bytes(all) == Bytes(messages) + Bytes(more)
      && forall x :: x in all <==> x in messages || (x in page && !Known(messages, x.sequence))
  {
    AdditionalFacts(messages, page);
    InsertAllKeeps(messages, Additional(messages, page));
  }

  /** A page is applied whole or not at all. */
  ghost predicate WholePage(s: Snapshot, page: Page, after: Snapshot) {
    && (forall x :: x in after.messages <==>
          x in s.messages || (x in page.messages && !Known(s.messages, x.sequence)))
    && after.status == s.status.(before := page.nextBefore, hasMore := page.hasMore)
    && after.limited == s.limited
  }

  lemma HistoryKeeps(s: Snapshot, page: Page)
    requires Sound(s) && AfterHistory(s, page).Applied?
    ensures var after := AfterHistory(s, page).snapshot;
      && Sound(after)
      && (after == s || after == s.(limited := true) || WholePage(s, page, after))
  {
    if PageMatches(s, page) {
      SoundPageOrdered(s, page);
      var more := Additional(s.messages, page.messages);
      if |s.messages| + |more| <= CACHE_MESSAGES && Bytes(s.messages) + Bytes(more) <= CACHE_BYTES {
        MergedKeeps(s, page, more, AfterHistory(s, page).snapshot);
      }
    }
  }

  lemma MergedKeeps(s: Snapshot, page: Page, more: seq<Message>, after: Snapshot)
    requires Sound(s) && Ordered(page.messages) && OneEpoch(page.messages, s.epoch)
    requires more == Additional(s.messages, page.messages)
    requires |s.messages| + |more| <= CACHE_MESSAGES && Bytes(s.messages) + Bytes(more) <= CACHE_BYTES
    requires after == s.(messages := InsertedAll(s.messages, more),
                         status := s.status.(before := page.nextBefore, hasMore := page.hasMore))
    ensures Sound(after) && WholePage(s, page, after)
  {
    MergeKeeps(s.messages, page.messages, s.epoch);
  }

  /** An applied page lowers the cursor or ends paging; a refused one ends it too, since
      no request is made while the history is limited. */
  lemma PagingProgresses(s: Snapshot, page: Page)
    requires Sound(s) && PageMatches(s, page) && AfterHistory(s, page).Applied?
    ensures var after := AfterHistory(s, page).snapshot;
      || after.limited
      || (after.status.hasMore && 0 < after.status.before < s.status.before)
      || !after.status.hasMore
    ensures var after := AfterHistory(s, page).snapshot;
      !after.limited ==> after.status.before < s.status.before
  {
    assert page.messages != [] ==> ValidMessage(page.messages[0], s.channel, s.epoch);
  }

  lemma FrameKeeps(s: Snapshot, f: Frame)
    requires Sound(s) && After(s, f).Applied?
    ensures Sound(After(s, f).snapshot)
  {
    match f
    case StateFrame(_, _, _, _, _) =>
    case MessageFrame(m) => MessageKeeps(s, m);
    case StatusFrame(status) =>
    case PageFrame(page, requested) =>
      if requested {
        HistoryKeeps(s, page);
      }
  }

  function Ran(s: Snapshot, frames: seq<Frame>): Result {
    if frames == [] then Applied(s) else
    match Ran(s, frames[..|frames| - 1])
    case Applied(mid) => After(mid, frames[|frames| - 1])
    case InvalidState => InvalidState
  }

  /** Under every sequence of frames, from any server, the cache stays sound. */
  lemma {:induction false} CacheStaysSound(s: Snapshot, frames: seq<Frame>)
    requires Sound(s)
    ensures Ran(s, frames).Applied? ==> Sound(Ran(s, frames).snapshot)
    decreases |frames|
  {
    if frames != [] {
      CacheStaysSound(s, frames[..|frames| - 1]);
      var mid := Ran(s, frames[..|frames| - 1]);
      if mid.Applied? && After(mid.snapshot, frames[|frames| - 1]).Applied? {
        FrameKeeps(mid.snapshot, frames[|frames| - 1]);
      }
    }
  }

  /** Exactly when the cache is also of one channel: a state frame of the same epoch must
      not name another channel, as a server that starts a new epoch on every move never does. */
  ghost predicate OneChannel(s: Snapshot) {
    forall m :: m in s.messages ==> m.channel == s.channel
  }

  lemma ChannelKept(s: Snapshot, f: Frame)
    requires Sound(s) && OneChannel(s) && After(s, f).Applied?
    ensures OneChannel(After(s, f).snapshot) <==>
      !(f.StateFrame? && f.epoch == s.epoch && f.channel != s.channel && s.messages != [])
  {
    match f
    case StateFrame(_, channel, epoch, _, _) =>
      assert s.messages != [] ==> s.messages[0] in s.messages;
    case MessageFrame(m) =>
      if m.epoch == s.epoch && !Known(s.messages, m.sequence) {
        InsertKeeps(s.messages, m);
        EvictKeeps(Inserted(s.messages, m));
      }
    case StatusFrame(status) =>
    case PageFrame(page, requested) =>
      if requested {
        PageChannel(s, page);
      }
  }

  lemma PageChannel(s: Snapshot, page: Page)
    requires Sound(s) && OneChannel(s) && AfterHistory(s, page).Applied?
    ensures OneChannel(AfterHistory(s, page).snapshot)
  {
    HistoryKeeps(s, page);
    if PageMatches(s, page) {
      forall x | x in page.messages ensures x.channel == s.channel {
        var i :| 0 <= i < |page.messages| && page.messages[i] == x;
        assert ValidMessage(page.messages[i], s.channel, s.epoch);
      }
    }
  }

  // ---- The driver's loops -------------------------------------------------

  class Driver {
    var snapshot: Snapshot

    constructor (channel: UInt16, epoch: nat, revision: nat)
      ensures snapshot == Snapshot(channel, epoch, revision, [], NoStatus, false) && Sound(snapshot)
    {
      snapshot := Snapshot(channel, epoch, revision, [], NoStatus, false);
    }

    /** One live message: insert it, then pop the oldest until the cache fits. */
    method OnMessage(m: Message) returns (ok: bool)
      requires Sound(snapshot)
      modifies this
      ensures Sound(snapshot)
      ensures AfterMessage(old(snapshot), m) == if ok then Applied(snapshot) else InvalidState
      ensures ok <==>
        m.epoch == old(snapshot.epoch) ==>
          && m.channel == old(snapshot.channel) && m.sequence > 0 && m.timestamp > 0
          && |m.author| == 64
          && (forall i :: 0 <= i < 64 ==>
                '0' <= m.author[i] <= '9' || 'a' <= m.author[i] <= 'f' || 'A' <= m.author[i] <= 'F')
          && |m.text| <= 8192 && |m.nickname| <= 120 && |m.clientId| <= 128
    {
      var s := snapshot;
      if m.epoch != s.epoch {
        return true;
      }
      if !ValidMessage(m, s.channel, s.epoch) {
        return false;
      }
      if Known(s.messages, m.sequence) {
        return true;
      }
      InsertThenEvict(s.messages, m, s.epoch);
      var index := Point(s.messages, m.sequence);
      var messages := s.messages[..index] + [m] + s.messages[index..];
      var rest, dropped := DropOldest(messages);
      snapshot := s.(messages := rest, limited := s.limited || dropped);
      return true;
    }

    /** A scoped state: a new epoch empties the cache. */
    method OnState(f: Frame) returns (ok: bool)
      requires Sound(snapshot) && f.StateFrame?
      modifies this
      ensures Sound(snapshot)
      ensures AfterState(old(snapshot), f) == if ok then Applied(snapshot) else InvalidState
      ensures ok <==>
        f.wellFormed && f.epoch >= old(snapshot.epoch) && (f.watching ==> f.revision > old(snapshot.revision))
      ensures ok ==>
        && snapshot.channel == f.channel && snapshot.epoch == f.epoch && snapshot.revision == f.revision
        && (f.epoch == old(snapshot.epoch) ==>
              && snapshot.messages == old(snapshot.messages) && snapshot.status == old(snapshot.status)
              && snapshot.limited == old(snapshot.limited))
        && (f.epoch != old(snapshot.epoch) ==>
              snapshot.messages == [] && snapshot.status == NoStatus && !snapshot.limited)
    {
      if !f.wellFormed || f.epoch < snapshot.epoch || (f.watching && f.revision <= snapshot.revision) {
        return false;
      }
      if f.epoch != snapshot.epoch {
        snapshot := snapshot.(messages := [], status := NoStatus, limited := false);
      }
      snapshot := snapshot.(channel := f.channel, epoch := f.epoch, revision := f.revision);
      return true;
    }

    /** A chat status of this stay replaces one of an earlier or the same generation. */
    method OnStatus(status: ChatStatus) returns (ok: bool)
      requires Sound(snapshot)
      modifies this
      ensures Sound(snapshot)
      ensures AfterStatus(old(snapshot), status) == if ok then Applied(snapshot) else InvalidState
      ensures snapshot.status.generation >= old(snapshot.status.generation)
      ensures ok <==> status.status <= 2
      ensures var s := old(snapshot);
        var ours := status.epoch == s.epoch && status.channel == s.channel && status.generation >= s.status.generation;
        snapshot == s.(status := if ok && ours then status else s.status)
    {
      if status.status > 2 {
        return false;
      }
      if status.epoch == snapshot.epoch && status.channel == snapshot.channel
        && status.generation >= snapshot.status.generation
      {
        snapshot := snapshot.(status := status);
      }
      return true;
    }

    /** One history page: filter out what is known, check the budget, insert the rest. */
    method OnHistory(page: Page) returns (ok: bool)
      requires Sound(snapshot)
      modifies this
      ensures Sound(snapshot)
      ensures AfterHistory(old(snapshot), page) == if ok then Applied(snapshot) else InvalidState
    {
      var s := snapshot;
      if !PageMatches(s, page) {
        return true;
      }
      if !PageSound(s, page) {
        return false;
      }
      HistoryKeeps(s, page);
      var additional := NewIn(s.messages, page.messages);
      if |s.messages| + |additional| > CACHE_MESSAGES || Bytes(s.messages) + Bytes(additional) > CACHE_BYTES {
        snapshot := s.(limited := true);
        return true;
      }
      var messages := Merge(s.messages, additional);
      snapshot := s.(messages := messages, status := s.status.(before := page.nextBefore, hasMore := page.hasMore));
      return true;
    }
  }

  method DropOldest(all: seq<Message>) returns (messages: seq<Message>, dropped: bool)
    ensures messages == Evicted(all) && (dropped <==> messages != all)
  {
    messages := all;
    var size := Bytes(messages);
    dropped := false;
    while |messages| > CACHE_MESSAGES || size > CACHE_BYTES
      invariant size == Bytes(messages) && |messages| <= |all|
      invariant Evicted(messages) == Evicted(all)
      invariant if dropped then |messages| < |all| else messages == all
      decreases |messages|
    {
      size := size - Load(messages[0]);
      messages := messages[1..];
      dropped := true;
    }
  }

  method NewIn(messages: seq<Message>, page: seq<Message>) returns (additional: seq<Message>)
    ensures additional == Additional(messages, page)
  {
    additional := [];
    var i := 0;
    while i < |page|
      invariant 0 <= i <= |page| && additional == Additional(messages, page[..i])
    {
      assert page[..i + 1][..i] == page[..i];
      if !Known(messages, page[i].sequence) {
        additional := additional + [page[i]];
      }
      i := i + 1;
    }
    assert page[..i] == page;
  }

  method Merge(messages: seq<Message>, more: seq<Message>) returns (all: seq<Message>)
    ensures all == InsertedAll(messages, more)
  {
    all := messages;
    var i := 0;
    while i < |more|
      invariant 0 <= i <= |more| && all == InsertedAll(messages, more[..i])
    {
      assert more[..i + 1][..i] == more[..i];
      var index := Point(all, more[i].sequence);
      all := all[..index] + [more[i]] + all[index..];
      i := i + 1;
    }
    assert more[..i] == more;
  }

  // ---- Against the server -------------------------------------------------

  /** chatHistory stamps the page with the request's epoch and generation. */
  function Stamp(m: Message, epoch: nat): Message {
    m.(epoch := epoch)
  }

  function Stamped(page: Page, epoch: nat, generation: nat): Page {
    page.(epoch := epoch, generation := generation,
          messages := seq(|page.messages|, i requires 0 <= i < |page.messages| => Stamp(page.messages[i], epoch)))
  }

  /** Every page the server can read from a log of storable messages passes the checks. */
  lemma ServerPageAccepted(
    log: seq<Message>, channel: UInt16, floors: seq<nat>, page: Page, s: Snapshot)
    requires Stream(log) && forall m :: m in Below(log, channel, page.before) ==> Storable(m)
    requires PageOf(Below(log, channel, page.before), floors, page.before, page)
    requires page.channel == channel == s.channel && page.before != 0
    ensures PageSound(s, Stamped(page, s.epoch, s.status.generation))
    ensures AfterHistory(s, Stamped(page, s.epoch, s.status.generation)).Applied?
  {
    hide AfterHistory, Below, Additional, InsertedAll, Bytes, Size, Stream;
    ServerPageSound(log, channel, floors, page, s);
    SoundIsApplied(s, Stamped(page, s.epoch, s.status.generation));
  }

  lemma SoundIsApplied(s: Snapshot, page: Page)
    requires PageSound(s, page)
    ensures AfterHistory(s, page).Applied?
  {
    hide PageSound, Additional, InsertedAll, Bytes;
  }

  lemma ServerPageSound(
    log: seq<Message>, channel: UInt16, floors: seq<nat>, page: Page, s: Snapshot)
    requires Stream(log) && forall m :: m in Below(log, channel, page.before) ==> Storable(m)
    requires PageOf(Below(log, channel, page.before), floors, page.before, page)
    requires page.channel == channel == s.channel && page.before != 0
    ensures PageSound(s, Stamped(page, s.epoch, s.status.generation))
  {
    hide Below, Size, Hex, Storable, ValidMessage;
    var all := Below(log, channel, page.before);
    var sent := Stamped(page, s.epoch, s.status.generation);
    BelowFacts(log, channel, page.before);
    if page.hasMore {
      MoreMeansSome(all, floors, page.before, page);
    }
    PageIsTail(all, floors, page.before, page);
    forall i | 0 <= i < |sent.messages|
      ensures ValidMessage(sent.messages[i], s.channel, s.epoch) && sent.messages[i].history
        && sent.messages[i].sequence < page.before
    {
      var m := page.messages[i];
      assert m == all[|all| - |page.messages| + i];
      assert m in all && m.sequence > 0;
      StampedIsValid(m, s);
    }
  }

  lemma StampedIsValid(m: Message, s: Snapshot)
    requires Storable(m) && m.channel == s.channel && m.sequence > 0
    ensures ValidMessage(Stamp(m, s.epoch), s.channel, s.epoch)
  {
  }

  /** The cache holds the newest messages of a channel, down to the paging cursor. */
  ghost predicate Contiguous(messages: seq<Message>, before: nat, all: seq<Message>) {
    var numbers := Numbers(all);
    && |messages| <= |all| && Numbers(messages) == numbers[|all| - |messages|..]
    && messages != [] && before == messages[0].sequence
  }

  /** Paging back from there extends that run without a hole, whenever the page fits; an
      empty page ends paging. */
  lemma PagingExtendsTheRun(log: seq<Message>, floors: seq<nat>, page: Page, s: Snapshot, sent: Page)
    requires Sound(s) && Stream(log)
    requires Contiguous(s.messages, s.status.before, Below(log, s.channel, 0))
    requires forall m :: m in Below(log, s.channel, page.before) ==> Storable(m)
    requires PageOf(Below(log, s.channel, page.before), floors, page.before, page)
    requires page.channel == s.channel && page.before == s.status.before
    requires sent == Stamped(page, s.epoch, s.status.generation)
    ensures var result := AfterHistory(s, sent);
      && result.Applied?
      && (result.snapshot == s.(limited := true)
          || (&& result.snapshot.messages == sent.messages + s.messages
              && (if page.messages == [] then result.snapshot.status.before == 0 && !result.snapshot.status.hasMore
                  else Contiguous(result.snapshot.messages, result.snapshot.status.before, Below(log, s.channel, 0)))))
  {
    CursorIsInside(log, s.channel, s.messages, s.status.before);
    ServerPageAccepted(log, s.channel, floors, page, s);
    OlderPageInFront(s, sent);
    if page.messages != [] {
      PageExtends(log, s.channel, floors, page, s.messages, sent);
    } else {
      assert !page.hasMore by {
        assert !sent.hasMore;
      }
    }
  }

  lemma StampNumbers(page: Page, epoch: nat, generation: nat)
    ensures Numbers(Stamped(page, epoch, generation).messages) == Numbers(page.messages)
  {
  }

  lemma PageExtends(
    log: seq<Message>, channel: UInt16, floors: seq<nat>, page: Page, messages: seq<Message>, sent: Page)
    requires Stream(log) && page.messages != [] && sent == Stamped(page, sent.epoch, sent.generation)
    requires Contiguous(messages, page.before, Below(log, channel, 0))
    requires PageOf(Below(log, channel, page.before), floors, page.before, page)
    ensures Contiguous(sent.messages + messages, page.nextBefore, Below(log, channel, 0))
  {
    CursorIsInside(log, channel, messages, page.before);
    BelowStream(log, channel, 0);
    StampNumbers(page, sent.epoch, sent.generation);
    PageIsTail(Below(log, channel, page.before), floors, page.before, page);
    RunGrows(Below(log, channel, 0), Below(log, channel, page.before), messages, page.before,
             page.messages, sent.messages);
  }

  /** A page older than the whole cache goes in front of it. */
  lemma OlderPageInFront(s: Snapshot, page: Page)
    requires Sound(s) && PageMatches(s, page) && PageSound(s, page)
    requires s.messages != [] && s.status.before <= s.messages[0].sequence
    ensures AfterHistory(s, page) == Applied(
      if |s.messages| + |page.messages| > CACHE_MESSAGES || Bytes(s.messages) + Bytes(page.messages) > CACHE_BYTES
      then s.(limited := true)
      else s.(messages := page.messages + s.messages,
              status := s.status.(before := page.nextBefore, hasMore := page.hasMore)))
  {
    OlderPartInFront(s, page, |page.messages|);
    assert page.messages[..|page.messages|] == page.messages;
  }

  /** Of a page that reaches into the cache, the part older than the cache goes in front. */
  lemma OlderPartInFront(s: Snapshot, page: Page, n: nat)
    requires Sound(s) && PageMatches(s, page) && PageSound(s, page) && s.messages != [] && n <= |page.messages|
    requires forall i :: 0 <= i < n ==> page.messages[i].sequence < s.messages[0].sequence
    requires forall i :: n <= i < |page.messages| ==> Known(s.messages, page.messages[i].sequence)
    ensures AfterHistory(s, page) == Applied(
      if |s.messages| + n > CACHE_MESSAGES || Bytes(s.messages) + Bytes(page.messages[..n]) > CACHE_BYTES
      then s.(limited := true)
      else s.(messages := page.messages[..n] + s.messages,
              status := s.status.(before := page.nextBefore, hasMore := page.hasMore)))
  {
    SoundPageOrdered(s, page);
    OlderAreUnknown(s.messages, page.messages, n);
    AllOlderInFront(s.messages, page.messages[..n]);
  }

  lemma {:induction false} OlderAreUnknown(messages: seq<Message>, page: seq<Message>, n: nat)
    requires Ordered(messages) && messages != [] && n <= |page|
    requires forall i :: 0 <= i < n ==> page[i].sequence < messages[0].sequence
    requires forall i :: n <= i < |page| ==> Known(messages, page[i].sequence)
    ensures Additional(messages, page) == page[..n]
    decreases |page|
  {
    if page != [] {
      var rest, m := page[..|page| - 1], page[|page| - 1];
      if n == |page| {
        OlderAreUnknown(messages, rest, n - 1);
        assert !Known(messages, m.sequence);
        assert page[..n] == rest[..n - 1] + [m];
      } else {
        OlderAreUnknown(messages, rest, n);
        assert page[..n] == rest[..n];
      }
    }
  }

  lemma {:induction false} AllOlderInFront(messages: seq<Message>, page: seq<Message>)
    requires Ordered(messages) && messages != [] && Ordered(page)
    requires forall i :: 0 <= i < |page| ==> page[i].sequence < messages[0].sequence
    ensures InsertedAll(messages, page) == page + messages
    decreases |page|
  {
    if page == [] {
      assert page + messages == messages;
    } else {
      var rest, m := page[..|page| - 1], page[|page| - 1];
      AllOlderInFront(messages, rest);
      InsertBetween(rest, messages, m);
      assert rest + [m] == page;
    }
  }

  lemma InsertBetween(older: seq<Message>, newer: seq<Message>, m: Message)
    requires forall i :: 0 <= i < |older| ==> older[i].sequence < m.sequence
    requires newer != [] && newer[0].sequence > m.sequence
    ensures Inserted(older + newer, m) == older + [m] + newer
  {
    PointAfter(older, newer, m.sequence);
  }

  lemma {:induction false} PointAfter(older: seq<Message>, newer: seq<Message>, sequence: nat)
    requires forall i :: 0 <= i < |older| ==> older[i].sequence < sequence
    requires newer != [] && newer[0].sequence > sequence
    ensures Point(older + newer, sequence) == |older|
    ensures (older + newer)[..|older|] == older && (older + newer)[|older|..] == newer
  {
    if older != [] {
      PointAfter(older[1..], newer, sequence);
      assert (older + newer)[1..] == older[1..] + newer;
    } else {
      assert older + newer == newer;
    }
  }

  /** The channel below the cursor is what the cache does not hold. */
  lemma CursorIsInside(log: seq<Message>, channel: UInt16, messages: seq<Message>, before: nat)
    requires Stream(log) && Contiguous(messages, before, Below(log, channel, 0))
    ensures var all := Below(log, channel, 0);
      Below(log, channel, before) == all[..|all| - |messages|] && before > 0
  {
    var all := Below(log, channel, 0);
    var j := |all| - |messages|;
    assert Numbers(messages)[0] == Numbers(all)[j];
    BelowCut(log, channel, 0, j);
    BelowFacts(log, channel, 0);
  }

  lemma NumbersSplit(all: seq<Message>, j: nat)
    requires j <= |all|
    ensures Numbers(all) == Numbers(all[..j]) + Numbers(all)[j..]
  {
  }

  lemma NumbersJoin(a: seq<Message>, b: seq<Message>)
    ensures Numbers(a + b) == Numbers(a) + Numbers(b)
  {
  }

  lemma RunGrows(
    all: seq<Message>, older: seq<Message>, messages: seq<Message>, before: nat,
    page: seq<Message>, sent: seq<Message>)
    requires Ordered(all) && Contiguous(messages, before, all) && older == all[..|all| - |messages|]
    requires page != [] && |page| <= |older| && page == older[|older| - |page|..]
    requires Numbers(sent) == Numbers(page)
    ensures Contiguous(sent + messages, page[0].sequence, all)
  {
    NumbersSplit(all, |all| - |messages|);
    TailThenLive(all, older, |page|, messages);
    NumbersJoin(page, messages);
    NumbersJoin(sent, messages);
    assert Numbers(sent)[0] == Numbers(page)[0];
  }
}
