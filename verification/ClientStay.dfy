/** One stay in a channel as the client sees it: an initial page message by message, its
    status, live messages, the history pages that were asked for, and further initial pages
    when the chat is synchronised again (client/src/session.rs against
    internal/server/chat.go). */
module ClientStay {
  import opened Common
  import opened ChatLog
  import opened ClientCache

  /** The reader of a generation first sends its page, which ends where `boundary` messages of
      the channel's log lie behind it, then, once `ready`, what follows; `hi` is the next message it
      sends. `top` is just after the newest message the client was sent. */
  datatype Stay = Stay(
    s: Snapshot, page: Page, generation: nat, boundary: nat, hi: nat, ready: bool, top: nat)

  datatype Step =
    | Deliver
    | Ready
    | Turn(status: ChatStatus)
    | Restart(page: Page, floors: seq<nat>, boundary: nat, generation: nat)
    | History(page: Page, floors: seq<nat>)

  /** A channel's log. */
  ghost predicate ChannelLog(all: seq<Message>, channel: UInt16) {
    Stream(all) && forall i :: 0 <= i < |all| ==> all[i].channel == channel && all[i].history && Storable(all[i])
  }

  /** The first message of the reader's page. */
  function Start(stay: Stay): int {
    stay.boundary - |stay.page.messages|
  }

  /** The oldest cached message. */
  function Oldest(stay: Stay): int {
    stay.top - |stay.s.messages|
  }

  // ---- What the server sends ----------------------------------------------

  /** The page of a new reader: read just below the message after the boundary, or empty
      when nothing was retained. */
  ghost predicate InitialPage(all: seq<Message>, channel: UInt16, page: Page, floors: seq<nat>, boundary: nat) {
    && boundary <= |all|
    && (|| (page.messages == [] && page.nextBefore == 0 && !page.hasMore)
        || (&& boundary > 0
            && PageOf(Below(all, channel, all[boundary - 1].sequence + 1), floors,
                      all[boundary - 1].sequence + 1, page)))
  }

  function Sent(m: Message, epoch: nat, history: bool): Message {
    m.(epoch := epoch, history := history)
  }

  /** A status that ends paging, of this generation or a later one. */
  predicate Off(s: Snapshot, status: ChatStatus) {
    && status.status <= 2 && status.before == 0 && !status.hasMore
    && status.generation >= s.status.generation && status.channel == s.channel && status.epoch == s.epoch
  }

  ghost predicate Enabled(all: seq<Message>, stay: Stay, step: Step) {
    match step
    case Deliver => stay.hi < if stay.ready then |all| else stay.boundary
    case Ready => !stay.ready && stay.hi == stay.boundary
    case Turn(status) => Off(stay.s, status)
    case Restart(page, floors, boundary, _) =>
      stay.hi <= boundary && InitialPage(all, stay.s.channel, page, floors, boundary)
    case History(page, floors) =>
      && page.channel == stay.s.channel && page.before != 0
      && PageOf(Below(all, stay.s.channel, page.before), floors, page.before, page)
  }

  /** The message of a Deliver step. */
  function Upcoming(all: seq<Message>, stay: Stay): Message {
    if stay.hi < |all| then Sent(all[stay.hi], stay.s.epoch, stay.hi < stay.boundary)
    else Message(0, 0, 0, 0, "", "", "", "", false)
  }

  /** The frame of a step; the end of one reader and the start of another has none. */
  function FrameOf(all: seq<Message>, stay: Stay, step: Step): Frame
    requires !step.Restart?
  {
    var s := stay.s;
    match step
    case Deliver => MessageFrame(Upcoming(all, stay))
    case Ready =>
      StatusFrame(ChatStatus(s.channel, s.epoch, stay.generation, 1, stay.page.nextBefore, stay.page.hasMore))
    case Turn(status) => StatusFrame(status)
    case History(page, _) => PageFrame(Stamped(page, s.epoch, s.status.generation), true)
  }

  /** The client after a frame; FramesAccepted shows that none ends the session. */
  function Taken(s: Snapshot, f: Frame): Snapshot {
    var result := After(s, f);
    if result.Applied? then result.snapshot else s
  }

  function Next(all: seq<Message>, stay: Stay, step: Step): Stay {
    match step
    case Deliver =>
      stay.(s := Taken(stay.s, FrameOf(all, stay, step)), hi := stay.hi + 1,
            top := if stay.hi >= stay.top then stay.hi + 1 else stay.top)
    case Restart(page, _, boundary, generation) =>
      var start: nat := if |page.messages| <= boundary then boundary - |page.messages| else 0;
      Stay(stay.s, page, generation, boundary, start, false, if stay.s.messages == [] then start else stay.top)
    case _ =>
      stay.(s := Taken(stay.s, FrameOf(all, stay, step)), ready := stay.ready || step.Ready?)
  }

  // ---- The invariant ------------------------------------------------------

  /** The cache is a run of the log that ends before position `top`. */
  ghost predicate Gapless(all: seq<Message>, top: nat, messages: seq<Message>) {
    && |messages| <= top <= |all|
    && Numbers(messages) == Numbers(all)[top - |messages|..top]
  }

  ghost predicate CursorAt(all: seq<Message>, top: nat, before: nat, j: nat) {
    j < |all| && j <= top && all[j].sequence == before
  }

  /** The paging cursor is 0 or a message of the log up to the newest one sent. */
  ghost predicate CursorFits(all: seq<Message>, top: nat, before: nat) {
    before != 0 ==> exists j :: CursorAt(all, top, before, j)
  }

  /** The cached messages are no larger than what may be stored. */
  ghost predicate Small(messages: seq<Message>) {
    forall m :: m in messages ==> Load(m) <= 8312
  }

  /** The reader's page, its cursor, and how far the reader has come. */
  ghost predicate Reading(all: seq<Message>, stay: Stay) {
    && 0 <= Start(stay) <= stay.hi <= |all| && stay.boundary <= |all|
    && stay.page.nextBefore == (if stay.page.messages == [] then 0 else all[Start(stay)].sequence)
    && (Start(stay) < stay.hi ==> stay.hi <= stay.top)
    && (!stay.ready ==> stay.hi <= stay.boundary)
    && (stay.s.messages == [] ==> stay.hi == stay.top == Start(stay) && stay.s.status.before == 0)
  }

  ghost predicate Inv(all: seq<Message>, stay: Stay) {
    && ChannelLog(all, stay.s.channel) && Sound(stay.s) && Small(stay.s.messages)
    && Gapless(all, stay.top, stay.s.messages)
    && CursorFits(all, stay.top, stay.s.status.before) && Reading(all, stay)
  }

  // ---- Runs of the log ----------------------------------------------------

  lemma NumberAt(messages: seq<Message>, all: seq<Message>, top: nat, i: nat)
    requires Gapless(all, top, messages) && i < |messages|
    ensures messages[i].sequence == all[top - |messages| + i].sequence
  {
    assert Numbers(messages)[i] == Numbers(all)[top - |messages|..top][i];
  }

  lemma GaplessMore(all: seq<Message>, top: nat, messages: seq<Message>, m: Message)
    requires Gapless(all, top, messages) && top < |all| && m.sequence == all[top].sequence
    ensures Gapless(all, top + 1, messages + [m])
  {
    NumbersPush(messages, m);
    assert Numbers(all)[top - |messages|..top + 1] == Numbers(all)[top - |messages|..top] + [Numbers(all)[top]];
  }

  lemma GaplessSuffix(all: seq<Message>, top: nat, messages: seq<Message>, rest: seq<Message>)
    requires Gapless(all, top, messages) && SuffixOf(rest, messages)
    ensures Gapless(all, top, rest)
  {
    forall i | 0 <= i < |rest| ensures Numbers(rest)[i] == Numbers(all)[top - |rest|..top][i] {
      NumberAt(messages, all, top, |messages| - |rest| + i);
    }
  }

  lemma LengthFits(all: seq<Message>, top: nat, messages: seq<Message>)
    requires Gapless(all, top, messages)
    ensures |messages| <= top <= |all|
  {
  }

  /** A run taken from just below the cache extends it downward. */
  lemma GaplessBelow(all: seq<Message>, top: nat, messages: seq<Message>, page: seq<Message>, sent: seq<Message>)
    requires Gapless(all, top, messages) && Numbers(sent) == Numbers(page)
    requires |page| <= top - |messages| && page == all[top - |messages| - |page|..top - |messages|]
    ensures Gapless(all, top, sent + messages)
  {
    var lo := top - |messages|;
    NumbersJoin(sent, messages);
    assert Numbers(page) == Numbers(all)[lo - |page|..lo];
    assert Numbers(all)[lo - |page|..top] == Numbers(all)[lo - |page|..lo] + Numbers(all)[lo..top];
  }

  /** A run that ends below position j in front of a run from a later position is no run. */
  lemma FrontLeavesHole(
    all: seq<Message>, top: nat, messages: seq<Message>, j: nat, page: seq<Message>, sent: seq<Message>)
    requires Ordered(all) && Gapless(all, top, messages) && j < top - |messages|
    requires page != [] && |page| <= j && page == all[..j][j - |page|..] && Numbers(sent) == Numbers(page)
    ensures !Gapless(all, top, sent + messages)
  {
    var lo, k := top - |messages|, |page|;
    assert sent[k - 1].sequence == Numbers(sent)[k - 1] == Numbers(page)[k - 1] == all[j - 1].sequence;
    assert all[j - 1].sequence < all[lo - 1].sequence;
    if Gapless(all, top, sent + messages) {
      NumberAt(sent + messages, all, top, k - 1);
      assert false;
    }
  }

  // ---- Deliveries ---------------------------------------------------------

  lemma {:induction false} NewestGoesLast(messages: seq<Message>, m: Message)
    requires forall i :: 0 <= i < |messages| ==> messages[i].sequence < m.sequence
    ensures Inserted(messages, m) == messages + [m] && !Known(messages, m.sequence)
  {
    AllOlder(messages, m.sequence);
  }

  lemma {:induction false} AllOlder(messages: seq<Message>, sequence: nat)
    requires forall i :: 0 <= i < |messages| ==> messages[i].sequence < sequence
    ensures Point(messages, sequence) == |messages|
  {
    if messages != [] {
      AllOlder(messages[1..], sequence);
    }
  }

  /** Which of the log's messages are cached and where the others go. */
  lemma WhereItGoes(all: seq<Message>, top: nat, messages: seq<Message>, hi: nat, m: Message)
    requires Ordered(all) && Gapless(all, top, messages) && hi < |all| && m.sequence == all[hi].sequence
    ensures Known(messages, m.sequence) <==> top - |messages| <= hi < top
    ensures hi >= top ==> Inserted(messages, m) == messages + [m]
    ensures hi < top - |messages| ==> Inserted(messages, m) == [m] + messages
  {
    var lo := top - |messages|;
    forall i | 0 <= i < |messages| ensures messages[i].sequence == all[lo + i].sequence {
      NumberAt(messages, all, top, i);
    }
    if lo <= hi < top {
      assert messages[hi - lo].sequence == m.sequence;
    } else if hi >= top {
      NewestGoesLast(messages, m);
    } else {
      assert messages[..0] + [m] + messages[0..] == [m] + messages;
    }
  }

  /** Two messages never fill the cache, so the newest two always stay. */
  lemma {:induction false} NewestStay(messages: seq<Message>)
    requires messages != [] && Small(messages)
    ensures 0 < |Evicted(messages)| <= |messages|
    ensures |messages| > 1 ==> |Evicted(messages)| > 1
    decreases |messages|
  {
    if |messages| > 2 {
      NewestStay(messages[1..]);
    } else if |messages| == 2 {
      assert messages[1..][1..] == [];
      assert Bytes(messages[1..]) == Load(messages[1]) && messages[0] in messages && messages[1] in messages;
    } else {
      assert messages[1..] == [] && messages[0] in messages;
    }
  }

  /** What a message from position hi does to the cache when it is not cached. */
  lemma Added(all: seq<Message>, s: Snapshot, top: nat, hi: nat, m: Message, after: Result, added: seq<Message>)
    requires ChannelLog(all, s.channel) && Sound(s) && Small(s.messages) && Gapless(all, top, s.messages)
    requires hi < |all| && m == Sent(all[hi], s.epoch, m.history) && after == AfterMessage(s, m)
    requires !Known(s.messages, m.sequence) && added == Inserted(s.messages, m)
    ensures after == Applied(s.(messages := Evicted(added), limited := s.limited || Evicted(added) != added))
    ensures SoundCache(Evicted(added), s.epoch) && SuffixOf(Evicted(added), added) && |added| == |s.messages| + 1
    ensures Small(added) && Small(Evicted(added)) && 0 < |Evicted(added)|
    ensures s.messages != [] ==> |Evicted(added)| > 1
  {
    hide Evicted, Known, Gapless, ChannelLog, Inserted, SoundCache, Small, ValidMessage, AfterMessage, SuffixOf;
    Arrives(all, s, hi, m);
    AfterNew(s, m);
    InsertThenEvict(s.messages, m, s.epoch);
    AddedSmall(s.messages, m, added);
  }

  lemma AddedSmall(messages: seq<Message>, m: Message, added: seq<Message>)
    requires Small(messages) && Load(m) <= 8312 && added == Inserted(messages, m)
    requires |added| == |messages| + 1 && SuffixOf(Evicted(added), added)
    ensures Small(added) && Small(Evicted(added)) && 0 < |Evicted(added)|
    ensures messages != [] ==> |Evicted(added)| > 1
  {
    hide Evicted, Inserted, Small, SuffixOf, Load;
    InsertedSmall(messages, m);
    NewestStay(added);
    SuffixSmall(added, Evicted(added));
  }

  lemma AfterNew(s: Snapshot, m: Message)
    requires ValidMessage(m, s.channel, s.epoch) && !Known(s.messages, m.sequence)
    ensures var added := Inserted(s.messages, m);
      AfterMessage(s, m)
        == Applied(s.(messages := Evicted(added), limited := s.limited || Evicted(added) != added))
  {
    hide Evicted, Known, Inserted;
  }

  lemma Arrives(all: seq<Message>, s: Snapshot, hi: nat, m: Message)
    requires ChannelLog(all, s.channel) && hi < |all| && m == Sent(all[hi], s.epoch, m.history)
    ensures ValidMessage(m, s.channel, s.epoch) && Load(m) <= 8312 && m.epoch == s.epoch
  {
  }

  lemma InsertedSmall(messages: seq<Message>, m: Message)
    requires Small(messages) && Load(m) <= 8312
    ensures Small(Inserted(messages, m))
  {
    forall x | x in Inserted(messages, m) ensures x in messages || x == m {
    }
  }

  lemma SuffixSmall(messages: seq<Message>, rest: seq<Message>)
    requires Small(messages) && SuffixOf(rest, messages)
    ensures Small(rest)
  {
  }

  /** A newer message goes last, and only the oldest make room for it. */
  lemma NewerExactly(all: seq<Message>, top: nat, messages: seq<Message>, hi: nat, m: Message, rest: seq<Message>)
    requires Ordered(all) && Gapless(all, top, messages) && top <= hi < |all| && m.sequence == all[hi].sequence
    requires SuffixOf(rest, messages + [m]) && rest != [] && (messages != [] ==> |rest| > 1)
    requires messages == [] ==> hi == top
    ensures Gapless(all, hi + 1, rest) <==> hi == top
  {
    if hi == top {
      GaplessMore(all, top, messages, m);
      GaplessSuffix(all, hi + 1, messages + [m], rest);
    } else {
      var n := |messages|;
      assert rest[|rest| - 2] == (messages + [m])[n - 1] == messages[n - 1];
      NumberAt(messages, all, top, n - 1);
      assert all[top - 1].sequence < all[hi - 1].sequence;
      if Gapless(all, hi + 1, rest) {
        NumberAt(rest, all, hi + 1, |rest| - 2);
        assert false;
      }
    }
  }

  predicate Room(s: Snapshot, m: Message) {
    |s.messages| + 1 <= CACHE_MESSAGES && Load(m) + Bytes(s.messages) <= CACHE_BYTES
  }

  /** An older one goes first, and when there is no room it is the one that goes. */
  lemma OlderExactly(all: seq<Message>, top: nat, s: Snapshot, hi: nat, m: Message)
    requires Ordered(all) && Gapless(all, top, s.messages) && Sound(s)
    requires hi < top - |s.messages| && m.sequence == all[hi].sequence
    ensures Gapless(all, top, Evicted([m] + s.messages)) <==> hi == top - |s.messages| - 1 || !Room(s, m)
  {
    var messages := s.messages;
    assert ([m] + messages)[1..] == messages;
    if Room(s, m) {
      assert Evicted([m] + messages) == [m] + messages;
      assert all[hi..hi + 1] == [all[hi]] && Numbers([m]) == Numbers([all[hi]]);
      if hi == top - |messages| - 1 {
        GaplessBelow(all, top, messages, [all[hi]], [m]);
      } else {
        assert all[..hi + 1][hi..] == [all[hi]];
        FrontLeavesHole(all, top, messages, hi + 1, [all[hi]], [m]);
      }
    } else {
      assert Evicted([m] + messages) == messages;
    }
  }

  /** Exactly when a delivery leaves the cache without a gap: the message is cached or next
      to the cache, or so much older that it finds no room. */
  predicate Joins(s: Snapshot, top: nat, hi: nat, m: Message) {
    top - |s.messages| - 1 <= hi <= top || (hi < top && !Room(s, m))
  }

  lemma DeliverExactly(all: seq<Message>, s: Snapshot, top: nat, hi: nat, m: Message, after: Result)
    requires ChannelLog(all, s.channel) && Sound(s) && Small(s.messages) && Gapless(all, top, s.messages)
    requires hi < |all| && m == Sent(all[hi], s.epoch, m.history) && after == AfterMessage(s, m)
    requires s.messages == [] ==> hi == top
    ensures after.Applied? && Sound(after.snapshot) && Small(after.snapshot.messages) && after.snapshot.messages != []
    ensures after.snapshot == s.(messages := after.snapshot.messages, limited := after.snapshot.limited)
    ensures Gapless(all, if hi >= top then hi + 1 else top, after.snapshot.messages) <==> Joins(s, top, hi, m)
  {
    WhereItGoes(all, top, s.messages, hi, m);
    if Known(s.messages, m.sequence) {
      KnownIsIgnored(all, s, hi, m);
    } else {
      var added := Inserted(s.messages, m);
      Added(all, s, top, hi, m, after, added);
      hide AfterMessage, Evicted, Gapless, Known, Inserted, SoundCache, Room, Numbers;
      if hi >= top {
        NewerExactly(all, top, s.messages, hi, m, Evicted(added));
      } else {
        OlderExactly(all, top, s, hi, m);
      }
    }
  }

  lemma KnownIsIgnored(all: seq<Message>, s: Snapshot, hi: nat, m: Message)
    requires ChannelLog(all, s.channel) && hi < |all| && m == Sent(all[hi], s.epoch, m.history)
    requires Known(s.messages, m.sequence)
    ensures AfterMessage(s, m) == Applied(s) && s.messages != []
  {
  }

  // ---- Pages --------------------------------------------------------------

  /** The log below one of its messages. */
  lemma BelowOldest(all: seq<Message>, channel: UInt16, lo: nat)
    requires ChannelLog(all, channel) && lo < |all|
    ensures Below(all, channel, all[lo].sequence) == all[..lo]
  {
    WholeLog(all, channel);
    BelowCut(all, channel, 0, lo);
  }

  lemma {:induction false} WholeLog(all: seq<Message>, channel: UInt16)
    requires ChannelLog(all, channel)
    ensures Below(all, channel, 0) == all
  {
    if all != [] {
      WholeLog(all[..|all| - 1], channel);
      assert all == all[..|all| - 1] + [all[|all| - 1].(history := true)];
    }
  }

  /** A page read below message j is the run of the log that ends there. */
  lemma PageShape(older: seq<Message>, page: Page, floors: seq<nat>, sent: Page, epoch: nat, generation: nat)
    requires PageOf(older, floors, page.before, page) && sent == Stamped(page, epoch, generation)
    ensures |page.messages| <= |older| && page.messages == older[|older| - |page.messages|..]
    ensures Numbers(sent.messages) == Numbers(page.messages) && |sent.messages| == |page.messages|
    ensures sent.nextBefore == page.nextBefore && sent.before == page.before && sent.hasMore == page.hasMore
    ensures page.nextBefore == if page.messages == [] then 0 else older[|older| - |page.messages|].sequence
    ensures sent.channel == page.channel && sent.epoch == epoch && sent.generation == generation
  {
    StampNumbers(page, epoch, generation);
  }

  lemma StorableLog(all: seq<Message>, channel: UInt16, lo: nat)
    requires ChannelLog(all, channel) && lo <= |all|
    ensures Stream(all) && forall m :: m in all[..lo] ==> Storable(m)
  {
  }

  ghost predicate Answers(all: seq<Message>, s: Snapshot, j: nat, page: Page, floors: seq<nat>, sent: Page) {
    && j < |all| && all[j].sequence == s.status.before == page.before && page.channel == s.channel
    && PageOf(Below(all, s.channel, page.before), floors, page.before, page)
    && sent == Stamped(page, s.epoch, s.status.generation)
  }

  lemma PageReads(all: seq<Message>, s: Snapshot, j: nat, page: Page, floors: seq<nat>, sent: Page)
    requires ChannelLog(all, s.channel) && Answers(all, s, j, page, floors, sent)
    ensures var k := |page.messages|;
      && k == |sent.messages| <= j && page.messages == all[..j][j - k..]
      && page.nextBefore == sent.nextBefore == (if k == 0 then 0 else all[j - k].sequence)
    ensures Numbers(sent.messages) == Numbers(page.messages)
    ensures PageMatches(s, sent) && PageSound(s, sent) && AfterHistory(s, sent).Applied?
  {
    hide PageOf, PageSound, Storable, Stamped, Below, ChannelLog, Numbers, AfterHistory;
    BelowOldest(all, s.channel, j);
    PageShape(all[..j], page, floors, sent, s.epoch, s.status.generation);
    StorableLog(all, s.channel, j);
    assert page.before != 0 by {
      CursorIsPositive(all, s.channel, j);
    }
    ServerPageAccepted(all, s.channel, floors, page, s);
  }

  lemma CursorIsPositive(all: seq<Message>, channel: UInt16, j: nat)
    requires ChannelLog(all, channel) && j < |all|
    ensures all[j].sequence != 0
  {
  }

  /** The page would fit into the cache. */
  predicate Fits(s: Snapshot, page: Page) {
    |s.messages| + |page.messages| <= CACHE_MESSAGES && Bytes(s.messages) + Bytes(page.messages) <= CACHE_BYTES
  }

  /** A page whose cursor lies below the oldest cached message. */
  lemma EarlyPage(all: seq<Message>, s: Snapshot, top: nat, j: nat, page: Page, floors: seq<nat>, sent: Page)
    requires ChannelLog(all, s.channel) && Sound(s) && Gapless(all, top, s.messages) && s.messages != []
    requires Answers(all, s, j, page, floors, sent) && j < top - |s.messages|
    ensures AfterHistory(s, sent).Applied?
    ensures Gapless(all, top, AfterHistory(s, sent).snapshot.messages) <==> sent.messages == [] || !Fits(s, sent)
    ensures s.status.before < s.messages[0].sequence
  {
    hide AfterHistory, PageOf, PageSound, Sound, Storable, Below, Stamped, Gapless, Numbers;
    PageReads(all, s, j, page, floors, sent);
    LengthFits(all, top, s.messages);
    NumberAt(s.messages, all, top, 0);
    OlderPageInFront(s, sent);
    if sent.messages != [] && Fits(s, sent) {
      FrontLeavesHole(all, top, s.messages, j, page.messages, sent.messages);
    } else {
      assert sent.messages == [] ==> sent.messages + s.messages == s.messages;
    }
  }

  /** How much of a page from below position j lies before position lo. */
  function Before(lo: nat, j: nat, k: nat): (n: nat)
    requires lo <= j && k <= j
    ensures n <= k && (n > 0 ==> j - k + n == lo)
  {
    if j - k < lo then lo - (j - k) else 0
  }

  lemma SentAt(all: seq<Message>, j: nat, page: seq<Message>, sent: seq<Message>, i: nat)
    requires j <= |all| && |page| <= j && page == all[..j][j - |page|..] && Numbers(sent) == Numbers(page)
    requires i < |page|
    ensures |sent| == |page| && sent[i].sequence == all[j - |page| + i].sequence
  {
    assert |Numbers(sent)| == |Numbers(page)|;
    assert Numbers(sent)[i] == Numbers(page)[i];
  }

  /** Of a page that reaches into the cache only the part below it is new. */
  lemma OnlyBelowIsNew(
    all: seq<Message>, top: nat, messages: seq<Message>, j: nat, page: seq<Message>, sent: seq<Message>, n: nat)
    requires Ordered(all) && Gapless(all, top, messages) && messages != []
    requires top - |messages| <= j < |all| && j <= top && |page| <= j && |sent| == |page|
    requires page == all[..j][j - |page|..] && Numbers(sent) == Numbers(page)
    requires n == Before(top - |messages|, j, |page|)
    ensures forall i :: 0 <= i < n ==> sent[i].sequence < messages[0].sequence
    ensures forall i :: n <= i < |page| ==> Known(messages, sent[i].sequence)
    ensures Gapless(all, top, sent[..n] + messages)
  {
    hide Known, Gapless, Numbers;
    LengthFits(all, top, messages);
    var lo, k := top - |messages|, |page|;
    NumberAt(messages, all, top, 0);
    forall i | 0 <= i < n ensures sent[i].sequence < messages[0].sequence {
      SentAt(all, j, page, sent, i);
    }
    forall i | n <= i < k ensures Known(messages, sent[i].sequence) {
      SentAt(all, j, page, sent, i);
      WhereItGoes(all, top, messages, j - k + i, sent[i]);
    }
    if n > 0 {
      assert page[..n] == all[lo - n..lo];
      NumbersCut(sent, page, n);
      GaplessBelow(all, top, messages, page[..n], sent[..n]);
    } else {
      assert sent[..n] + messages == messages;
    }
  }

  lemma NumbersCut(a: seq<Message>, b: seq<Message>, n: nat)
    requires |a| == |b| && Numbers(a) == Numbers(b) && n <= |a|
    ensures Numbers(a[..n]) == Numbers(b[..n])
  {
    forall i | 0 <= i < n ensures a[i].sequence == b[i].sequence {
      assert Numbers(a)[i] == Numbers(b)[i];
    }
  }

  /** A page whose cursor is the oldest cached message or a newer one. */
  lemma OverlappingPage(all: seq<Message>, s: Snapshot, top: nat, j: nat, page: Page, floors: seq<nat>, sent: Page)
    requires ChannelLog(all, s.channel) && Sound(s) && Gapless(all, top, s.messages) && s.messages != []
    requires Answers(all, s, j, page, floors, sent) && top - |s.messages| <= j <= top
    ensures AfterHistory(s, sent).Applied?
    ensures Gapless(all, top, AfterHistory(s, sent).snapshot.messages)
    ensures s.status.before >= s.messages[0].sequence
  {
    hide AfterHistory, PageOf, PageSound, Sound, Storable, Below, Stamped, Gapless, Numbers, Known;
    PageReads(all, s, j, page, floors, sent);
    LengthFits(all, top, s.messages);
    NumberAt(s.messages, all, top, 0);
    var n := Before(top - |s.messages|, j, |page.messages|);
    OnlyBelowIsNew(all, top, s.messages, j, page.messages, sent.messages, n);
    OlderPartInFront(s, sent, n);
  }

  /** Exactly when a page for the current cursor leaves the cache without a gap: it adds
      nothing, finds no room, or its cursor is not below the oldest cached message. */
  predicate PageJoins(s: Snapshot, page: Page) {
    page.messages == [] || !Fits(s, page) || s.messages == [] || s.status.before >= s.messages[0].sequence
  }

  lemma PageExactly(all: seq<Message>, s: Snapshot, top: nat, j: nat, page: Page, floors: seq<nat>, sent: Page)
    requires ChannelLog(all, s.channel) && Sound(s) && Gapless(all, top, s.messages) && s.messages != []
    requires Answers(all, s, j, page, floors, sent) && j <= top
    ensures AfterHistory(s, sent).Applied?
    ensures Gapless(all, top, AfterHistory(s, sent).snapshot.messages) <==> PageJoins(s, sent)
  {
    hide AfterHistory, Answers, Sound, ChannelLog, Gapless;
    LengthFits(all, top, s.messages);
    if j < top - |s.messages| {
      EarlyPage(all, s, top, j, page, floors, sent);
    } else {
      OverlappingPage(all, s, top, j, page, floors, sent);
    }
  }

  // ---- Steps --------------------------------------------------------------

  /** Exactly when a step leaves the cache without a gap. */
  ghost predicate Harmless(all: seq<Message>, stay: Stay, step: Step) {
    match step
    case Deliver => Joins(stay.s, stay.top, stay.hi, Upcoming(all, stay))
    case History(page, _) =>
      page.before == stay.s.status.before ==> PageJoins(stay.s, Stamped(page, stay.s.epoch, stay.s.status.generation))
    case _ => true
  }

  ghost predicate Intact(all: seq<Message>, stay: Stay) {
    Gapless(all, stay.top, stay.s.messages)
  }

  lemma CursorMore(all: seq<Message>, top: nat, later: nat, before: nat)
    requires CursorFits(all, top, before) && top <= later
    ensures CursorFits(all, later, before)
  {
    if before != 0 {
      var j :| CursorAt(all, top, before, j);
      assert CursorAt(all, later, before, j);
    }
  }

  lemma DeliverStep(all: seq<Message>, stay: Stay)
    requires Inv(all, stay) && Enabled(all, stay, Deliver)
    ensures After(stay.s, FrameOf(all, stay, Deliver)).Applied?
    ensures Intact(all, Next(all, stay, Deliver)) <==> Harmless(all, stay, Deliver)
    ensures Harmless(all, stay, Deliver) ==> Inv(all, Next(all, stay, Deliver))
    ensures var s := Next(all, stay, Deliver).s;
      s.messages != [] && s == stay.s.(messages := s.messages, limited := s.limited)
  {
    var m := Upcoming(all, stay);
    hide AfterMessage, Gapless, Sound, Small, ChannelLog, Joins, CursorFits;
    DeliverExactly(all, stay.s, stay.top, stay.hi, m, AfterMessage(stay.s, m));
    CursorMore(all, stay.top, Next(all, stay, Deliver).top, stay.s.status.before);
  }

  lemma ReadyStep(all: seq<Message>, stay: Stay)
    requires Inv(all, stay) && Enabled(all, stay, Ready)
    ensures After(stay.s, FrameOf(all, stay, Ready)).Applied? && Inv(all, Next(all, stay, Ready))
  {
    hide Gapless, Small, ChannelLog;
    var after := Next(all, stay, Ready);
    if stay.page.messages != [] {
      assert CursorAt(all, stay.top, stay.page.nextBefore, Start(stay));
    }
  }

  lemma TurnStep(all: seq<Message>, stay: Stay, status: ChatStatus)
    requires Inv(all, stay) && Enabled(all, stay, Turn(status))
    ensures After(stay.s, FrameOf(all, stay, Turn(status))).Applied? && Inv(all, Next(all, stay, Turn(status)))
  {
    hide Gapless, Small, ChannelLog;
  }

  /** A new reader's page is a run of the log that ends at its boundary. */
  lemma InitialShape(all: seq<Message>, channel: UInt16, page: Page, floors: seq<nat>, boundary: nat)
    requires ChannelLog(all, channel) && InitialPage(all, channel, page, floors, boundary)
    ensures |page.messages| <= boundary <= |all| && |page.messages| <= PAGE_MESSAGES
    ensures page.nextBefore == if page.messages == [] then 0 else all[boundary - |page.messages|].sequence
  {
    if boundary > 0 && page.messages != [] {
      BelowBoundary(all, channel, boundary);
    }
  }

  lemma BelowBoundary(all: seq<Message>, channel: UInt16, boundary: nat)
    requires ChannelLog(all, channel) && 0 < boundary <= |all|
    ensures Below(all, channel, all[boundary - 1].sequence + 1) == all[..boundary]
  {
    var before := all[boundary - 1].sequence + 1;
    BelowGrown(all[..boundary], all, channel, before);
    BelowSame(all[..boundary], channel, before, 0);
    WholeLog(all[..boundary], channel);
  }

  lemma RestartStep(all: seq<Message>, stay: Stay, page: Page, floors: seq<nat>, boundary: nat, generation: nat)
    requires Inv(all, stay) && Enabled(all, stay, Restart(page, floors, boundary, generation))
    ensures Inv(all, Next(all, stay, Restart(page, floors, boundary, generation)))
  {
    InitialShape(all, stay.s.channel, page, floors, boundary);
    hide InitialPage, Small, ChannelLog, Sound;
    var after := Next(all, stay, Restart(page, floors, boundary, generation));
    if stay.s.messages == [] {
      assert Gapless(all, after.top, []);
    }
  }

  /** A page for another cursor is ignored. */
  lemma OtherPageIgnored(all: seq<Message>, stay: Stay, page: Page, floors: seq<nat>)
    requires page.before != stay.s.status.before
    ensures Next(all, stay, History(page, floors)) == stay
    ensures After(stay.s, FrameOf(all, stay, History(page, floors))).Applied?
  {
  }

  /** Pages add only messages that were checked. */
  lemma PageKeeps(s: Snapshot, sent: Page, after: Snapshot)
    requires Sound(s) && Small(s.messages) && s.messages != [] && PageSound(s, sent) && PageMatches(s, sent)
    requires AfterHistory(s, sent) == Applied(after)
    ensures Sound(after) && Small(after.messages) && after.messages != []
    ensures after == s.(messages := after.messages, status := after.status, limited := after.limited)
    ensures after.status == s.status || after.status == s.status.(before := sent.nextBefore, hasMore := sent.hasMore)
  {
    HistoryKeeps(s, sent);
    assert s.messages[0] in s.messages;
    hide AfterHistory, Sound, Known;
    forall x | x in after.messages ensures Load(x) <= 8312 {
      if x !in s.messages {
        var i :| 0 <= i < |sent.messages| && sent.messages[i] == x;
        assert ValidMessage(sent.messages[i], s.channel, s.epoch);
      }
    }
  }

  lemma HistoryStep(all: seq<Message>, stay: Stay, page: Page, floors: seq<nat>)
    requires Inv(all, stay) && Enabled(all, stay, History(page, floors)) && page.before == stay.s.status.before
    ensures After(stay.s, FrameOf(all, stay, History(page, floors))).Applied?
    ensures Intact(all, Next(all, stay, History(page, floors))) <==> Harmless(all, stay, History(page, floors))
    ensures Harmless(all, stay, History(page, floors)) ==> Inv(all, Next(all, stay, History(page, floors)))
  {
    hide AfterHistory, PageOf, PageSound, Sound, Storable, Below, Stamped, Gapless, Numbers, Small, ChannelLog;
    hide PageJoins;
    var s := stay.s;
    var sent := Stamped(page, s.epoch, s.status.generation);
    var j: nat :| CursorAt(all, stay.top, s.status.before, j);
    assert Answers(all, s, j, page, floors, sent);
    PageExactly(all, s, stay.top, j, page, floors, sent);
    PageReads(all, s, j, page, floors, sent);
    PageKeeps(s, sent, AfterHistory(s, sent).snapshot);
    if page.messages != [] {
      assert CursorAt(all, stay.top, page.nextBefore, j - |page.messages|);
    }
  }

  /** Every step: the client takes the frame, and the cache stays without a gap exactly when
      the step is harmless. */
  lemma StepExactly(all: seq<Message>, stay: Stay, step: Step)
    requires Inv(all, stay) && Enabled(all, stay, step)
    ensures !step.Restart? ==> After(stay.s, FrameOf(all, stay, step)).Applied?
    ensures Intact(all, Next(all, stay, step)) <==> Harmless(all, stay, step)
    ensures Harmless(all, stay, step) ==> Inv(all, Next(all, stay, step))
  {
    hide Enabled, Next, FrameOf, After, Gapless, Sound, ChannelLog, Joins, PageJoins;
    match step
    case Deliver => DeliverStep(all, stay);
    case Ready => ReadyStep(all, stay);
    case Turn(status) => TurnStep(all, stay, status);
    case Restart(page, floors, boundary, generation) =>
      RestartStep(all, stay, page, floors, boundary, generation);
    case History(page, floors) =>
      if page.before == stay.s.status.before {
        HistoryStep(all, stay, page, floors);
      } else {
        OtherPageIgnored(all, stay, page, floors);
      }
  }

  // ---- Whole stays --------------------------------------------------------

  ghost predicate Begins(all: seq<Message>, floors: seq<nat>, stay: Stay) {
    && ChannelLog(all, stay.s.channel) && InitialPage(all, stay.s.channel, stay.page, floors, stay.boundary)
    && stay.hi == stay.top == Start(stay) && !stay.ready
    && stay.s.messages == [] && !stay.s.limited && stay.s.status.before == 0
  }

  ghost predicate Run(all: seq<Message>, floors: seq<nat>, run: seq<Stay>, steps: seq<Step>) {
    && |run| == |steps| + 1 && Begins(all, floors, run[0])
    && forall i :: 0 <= i < |steps| ==> Enabled(all, run[i], steps[i]) && run[i + 1] == Next(all, run[i], steps[i])
  }

  ghost predicate AllHarmless(all: seq<Message>, run: seq<Stay>, steps: seq<Step>, n: nat)
    requires |run| == |steps| + 1 && n <= |steps|
  {
    forall k :: 0 <= k < n ==> Harmless(all, run[k], steps[k])
  }

  ghost predicate AllIntact(all: seq<Message>, run: seq<Stay>, n: nat)
    requires n < |run|
  {
    forall k :: 0 <= k <= n ==> Intact(all, run[k])
  }

  lemma BeginsInv(all: seq<Message>, floors: seq<nat>, stay: Stay)
    requires Begins(all, floors, stay)
    ensures Inv(all, stay)
  {
    InitialShape(all, stay.s.channel, stay.page, floors, stay.boundary);
    assert Numbers([]) == [];
  }

  lemma {:induction false} HarmlessKeeps(
    all: seq<Message>, floors: seq<nat>, run: seq<Stay>, steps: seq<Step>, n: nat)
    requires Run(all, floors, run, steps) && n <= |steps| && AllHarmless(all, run, steps, n)
    ensures Inv(all, run[n])
  {
    hide Inv, Harmless, Enabled, Next, Begins, Intact;
    if n == 0 {
      BeginsInv(all, floors, run[0]);
    } else {
      HarmlessKeeps(all, floors, run, steps, n - 1);
      StepExactly(all, run[n - 1], steps[n - 1]);
    }
  }

  /** Over a whole stay, with any number of synchronisations, the cache is one gapless run of
      the channel's log throughout if and only if every step was harmless. */
  lemma {:induction false} StayIsGapless(
    all: seq<Message>, floors: seq<nat>, run: seq<Stay>, steps: seq<Step>, n: nat)
    requires Run(all, floors, run, steps) && n <= |steps|
    ensures AllIntact(all, run, n) <==> AllHarmless(all, run, steps, n)
  {
    hide Harmless, Enabled, Next, Begins, Gapless;
    if n == 0 {
      BeginsInv(all, floors, run[0]);
    } else {
      StayIsGapless(all, floors, run, steps, n - 1);
      if AllHarmless(all, run, steps, n - 1) {
        HarmlessKeeps(all, floors, run, steps, n - 1);
        StepExactly(all, run[n - 1], steps[n - 1]);
      }
      assert AllIntact(all, run, n) <==> AllIntact(all, run, n - 1) && Intact(all, run[n]);
    }
  }

  /** Synchronising again over a cache: when the new page is not older than the cache, its
      first message leaves the cache without a gap exactly when the page starts no later than
      where the cache ends, which it cannot when more than a page was missed. */
  lemma RestartExactly(
    all: seq<Message>, stay: Stay, page: Page, floors: seq<nat>, boundary: nat, generation: nat, after: Stay)
    requires Inv(all, stay) && Enabled(all, stay, Restart(page, floors, boundary, generation))
    requires after == Next(all, stay, Restart(page, floors, boundary, generation))
    requires stay.s.messages != [] && page.messages != [] && boundary - |page.messages| >= Oldest(stay)
    ensures Enabled(all, after, Deliver)
    ensures Intact(all, Next(all, after, Deliver)) <==> boundary <= stay.top + |page.messages|
    ensures boundary > stay.top + PAGE_MESSAGES ==> !Intact(all, Next(all, after, Deliver))
  {
    InitialShape(all, stay.s.channel, page, floors, boundary);
    RestartStep(all, stay, page, floors, boundary, generation);
    hide Inv, InitialPage, Intact, Room;
    DeliverStep(all, after);
  }
}
