/** Two stays in which the client's cache gets a hole: a live message pushes out the oldest
    one while a history page is on its way, and the page still fits; and the chat is
    synchronised again after more than a page was missed (client/src/session.rs,
    internal/server/chat.go). */
module ClientHole {
  import opened Common
  import opened ChatLog
  import opened ClientCache
  import opened ClientStay

  function Repeat(c: char, n: nat): (s: string)
    ensures |s| == n && forall i :: 0 <= i < n ==> s[i] == c
  {
    if n == 0 then "" else Repeat(c, n - 1) + [c]
  }

  function Author(): (s: string)
    ensures Hex(s)
  {
    Repeat('0', 64)
  }

  // ---- The log ------------------------------------------------------------

  /** Two bytes, eight kilobytes, and what fills the cache exactly. */
  function LoadAt(i: nat): (n: nat)
    ensures 2 <= n <= 8192
  {
    if i == 1 || 21 <= i < 83 then 8192 else if i == 83 then 8154 else 2
  }

  function At(i: nat): Message {
    Message(1, 0, i + 1, 1, Author(), "n", Repeat('a', LoadAt(i) - 1), "12345678", true)
  }

  lemma NumberOf(i: nat)
    ensures At(i).sequence == i + 1
  {
  }

  function Log(): (all: seq<Message>)
    ensures |all| == 85 && forall i :: 0 <= i < 85 ==> all[i] == At(i)
  {
    seq(85, i requires 0 <= i < 85 => At(i))
  }

  lemma LogFits()
    ensures ChannelLog(Log(), 1)
  {
    hide Repeat;
    forall i | 0 <= i < 85 ensures Storable(Log()[i]) && Log()[i].sequence == i + 1 {
      assert Hex(Author());
    }
  }

  /** The loads before message k. */
  function Total(k: nat): nat {
    if k == 0 then 0 else if k == 1 then 2 else if k <= 21 then 8190 + 2 * k
    else if k <= 83 then 8232 + 8192 * (k - 21) else 524290 + 2 * (k - 84)
  }

  lemma TotalMore(k: nat)
    ensures Total(k + 1) == Total(k) + LoadAt(k) && Load(At(k)) == LoadAt(k)
  {
  }

  // ---- The initial pages --------------------------------------------------

  function Zeros(n: nat): (floors: seq<nat>)
    ensures |floors| == n && forall i :: 0 <= i < n ==> floors[i] == 0
  {
    if n == 0 then [] else Zeros(n - 1) + [0]
  }

  function Floors(): (floors: seq<nat>)
    ensures |floors| == 21 && forall i :: 0 <= i < 21 ==> floors[i] == 0
  {
    Zeros(21)
  }

  /** Twenty messages from number `from` on, one or two of which are large. */
  function Twenty(from: nat): (page: Page)
    requires from <= 65
    ensures |page.messages| == 20 && page.messages == Log()[from..from + 20]
  {
    Page(1, 0, 0, from + 21, from + 1, true, Log()[from..from + 20])
  }

  lemma WeightAt(i: nat)
    ensures Weight(At(i)) == LoadAt(i) + 200
  {
  }

  lemma {:induction false} PageSize(from: nat, to: nat)
    requires 1 <= from <= to <= 22
    ensures Size(Log()[from..to]) == Total(to) - Total(from) + 200 * (to - from)
    decreases 22 - from
  {
    hide Weight, At;
    if from < to {
      PageSize(from + 1, to);
      assert Log()[from..to][1..] == Log()[from + 1..to];
      WeightAt(from);
      TotalMore(from);
    }
  }

  /** The page stops by count: twenty messages are well below 48 KiB. */
  lemma TwentyIsInitial(from: nat)
    requires 1 <= from <= 2
    ensures InitialPage(Log(), 1, Twenty(from), Floors(), from + 20)
  {
    hide Below, Size, At;
    LogFits();
    BelowBoundary(Log(), 1, from + 20);
    PageSize(from, from + 20);
    NumberOf(from);
    NumberOf(from + 19);
    assert Log()[..from + 20][from..] == Log()[from..from + 20];
  }

  // ---- The cache while it fills -------------------------------------------

  /** What was sent before message k, from message `from` on. */
  function Cache(from: nat, k: nat): (messages: seq<Message>)
    requires from <= k
    ensures |messages| == k - from
    ensures forall i :: 0 <= i < k - from ==> messages[i] == Sent(At(from + i), 1, from + i < 21)
  {
    seq(k - from, i requires 0 <= i < k - from => Sent(At(from + i), 1, from + i < 21))
  }

  lemma {:induction false} CacheBytes(from: nat, k: nat)
    requires from <= k <= 85
    ensures Bytes(Cache(from, k)) == Total(k) - Total(from)
    decreases k - from
  {
    if from < k {
      CacheBytes(from + 1, k);
      assert Cache(from, k)[1..] == Cache(from + 1, k);
      TotalMore(from);
      assert Load(Cache(from, k)[0]) == Load(At(from));
    }
  }

  const Paging: ChatStatus := ChatStatus(1, 1, 0, 1, 2, true)

  /** Messages 1 to k - 1 delivered. */
  function Filling(k: nat, ready: bool): Stay
    requires 1 <= k
  {
    Stay(Snapshot(1, 1, 0, Cache(1, k), if ready then Paging else NoStatus, false), Twenty(1), 0, 21, k, ready, k)
  }

  function Pushed(): Stay {
    Stay(Snapshot(1, 1, 0, Cache(2, 85), Paging, true), Twenty(1), 0, 21, 85, true, 85)
  }

  /** The page that holds the first message only. */
  function Single(): Page {
    Page(1, 0, 0, 2, 1, false, [At(0)])
  }

  function Holed(): Stay {
    Pushed().(s := Pushed().s.(messages := [At(0).(epoch := 1)] + Cache(2, 85),
                               status := Paging.(before := 1, hasMore := false)))
  }

  // ---- The run ------------------------------------------------------------

  ghost predicate Takes(stay: Stay, step: Step, stay': Stay) {
    Enabled(Log(), stay, step) && stay' == Next(Log(), stay, step)
  }

  lemma NextGoesLast(k: nat)
    requires 1 <= k <= 84
    ensures var m := Sent(At(k), 1, k < 21);
      && ValidMessage(m, 1, 1) && !Known(Cache(1, k), m.sequence)
      && Inserted(Cache(1, k), m) == Cache(1, k + 1)
  {
    hide Repeat;
    var m := Sent(At(k), 1, k < 21);
    assert Hex(Author());
    NewestGoesLast(Cache(1, k), m);
    assert Cache(1, k) + [m] == Cache(1, k + 1);
  }

  lemma Fills(k: nat, ready: bool)
    requires 1 <= k < (if ready then 84 else 21)
    ensures Takes(Filling(k, ready), Deliver, Filling(k + 1, ready))
  {
    hide Inserted, ValidMessage, Known, Twenty, Bytes, At;
    NextGoesLast(k);
    CacheBytes(1, k + 1);
    assert Evicted(Cache(1, k + 1)) == Cache(1, k + 1);
  }

  lemma BecomesReady()
    ensures Takes(Filling(21, false), Ready, Filling(21, true))
  {
  }

  /** The cache is exactly full; one more message pushes out the oldest. */
  lemma PushesOut()
    ensures Takes(Filling(84, true), Deliver, Pushed())
  {
    hide Inserted, ValidMessage, Known, Bytes, Twenty, At;
    NextGoesLast(84);
    CacheBytes(1, 85);
    CacheBytes(2, 85);
    assert Cache(1, 85)[1..] == Cache(2, 85);
    assert Evicted(Cache(2, 85)) == Cache(2, 85);
    assert Evicted(Cache(1, 85)) == Cache(2, 85);
  }

  lemma LateIsAPage()
    ensures PageOf(Below(Log(), 1, 2), Floors(), 2, Single())
  {
    LogFits();
    BelowOldest(Log(), 1, 1);
    assert Log()[..1] == [At(0)];
    WeightAt(0);
    assert [At(0)][1..] == [] && Size([At(0)]) == Weight(At(0));
  }

  lemma PushedIsSound()
    ensures Sound(Pushed().s) && Stream(Log()) && forall m :: m in Below(Log(), 1, 2) ==> Storable(m)
  {
    hide Bytes, Storable, At;
    CacheBytes(2, 85);
    LogFits();
    BelowOldest(Log(), 1, 1);
    assert Log()[..1] == [At(0)];
    assert Storable(Log()[0]);
    forall i: nat | i < 85 ensures At(i).sequence == i + 1 {
      NumberOf(i);
    }
  }

  lemma LateMessages()
    ensures Stamped(Single(), 1, 0).messages == [At(0).(epoch := 1)]
    ensures Bytes([At(0).(epoch := 1)]) == 2 && Cache(2, 85)[0].sequence == 3
  {
    assert [At(0).(epoch := 1)][1..] == [];
  }

  lemma LateResult()
    ensures AfterHistory(Pushed().s, Stamped(Single(), 1, 0)) == Applied(Holed().s)
  {
    hide PageOf, Below, ChannelLog, Bytes, AfterHistory, PageSound, Sound, At, Storable;
    LateIsAPage();
    PushedIsSound();
    ServerPageAccepted(Log(), 1, Floors(), Single(), Pushed().s);
    LateMessages();
    OlderPageInFront(Pushed().s, Stamped(Single(), 1, 0));
    CacheBytes(2, 85);
  }

  lemma LatePageFits()
    ensures Takes(Pushed(), History(Single(), Floors()), Holed())
  {
    hide PageOf, Below, AfterHistory, Stamped, At, Cache, Twenty;
    LateIsAPage();
    LateResult();
  }

  function StayAt(i: nat): Stay
    requires i <= 86
  {
    if i <= 20 then Filling(i + 1, false) else if i <= 84 then Filling(i, true)
    else if i == 85 then Pushed() else Holed()
  }

  function StepAt(i: nat): Step
    requires i <= 85
  {
    if i == 20 then Ready else if i == 85 then History(Single(), Floors()) else Deliver
  }

  lemma EachStep(i: nat)
    requires i <= 85
    ensures Takes(StayAt(i), StepAt(i), StayAt(i + 1))
  {
    hide Takes;
    if i < 20 {
      Fills(i + 1, false);
    } else if i == 20 {
      BecomesReady();
    } else if i < 84 {
      Fills(i, true);
    } else if i == 84 {
      PushesOut();
    } else {
      LatePageFits();
    }
  }

  lemma Ends()
    ensures Begins(Log(), Floors(), StayAt(0)) && StayAt(86) == Holed()
  {
    hide InitialPage, ChannelLog, Twenty;
    LogFits();
    TwentyIsInitial(1);
  }

  /** Message 2 is missing between messages 1 and 3. */
  lemma HoleIsThere()
    ensures !Intact(Log(), Holed())
  {
    hide At;
    NumberOf(0);
    NumberOf(2);
    NumberOf(1);
    var messages := Holed().s.messages;
    assert messages[1] == Cache(2, 85)[0] && |messages| == 84;
    if Gapless(Log(), 85, messages) {
      NumberAt(messages, Log(), 85, 0);
      assert false;
    }
  }

  /** A whole stay that ends with a hole in the cache: the answer to a request made while the
      cache held everything since message 2 arrives after message 85 has pushed it out. */
  lemma LatePageLeavesHole() returns (run: seq<Stay>, steps: seq<Step>)
    ensures Run(Log(), Floors(), run, steps) && |run| == 87
    ensures run[84].s.status.hasMore && run[84].s.status.before == Single().before && !run[84].s.limited
    ensures !Intact(Log(), run[86])
  {
    hide StepAt, Enabled, Next, StayAt, Intact, Begins, Single, Holed, Floors, Log;
    run := seq(87, i requires 0 <= i < 87 => StayAt(i));
    steps := seq(86, i requires 0 <= i < 86 => StepAt(i));
    forall i | 0 <= i < 86 ensures Enabled(Log(), run[i], steps[i]) && run[i + 1] == Next(Log(), run[i], steps[i]) {
      EachStep(i);
    }
    Asked();
    Ends();
    HoleIsThere();
  }

  lemma Asked()
    ensures var s := StayAt(84).s; s.status.hasMore && s.status.before == Single().before && !s.limited
  {
  }

  // ---- Synchronising again ------------------------------------------------

  const Failed: ChatStatus := ChatStatus(1, 1, 0, 2, 0, false)
  const Again: ChatStatus := ChatStatus(1, 1, 1, 0, 0, false)

  lemma SingleIsInitial()
    ensures InitialPage(Log(), 1, Single(), Floors(), 1)
  {
    hide Below, At;
    LogFits();
    NumberOf(0);
    BelowBoundary(Log(), 1, 1);
    assert Log()[..1] == [At(0)];
    WeightAt(0);
    assert [At(0)][1..] == [] && Size([At(0)]) == Weight(At(0));
  }

  /** The first message, then a reader that fails, and one that starts 21 messages later. */
  function SyncStep(i: nat): Step {
    if i == 0 then Deliver else if i == 1 then Ready else if i == 2 then Turn(Failed) else if i == 3 then Turn(Again)
    else if i == 4 then Restart(Twenty(2), Floors(), 22, 1) else Deliver
  }

  function SyncAt(i: nat): Stay {
    if i == 0 then Stay(Snapshot(1, 1, 0, [], NoStatus, false), Single(), 0, 1, 0, false, 0)
    else Next(Log(), SyncAt(i - 1), SyncStep(i - 1))
  }

  lemma SyncBegins()
    ensures Begins(Log(), Floors(), SyncAt(0)) && Inv(Log(), SyncAt(0))
  {
    hide InitialPage, ChannelLog, Inv;
    LogFits();
    SingleIsInitial();
    BeginsInv(Log(), Floors(), SyncAt(0));
  }

  lemma FirstArrives()
    ensures Takes(SyncAt(0), Deliver, SyncAt(1)) && Inv(Log(), SyncAt(1))
    ensures SyncAt(1).hi == SyncAt(1).boundary == SyncAt(1).top == 1 && !SyncAt(1).ready
    ensures SyncAt(1).s.messages != [] && SyncAt(1).s.status == NoStatus && SyncAt(1).generation == 0
  {
    hide Inv, Taken, Begins, Intact, Single;
    SyncBegins();
    DeliverStep(Log(), SyncAt(0));
  }

  lemma SecondReader()
    ensures forall i :: 1 <= i < 5 ==> Takes(SyncAt(i), SyncStep(i), SyncAt(i + 1))
    ensures Inv(Log(), SyncAt(4)) && SyncAt(4).s.messages != [] && SyncAt(4).top == 1
    ensures Oldest(SyncAt(4)) <= 1
  {
    hide Inv, Intact, Single, Floors, Twenty, InitialPage;
    FirstArrives();
    ReadyStep(Log(), SyncAt(1));
    TurnStep(Log(), SyncAt(2), Failed);
    TurnStep(Log(), SyncAt(3), Again);
    TwentyIsInitial(2);
  }

  /** A whole stay with a second reader: message 2 is missing between messages 1 and 3. */
  lemma SecondReaderLeavesHole() returns (run: seq<Stay>, steps: seq<Step>)
    ensures Run(Log(), Floors(), run, steps) && |run| == 7 && !Intact(Log(), run[6])
  {
    hide Inv, Intact, Single, Floors, Twenty, Enabled, Next, Begins, SyncAt;
    run := seq(7, i requires 0 <= i < 7 => SyncAt(i));
    steps := seq(6, i requires 0 <= i < 6 => SyncStep(i));
    SyncBegins();
    FirstArrives();
    SecondReader();
    RestartExactly(Log(), SyncAt(4), Twenty(2), Floors(), 22, 1, SyncAt(5));
    SyncMore(5);
    forall i | 0 <= i < 6 ensures Enabled(Log(), run[i], steps[i]) && run[i + 1] == Next(Log(), run[i], steps[i]) {
      assert i == 0 || i == 5 || Takes(SyncAt(i), SyncStep(i), SyncAt(i + 1));
    }
  }

  lemma SyncMore(i: nat)
    ensures SyncAt(i + 1) == Next(Log(), SyncAt(i), SyncStep(i))
  {
    hide Next;
  }
}
