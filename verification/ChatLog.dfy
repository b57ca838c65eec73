/** Channel chat as an append-only log with oldest-first retention, read backwards in
    pages (internal/server/chat.go). */
module ChatLog {
  import opened Common
  import opened Resources

  const PAGE_MESSAGES: nat := 20
  const PAGE_BYTES: nat := 48 * 1024

  /** Texts are byte strings. */
  datatype Message = Message(
    channel: UInt16, epoch: nat, sequence: nat, timestamp: int, author: string,
    nickname: string, text: string, clientId: string, history: bool)

  datatype Page = Page(
    channel: UInt16, epoch: nat, generation: nat, before: nat,
    nextBefore: nat, hasMore: bool, messages: seq<Message>)

  // ---- The log ------------------------------------------------------------

  ghost predicate Ordered(log: seq<Message>) {
    forall i, j :: 0 <= i < j < |log| ==> log[i].sequence < log[j].sequence
  }

  /** Stream sequences start at 1 and rise. */
  ghost predicate Stream(log: seq<Message>) {
    Ordered(log) && forall i :: 0 <= i < |log| ==> log[i].sequence > 0
  }

  predicate Under(m: Message, before: nat) {
    before == 0 || m.sequence < before
  }

  /** A channel's messages below a cursor, oldest first, marked as history; cursor 0 is
      no limit. */
  function Below(log: seq<Message>, channel: UInt16, before: nat): seq<Message> {
    if log == [] then [] else
    var m := log[|log| - 1];
    var rest := Below(log[..|log| - 1], channel, before);
    if m.channel == channel && Under(m, before) then rest + [m.(history := true)] else rest
  }

  /** The newest message below the cursor that retention has left. */
  function Previous(log: seq<Message>, channel: UInt16, floor: nat, before: nat): Option<Message> {
    if before == 1 then None else Scan(log, channel, floor, before)
  }

  function Scan(log: seq<Message>, channel: UInt16, floor: nat, before: nat): Option<Message> {
    if log == [] then None else
    var m := log[|log| - 1];
    if m.channel == channel && Under(m, before) && m.sequence >= floor then Some(m.(history := true))
    else Scan(log[..|log| - 1], channel, floor, before)
  }

  lemma {:induction false} BelowFacts(log: seq<Message>, channel: UInt16, before: nat)
    requires Stream(log)
    ensures Stream(Below(log, channel, before))
    ensures forall m :: m in Below(log, channel, before) ==> m.channel == channel && m.history && Under(m, before)
    ensures forall m :: m in Below(log, channel, before) && log != [] ==> m.sequence <= log[|log| - 1].sequence
  {
    if log != [] {
      var rest := log[..|log| - 1];
      BelowFacts(rest, channel, before);
      var below := Below(rest, channel, before);
      forall m | m in below ensures m.sequence < log[|log| - 1].sequence {
        assert rest != [];
      }
    }
  }

  lemma BelowStream(log: seq<Message>, channel: UInt16, before: nat)
    requires Stream(log)
    ensures Stream(Below(log, channel, before))
  {
    BelowFacts(log, channel, before);
  }

  /** When no message reaches either cursor, the cursors do not matter. */
  lemma {:induction false} BelowSame(log: seq<Message>, channel: UInt16, a: nat, b: nat)
    requires forall i :: 0 <= i < |log| ==> Under(log[i], a) && Under(log[i], b)
    ensures Below(log, channel, a) == Below(log, channel, b)
  {
    if log != [] {
      BelowSame(log[..|log| - 1], channel, a, b);
    }
  }

  /** Moving the cursor to a message leaves exactly what is before it. */
  lemma {:induction false} BelowCut(log: seq<Message>, channel: UInt16, before: nat, j: nat)
    requires Stream(log) && j < |Below(log, channel, before)|
    ensures Below(log, channel, Below(log, channel, before)[j].sequence) == Below(log, channel, before)[..j]
  {
    var all := Below(log, channel, before);
    var rest, m := log[..|log| - 1], log[|log| - 1];
    var part := Below(rest, channel, before);
    BelowFacts(rest, channel, before);
    if j < |part| {
      assert part[j] in part && rest != [];
      assert all[j].sequence <= rest[|rest| - 1].sequence < m.sequence;
      BelowCut(rest, channel, before, j);
      assert all[..j] == part[..j];
    } else {
      BelowSame(rest, channel, m.sequence, before);
      assert all[..j] == part;
    }
  }

  /** Later messages do not show below an older cursor. */
  lemma {:induction false} BelowGrown(log: seq<Message>, more: seq<Message>, channel: UInt16, before: nat)
    requires log <= more && before > 0
    requires forall i :: |log| <= i < |more| ==> more[i].sequence >= before
    ensures Below(more, channel, before) == Below(log, channel, before)
    decreases |more|
  {
    if |more| > |log| {
      BelowGrown(log, more[..|more| - 1], channel, before);
    } else {
      assert more == log;
    }
  }

  /** The search finds the last of these, unless retention took it. */
  lemma {:induction false} PreviousIsLast(log: seq<Message>, channel: UInt16, floor: nat, before: nat)
    requires Stream(log)
    ensures var all := Below(log, channel, before);
      Previous(log, channel, floor, before)
        == if all == [] || all[|all| - 1].sequence < floor then None else Some(all[|all| - 1])
  {
    BelowFacts(log, channel, before);
    ScanIsLast(log, channel, floor, before);
    var all := Below(log, channel, before);
    assert all != [] ==> all[0] in all && all[0].sequence > 0;
  }

  lemma {:induction false} ScanIsLast(log: seq<Message>, channel: UInt16, floor: nat, before: nat)
    requires Stream(log)
    ensures var all := Below(log, channel, before);
      Scan(log, channel, floor, before)
        == if all == [] || all[|all| - 1].sequence < floor then None else Some(all[|all| - 1])
  {
    if log != [] {
      var rest, m := log[..|log| - 1], log[|log| - 1];
      ScanIsLast(rest, channel, floor, before);
      BelowFacts(rest, channel, before);
      var part := Below(rest, channel, before);
      if m.channel == channel && Under(m, before) && m.sequence < floor && part != [] {
        assert part[|part| - 1] in part;
        assert part[|part| - 1].sequence < floor;
      }
    }
  }

  // ---- One page -----------------------------------------------------------

  function Weight(m: Message): nat {
    |m.text| + |m.nickname| + |m.author| + |m.clientId| + 128
  }

  function Size(messages: seq<Message>): nat {
    if messages == [] then 0 else Weight(messages[0]) + Size(messages[1..])
  }

  /** The page is the run of messages just under the cursor; each was still retained when
      it was read; there is more exactly when an older one is retained at the last read,
      and then the page was full. */
  ghost predicate PageOf(all: seq<Message>, floors: seq<nat>, before: nat, page: Page) {
    var n, k := |all|, |page.messages|;
    && k <= n && k <= PAGE_MESSAGES && k < |floors|
    && page.before == before
    && page.messages == all[n - k..]
    && page.nextBefore == (if k == 0 then 0 else all[n - k].sequence)
    && Size(page.messages) <= PAGE_BYTES
    && (forall i :: 0 <= i < k ==> all[n - 1 - i].sequence >= floors[i])
    && (page.hasMore <==> k < n && all[n - k - 1].sequence >= floors[k])
    && (page.hasMore ==> k == PAGE_MESSAGES || Size(all[n - k - 1..]) > PAGE_BYTES)
  }

  function Reversed(s: seq<Message>): (r: seq<Message>)
    ensures |r| == |s|
  {
    if s == [] then [] else Reversed(s[1..]) + [s[0]]
  }

  lemma {:induction false} ReversedPush(s: seq<Message>, m: Message)
    ensures Reversed(s + [m]) == [m] + Reversed(s)
  {
    if s != [] {
      ReversedPush(s[1..], m);
      assert (s + [m])[1..] == s[1..] + [m];
    } else {
      assert (s + [m])[1..] == [];
    }
  }

  /** Reading one older message under the running cursor. */
  lemma CursorStep(log: seq<Message>, channel: UInt16, before: nat, k: nat, cursor: nat, floor: nat)
    requires Stream(log) && k <= |Below(log, channel, before)|
    requires var all := Below(log, channel, before);
      cursor == if k == 0 then before else all[|all| - k].sequence
    ensures var all := Below(log, channel, before);
      Previous(log, channel, floor, cursor)
        == if k == |all| || all[|all| - k - 1].sequence < floor then None else Some(all[|all| - k - 1])
  {
    var all := Below(log, channel, before);
    if k > 0 {
      BelowCut(log, channel, before, |all| - k);
    }
    PreviousIsLast(log, channel, floor, cursor);
    assert all[..|all|] == all;
  }

  lemma SizeMore(all: seq<Message>, k: nat)
    requires k < |all|
    ensures Size(all[|all| - k - 1..]) == Weight(all[|all| - k - 1]) + Size(all[|all| - k..])
  {
    assert all[|all| - k - 1..][1..] == all[|all| - k..];
  }

  /** The loop's variables after reading |messages| messages, newest first. */
  ghost predicate Gathered(
    all: seq<Message>, floors: seq<nat>, before: nat, messages: seq<Message>, cursor: nat, size: nat)
  {
    var n, k := |all|, |messages|;
    && k <= n && k <= PAGE_MESSAGES && k < |floors|
    && Reversed(messages) == all[n - k..]
    && cursor == (if k == 0 then before else all[n - k].sequence)
    && size == Size(all[n - k..]) && size <= PAGE_BYTES
    && forall i :: 0 <= i < k ==> all[n - 1 - i].sequence >= floors[i]
  }

  lemma GatherOne(
    all: seq<Message>, floors: seq<nat>, before: nat, messages: seq<Message>, cursor: nat, size: nat, m: Message)
    requires Gathered(all, floors, before, messages, cursor, size) && |floors| == PAGE_MESSAGES + 1
    requires |messages| < |all| && m == all[|all| - |messages| - 1] && m.sequence >= floors[|messages|]
    requires |messages| < PAGE_MESSAGES && size + Weight(m) <= PAGE_BYTES
    ensures Gathered(all, floors, before, messages + [m], m.sequence, size + Weight(m))
  {
    var n, k := |all|, |messages|;
    SizeMore(all, k);
    ReversedPush(messages, m);
    assert [m] + all[n - k..] == all[n - k - 1..];
  }

  lemma GatheredIsPage(
    all: seq<Message>, floors: seq<nat>, before: nat, messages: seq<Message>, cursor: nat, size: nat, page: Page)
    requires Gathered(all, floors, before, messages, cursor, size)
    requires page.messages == Reversed(messages) && page.before == before
    requires page.nextBefore == if |messages| == 0 then 0 else cursor
    requires page.hasMore <==> |messages| < |all| && all[|all| - |messages| - 1].sequence >= floors[|messages|]
    requires page.hasMore ==> |messages| == PAGE_MESSAGES || size + Weight(all[|all| - |messages| - 1]) > PAGE_BYTES
    ensures PageOf(all, floors, before, page)
  {
    if page.hasMore {
      SizeMore(all, |messages|);
    }
  }

  /** The loop of `page`. Retention may advance between reads: read i sees floors[i]. */
  method ReadPage(log: seq<Message>, channel: UInt16, before: nat, floors: seq<nat>) returns (page: Page)
    requires Stream(log) && |floors| == PAGE_MESSAGES + 1
    ensures PageOf(Below(log, channel, before), floors, before, page) && page.channel == channel
  {
    ghost var all := Below(log, channel, before);
    var messages: seq<Message> := [];
    var cursor: nat, size: nat, nextBefore: nat, hasMore := before, 0, 0, false;
    assert all[|all|..] == [];
    while true
      invariant Gathered(all, floors, before, messages, cursor, size) && !hasMore
      invariant nextBefore == if |messages| == 0 then 0 else cursor
      decreases |all| - |messages|
    {
      CursorStep(log, channel, before, |messages|, cursor, floors[|messages|]);
      var found := Previous(log, channel, floors[|messages|], cursor);
      if found.None? {
        break;
      }
      var m := found.value;
      if |messages| == PAGE_MESSAGES || size + Weight(m) > PAGE_BYTES {
        hasMore := true;
        break;
      }
      GatherOne(all, floors, before, messages, cursor, size, m);
      messages := messages + [m];
      size := size + Weight(m);
      cursor := m.sequence;
      nextBefore := cursor;
    }
    page := Page(channel, 0, 0, before, nextBefore, hasMore, Reversed(messages));
    GatheredIsPage(all, floors, before, messages, cursor, size, page);
  }

  // ---- Pages in a row -----------------------------------------------------

  /** Pages read one after another, each from the cursor the one before it gave, over a
      log that may grow and a retention floor that may rise meanwhile. */
  ghost predicate Reads(logs: seq<seq<Message>>, channel: UInt16, floors: seq<seq<nat>>, pages: seq<Page>) {
    && |logs| == |floors| == |pages| > 0
    && (forall i :: 0 <= i < |pages| ==> ReadFrom(logs[i], channel, floors[i], pages[i]))
    && forall i :: 0 <= i < |pages| - 1 ==> Continues(logs[i], logs[i + 1], pages[i], pages[i + 1])
  }

  ghost predicate ReadFrom(log: seq<Message>, channel: UInt16, floors: seq<nat>, page: Page) {
    Stream(log) && PageOf(Below(log, channel, page.before), floors, page.before, page)
  }

  ghost predicate Continues(log: seq<Message>, later: seq<Message>, page: Page, next: Page) {
    log <= later && page.hasMore && page.messages != [] && next.before == page.nextBefore
  }

  /** All messages of the pages, oldest first. */
  function Joined(pages: seq<Page>): seq<Message> {
    if pages == [] then [] else pages[|pages| - 1].messages + Joined(pages[..|pages| - 1])
  }

  /** The next page continues exactly where this one stopped, whatever was appended. */
  lemma NextReads(log: seq<Message>, later: seq<Message>, channel: UInt16, floors: seq<nat>, page: Page)
    requires Stream(log) && Stream(later) && log <= later && page.messages != []
    requires PageOf(Below(log, channel, page.before), floors, page.before, page)
    ensures var all := Below(log, channel, page.before);
      Below(later, channel, page.nextBefore) == all[..|all| - |page.messages|]
    ensures page.nextBefore > 0 && (page.before != 0 ==> page.nextBefore < page.before)
  {
    var all := Below(log, channel, page.before);
    var j := |all| - |page.messages|;
    BelowFacts(log, channel, page.before);
    BelowCut(log, channel, page.before, j);
    assert all[j] in all;
    forall i | |log| <= i < |later| ensures later[i].sequence >= page.nextBefore {
      assert log[|log| - 1] == later[|log| - 1];
    }
    BelowGrown(log, later, channel, page.nextBefore);
  }

  /** The retention floor at the read that ended a page. */
  function LastFloor(floors: seq<nat>, page: Page): nat {
    if |page.messages| < |floors| then floors[|page.messages|] else 0
  }

  /** Everything at or above the retention floor is among the delivered. */
  ghost predicate Delivered(all: seq<Message>, floor: nat, joined: seq<Message>) {
    forall m :: m in all && m.sequence >= floor ==> m in joined
  }

  ghost predicate SoFar(all: seq<Message>, below: seq<Message>, joined: seq<Message>) {
    all == below + joined
  }

  lemma {:induction false} PagesContinue(
    logs: seq<seq<Message>>, channel: UInt16, floors: seq<seq<nat>>, pages: seq<Page>, i: nat)
    requires Reads(logs, channel, floors, pages) && i < |pages|
    ensures SoFar(
      Below(logs[0], channel, pages[0].before), Below(logs[i], channel, pages[i].before), Joined(pages[..i]))
  {
    if i > 0 {
      PagesContinue(logs, channel, floors, pages, i - 1);
      assert Continues(logs[i - 1], logs[i - 1 + 1], pages[i - 1], pages[i - 1 + 1]);
      assert ReadFrom(logs[i], channel, floors[i], pages[i]);
      assert pages[..i][..i - 1] == pages[..i - 1];
      ContinueOne(logs[i - 1], logs[i], channel, floors[i - 1], pages[i - 1],
                  Below(logs[0], channel, pages[0].before), Joined(pages[..i - 1]));
    } else {
      assert pages[..0] == [];
    }
  }

  lemma ContinueOne(
    log: seq<Message>, later: seq<Message>, channel: UInt16, floors: seq<nat>, page: Page,
    all: seq<Message>, joined: seq<Message>)
    requires ReadFrom(log, channel, floors, page) && Stream(later) && log <= later && page.messages != []
    requires SoFar(all, Below(log, channel, page.before), joined)
    ensures SoFar(all, Below(later, channel, page.nextBefore), page.messages + joined)
  {
    NextReads(log, later, channel, floors, page);
  }

  /** Chained pages enumerate each message once, in order and without a hole: together
      they are the newest messages below the first cursor. Once a page says there is no
      more, everything still retained has been delivered. */
  lemma PagesEnumerate(logs: seq<seq<Message>>, channel: UInt16, floors: seq<seq<nat>>, pages: seq<Page>)
    requires Reads(logs, channel, floors, pages)
    ensures var all, joined := Below(logs[0], channel, pages[0].before), Joined(pages);
      && |joined| <= |all| && joined == all[|all| - |joined|..] && Ordered(joined)
    ensures var last := |pages| - 1;
      !pages[last].hasMore ==>
        Delivered(Below(logs[0], channel, pages[0].before), LastFloor(floors[last], pages[last]), Joined(pages))
  {
    hide Below, PageOf, Joined, Delivered;
    var all, last := Below(logs[0], channel, pages[0].before), |pages| - 1;
    PagesContinue(logs, channel, floors, pages, last);
    assert ReadFrom(logs[0], channel, floors[0], pages[0]);
    assert ReadFrom(logs[last], channel, floors[last], pages[last]);
    BelowStream(logs[0], channel, pages[0].before);
    var below := Below(logs[last], channel, pages[last].before);
    JoinedIsSuffix(all, below, pages, floors[last]);
  }

  /** Cursors fall strictly from page to page. */
  lemma CursorsFall(logs: seq<seq<Message>>, channel: UInt16, floors: seq<seq<nat>>, pages: seq<Page>, i: nat)
    requires Reads(logs, channel, floors, pages) && i + 1 < |pages|
    ensures 0 < pages[i + 1].before && (pages[i].before != 0 ==> pages[i + 1].before < pages[i].before)
  {
    assert Continues(logs[i], logs[i + 1], pages[i], pages[i + 1]);
    assert ReadFrom(logs[i + 1], channel, floors[i + 1], pages[i + 1]);
    NextReads(logs[i], logs[i + 1], channel, floors[i], pages[i]);
  }

  lemma JoinedIsSuffix(all: seq<Message>, below: seq<Message>, pages: seq<Page>, floors: seq<nat>)
    requires pages != [] && Stream(all) && SoFar(all, below, Joined(pages[..|pages| - 1]))
    requires PageOf(below, floors, pages[|pages| - 1].before, pages[|pages| - 1])
    ensures var joined := Joined(pages);
      |joined| <= |all| && joined == all[|all| - |joined|..] && Ordered(joined)
    ensures !pages[|pages| - 1].hasMore ==>
      Delivered(all, LastFloor(floors, pages[|pages| - 1]), Joined(pages))
  {
    var older := OlderThan(below, floors, pages[|pages| - 1], Joined(pages[..|pages| - 1]), all);
    SuffixFacts(all, older, Joined(pages));
    if !pages[|pages| - 1].hasMore {
      RestIsGone(all, older, Joined(pages), LastFloor(floors, pages[|pages| - 1]));
    }
  }

  /** What a page leaves for later pages. */
  lemma OlderThan(below: seq<Message>, floors: seq<nat>, page: Page, joined: seq<Message>, all: seq<Message>)
    returns (older: seq<Message>)
    requires PageOf(below, floors, page.before, page) && SoFar(all, below, joined)
    ensures all == older + (page.messages + joined)
    ensures !page.hasMore && older != [] ==> older[|older| - 1].sequence < LastFloor(floors, page)
  {
    older := below[..|below| - |page.messages|];
    assert below == older + page.messages;
  }

  lemma SuffixFacts(all: seq<Message>, older: seq<Message>, joined: seq<Message>)
    requires Ordered(all) && all == older + joined
    ensures joined == all[|all| - |joined|..] && Ordered(joined)
  {
    assert forall i :: 0 <= i < |joined| ==> joined[i] == all[|older| + i];
  }

  lemma RestIsGone(all: seq<Message>, older: seq<Message>, joined: seq<Message>, floor: nat)
    requires Ordered(all) && all == older + joined
    requires older != [] ==> older[|older| - 1].sequence < floor
    ensures Delivered(all, floor, joined)
  {
    forall m | m in older ensures m.sequence < floor {
      var i :| 0 <= i < |older| && older[i] == m;
      assert all[i] == older[i] && all[|older| - 1] == older[|older| - 1];
    }
  }

  // ---- What may be stored -------------------------------------------------

  predicate Hex(s: string) {
    |s| == 64 && forall i :: 0 <= i < |s| ==> '0' <= s[i] <= '9' || 'a' <= s[i] <= 'f' || 'A' <= s[i] <= 'F'
  }

  /** What chatCommand lets through: a nickname is at most 30 characters of up to 4 bytes. */
  ghost predicate Storable(m: Message) {
    |m.text| <= 8192 && |m.nickname| <= 120 && Hex(m.author) && 8 <= |m.clientId| <= 64 && m.timestamp > 0
  }

  /** One message always fits, so a page that promises more is never empty. */
  lemma MoreMeansSome(all: seq<Message>, floors: seq<nat>, before: nat, page: Page)
    requires PageOf(all, floors, before, page) && page.hasMore
    requires forall m :: m in all ==> Storable(m)
    ensures page.messages != []
  {
    assert all[|all| - 1] in all;
    SizeMore(all, 0);
  }

  // ---- The first page and live delivery -----------------------------------

  /** The last retained sequence of the channel, or 0. */
  function Boundary(log: seq<Message>, channel: UInt16, floor: nat): nat {
    match Previous(log, channel, floor, 0)
    case Some(m) => m.sequence
    case None => 0
  }

  /** It is the newest of the channel, unless retention took that one. */
  lemma BoundaryIsNewest(log: seq<Message>, channel: UInt16, floor: nat)
    requires Stream(log)
    ensures var all := Below(log, channel, 0);
      Boundary(log, channel, floor)
        == if all == [] || all[|all| - 1].sequence < floor then 0 else all[|all| - 1].sequence
  {
    PreviousIsLast(log, channel, floor, 0);
  }

  /** What the consumer delivers: the channel's messages from a sequence on, in order,
      marked by which side of the boundary they are. */
  function Live(log: seq<Message>, channel: UInt16, from: nat, boundary: nat): seq<Message> {
    if log == [] then [] else
    var m := log[|log| - 1];
    var rest := Live(log[..|log| - 1], channel, from, boundary);
    if m.channel == channel && m.sequence >= from then rest + [m.(history := m.sequence <= boundary)] else rest
  }

  /** Sequence numbers only. */
  function Numbers(messages: seq<Message>): seq<nat> {
    seq(|messages|, i requires 0 <= i < |messages| => messages[i].sequence)
  }

  lemma NumbersPush(s: seq<Message>, m: Message)
    ensures Numbers(s + [m]) == Numbers(s) + [m.sequence]
  {
  }

  /** Splitting the channel at a sequence loses nothing and repeats nothing. */
  lemma {:induction false} SplitAt(log: seq<Message>, channel: UInt16, at: nat, boundary: nat)
    requires Stream(log) && at > 0
    ensures Numbers(Below(log, channel, 0))
      == Numbers(Below(log, channel, at)) + Numbers(Live(log, channel, at, boundary))
  {
    if log != [] {
      var rest, m := log[..|log| - 1], log[|log| - 1];
      SplitAt(rest, channel, at, boundary);
      if m.channel == channel {
        NumbersPush(Below(rest, channel, 0), m.(history := true));
        if m.sequence < at {
          EarlyIsNotLive(rest, channel, at, boundary);
          NumbersPush(Below(rest, channel, at), m.(history := true));
        } else {
          NumbersPush(Live(rest, channel, at, boundary), m.(history := m.sequence <= boundary));
        }
      }
    }
  }

  lemma {:induction false} EarlyIsNotLive(log: seq<Message>, channel: UInt16, from: nat, boundary: nat)
    requires forall i :: 0 <= i < |log| ==> log[i].sequence < from
    ensures Live(log, channel, from, boundary) == []
  {
    if log != [] {
      EarlyIsNotLive(log[..|log| - 1], channel, from, boundary);
    }
  }

  /** Initial history plus live delivery: whatever was committed while the page was read,
      the reader sees the newest run of the channel, each message once and in order, with
      history marks exactly up to the boundary. */
  lemma BoundaryIsSeamless(
    log: seq<Message>, later: seq<Message>, channel: UInt16, floor: nat, floors: seq<nat>, page: Page)
    requires Stream(log) && Stream(later) && log <= later
    requires var boundary := Boundary(log, channel, floor);
      if boundary == 0 then page.messages == []
      else PageOf(Below(later, channel, boundary + 1), floors, boundary + 1, page)
    ensures var boundary := Boundary(log, channel, floor);
      var seen := page.messages + Live(later, channel, boundary + 1, boundary);
      var everything := Numbers(Below(later, channel, 0));
      && |seen| <= |everything| && Numbers(seen) == everything[|everything| - |seen|..]
      && Ordered(seen)
      && forall m :: m in seen ==> (m.history <==> m.sequence <= boundary)
  {
    var boundary := Boundary(log, channel, floor);
    var below := Below(later, channel, boundary + 1);
    if boundary == 0 {
      assert page.messages == below[|below|..];
    } else {
      PageIsTail(below, floors, boundary + 1, page);
    }
    Seam(later, channel, boundary, page.messages);
  }

  lemma PageIsTail(all: seq<Message>, floors: seq<nat>, before: nat, page: Page)
    requires PageOf(all, floors, before, page)
    ensures |page.messages| <= |all| && page.messages == all[|all| - |page.messages|..]
  {
  }

  /** The newest of the messages up to the boundary, then all of those after it. */
  lemma Seam(log: seq<Message>, channel: UInt16, boundary: nat, tail: seq<Message>)
    requires Stream(log)
    requires var below := Below(log, channel, boundary + 1);
      |tail| <= |below| && tail == below[|below| - |tail|..]
    ensures var seen := tail + Live(log, channel, boundary + 1, boundary);
      var everything := Numbers(Below(log, channel, 0));
      && |seen| <= |everything| && Numbers(seen) == everything[|everything| - |seen|..]
      && Ordered(seen)
      && forall m :: m in seen ==> (m.history <==> m.sequence <= boundary)
  {
    var live := Live(log, channel, boundary + 1, boundary);
    var below := Below(log, channel, boundary + 1);
    SplitAt(log, channel, boundary + 1, boundary);
    BelowStream(log, channel, 0);
    TailThenLive(Below(log, channel, 0), below, |tail|, live);
    LiveFacts(log, channel, boundary + 1, boundary);
    BelowFacts(log, channel, boundary + 1);
  }

  lemma TailThenLive(all: seq<Message>, below: seq<Message>, k: nat, live: seq<Message>)
    requires Ordered(all) && k <= |below| && Numbers(all) == Numbers(below) + Numbers(live)
    ensures var seen, everything := below[|below| - k..] + live, Numbers(all);
      |seen| <= |everything| && Numbers(seen) == everything[|everything| - |seen|..] && Ordered(seen)
  {
    var seen, everything := below[|below| - k..] + live, Numbers(all);
    assert |everything| == |below| + |live|;
    forall i | 0 <= i < |seen| ensures Numbers(seen)[i] == everything[|everything| - |seen| + i] {
      if i < k {
        assert seen[i] == below[|below| - k + i];
      } else {
        assert seen[i] == live[i - k];
      }
    }
    assert Numbers(seen) == everything[|everything| - |seen|..];
    SuffixOrdered(all, seen);
  }

  lemma {:induction false} LiveFacts(log: seq<Message>, channel: UInt16, from: nat, boundary: nat)
    ensures forall m :: m in Live(log, channel, from, boundary) ==>
      m.sequence >= from && m.channel == channel && (m.history <==> m.sequence <= boundary)
  {
    if log != [] {
      LiveFacts(log[..|log| - 1], channel, from, boundary);
    }
  }

  lemma SuffixOrdered(all: seq<Message>, part: seq<Message>)
    requires Ordered(all) && |part| <= |all|
    requires Numbers(part) == Numbers(all)[|all| - |part|..]
    ensures Ordered(part)
  {
    forall i | 0 <= i < |part| ensures part[i].sequence == all[|all| - |part| + i].sequence {
      assert Numbers(part)[i] == Numbers(all)[|all| - |part| + i];
    }
  }

  /** When retention overtakes the consumer (sequences below `kept` are gone before they
      are delivered) the reader still sees nothing twice or out of order, and everything
      of the channel that is left above the boundary. */
  lemma BoundaryWithRetention(
    log: seq<Message>, later: seq<Message>, channel: UInt16, floor: nat, floors: seq<nat>, page: Page, kept: nat)
    requires Stream(log) && Stream(later) && log <= later
    requires var boundary := Boundary(log, channel, floor);
      if boundary == 0 then page.messages == []
      else PageOf(Below(later, channel, boundary + 1), floors, boundary + 1, page)
    requires kept > Boundary(log, channel, floor)
    ensures var boundary := Boundary(log, channel, floor);
      var seen := page.messages + Live(later, channel, kept, boundary);
      && Ordered(seen)
      && forall m :: m in later && m.channel == channel && m.sequence >= kept ==> m.(history := false) in seen
  {
    var boundary := Boundary(log, channel, floor);
    var live := Live(later, channel, kept, boundary);
    BelowFacts(later, channel, boundary + 1);
    LiveFacts(later, channel, kept, boundary);
    LiveOrdered(later, channel, kept, boundary);
    var below := Below(later, channel, boundary + 1);
    assert page.messages == below[|below| - |page.messages|..];
    OrderedJoin(page.messages, live, boundary);
    forall m | m in later && m.channel == channel && m.sequence >= kept ensures m.(history := false) in live {
      LiveHolds(later, channel, kept, boundary, m);
    }
  }

  lemma OrderedJoin(a: seq<Message>, b: seq<Message>, boundary: nat)
    requires Ordered(a) && Ordered(b)
    requires forall m :: m in a ==> m.sequence <= boundary
    requires forall m :: m in b ==> m.sequence > boundary
    ensures Ordered(a + b)
  {
    var c := a + b;
    forall i, j | 0 <= i < j < |c| ensures c[i].sequence < c[j].sequence {
      if i < |a| <= j {
        assert a[i] in a && b[j - |a|] in b;
      }
    }
  }

  lemma {:induction false} LiveOrdered(log: seq<Message>, channel: UInt16, from: nat, boundary: nat)
    requires Stream(log)
    ensures Ordered(Live(log, channel, from, boundary))
    ensures forall m :: m in Live(log, channel, from, boundary) && log != [] ==> m.sequence <= log[|log| - 1].sequence
  {
    if log != [] {
      var rest := log[..|log| - 1];
      LiveOrdered(rest, channel, from, boundary);
      var live := Live(rest, channel, from, boundary);
      forall m | m in live ensures m.sequence < log[|log| - 1].sequence {
        assert rest != [];
      }
    }
  }

  lemma {:induction false} LiveHolds(log: seq<Message>, channel: UInt16, from: nat, boundary: nat, m: Message)
    ensures m in log && m.channel == channel && m.sequence >= from ==>
      m.(history := m.sequence <= boundary) in Live(log, channel, from, boundary)
  {
    if log != [] {
      assert log == log[..|log| - 1] + [log[|log| - 1]];
      LiveHolds(log[..|log| - 1], channel, from, boundary, m);
    }
  }
}
