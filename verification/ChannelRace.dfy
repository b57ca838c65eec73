/** Editing the channel list while sessions keep moving: the occupancy check runs under the
    routing lock, the compare-and-swap and the cache install do not
    (mutateChannelAt, applyResources and updateAtContext in internal/server). */
module ChannelRace {
  import opened Common
  import opened Resources
  import Governance
  import Membership
  import ChannelEdits
  import RecordSize

  type Edit = ChannelEdits.Edit

  /** Where the holder of the channel lock stands. A swap is tried three times. */
  datatype Job =
    | Idle
    | Reading(edit: Edit, named: nat, attempt: nat)
    | Fetched(edit: Edit, named: nat, attempt: nat, base: nat)
    | Drafted(edit: Edit, named: nat, attempt: nat, base: nat, draft: ChannelRecord)
    | Swapped(edit: Edit, index: nat)
    | Closing(edit: Edit, swapped: Option<nat>)
    | Watching(seen: nat)

  /** `log` is the key's history; `cached` is the entry the store holds; `shown` is
      config.Channels, taken from entry `shownAt`; `next` counts the session IDs given out. */
  datatype World = World(
    log: seq<Entry>, cached: nat, shown: seq<Channel>, shownAt: nat, home: UInt16,
    deleting: UInt16, peers: Membership.Peers, next: nat, job: Job, failed: bool)

  function At(log: seq<Entry>, i: nat): Record
    requires i < |log|
  {
    log[i].record
  }

  function IdsOf(e: Entry): set<UInt16> {
    Ids(e.record.channels.channels)
  }

  function Occupied(peers: Membership.Peers): set<UInt16> {
    set id | id in peers :: peers[id].channel
  }

  datatype Step =
    | Session(event: Membership.Event)        // a critical section of the routing lock
    | Commit(record: Record)                  // another writer's swap
    | Install(index: nat)                     // another local writer's install
    | Begin(edit: Edit, named: nat)           // take the channel lock
    | Fetch                                   // Get, and the named revision's check
    | Check(draft: Option<ChannelRecord>)     // install, then the draft under the routing lock
    | Swap                                    // compare and swap
    | Adopt                                   // install what was swapped in
    | Abort                                   // any failure that is reported before a swap
    | Publish                                 // project the cache and let go
    | WatchBegin(index: nat)                  // the informer delivers a committed revision
    | WatchEnd

  function Max(a: nat, b: nat): nat {
    if a < b then b else a
  }

  // ---- One step, when it is enabled ---------------------------------------

  /** A newcomer gets the next session ID, never one that was used before, while there is
      room. Moderation takes the channel lock; other writers leave the channels alone. */
  predicate Enabled(w: World, step: Step) {
    w.shownAt <= w.cached < |w.log| &&
    match step
    case Session(event) =>
      && (event.ModeratedMove? || event.Kick? ==> w.job.Idle?)
      && (event.Join? ==> event.id == w.next + 1 && |w.peers| < MAX_MEMBERS)
    case Commit(record) =>
      && ValidRecord(record) && ValidTransition(At(w.log, |w.log| - 1), record)
      && record.channels == At(w.log, |w.log| - 1).channels
    case Install(index) => index < |w.log|
    case Begin(_, _) => w.job.Idle?
    case Fetch => w.job.Reading?
    case Check(_) => w.job.Fetched? && w.job.base < |w.log|
    case Swap => w.job.Drafted? && w.job.base < |w.log| && Storable(At(w.log, w.job.base), w.job.draft)
    case Adopt => w.job.Swapped? && w.job.index < |w.log|
    case Abort => w.job.Reading? || w.job.Fetched? || w.job.Drafted?
    case Publish => w.job.Closing?
    case WatchBegin(index) => w.job.Idle? && index < |w.log|
    case WatchEnd => w.job.Watching? && w.job.seen < |w.log|
  }

  /** The store's last check before the swap; a draft that is too long can only abort. */
  predicate Storable(r: Record, draft: ChannelRecord) {
    EncodedSize(r.(channels := draft)) <= MAX_RECORD
  }

  function Next(w: World, step: Step): World
    requires Enabled(w, step)
  {
    match step
    case Session(event) =>
      w.(peers := Membership.After(At(w.log, w.cached), w.deleting, w.home, w.peers, event).peers,
         next := if event.Join? then w.next + 1 else w.next)
    case Commit(record) =>
      w.(log := w.log + [Entry(w.log[|w.log| - 1].revision + 1, record)])
    case Install(index) => w.(cached := Max(w.cached, index))
    case Begin(edit, named) => w.(job := Reading(edit, named, 0))
    case Fetch =>
      var last := |w.log| - 1;
      if w.job.attempt >= 3 || (w.job.named != 0 && w.log[last].revision != w.job.named)
      then w.(job := Closing(w.job.edit, None))
      else w.(job := Fetched(w.job.edit, w.job.named, w.job.attempt, last))
    case Check(draft) => Checked(w.(cached := Max(w.cached, w.job.base)), draft)
    case Swap =>
      if w.job.base != |w.log| - 1 then w.(job := Reading(w.job.edit, w.job.named, w.job.attempt + 1)) else
      w.(log := w.log + [Entry(w.log[w.job.base].revision + 1, At(w.log, w.job.base).(channels := w.job.draft))],
         job := Swapped(w.job.edit, |w.log|))
    case Adopt => w.(cached := Max(w.cached, w.job.index), job := Closing(w.job.edit, Some(w.job.index)))
    case Abort => w.(job := Closing(w.job.edit, None))
    case Publish =>
      var free := w.(deleting := 0, job := Idle);
      if w.job.swapped.Some? then Projected(free, w.cached) else free
    case WatchBegin(index) =>
      if index <= w.shownAt then w
      else w.(cached := Max(w.cached, index), job := Watching(Max(w.cached, index)))
    case WatchEnd =>
      var free := w.(job := Idle);
      if Occupied(w.peers) <= IdsOf(w.log[w.job.seen]) then Projected(free, w.job.seen)
      else free.(failed := true)
  }

  /** The draft is the edit of what was fetched, as long as it is allowed and the channel
      it deletes is empty. */
  ghost predicate Drafts(w: World, step: Step)
    requires Enabled(w, step)
  {
    step.Check? && step.draft.Some? ==>
      ChannelEdits.Edited(At(w.log, w.job.base).channels, w.job.edit, Occupied(w.peers))
        == ChannelEdits.Draft(step.draft.value)
  }

  /** A deletion closes its channel to newcomers in the same critical section. */
  function Checked(w: World, draft: Option<ChannelRecord>): World
    requires w.job.Fetched?
  {
    if draft.None? then w.(job := Closing(w.job.edit, None))
    else w.(job := Drafted(w.job.edit, w.job.named, w.job.attempt, w.job.base, draft.value),
            deleting := if w.job.edit.Delete? then w.job.edit.id else w.deleting)
  }

  /** Show the channels of entry i and enforce access by it. */
  function Projected(w: World, i: nat): World
    requires i < |w.log|
  {
    w.(shown := At(w.log, i).channels.channels, shownAt := i, home := At(w.log, i).channels.defaultId,
       peers := Membership.Enforced(At(w.log, i), w.peers))
  }

  ghost predicate Initial(w: World) {
    && History(w.log) && w.cached == w.shownAt == |w.log| - 1
    && w.shown == At(w.log, w.cached).channels.channels
    && w.home == At(w.log, w.cached).channels.defaultId
    && w.deleting == 0 && w.peers == map[] && w.next == 0 && w.job == Idle && !w.failed
  }

  ghost predicate Takes(w: World, step: Step, w': World) {
    Enabled(w, step) && Drafts(w, step) && w' == Next(w, step)
  }

  ghost predicate Run(run: seq<World>, steps: seq<Step>) {
    && |run| == |steps| + 1 && Initial(run[0])
    && forall i :: 0 <= i < |steps| ==> Takes(run[i], steps[i], run[i + 1])
  }

  // ---- The invariant ------------------------------------------------------

  /** From entry `from` on, nobody changed which channels exist. */
  ghost predicate Steady(log: seq<Entry>, from: nat) {
    from < |log| && forall i :: from <= i < |log| ==> IdsOf(log[i]) == IdsOf(log[from])
  }

  /** Steady up to the swapped entry and again from it on; the swap itself is the edit. */
  ghost predicate OneEdit(log: seq<Entry>, from: nat, index: nat, edit: Edit) {
    && from < index < |log|
    && (forall i :: from <= i < index ==> IdsOf(log[i]) == IdsOf(log[index - 1]))
    && (forall i :: index <= i < |log| ==> IdsOf(log[i]) == IdsOf(log[index]))
    && IdsOf(log[index]) == Changed(log[index - 1].record.channels, edit)
  }

  function Changed(r: ChannelRecord, edit: Edit): set<UInt16> {
    if edit.Create? then Ids(r.channels) + (if 0 <= r.next < 0x1_0000 then {r.next as UInt16} else {})
    else if edit.Delete? then Ids(r.channels) - {edit.id}
    else Ids(r.channels)
  }

  /** What the holder of the channel lock knows. */
  ghost predicate JobFits(log: seq<Entry>, cached: nat, deleting: UInt16, job: Job) {
    match job
    case Idle => deleting == 0
    case Reading(edit, _, _) => DeletingFits(deleting, edit)
    case Fetched(edit, _, _, base) => base < |log| && DeletingFits(deleting, edit)
    case Drafted(edit, _, _, base, draft) =>
      && base <= cached && base < |log| && DeletingFits(deleting, edit) && (edit.Delete? ==> deleting == edit.id)
      && Follows(At(log, base).channels, edit, draft)
    case Swapped(edit, _) => DeletingFits(deleting, edit) && (edit.Delete? ==> deleting == edit.id)
    case Closing(edit, swapped) => DeletingFits(deleting, edit) && (swapped.Some? ==> swapped.value <= cached)
    case Watching(seen) => seen <= cached && deleting == 0
  }

  /** What an accepted edit does, as far as the others can tell. */
  ghost predicate Follows(r: ChannelRecord, edit: Edit, draft: ChannelRecord) {
    && ValidChannelRecord(draft) && draft.defaultId == r.defaultId && r.next <= draft.next
    && Ids(draft.channels) == Changed(r, edit)
    && forall id :: id in Ids(draft.channels) ==> id in Ids(r.channels) || id >= r.next
  }

  ghost predicate DeletingFits(deleting: UInt16, edit: Edit) {
    deleting != 0 ==> edit.Delete? && edit.id == deleting
  }

  /** Which channel sets the history went through since it was last shown. */
  ghost predicate LogFits(log: seq<Entry>, shownAt: nat, job: Job) {
    match job
    case Swapped(edit, index) => OneEdit(log, shownAt, index, edit)
    case Closing(edit, Some(index)) => OneEdit(log, shownAt, index, edit)
    case Watching(seen) => shownAt <= seen && Steady(log, shownAt)
    case _ => Steady(log, shownAt)
  }

  /** The default channel is always there and always the same; no channel has ID 0. */
  ghost predicate Homes(log: seq<Entry>, home: UInt16) {
    forall i :: 0 <= i < |log| ==>
      At(log, i).channels.defaultId == home && home in IdsOf(log[i]) && 0 !in IdsOf(log[i])
  }

  /** The invariant, apart from the validity of the history. Sessions are in cached
      channels, and none is in the one being deleted. */
  ghost predicate Holds(w: World) {
    && w.shownAt <= w.cached < |w.log|
    && w.shown == At(w.log, w.shownAt).channels.channels
    && Homes(w.log, w.home) && w.home != w.deleting
    && JobFits(w.log, w.cached, w.deleting, w.job) && LogFits(w.log, w.shownAt, w.job)
    && Occupied(w.peers) <= IdsOf(w.log[w.cached]) - {w.deleting}
    && !w.failed
  }

  // ---- Sessions -----------------------------------------------------------

  /** A session only ever moves to the default channel or to a cached channel that is not
      being deleted. */
  lemma SessionsStay(r: Record, deleting: UInt16, peers: Membership.Peers, event: Membership.Event, open: set<UInt16>)
    requires open == Ids(r.channels.channels) - {deleting} && r.channels.defaultId in open
    requires 0 !in Ids(r.channels.channels)
    requires event.ModeratedMove? ==> deleting == 0
    requires Occupied(peers) <= open
    ensures Occupied(Membership.After(r, deleting, r.channels.defaultId, peers, event).peers) <= open
  {
    var after := Membership.After(r, deleting, r.channels.defaultId, peers, event).peers;
    forall id | id in after ensures after[id].channel in open {
      SessionStays(r, deleting, peers, event, open, id, after[id]);
    }
  }

  lemma SessionStays(
    r: Record, deleting: UInt16, peers: Membership.Peers, event: Membership.Event, open: set<UInt16>,
    id: UInt16, q: Membership.Peer)
    requires open == Ids(r.channels.channels) - {deleting} && r.channels.defaultId in open
    requires 0 !in Ids(r.channels.channels)
    requires event.ModeratedMove? ==> deleting == 0
    requires Occupied(peers) <= open
    requires var after := Membership.After(r, deleting, r.channels.defaultId, peers, event).peers;
      id in after && after[id] == q
    ensures q.channel in open
  {
    if id in peers {
      assert peers[id].channel in Occupied(peers);
    }
    match event
    case SelfMove(target, channel) =>
    case ModeratedMove(mod, target, instance, channel, now) =>
      if Membership.ModerationCode(r, peers, mod, target, instance, now) == Membership.Done {
        assert Membership.AfterModerated(r, peers, mod, target, channel, now).peers[id] == q;
      }
    case Join(target, _) =>
    case _ => Membership.OthersGoHome(r, deleting, peers, event, id, q);
  }

  lemma EnforcedStay(r: Record, peers: Membership.Peers, open: set<UInt16>)
    requires r.channels.defaultId in open && Occupied(peers) <= open
    ensures Occupied(Membership.Enforced(r, peers)) <= open
  {
    forall id | id in peers ensures Membership.Enforced(r, peers)[id].channel in open {
      assert peers[id].channel in Occupied(peers);
      Membership.EnforcedHome(r, peers, id);
    }
  }

  // ---- The history --------------------------------------------------------

  lemma ZeroIsNoChannel(r: ChannelRecord)
    requires ValidChannelRecord(r)
    ensures 0 !in Ids(r.channels)
  {
    forall c | c in r.channels ensures c.id != 0 {
      var k :| 0 <= k < |r.channels| && r.channels[k] == c;
      assert ValidChannel(r.channels[k]);
    }
  }

  lemma EntryHasChannels(log: seq<Entry>, i: nat)
    requires History(log) && i < |log|
    ensures ValidChannelRecord(log[i].record.channels)
  {
    assert ValidRecord(log[i].record);
  }

  lemma HistoryHomes(log: seq<Entry>, home: UInt16)
    requires History(log) && At(log, |log| - 1).channels.defaultId == home
    ensures Homes(log, home)
  {
    hide History, ValidChannelRecord, Ids;
    forall i | 0 <= i < |log|
      ensures At(log, i).channels.defaultId == home && home in IdsOf(log[i]) && 0 !in IdsOf(log[i])
    {
      EntryHasChannels(log, i);
      OwnerAndDefaultFixed(log, i, |log| - 1);
      ZeroIsNoChannel(At(log, i).channels);
    }
  }

  lemma EditFollows(r: ChannelRecord, edit: Edit, occupied: set<UInt16>, draft: ChannelRecord)
    requires ValidChannelRecord(r) && ChannelEdits.Edited(r, edit, occupied) == ChannelEdits.Draft(draft)
    ensures Follows(r, edit, draft)
    ensures edit.Delete? ==> edit.id !in occupied && edit.id != r.defaultId && edit.id != 0
  {
    ChannelEdits.EditedIds(r, edit, occupied);
    ChannelEdits.EditedRecordValid(r, edit, occupied);
    ZeroIsNoChannel(r);
  }

  ghost predicate Extends(more: seq<Entry>, log: seq<Entry>) {
    && |more| == |log| + 1
    && forall i :: 0 <= i < |log| ==> more[i] == log[i]
  }

  lemma OneMore(log: seq<Entry>, e: Entry)
    ensures Extends(log + [e], log)
  {
  }

  lemma SteadyMore(log: seq<Entry>, from: nat, more: seq<Entry>)
    requires Steady(log, from) && Extends(more, log) && IdsOf(more[|log|]) == IdsOf(log[|log| - 1])
    ensures Steady(more, from)
  {
    assert more[from] == log[from];
    forall i | from <= i < |more| ensures IdsOf(more[i]) == IdsOf(more[from]) {
      if i < |log| {
        assert more[i] == log[i];
      }
    }
  }

  lemma OneEditMore(log: seq<Entry>, from: nat, index: nat, edit: Edit, more: seq<Entry>)
    requires OneEdit(log, from, index, edit) && Extends(more, log) && IdsOf(more[|log|]) == IdsOf(log[|log| - 1])
    ensures OneEdit(more, from, index, edit)
  {
    forall i | from <= i < |log| ensures IdsOf(more[i]) == IdsOf(log[i]) {
      assert more[i] == log[i];
    }
    assert more[index - 1] == log[index - 1];
  }

  /** A commit that leaves the channel set alone. */
  lemma LogMore(log: seq<Entry>, shownAt: nat, job: Job, more: seq<Entry>)
    requires LogFits(log, shownAt, job) && Extends(more, log) && IdsOf(more[|log|]) == IdsOf(log[|log| - 1])
    ensures LogFits(more, shownAt, job)
  {
    match job
    case Swapped(edit, index) => OneEditMore(log, shownAt, index, edit, more);
    case Closing(edit, Some(index)) => OneEditMore(log, shownAt, index, edit, more);
    case _ => SteadyMore(log, shownAt, more);
  }

  /** Facts about old entries survive a commit. */
  lemma EarlierKept(w: World, more: seq<Entry>)
    requires Holds(w) && Extends(more, w.log)
    ensures more[w.shownAt] == w.log[w.shownAt] && more[w.cached] == w.log[w.cached]
    ensures JobFits(more, w.cached, w.deleting, w.job)
  {
  }

  /** One more entry in a world, given what it does to the channel set. */
  lemma MoreKeeps(w: World, more: seq<Entry>)
    requires Holds(w) && Extends(more, w.log) && LogFits(w.log, w.shownAt, w.job)
    requires IdsOf(more[|w.log|]) == IdsOf(w.log[|w.log| - 1]) && Homes(more, w.home)
    ensures Holds(w.(log := more))
  {
    EarlierKept(w, more);
    LogMore(w.log, w.shownAt, w.job, more);
  }

  lemma CommitExtends(log: seq<Entry>, record: Record, home: UInt16, e: Entry)
    requires History(log) && ValidRecord(record) && ValidTransition(At(log, |log| - 1), record)
    requires e == Entry(log[|log| - 1].revision + 1, record) && record.channels.defaultId == home
    ensures History(log + [e]) && Homes(log + [e], home)
  {
    hide ValidRecord, ValidTransition;
    HistoryMore(log, e);
    HistoryHomes(log + [e], home);
  }

  lemma SwapExtends(log: seq<Entry>, edit: Edit, draft: ChannelRecord, home: UInt16, e: Entry)
    requires History(log) && Follows(At(log, |log| - 1).channels, edit, draft)
    requires At(log, |log| - 1).channels.defaultId == home
    requires e == Entry(log[|log| - 1].revision + 1, At(log, |log| - 1).(channels := draft))
    requires Storable(At(log, |log| - 1), draft)
    ensures History(log + [e]) && Homes(log + [e], home)
  {
    hide EncodedSize;
    ChannelEdits.ChannelsOnly(At(log, |log| - 1), draft);
    CommitExtends(log, e.record, home, e);
  }

  lemma LastValid(log: seq<Entry>, i: nat)
    requires History(log) && i < |log|
    ensures ValidChannelRecord(At(log, i).channels)
  {
  }

  /** The edit's own commit changes the channel set by the edit and nothing else. */
  lemma EditCommitted(log: seq<Entry>, from: nat, more: seq<Entry>, edit: Edit)
    requires Steady(log, from) && Extends(more, log)
    requires IdsOf(more[|log|]) == Changed(At(log, |log| - 1).channels, edit)
    ensures OneEdit(more, from, |log|, edit)
  {
    assert more[|log| - 1] == log[|log| - 1];
    forall i | from <= i < |log| ensures IdsOf(more[i]) == IdsOf(more[|log| - 1]) {
      assert more[i] == log[i];
    }
  }

  lemma SwapKeeps(w: World, more: seq<Entry>)
    requires Holds(w) && w.job.Drafted? && Extends(more, w.log) && Homes(more, w.home)
    requires OneEdit(more, w.shownAt, |w.log|, w.job.edit)
    ensures Holds(w.(log := more, job := Swapped(w.job.edit, |w.log|)))
  {
    EarlierKept(w, more);
  }

  /** Whatever later entry the store installs, nobody's channel goes with it. */
  lemma LaterKeeps(log: seq<Entry>, shownAt: nat, cached: nat, deleting: UInt16, job: Job, later: nat)
    requires shownAt <= cached <= later < |log|
    requires JobFits(log, cached, deleting, job) && LogFits(log, shownAt, job)
    ensures IdsOf(log[cached]) - {deleting} <= IdsOf(log[later])
  {
  }

  lemma InstallKeeps(w: World, index: nat)
    requires Holds(w) && index < |w.log|
    ensures Holds(w.(cached := Max(w.cached, index)))
  {
    LaterKeeps(w.log, w.shownAt, w.cached, w.deleting, w.job, Max(w.cached, index));
  }

  /** The draft of a deletion is made only when nobody is there. */
  lemma CheckKeeps(w: World, draft: Option<ChannelRecord>)
    requires Holds(w) && w.job.Fetched? && w.job.base <= w.cached
    requires draft.Some? ==> Follows(At(w.log, w.job.base).channels, w.job.edit, draft.value)
    requires draft.Some? && w.job.edit.Delete? ==> w.job.edit.id !in Occupied(w.peers) && w.job.edit.id !in {0, w.home}
    ensures Holds(Checked(w, draft))
  {
  }

  /** Letting go of the lock. */
  lemma PublishKeeps(w: World)
    requires Holds(w) && Enabled(w, Publish)
    ensures Holds(Next(w, Publish))
  {
    if w.job.swapped.Some? {
      EnforcedStay(At(w.log, w.cached), w.peers, IdsOf(w.log[w.cached]));
    }
  }

  lemma WatchKeeps(w: World)
    requires Holds(w) && Enabled(w, WatchEnd)
    ensures Holds(Next(w, WatchEnd))
  {
    var seen := w.job.seen;
    assert IdsOf(w.log[seen]) == IdsOf(w.log[w.cached]);
    EnforcedStay(At(w.log, seen), w.peers, IdsOf(w.log[seen]));
  }

  ghost predicate Inv(w: World) {
    History(w.log) && Holds(w)
  }

  lemma SessionKeeps(w: World, event: Membership.Event)
    requires Holds(w) && Enabled(w, Session(event))
    ensures Holds(Next(w, Session(event)))
  {
    SessionsStay(At(w.log, w.cached), w.deleting, w.peers, event, IdsOf(w.log[w.cached]) - {w.deleting});
  }

  /** The steps that move the cache. */
  lemma InstallStepKeeps(w: World, step: Step)
    requires Holds(w) && Enabled(w, step) && (step.Install? || step.Adopt? || step.WatchBegin?)
    ensures Next(w, step).log == w.log && Holds(Next(w, step))
  {
    hide ValidRecord, ValidTransition, ValidChannelRecord, Storable, Membership.After;
    match step
    case Install(index) => InstallKeeps(w, index);
    case Adopt => InstallKeeps(w, w.job.index);
    case WatchBegin(index) => InstallKeeps(w, index);
  }

  /** The remaining steps. */
  lemma QuietKeeps(w: World, step: Step)
    requires Holds(w) && Enabled(w, step)
    requires step.Begin? || step.Fetch? || step.Abort? || step.Publish? || step.WatchEnd?
    ensures Next(w, step).log == w.log && Holds(Next(w, step))
  {
    hide ValidRecord, ValidTransition, ValidChannelRecord, Storable, Membership.After;
    match step
    case Publish => PublishKeeps(w);
    case WatchEnd => WatchKeeps(w);
    case _ =>
  }

  lemma CheckStepKeeps(w: World, step: Step)
    requires Inv(w) && Enabled(w, step) && step.Check? && Drafts(w, step)
    ensures Inv(Next(w, step))
  {
    hide ValidRecord, ValidTransition;
    InstallKeeps(w, w.job.base);
    if step.draft.Some? {
      LastValid(w.log, w.job.base);
      EditFollows(At(w.log, w.job.base).channels, w.job.edit, Occupied(w.peers), step.draft.value);
    }
    CheckKeeps(w.(cached := Max(w.cached, w.job.base)), step.draft);
  }

  /** After a commit the history is still valid and its default channel the same. */
  lemma CommitHistory(w: World, step: Step)
    requires History(w.log) && Homes(w.log, w.home) && Enabled(w, step) && step.Commit?
    ensures History(Next(w, step).log) && Homes(Next(w, step).log, w.home)
  {
    hide ValidRecord, ValidTransition;
    var e := Entry(w.log[|w.log| - 1].revision + 1, step.record);
    assert Next(w, step).log == w.log + [e];
    CommitExtends(w.log, step.record, w.home, e);
  }

  lemma SwapHistory(w: World)
    requires History(w.log) && Homes(w.log, w.home) && Enabled(w, Swap)
    requires Follows(At(w.log, w.job.base).channels, w.job.edit, w.job.draft)
    ensures History(Next(w, Swap).log) && Homes(Next(w, Swap).log, w.home)
  {
    hide ValidRecord, ValidTransition;
    if w.job.base == |w.log| - 1 {
      var e := Entry(w.log[w.job.base].revision + 1, At(w.log, w.job.base).(channels := w.job.draft));
      assert Next(w, Swap).log == w.log + [e];
      SwapExtends(w.log, w.job.edit, w.job.draft, w.home, e);
    }
  }

  /** The steps that commit something. */
  lemma CommitKeeps(w: World, step: Step)
    requires Holds(w) && Enabled(w, step) && (step.Commit? || step.Swap?)
    requires Homes(Next(w, step).log, w.home)
    ensures Holds(Next(w, step))
  {
    hide ValidRecord, ValidTransition, ValidChannelRecord, Storable, Checked, Projected, Membership.After;
    var more := Next(w, step).log;
    if step.Commit? {
      OneMore(w.log, more[|w.log|]);
      MoreKeeps(w, more);
    } else if w.job.base == |w.log| - 1 {
      OneMore(w.log, more[|w.log|]);
      EditCommitted(w.log, w.shownAt, more, w.job.edit);
      SwapKeeps(w, more);
    }
  }

  lemma StepKeeps(w: World, step: Step)
    requires Inv(w) && Enabled(w, step) && Drafts(w, step)
    ensures Inv(Next(w, step))
  {
    hide ValidRecord, ValidTransition;
    if step.Commit? || step.Swap? {
      if step.Commit? {
        CommitHistory(w, step);
      } else {
        SwapHistory(w);
      }
      CommitKeeps(w, step);
    } else if step.Check? {
      CheckStepKeeps(w, step);
    } else if step.Session? {
      SessionKeeps(w, step.event);
    } else if step.Install? || step.Adopt? || step.WatchBegin? {
      InstallStepKeeps(w, step);
    } else {
      QuietKeeps(w, step);
    }
  }

  lemma {:induction false} RunHolds(run: seq<World>, steps: seq<Step>, i: nat)
    requires Run(run, steps) && i <= |steps|
    ensures Inv(run[i])
  {
    hide ValidRecord, ValidTransition, Next, Enabled, Drafts;
    if i == 0 {
      HistoryHomes(run[0].log, run[0].home);
    } else {
      RunHolds(run, steps, i - 1);
      assert Takes(run[i - 1], steps[i - 1], run[i - 1 + 1]);
      StepKeeps(run[i - 1], steps[i - 1]);
    }
  }

  // ---- What it is for -----------------------------------------------------

  /** In every run every session's channel is in the cached record and in every later
      one; nobody is in a channel being deleted; the informer never finds an occupied
      channel gone. */
  lemma NoOrphans(run: seq<World>, steps: seq<Step>, i: nat)
    requires Run(run, steps) && i <= |steps|
    ensures var w := run[i];
      && !w.failed && w.cached < |w.log|
      && w.deleting !in Occupied(w.peers)
      && forall k :: w.cached <= k < |w.log| ==> Occupied(w.peers) <= IdsOf(w.log[k])
  {
    RunHolds(run, steps, i);
    var w := run[i];
    forall k | w.cached <= k < |w.log| ensures Occupied(w.peers) <= IdsOf(w.log[k]) {
      LaterKeeps(w.log, w.shownAt, w.cached, w.deleting, w.job, k);
    }
  }

  /** The channel of a creation that is committed but not yet shown. */
  function Unshown(w: World): Option<nat> {
    var index := if w.job.Swapped? then w.job.index
                 else if w.job.Closing? && w.job.swapped.Some? then w.job.swapped.value else 0;
    if 0 < index <= |w.log| && w.job.edit.Create? then Some(w.log[index - 1].record.channels.next) else None
  }

  /** A snapshot lists every session's channel, except exactly a channel created so
      recently that its edit has not been published. */
  lemma SnapshotLists(run: seq<World>, steps: seq<Step>, i: nat, id: UInt16)
    requires Run(run, steps) && i <= |steps| && id in run[i].peers
    ensures run[i].peers[id].channel in Ids(run[i].shown) <==> Unshown(run[i]) != Some(run[i].peers[id].channel)
  {
    RunHolds(run, steps, i);
    var w := run[i];
    forall k: nat | k < |w.log| ensures NextAbove(w.log[k]) {
      NextIsNew(w.log, k);
    }
    ShownUnless(w, id);
  }

  lemma ShownUnless(w: World, id: UInt16)
    requires Holds(w) && id in w.peers && forall k :: 0 <= k < |w.log| ==> NextAbove(w.log[k])
    ensures w.peers[id].channel in Ids(w.shown) <==> Unshown(w) != Some(w.peers[id].channel)
  {
    assert w.peers[id].channel in Occupied(w.peers);
    assert Ids(w.shown) == IdsOf(w.log[w.shownAt]);
    if Unshown(w).Some? {
      var index := if w.job.Swapped? then w.job.index else w.job.swapped.value;
      assert NextAbove(w.log[index - 1]);
    }
  }

  /** What a client asked to see; the server takes all members only with all channels. */
  datatype Watch = Watch(allChannels: bool, allMembers: bool)

  predicate ValidWatch(watch: Watch) {
    watch.allMembers ==> watch.allChannels
  }

  /** The channels and members of a session's state. */
  function StateChannels(w: World, viewer: UInt16, watch: Watch): set<UInt16>
    requires viewer in w.peers
  {
    if watch.allChannels then Ids(w.shown) else Ids(w.shown) * {w.peers[viewer].channel}
  }

  function StateMembers(w: World, viewer: UInt16, watch: Watch): set<UInt16>
    requires viewer in w.peers
  {
    set id | id in w.peers && !w.peers[id].removed
      && (watch.allMembers || w.peers[id].channel == w.peers[viewer].channel)
  }

  /** The client's check of these: there are channels, and every member's is among them. */
  predicate ClientReads(w: World, viewer: UInt16, watch: Watch)
    requires viewer in w.peers
  {
    && StateChannels(w, viewer, watch) != {}
    && forall id :: id in StateMembers(w, viewer, watch) ==> w.peers[id].channel in StateChannels(w, viewer, watch)
  }

  /** In every run the client of a live session can read its state exactly when the state
      shows nobody in a channel whose creation is not published; otherwise its session ends. */
  lemma StateIsReadable(run: seq<World>, steps: seq<Step>, i: nat, viewer: UInt16, watch: Watch)
    requires Run(run, steps) && i <= |steps| && viewer in run[i].peers
    requires !run[i].peers[viewer].removed && ValidWatch(watch)
    ensures ClientReads(run[i], viewer, watch) <==>
      forall id :: id in StateMembers(run[i], viewer, watch) ==> Unshown(run[i]) != Some(run[i].peers[id].channel)
  {
    var w := run[i];
    forall id | id in StateMembers(w, viewer, watch)
      ensures w.peers[id].channel in StateChannels(w, viewer, watch) <==> Unshown(w) != Some(w.peers[id].channel)
    {
      SnapshotLists(run, steps, i, id);
    }
    assert viewer in StateMembers(w, viewer, watch);
  }

  ghost predicate NextAbove(e: Entry) {
    forall id :: id in IdsOf(e) ==> id < e.record.channels.next
  }

  lemma NextIsNew(log: seq<Entry>, i: nat)
    requires History(log) && i < |log|
    ensures NextAbove(log[i])
  {
    forall c | c in log[i].record.channels.channels ensures c.id < log[i].record.channels.next {
      var k :| 0 <= k < |log[i].record.channels.channels| && log[i].record.channels.channels[k] == c;
    }
  }

  // ---- How an edit gets through -------------------------------------------

  /** One attempt, from the lock's holder reading: it gives up exactly when three attempts were
      overtaken or the named revision is not the last; otherwise it reads the last entry. */
  lemma FetchExactly(w: World)
    requires Enabled(w, Fetch)
    ensures var job, last := w.job, |w.log| - 1;
      Next(w, Fetch) == w.(
        job := if job.attempt == 0 || job.attempt == 1 || job.attempt == 2 then
                 if job.named == 0 || job.named == w.log[last].revision
                 then Fetched(job.edit, job.named, job.attempt, last)
                 else Closing(job.edit, None)
               else Closing(job.edit, None))
  {
  }

  /** A swap goes through exactly when nothing was committed since the read; then the draft
      follows what was read, with everything else of the record unchanged. If it does not, the
      attempt has been overtaken and counts. */
  lemma SwapExactly(w: World)
    requires Enabled(w, Swap)
    ensures var job, last := w.job, |w.log| - 1;
      if job.base == last then
        && Next(w, Swap).log
             == w.log + [Entry(w.log[last].revision + 1, At(w.log, last).(channels := job.draft))]
        && Next(w, Swap) == w.(log := Next(w, Swap).log, job := Swapped(job.edit, |w.log|))
      else
        Next(w, Swap) == w.(job := Reading(job.edit, job.named, job.attempt + 1))
  {
  }

  /** The whole life of an edit that nobody overtakes. */
  function EditSteps(edit: Edit, named: nat, draft: ChannelRecord): seq<Step> {
    [Begin(edit, named), Fetch, Check(Some(draft)), Swap, Adopt, Publish]
  }

  ghost predicate Passes(run: seq<World>, steps: seq<Step>) {
    && |run| == |steps| + 1
    && forall i :: 0 <= i < |steps| ==> Takes(run[i], steps[i], run[i + 1])
  }

  /** An edit that names no revision or the last, and that nobody overtakes, ends with its draft
      committed, cached and shown, sessions enforced by it, and the lock free again. */
  lemma EditGoesThrough(run: seq<World>, edit: Edit, named: nat, draft: ChannelRecord, last: nat)
    requires Passes(run, EditSteps(edit, named, draft)) && last + 1 == |run[0].log|
    requires named == 0 || named == run[0].log[last].revision
    ensures var w, after := run[0], run[6];
      && after.log == w.log + [Entry(w.log[last].revision + 1, At(w.log, last).(channels := draft))]
      && after.cached == after.shownAt == last + 1 && after.shown == draft.channels
      && after.home == draft.defaultId && after.deleting == 0 && after.job == Idle
      && after.peers == Membership.Enforced(At(after.log, last + 1), w.peers)
      && after.next == w.next && after.failed == w.failed
  {
    hide Drafts, Membership.Enforced, ValidRecord, ValidTransition, Storable;
    var steps := EditSteps(edit, named, draft);
    assert Takes(run[0], steps[0], run[0 + 1]) && Takes(run[1], steps[1], run[1 + 1]);
    assert Takes(run[2], steps[2], run[2 + 1]) && Takes(run[3], steps[3], run[3 + 1]);
    assert Takes(run[4], steps[4], run[4 + 1]) && Takes(run[5], steps[5], run[5 + 1]);
    EditReads(run[0], run[1], run[2], edit, named, last);
    EditDrafts(run[2], run[3], run[4], edit, named, draft, last);
    EditShows(run[4], run[5], run[6], edit, last + 1);
  }

  lemma EditReads(w: World, a: World, b: World, edit: Edit, named: nat, last: nat)
    requires Takes(w, Begin(edit, named), a) && Takes(a, Fetch, b) && last + 1 == |w.log|
    requires named == 0 || named == w.log[last].revision
    ensures b == w.(job := Fetched(edit, named, 0, last)) && w.shownAt <= w.cached <= last
  {
  }

  lemma EditDrafts(
    w: World, a: World, b: World, edit: Edit, named: nat, draft: ChannelRecord, last: nat)
    requires Takes(w, Check(Some(draft)), a) && Takes(a, Swap, b) && last + 1 == |w.log|
    requires w.job == Fetched(edit, named, 0, last) && w.shownAt <= w.cached <= last
    ensures b == w.(log := b.log, cached := last, deleting := b.deleting, job := Swapped(edit, last + 1))
    ensures b.log == w.log + [Entry(w.log[last].revision + 1, At(w.log, last).(channels := draft))]
  {
    hide Drafts, Storable;
  }

  lemma EditShows(w: World, a: World, b: World, edit: Edit, index: nat)
    requires Takes(w, Adopt, a) && Takes(a, Publish, b) && index + 1 == |w.log|
    requires w.job == Swapped(edit, index) && w.cached <= index
    ensures b == Projected(w.(deleting := 0, job := Idle, cached := index), index)
  {
    hide Membership.Enforced;
  }

  /** What the informer delivers is shown, or something newer that is cached already, unless it
      has been shown before. */
  lemma WatchShows(w: World, index: nat)
    requires Inv(w) && Enabled(w, WatchBegin(index))
    ensures index <= w.shownAt ==> Next(w, WatchBegin(index)) == w
    ensures index > w.shownAt ==>
      var newest := Max(w.cached, index);
      var mid := w.(cached := newest, job := Watching(newest));
      && Next(w, WatchBegin(index)) == mid && Enabled(mid, WatchEnd)
      && Next(mid, WatchEnd) == Projected(mid.(job := Idle), newest)
  {
    hide Membership.Enforced, History, Homes, LogFits, JobFits, Projected, IdsOf, Occupied;
    if index > w.shownAt {
      StepKeeps(w, WatchBegin(index));
      var newest := Max(w.cached, index);
      WatchPasses(w.(cached := newest, job := Watching(newest)), newest);
    }
  }

  lemma WatchPasses(w: World, seen: nat)
    requires Holds(w) && w.job == Watching(seen) && seen < |w.log|
    ensures Enabled(w, WatchEnd) && Next(w, WatchEnd) == Projected(w.(job := Idle), seen)
  {
    hide Membership.Enforced;
    WatchKeeps(w);
  }

  /** To show an entry is to list its channels, admit newcomers to its default channel, and send
      everybody home who may not be where they are. */
  lemma ShowsExactly(w: World, i: nat)
    requires i < |w.log|
    ensures var r := w.log[i].record;
      Projected(w, i)
        == w.(shown := r.channels.channels, shownAt := i, home := r.channels.defaultId,
              peers := Membership.Enforced(r, w.peers))
  {
  }

  // ---- The exception does happen ------------------------------------------

  const Hall: Channel := Channel(1, Text(4, 4, 4, true), Text(0, 0, 0, true), 32000, false)
  const Attic: Channel := Channel(2, Text(5, 5, 5, true), Text(0, 0, 0, true), 32000, false)
  const Small: Record := Record(ChannelRecord(2, 1, [Hall]), "", None, [], [], None, false)
  const Larger: Record := Small.(channels := ChannelRecord(3, 1, [Hall, Attic]))
  const AddAttic: Edit := ChannelEdits.Create(Text(5, 5, 5, true), Text(0, 0, 0, true), 32000, false)

  lemma SmallRecords()
    ensures ValidRecord(Small) && ValidRecord(Larger)
    ensures ChannelEdits.Edited(Small.channels, AddAttic, {1}) == ChannelEdits.Draft(Larger.channels)
    ensures Membership.ChannelById(Larger.channels.channels, 2) == Some(Attic)
  {
    assert Hall in [Hall] && Hall in [Hall, Attic];
    assert TextSize([]) == 0;
    assert [Hall][..0] == [] && TextSize([Hall]) == 4;
    assert [Hall, Attic][..1] == [Hall] && TextSize([Hall, Attic]) == 9;
    assert [Hall] + [Attic] == [Hall, Attic];
    assert [Hall, Attic][1..] == [Attic];
    RecordSize.FewBansFit(Small);
    RecordSize.FewBansFit(Larger);
  }

  const Guest: Membership.Peer := Membership.Peer(0, "", 0, 1, 0, 1, false, true, false)
  const Empty: World := World([Entry(1, Small)], 0, [Hall], 0, 1, 0, map[], 0, Idle, false)
  const Joined: World := Empty.(peers := map[1 := Guest], next := 1)
  const Asked: World := Joined.(job := Reading(AddAttic, 0, 0))
  const Got: World := Joined.(job := Fetched(AddAttic, 0, 0, 0))
  const Ready: World := Joined.(job := Drafted(AddAttic, 0, 0, 0, Larger.channels))
  const Stored: World := Joined.(job := Swapped(AddAttic, 1), log := [Entry(1, Small), Entry(2, Larger)])
  const Adopted: World := Stored.(cached := 1, job := Closing(AddAttic, Some(1)))
  const Upstairs: World := Adopted.(peers := map[1 := Guest.(channel := 2, epoch := 2)])

  lemma LagBegins()
    ensures Initial(Empty) && Takes(Empty, Session(Membership.Join(1, 0)), Joined)
    ensures Takes(Joined, Begin(AddAttic, 0), Asked) && Takes(Asked, Fetch, Got)
  {
    hide ValidRecord, ValidTransition, EncodedSize;
    SmallRecords();
  }

  lemma LagDrafts()
    ensures Takes(Got, Check(Some(Larger.channels)), Ready)
  {
    SmallRecords();
    assert Occupied(Got.peers) == {1} by {
      assert 1 in Got.peers;
    }
  }

  lemma LagSwaps()
    ensures Takes(Ready, Swap, Stored) && Takes(Stored, Adopt, Adopted)
  {
    SmallRecords();
  }

  lemma LagMoves()
    ensures Takes(Adopted, Session(Membership.SelfMove(1, 2)), Upstairs)
  {
    SmallRecords();
  }

  /** Somebody walks into a new channel between the install and the publication, and that
      client cannot read the state that follows. */
  lemma SnapshotMayLag() returns (run: seq<World>, steps: seq<Step>)
    ensures Run(run, steps) && |run| == 8
    ensures 1 in run[7].peers && run[7].peers[1].channel !in Ids(run[7].shown)
    ensures !run[7].peers[1].removed && forall watch :: ValidWatch(watch) ==> !ClientReads(run[7], 1, watch)
  {
    hide Takes, ValidRecord, Initial;
    LagBegins();
    LagDrafts();
    LagSwaps();
    LagMoves();
    steps := [Session(Membership.Join(1, 0)), Begin(AddAttic, 0), Fetch, Check(Some(Larger.channels)), Swap, Adopt,
              Session(Membership.SelfMove(1, 2))];
    run := [Empty, Joined, Asked, Got, Ready, Stored, Adopted, Upstairs];
    SnapshotLists(run, steps, 7, 1);
    forall watch | ValidWatch(watch) ensures !ClientReads(run[7], 1, watch) {
      assert 1 in StateMembers(run[7], 1, watch);
    }
  }
}
