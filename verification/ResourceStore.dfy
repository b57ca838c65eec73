/** The cached store over a revisioned key (internal/server/store.go): installs may skip
    revisions, and an update is a read, a draft, a compare-and-swap and an install, with
    other writers free to commit in between. */
module ResourceStore {
  import opened Common
  import opened Resources

  datatype Outcome = Updated | Conflict | Rejected | Invalid

  function Last(log: seq<Entry>): Entry
    requires log != []
  {
    log[|log| - 1]
  }

  /** Other writers' commits: each goes through the same validation before its swap. */
  function Committed(log: seq<Entry>, others: seq<Record>): (after: seq<Entry>)
    requires log != []
    ensures log <= after
  {
    if others == [] then log
    else CommitOne(Committed(log, others[..|others| - 1]), others[|others| - 1])
  }

  function CommitOne(log: seq<Entry>, r: Record): (after: seq<Entry>)
    requires log != []
    ensures log <= after
  {
    if ValidRecord(r) && ValidTransition(Last(log).record, r)
    then log + [Entry(Last(log).revision + 1, r)]
    else log
  }

  /** The others' fit records are committed one after another, and no other ones. */
  lemma {:induction false} OthersCommit(log: seq<Entry>, others: seq<Record>, r: Record)
    requires log != []
    ensures Committed(log, []) == log
    ensures var before := Committed(log, others);
      Committed(log, others + [r])
        == if ValidRecord(r) && ValidTransition(Last(before).record, r)
           then before + [Entry(Last(before).revision + 1, r)] else before
  {
    hide ValidRecord, ValidTransition;
    assert (others + [r])[..|others|] == others;
  }

  lemma OneIsHistory(log: seq<Entry>, r: Record)
    requires History(log)
    ensures History(CommitOne(log, r))
  {
    if ValidRecord(r) && ValidTransition(Last(log).record, r) {
      HistoryMore(log, Entry(Last(log).revision + 1, r));
    }
  }

  lemma {:induction false} CommittedIsHistory(log: seq<Entry>, others: seq<Record>)
    requires History(log)
    ensures History(Committed(log, others))
  {
    if others != [] {
      CommittedIsHistory(log, others[..|others| - 1]);
      OneIsHistory(Committed(log, others[..|others| - 1]), others[|others| - 1]);
    }
  }

  // ---- What an update should come to --------------------------------------

  /** The history that attempt k of an update reads, if those before it were overtaken. */
  function Seen(log: seq<Entry>, others: seq<seq<Record>>, k: nat): (seen: seq<Entry>)
    requires log != [] && k <= |others|
    ensures log <= seen
  {
    if k == 0 then log else Committed(Seen(log, others, k - 1), others[k - 1])
  }

  /** What can become of one attempt: it finds another revision than the named one, its draft
      of the record read is refused or fails validation, another writer commits before its
      swap, or it goes through. */
  datatype Fate = Stale | Refused | Unfit | Overtaken | Through(record: Record)

  function FateOf(seen: seq<Entry>, named: nat, draft: Record -> Option<Record>, others: seq<Record>): Fate
    requires seen != []
  {
    var entry := Last(seen);
    var drafted := draft(entry.record);
    if named != 0 && named != entry.revision then Stale
    else if drafted.None? then Refused
    else if !ValidTransition(entry.record, drafted.value) || !ValidRecord(drafted.value) then Unfit
    else if |Committed(seen, others)| > |seen| then Overtaken
    else Through(drafted.value)
  }

  /** The outcome for the caller when attempt k is the last. */
  ghost predicate Answers(outcome: Outcome, fate: Fate) {
    match outcome
    case Updated => fate.Through?
    case Conflict => fate.Stale?
    case Rejected => fate.Refused?
    case Invalid => fate.Unfit?
  }

  /** The key's whole history, of which a reader sees only the last entry. */
  class KeyValue {
    var log: seq<Entry>

    constructor (first: Record)
      requires ValidRecord(first)
      ensures History(log) && log == [Entry(1, first)]
    {
      log := [Entry(1, first)];
    }

    method Interfere(others: seq<Record>)
      requires History(log)
      modifies this
      ensures History(log) && log == Committed(old(log), others)
    {
      CommittedIsHistory(log, others);
      log := Committed(log, others);
    }

    /** Compare and swap: succeeds only against the revision it names. */
    method Update(r: Record, expected: nat) returns (revision: nat, ok: bool)
      requires History(log) && ValidRecord(r)
      requires Last(log).revision == expected ==> ValidTransition(Last(log).record, r)
      modifies this
      ensures ok == (Last(old(log)).revision == expected)
      ensures ok ==> revision == expected + 1 && log == old(log) + [Entry(revision, r)]
      ensures !ok ==> log == old(log)
      ensures History(log)
    {
      hide ValidRecord, ValidTransition;
      if Last(log).revision != expected {
        return 0, false;
      }
      revision, ok := expected + 1, true;
      HistoryMore(log, Entry(revision, r));
      log := log + [Entry(revision, r)];
    }
  }

  /** The cache is some committed entry. */
  ghost predicate Cached(log: seq<Entry>, record: Record, revision: nat) {
    exists i :: 0 <= i < |log| && log[i] == Entry(revision, record)
  }

  lemma CachedGrows(log: seq<Entry>, after: seq<Entry>, record: Record, revision: nat)
    requires Cached(log, record, revision) && log <= after
    ensures Cached(after, record, revision)
  {
    var i :| 0 <= i < |log| && log[i] == Entry(revision, record);
    assert after[i] == log[i];
  }

  /** Any two committed revisions are a valid transition apart, however far. */
  lemma InstallAccepts(log: seq<Entry>, record: Record, revision: nat, r: Record, later: nat)
    requires History(log) && Cached(log, record, revision) && Cached(log, r, later)
    ensures revision < later ==> ValidTransition(record, r)
    ensures revision == later ==> record == r
  {
    var i :| 0 <= i < |log| && log[i] == Entry(revision, record);
    var j :| 0 <= j < |log| && log[j] == Entry(later, r);
    if i <= j {
      HistoryComposes(log, i, j);
    } else {
      HistoryComposes(log, j, i);
    }
  }

  class Store {
    const kv: KeyValue
    var record: Record
    var revision: nat

    ghost predicate Valid()
      reads this, kv
    {
      History(kv.log) && Cached(kv.log, record, revision)
    }

    constructor (kv: KeyValue)
      requires History(kv.log)
      ensures this.kv == kv && Valid()
      ensures Entry(revision, record) == Last(kv.log)
    {
      this.kv := kv;
      record, revision := Last(kv.log).record, Last(kv.log).revision;
      new;
      assert kv.log[|kv.log| - 1] == Entry(revision, record);
    }

    /** install never moves the cache back and never refuses a committed revision. */
    method Install(r: Record, later: nat) returns (ok: bool)
      requires Valid() && Cached(kv.log, r, later)
      modifies this`record, this`revision
      ensures Valid() && ok
      ensures revision == if later > old(revision) then later else old(revision)
      ensures record == if later > old(revision) then r else old(record)
    {
      if later <= revision {
        return true;
      }
      InstallAccepts(kv.log, record, revision, r, later);
      var allowed := CheckTransition(record, r);
      if !allowed {
        return false;
      }
      record, revision := r, later;
      return true;
    }

    /** The swap of a draft made from `entry`, after whatever other writers commit. */
    method Swap(entry: Entry, r: Record, others: seq<Record>) returns (ok: bool)
      requires Valid() && entry == Last(kv.log) && revision == entry.revision
      requires ValidRecord(r) && ValidTransition(entry.record, r)
      modifies this`record, this`revision, kv
      ensures Valid() && revision >= old(revision)
      ensures ok <==> |Committed(old(kv.log), others)| == |old(kv.log)|
      ensures ok ==> kv.log == old(kv.log) + [Entry(revision, record)] && record == r
      ensures !ok ==> kv.log == Committed(old(kv.log), others) && |kv.log| > |old(kv.log)|
    {
      hide ValidRecord, ValidTransition;
      ghost var before := kv.log;
      kv.Interfere(others);
      RevisionNamesEntry(before, kv.log);
      var swapped;
      swapped, ok := kv.Update(r, entry.revision);
      assert before <= kv.log;
      CachedGrows(before, kv.log, record, revision);
      if ok {
        assert kv.log[|kv.log| - 1] == Entry(swapped, r);
        var installed := Install(r, swapped);
      }
    }

    /** One round of updateAtContext; None means another writer got in first. */
    method Attempt(named: nat, draft: Record -> Option<Record>, others: seq<Record>)
      returns (outcome: Option<Outcome>)
      requires Valid()
      modifies this`record, this`revision, kv
      ensures Valid() && revision >= old(revision)
      ensures var fate := FateOf(old(kv.log), named, draft, others);
        && (if outcome.Some? then Answers(outcome.value, fate) else fate.Overtaken?)
        && (outcome == Some(Updated) ==>
              kv.log == old(kv.log) + [Entry(revision, record)] && record == fate.record)
        && (outcome.None? ==> kv.log == Committed(old(kv.log), others))
        && (outcome in {Some(Conflict), Some(Rejected), Some(Invalid)} ==> kv.log == old(kv.log))
        && (outcome in {Some(Rejected), Some(Invalid)} ==> Entry(revision, record) == Last(kv.log))
    {
      hide ValidRecord, ValidTransition;
      var entry := Last(kv.log);
      if named != 0 && entry.revision != named {
        return Some(Conflict);
      }
      assert kv.log[|kv.log| - 1] == Entry(entry.revision, entry.record);
      InCacheIsNoLater(kv.log, record, revision);
      InstallAccepts(kv.log, record, revision, entry.record, entry.revision);
      var installed := Install(entry.record, entry.revision);
      var drafted := draft(entry.record);
      if drafted.None? {
        return Some(Rejected);
      }
      var follows := CheckTransition(entry.record, drafted.value);
      if !follows || !ValidRecord(drafted.value) {
        return Some(Invalid);
      }
      var ok := Swap(entry, drafted.value, others);
      return if ok then Some(Updated) else None;
    }

    /** updateAtContext. `others[k]` is what other writers commit between the read and the
        swap of attempt k. The last attempt is the first that is not overtaken, and the
        outcome is its fate: its draft of the record read is committed right after it, or it
        found another revision than the named one, or its draft was refused or unfit. When all
        three are overtaken the caller is told of a conflict. Otherwise nothing but the others'
        commits is left. */
    method Update(named: nat, draft: Record -> Option<Record>, others: seq<seq<Record>>)
      returns (outcome: Outcome, ghost k: nat)
      requires Valid() && |others| == 3
      modifies this`record, this`revision, kv
      ensures Valid() && revision >= old(revision) && k <= 3
      ensures forall j :: 0 <= j < k ==> FateOf(Seen(old(kv.log), others, j), named, draft, others[j]).Overtaken?
      ensures k == 3 ==> outcome == Conflict && kv.log == Seen(old(kv.log), others, 3)
      ensures k < 3 ==>
        var seen := Seen(old(kv.log), others, k);
        var fate := FateOf(seen, named, draft, others[k]);
        && Answers(outcome, fate)
        && (outcome == Updated ==> kv.log == seen + [Entry(revision, record)] && record == fate.record)
        && (outcome != Updated ==> kv.log == seen)
    {
      hide FateOf, Cached;
      var attempt := 0;
      while attempt < 3
        invariant 0 <= attempt <= 3
        invariant Valid() && revision >= old(revision)
        invariant kv.log == Seen(old(kv.log), others, attempt)
        invariant forall j :: 0 <= j < attempt ==>
          FateOf(Seen(old(kv.log), others, j), named, draft, others[j]).Overtaken?
      {
        var result := Attempt(named, draft, others[attempt]);
        if result.Some? {
          return result.value, attempt;
        }
        attempt := attempt + 1;
      }
      return Conflict, 3;
    }
  }

  /** The draft of the record read can follow it. */
  predicate Fit(before: Record, drafted: Option<Record>) {
    drafted.Some? && ValidRecord(drafted.value) && ValidTransition(before, drafted.value)
  }

  /** So an update goes through exactly when it names no revision or the last one, its draft is
      fit, and nobody else commits in between; the other fates are as exclusive. */
  lemma FateExactly(seen: seq<Entry>, named: nat, draft: Record -> Option<Record>, others: seq<Record>)
    requires seen != []
    ensures var fate := FateOf(seen, named, draft, others);
      var current := named in {0, Last(seen).revision};
      var drafted := draft(Last(seen).record);
      && (fate.Through? <==> current && Fit(Last(seen).record, drafted) && Committed(seen, others) == seen)
      && (fate.Through? ==> fate.record == drafted.value)
      && (fate.Overtaken? <==> current && Fit(Last(seen).record, drafted) && Committed(seen, others) != seen)
      && (fate.Stale? <==> !current)
      && (fate.Refused? <==> current && drafted.None?)
      && (fate.Unfit? <==> current && drafted.Some? && !Fit(Last(seen).record, drafted))
  {
  }

  /** If the last revision is unchanged, nothing was committed in between. */
  lemma RevisionNamesEntry(before: seq<Entry>, after: seq<Entry>)
    requires History(before) && History(after) && before <= after
    ensures Last(after).revision == Last(before).revision ==> after == before
  {
    hide ValidRecord, ValidTransition;
    HistoryComposes(after, |before| - 1, |after| - 1);
  }

  lemma InCacheIsNoLater(log: seq<Entry>, record: Record, revision: nat)
    requires History(log) && Cached(log, record, revision)
    ensures revision <= Last(log).revision
  {
    hide ValidRecord, ValidTransition;
    var i :| 0 <= i < |log| && log[i] == Entry(revision, record);
    HistoryComposes(log, i, |log| - 1);
  }
}
