/** Sessions while the record changes under them: what holds of admissions, accounts and
    channel access in every interleaving of ChannelRace, where role, ban and channel commits
    are installed between the sessions' own steps and the next enforcement pass. */
module ChannelSessions {
  import opened Common
  import opened Resources
  import opened ChannelRace
  import Membership

  // ---- What one step does to the sessions ---------------------------------

  /** Steps that are neither a critical section nor a projection leave the sessions alone. */
  lemma OthersLeaveSessions(w: World, step: Step)
    requires Enabled(w, step) && !step.Session? && !step.Publish? && !step.WatchEnd?
    ensures Next(w, step).peers == w.peers
  {
  }

  lemma StepRegular(w: World, step: Step)
    requires Enabled(w, step) && Membership.Regular(w.peers)
    ensures Membership.Regular(Next(w, step).peers)
  {
    match step
    case Session(event) =>
      Membership.EventRegular(At(w.log, w.cached), w.deleting, w.home, w.peers, event);
    case Publish => Membership.EnforcedRegular(At(w.log, w.cached), w.peers);
    case WatchEnd => Membership.EnforcedRegular(At(w.log, w.job.seen), w.peers);
    case _ => OthersLeaveSessions(w, step);
  }

  /** In every run, whatever is committed and installed in between, each temporary admission
      is 0 or the session's own channel and no account has two live sessions. */
  lemma {:induction false} AlwaysRegular(run: seq<World>, steps: seq<Step>, i: nat)
    requires Run(run, steps) && i <= |steps|
    ensures Membership.Regular(run[i].peers)
  {
    hide Next, Enabled, Drafts;
    if i > 0 {
      AlwaysRegular(run, steps, i - 1);
      assert Takes(run[i - 1], steps[i - 1], run[i - 1 + 1]);
      StepRegular(run[i - 1], steps[i - 1]);
    }
  }

  // ---- Access by the cached record ----------------------------------------

  ghost predicate Housed(w: World) {
    w.cached < |w.log| && Membership.Orderly(At(w.log, w.cached), w.peers)
  }

  /** The step enforces access by the very record that is cached. */
  predicate EnforcesCached(w: World, step: Step) {
    match step
    case Session(Enforce) => true
    case Session(Login(id, _, _)) => id in w.peers && !w.peers[id].removed
    case Session(Logout(id)) => id in w.peers
    case Publish => w.job.Closing? && w.job.swapped.Some?
    case WatchEnd => w.job.Watching? && w.job.seen == w.cached
    case _ => false
  }

  lemma CachedValid(w: World)
    requires Inv(w)
    ensures ValidChannelRecord(At(w.log, w.cached).channels)
    ensures w.home == At(w.log, w.cached).channels.defaultId
    ensures forall i :: 0 <= i < |w.log| ==> At(w.log, i).channels.defaultId == w.home
  {
  }

  /** A critical section leaves everybody housed. */
  lemma SessionHoused(w: World, event: Membership.Event)
    requires Inv(w) && Housed(w) && Enabled(w, Session(event))
    ensures Housed(Next(w, Session(event)))
  {
    CachedValid(w);
    Membership.EventKeeps(At(w.log, w.cached), w.deleting, w.peers, event);
  }

  /** A pass by any entry of the history does: they all have the same default channel. */
  lemma PassHoused(w: World, i: nat)
    requires Inv(w) && Housed(w) && i < |w.log|
    ensures Membership.Orderly(At(w.log, w.cached), Membership.Enforced(At(w.log, i), w.peers))
  {
    CachedValid(w);
    Membership.EnforcedRegular(At(w.log, i), w.peers);
    Membership.EnforcedElsewhere(At(w.log, w.cached), At(w.log, i), w.peers);
  }

  /** Older entries never change. */
  lemma EntryKept(w: World, step: Step)
    requires Enabled(w, step)
    ensures w.log <= Next(w, step).log && w.cached <= Next(w, step).cached
  {
  }

  /** As long as nothing else is installed, no step unsettles anybody, not even an informer
      that enforces by an older entry. */
  lemma StepHoused(w: World, step: Step)
    requires Inv(w) && Enabled(w, step) && Housed(w) && Next(w, step).cached == w.cached
    ensures Housed(Next(w, step))
  {
    hide ValidRecord, ValidTransition;
    EntryKept(w, step);
    match step
    case Session(event) => SessionHoused(w, event);
    case Publish => PassHoused(w, w.cached);
    case WatchEnd => PassHoused(w, w.job.seen);
    case _ => OthersLeaveSessions(w, step);
  }

  /** Enforcement by the cached record houses everybody, whatever went before. */
  lemma EnforcementHouses(w: World, step: Step)
    requires Inv(w) && Enabled(w, step) && Membership.Regular(w.peers) && EnforcesCached(w, step)
    ensures Housed(Next(w, step))
  {
    var r := At(w.log, w.cached);
    CachedValid(w);
    StepRegular(w, step);
    match step
    case Session(Enforce) => Membership.EnforcementSettles(r, w.peers);
    case Session(Login(id, uid, expires)) =>
      Membership.EnforcementSettles(r, Membership.WithLogin(w.peers, id, uid, expires));
    case Session(Logout(id)) => Membership.EnforcementSettles(r, Membership.WithLogout(w.peers, id));
    case Publish => Membership.EnforcementSettles(r, w.peers);
    case WatchEnd =>
      WatchKeeps(w);
      Membership.EnforcementSettles(r, w.peers);
    case _ =>
  }

  lemma {:induction false} CacheAdvances(run: seq<World>, steps: seq<Step>, i: nat, j: nat)
    requires Run(run, steps) && i <= j <= |steps|
    ensures run[i].cached <= run[j].cached
    decreases j
  {
    hide Next, Enabled, Drafts;
    if i < j {
      CacheAdvances(run, steps, i, j - 1);
      assert Takes(run[j - 1], steps[j - 1], run[j - 1 + 1]);
      EntryKept(run[j - 1], steps[j - 1]);
    }
  }

  /** From an enforcement by the cached record until something else is installed, every live
      session is in an existing channel that it may enter. */
  lemma {:induction false} HousedSinceEnforcement(run: seq<World>, steps: seq<Step>, i: nat, j: nat)
    requires Run(run, steps) && i < j <= |steps|
    requires EnforcesCached(run[i], steps[i]) && run[j].cached == run[i].cached
    ensures Housed(run[j])
    decreases j
  {
    hide Next, Enabled, Drafts;
    var k := j - 1;
    assert Takes(run[k], steps[k], run[k + 1]);
    RunHolds(run, steps, k);
    if i == k {
      AlwaysRegular(run, steps, i);
      EnforcementHouses(run[i], steps[i]);
    } else {
      CacheAdvances(run, steps, i, k);
      EntryKept(run[k], steps[k]);
      HousedSinceEnforcement(run, steps, i, k);
      StepHoused(run[k], steps[k]);
    }
  }
}
