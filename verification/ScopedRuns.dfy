/** The channel race and the voice scoping are one run: whatever the server does to its
    sessions while channels are edited, with frames uploaded and states written, taken or
    republished at any point in between, is a run of the scoping proof over the same sessions. */
module ScopedRuns {
  import opened Common
  import opened Resources
  import opened ScopedMembership
  import M = Membership
  import V = VoiceScope
  import R = ChannelRace

  /** The same sessions under the same IDs. */
  ghost predicate Agree(w: R.World, v: V.World) {
    v.peers == Voices(w.peers) && v.next == w.next
  }

  // ---- One critical section -----------------------------------------------

  ghost predicate Reaches(s: V.Session, t: V.Session) {
    exists way: V.Passage :: V.Path(s, way) && way.end == t
  }

  ghost function WayTo(s: V.Session, t: V.Session): (way: V.Passage)
    requires Reaches(s, t)
    ensures V.Path(s, way) && way.end == t
  {
    var way: V.Passage :| V.Path(s, way) && way.end == t;
    way
  }

  /** All sessions go their ways in one section. */
  lemma SectionTo(v: V.World, target: map<UInt16, V.Session>) returns (act: V.Action)
    requires v.peers.Keys <= v.lines.Keys && target.Keys == v.peers.Keys
    requires forall id :: id in target ==> Reaches(v.peers[id], target[id])
    ensures act.Section? && V.Apply(v, act).peers == target && V.Apply(v, act).next == v.next
  {
    hide V.Path, V.Turns, V.Sent, V.StateFor, V.NewStays, Reaches;
    var ways := map id | id in target :: WayTo(v.peers[id], target[id]);
    act := V.Section(ways);
    assert V.Legal(v.peers, ways);
    assert V.Sectioned(v, ways).peers == target;
  }

  lemma KeysKept(r: Record, deleting: UInt16, home: UInt16, peers: M.Peers, event: M.Event)
    requires !event.Join? && !event.Leave?
    ensures M.After(r, deleting, home, peers, event).peers.Keys == peers.Keys
  {
  }

  /** A critical section other than coming and going. */
  lemma FollowEvent(r: Record, deleting: UInt16, home: UInt16, peers: M.Peers, event: M.Event, v: V.World)
    returns (act: V.Action)
    requires !event.Join? && !event.Leave? && v.peers == Voices(peers) && v.peers.Keys <= v.lines.Keys
    ensures act.Section? && V.Apply(v, act).peers == Voices(M.After(r, deleting, home, peers, event).peers)
    ensures V.Apply(v, act).next == v.next
  {
    hide M.After, V.Path, V.Apply;
    KeysKept(r, deleting, home, peers, event);
    var after := M.After(r, deleting, home, peers, event).peers;
    forall id | id in peers ensures Reaches(v.peers[id], Voices(after)[id]) {
      var way := EventsAreScoped(r, deleting, home, peers, event, id, after[id]);
      assert V.Path(v.peers[id], way) && way.end == Voices(after)[id];
    }
    act := SectionTo(v, Voices(after));
  }

  /** A pass by any record. */
  lemma FollowPass(r: Record, peers: M.Peers, v: V.World) returns (act: V.Action)
    requires v.peers == Voices(peers) && v.peers.Keys <= v.lines.Keys
    ensures act.Section? && V.Apply(v, act).peers == Voices(M.Enforced(r, peers)) && V.Apply(v, act).next == v.next
  {
    hide V.Apply, M.Enforced;
    act := FollowEvent(r, 0, 0, peers, M.Enforce, v);
  }

  lemma BroadcastKeepsPeers(v: V.World)
    ensures V.Broadcast(v).peers == v.peers && V.Broadcast(v).next == v.next
  {
  }

  lemma RaceJoins(w: R.World, event: M.Event)
    requires R.Enabled(w, R.Session(event)) && event.Join? && event.id !in w.peers
    ensures var after := R.Next(w, R.Session(event));
      && event.id == w.next + 1 == after.next && w.next < 65535 && |w.peers| < MAX_MEMBERS
      && Voices(after.peers) == Voices(w.peers)[event.id := V.Session(w.home, 1, true, false, false)]
  {
    hide M.Enforced, M.AfterSelfMove, M.AfterModerated, M.ModerationCode, M.Dropped;
  }

  lemma ScopeJoins(v: V.World, channel: UInt16)
    requires v.next < 65535 && |v.peers| < MAX_MEMBERS && v.next + 1 !in v.lines
    ensures var after := V.Apply(v, V.Join(channel));
      && after.next == v.next + 1
      && after.peers == v.peers[v.next + 1 := V.Session(channel, 1, true, false, false)]
  {
    hide V.Broadcast, V.StateFor;
    BroadcastKeepsPeers(V.Joined(v, v.next + 1, channel));
  }

  lemma FollowJoin(w: R.World, event: M.Event, v: V.World) returns (act: V.Action)
    requires R.Enabled(w, R.Session(event)) && event.Join? && Agree(w, v) && event.id !in w.peers
    requires forall id :: id in v.lines ==> id <= v.next
    ensures Agree(R.Next(w, R.Session(event)), V.Apply(v, act)) && act.Join?
  {
    hide R.Next, R.Enabled, V.Apply;
    assert v.peers.Keys == w.peers.Keys;
    assert |v.peers| == |v.peers.Keys| && |w.peers| == |w.peers.Keys|;
    RaceJoins(w, event);
    ScopeJoins(v, w.home);
    act := V.Join(w.home);
  }

  lemma RaceLeaves(w: R.World, event: M.Event)
    requires R.Enabled(w, R.Session(event)) && event.Leave?
    ensures var after := R.Next(w, R.Session(event));
      after.next == w.next && Voices(after.peers) == Voices(w.peers) - {event.id}
  {
    hide M.Enforced, M.AfterSelfMove, M.AfterModerated, M.ModerationCode, M.Dropped;
  }

  lemma ScopeLeaves(v: V.World, id: UInt16)
    requires v.peers.Keys <= v.lines.Keys
    ensures V.Apply(v, V.Leave(id)).next == v.next && V.Apply(v, V.Leave(id)).peers == v.peers - {id}
  {
    hide V.Broadcast, V.StateFor;
    if id in v.peers {
      var line := v.lines[id].(closed := true);
      BroadcastKeepsPeers(v.(peers := v.peers - {id}, lines := v.lines[id := line]));
    }
  }

  lemma FollowLeave(w: R.World, event: M.Event, v: V.World) returns (act: V.Action)
    requires R.Enabled(w, R.Session(event)) && event.Leave? && Agree(w, v) && v.peers.Keys <= v.lines.Keys
    ensures Agree(R.Next(w, R.Session(event)), V.Apply(v, act)) && act.Leave?
  {
    hide R.Next, R.Enabled, V.Apply;
    RaceLeaves(w, event);
    ScopeLeaves(v, event.id);
    act := V.Leave(event.id);
  }

  // ---- Steps of the race --------------------------------------------------

  /** Session IDs are given out in order. */
  ghost predicate Numbered(w: R.World) {
    forall id :: id in w.peers ==> id <= w.next
  }

  lemma NumberedKept(w: R.World, step: R.Step)
    requires R.Enabled(w, step) && Numbered(w)
    ensures Numbered(R.Next(w, step))
  {
    if step.Session? && !step.event.Join? && !step.event.Leave? {
      KeysKept(R.At(w.log, w.cached), w.deleting, w.home, w.peers, step.event);
    }
  }

  ghost predicate LinesFit(v: V.World) {
    v.peers.Keys <= v.lines.Keys && forall id :: id in v.lines ==> id <= v.next
  }

  /** Coming, going or a whole critical section; never an upload or a step of the stream. */
  predicate Changes(acts: seq<V.Action>) {
    |acts| <= 1 && forall i :: 0 <= i < |acts| ==> acts[i].Join? || acts[i].Leave? || acts[i].Section?
  }

  function After(v: V.World, acts: seq<V.Action>): V.World {
    if acts == [] then v else V.Apply(v, acts[0])
  }

  /** Whatever a step of the race does to the sessions is at most one action, with its
      publication, of the scoping machine. */
  lemma FollowStep(w: R.World, step: R.Step, v: V.World) returns (acts: seq<V.Action>)
    requires R.Enabled(w, step) && Numbered(w) && Agree(w, v) && LinesFit(v)
    ensures Changes(acts) && Agree(R.Next(w, step), After(v, acts))
  {
    hide V.Apply, M.After, Voices;
    acts := [];
    match step
    case Session(event) =>
      var act;
      if event.Join? {
        act := FollowJoin(w, event, v);
      } else if event.Leave? {
        act := FollowLeave(w, event, v);
      } else {
        act := FollowEvent(R.At(w.log, w.cached), w.deleting, w.home, w.peers, event, v);
      }
      acts := [act];
    case Publish =>
      if w.job.swapped.Some? {
        var act := FollowPass(R.At(w.log, w.cached), w.peers, v);
        acts := [act];
      }
    case WatchEnd =>
      if R.Occupied(w.peers) <= R.IdsOf(w.log[w.job.seen]) {
        var act := FollowPass(R.At(w.log, w.job.seen), w.peers, v);
        acts := [act];
      }
    case _ =>
  }

  // ---- Everything else in between -----------------------------------------

  predicate Talk(a: V.Action) {
    a.Watch? || a.Publish? || a.Close? || a.Write? || a.Take? || a.Upload?
  }

  predicate Talks(actions: seq<V.Action>) {
    forall i :: 0 <= i < |actions| ==> Talk(actions[i])
  }

  lemma TalkKeeps(v: V.World, a: V.Action)
    requires Talk(a)
    ensures V.Apply(v, a).peers == v.peers && V.Apply(v, a).next == v.next
  {
  }

  function Last(ws: seq<V.World>): V.World
    requires ws != []
  {
    ws[|ws| - 1]
  }

  /** The actions happen one after another, from position `at` on. */
  ghost predicate Plays(ws: seq<V.World>, at: nat, actions: seq<V.Action>) {
    && at + |actions| < |ws|
    && forall k :: 0 <= k < |actions| ==> ws[at + k + 1] == V.Apply(ws[at + k], actions[k])
  }

  lemma RunMore(ws: seq<V.World>, a: V.Action)
    requires V.Run(ws)
    ensures V.Run(ws + [V.Apply(Last(ws), a)])
  {
    hide V.Apply;
    var more := ws + [V.Apply(Last(ws), a)];
    forall i | 0 <= i < |more| - 1 ensures V.Next(more[i], more[i + 1]) {
      if i < |ws| - 1 {
        assert V.Next(ws[i], ws[i + 1]);
      }
    }
  }

  lemma {:induction false} ThenTalk(w: R.World, ws: seq<V.World>, talk: seq<V.Action>) returns (more: seq<V.World>)
    requires V.Run(ws) && Agree(w, Last(ws)) && Talks(talk)
    ensures V.Run(more) && ws <= more && |more| == |ws| + |talk|
    ensures Plays(more, |ws| - 1, talk) && Agree(w, Last(more))
    decreases |talk|
  {
    assert ws != [];
    hide V.Apply, V.Run, Plays, Agree;
    if talk == [] {
      NothingPlays(ws);
      more := ws;
    } else {
      var n := |talk| - 1;
      var first := ThenTalk(w, ws, talk[..n]);
      TalkAgrees(w, Last(first), talk[n]);
      RunMore(first, talk[n]);
      more := first + [V.Apply(Last(first), talk[n])];
      PlaysMore(first, |ws| - 1, talk[..n], talk[n]);
      assert talk == talk[..n] + [talk[n]];
    }
  }

  lemma NothingPlays(ws: seq<V.World>)
    requires ws != []
    ensures Plays(ws, |ws| - 1, [])
  {
  }

  lemma TalkAgrees(w: R.World, v: V.World, a: V.Action)
    requires Talk(a) && Agree(w, v)
    ensures Agree(w, V.Apply(v, a))
  {
    TalkKeeps(v, a);
  }

  lemma PlaysMore(ws: seq<V.World>, at: nat, actions: seq<V.Action>, a: V.Action)
    requires Plays(ws, at, actions) && |ws| == at + |actions| + 1
    ensures Plays(ws + [V.Apply(Last(ws), a)], at, actions + [a])
  {
    hide V.Apply;
    var more, all := ws + [V.Apply(Last(ws), a)], actions + [a];
    forall k | 0 <= k < |all| ensures more[at + k + 1] == V.Apply(more[at + k], all[k]) {
      if k < |actions| {
        assert ws[at + k + 1] == V.Apply(ws[at + k], actions[k]);
      }
    }
  }

  /** Position `at` of the voice run stands where world w of the race does, and the talk
      that follows it there is part of the voice run. */
  ghost predicate Stands(w: R.World, talk: seq<V.Action>, ws: seq<V.World>, at: nat) {
    at < |ws| && Agree(w, ws[at]) && Plays(ws, at, talk)
  }

  lemma StandsLonger(w: R.World, talk: seq<V.Action>, ws: seq<V.World>, more: seq<V.World>, at: nat)
    requires Stands(w, talk, ws, at) && ws <= more
    ensures Stands(w, talk, more, at)
  {
    hide V.Apply;
    forall k | 0 <= k < |talk| ensures more[at + k + 1] == V.Apply(more[at + k], talk[k]) {
      assert ws[at + k + 1] == V.Apply(ws[at + k], talk[k]);
    }
  }

  ghost predicate Together(run: seq<R.World>, talks: seq<seq<V.Action>>, ws: seq<V.World>, at: seq<nat>) {
    && |at| == |run| <= |talks|
    && forall i :: 0 <= i < |run| ==> Stands(run[i], talks[i], ws, at[i])
  }

  /** The run goes on with one step of the race. */
  lemma ThenStep(w: R.World, step: R.Step, ws: seq<V.World>) returns (more: seq<V.World>)
    requires R.Enabled(w, step) && Numbered(w) && V.Run(ws) && Agree(w, Last(ws))
    ensures V.Run(more) && ws <= more && Agree(R.Next(w, step), Last(more)) && Numbered(R.Next(w, step))
  {
    V.RunHolds(ws, |ws| - 1);
    assert LinesFit(Last(ws));
    hide V.Apply, V.Run, V.Inv, R.Next, R.Enabled, LinesFit, Agree;
    NumberedKept(w, step);
    var acts := FollowStep(w, step, Last(ws));
    if acts == [] {
      more := ws;
    } else {
      RunMore(ws, acts[0]);
      more := ws + [V.Apply(Last(ws), acts[0])];
    }
  }

  /** Every run of the race, with any uploads and any steps of the streams after any of its
      worlds, is one run of the scoping machine that passes through the same sessions. So in
      one and the same run nobody is orphaned and no frame is accepted out of scope. */
  lemma {:induction false} RunsTogether(run: seq<R.World>, steps: seq<R.Step>, talks: seq<seq<V.Action>>, n: nat)
    returns (ws: seq<V.World>, at: seq<nat>)
    requires R.Run(run, steps) && n <= |steps| && |talks| == |run|
    requires forall i :: 0 <= i < |talks| ==> Talks(talks[i])
    ensures V.Run(ws) && Together(run[..n + 1], talks, ws, at)
    ensures Numbered(run[n]) && Agree(run[n], Last(ws))
    decreases n
  {
    hide R.Next, R.Enabled, R.Drafts, V.Apply, V.Run, History, Plays, Agree;
    if n == 0 {
      StartsTogether(run[0]);
      ws := ThenTalk(run[0], [V.EMPTY], talks[0]);
      at := [0];
    } else {
      var before, at' := RunsTogether(run, steps, talks, n - 1);
      assert R.Takes(run[n - 1], steps[n - 1], run[n - 1 + 1]);
      var longer := ThenStep(run[n - 1], steps[n - 1], before);
      ws := ThenTalk(run[n], longer, talks[n]);
      at := at' + [|longer| - 1];
      forall i | 0 <= i < n ensures Stands(run[i], talks[i], ws, at[i]) {
        assert run[..n][i] == run[i];
        assert Stands(run[..n][i], talks[i], before, at'[i]);
        StandsLonger(run[i], talks[i], before, ws, at[i]);
      }
    }
  }

  lemma StartsTogether(w: R.World)
    requires R.Initial(w)
    ensures Agree(w, V.EMPTY) && Numbered(w) && V.Run([V.EMPTY])
  {
  }
}
