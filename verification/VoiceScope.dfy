/** Voice from one client through the server to another: a frame names the epochs of the
    sender's and the recipient's channel stay, and the client compares both with the last
    state it has applied. Every critical section that changes an epoch also publishes the new
    states, in order, to clients that end on a smaller epoch. Moves, logins and any delay of
    frames and states may come in between (internal/server/server.go,
    internal/server/channel_access.go, client/src/session.rs, client/src/wire.rs). */
module VoiceScope {
  import opened Common
  import opened BigEndian
  import opened VoiceWire

  const EPOCHS: nat := 0x1_0000_0000

  /** A session's queue of critical frames, and more states than can be on the stream: it
      waits for each chunk and its receiver keeps a bounded number of them. */
  const OUT_QUEUE: nat := 16
  const ON_STREAM: nat := 1_000_000

  datatype Session = Session(channel: UInt16, epoch: UInt32, muted: bool, deafened: bool, removed: bool)

  datatype Member = Member(epoch: UInt32, channel: UInt16)

  /** The scoped state of one session. */
  datatype Snapshot = Snapshot(self: UInt16, epoch: UInt32, members: map<UInt16, Member>) {
    function Channel(): UInt16 {
      if self in members then members[self].channel else 0
    }
  }

  /** A published state, with the number of epochs its session had had, which does not wrap. */
  datatype State = State(snapshot: Snapshot, turn: nat)

  /** The other end: before its first state, holding the last one applied, or done. */
  datatype Client = Waiting | Live(held: State) | Ended

  /** What belongs to a session beside its membership: the epochs it has had, whether it
      watches all members, the state last published, those queued and those on the stream. */
  datatype Line = Line(
    turn: nat, all: bool, last: State, out: seq<State>, transit: seq<State>, closed: bool, client: Client)

  /** One frame sent to one recipient, with where both ends were at that moment. */
  datatype Relay = Relay(
    to: UInt16, bytes: seq<Byte>, sender: UInt16, senderEpoch: UInt32, toEpoch: UInt32, channel: UInt16,
    turn: nat)

  /** The channel of each stay, by session and turn. */
  type Stays = map<(UInt16, nat), UInt16>

  /** The live sessions, their lines, and the history: the channel of each stay, by turn, the
      frames that arrived, by session, and the frames sent. Lines outlive their sessions. */
  datatype World = World(
    peers: map<UInt16, Session>, next: nat, lines: map<UInt16, Line>,
    stays: Stays, uploads: set<(UInt16, seq<Byte>)>, relays: set<Relay>)

  const EMPTY: World := World(map[], 0, map[], map[], {}, {})

  // ---- What a critical section may do to a session ------------------------

  /** movePeerLocked: the only way a channel changes, and it starts a new epoch. */
  function Moved(s: Session, channel: UInt16): Session {
    if s.channel == channel || s.epoch == LAST_EPOCH then s
    else s.(channel := channel, epoch := s.epoch + 1)
  }

  /** Login and logout start a new epoch without the overflow guard. */
  function Reauthenticated(s: Session): Session {
    s.(epoch := if s.epoch == LAST_EPOCH then 0 else s.epoch + 1)
  }

  /** The same session with other mute settings. */
  function Plain(s: Session): Session {
    s.(muted := false, deafened := false)
  }

  predicate Step(s: Session, t: Session) {
    || t == Moved(s, t.channel) || t == Reauthenticated(s)
    || t == s.(removed := true, muted := true, deafened := true)
    || Plain(t) == Plain(s)
  }

  /** The way of one session through one critical section: at most three steps. */
  datatype Passage = Passage(a: Session, b: Session, end: Session)

  predicate Path(s: Session, p: Passage) {
    Step(s, p.a) && Step(p.a, p.b) && Step(p.b, p.end)
  }

  function Turned(s: Session, t: Session): nat {
    if s.epoch == t.epoch then 0 else 1
  }

  function Turns(s: Session, p: Passage): nat {
    Turned(s, p.a) + Turned(p.a, p.b) + Turned(p.b, p.end)
  }

  // ---- Actions ------------------------------------------------------------

  datatype Action =
    | Join(channel: UInt16)
    | Leave(id: UInt16)
    | Section(ways: map<UInt16, Passage>)
    | Watch(id: UInt16, all: bool)
    | Publish(id: UInt16)
    | Close(id: UInt16)
    | Write(id: UInt16)
    | Take(id: UInt16)
    | Upload(id: UInt16, bytes: seq<Byte>, allowed: bool)

  predicate Legal(peers: map<UInt16, Session>, ways: map<UInt16, Passage>) {
    forall id :: id in ways ==> id in peers && Path(peers[id], ways[id])
  }

  function Apply(w: World, a: Action): World {
    match a
    case Join(channel) =>
      if w.next >= 65535 || |w.peers| >= MAX_MEMBERS || w.next + 1 in w.lines then w
      else Broadcast(Joined(w, w.next + 1, channel))
    case Leave(id) =>
      if id !in w.peers || id !in w.lines then w
      else Broadcast(w.(peers := w.peers - {id}, lines := w.lines[id := w.lines[id].(closed := true)]))
    case Section(ways) =>
      if Legal(w.peers, ways) && ways.Keys <= w.lines.Keys then Broadcast(Sectioned(w, ways)) else w
    case Watch(id, all) =>
      if id in w.lines && Heeded(w.peers, id)
      then w.(lines := w.lines[id := Sent(w.peers, id, w.lines[id].(all := all))])
      else w
    case Publish(id) =>
      if id in w.lines && Heeded(w.peers, id)
      then w.(lines := w.lines[id := Sent(w.peers, id, w.lines[id])])
      else w
    case Close(id) => if id in w.lines then w.(lines := w.lines[id := w.lines[id].(closed := true)]) else w
    case Write(id) => if id in w.lines then w.(lines := w.lines[id := Written(w.lines[id])]) else w
    case Take(id) => if id in w.lines then w.(lines := w.lines[id := Taken(w.lines[id])]) else w
    case Upload(id, bytes, allowed) =>
      if id in w.peers && allowed && Routed(w.peers[id], Decode(bytes, false))
      then Relayed(w, id, bytes)
      else w.(uploads := w.uploads + {(id, bytes)})
  }

  function Joined(w: World, id: UInt16, channel: UInt16): World {
    var peers := w.peers[id := Session(channel, 1, true, false, false)];
    var welcome := State(StateFor(peers, id, false), 1);
    World(peers, id, w.lines[id := Line(1, false, welcome, [welcome], [], false, Waiting)],
          w.stays[(id, 1) := channel], w.uploads, w.relays)
  }

  function Sectioned(w: World, ways: map<UInt16, Passage>): World
    requires Legal(w.peers, ways) && ways.Keys <= w.lines.Keys
  {
    w.(peers := map id | id in w.peers :: if id in ways then ways[id].end else w.peers[id],
       lines := map id | id in w.lines :: if id in ways then Advanced(w, ways, id) else w.lines[id],
       stays := map k | k in w.stays.Keys + NewStays(w, ways) ::
         if k in NewStays(w, ways) then ways[k.0].end.channel else w.stays[k])
  }

  function Advanced(w: World, ways: map<UInt16, Passage>, id: UInt16): Line
    requires Legal(w.peers, ways) && id in ways && id in w.lines
  {
    w.lines[id].(turn := w.lines[id].turn + Turns(w.peers[id], ways[id]))
  }

  function NewStays(w: World, ways: map<UInt16, Passage>): (keys: set<(UInt16, nat)>)
    requires Legal(w.peers, ways) && ways.Keys <= w.lines.Keys
    ensures forall k :: k in keys ==> k.0 in ways
  {
    set id | id in ways :: (id, Advanced(w, ways, id).turn)
  }

  // ---- Publishing ---------------------------------------------------------

  /** stateLocked: live members, of the same channel unless all are watched. */
  function StateFor(peers: map<UInt16, Session>, id: UInt16, all: bool): Snapshot
    requires id in peers
  {
    Snapshot(id, peers[id].epoch,
             map m | m in peers && !peers[m].removed && (all || peers[m].channel == peers[id].channel)
               :: Member(peers[m].epoch, peers[m].channel))
  }

  predicate Heeded(peers: map<UInt16, Session>, id: UInt16) {
    id in peers && !peers[id].removed
  }

  /** sendStateLocked and enqueueLocked: a full queue closes the connection. */
  function Sent(peers: map<UInt16, Session>, id: UInt16, line: Line): Line
    requires id in peers
  {
    var state := State(StateFor(peers, id, line.all), line.turn);
    if line.closed then line
    else if |line.out| >= OUT_QUEUE then line.(closed := true)
    else line.(out := line.out + [state], last := state)
  }

  /** broadcastLocked: everybody whose state has changed gets the new one. */
  function Broadcast(w: World): World {
    w.(lines := map id | id in w.lines ::
         if Heeded(w.peers, id) && w.lines[id].last.snapshot != StateFor(w.peers, id, w.lines[id].all)
         then Sent(w.peers, id, w.lines[id]) else w.lines[id])
  }

  /** The writer puts the next queued state on the stream. */
  function Written(line: Line): Line {
    if line.closed || line.out == [] || |line.transit| >= ON_STREAM then line
    else line.(out := line.out[1..], transit := line.transit + [line.out[0]])
  }

  /** The client ends on a zero epoch, of its own or of anybody listed, and on a smaller one. */
  predicate Refuses(client: Client, s: Snapshot) {
    || s.epoch == 0
    || (exists m :: m in s.members && s.members[m].epoch == 0)
    || (client.Live? && s.epoch < client.held.snapshot.epoch)
  }

  /** The client applies the next state from the stream. */
  function Taken(line: Line): Line {
    if line.client.Ended? || line.transit == [] then line
    else line.(transit := line.transit[1..],
               client := if Refuses(line.client, line.transit[0].snapshot) then Ended else Live(line.transit[0]))
  }

  // ---- Voice --------------------------------------------------------------

  /** The upload names the sender's current stay, and the sender may talk. */
  predicate Routed(s: Session, v: Option<Voice>) {
    v.Some? && !s.removed && v.value.epoch == s.epoch && !s.muted
  }

  predicate Hears(peers: map<UInt16, Session>, id: UInt16, other: UInt16)
    requires id in peers
  {
    && other in peers && other != id && !peers[other].removed
    && peers[other].channel == peers[id].channel && !peers[other].deafened
  }

  /** A closed connection carries nothing. */
  predicate Reached(peers: map<UInt16, Session>, lines: map<UInt16, Line>, id: UInt16, other: UInt16)
    requires id in peers
  {
    Hears(peers, id, other) && other in lines && !lines[other].closed
  }

  function RelayTo(peers: map<UInt16, Session>, lines: map<UInt16, Line>, id: UInt16, other: UInt16, v: Voice): Relay
    requires id in peers && other in peers && other in lines
  {
    var frame := Voice(peers[other].epoch, peers[id].epoch, id, v.sequence, v.end, v.data);
    var packet := Encode(frame, true);
    Relay(other, if packet.Some? then packet.value else [], id, peers[id].epoch, peers[other].epoch,
          peers[id].channel, lines[other].turn)
  }

  function RelaysOf(peers: map<UInt16, Session>, lines: map<UInt16, Line>, id: UInt16, v: Voice): set<Relay>
    requires id in peers
  {
    set other | other in peers && Reached(peers, lines, id, other) :: RelayTo(peers, lines, id, other, v)
  }

  function Relayed(w: World, id: UInt16, bytes: seq<Byte>): World
    requires id in w.peers && Decode(bytes, false).Some?
  {
    w.(uploads := w.uploads + {(id, bytes)},
       relays := w.relays + RelaysOf(w.peers, w.lines, id, Decode(bytes, false).value))
  }

  /** The loop of voiceLoop that gathers the recipients of one frame in a fixed array. The
      sender takes one of the admitted places, so the slots always suffice. */
  method VoiceTargets(peers: map<UInt16, Session>, id: UInt16) returns (targets: seq<(UInt16, UInt32)>)
    requires id in peers && |peers| <= MAX_MEMBERS
    ensures forall t :: t in targets <==> Hears(peers, id, t.0) && t.1 == peers[t.0].epoch
    ensures forall i, j :: 0 <= i < j < |targets| ==> targets[i] != targets[j]
    ensures |targets| < MAX_MEMBERS
  {
    var slots := new (UInt16, UInt32)[MAX_MEMBERS];
    var count := 0;
    var rest := peers.Keys;
    assert |rest| == |peers|;
    while rest != {}
      invariant rest <= peers.Keys
      invariant count + |rest| <= |peers| && (id !in rest ==> count + |rest| < |peers|)
      invariant forall t :: t in slots[..count] <==>
        t.0 !in rest && Hears(peers, id, t.0) && t.1 == peers[t.0].epoch
      invariant forall i, j :: 0 <= i < j < count ==> slots[i] != slots[j]
    {
      var other :| other in rest;
      rest := rest - {other};
      if other == id || peers[other].removed || peers[other].channel != peers[id].channel || peers[other].deafened {
        continue;
      }
      ghost var before := slots[..count];
      slots[count] := (other, peers[other].epoch);
      count := count + 1;
      assert slots[..count] == before + [(other, peers[other].epoch)];
    }
    targets := slots[..count];
  }

  ghost predicate Next(w: World, w': World) {
    exists a: Action :: w' == Apply(w, a)
  }

  ghost predicate Run(ws: seq<World>) {
    && ws != [] && ws[0] == EMPTY
    && forall i :: 0 <= i < |ws| - 1 ==> Next(ws[i], ws[i + 1])
  }

  /** The client's test for a received datagram (Driver::voice). */
  predicate Accepts(snapshot: Snapshot, data: seq<Byte>) {
    var v := ClientParse(data);
    && v.Some?
    && v.value.epoch == snapshot.epoch
    && v.value.sender != snapshot.self
    && v.value.sender in snapshot.members
    && snapshot.members[v.value.sender] == Member(v.value.senderEpoch, snapshot.Channel())
  }

  // ---- Turns --------------------------------------------------------------

  lemma StepTurns(s: Session, t: Session)
    requires Step(s, t)
    ensures t.epoch == (s.epoch + Turned(s, t)) % EPOCHS
    ensures Turned(s, t) == 0 ==> t.channel == s.channel
    ensures s.removed ==> t.removed
  {
  }

  /** A section takes a session at most three epochs on, and only so to another channel. */
  lemma PathTurns(s: Session, p: Passage)
    requires Path(s, p)
    ensures Turns(s, p) <= 3 && p.end.epoch == (s.epoch + Turns(s, p)) % EPOCHS
    ensures Turns(s, p) == 0 ==> p.end.channel == s.channel
    ensures s.removed ==> p.end.removed
  {
    hide Step;
    StepTurns(s, p.a);
    StepTurns(p.a, p.b);
    StepTurns(p.b, p.end);
  }

  // ---- The invariant ------------------------------------------------------

  /** The states that matter to a client that has not ended, oldest first. */
  function Chain(line: Line): seq<State> {
    (if line.client.Live? then [line.client.held] else []) + line.transit + line.out
  }

  /** The state describes the session's own stay of that turn. */
  ghost predicate TrueState(stays: Stays, id: UInt16, st: State) {
    && st.snapshot.self == id && st.snapshot.epoch == st.turn % EPOCHS
    && id in st.snapshot.members && (id, st.turn) in stays && stays[(id, st.turn)] == st.snapshot.Channel()
  }

  /** Consecutive states are at most three turns apart. */
  ghost predicate Close3(chain: seq<State>) {
    forall i :: 0 <= i < |chain| - 1 ==> chain[i].turn <= chain[i + 1].turn <= chain[i].turn + 3
  }

  ghost predicate AllTrue(stays: Stays, id: UInt16, chain: seq<State>) {
    forall i :: 0 <= i < |chain| ==> TrueState(stays, id, chain[i])
  }

  /** What a client that has not ended has before it. */
  ghost predicate Following(stays: Stays, id: UInt16, line: Line) {
    var chain := Chain(line);
    && chain != [] && Close3(chain) && AllTrue(stays, id, chain)
    && (line.client.Waiting? ==> chain[0].turn == 1)
    && (line.client.Live? ==> chain[0].turn < EPOCHS)
    && (!line.closed ==> chain[|chain| - 1] == line.last)
  }

  ghost predicate LineFits(stays: Stays, id: UInt16, line: Line) {
    && |line.out| <= OUT_QUEUE && |line.transit| <= ON_STREAM && TrueState(stays, id, line.last)
    && (!line.client.Ended? ==> Following(stays, id, line))
  }

  /** The session's own stay is on record, and an open line to it is up to date. */
  ghost predicate PeerFits(stays: Stays, id: UInt16, s: Session, line: Line) {
    && s.epoch == line.turn % EPOCHS && (id, line.turn) in stays && stays[(id, line.turn)] == s.channel
    && (!s.removed && !line.closed ==> line.last.turn == line.turn)
  }

  /** The same inside a critical section, before it publishes. */
  ghost predicate PeerTrails(stays: Stays, id: UInt16, s: Session, line: Line) {
    && s.epoch == line.turn % EPOCHS && (id, line.turn) in stays && stays[(id, line.turn)] == s.channel
    && (!s.removed && !line.closed ==> line.last.turn <= line.turn <= line.last.turn + 3)
  }

  ghost predicate RelayFits(stays: Stays, line: Line, r: Relay) {
    && (r.to, r.turn) in stays && stays[(r.to, r.turn)] == r.channel && r.toEpoch == r.turn % EPOCHS
    && (!line.client.Ended? ==> Chain(line) != [] && r.turn <= Chain(line)[|Chain(line)| - 1].turn)
    && (r.bytes == [] || exists v: Voice :: Carries(r, v))
  }

  ghost predicate Carries(r: Relay, v: Voice) {
    && Encodable(v, true) && r.bytes == Layout(v, true)
    && v.epoch == r.toEpoch && v.senderEpoch == r.senderEpoch && v.sender == r.sender
  }

  ghost predicate Lines(w: World) {
    && w.peers.Keys <= w.lines.Keys
    && (forall id :: id in w.lines ==> id <= w.next && LineFits(w.stays, id, w.lines[id]))
    && (forall k :: k in w.stays ==> k.0 in w.lines && k.1 <= w.lines[k.0].turn)
    && (forall r :: r in w.relays ==> r.to in w.lines && RelayFits(w.stays, w.lines[r.to], r))
  }

  ghost predicate Inv(w: World) {
    Lines(w) && forall id :: id in w.peers ==> PeerFits(w.stays, id, w.peers[id], w.lines[id])
  }

  ghost predicate Loose(w: World) {
    Lines(w) && forall id :: id in w.peers ==> PeerTrails(w.stays, id, w.peers[id], w.lines[id])
  }

  // ---- One line -----------------------------------------------------------

  /** A line that goes on: if its client has not ended, the newest state is no older. */
  ghost predicate GoesOn(line: Line, line': Line) {
    !line'.client.Ended? ==>
      && !line.client.Ended?
      && Chain(line') != []
      && (Chain(line) != [] ==> Chain(line)[|Chain(line)| - 1].turn <= Chain(line')[|Chain(line')| - 1].turn)
  }

  lemma RelayGoesOn(stays: Stays, line: Line, line': Line, r: Relay)
    requires RelayFits(stays, line, r) && GoesOn(line, line')
    ensures RelayFits(stays, line', r)
  {
  }

  lemma ChainMore(chain: seq<State>, st: State)
    requires Close3(chain) && (chain != [] ==> chain[|chain| - 1].turn <= st.turn <= chain[|chain| - 1].turn + 3)
    ensures Close3(chain + [st])
  {
    var more := chain + [st];
    forall i | 0 <= i < |more| - 1 ensures more[i].turn <= more[i + 1].turn <= more[i].turn + 3 {
      if i < |chain| - 1 {
        assert more[i] == chain[i] && more[i + 1] == chain[i + 1];
      }
    }
  }

  lemma StateIsTrue(stays: Stays, peers: map<UInt16, Session>, id: UInt16, line: Line)
    requires id in peers && !peers[id].removed && PeerTrails(stays, id, peers[id], line)
    ensures TrueState(stays, id, State(StateFor(peers, id, line.all), line.turn))
  {
  }

  /** A state that is published brings the line up to date, or the connection closes. */
  lemma SentFits(stays: Stays, peers: map<UInt16, Session>, id: UInt16, line: Line)
    requires Heeded(peers, id) && LineFits(stays, id, line) && PeerTrails(stays, id, peers[id], line)
    ensures LineFits(stays, id, Sent(peers, id, line)) && PeerFits(stays, id, peers[id], Sent(peers, id, line))
    ensures GoesOn(line, Sent(peers, id, line)) && Sent(peers, id, line).turn == line.turn
  {
    var line' := Sent(peers, id, line);
    var st := State(StateFor(peers, id, line.all), line.turn);
    StateIsTrue(stays, peers, id, line);
    hide StateFor, TrueState;
    if line.closed || |line.out| >= OUT_QUEUE {
      assert Chain(line') == Chain(line);
    } else {
      assert Chain(line') == Chain(line) + [st];
      if !line.client.Ended? {
        ChainMore(Chain(line), st);
      }
    }
  }

  /** A state that was not published again is the current one. */
  lemma UnsentFits(stays: Stays, peers: map<UInt16, Session>, id: UInt16, line: Line)
    requires Heeded(peers, id) && LineFits(stays, id, line) && PeerTrails(stays, id, peers[id], line)
    requires line.last.snapshot == StateFor(peers, id, line.all)
    ensures PeerFits(stays, id, peers[id], line)
  {
  }

  lemma WrittenFits(stays: Stays, id: UInt16, line: Line)
    requires LineFits(stays, id, line)
    ensures LineFits(stays, id, Written(line)) && GoesOn(line, Written(line))
    ensures Written(line).turn == line.turn && Written(line).last == line.last && Written(line).closed == line.closed
  {
    hide TrueState;
    assert Chain(Written(line)) == Chain(line);
  }

  /** A client that goes on has never been shown a wrapped epoch. */
  lemma TakenFits(stays: Stays, id: UInt16, line: Line)
    requires LineFits(stays, id, line)
    ensures LineFits(stays, id, Taken(line)) && GoesOn(line, Taken(line))
    ensures Taken(line).turn == line.turn && Taken(line).last == line.last && Taken(line).closed == line.closed
  {
    var line' := Taken(line);
    if line' != line && line'.client.Live? {
      var chain, st := Chain(line), line.transit[0];
      if line.client.Live? {
        assert chain[0] == line.client.held && chain[1] == st;
        assert TrueState(stays, id, chain[0]) && TrueState(stays, id, chain[1]);
        assert chain[0].turn <= chain[0 + 1].turn <= chain[0].turn + 3;
        NotWrapped(line.client.held, st);
        assert Chain(line') == chain[1..];
        Suffix(stays, id, chain);
      } else {
        assert chain[0] == st;
        assert Chain(line') == chain;
      }
    }
  }

  lemma NotWrapped(held: State, st: State)
    requires held.turn < EPOCHS && held.turn <= st.turn <= held.turn + 3
    requires held.snapshot.epoch == held.turn % EPOCHS && st.snapshot.epoch == st.turn % EPOCHS
    requires st.snapshot.epoch >= held.snapshot.epoch
    ensures st.turn < EPOCHS
  {
  }

  lemma Suffix(stays: Stays, id: UInt16, chain: seq<State>)
    requires |chain| > 1 && Close3(chain) && AllTrue(stays, id, chain)
    ensures Close3(chain[1..]) && AllTrue(stays, id, chain[1..])
  {
    hide TrueState;
    var rest := chain[1..];
    forall i | 0 <= i < |rest| - 1 ensures rest[i].turn <= rest[i + 1].turn <= rest[i].turn + 3 {
      assert rest[i] == chain[i + 1] && rest[i + 1] == chain[i + 1 + 1];
    }
  }

  lemma ClosedFits(stays: Stays, id: UInt16, line: Line)
    requires LineFits(stays, id, line)
    ensures LineFits(stays, id, line.(closed := true)) && GoesOn(line, line.(closed := true))
  {
    assert Chain(line.(closed := true)) == Chain(line);
  }

  // ---- The whole world ----------------------------------------------------

  lemma OneLine(w: World, id: UInt16, line': Line)
    requires Inv(w) && id in w.lines && LineFits(w.stays, id, line') && GoesOn(w.lines[id], line')
    requires line'.turn == w.lines[id].turn
    requires id in w.peers ==> PeerFits(w.stays, id, w.peers[id], line')
    ensures Inv(w.(lines := w.lines[id := line']))
  {
    hide LineFits, PeerFits, GoesOn, RelayFits;
    var w' := w.(lines := w.lines[id := line']);
    forall r | r in w'.relays ensures r.to in w'.lines && RelayFits(w'.stays, w'.lines[r.to], r) {
      assert RelayFits(w.stays, w.lines[r.to], r);
      if r.to == id {
        RelayGoesOn(w.stays, w.lines[id], line', r);
      }
    }
  }

  /** At the end of a critical section every open line to a live session is up to date. */
  lemma BroadcastKeeps(w: World)
    requires Loose(w)
    ensures Inv(Broadcast(w))
  {
    hide LineFits, PeerFits, PeerTrails, GoesOn, RelayFits, StateFor, Sent;
    var w' := Broadcast(w);
    forall id | id in w.lines
      ensures LineFits(w.stays, id, w'.lines[id]) && GoesOn(w.lines[id], w'.lines[id])
        && w'.lines[id].turn == w.lines[id].turn
        && (id in w.peers ==> PeerFits(w.stays, id, w.peers[id], w'.lines[id]))
    {
      BroadcastOne(w, id);
    }
    forall r | r in w'.relays ensures r.to in w'.lines && RelayFits(w'.stays, w'.lines[r.to], r) {
      assert RelayFits(w.stays, w.lines[r.to], r);
      RelayGoesOn(w.stays, w.lines[r.to], w'.lines[r.to], r);
    }
  }

  lemma BroadcastOne(w: World, id: UInt16)
    requires Loose(w) && id in w.lines
    ensures var line' := Broadcast(w).lines[id];
      && LineFits(w.stays, id, line') && GoesOn(w.lines[id], line') && line'.turn == w.lines[id].turn
      && (id in w.peers ==> PeerFits(w.stays, id, w.peers[id], line'))
  {
    var line := w.lines[id];
    assert LineFits(w.stays, id, line);
    StaysOn(w.stays, id, line);
    if id in w.peers {
      assert PeerTrails(w.stays, id, w.peers[id], line);
      if Heeded(w.peers, id) {
        hide LineFits, StateFor, Sent, GoesOn;
        if line.last.snapshot == StateFor(w.peers, id, line.all) {
          UnsentFits(w.stays, w.peers, id, line);
        } else {
          SentFits(w.stays, w.peers, id, line);
        }
      }
    }
  }

  lemma StaysOn(stays: Stays, id: UInt16, line: Line)
    requires LineFits(stays, id, line)
    ensures GoesOn(line, line)
  {
  }

  /** Stays only get added. */
  ghost predicate Grown(stays: Stays, stays': Stays) {
    forall k :: k in stays ==> k in stays' && stays'[k] == stays[k]
  }

  lemma LineGrown(stays: Stays, stays': Stays, id: UInt16, line: Line, line': Line)
    requires LineFits(stays, id, line) && Grown(stays, stays') && line' == line.(turn := line'.turn)
    ensures LineFits(stays', id, line') && GoesOn(line, line')
  {
    assert Chain(line') == Chain(line);
    assert TrueState(stays, id, line.last);
    if !line.client.Ended? {
      forall i | 0 <= i < |Chain(line)| ensures TrueState(stays', id, Chain(line)[i]) {
        assert TrueState(stays, id, Chain(line)[i]);
      }
    }
  }

  lemma RelayGrown(stays: Stays, stays': Stays, line: Line, line': Line, r: Relay)
    requires RelayFits(stays, line, r) && Grown(stays, stays') && GoesOn(line, line')
    ensures RelayFits(stays', line', r)
  {
    RelayGoesOn(stays, line, line', r);
  }

  // ---- Coming, going and critical sections --------------------------------

  lemma JoinKeeps(w: World, channel: UInt16)
    requires Inv(w)
    ensures Inv(Apply(w, Join(channel)))
  {
    hide Inv, Loose, Joined, Broadcast;
    if w.next < 65535 && |w.peers| < MAX_MEMBERS && w.next + 1 !in w.lines {
      JoinedFits(w, w.next + 1, channel);
      BroadcastKeeps(Joined(w, w.next + 1, channel));
    }
  }

  lemma WelcomeFits(stays: Stays, peers: map<UInt16, Session>, id: UInt16, channel: UInt16)
    requires id in peers && peers[id] == Session(channel, 1, true, false, false)
    requires (id, 1) in stays && stays[(id, 1)] == channel
    ensures var welcome := State(StateFor(peers, id, false), 1);
      var line := Line(1, false, welcome, [welcome], [], false, Waiting);
      LineFits(stays, id, line) && PeerTrails(stays, id, peers[id], line)
  {
    var welcome := State(StateFor(peers, id, false), 1);
    var line := Line(1, false, welcome, [welcome], [], false, Waiting);
    assert Chain(line) == [welcome];
    StateIsTrue(stays, peers, id, line);
  }

  lemma JoinedFits(w: World, id: UInt16, channel: UInt16)
    requires Inv(w) && id == w.next + 1 && id !in w.lines
    ensures Loose(Joined(w, id, channel))
  {
    hide LineFits, PeerFits, PeerTrails, RelayFits, GoesOn, StateFor;
    var w' := Joined(w, id, channel);
    WelcomeFits(w'.stays, w'.peers, id, channel);
    assert Grown(w.stays, w'.stays);
    forall k | k in w'.lines ensures k <= w'.next && LineFits(w'.stays, k, w'.lines[k]) {
      if k != id {
        LineGrown(w.stays, w'.stays, k, w.lines[k], w.lines[k]);
      }
    }
    forall k | k in w'.peers ensures PeerTrails(w'.stays, k, w'.peers[k], w'.lines[k]) {
      if k != id {
        PeerGrown(w.stays, w'.stays, k, w.peers[k], w.lines[k]);
      }
    }
    forall r | r in w'.relays ensures r.to in w'.lines && RelayFits(w'.stays, w'.lines[r.to], r) {
      LineGrown(w.stays, w'.stays, r.to, w.lines[r.to], w.lines[r.to]);
      RelayGrown(w.stays, w'.stays, w.lines[r.to], w.lines[r.to], r);
    }
  }

  lemma PeerGrown(stays: Stays, stays': Stays, id: UInt16, s: Session, line: Line)
    requires PeerFits(stays, id, s, line) && Grown(stays, stays')
    ensures PeerTrails(stays', id, s, line)
  {
  }

  lemma LeaveKeeps(w: World, id: UInt16)
    requires Inv(w)
    ensures Inv(Apply(w, Leave(id)))
  {
    hide LineFits, RelayFits, Broadcast;
    if id in w.peers {
      CloseKeeps(w, id);
      var shut := w.(lines := w.lines[id := w.lines[id].(closed := true)]);
      var gone := shut.(peers := shut.peers - {id});
      assert Loose(gone);
      BroadcastKeeps(gone);
    }
  }

  lemma CloseKeeps(w: World, id: UInt16)
    requires Inv(w) && id in w.lines
    ensures Inv(w.(lines := w.lines[id := w.lines[id].(closed := true)]))
  {
    ClosedFits(w.stays, id, w.lines[id]);
    OneLine(w, id, w.lines[id].(closed := true));
  }

  lemma NewStaysGrow(w: World, ways: map<UInt16, Passage>)
    requires Inv(w) && Legal(w.peers, ways) && ways.Keys <= w.lines.Keys
    ensures Grown(w.stays, Sectioned(w, ways).stays)
    ensures forall k :: k in Sectioned(w, ways).stays ==>
      k.0 in w.lines && k.1 <= Sectioned(w, ways).lines[k.0].turn
  {
    hide LineFits, RelayFits, Path, Turns;
    var w' := Sectioned(w, ways);
    forall k | k in w.stays ensures w'.stays[k] == w.stays[k] {
      if k in NewStays(w, ways) {
        PathTurns(w.peers[k.0], ways[k.0]);
        assert PeerFits(w.stays, k.0, w.peers[k.0], w.lines[k.0]);
      }
    }
  }

  /** One session through its section. */
  lemma PassageFits(
    stays: Stays, stays': Stays, id: UInt16, s: Session, line: Line,
    p: Passage, line': Line)
    requires PeerFits(stays, id, s, line) && Path(s, p) && line' == line.(turn := line.turn + Turns(s, p))
    requires (id, line'.turn) in stays' && stays'[(id, line'.turn)] == p.end.channel
    ensures PeerTrails(stays', id, p.end, line')
  {
    hide Path, Turns;
    PathTurns(s, p);
  }

  /** The parts of the world after a section, before it publishes. */
  lemma SectionParts(w: World, ways: map<UInt16, Passage>, w': World)
    requires Legal(w.peers, ways) && ways.Keys <= w.lines.Keys && w' == Sectioned(w, ways)
    ensures w'.peers.Keys == w.peers.Keys && w'.lines.Keys == w.lines.Keys
    ensures w'.next == w.next && w'.relays == w.relays
    ensures forall id :: id in w.lines ==> w'.lines[id] == w.lines[id].(turn := w'.lines[id].turn)
    ensures forall id :: id in w.peers && id !in ways && id in w.lines ==>
      w'.peers[id] == w.peers[id] && w'.lines[id] == w.lines[id]
    ensures forall id :: id in ways ==>
      && w'.peers[id] == ways[id].end && w'.lines[id].turn == w.lines[id].turn + Turns(w.peers[id], ways[id])
      && (id, w'.lines[id].turn) in w'.stays && w'.stays[(id, w'.lines[id].turn)] == ways[id].end.channel
  {
    hide Turns, Path;
    forall id | id in ways ensures (id, Advanced(w, ways, id).turn) in NewStays(w, ways) {
    }
  }

  lemma SectionPeer(w: World, ways: map<UInt16, Passage>, w': World, id: UInt16)
    requires Inv(w) && Legal(w.peers, ways) && ways.Keys <= w.lines.Keys && id in w.peers
    requires id in w.lines && w' == Sectioned(w, ways) && Grown(w.stays, w'.stays)
    ensures PeerTrails(w'.stays, id, w'.peers[id], w'.lines[id])
  {
    hide Lines, Path, Turns, Sectioned, PeerTrails, PeerFits, Grown;
    SectionParts(w, ways, w');
    assert PeerFits(w.stays, id, w.peers[id], w.lines[id]);
    if id in ways {
      PassageFits(w.stays, w'.stays, id, w.peers[id], w.lines[id], ways[id], w'.lines[id]);
    } else {
      PeerGrown(w.stays, w'.stays, id, w.peers[id], w.lines[id]);
    }
  }

  lemma SectionFits(w: World, ways: map<UInt16, Passage>, w': World)
    requires Inv(w) && Legal(w.peers, ways) && ways.Keys <= w.lines.Keys && w' == Sectioned(w, ways)
    ensures Loose(w')
  {
    hide LineFits, PeerFits, PeerTrails, RelayFits, GoesOn, Legal, Sectioned, Turns, Grown, Path;
    NewStaysGrow(w, ways);
    SectionParts(w, ways, w');
    forall id | id in w'.lines ensures LineFits(w'.stays, id, w'.lines[id]) && GoesOn(w.lines[id], w'.lines[id]) {
      LineGrown(w.stays, w'.stays, id, w.lines[id], w'.lines[id]);
    }
    forall id | id in w'.peers ensures PeerTrails(w'.stays, id, w'.peers[id], w'.lines[id]) {
      SectionPeer(w, ways, w', id);
    }
    forall r | r in w'.relays ensures r.to in w'.lines && RelayFits(w'.stays, w'.lines[r.to], r) {
      RelayGrown(w.stays, w'.stays, w.lines[r.to], w'.lines[r.to], r);
    }
  }

  lemma SectionKeeps(w: World, ways: map<UInt16, Passage>)
    requires Inv(w)
    ensures Inv(Apply(w, Section(ways)))
  {
    hide Inv, Loose, Sectioned, Broadcast;
    if Legal(w.peers, ways) && ways.Keys <= w.lines.Keys {
      SectionFits(w, ways, Sectioned(w, ways));
      BroadcastKeeps(Sectioned(w, ways));
    }
  }

  // ---- Frames -------------------------------------------------------------

  lemma UploadKeeps(w: World, id: UInt16, bytes: seq<Byte>)
    requires Inv(w) && id in w.peers && Decode(bytes, false).Some?
    ensures Inv(Relayed(w, id, bytes))
  {
    hide LineFits, RelayFits, PeerFits, RelayTo, Decode;
    var v := Decode(bytes, false).value;
    var w' := Relayed(w, id, bytes);
    forall r | r in w'.relays ensures r.to in w'.lines && RelayFits(w'.stays, w'.lines[r.to], r) {
      if r !in w.relays {
        var other :| other in w.peers && Reached(w.peers, w.lines, id, other)
          && r == RelayTo(w.peers, w.lines, id, other, v);
        assert LineFits(w.stays, other, w.lines[other]) && PeerFits(w.stays, other, w.peers[other], w.lines[other]);
        RelayIsTrue(w.stays, w.peers, w.lines, id, other, v);
      }
    }
  }

  lemma IgnoredKeeps(w: World, id: UInt16, bytes: seq<Byte>)
    requires Inv(w)
    ensures Inv(w.(uploads := w.uploads + {(id, bytes)}))
  {
  }

  lemma RelayIsTrue(
    stays: Stays, peers: map<UInt16, Session>, lines: map<UInt16, Line>,
    id: UInt16, other: UInt16, v: Voice)
    requires id in peers && Reached(peers, lines, id, other)
    requires LineFits(stays, other, lines[other]) && PeerFits(stays, other, peers[other], lines[other])
    ensures var r := RelayTo(peers, lines, id, other, v); r.to == other && RelayFits(stays, lines[other], r)
  {
    hide TrueState;
    var r := RelayTo(peers, lines, id, other, v);
    var frame := Voice(peers[other].epoch, peers[id].epoch, id, v.sequence, v.end, v.data);
    if Encodable(frame, true) {
      assert Carries(r, frame);
    }
  }

  lemma ApplyKeeps(w: World, a: Action)
    requires Inv(w)
    ensures Inv(Apply(w, a))
  {
    hide Inv;
    match a
    case Join(channel) => JoinKeeps(w, channel);
    case Leave(id) => LeaveKeeps(w, id);
    case Section(ways) => SectionKeeps(w, ways);
    case Watch(id, all) => PublishKeeps(w, id, all);
    case Publish(id) =>
      if id in w.lines {
        PublishKeeps(w, id, w.lines[id].all);
        assert w.lines[id].(all := w.lines[id].all) == w.lines[id];
      }
    case Close(id) => if id in w.lines { CloseKeeps(w, id); }
    case Write(id) => if id in w.lines { StreamKeeps(w, id); }
    case Take(id) => if id in w.lines { StreamKeeps(w, id); }
    case Upload(id, bytes, allowed) =>
      if id in w.peers && allowed && Routed(w.peers[id], Decode(bytes, false)) {
        UploadKeeps(w, id, bytes);
      } else {
        IgnoredKeeps(w, id, bytes);
      }
  }

  lemma PublishKeeps(w: World, id: UInt16, all: bool)
    requires Inv(w)
    ensures id in w.lines && Heeded(w.peers, id) ==>
      Inv(w.(lines := w.lines[id := Sent(w.peers, id, w.lines[id].(all := all))]))
  {
    if id in w.lines && Heeded(w.peers, id) {
      var line := w.lines[id].(all := all);
      assert LineFits(w.stays, id, w.lines[id]) && PeerFits(w.stays, id, w.peers[id], w.lines[id]);
      assert Chain(line) == Chain(w.lines[id]);
      hide TrueState, StateFor, Sent;
      assert LineFits(w.stays, id, line) && PeerTrails(w.stays, id, w.peers[id], line);
      SentFits(w.stays, w.peers, id, line);
      assert GoesOn(w.lines[id], Sent(w.peers, id, line));
      hide LineFits, PeerFits, PeerTrails, GoesOn, Inv;
      OneLine(w, id, Sent(w.peers, id, line));
    }
  }

  lemma StreamKeeps(w: World, id: UInt16)
    requires Inv(w) && id in w.lines
    ensures Inv(w.(lines := w.lines[id := Written(w.lines[id])]))
    ensures Inv(w.(lines := w.lines[id := Taken(w.lines[id])]))
  {
    var line := w.lines[id];
    assert LineFits(w.stays, id, line) && (id in w.peers ==> PeerFits(w.stays, id, w.peers[id], line));
    hide LineFits, GoesOn, Written, Taken, Lines;
    WrittenFits(w.stays, id, line);
    TakenFits(w.stays, id, line);
    OneLine(w, id, Written(line));
    OneLine(w, id, Taken(line));
  }

  lemma {:induction false} RunHolds(ws: seq<World>, i: nat)
    requires Run(ws) && i < |ws|
    ensures Inv(ws[i])
  {
    hide Inv, Apply;
    if i == 0 {
      EmptyFits();
    } else {
      RunHolds(ws, i - 1);
      assert Next(ws[i - 1], ws[i - 1 + 1]);
      var a: Action :| ws[i] == Apply(ws[i - 1], a);
      ApplyKeeps(ws[i - 1], a);
    }
  }

  lemma EmptyFits()
    ensures Inv(EMPTY)
  {
  }

  // ---- What it is for -----------------------------------------------------

  /** Admission keeps the number of sessions within the slots of the voice loop. */
  lemma {:induction false} RoomForAll(ws: seq<World>, i: nat)
    requires Run(ws) && i < |ws|
    ensures |ws[i].peers| <= MAX_MEMBERS
  {
    if i > 0 {
      RoomForAll(ws, i - 1);
      var w := ws[i - 1];
      assert Next(w, ws[i - 1 + 1]);
      var a: Action :| ws[i] == Apply(w, a);
      KeysKept(w, a);
    }
  }

  lemma BroadcastPeers(w: World)
    ensures Broadcast(w).peers == w.peers
  {
  }

  lemma JoinPeers(w: World, channel: UInt16) returns (id: UInt16, s: Session)
    ensures var after := Apply(w, Join(channel)).peers;
      after == w.peers || (|w.peers| < MAX_MEMBERS && after == w.peers[id := s])
  {
    hide Broadcast, StateFor;
    id, s := 0, Session(channel, 1, true, false, false);
    if w.next < 65535 {
      id := w.next + 1;
      BroadcastPeers(Joined(w, id, channel));
    }
  }

  lemma OneMoreKey(peers: map<UInt16, Session>, id: UInt16, s: Session)
    ensures |peers[id := s]| <= |peers| + 1
  {
    assert peers[id := s].Keys == peers.Keys + {id};
    assert |peers[id := s]| == |peers[id := s].Keys| && |peers| == |peers.Keys|;
    Fewer(peers[id := s].Keys, peers.Keys + {id});
  }

  lemma LeavePeers(w: World, id: UInt16)
    ensures Apply(w, Leave(id)).peers.Keys <= w.peers.Keys
  {
    hide Broadcast, StateFor;
    if id in w.peers && id in w.lines {
      BroadcastPeers(w.(peers := w.peers - {id}, lines := w.lines[id := w.lines[id].(closed := true)]));
    }
  }

  lemma SectionPeers(w: World, ways: map<UInt16, Passage>)
    ensures Apply(w, Section(ways)).peers.Keys == w.peers.Keys
  {
    hide Broadcast, Path;
    if Legal(w.peers, ways) && ways.Keys <= w.lines.Keys {
      BroadcastPeers(Sectioned(w, ways));
    }
  }

  lemma KeysKept(w: World, a: Action)
    ensures var n := |Apply(w, a).peers|;
      n <= |w.peers| || (a.Join? && |w.peers| < MAX_MEMBERS && n <= |w.peers| + 1)
  {
    hide RelaysOf, StateFor, Routed, Path, Sent, Written, Taken, Sectioned, Broadcast, Joined;
    var after := Apply(w, a).peers;
    assert |after| == |after.Keys| && |w.peers| == |w.peers.Keys|;
    match a
    case Join(channel) =>
      var id, s := JoinPeers(w, channel);
      OneMoreKey(w.peers, id, s);
    case Leave(id) =>
      LeavePeers(w, id);
      Fewer(after.Keys, w.peers.Keys);
    case Section(ways) => SectionPeers(w, ways);
    case _ =>
  }

  lemma Fewer(a: set<UInt16>, b: set<UInt16>)
    requires a <= b
    ensures |a| <= |b|
  {
    assert b == a + (b - a);
  }

  /** The frame a recipient should get for an uploaded one: its own epoch, the sender and the
      sender's epoch, and the sequence, end and data as they were uploaded. */
  function Passed(r: Relay, v: Voice): Voice {
    v.(epoch := r.toEpoch, senderEpoch := r.senderEpoch, sender := r.sender)
  }

  /** A relay records where both ends really were, at the epochs it names, and carries what was
      uploaded. */
  lemma RelaysAreTrue(w: World, id: UInt16, bytes: seq<Byte>, r: Relay)
    requires r in Apply(w, Upload(id, bytes, true)).relays && r !in w.relays
    ensures id in w.peers && r.to in w.peers && r.to != id && r.sender == id
    ensures !w.peers[id].removed && !w.peers[id].muted && !w.peers[r.to].removed && !w.peers[r.to].deafened
    ensures w.peers[id].channel == w.peers[r.to].channel == r.channel
    ensures w.peers[id].epoch == r.senderEpoch && w.peers[r.to].epoch == r.toEpoch
    ensures Decode(bytes, false).Some? && Decode(bytes, false).value.epoch == r.senderEpoch
    ensures id != 0 && r.toEpoch != 0 ==> Decode(r.bytes, true) == Some(Passed(r, Decode(bytes, false).value))
    ensures id == 0 || r.toEpoch == 0 ==> r.bytes == []
  {
    var v := Decode(bytes, false).value;
    DecodedFields(bytes, v);
    RelayCarries(w.peers, w.lines, id, r.to, v);
    hide Encode, Decode;
  }

  lemma DecodedFields(bytes: seq<Byte>, v: Voice)
    requires Decode(bytes, false) == Some(v)
    ensures v.epoch != 0 && |v.data| <= MAX_PAYLOAD && v.end == (v.data == [])
  {
  }

  lemma RelayCarries(peers: map<UInt16, Session>, lines: map<UInt16, Line>, id: UInt16, other: UInt16, v: Voice)
    requires id in peers && other in peers && other in lines
    requires peers[id].epoch != 0 && |v.data| <= MAX_PAYLOAD && v.end == (v.data == [])
    ensures var r := RelayTo(peers, lines, id, other, v);
      if id != 0 && peers[other].epoch != 0 then Decode(r.bytes, true) == Some(Passed(r, v)) else r.bytes == []
  {
    var frame := Voice(peers[other].epoch, peers[id].epoch, id, v.sequence, v.end, v.data);
    hide Decode, Layout;
    if Encodable(frame, true) {
      DecodeEncoded(frame, true);
    }
  }

  /** Somebody else in the sender's channel, live, listening and connected. */
  ghost predicate Listens(w: World, id: UInt16, other: UInt16) {
    && id in w.peers && other in w.peers && other != id && !w.peers[other].removed && !w.peers[other].deafened
    && w.peers[other].channel == w.peers[id].channel && other in w.lines && !w.lines[other].closed
  }

  /** A frame that is let through: by the limiter, and from a live, unmuted session that names its
      own epoch. */
  ghost predicate LetThrough(w: World, id: UInt16, bytes: seq<Byte>, allowed: bool) {
    && allowed && id in w.peers && !w.peers[id].removed && !w.peers[id].muted
    && Decode(bytes, false).Some? && Decode(bytes, false).value.epoch == w.peers[id].epoch
  }

  /** One relay to each listener, and no other. */
  ghost predicate OneEach(w: World, id: UInt16, added: set<Relay>) {
    && (forall r :: r in added ==> Listens(w, id, r.to))
    && (forall a, b :: a in added && b in added && a.to == b.to ==> a == b)
    && (forall other :: Listens(w, id, other) ==> exists r :: r in added && r.to == other)
  }

  /** What an upload adds: nothing if it is not let through, and otherwise exactly one relay
      for each session that listens, which decodes to the recipient's epoch, the sender and
      its epoch, and the frame as uploaded. */
  lemma UploadExactly(w: World, id: UInt16, bytes: seq<Byte>, allowed: bool) returns (added: set<Relay>)
    requires id != 0
    ensures Apply(w, Upload(id, bytes, allowed)).relays == w.relays + added
    ensures !LetThrough(w, id, bytes, allowed) ==> added == {}
    ensures LetThrough(w, id, bytes, allowed) ==>
      && OneEach(w, id, added)
      && forall r :: r in added ==>
           && r.sender == id && r.senderEpoch == w.peers[id].epoch && r.toEpoch == w.peers[r.to].epoch
           && r.channel == w.peers[id].channel
           && (r.toEpoch != 0 ==> Decode(r.bytes, true) == Some(Passed(r, Decode(bytes, false).value)))
  {
    added := {};
    if LetThrough(w, id, bytes, allowed) {
      var v := Decode(bytes, false).value;
      DecodedFields(bytes, v);
      hide Decode, Encode, Passed;
      added := RelaysOf(w.peers, w.lines, id, v);
      forall r | r in added
        ensures Listens(w, id, r.to) && r == RelayTo(w.peers, w.lines, id, r.to, v)
      {
      }
      forall other | Listens(w, id, other) ensures RelayTo(w.peers, w.lines, id, other, v) in added {
      }
      forall other | other in w.peers && other in w.lines
        ensures var r := RelayTo(w.peers, w.lines, id, other, v);
          r.toEpoch != 0 ==> Decode(r.bytes, true) == Some(Passed(r, v))
      {
        RelayCarries(w.peers, w.lines, id, other, v);
      }
    }
  }

  /** A recipient whose client holds the state of that moment plays the frame. */
  lemma PromptFramePlays(w: World, id: UInt16, bytes: seq<Byte>, r: Relay, all: bool)
    requires id != 0 && r in Apply(w, Upload(id, bytes, true)).relays && r !in w.relays && r.toEpoch != 0
    ensures r.to in w.peers
    ensures Accepts(StateFor(w.peers, r.to, all), r.bytes)
    ensures ClientParse(r.bytes) == Some(Passed(r, Decode(bytes, false).value))
  {
    hide Apply, Decode, ClientParse;
    RelaysAreTrue(w, id, bytes, r);
    ClientAgrees(r.bytes);
  }

  /** The relay repeats a frame that its sender uploaded. */
  ghost predicate Repeats(uploads: set<(UInt16, seq<Byte>)>, r: Relay, bytes: seq<Byte>) {
    && (r.sender, bytes) in uploads && Decode(bytes, false).Some?
    && Decode(r.bytes, true) == Some(Passed(r, Decode(bytes, false).value))
    && Decode(bytes, false).value.epoch == r.senderEpoch
  }

  ghost predicate Faithful(w: World) {
    forall r :: r in w.relays ==> r.bytes == [] || exists bytes :: Repeats(w.uploads, r, bytes)
  }

  lemma OthersRelayNothing(w: World, a: Action)
    requires !a.Upload?
    ensures Apply(w, a).relays == w.relays && Apply(w, a).uploads == w.uploads
  {
    hide StateFor, Sent, Written, Taken, NewStays, Path;
  }

  lemma FaithfulStep(w: World, a: Action)
    requires Faithful(w)
    ensures Faithful(Apply(w, a))
  {
    var w' := Apply(w, a);
    hide Passed, Decode;
    if a.Upload? {
      forall r | r in w'.relays && r.bytes != [] ensures exists bytes :: Repeats(w'.uploads, r, bytes) {
        if r in w.relays {
          var bytes :| Repeats(w.uploads, r, bytes);
          assert Repeats(w'.uploads, r, bytes);
        } else {
          RelaysAreTrue(w, a.id, a.bytes, r);
          assert Repeats(w'.uploads, r, a.bytes);
        }
      }
    } else {
      OthersRelayNothing(w, a);
    }
  }

  lemma {:induction false} FramesHold(ws: seq<World>, i: nat)
    requires Run(ws) && i < |ws|
    ensures Faithful(ws[i])
  {
    hide Apply, Faithful;
    if i == 0 {
      assert Faithful(EMPTY) by {
        NothingRelayed();
      }
    } else {
      FramesHold(ws, i - 1);
      assert Next(ws[i - 1], ws[i - 1 + 1]);
      var a: Action :| ws[i] == Apply(ws[i - 1], a);
      FaithfulStep(ws[i - 1], a);
    }
  }

  lemma NothingRelayed()
    ensures Faithful(EMPTY)
  {
  }

  /** How far a chain can reach. */
  lemma {:induction false} ChainReach(chain: seq<State>)
    requires chain != [] && Close3(chain)
    ensures chain[|chain| - 1].turn <= chain[0].turn + 3 * (|chain| - 1)
  {
    var n := |chain| - 1;
    if n > 0 {
      var front := chain[..n];
      forall i | 0 <= i < |front| - 1 ensures front[i].turn <= front[i + 1].turn <= front[i].turn + 3 {
        assert front[i] == chain[i] && front[i + 1] == chain[i + 1];
      }
      ChainReach(front);
      assert chain[n - 1].turn <= chain[n - 1 + 1].turn <= chain[n - 1].turn + 3;
    }
  }

  /** Two turns of the same epoch, neither wrapped away from the other. */
  lemma SameTurn(a: nat, b: nat)
    requires a < EPOCHS && b < a + EPOCHS && a % EPOCHS == b % EPOCHS
    ensures a == b
  {
  }

  /** The relay belongs to the very stay that the client's state describes. */
  lemma SameStay(stays: Stays, id: UInt16, line: Line, r: Relay)
    requires LineFits(stays, id, line) && line.client.Live? && RelayFits(stays, line, r) && r.to == id
    requires r.toEpoch == line.client.held.snapshot.epoch
    ensures r.turn == line.client.held.turn && r.channel == line.client.held.snapshot.Channel()
  {
    var chain, held := Chain(line), line.client.held;
    assert chain[0] == held && TrueState(stays, id, chain[0]);
    ChainReach(chain);
    assert |chain| <= 1 + ON_STREAM + OUT_QUEUE;
    SameTurn(held.turn, r.turn);
  }

  /** The upload is of the frame's sequence, end and data, in the epoch named as the sender's. */
  ghost predicate UploadedAs(bytes: seq<Byte>, v: Voice) {
    exists u: Voice ::
      && Decode(bytes, false) == Some(u)
      && u.epoch == v.senderEpoch && u.sequence == v.sequence && u.end == v.end && u.data == v.data
  }

  /** In every run, whatever the delay of frames and states and however often epochs wrap, a
      client that has not ended accepts a frame only if both ends were in the channel it now
      believes itself in, in this very stay, at the epochs the frame names, when it was
      relayed, and what it accepts is a frame that the sender uploaded in that epoch. */
  lemma VoiceIsScoped(ws: seq<World>, i: nat, id: UInt16, r: Relay)
    requires Run(ws) && i < |ws| && id in ws[i].lines && ws[i].lines[id].client.Live?
    requires r in ws[i].relays && r.to == id && Accepts(ws[i].lines[id].client.held.snapshot, r.bytes)
    ensures var v, held := ClientParse(r.bytes).value, ws[i].lines[id].client.held;
      && v.epoch == r.toEpoch == held.snapshot.epoch && r.turn == held.turn
      && v.senderEpoch == r.senderEpoch && v.sender == r.sender
      && r.channel == held.snapshot.Channel()
      && exists bytes :: (v.sender, bytes) in ws[i].uploads && UploadedAs(bytes, v)
  {
    RunHolds(ws, i);
    FramesHold(ws, i);
    var w := ws[i];
    var line := w.lines[id];
    hide LineFits, PeerFits;
    assert LineFits(w.stays, id, line) && RelayFits(w.stays, line, r);
    var v: Voice :| Carries(r, v);
    DecodeEncoded(v, true);
    ClientAgrees(r.bytes);
    SameStay(w.stays, id, line, r);
    var bytes :| Repeats(w.uploads, r, bytes);
    assert (v.sender, bytes) in w.uploads && UploadedAs(bytes, v);
  }
}
