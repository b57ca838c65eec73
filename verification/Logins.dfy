/** Sessions and their logins together: a login verifies and rotates the token before its
    critical section admits the session, and that section may find the connection gone
    (internal/server/accounts.go over internal/accounts/store.go). */
module Logins {
  import opened Common
  import opened Accounts

  /** A session and the proof it was admitted with. */
  datatype Seat = Seat(proof: Option<Proof>, removed: bool)

  /** What the one account command in progress has already committed. */
  datatype Gate = Free | Replaced(id: UInt16, a: Account) | Issued(id: UInt16, proof: Proof) | Revoked(id: UInt16)

  /** `abandoned` records the accounts whose token was rotated for a login that was not
      admitted, until one is. */
  datatype World = World(
    tables: Tables, now: int, used: set<string>,
    seats: map<UInt16, Seat>, gate: Gate, abandoned: set<string>)

  datatype Step =
    | Tick(at: int)
    | Join(id: UInt16)
    | Leave(id: UInt16)
    | Remove(id: UInt16)
    | Other(op: Op)
    | Replace(id: UInt16, a: Account, hash: string)
    | Rotate(id: UInt16, a: Account, token: string, digest: string)
    | Admit
    | Abandon
    | Withdraw(id: UInt16)
    | Clear

  predicate Live(seats: map<UInt16, Seat>, id: UInt16) {
    id in seats && !seats[id].removed
  }

  predicate Holds(seats: map<UInt16, Seat>, id: UInt16, uid: string) {
    Live(seats, id) && seats[id].proof.Some? && seats[id].proof.value.account.uid == uid
  }

  // ---- Steps --------------------------------------------------------------

  /** The gate admits one command at a time; its session cannot leave meanwhile. */
  predicate Enabled(w: World, step: Step) {
    match step
    case Tick(at) => w.now <= at
    case Join(id) => id !in w.seats
    case Leave(id) => w.gate.Free? || w.gate.id != id
    case Remove(id) => id in w.seats
    case Other(op) => op.UpdateProfile? || op.Register?
    case Replace(id, a, _) => w.gate.Free? && Holds(w.seats, id, a.uid)
    case Rotate(id, a, token, _) =>
      && token !in w.used
      && (if w.gate.Replaced? then w.gate.id == id && w.gate.a == a else w.gate.Free? && Live(w.seats, id))
    case Admit => w.gate.Issued? && Live(w.seats, w.gate.id)
    case Abandon => w.gate.Issued? || w.gate.Replaced?
    case Withdraw(id) => w.gate.Free? && Live(w.seats, id) && w.seats[id].proof.Some?
    case Clear => w.gate.Revoked?
  }

  function Next(w: World, step: Step): World
    requires Enabled(w, step)
  {
    match step
    case Tick(at) => w.(now := at)
    case Join(id) => w.(seats := w.seats[id := Seat(None, false)])
    case Leave(id) => w.(seats := w.seats - {id})
    case Remove(id) => w.(seats := w.seats[id := w.seats[id].(removed := true)])
    case Other(op) => w.(tables := After(w.tables, op, w.now))
    case Replace(id, a, hash) =>
      var op := ReplacePassword(a, hash);
      if Transact(w.tables, op, w.now).None? then w
      else w.(tables := After(w.tables, op, w.now), gate := Replaced(id, a.(version := a.version + 1)))
    case Rotate(id, a, token, digest) =>
      var op := Issue(a, token, digest);
      var drawn := w.(used := w.used + {token});
      if Transact(w.tables, op, w.now).None? then drawn
      else drawn.(tables := After(w.tables, op, w.now),
                  gate := Issued(id, Proof(a, token, w.now + TOKEN_LIFETIME)))
    case Admit =>
      w.(seats := Admitted(w.seats, w.gate.id, w.gate.proof), gate := Free,
         abandoned := w.abandoned - {w.gate.proof.account.uid})
    case Abandon =>
      w.(gate := Free, abandoned := w.abandoned + {if w.gate.Issued? then w.gate.proof.account.uid else w.gate.a.uid})
    case Withdraw(id) =>
      var p := w.seats[id].proof.value;
      w.(tables := After(w.tables, Revoke(p.account.uid, p.tokenId), w.now), gate := Revoked(id))
    case Clear =>
      w.(gate := Free,
         seats := if w.gate.id in w.seats then w.seats[w.gate.id := w.seats[w.gate.id].(proof := None)] else w.seats)
  }

  /** The session takes the proof, and the account's other live sessions end. */
  function Admitted(seats: map<UInt16, Seat>, id: UInt16, p: Proof): map<UInt16, Seat>
    requires id in seats
  {
    map k | k in seats ::
      if k == id then seats[k].(proof := Some(p))
      else if Holds(seats, k, p.account.uid) then seats[k].(removed := true)
      else seats[k]
  }

  ghost predicate Initial(w: World) {
    w.tables == Tables(map[], map[]) && w.used == {} && w.seats == map[] && w.gate == Free && w.abandoned == {}
  }

  ghost predicate Takes(w: World, step: Step, w': World) {
    Enabled(w, step) && w' == Next(w, step)
  }

  ghost predicate Run(run: seq<World>, steps: seq<Step>) {
    && |run| == |steps| + 1 && Initial(run[0])
    && forall i :: 0 <= i < |steps| ==> Takes(run[i], steps[i], run[i + 1])
  }

  // ---- The invariant ------------------------------------------------------

  /** The proof's own row is in the table. */
  ghost predicate Kept(t: Tables, p: Proof) {
    && p.tokenId in t.tokens
    && t.tokens[p.tokenId].uid == p.account.uid && t.tokens[p.tokenId].version == p.account.version
    && t.tokens[p.tokenId].expires == p.expires
  }

  /** A proof in force is kept until it expires; an abandoned account's is gone. */
  ghost predicate Backed(t: Tables, now: int, abandoned: set<string>, p: Proof) {
    if p.account.uid in abandoned then p.tokenId !in t.tokens else Kept(t, p) || p.expires <= now
  }

  /** The account the command in progress is changing. */
  function Busy(w: World): Option<string> {
    match w.gate
    case Free => None
    case Replaced(_, a) => Some(a.uid)
    case Issued(_, p) => Some(p.account.uid)
    case Revoked(id) =>
      if id in w.seats && w.seats[id].proof.Some? then Some(w.seats[id].proof.value.account.uid) else None
  }

  /** A token ID belongs to one proof for good. */
  ghost predicate Own(t: Tables, used: set<string>, p: Proof) {
    p.tokenId in used && (p.tokenId in t.tokens ==> Kept(t, p))
  }

  ghost predicate Fits(t: Tables, now: int, used: set<string>, abandoned: set<string>, busy: Option<string>, p: Proof) {
    Own(t, used, p) && (busy == Some(p.account.uid) || Backed(t, now, abandoned, p))
  }

  ghost predicate SeatsFit(w: World) {
    forall id :: id in w.seats && Live(w.seats, id) && w.seats[id].proof.Some? ==>
      Fits(w.tables, w.now, w.used, w.abandoned, Busy(w), w.seats[id].proof.value)
  }

  ghost predicate OneSeat(seats: map<UInt16, Seat>) {
    forall a, b, uid :: Holds(seats, a, uid) && Holds(seats, b, uid) ==> a == b
  }

  /** What the command in progress has committed is in the tables. */
  ghost predicate GateFits(w: World) {
    match w.gate
    case Free => true
    case Replaced(_, a) => forall id :: id in w.tables.tokens ==> w.tables.tokens[id].uid != a.uid
    case Issued(_, p) =>
      && Own(w.tables, w.used, p)
      && (Kept(w.tables, p) || p.expires <= w.now)
      && (forall id :: id in w.tables.tokens && w.tables.tokens[id].uid == p.account.uid ==> id == p.tokenId)
      && forall k :: k in w.seats && w.seats[k].proof.Some? ==> w.seats[k].proof.value.tokenId != p.tokenId
    case Revoked(id) =>
      && id in w.seats && w.seats[id].proof.Some?
      && forall k :: Holds(w.seats, k, w.seats[id].proof.value.account.uid) ==> k == id
  }

  /** Token IDs in use were drawn. */
  ghost predicate Drawn(w: World) {
    && (forall id :: id in w.tables.tokens ==> id in w.used)
    && forall k :: k in w.seats && w.seats[k].proof.Some? ==> w.seats[k].proof.value.tokenId in w.used
  }

  ghost predicate Inv(w: World) {
    Consistent(w.tables) && Drawn(w) && OneSeat(w.seats) && GateFits(w) && SeatsFit(w)
  }

  // ---- One transaction ----------------------------------------------------

  /** The transaction takes no row from this account while it lasts. */
  predicate Spares(op: Op, p: Proof) {
    match op
    case Issue(a, id, _) => a.uid != p.account.uid && id != p.tokenId
    case ReplacePassword(a, _) => a.uid != p.account.uid
    case Revoke(uid, id) => uid != p.account.uid
    case _ => true
  }

  lemma OwnAfter(t: Tables, op: Op, now: int, used: set<string>, p: Proof)
    requires Own(t, used, p) && (op.Issue? ==> op.id != p.tokenId)
    ensures Own(After(t, op, now), used, p)
  {
    RowsAreFixed(t, op, now, p.tokenId);
  }

  lemma BackedAfter(t: Tables, op: Op, now: int, used: set<string>, abandoned: set<string>, p: Proof)
    requires Own(t, used, p) && Backed(t, now, abandoned, p) && Spares(op, p)
    ensures Backed(After(t, op, now), now, abandoned, p)
  {
    RowsAreFixed(t, op, now, p.tokenId);
  }

  /** A transaction that spares everybody outside the busy account. */
  lemma SeatsAfter(w: World, op: Op, busy: Option<string>, used: set<string>)
    requires SeatsFit(w) && w.used <= used && (Busy(w) == busy || Busy(w) == None)
    requires op.Issue? ==> op.id !in w.used
    requires forall id :: Live(w.seats, id) && w.seats[id].proof.Some? ==>
      Spares(op, w.seats[id].proof.value) || busy == Some(w.seats[id].proof.value.account.uid)
    ensures forall id :: id in w.seats && Live(w.seats, id) && w.seats[id].proof.Some? ==>
      Fits(After(w.tables, op, w.now), w.now, used, w.abandoned, busy, w.seats[id].proof.value)
  {
    hide After;
    forall id | id in w.seats && Live(w.seats, id) && w.seats[id].proof.Some?
      ensures Fits(After(w.tables, op, w.now), w.now, used, w.abandoned, busy, w.seats[id].proof.value)
    {
      var p := w.seats[id].proof.value;
      OwnAfter(w.tables, op, w.now, w.used, p);
      if busy != Some(p.account.uid) {
        BackedAfter(w.tables, op, w.now, w.used, w.abandoned, p);
      }
    }
  }

  lemma DrawnAfter(t: Tables, op: Op, now: int, used: set<string>)
    requires forall id :: id in t.tokens ==> id in used
    ensures forall id :: id in After(t, op, now).tokens ==> id in used || (op.Issue? && id == op.id)
  {
    forall id | id in After(t, op, now).tokens && !(op.Issue? && id == op.id) ensures id in used {
      RowsAreFixed(t, op, now, id);
    }
  }

  // ---- Every step ---------------------------------------------------------

  lemma OtherKeeps(w: World, op: Op)
    requires Inv(w) && Enabled(w, Other(op))
    ensures Inv(Next(w, Other(op)))
  {
    TransactKeeps(w.tables, op, w.now);
    DrawnAfter(w.tables, op, w.now, w.used);
    SeatsAfter(w, op, Busy(w), w.used);
    assert After(w.tables, op, w.now).tokens == w.tables.tokens;
  }

  lemma ReplaceKeeps(w: World, id: UInt16, a: Account, hash: string)
    requires Inv(w) && Enabled(w, Replace(id, a, hash))
    ensures Inv(Next(w, Replace(id, a, hash)))
  {
    var op := ReplacePassword(a, hash);
    if Transact(w.tables, op, w.now).Some? {
      TransactKeeps(w.tables, op, w.now);
      DrawnAfter(w.tables, op, w.now, w.used);
      SeatsAfter(w, op, Some(a.uid), w.used);
    }
  }

  lemma RotateKeeps(w: World, id: UInt16, a: Account, token: string, digest: string)
    requires Inv(w) && Enabled(w, Rotate(id, a, token, digest))
    ensures Inv(Next(w, Rotate(id, a, token, digest)))
  {
    var op := Issue(a, token, digest);
    if Transact(w.tables, op, w.now).Some? {
      TransactKeeps(w.tables, op, w.now);
      DrawnAfter(w.tables, op, w.now, w.used);
      SeatsAfter(w, op, Some(a.uid), w.used + {token});
    }
  }

  lemma WithdrawKeeps(w: World, id: UInt16)
    requires Inv(w) && Enabled(w, Withdraw(id))
    ensures Inv(Next(w, Withdraw(id)))
  {
    var p := w.seats[id].proof.value;
    var op := Revoke(p.account.uid, p.tokenId);
    assert Holds(w.seats, id, p.account.uid);
    TransactKeeps(w.tables, op, w.now);
    DrawnAfter(w.tables, op, w.now, w.used);
    SeatsAfter(w, op, Some(p.account.uid), w.used);
  }

  lemma AdmitKeeps(w: World)
    requires Inv(w) && Enabled(w, Admit)
    ensures Inv(Next(w, Admit))
  {
    var p := w.gate.proof;
    var w' := Next(w, Admit);
    AdmittedOne(w.seats, w.gate.id, p);
    forall k | k in w'.seats && Live(w'.seats, k) && w'.seats[k].proof.Some?
      ensures Fits(w'.tables, w'.now, w'.used, w'.abandoned, None, w'.seats[k].proof.value)
    {
      if k != w.gate.id {
        assert !Holds(w.seats, k, p.account.uid);
        assert Fits(w.tables, w.now, w.used, w.abandoned, Busy(w), w.seats[k].proof.value);
      }
    }
  }

  lemma AdmittedOne(seats: map<UInt16, Seat>, id: UInt16, p: Proof)
    requires OneSeat(seats) && id in seats
    ensures OneSeat(Admitted(seats, id, p))
  {
    var after := Admitted(seats, id, p);
    forall k, uid | Holds(after, k, uid)
      ensures if k == id then uid == p.account.uid else uid != p.account.uid && Holds(seats, k, uid)
    {
    }
  }

  lemma FewerHold(seats: map<UInt16, Seat>, after: map<UInt16, Seat>)
    requires OneSeat(seats) && forall k, uid :: Holds(after, k, uid) ==> Holds(seats, k, uid)
    ensures OneSeat(after)
  {
  }

  lemma AbandonKeeps(w: World)
    requires Inv(w) && Enabled(w, Abandon)
    ensures Inv(Next(w, Abandon))
  {
  }

  lemma QuietKeeps(w: World, step: Step)
    requires Inv(w) && Enabled(w, step)
    requires step.Tick? || step.Join? || step.Leave? || step.Remove?
    ensures Inv(Next(w, step))
  {
    var w' := Next(w, step);
    FewerHold(w.seats, w'.seats);
    assert Busy(w') == Busy(w);
    forall k | k in w'.seats && Live(w'.seats, k) && w'.seats[k].proof.Some?
      ensures Fits(w'.tables, w'.now, w'.used, w'.abandoned, Busy(w'), w'.seats[k].proof.value)
    {
      assert Fits(w.tables, w.now, w.used, w.abandoned, Busy(w), w.seats[k].proof.value);
    }
  }

  lemma ClearKeeps(w: World)
    requires Inv(w) && Enabled(w, Clear)
    ensures Inv(Next(w, Clear))
  {
    var w' := Next(w, Clear);
    FewerHold(w.seats, w'.seats);
    forall k | k in w'.seats && Live(w'.seats, k) && w'.seats[k].proof.Some?
      ensures Fits(w'.tables, w'.now, w'.used, w'.abandoned, None, w'.seats[k].proof.value)
    {
      assert Holds(w.seats, k, w.seats[k].proof.value.account.uid);
      assert Fits(w.tables, w.now, w.used, w.abandoned, Busy(w), w.seats[k].proof.value);
    }
  }

  lemma StepKeeps(w: World, step: Step)
    requires Inv(w) && Enabled(w, step)
    ensures Inv(Next(w, step))
  {
    hide Inv, Next;
    match step
    case Other(op) => OtherKeeps(w, op);
    case Replace(id, a, hash) => ReplaceKeeps(w, id, a, hash);
    case Rotate(id, a, token, digest) => RotateKeeps(w, id, a, token, digest);
    case Withdraw(id) => WithdrawKeeps(w, id);
    case Admit => AdmitKeeps(w);
    case Abandon => AbandonKeeps(w);
    case Clear => ClearKeeps(w);
    case _ => QuietKeeps(w, step);
  }

  lemma {:induction false} RunHolds(run: seq<World>, steps: seq<Step>, i: nat)
    requires Run(run, steps) && i <= |steps|
    ensures Inv(run[i])
  {
    if i > 0 {
      hide Inv, Next, Enabled, Initial;
      RunHolds(run, steps, i - 1);
      assert Takes(run[i - 1], steps[i - 1], run[i - 1 + 1]);
      StepKeeps(run[i - 1], steps[i - 1]);
    }
  }

  /** In every run, when no account command is in progress: no account has two live
      sessions, and a live session's proof is valid if and only if it has not expired and
      its account's token was not rotated since for a login that was never admitted. */
  lemma SessionProofs(run: seq<World>, steps: seq<Step>, i: nat, id: UInt16)
    requires Run(run, steps) && i <= |steps| && run[i].gate.Free?
    requires Live(run[i].seats, id) && run[i].seats[id].proof.Some?
    ensures var w := run[i]; var p := w.seats[id].proof.value;
      && (Valid(w.tables, p, w.now) <==> w.now < p.expires && p.account.uid !in w.abandoned)
      && forall k :: Holds(w.seats, k, p.account.uid) ==> k == id
  {
    RunHolds(run, steps, i);
    var w := run[i];
    var p := w.seats[id].proof.value;
    assert Fits(w.tables, w.now, w.used, w.abandoned, Busy(w), p);
    assert Holds(w.seats, id, p.account.uid);
  }

  // ---- Logging out and changing the password ------------------------------

  /** A logout revokes the session's own login at once and for good, and then leaves it a guest;
      no other session changes. */
  lemma LogoutInvalidates(w: World, id: UInt16, later: int)
    requires Enabled(w, Withdraw(id))
    ensures var p, mid := w.seats[id].proof.value, Next(w, Withdraw(id));
      && mid == w.(tables := mid.tables, gate := Revoked(id)) && !Valid(mid.tables, p, later)
      && mid.tables.accounts == w.tables.accounts
      && (forall k :: k in mid.tables.tokens ==> k in w.tables.tokens && mid.tables.tokens[k] == w.tables.tokens[k])
      && (forall k :: k in w.tables.tokens && k != p.tokenId ==> k in mid.tables.tokens)
      && Enabled(mid, Clear)
      && Next(mid, Clear) == mid.(gate := Free, seats := w.seats[id := w.seats[id].(proof := None)])
  {
    var p := w.seats[id].proof.value;
    RevokeExactly(w.tables, p.account.uid, p.tokenId, w.now);
  }

  /** A password change stores the new password, ends every login of the account, and gives the
      session that asked a new one under the new version, which is valid; the account's other
      live sessions end. */
  lemma PasswordChangeKeepsSession(w: World, id: UInt16, a: Account, hash: string, token: string, digest: string)
    requires Enabled(w, Replace(id, a, hash)) && Current(w.tables, a)
    requires token !in w.used && token !in w.tables.tokens && !DigestTaken(w.tables.tokens, digest)
    ensures var one := Next(w, Replace(id, a, hash));
      && one.gate == Replaced(id, a.(version := a.version + 1)) && one.seats == w.seats
      && one.tables.accounts[a.uid].hash == hash
      && (forall p: Proof, later: int :: p.account.uid == a.uid ==> !Valid(one.tables, p, later))
      && Enabled(one, Rotate(id, one.gate.a, token, digest))
      && var two := Next(one, Rotate(id, one.gate.a, token, digest));
      && two.seats == w.seats && Enabled(two, Admit)
      && var three := Next(two, Admit);
      && three.gate.Free? && Live(three.seats, id) && three.seats[id].proof.Some?
      && var mine := three.seats[id].proof.value;
      && mine.account.uid == a.uid && mine.expires == w.now + 30 * 24 * 3600
      && Valid(three.tables, mine, w.now)
      && forall k :: k in w.seats && k != id ==>
           three.seats[k] == if Holds(w.seats, k, a.uid) then w.seats[k].(removed := true) else w.seats[k]
  {
    var one := Next(w, Replace(id, a, hash));
    ReplaceExactly(w.tables, a, hash, w.now);
    IssueExactly(one.tables, one.gate.a, token, digest, w.now);
    hide Transact;
  }

  // ---- The exception does happen ------------------------------------------

  const Ann: Account := Account("u", "ann", "Ann", 1)
  const First: Proof := Proof(Ann, "t1", TOKEN_LIFETIME)
  const Second: Proof := Proof(Ann, "t2", TOKEN_LIFETIME)

  const Empty: World := World(Tables(map[], map[]), 0, {}, map[], Free, {})
  const Registered: World :=
    Empty.(tables := Tables(map["u" := AccountRow("ann", "h", "Ann", 1)], map[]))
  const Seated: World := Registered.(seats := map[1 := Seat(None, false)])
  const Verified: World :=
    Seated.(tables := Seated.tables.(tokens := map["t1" := TokenRow("u", "d1", TOKEN_LIFETIME, 1)]),
            used := {"t1"}, gate := Issued(1, First))
  const Home: World := Verified.(seats := map[1 := Seat(Some(First), false)], gate := Free)
  const Joined: World := Home.(seats := map[1 := Seat(Some(First), false), 2 := Seat(None, false)])
  const Rotated: World :=
    Joined.(tables := Seated.tables.(tokens := map["t2" := TokenRow("u", "d2", TOKEN_LIFETIME, 1)]),
            used := {"t1", "t2"}, gate := Issued(2, Second))
  const Lost: World := Rotated.(gate := Free, abandoned := {"u"})

  lemma Registers()
    ensures Takes(Empty, Other(Register("u", "ann", "h", "Ann")), Registered)
    ensures Takes(Registered, Join(1), Seated)
  {
  }

  lemma FirstIssue()
    ensures Takes(Seated, Rotate(1, Ann, "t1", "d1"), Verified)
  {
    assert Others(Unexpired(Seated.tables.tokens, 0), "u") == map[];
  }

  lemma FirstAdmission()
    ensures Takes(Verified, Admit, Home) && Takes(Home, Join(2), Joined)
  {
    assert Next(Verified, Admit).seats == Home.seats;
  }

  lemma LoginLost()
    ensures Takes(Joined, Rotate(2, Ann, "t2", "d2"), Rotated) && Takes(Rotated, Abandon, Lost)
  {
    assert Others(Unexpired(Joined.tables.tokens, 0), "u") == map[];
  }

  /** Somebody logs in elsewhere and the connection goes away before the admission: the
      older session stays live, with time left on a proof that is no longer valid. */
  lemma AbandonedLogin() returns (run: seq<World>, steps: seq<Step>)
    ensures Run(run, steps) && |run| == 8 && run[7].gate.Free?
    ensures Live(run[7].seats, 1) && run[7].seats[1].proof == Some(First) && run[7].now < First.expires
    ensures !Valid(run[7].tables, First, run[7].now)
  {
    Registers();
    FirstIssue();
    FirstAdmission();
    LoginLost();
    hide Takes;
    steps := [Other(Register("u", "ann", "h", "Ann")), Join(1), Rotate(1, Ann, "t1", "d1"), Admit, Join(2),
              Rotate(2, Ann, "t2", "d2"), Abandon];
    run := [Empty, Registered, Seated, Verified, Home, Joined, Rotated, Lost];
    SessionProofs(run, steps, 7, 1);
  }
}
