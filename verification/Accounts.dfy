/** Accounts and their revocable logins as transactions on two tables
    (internal/accounts/store.go). */
module Accounts {
  import opened Common
  import opened Resources

  const TOKEN_LIFETIME: int := 30 * 24 * 3600
  const MAX_ACCOUNTS: nat := 10000

  datatype AccountRow = AccountRow(username: string, hash: string, nickname: string, version: nat)

  datatype TokenRow = TokenRow(uid: string, digest: string, expires: int, version: nat)

  /** The tables by primary key. */
  datatype Tables = Tables(accounts: map<string, AccountRow>, tokens: map<string, TokenRow>)

  datatype Account = Account(uid: string, username: string, nickname: string, version: nat)

  datatype Proof = Proof(account: Account, tokenId: string, expires: int)

  // ---- Reads --------------------------------------------------------------

  function AccountOf(uid: string, row: AccountRow): Account {
    Account(uid, row.username, row.nickname, row.version)
  }

  /** The join behind Token and Valid: a row that is unexpired and of the current version. */
  predicate Live(t: Tables, id: string, now: int) {
    && id in t.tokens && now < t.tokens[id].expires
    && t.tokens[id].uid in t.accounts && t.accounts[t.tokens[id].uid].version == t.tokens[id].version
  }

  predicate Valid(t: Tables, p: Proof, now: int) {
    && Live(t, p.tokenId, now)
    && t.tokens[p.tokenId].uid == p.account.uid && t.tokens[p.tokenId].version == p.account.version
  }

  function ProofOf(t: Tables, id: string): Proof
    requires id in t.tokens && t.tokens[id].uid in t.accounts
  {
    var row := t.tokens[id];
    Proof(AccountOf(row.uid, t.accounts[row.uid]), id, row.expires)
  }

  predicate Presents(t: Tables, id: string, digest: string, now: int) {
    Live(t, id, now) && t.tokens[id].digest == digest
  }

  // ---- Writes -------------------------------------------------------------

  function Unexpired(tokens: map<string, TokenRow>, now: int): map<string, TokenRow> {
    map id | id in tokens && now < tokens[id].expires :: tokens[id]
  }

  function Others(tokens: map<string, TokenRow>, uid: string): map<string, TokenRow> {
    map id | id in tokens && tokens[id].uid != uid :: tokens[id]
  }

  predicate DigestTaken(tokens: map<string, TokenRow>, digest: string) {
    exists id :: id in tokens && tokens[id].digest == digest
  }

  predicate NameTaken(accounts: map<string, AccountRow>, name: string) {
    exists uid :: uid in accounts && accounts[uid].username == name
  }

  predicate Current(t: Tables, a: Account) {
    a.uid in t.accounts && t.accounts[a.uid].version == a.version
  }

  datatype Op =
    | Issue(a: Account, id: string, digest: string)
    | Revoke(uid: string, id: string)
    | ReplacePassword(a: Account, hash: string)
    | UpdateProfile(a: Account, nickname: string)
    | Register(uid: string, name: string, hash: string, nickname: string)

  /** A transaction: the tables it commits, or nothing at all. */
  function Transact(t: Tables, op: Op, now: int): Option<Tables> {
    match op
    case Issue(a, id, digest) =>
      var rest := Others(Unexpired(t.tokens, now), a.uid);
      if !Current(t, a) || id in rest || DigestTaken(rest, digest) then None
      else Some(t.(tokens := rest[id := TokenRow(a.uid, digest, now + TOKEN_LIFETIME, a.version)]))
    case Revoke(uid, id) =>
      Some(t.(tokens := map k | k in t.tokens && !(k == id && t.tokens[k].uid == uid) :: t.tokens[k]))
    case ReplacePassword(a, hash) =>
      if !Current(t, a) then None
      else Some(Tables(t.accounts[a.uid := t.accounts[a.uid].(hash := hash, version := a.version + 1)],
                       Others(t.tokens, a.uid)))
    case UpdateProfile(a, nickname) =>
      if !Current(t, a) then None
      else Some(t.(accounts := t.accounts[a.uid := t.accounts[a.uid].(nickname := nickname)]))
    case Register(uid, name, hash, nickname) =>
      if uid in t.accounts || NameTaken(t.accounts, name) || |t.accounts| >= MAX_ACCOUNTS then None
      else Some(t.(accounts := t.accounts[uid := AccountRow(name, hash, nickname, 1)]))
  }

  function After(t: Tables, op: Op, now: int): Tables {
    match Transact(t, op, now)
    case Some(next) => next
    case None => t
  }

  // ---- What every transaction keeps ---------------------------------------

  /** Every token row belongs to an account and carries its current version. */
  ghost predicate Versioned(t: Tables) {
    forall id :: id in t.tokens ==>
      t.tokens[id].uid in t.accounts && t.accounts[t.tokens[id].uid].version == t.tokens[id].version
  }

  /** At most one token row per account. */
  ghost predicate Sole(t: Tables) {
    forall a, b :: a in t.tokens && b in t.tokens && t.tokens[a].uid == t.tokens[b].uid ==> a == b
  }

  /** No two rows answer to the same secret. */
  ghost predicate Telling(t: Tables) {
    forall a, b :: a in t.tokens && b in t.tokens && t.tokens[a].digest == t.tokens[b].digest ==> a == b
  }

  ghost predicate Consistent(t: Tables) {
    Versioned(t) && Sole(t) && Telling(t)
  }

  lemma TransactKeeps(t: Tables, op: Op, now: int)
    requires Consistent(t)
    ensures Consistent(After(t, op, now))
  {
  }

  /** What a transaction may do to a token row that exists: keep it as it is or delete it. */
  lemma RowsAreFixed(t: Tables, op: Op, now: int, id: string)
    requires op.Issue? ==> op.id != id
    ensures var t' := After(t, op, now);
      id in t'.tokens ==> id in t.tokens && t'.tokens[id] == t.tokens[id]
  {
  }

  /** The transactions that end a login: a new one for the account, its revocation, or a
      password change. */
  predicate Ends(t: Tables, op: Op, now: int, uid: string, id: string) {
    && Transact(t, op, now).Some?
    && ((op.Issue? && op.a.uid == uid) || (op.Revoke? && op.uid == uid && op.id == id)
        || (op.ReplacePassword? && op.a.uid == uid))
  }

  /** One transaction, exactly: a valid login stays valid unless it is ended or expires,
      and an invalid one stays invalid. */
  lemma ValidAfter(t: Tables, op: Op, now: int, later: int, p: Proof)
    requires Consistent(t) && now <= later && (op.Issue? ==> op.id != p.tokenId)
    ensures Valid(After(t, op, now), p, later) <==>
      Valid(t, p, now) && !Ends(t, op, now, p.account.uid, p.tokenId)
      && later < t.tokens[p.tokenId].expires
  {
    RowsAreFixed(t, op, now, p.tokenId);
  }

  // ---- What each transaction comes to -------------------------------------

  /** A password change commits exactly for the current version; it stores the new hash under the
      next version, ends the account's logins, and leaves everything else. */
  lemma ReplaceExactly(t: Tables, a: Account, hash: string, now: int)
    ensures var out := Transact(t, ReplacePassword(a, hash), now);
      && (out.Some? <==> a.uid in t.accounts && t.accounts[a.uid].version == a.version)
      && (out.Some? ==>
            && out.value.accounts.Keys == t.accounts.Keys
            && (forall uid :: uid in t.accounts && uid != a.uid ==> out.value.accounts[uid] == t.accounts[uid])
            && var row, was := out.value.accounts[a.uid], t.accounts[a.uid];
            && row.hash == hash && row.version == was.version + 1
            && row.username == was.username && row.nickname == was.nickname
            && forall id :: id in out.value.tokens <==> id in t.tokens && t.tokens[id].uid != a.uid)
      && (out.Some? ==> forall id :: id in out.value.tokens ==> out.value.tokens[id] == t.tokens[id])
  {
  }

  /** A profile change commits exactly for the current version and changes the nickname only. */
  lemma ProfileExactly(t: Tables, a: Account, nickname: string, now: int)
    ensures var out := Transact(t, UpdateProfile(a, nickname), now);
      && (out.Some? <==> a.uid in t.accounts && t.accounts[a.uid].version == a.version)
      && (out.Some? ==>
            && out.value.tokens == t.tokens && out.value.accounts.Keys == t.accounts.Keys
            && (forall uid :: uid in t.accounts && uid != a.uid ==> out.value.accounts[uid] == t.accounts[uid])
            && var row, was := out.value.accounts[a.uid], t.accounts[a.uid];
            && row.nickname == nickname && row.hash == was.hash
            && row.username == was.username && row.version == was.version)
  {
  }

  /** A registration commits exactly for a new ID and name while there are less than 10,000
      accounts, and adds exactly that account in its first version. */
  lemma RegisterExactly(t: Tables, uid: string, name: string, hash: string, nickname: string, now: int)
    ensures var unused := forall other :: other in t.accounts ==> t.accounts[other].username != name;
      Transact(t, Register(uid, name, hash, nickname), now).Some?
      <==> uid !in t.accounts && |t.accounts| < 10000 && unused
    ensures Transact(t, Register(uid, name, hash, nickname), now).Some? ==>
      Transact(t, Register(uid, name, hash, nickname), now).value
        == t.(accounts := t.accounts[uid := AccountRow(name, hash, nickname, 1)])
  {
    hide NameTaken;
    NameTakenExactly(t.accounts, name);
  }

  lemma NameTakenExactly(accounts: map<string, AccountRow>, name: string)
    ensures !NameTaken(accounts, name) <==> forall other :: other in accounts ==> accounts[other].username != name
  {
  }

  /** An issue commits exactly for the current version when no other unexpired login has the ID or
      the digest; it leaves the other accounts' unexpired logins and adds one of 30 days. */
  lemma IssueExactly(t: Tables, a: Account, id: string, digest: string, now: int)
    ensures var out := Transact(t, Issue(a, id, digest), now);
      && (out.Some? <==>
            && a.uid in t.accounts && t.accounts[a.uid].version == a.version
            && forall k :: k in t.tokens && now < t.tokens[k].expires && t.tokens[k].uid != a.uid ==>
                 k != id && t.tokens[k].digest != digest)
      && (out.Some? ==>
            && out.value.accounts == t.accounts && id in out.value.tokens
            && out.value.tokens[id] == TokenRow(a.uid, digest, now + 30 * 24 * 3600, a.version)
            && forall k :: k != id ==>
                 (k in out.value.tokens <==> k in t.tokens && now < t.tokens[k].expires && t.tokens[k].uid != a.uid)
                 && (k in out.value.tokens ==> out.value.tokens[k] == t.tokens[k]))
  {
    var rest := Others(Unexpired(t.tokens, now), a.uid);
    assert forall k :: k in rest <==> k in t.tokens && now < t.tokens[k].expires && t.tokens[k].uid != a.uid;
  }

  /** A revocation always commits and deletes exactly that login, if it is the account's. */
  lemma RevokeExactly(t: Tables, uid: string, id: string, now: int)
    ensures var out := Transact(t, Revoke(uid, id), now);
      && out.Some? && out.value.accounts == t.accounts
      && (forall k :: k in out.value.tokens <==> k in t.tokens && !(k == id && t.tokens[k].uid == uid))
      && forall k :: k in out.value.tokens ==> out.value.tokens[k] == t.tokens[k]
  {
  }

  // ---- Runs ---------------------------------------------------------------

  /** The tables, the clock, and every token ID ever drawn. */
  datatype State = State(tables: Tables, now: int, used: set<string>)

  datatype Step = Step(op: Op, at: int)

  /** IDs are random, so a new one was never drawn before; clocks do not go back. */
  ghost predicate Takes(s: State, step: Step, s': State) {
    && s.now <= step.at && (step.op.Issue? ==> step.op.id !in s.used)
    && s' == State(After(s.tables, step.op, step.at), step.at,
                   if step.op.Issue? then s.used + {step.op.id} else s.used)
  }

  ghost predicate Run(run: seq<State>, steps: seq<Step>) {
    && |run| == |steps| + 1
    && run[0].tables == Tables(map[], map[]) && run[0].used == {}
    && forall i :: 0 <= i < |steps| ==> Takes(run[i], steps[i], run[i + 1])
  }

  ghost predicate Inv(s: State) {
    Consistent(s.tables) && forall id :: id in s.tables.tokens ==> id in s.used
  }

  lemma StepKeeps(s: State, step: Step, s': State)
    requires Inv(s) && Takes(s, step, s')
    ensures Inv(s') && s.used <= s'.used
  {
    TransactKeeps(s.tables, step.op, step.at);
    forall id | id in s'.tables.tokens ensures id in s'.used {
      if !(step.op.Issue? && step.op.id == id) {
        RowsAreFixed(s.tables, step.op, step.at, id);
      }
    }
  }

  /** In every run there is at most one token row per account, and it carries the
      account's current version. */
  lemma {:induction false} OneTokenEach(run: seq<State>, steps: seq<Step>, i: nat)
    requires Run(run, steps) && i <= |steps|
    ensures Inv(run[i])
  {
    if i > 0 {
      OneTokenEach(run, steps, i - 1);
      assert Takes(run[i - 1], steps[i - 1], run[i - 1 + 1]);
      StepKeeps(run[i - 1], steps[i - 1], run[i]);
    }
  }

  lemma {:induction false} UsedGrows(run: seq<State>, steps: seq<Step>, i: nat, j: nat)
    requires Run(run, steps) && i <= j <= |steps|
    ensures run[i].used <= run[j].used && run[i].now <= run[j].now
    decreases j
  {
    if i < j {
      UsedGrows(run, steps, i, j - 1);
      assert Takes(run[j - 1], steps[j - 1], run[j - 1 + 1]);
    }
  }

  /** Nothing from step i up to step j ended the login. */
  ghost predicate Undisturbed(run: seq<State>, steps: seq<Step>, i: nat, j: nat, uid: string, id: string)
    requires |run| == |steps| + 1 && i <= j <= |steps|
  {
    forall k :: i <= k < j ==> !Ends(run[k].tables, steps[k].op, steps[k].at, uid, id)
  }

  /** Over any run, a login valid at i is valid at j exactly when nothing ended it in
      between and it has not expired; one invalid at i is invalid from then on. */
  lemma {:induction false} ValidExactly(run: seq<State>, steps: seq<Step>, i: nat, j: nat, p: Proof)
    requires Run(run, steps) && i <= j <= |steps| && p.tokenId in run[i].used
    ensures Valid(run[j].tables, p, run[j].now) <==>
      Valid(run[i].tables, p, run[i].now)
      && Undisturbed(run, steps, i, j, p.account.uid, p.tokenId)
      && run[j].now < run[i].tables.tokens[p.tokenId].expires
    ensures Valid(run[j].tables, p, run[j].now) ==>
      run[j].tables.tokens[p.tokenId] == run[i].tables.tokens[p.tokenId]
    decreases j
  {
    if i < j {
      var k := j - 1;
      ValidExactly(run, steps, i, k, p);
      OneTokenEach(run, steps, k);
      UsedGrows(run, steps, i, k);
      assert Takes(run[k], steps[k], run[k + 1]);
      ValidAfter(run[k].tables, steps[k].op, steps[k].at, run[j].now, p);
    }
  }

  /** Once invalid, never valid again. */
  lemma NeverRevived(run: seq<State>, steps: seq<Step>, i: nat, j: nat, p: Proof)
    requires Run(run, steps) && i <= j <= |steps| && p.tokenId in run[i].used
    requires !Valid(run[i].tables, p, run[i].now)
    ensures !Valid(run[j].tables, p, run[j].now)
  {
    ValidExactly(run, steps, i, j, p);
  }

  /** The last committed password change, or else the row as it was, gives the hash. */
  function HashAt(run: seq<State>, steps: seq<Step>, i: nat, j: nat, uid: string): string
    requires |run| == |steps| + 1 && i <= j <= |steps| && uid in run[i].tables.accounts
    decreases j
  {
    if i == j then run[i].tables.accounts[uid].hash else
    var op := steps[j - 1].op;
    if op.ReplacePassword? && op.a.uid == uid && Transact(run[j - 1].tables, op, steps[j - 1].at).Some? then op.hash
    else HashAt(run, steps, i, j - 1, uid)
  }

  lemma HashStep(t: Tables, op: Op, now: int, uid: string)
    requires uid in t.accounts
    ensures var t' := After(t, op, now);
      && uid in t'.accounts && t'.accounts[uid].username == t.accounts[uid].username
      && t'.accounts[uid].hash
           == if op.ReplacePassword? && op.a.uid == uid && Transact(t, op, now).Some? then op.hash
              else t.accounts[uid].hash
  {
  }

  /** In every run an account's password is the one of its last committed change, and its name
      never changes. */
  lemma {:induction false} PasswordStands(run: seq<State>, steps: seq<Step>, i: nat, j: nat, uid: string)
    requires Run(run, steps) && i <= j <= |steps| && uid in run[i].tables.accounts
    ensures uid in run[j].tables.accounts
    ensures run[j].tables.accounts[uid].hash == HashAt(run, steps, i, j, uid)
    ensures run[j].tables.accounts[uid].username == run[i].tables.accounts[uid].username
    decreases j
  {
    hide Transact;
    if i < j {
      PasswordStands(run, steps, i, j - 1, uid);
      assert Takes(run[j - 1], steps[j - 1], run[j - 1 + 1]);
      HashStep(run[j - 1].tables, steps[j - 1].op, steps[j - 1].at, uid);
    }
  }

  // ---- Verify, then issue -------------------------------------------------

  /** A version never goes back, and a password change moves it on. */
  lemma VersionStep(t: Tables, op: Op, now: int, uid: string)
    requires uid in t.accounts
    ensures var t' := After(t, op, now);
      && uid in t'.accounts && t.accounts[uid].version <= t'.accounts[uid].version
      && (op.ReplacePassword? && op.a.uid == uid && Transact(t, op, now).Some? ==>
            t.accounts[uid].version < t'.accounts[uid].version)
  {
  }

  lemma {:induction false} VersionGrows(run: seq<State>, steps: seq<Step>, i: nat, j: nat, uid: string)
    requires Run(run, steps) && i <= j <= |steps| && uid in run[i].tables.accounts
    ensures uid in run[j].tables.accounts
    ensures run[i].tables.accounts[uid].version <= run[j].tables.accounts[uid].version
    decreases j
  {
    if i < j {
      VersionGrows(run, steps, i, j - 1, uid);
      assert Takes(run[j - 1], steps[j - 1], run[j - 1 + 1]);
      VersionStep(run[j - 1].tables, steps[j - 1].op, steps[j - 1].at, uid);
    }
  }

  /** Credentials checked before a password change buy no login after it. */
  lemma StaleVerification(
    run: seq<State>, steps: seq<Step>, i: nat, k: nat, j: nat, a: Account, id: string, digest: string)
    requires Run(run, steps) && i <= k < j <= |steps| && Current(run[i].tables, a)
    requires steps[k].op.ReplacePassword? && steps[k].op.a.uid == a.uid
    requires Transact(run[k].tables, steps[k].op, steps[k].at).Some?
    ensures Transact(run[j].tables, Issue(a, id, digest), run[j].now).None?
  {
    VersionGrows(run, steps, i, k, a.uid);
    assert Takes(run[k], steps[k], run[k + 1]);
    VersionStep(run[k].tables, steps[k].op, steps[k].at, a.uid);
    VersionGrows(run, steps, k + 1, j, a.uid);
  }

  /** What was just issued is found by its secret, is valid, and is the account's only login. */
  lemma IssuedIsFound(t: Tables, a: Account, id: string, digest: string, now: int)
    requires Consistent(t) && Transact(t, Issue(a, id, digest), now).Some?
    ensures var t' := Transact(t, Issue(a, id, digest), now).value;
      && Presents(t', id, digest, now)
      && ProofOf(t', id) == Proof(AccountOf(a.uid, t.accounts[a.uid]), id, now + TOKEN_LIFETIME)
      && Valid(t', ProofOf(t', id), now)
      && (forall k :: Presents(t', k, digest, now) ==> k == id)
      && (forall p: Proof :: p.account.uid == a.uid && Valid(t', p, now) ==> p.tokenId == id)
  {
    TransactKeeps(t, Issue(a, id, digest), now);
  }

  // ---- The store ----------------------------------------------------------

  class Store {
    var accounts: map<string, AccountRow>
    var tokens: map<string, TokenRow>

    ghost function Contents(): (t: Tables)
      reads this
    {
      Tables(accounts, tokens)
    }

    constructor ()
      ensures Contents() == Tables(map[], map[]) && Consistent(Contents())
    {
      accounts, tokens := map[], map[];
    }

    /** Rotates the account's only login; every failure rolls the transaction back. */
    method IssueToken(a: Account, id: string, digest: string, now: int) returns (proof: Option<Proof>)
      requires Consistent(Contents())
      modifies this`tokens
      ensures Consistent(Contents())
      ensures Contents() == After(old(Contents()), Issue(a, id, digest), now)
      ensures proof.Some? <==> Transact(old(Contents()), Issue(a, id, digest), now).Some?
      ensures proof.Some? ==> proof.value == Proof(a, id, now + TOKEN_LIFETIME) && Valid(Contents(), proof.value, now)
    {
      TransactKeeps(Contents(), Issue(a, id, digest), now);
      var rollback := tokens;
      tokens := Unexpired(tokens, now);
      if a.uid !in accounts || accounts[a.uid].version != a.version {
        tokens := rollback;
        return None;
      }
      tokens := Others(tokens, a.uid);
      var expires := now + TOKEN_LIFETIME;
      if id in tokens || DigestTaken(tokens, digest) {
        tokens := rollback;
        return None;
      }
      tokens := tokens[id := TokenRow(a.uid, digest, expires, a.version)];
      return Some(Proof(a, id, expires));
    }

    /** The login a secret stands for: there is never more than one. */
    method Token(wellFormed: bool, digest: string, now: int) returns (proof: Option<Proof>)
      requires Consistent(Contents())
      ensures proof.Some? ==>
        && Valid(Contents(), proof.value, now)
        && Presents(Contents(), proof.value.tokenId, digest, now)
        && proof.value == ProofOf(Contents(), proof.value.tokenId)
      ensures proof.None? <==> !wellFormed || !exists id :: Presents(Contents(), id, digest, now)
    {
      if !wellFormed {
        return None;
      }
      var todo := tokens.Keys;
      while todo != {}
        invariant todo <= tokens.Keys
        invariant forall id :: id in tokens && id !in todo ==> !Presents(Contents(), id, digest, now)
        decreases todo
      {
        var id :| id in todo;
        todo := todo - {id};
        var row := tokens[id];
        if row.digest == digest && row.expires > now
          && row.uid in accounts && accounts[row.uid].version == row.version
        {
          assert Presents(Contents(), id, digest, now);
          return Some(Proof(AccountOf(row.uid, accounts[row.uid]), id, row.expires));
        }
      }
      return None;
    }

    method IsValid(p: Proof, now: int) returns (ok: bool)
      ensures ok == Valid(Contents(), p, now)
    {
      if p.tokenId !in tokens {
        return false;
      }
      var row := tokens[p.tokenId];
      return row.uid == p.account.uid && row.expires > now && row.version == p.account.version
        && row.uid in accounts && accounts[row.uid].version == row.version;
    }

    method RevokeToken(uid: string, id: string)
      requires Consistent(Contents())
      modifies this`tokens
      ensures Consistent(Contents())
      ensures Contents() == After(old(Contents()), Revoke(uid, id), 0)
    {
      TransactKeeps(Contents(), Revoke(uid, id), 0);
      if id in tokens && tokens[id].uid == uid {
        tokens := tokens - {id};
      }
      assert tokens == After(old(Contents()), Revoke(uid, id), 0).tokens;
    }

    method ChangePassword(a: Account, hash: string) returns (changed: Option<Account>)
      requires Consistent(Contents())
      modifies this
      ensures Consistent(Contents())
      ensures Contents() == After(old(Contents()), ReplacePassword(a, hash), 0)
      ensures changed.Some? ==>
        && Current(Contents(), changed.value)
        && forall p: Proof, now: int :: p.account.uid == a.uid ==> !Valid(Contents(), p, now)
      ensures changed.None? <==> !Current(old(Contents()), a)
    {
      TransactKeeps(Contents(), ReplacePassword(a, hash), 0);
      if a.uid !in accounts || accounts[a.uid].version != a.version {
        return None;
      }
      accounts := accounts[a.uid := accounts[a.uid].(hash := hash, version := accounts[a.uid].version + 1)];
      tokens := Others(tokens, a.uid);
      return Some(a.(version := a.version + 1));
    }
  }
}
