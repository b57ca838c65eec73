/** When each order on the management record is drafted, and what the draft changes
    (internal/server/ownership.go, authorization.go, admin_members.go, store.go). */
module OrderOutcomes {
  import opened Common
  import opened Resources
  import opened Governance
  import opened MemberOutcomes

  /** A well-formed identity that is not banned and owns the server. */
  predicate Commands(r: Record, actor: string, now: int) {
    ValidIdentity(actor) && !InForce(r, actor, now) && IsOwner(r, actor)
  }

  // ---- The owner ----------------------------------------------------------

  /** A code is provisioned only for an unowned record, and replaces another only when asked
      to; it lasts a day. It is redeemed only while it lasts, by a match, for an unowned record. */
  lemma ClaimsExactly(r: Record, replace: bool, digest: string, identity: string, matches: bool, now: int)
    ensures Draft(r, ProvisionClaim(replace, digest), now)
      == if r.owner == "" && (replace || r.claim.None?)
         then Some(r.(claim := Some(Claim(digest, now + 86_400 * 1_000_000_000)))) else None
    ensures Draft(r, ClaimOwner(identity, matches), now)
      == if ValidIdentity(identity) && r.owner == "" && matches && r.claim.Some? && now < r.claim.value.expires
         then Some(r.(owner := identity, claim := None)) else None
  {
  }

  // ---- Admins -------------------------------------------------------------

  ghost predicate Ascending(ids: seq<string>) {
    forall i, j :: 0 <= i < j < |ids| ==> AtMost(ids[i], ids[j])
  }

  predicate LessAt(a: string, b: string, i: nat) {
    i < |a| && i < |b| && a[..i] == b[..i] && a[i] < b[i]
  }

  lemma LessAtTail(a: string, b: string, i: nat)
    requires a != [] && b != [] && a[0] == b[0]
    ensures LessAt(a[1..], b[1..], i) <==> LessAt(a, b, i + 1)
    ensures !LessAt(a, b, 0)
  {
    if i < |a| - 1 && i < |b| - 1 {
      assert a[..i + 1] == [a[0]] + a[1..][..i] && b[..i + 1] == [b[0]] + b[1..][..i];
    }
  }

  lemma LessAtHead(a: string, b: string, i: nat)
    requires a != [] && b != [] && a[0] != b[0]
    ensures LessAt(a, b, i) <==> i == 0 && a[0] < b[0]
  {
    if 0 < i < |a| && i < |b| {
      assert a[..i][0] == a[0] && b[..i][0] == b[0];
    } else if i == 0 {
      assert a[..0] == b[..0];
    }
  }

  /** The order of strings: by the first place where they differ, a prefix first. */
  lemma {:induction false} AtMostExactly(a: string, b: string)
    ensures AtMost(a, b) <==> a <= b || exists i: nat :: LessAt(a, b, i)
  {
    hide LessAt;
    if a != [] && b != [] {
      if a[0] == b[0] {
        AtMostExactly(a[1..], b[1..]);
        LessAtTail(a, b, 0);
        PrefixTail(a, b);
        if i: nat :| LessAt(a, b, i) {
          LessAtTail(a, b, i - 1);
        }
        if i: nat :| LessAt(a[1..], b[1..], i) {
          LessAtTail(a, b, i);
        }
      } else {
        LessAtHead(a, b, 0);
        if i: nat :| LessAt(a, b, i) {
          LessAtHead(a, b, i);
        }
      }
    } else {
      EmptyLess(a, b);
    }
  }

  lemma PrefixTail(a: string, b: string)
    requires a != [] && b != [] && a[0] == b[0]
    ensures a <= b <==> a[1..] <= b[1..]
  {
    assert a == [a[0]] + a[1..] && b == [b[0]] + b[1..];
  }

  lemma EmptyLess(a: string, b: string)
    requires a == [] || b == []
    ensures forall i: nat :: !LessAt(a, b, i)
  {
  }

  lemma {:induction false} AtMostTotal(a: string, b: string)
    ensures AtMost(a, b) || AtMost(b, a)
  {
    if a != [] && b != [] && a[0] == b[0] {
      AtMostTotal(a[1..], b[1..]);
    }
  }

  lemma {:induction false} AtMostComposes(a: string, b: string, c: string)
    requires AtMost(a, b) && AtMost(b, c)
    ensures AtMost(a, c)
  {
    if a != [] && a[0] == b[0] && b[0] == c[0] {
      AtMostComposes(a[1..], b[1..], c[1..]);
    }
  }

  lemma {:induction false} InsertedAscends(ids: seq<string>, x: string)
    requires Ascending(ids)
    ensures Ascending(Inserted(ids, x))
  {
    if ids != [] {
      AtMostTotal(x, ids[0]);
      if AtMost(x, ids[0]) {
        forall j | 0 <= j < |ids| ensures AtMost(x, ids[j]) {
          if j > 0 {
            AtMostComposes(x, ids[0], ids[j]);
          }
        }
      } else {
        var rest := Inserted(ids[1..], x);
        InsertedAscends(ids[1..], x);
        forall j | 0 <= j < |rest| ensures AtMost(ids[0], rest[j]) {
          assert rest[j] in rest;
          if rest[j] != x {
            var k :| 0 <= k < |ids[1..]| && ids[1..][k] == rest[j];
            assert ids[k + 1] == rest[j];
          }
        }
        assert Inserted(ids, x) == [ids[0]] + rest;
      }
    }
  }

  lemma {:induction false} SortedAscends(ids: seq<string>)
    ensures Ascending(Sorted(ids))
  {
    if ids != [] {
      SortedAscends(ids[1..]);
      InsertedAscends(Sorted(ids[1..]), ids[0]);
    }
  }

  lemma WithoutFirst(ids: seq<string>, x: string)
    requires ids != []
    ensures Without(ids, x) == (if ids[0] == x then [] else [ids[0]]) + Without(ids[1..], x)
  {
  }

  lemma {:induction false} WithoutKeepsOrder(front: seq<string>, x: string, back: seq<string>)
    requires x !in front && x !in back
    ensures Without(front + [x] + back, x) == front + back && Without(front + back, x) == front + back
  {
    hide Without;
    if front == [] {
      assert [] + [x] + back == [x] + back && [] + back == back;
      assert ([x] + back)[1..] == back;
      WithoutFirst([x] + back, x);
      NothingGone(back, x);
    } else {
      WithoutKeepsOrder(front[1..], x, back);
      assert (front + [x] + back)[1..] == front[1..] + [x] + back && (front + back)[1..] == front[1..] + back;
      WithoutFirst(front + [x] + back, x);
      WithoutFirst(front + back, x);
    }
  }

  lemma {:induction false} NothingGone(ids: seq<string>, x: string)
    requires x !in ids
    ensures Without(ids, x) == ids
  {
    if ids != [] {
      NothingGone(ids[1..], x);
    }
  }

  predicate MayAssign(r: Record, identity: string, role: Role, now: int) {
    && ValidIdentity(identity) && identity != r.owner
    && (role == Member || (role == Admin && !InForce(r, identity, now) && (identity in r.admins || |r.admins| < 64)))
  }

  /** The owner gives and takes the admin role: not to itself, not to somebody banned, and to 64
      at most. The new list differs by that identity alone, and is in ascending order after
      somebody was added. */
  lemma RoleExactly(r: Record, actor: string, identity: string, role: Role, now: int)
    ensures Draft(r, SetRole(actor, identity, role), now).Some?
      <==> Commands(r, actor, now) && MayAssign(r, identity, role, now)
    ensures Draft(r, SetRole(actor, identity, role), now).Some? ==>
      var after := Draft(r, SetRole(actor, identity, role), now).value;
      && after == r.(admins := after.admins)
      && (forall x :: x in after.admins <==> if x == identity then role == Admin else x in r.admins)
      && (role == Admin ==> Ascending(after.admins))
  {
    hide Authorized, Without, Sorted, Ascending, ValidIdentity, Commands;
    OwnerOrders(r, actor, now);
    SortedAscends(Without(r.admins, identity) + [identity]);
  }

  lemma OwnerOrders(r: Record, actor: string, now: int)
    ensures Authorized(r, actor, now, Roles, Write, Anything) <==> Commands(r, actor, now)
  {
    PolicyExactly(r, actor, now, Roles, Write, Anything);
  }

  /** Taking the role away leaves the others in their order. */
  lemma RoleTaken(
    r: Record, actor: string, identity: string, now: int, front: seq<string>, mid: seq<string>, back: seq<string>)
    requires r.admins == front + mid + back && identity !in front && identity !in back && mid in {[], [identity]}
    requires Draft(r, SetRole(actor, identity, Member), now).Some?
    ensures Draft(r, SetRole(actor, identity, Member), now).value.admins == front + back
  {
    hide Authorized, Without;
    WithoutKeepsOrder(front, identity, back);
    assert front + [] + back == front + back;
  }

  // ---- Bans ---------------------------------------------------------------

  /** The list is gone through one by one: what has run out and what concerns the identity goes. */
  lemma {:induction false} LiveBansJoin(a: seq<Ban>, b: seq<Ban>, identity: string, now: int)
    ensures LiveBans(a + b, identity, now) == LiveBans(a, identity, now) + LiveBans(b, identity, now)
  {
    hide LiveBans;
    if a == [] {
      assert [] + b == b;
      LiveBansNone(identity, now);
    } else {
      LiveBansJoin(a[1..], b, identity, now);
      assert (a + b)[1..] == a[1..] + b && (a + b)[0] == a[0];
      LiveBansFirst(a, identity, now);
      LiveBansFirst(a + b, identity, now);
    }
  }

  lemma LiveBansOne(b: Ban, identity: string, now: int)
    ensures LiveBans([b], identity, now) == if b.identity != identity && now < b.expires then [b] else []
  {
    assert [b][1..] == [];
  }

  /** The owner bans anyone but itself for a minute to a year, with a valid reason, while less
      than 256 other bans run, and lifts bans without these conditions. */
  lemma BanExactly(r: Record, actor: string, identity: string, reason: Text, ttl: int, lift: bool, now: int)
    ensures var rest := LiveBans(r.bans, identity, now);
      Draft(r, SetBan(actor, identity, reason, ttl, lift), now)
        == if !Commands(r, actor, now) || !ValidIdentity(identity) || identity == r.owner then None
           else if lift then Some(r.(bans := rest))
           else if 60 * 1_000_000_000 <= ttl <= 365 * 86_400 * 1_000_000_000 && ValidReason(reason) && |rest| < 256
           then Some(r.(bans := rest + [Ban(identity, reason, now + ttl)])) else None
  {
    hide LiveBans;
    PolicyExactly(r, actor, now, Bans, Write, Holder(RoleOf(r, identity)));
  }

  // ---- Settings and channels ----------------------------------------------

  /** Settings: the owner's, valid, and for at least as many clients as are connected; the first
      ones are never overwritten. Channels: by anyone of staff. */
  lemma SettingsExactly(
    r: Record, actor: string, settings: Settings, connected: int, channels: ChannelRecord, now: int)
    ensures Draft(r, PutSettings(actor, settings, connected), now)
      == if Commands(r, actor, now) && ValidSettings(settings) && connected <= settings.maxClients
         then Some(r.(settings := Some(settings))) else None
    ensures Draft(r, InitializeSettings(settings), now)
      == if !ValidSettings(settings) then None
         else if r.settings.Some? then Some(r) else Some(r.(settings := Some(settings)))
    ensures Draft(r, InitializeAuthentication, now) == Some(r.(authInitialized := true))
    ensures Draft(r, PutChannels(actor, channels), now)
      == if ValidIdentity(actor) && !InForce(r, actor, now) && IsStaff(r, actor)
         then Some(r.(channels := channels)) else None
  {
    PolicyExactly(r, actor, now, ServerSettings, Write, Anything);
    PolicyExactly(r, actor, now, Channels, Write, Anything);
  }
}
