/** Runs of the OAuth tables: any interleaving of committed transactions, retention, the clock and the environment. */
module OAuthRuns {
  import opened Common
  import opened OAuth

  datatype Step =
    // guarded grant transactions, each with the arguments some earlier lookup produced
    | LoadRefresh(g: Id, t: Id, c: Id)
    | RefreshToken(g: Id, t: Id, c: Id, scopes: seq<Scope>, ids: NewPair)
    | RevokeOne(g: Id, t: Id, c: Id)
    | RevokeGrant(g: Id, reason: Reason)
    // authorization codes
    | Authorize(code: Id, c: Id, scopes: seq<Scope>, ttl: int)
    | Approve(code: Id, org: Id, user: Id, wanted: set<Scope>)
    | Deny(code: Id, user: Id)
    | ExchangeCode(code: Id, g: Id, ids: NewPair)
    | PresentCode(code: Id)
    // retention and the environment
    | Purge
    | Tick(seconds: nat)
    | AddOrg(org: Id)
    | AddUser(user: Id)
    | SetRole(org: Id, user: Id, role: Role)
    | EndMembership(org: Id, user: Id)
    | DeleteOrg(org: Id)
    | DeleteUser(user: Id)
    | RegisterClient(c: Id)
    | RevokeClient(c: Id)

  function AuthorizeTx(db: Db, code: Id, c: Id, scopes: seq<Scope>, ttl: int): Db {
    if c !in db.clients then db
    else db.(codes := db.codes[code := Code(c, None, None, scopes, Pending, db.now + ttl)])
  }

  /** A decision on a request in the cockpit succeeds only while it is pending and not expired. */
  predicate Decidable(db: Db, code: Id) {
    code in db.codes && db.codes[code].status == Pending && db.codes[code].expiresAt > db.now
  }

  function Chosen(grantable: seq<Scope>, wanted: set<Scope>): (r: seq<Scope>)
    ensures forall s :: s in r <==> s in grantable && s in wanted
  {
    if grantable == [] then []
    else (if grantable[0] in wanted then [grantable[0]] else []) + Chosen(grantable[1..], wanted)
  }

  function ApproveTx(db: Db, code: Id, org: Id, user: Id, wanted: set<Scope>): Db {
    if !Decidable(db, code) || (org, user) !in db.members then db
    else
      var granted := Chosen(GrantableScopes(db.codes[code].scopes, Some(db.members[(org, user)])), wanted);
      if granted == [] then db
      else db.(codes := db.codes[code := db.codes[code].(
                 status := Approved, orgId := Some(org), userId := Some(user), scopes := granted,
                 expiresAt := db.now + CODE_TTL)])
  }

  function DenyTx(db: Db, code: Id, user: Id): Db {
    if !Decidable(db, code) then db
    else db.(codes := db.codes[code := db.codes[code].(status := Denied, userId := Some(user))])
  }

  /** Everything of the organization goes with it (cascading foreign keys). */
  function DeleteOrgTx(db: Db, org: Id): Db {
    db.(orgs := db.orgs - {org},
        members := map k | k in db.members && k.0 != org :: db.members[k],
        codes := map c | c in db.codes && db.codes[c].orgId != Some(org) :: db.codes[c],
        tokens := map t | t in db.tokens && db.tokens[t].orgId != org :: db.tokens[t],
        grants := map g | g in db.grants && db.grants[g].orgId != org :: db.grants[g])
  }

  function Without(user: Option<Id>, gone: Id): Option<Id> { if user == Some(gone) then None else user }

  /** Memberships go with the user; codes, grants and tokens keep their row without a user. */
  function DeleteUserTx(db: Db, user: Id): Db {
    db.(users := db.users - {user},
        members := map k | k in db.members && k.1 != user :: db.members[k],
        codes := map c | c in db.codes :: db.codes[c].(userId := Without(db.codes[c].userId, user)),
        grants := map g | g in db.grants :: db.grants[g].(userId := Without(db.grants[g].userId, user)),
        tokens := map t | t in db.tokens :: db.tokens[t].(userId := Without(db.tokens[t].userId, user)))
  }

  /** The tables after a step. */
  ghost function Apply(db: Db, s: Step): Db {
    match s
    case LoadRefresh(g, t, c) => LoadRefreshTx(db, g, t, c)
    case RefreshToken(g, t, c, scopes, ids) => RefreshTx(db, g, t, c, scopes, ids).0
    case RevokeOne(g, t, c) => RevokeTokenTx(db, g, t, c)
    case RevokeGrant(g, reason) => RevokeGrantTx(db, g, reason)
    case Authorize(code, c, scopes, ttl) => AuthorizeTx(db, code, c, scopes, ttl)
    case Approve(code, org, user, wanted) => ApproveTx(db, code, org, user, wanted)
    case Deny(code, user) => DenyTx(db, code, user)
    case ExchangeCode(code, g, ids) => ExchangeCodeTx(db, code, g, ids).0
    case PresentCode(code) => PresentCodeTx(db, code)
    case Purge => PurgeTx(db)
    case Tick(d) => db.(now := db.now + d)
    case AddOrg(org) => db.(orgs := db.orgs + {org})
    case AddUser(user) => db.(users := db.users + {user})
    case SetRole(org, user, role) =>
      if org in db.orgs && user in db.users then db.(members := db.members[(org, user) := role]) else db
    case EndMembership(org, user) => db.(members := db.members - {(org, user)})
    case DeleteOrg(org) => DeleteOrgTx(db, org)
    case DeleteUser(user) => DeleteUserTx(db, user)
    case RegisterClient(c) => db.(clients := db.clients[c := Client(db.now, None)])
    case RevokeClient(c) =>
      if c in db.clients then db.(clients := db.clients[c := db.clients[c].(revokedAt := Some(db.now))]) else db
  }

  // ------------------------------------------------------------------ history

  /** What a run has done so far, purged or not: every id ever used, the grant of every refresh token ever issued, and
      the grant and first refresh token of every code ever exchanged. */
  datatype Hist = Hist(used: set<Id>, refresh: map<Id, Id>, family: map<Id, (Id, Id)>)
  datatype Sys = Sys(db: Db, hist: Hist)

  predicate Distinct3(a: Id, b: Id, c: Id) { a != b && b != c && a != c }

  /** New rows get new ids (ULIDs), and token lifetimes come from validated settings. */
  predicate Enabled(s: Sys, a: Step) {
    match a
    case RefreshToken(_, _, _, _, ids) =>
      ids.refresh !in s.hist.used && ids.access !in s.hist.used && ids.refresh != ids.access && ids.ttl.Valid()
    case ExchangeCode(_, g, ids) =>
      g !in s.hist.used && ids.refresh !in s.hist.used && ids.access !in s.hist.used
      && Distinct3(g, ids.refresh, ids.access) && ids.ttl.Valid()
    case Authorize(code, _, _, _) => code !in s.hist.used
    case RegisterClient(c) => c !in s.db.clients
    case _ => true
  }

  ghost function NextHist(s: Sys, a: Step): Hist {
    match a
    case RefreshToken(g, t, c, scopes, ids) =>
      if RefreshTx(s.db, g, t, c, scopes, ids).1.Issued?
      then s.hist.(used := s.hist.used + {ids.refresh, ids.access}, refresh := s.hist.refresh[ids.refresh := g])
      else s.hist
    case ExchangeCode(code, g, ids) =>
      if ExchangeCodeTx(s.db, code, g, ids).1.Issued?
      then Hist(s.hist.used + {g, ids.refresh, ids.access}, s.hist.refresh[ids.refresh := g],
                s.hist.family[code := (g, ids.refresh)])
      else s.hist
    case Authorize(code, _, _, _) => s.hist.(used := s.hist.used + {code})
    case _ => s.hist
  }

  ghost function Next(s: Sys, a: Step): Sys { Sys(Apply(s.db, a), NextHist(s, a)) }

  ghost predicate EnabledRun(s: Sys, run: seq<Step>)
    decreases |run|
  {
    run == [] || (Enabled(s, run[0]) && EnabledRun(Next(s, run[0]), run[1..]))
  }

  ghost function Run(s: Sys, run: seq<Step>): Sys
    decreases |run|
  {
    if run == [] then s else Run(Next(s, run[0]), run[1..])
  }

  /** A deployment that starts: no codes, no grants, and tokens only from before grants existed. */
  ghost predicate Init(s: Sys) {
    && s.db.codes == map[] && s.db.grants == map[]
    && (forall t :: t in s.db.tokens ==> s.db.tokens[t].grantId.None? && s.db.tokens[t].clientId in s.db.clients)
    && s.hist.refresh == map[] && s.hist.family == map[]
    && s.db.tokens.Keys <= s.hist.used
    && (forall t :: t in s.db.tokens && s.db.tokens[t].parentId.Some? ==> s.db.tokens[t].parentId.value in s.hist.used)
  }

  // ------------------------------------------------------------------ the invariant

  ghost predicate Live(db: Db, t: Id)
    requires t in db.tokens
  {
    db.tokens[t].revokedAt.None? && !Expired(db.tokens[t], db.now)
  }

  /** No token of the grant can be used any more. */
  ghost predicate Dead(db: Db, g: Id) {
    forall t :: Of(db, t, g) ==> !Live(db, t)
  }

  /** Every refresh token ever issued under the grant is still stored. */
  ghost predicate Complete(s: Sys, g: Id) {
    forall r :: r in s.hist.refresh && s.hist.refresh[r] == g ==> r in s.db.tokens
  }

  ghost predicate RefreshRowOk(s: Sys, t: Id, g: Id)
    requires Of(s.db, t, g) && g in s.db.grants
  {
    var row := s.db.tokens[t];
    && row.scopes == s.db.grants[g].scopes
    && t in s.hist.refresh && s.hist.refresh[t] == g
    && row.expiresAt.Some? && row.createdAt + 3600 <= row.expiresAt.value
    && (row.rotatedAt.Some? ==> row.revokedAt.Some?)
    && (s.db.grants[g].revokedAt.None? && row.revokedAt.Some? ==> row.rotatedAt.Some?)
    && row.parentId.Some?
    && (var p := row.parentId.value;
        || (p in s.hist.family && s.hist.family[p] == (g, t))
        || (p in s.hist.refresh && s.hist.refresh[p] == g))
  }

  ghost predicate AccessRowOk(s: Sys, t: Id, g: Id)
    requires Of(s.db, t, g) && g in s.db.grants
  {
    var row := s.db.tokens[t];
    && Within(row.scopes, s.db.grants[g].scopes)
    && t !in s.hist.refresh
    && row.expiresAt.Some? && row.expiresAt.value <= row.createdAt + 86400
    && row.parentId.Some?
    && (var p := row.parentId.value;
        && p in s.hist.refresh && s.hist.refresh[p] == g
        && (p in s.db.tokens ==>
              && Of(s.db, p, g) && s.db.tokens[p].kind == Refresh && s.db.tokens[p].createdAt == row.createdAt
              && (row.revokedAt.None? ==> s.db.tokens[p].revokedAt.None?))
        && (Live(s.db, t) ==> p in s.db.tokens))
  }

  ghost predicate RowOk(s: Sys, t: Id, g: Id)
    requires Of(s.db, t, g) && g in s.db.grants
  {
    var row := s.db.tokens[t];
    var grant := s.db.grants[g];
    && row.clientId == grant.clientId && row.orgId == grant.orgId && row.userId == grant.userId
    && row.createdAt <= s.db.now
    && (grant.revokedAt.Some? ==> row.revokedAt.Some?)
    && (if row.kind == Refresh then RefreshRowOk(s, t, g) else AccessRowOk(s, t, g))
  }

  predicate OpenRefresh(db: Db, t: Id, g: Id) {
    Of(db, t, g) && db.tokens[t].kind == Refresh && db.tokens[t].revokedAt.None?
  }

  /** At most one refresh token of the grant is unrevoked. */
  ghost predicate OneRefresh(db: Db, g: Id) {
    forall t, u :: OpenRefresh(db, t, g) && OpenRefresh(db, u, g) ==> t == u
  }

  ghost predicate GrantOk(s: Sys, g: Id)
    requires g in s.db.grants
  {
    && (forall t :: Of(s.db, t, g) ==> RowOk(s, t, g))
    && OneRefresh(s.db, g)
    && (Complete(s, g) || Dead(s.db, g))
  }

  ghost predicate CodeOk(s: Sys, c: Id)
    requires c in s.db.codes
  {
    var code := s.db.codes[c];
    && (code.status == Exchanged <==> c in s.hist.family)
    && (code.status == Approved || code.status == Exchanged ==> code.orgId.Some?)
    && (c in s.hist.family ==>
          var g := s.hist.family[c].0;
          g in s.db.grants ==> s.db.grants[g].clientId == code.clientId && Some(s.db.grants[g].orgId) == code.orgId)
  }

  ghost predicate FamilyOk(s: Sys, c: Id)
    requires c in s.hist.family
  {
    var (g, r) := s.hist.family[c];
    && r in s.hist.refresh && s.hist.refresh[r] == g
    && (r in s.db.tokens ==> s.db.tokens[r].parentId == Some(c))
  }

  /** Identifiers are never reused, and codes and refresh tokens do not share any. */
  ghost predicate IdsOk(s: Sys) {
    && s.db.codes.Keys <= s.hist.used && s.db.grants.Keys <= s.hist.used && s.db.tokens.Keys <= s.hist.used
    && s.hist.refresh.Keys <= s.hist.used && s.hist.refresh.Values <= s.hist.used
    && s.hist.family.Keys <= s.hist.used
    && (forall c :: c in s.hist.family ==> s.hist.family[c].0 in s.hist.used && s.hist.family[c].1 in s.hist.used)
    && s.db.codes.Keys !! s.hist.refresh.Keys
    && s.hist.family.Keys !! s.hist.refresh.Keys
  }

  /** Foreign keys. */
  ghost predicate RefsOk(s: Sys) {
    && (forall t :: t in s.db.tokens ==>
          && s.db.tokens[t].clientId in s.db.clients
          && (s.db.tokens[t].grantId.Some? ==> s.db.tokens[t].grantId.value in s.db.grants)
          && (s.db.tokens[t].grantId.None? && s.db.tokens[t].parentId.Some? ==>
                s.db.tokens[t].parentId.value in s.hist.used && s.db.tokens[t].parentId.value !in s.hist.refresh))
    && (forall g :: g in s.db.grants ==> s.db.grants[g].clientId in s.db.clients)
    && (forall c :: c in s.db.codes ==> s.db.codes[c].clientId in s.db.clients)
    && StoredRefresh(s)
  }

  /** A refresh token that is still stored belongs to the grant it was issued under. */
  ghost predicate StoredRefresh(s: Sys) {
    forall r :: r in s.hist.refresh && r in s.db.tokens ==>
          Of(s.db, r, s.hist.refresh[r]) && s.db.tokens[r].kind == Refresh
  }

  ghost predicate Inv(s: Sys) {
    && IdsOk(s)
    && RefsOk(s)
    && (forall g :: g in s.db.grants ==> GrantOk(s, g))
    && (forall c :: c in s.db.codes ==> CodeOk(s, c))
    && (forall c :: c in s.hist.family ==> FamilyOk(s, c))
  }

  lemma InitInv(s: Sys)
    requires Init(s)
    ensures Inv(s)
  {}

  // ------------------------------------------------------------------ frames

  /** At most the row and the tokens of grant `g` differ, as far as grants and tokens go. */
  ghost predicate FramedRows(db: Db, db2: Db, g: Id) {
    && db2.now == db.now
    && (forall h :: h != g ==> ((h in db.grants) == (h in db2.grants)))
    && (forall h :: h != g && h in db.grants ==> db.grants[h] == db2.grants[h])
    && (forall t :: t in db.tokens && db.tokens[t].grantId != Some(g) ==>
        t in db2.tokens && db2.tokens[t] == db.tokens[t])
    && (forall t :: t in db2.tokens && db2.tokens[t].grantId != Some(g) ==>
        t in db.tokens && db2.tokens[t] == db.tokens[t])
    && (g in db.grants ==> g in db2.grants)
  }

  /** `db2` differs from `db` at most in the row and the tokens of grant `g`. */
  ghost predicate Framed(db: Db, db2: Db, g: Id) {
    FramedRows(db, db2, g) && db2.(grants := db.grants, tokens := db.tokens) == db
  }

  lemma FramedOf(db: Db, db2: Db, g: Id, h: Id)
    requires FramedRows(db, db2, g) && h != g
    ensures forall t :: Of(db, t, h) <==> Of(db2, t, h)
    ensures forall t :: Of(db, t, h) ==> db.tokens[t] == db2.tokens[t]
  {}

  /** The history of a transaction about grant `g`: what is new has a new id and belongs to `g`. */
  ghost predicate HistGrows(s: Sys, s2: Sys, g: Id) {
    && s.hist.used <= s2.hist.used
    && (forall t :: t in s2.db.tokens && t !in s.db.tokens ==> t !in s.hist.used)
    && (forall r :: r in s.hist.refresh ==> r in s2.hist.refresh && s2.hist.refresh[r] == s.hist.refresh[r])
    && (forall r :: r in s2.hist.refresh && r !in s.hist.refresh ==> s2.hist.refresh[r] == g && r !in s.hist.used)
    && (forall c :: c in s.hist.family ==> c in s2.hist.family && s2.hist.family[c] == s.hist.family[c])
  }

  lemma FramedRowOk(s: Sys, s2: Sys, g: Id, h: Id, t: Id)
    requires IdsOk(s) && FramedRows(s.db, s2.db, g) && HistGrows(s, s2, g) && h != g && h in s.db.grants
    requires Of(s.db, t, h) && RowOk(s, t, h)
    ensures Of(s2.db, t, h) && RowOk(s2, t, h)
  {
    var p := s.db.tokens[t].parentId.value;
    assert p in s.hist.refresh ==> p in s.hist.used;
    assert p in s.hist.refresh && p in s2.db.tokens ==> p in s.db.tokens;
    assert p in s.db.tokens && Of(s.db, p, h) ==> s2.db.tokens[p] == s.db.tokens[p];
  }

  lemma FramedOneRefresh(db: Db, db2: Db, g: Id, h: Id)
    requires FramedRows(db, db2, g) && h != g && OneRefresh(db, h)
    ensures OneRefresh(db2, h)
  {
    FramedOf(db, db2, g, h);
    forall t, u | OpenRefresh(db2, t, h) && OpenRefresh(db2, u, h)
      ensures t == u
    {
      assert OpenRefresh(db, t, h) && OpenRefresh(db, u, h);
    }
  }

  lemma FramedComplete(s: Sys, s2: Sys, g: Id, h: Id)
    requires FramedRows(s.db, s2.db, g) && HistGrows(s, s2, g) && StoredRefresh(s) && h != g
    requires Complete(s, h) || Dead(s.db, h)
    ensures Complete(s2, h) || Dead(s2.db, h)
  {
    FramedOf(s.db, s2.db, g, h);
    if Complete(s, h) {
      forall r | r in s2.hist.refresh && s2.hist.refresh[r] == h
        ensures r in s2.db.tokens
      {
        assert r in s.hist.refresh && s.hist.refresh[r] == h;
        assert Of(s.db, r, h);
      }
    } else {
      assert Dead(s2.db, h);
    }
  }

  /** Grants other than the one a transaction is about keep their part of the invariant. */
  lemma FramedGrantOk(s: Sys, s2: Sys, g: Id, h: Id)
    requires IdsOk(s) && StoredRefresh(s) && h in s.db.grants && GrantOk(s, h)
    requires FramedRows(s.db, s2.db, g) && HistGrows(s, s2, g) && h != g
    ensures h in s2.db.grants && GrantOk(s2, h)
  {
    forall t | Of(s2.db, t, h)
      ensures RowOk(s2, t, h)
    {
      FramedOf(s.db, s2.db, g, h);
      FramedRowOk(s, s2, g, h, t);
    }
    FramedOneRefresh(s.db, s2.db, g, h);
    FramedComplete(s, s2, g, h);
  }
}
