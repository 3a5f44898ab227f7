/** Two tables that agree about a set of grants go on agreeing about them, whatever runs on both. */
module OAuthSync {
  import opened Common
  import opened OAuth
  import opened OAuthRuns
  import opened OAuthInvariant
  import opened OAuthTheorems

  // ------------------------------------------------------------------ the same grant in two tables

  /** Grant `g` is the same in both, but `b` may lack expired access tokens. The lock counter does not matter. */
  ghost predicate Synced(a: Db, b: Db, g: Id) {
    && g in a.grants && g in b.grants && b.grants[g] == a.grants[g].(lockSeq := b.grants[g].lockSeq)
    && (forall t :: Of(b, t, g) ==> Of(a, t, g) && b.tokens[t] == a.tokens[t])
    && (forall t :: Of(a, t, g) && (a.tokens[t].kind == Refresh || !Expired(a.tokens[t], a.now)) ==> Of(b, t, g))
  }

  ghost predicate Lost(a: Db, b: Db, g: Id) { Hopeless(a, g) && Hopeless(b, g) }

  ghost predicate SameWorld(a: Db, b: Db) {
    && a.now == b.now && a.orgs == b.orgs && a.users == b.users && a.members == b.members
    && (forall k :: k in a.clients && k in b.clients ==> a.clients[k] == b.clients[k])
  }

  lemma SyncedClassify(a: Db, b: Db, g: Id, t: Id, c: Id)
    requires Synced(a, b, g) && SameWorld(a, b)
    ensures Classify(a, g, t, c) == Classify(b, g, t, c)
  {
    assert Of(a, t, g) && a.tokens[t].kind == Refresh ==> Of(b, t, g);
  }

  /** The grant is gone, or can no longer be used, in both; or it is the same in both. */
  ghost predicate Agree(a: Db, b: Db, g: Id) { Lost(a, b, g) || Synced(a, b, g) }

  /** The row and the tokens of grant `g`, the clock and the clients are left alone. */
  ghost predicate Kept(db: Db, db2: Db, g: Id) {
    && db2.now == db.now && db2.clients == db.clients
    && ((g in db.grants) == (g in db2.grants)) && (g in db.grants ==> db.grants[g] == db2.grants[g])
    && (forall t :: Of(db, t, g) <==> Of(db2, t, g))
    && (forall t :: Of(db, t, g) ==> db.tokens[t] == db2.tokens[t])
  }

  lemma FramedKept(db: Db, db2: Db, h: Id, g: Id)
    requires FramedRows(db, db2, h) && db2.clients == db.clients && g != h
    ensures Kept(db, db2, g)
  {
    FramedOf(db, db2, h, g);
  }

  lemma AgreeKept(a: Db, b: Db, a2: Db, b2: Db, g: Id)
    requires Agree(a, b, g) && Kept(a, a2, g) && Kept(b, b2, g)
    ensures Agree(a2, b2, g)
  {
    if Lost(a, b, g) {
      forall t | Of(a2, t, g) ensures !Hopeful(a2, t) { assert Of(a, t, g); }
      forall t | Of(b2, t, g) ensures !Hopeful(b2, t) { assert Of(b, t, g); }
    }
  }

  // ------------------------------------------------------------------ guarded transactions

  /** The grant a guarded transaction is about. */
  ghost function Subject(s: Sys, a: Step): Id
    requires a.LoadRefresh? || a.RefreshToken? || a.RevokeOne? || a.RevokeGrant?
        || (a.PresentCode? && a.code in s.hist.family)
  {
    match a
    case LoadRefresh(g, _, _) => g
    case RefreshToken(g, _, _, _, _) => g
    case RevokeOne(g, _, _) => g
    case RevokeGrant(g, _) => g
    case PresentCode(c) => s.hist.family[c].0
  }

  lemma RefreshFramed(s: Sys, g: Id, t: Id, c: Id, scopes: seq<Scope>, ids: NewPair)
    requires Inv(s) && Enabled(s, RefreshToken(g, t, c, scopes, ids))
    ensures Framed(s.db, RefreshTx(s.db, g, t, c, scopes, ids).0, g)
  {
    var (db2, out) := RefreshTx(s.db, g, t, c, scopes, ids);
    if out.Issued? {
      RefreshIsRefreshed(s, g, t, c, scopes, ids);
      RefreshedFrame(s, Rotate(Bump(s.db, g), t, c), db2, g, t, ids);
    } else if g in s.db.grants && out != InvalidScope {
      assert db2 == LoadRefreshTx(s.db, g, t, c);
    }
  }

  lemma RevokeOneFramed(db: Db, g: Id, t: Id, c: Id)
    ensures Framed(db, RevokeTokenTx(db, g, t, c), g)
  {
    if g in db.grants && Of(db, t, g) && db.tokens[t].clientId == c && db.tokens[t].kind == Access {
      assert RevokeTokenTx(db, g, t, c).tokens == db.tokens[t := RevokeToken(db.tokens[t], db.now)];
    }
  }

  lemma GuardedFramed(s: Sys, a: Step)
    requires Inv(s) && Enabled(s, a)
    requires a.LoadRefresh? || a.RefreshToken? || a.RevokeOne? || a.RevokeGrant?
        || (a.PresentCode? && a.code in s.hist.family)
    ensures Framed(s.db, Next(s, a).db, Subject(s, a))
  {
    match a
    case RefreshToken(g, t, c, scopes, ids) => RefreshFramed(s, g, t, c, scopes, ids);
    case RevokeOne(g, t, c) => RevokeOneFramed(s.db, g, t, c);
    case PresentCode(c) =>
      PresentCodeIs(s, c);
      RevokeFramed(s.db, s.hist.family[c].0, CodeReplay);
    case LoadRefresh(g, t, c) => LoadFramed(s.db, g, t, c);
    case RevokeGrant(g, reason) => RevokeFramed(s.db, g, reason);
  }

  lemma RevokeFramed(db: Db, g: Id, reason: Reason)
    ensures Framed(db, RevokeGrantTx(db, g, reason), g)
  {}

  lemma LoadFramed(db: Db, g: Id, t: Id, c: Id)
    ensures Framed(db, LoadRefreshTx(db, g, t, c), g)
  {}

  lemma SyncedRevoke(a: Db, b: Db, g: Id, reason: Reason)
    requires Synced(a, b, g) && a.now == b.now
    ensures Synced(RevokeFamily(Bump(a, g), g, reason), RevokeFamily(Bump(b, g), g, reason), g)
  {
    var a2, b2 := RevokeFamily(Bump(a, g), g, reason), RevokeFamily(Bump(b, g), g, reason);
    forall t | Of(b2, t, g) ensures Of(a2, t, g) && b2.tokens[t] == a2.tokens[t] { assert Of(b, t, g); }
    forall t | Of(a2, t, g) && (a2.tokens[t].kind == Refresh || !Expired(a2.tokens[t], a2.now)) ensures Of(b2, t, g) {
      assert Of(a, t, g);
    }
  }

  lemma SyncedBump(a: Db, b: Db, g: Id)
    requires Synced(a, b, g)
    ensures Synced(Bump(a, g), Bump(b, g), g)
  {
    forall t | Of(Bump(b, g), t, g) ensures Of(Bump(a, g), t, g) { assert Of(b, t, g); }
    forall t | Of(Bump(a, g), t, g) && (a.tokens[t].kind == Refresh || !Expired(a.tokens[t], a.now))
      ensures Of(Bump(b, g), t, g)
    {
      assert Of(a, t, g);
    }
  }

  lemma SyncedLoad(a: Db, b: Db, g: Id, t: Id, c: Id)
    requires Synced(a, b, g) && SameWorld(a, b)
    ensures Synced(LoadRefreshTx(a, g, t, c), LoadRefreshTx(b, g, t, c), g)
  {
    SyncedBump(a, b, g);
    SyncedClassify(Bump(a, g), Bump(b, g), g, t, c);
    match Classify(Bump(a, g), g, t, c)
    case Kill(reason) => SyncedRevoke(a, b, g, reason);
    case _ =>
  }

  lemma SyncedRevokeOne(a: Db, b: Db, g: Id, t: Id, c: Id)
    requires Synced(a, b, g) && a.now == b.now
    ensures Synced(RevokeTokenTx(a, g, t, c), RevokeTokenTx(b, g, t, c), g)
  {
    var a2, b2 := RevokeTokenTx(a, g, t, c), RevokeTokenTx(b, g, t, c);
    if Of(a, t, g) && a.tokens[t].clientId == c && a.tokens[t].kind == Refresh {
      SyncedRevoke(a, b, g, ClientRevoked);
    } else {
      assert !(Of(b, t, g) && b.tokens[t].kind == Refresh && b.tokens[t].clientId == c);
      forall u | Of(b2, u, g) ensures Of(a2, u, g) && b2.tokens[u] == a2.tokens[u] { assert Of(b, u, g); }
      forall u | Of(a2, u, g) && (a2.tokens[u].kind == Refresh || !Expired(a2.tokens[u], a2.now)) ensures Of(b2, u, g) {
        assert Of(a, u, g);
      }
    }
  }

  lemma SyncedRotate(a: Db, b: Db, g: Id, t: Id, c: Id)
    requires Synced(a, b, g) && a.now == b.now && Of(a, t, g) && Of(b, t, g)
    ensures Synced(Rotate(a, t, c), Rotate(b, t, c), g)
  {
    var a2, b2 := Rotate(a, t, c), Rotate(b, t, c);
    forall u | Of(b2, u, g) ensures Of(a2, u, g) && b2.tokens[u] == a2.tokens[u] { assert Of(b, u, g); }
    forall u | Of(a2, u, g) && (a2.tokens[u].kind == Refresh || !Expired(a2.tokens[u], a2.now)) ensures Of(b2, u, g) {
      assert Of(a, u, g);
    }
  }

  lemma SyncedPair(a: Db, b: Db, g: Id, c: Id, org: Id, user: Option<Id>, gs: seq<Scope>, xs: seq<Scope>, p: Id,
        ids: NewPair)
    requires Synced(a, b, g) && a.now == b.now
    ensures Synced(IssuePair(a, g, c, org, user, gs, xs, p, ids), IssuePair(b, g, c, org, user, gs, xs, p, ids), g)
  {
    var a2, b2 := IssuePair(a, g, c, org, user, gs, xs, p, ids), IssuePair(b, g, c, org, user, gs, xs, p, ids);
    forall u | Of(b2, u, g) ensures Of(a2, u, g) && b2.tokens[u] == a2.tokens[u] {
      if u != ids.refresh && u != ids.access { assert Of(b, u, g); }
    }
    forall u | Of(a2, u, g) && (a2.tokens[u].kind == Refresh || !Expired(a2.tokens[u], a2.now)) ensures Of(b2, u, g) {
      if u != ids.refresh && u != ids.access { assert Of(a, u, g); }
    }
  }

  lemma SyncedIssue(a: Db, b: Db, g: Id, t: Id, c: Id, scopes: seq<Scope>, ids: NewPair)
    requires Synced(a, b, g) && SameWorld(a, b)
    requires RefreshTx(a, g, t, c, scopes, ids).1.Issued?
    ensures RefreshTx(b, g, t, c, scopes, ids).1.Issued?
    ensures Synced(RefreshTx(a, g, t, c, scopes, ids).0, RefreshTx(b, g, t, c, scopes, ids).0, g)
  {
    var a1, b1 := Bump(a, g), Bump(b, g);
    SyncedBump(a, b, g);
    SyncedClassify(a1, b1, g, t, c);
    assert Of(a1, t, g) && Of(b1, t, g) && a1.tokens[t] == b1.tokens[t];
    SyncedRotate(a1, b1, g, t, c);
    var row := a1.tokens[t];
    var requested := if Dedupe(scopes) == [] then row.scopes else Dedupe(scopes);
    SyncedPair(Rotate(a1, t, c), Rotate(b1, t, c), g, c, row.orgId, row.userId, row.scopes, requested, t, ids);
  }

  lemma SyncedRefresh(a: Db, b: Db, g: Id, t: Id, c: Id, scopes: seq<Scope>, ids: NewPair)
    requires Synced(a, b, g) && SameWorld(a, b)
    ensures RefreshTx(a, g, t, c, scopes, ids).1 == RefreshTx(b, g, t, c, scopes, ids).1
    ensures Synced(RefreshTx(a, g, t, c, scopes, ids).0, RefreshTx(b, g, t, c, scopes, ids).0, g)
  {
    if RefreshTx(a, g, t, c, scopes, ids).1.Issued? {
      SyncedIssue(a, b, g, t, c, scopes, ids);
    } else {
      SyncedBump(a, b, g);
      SyncedClassify(Bump(a, g), Bump(b, g), g, t, c);
      SyncedLoad(a, b, g, t, c);
      assert Of(a, t, g) && a.tokens[t].kind == Refresh ==> Of(b, t, g);
    }
  }

  /** A step of both tables, each with its own history. */
  ghost predicate Both(x: Sys, y: Sys, a: Step) { Inv(x) && Inv(y) && Enabled(x, a) && Enabled(y, a) }

  lemma LostNext(x: Sys, y: Sys, a: Step, g: Id)
    requires Both(x, y, a) && g in x.hist.used && g in y.hist.used && Lost(x.db, y.db, g)
    ensures Lost(Next(x, a).db, Next(y, a).db, g)
  {
    HopelessNext(x, a, g);
    HopelessNext(y, a, g);
  }

  lemma SyncedGuarded(x: Sys, y: Sys, a: Step)
    requires SameWorld(x.db, y.db) && (a.LoadRefresh? || a.RefreshToken? || a.RevokeOne? || a.RevokeGrant?)
    requires Synced(x.db, y.db, Subject(x, a))
    ensures Synced(Next(x, a).db, Next(y, a).db, Subject(x, a))
  {
    match a
    case LoadRefresh(g, t, c) => SyncedLoad(x.db, y.db, g, t, c);
    case RefreshToken(g, t, c, scopes, ids) => SyncedRefresh(x.db, y.db, g, t, c, scopes, ids);
    case RevokeOne(g, t, c) => SyncedRevokeOne(x.db, y.db, g, t, c);
    case RevokeGrant(g, reason) => SyncedRevoke(x.db, y.db, g, reason);
  }

  lemma GuardedKept(s: Sys, a: Step, g: Id)
    requires Inv(s) && Enabled(s, a) && (a.LoadRefresh? || a.RefreshToken? || a.RevokeOne? || a.RevokeGrant?)
    requires Subject(s, a) != g
    ensures Kept(s.db, Next(s, a).db, g)
  {
    GuardedFramed(s, a);
    FramedKept(s.db, Next(s, a).db, Subject(s, a), g);
  }

  lemma AgreeGuarded(x: Sys, y: Sys, a: Step, g: Id)
    requires Both(x, y, a) && SameWorld(x.db, y.db) && Synced(x.db, y.db, g)
    requires a.LoadRefresh? || a.RefreshToken? || a.RevokeOne? || a.RevokeGrant?
    ensures Agree(Next(x, a).db, Next(y, a).db, g)
  {
    if Subject(x, a) == g {
      SyncedGuarded(x, y, a);
    } else {
      GuardedKept(x, a, g);
      GuardedKept(y, a, g);
      AgreeKept(x.db, y.db, Next(x, a).db, Next(y, a).db, g);
    }
  }

  // ------------------------------------------------------------------ the rest of the world

  ghost predicate Guarded(a: Step) {
    a.LoadRefresh? || a.RefreshToken? || a.RevokeOne? || a.RevokeGrant? || a.PresentCode?
  }

  lemma GuardedWorld(s: Sys, a: Step)
    requires Inv(s) && Enabled(s, a)
    requires a.LoadRefresh? || a.RefreshToken? || a.RevokeOne? || a.RevokeGrant? || a.PresentCode?
    ensures var db2 := Next(s, a).db; db2.(grants := s.db.grants, tokens := s.db.tokens) == s.db
  {
    if a.PresentCode? && a.code !in s.hist.family {
      ReplayTargetsBound(s, a.code);
      RevokeNone(s.db, CodeReplay);
    } else {
      GuardedFramed(s, a);
    }
  }

  lemma PlainWorld(a: Db, b: Db, s: Step)
    requires SameWorld(a, b) && !Guarded(s) && !s.ExchangeCode?
    requires s.RegisterClient? ==> s.c !in a.clients && s.c !in b.clients
    ensures SameWorld(Apply(a, s), Apply(b, s))
  {
    if s.Purge? || s.DeleteOrg? || s.DeleteUser? || s.Authorize? || s.Approve? || s.Deny? {
      PlainTables(a, b, s);
    } else if s.RegisterClient? || s.RevokeClient? {
      PlainClients(a, b, s);
    }
  }

  lemma PlainTables(a: Db, b: Db, s: Step)
    requires SameWorld(a, b)
    requires s.Purge? || s.DeleteOrg? || s.DeleteUser? || s.Authorize? || s.Approve? || s.Deny?
    ensures SameWorld(Apply(a, s), Apply(b, s))
  {
    if s.Purge? {
      PurgedWorld(a, b);
    } else if s.DeleteOrg? || s.DeleteUser? {
      DeletedWorld(a, b, s);
    }
  }

  lemma PurgedWorld(a: Db, b: Db)
    requires SameWorld(a, b)
    ensures SameWorld(PurgeTx(a), PurgeTx(b))
  {}

  lemma DeletedWorld(a: Db, b: Db, s: Step)
    requires SameWorld(a, b) && (s.DeleteOrg? || s.DeleteUser?)
    ensures SameWorld(Apply(a, s), Apply(b, s))
  {}

  lemma PlainClients(a: Db, b: Db, s: Step)
    requires SameWorld(a, b) && (s.RegisterClient? || s.RevokeClient?)
    requires s.RegisterClient? ==> s.c !in a.clients && s.c !in b.clients
    ensures SameWorld(Apply(a, s), Apply(b, s))
  {}

  lemma ExchangeWorld(db: Db, s: Step)
    requires s.ExchangeCode?
    ensures var db2 := Apply(db, s); db2.(codes := db.codes, grants := db.grants, tokens := db.tokens) == db
    ensures Apply(db, s).codes == (if ExchangeCodeTx(db, s.code, s.g, s.ids).1.Issued?
                                   then db.codes[s.code := db.codes[s.code].(status := Exchanged)] else db.codes)
  {}

  // ------------------------------------------------------------------ codes

  /** The code led to one of the grants in `keep`. */
  ghost predicate Kin(s: Sys, keep: set<Id>, c: Id) { c in s.hist.family && s.hist.family[c].0 in keep }

  /** Such codes led to the same grants on both sides; `y` may lack rows of codes whose grants are lost. */
  ghost predicate SameKin(x: Sys, y: Sys, keep: set<Id>) {
    && (forall c :: Kin(x, keep, c) ==> Kin(y, keep, c) && x.hist.family[c].0 == y.hist.family[c].0)
    && (forall c :: Kin(y, keep, c) ==> Kin(x, keep, c))
    && (forall c :: Kin(x, keep, c) && c in y.db.codes ==> c in x.db.codes && x.db.codes[c] == y.db.codes[c])
    && (forall c :: Kin(x, keep, c) && c in x.db.codes && c !in y.db.codes ==> Lost(x.db, y.db, x.hist.family[c].0))
  }

  lemma FamilyKept(s: Sys, a: Step, c: Id)
    requires Inv(s) && Enabled(s, a) && c in s.hist.family
    ensures c in Next(s, a).hist.family && Next(s, a).hist.family[c] == s.hist.family[c]
  {
    if c in s.db.codes { assert CodeOk(s, c); }
  }

  lemma KinNext(s: Sys, a: Step, keep: set<Id>, c: Id)
    requires Inv(s) && Enabled(s, a) && keep <= s.hist.used
    ensures Kin(Next(s, a), keep, c) <==> Kin(s, keep, c)
    ensures Kin(s, keep, c) ==> Next(s, a).hist.family[c] == s.hist.family[c]
  {
    if c in s.hist.family { FamilyKept(s, a, c); }
  }

  lemma KinsNext(s: Sys, a: Step, keep: set<Id>)
    requires Inv(s) && Enabled(s, a) && keep <= s.hist.used
    ensures forall c :: Kin(Next(s, a), keep, c) <==> Kin(s, keep, c)
  {
    forall c ensures Kin(Next(s, a), keep, c) <==> Kin(s, keep, c) { KinNext(s, a, keep, c); }
  }

  /** What a step does to the row of an exchanged code depends on nothing but that row and the clock. */
  predicate Drops(row: Code, now: int, a: Step) {
    (a.Purge? && row.expiresAt < now - CODE_RETENTION) || (a.DeleteOrg? && row.orgId == Some(a.org))
  }

  function RowAfter(row: Code, a: Step): Code {
    if a.DeleteUser? then row.(userId := Without(row.userId, a.user)) else row
  }

  ghost predicate SpentStep(db: Db, db2: Db, a: Step, c: Id) {
    && (c in db2.codes <==> c in db.codes && !Drops(db.codes[c], db.now, a))
    && (c in db2.codes ==> db2.codes[c] == RowAfter(db.codes[c], a))
  }

  lemma SpentCode(s: Sys, a: Step, c: Id)
    requires Inv(s) && Enabled(s, a) && c in s.hist.family
    ensures SpentStep(s.db, Next(s, a).db, a, c)
  {
    if c in s.db.codes { assert CodeOk(s, c); }
    if Guarded(a) {
      GuardedWorld(s, a);
    } else if a.ExchangeCode? {
      ExchangeWorld(s.db, a);
    } else {
      assert c in s.hist.used;
      SpentPlain(s.db, a, c);
    }
  }

  lemma SpentPlain(db: Db, a: Step, c: Id)
    requires !Guarded(a) && !a.ExchangeCode? && (c in db.codes ==> db.codes[c].status == Exchanged)
    requires a.Authorize? ==> a.code != c
    ensures SpentStep(db, Apply(db, a), a, c)
  {}

  lemma SameKinNext(x: Sys, y: Sys, a: Step, keep: set<Id>)
    requires Both(x, y, a) && x.db.now == y.db.now && keep <= x.hist.used && keep <= y.hist.used && SameKin(x, y, keep)
    ensures SameKin(Next(x, a), Next(y, a), keep)
  {
    KinsNext(x, a, keep);
    KinsNext(y, a, keep);
    forall c | Kin(x, keep, c) ensures KinAfter(x, y, a, keep, c) { OneKin(x, y, a, keep, c); }
  }

  ghost predicate KinAfter(x: Sys, y: Sys, a: Step, keep: set<Id>, c: Id)
    requires Kin(x, keep, c)
  {
    var x2, y2 := Next(x, a), Next(y, a);
    && c in x2.hist.family && c in y2.hist.family && x2.hist.family[c].0 == y2.hist.family[c].0 == x.hist.family[c].0
    && (c in y2.db.codes ==> c in x2.db.codes && x2.db.codes[c] == y2.db.codes[c])
    && (c in x2.db.codes && c !in y2.db.codes ==> Lost(x2.db, y2.db, x.hist.family[c].0))
  }

  lemma OneKin(x: Sys, y: Sys, a: Step, keep: set<Id>, c: Id)
    requires Both(x, y, a) && x.db.now == y.db.now && keep <= x.hist.used && keep <= y.hist.used && SameKin(x, y, keep)
    requires Kin(x, keep, c)
    ensures KinAfter(x, y, a, keep, c)
  {
    KinNext(x, a, keep, c);
    KinNext(y, a, keep, c);
    SpentCode(x, a, c);
    SpentCode(y, a, c);
    if c in x.db.codes && c !in y.db.codes {
      LostNext(x, y, a, x.hist.family[c].0);
    }
  }

  lemma TargetsInY(x: Sys, y: Sys, c: Id, g: Id)
    requires Synced(x.db, y.db, g) && GrantOk(x, g) && c in x.db.codes && c in y.db.codes
    requires x.db.codes[c] == y.db.codes[c]
    requires g in ReplayTargets(x.db, c) && c !in x.hist.refresh
    ensures g in ReplayTargets(y.db, c)
  {
    var t :| t in x.db.tokens && x.db.tokens[t].clientId == x.db.codes[c].clientId && x.db.tokens[t].parentId == Some(c)
             && x.db.tokens[t].grantId == Some(g);
    assert Of(x.db, t, g) && RowOk(x, t, g);
    assert x.db.tokens[t].kind == Refresh;
    assert Of(y.db, t, g);
  }

  lemma TargetsInX(x: Sys, y: Sys, c: Id, g: Id)
    requires Synced(x.db, y.db, g) && c in x.db.codes && c in y.db.codes && x.db.codes[c] == y.db.codes[c]
    requires g in ReplayTargets(y.db, c)
    ensures g in ReplayTargets(x.db, c)
  {
    var t :| t in y.db.tokens && y.db.tokens[t].clientId == y.db.codes[c].clientId && y.db.tokens[t].parentId == Some(c)
             && y.db.tokens[t].grantId == Some(g);
    assert Of(y.db, t, g) && Of(x.db, t, g);
  }

  lemma CodeIsNoToken(x: Sys, c: Id)
    requires Inv(x) && c in x.db.codes
    ensures c !in x.hist.refresh
  {}

  /** A code row of both sides that led to the same grant. */
  ghost predicate Twins(x: Sys, y: Sys, c: Id, g: Id) {
    && Inv(x) && Inv(y) && c in x.db.codes && c in y.db.codes && x.db.codes[c] == y.db.codes[c]
    && c in x.hist.family && c in y.hist.family && x.hist.family[c].0 == y.hist.family[c].0 == g
  }

  lemma SameTargets(x: Sys, y: Sys, c: Id, g: Id)
    requires Twins(x, y, c, g) && Synced(x.db, y.db, g)
    ensures ReplayTargets(x.db, c) == ReplayTargets(y.db, c)
  {
    ReplayTargetsBound(x, c);
    ReplayTargetsBound(y, c);
    assert CodeOk(x, c);
    CodeIsNoToken(x, c);
    if g in ReplayTargets(x.db, c) { TargetsInY(x, y, c, g); }
    if g in ReplayTargets(y.db, c) { TargetsInX(x, y, c, g); }
  }

  lemma SyncedTwins(x: Sys, y: Sys, c: Id, g: Id)
    requires Twins(x, y, c, g) && Synced(x.db, y.db, g) && x.db.now == y.db.now
    ensures Synced(PresentCodeTx(x.db, c), PresentCodeTx(y.db, c), g)
  {
    SameTargets(x, y, c, g);
    PresentCodeIs(x, c);
    PresentCodeIs(y, c);
    SyncedRevoke(x.db, y.db, g, CodeReplay);
  }

  lemma PresentAbsent(db: Db, c: Id)
    requires c !in db.codes
    ensures PresentCodeTx(db, c) == db
  {}

  lemma PresentUnknown(s: Sys, c: Id)
    requires Inv(s) && c !in s.hist.family
    ensures PresentCodeTx(s.db, c) == s.db
  {
    ReplayTargetsBound(s, c);
    RevokeNone(s.db, CodeReplay);
  }

  lemma PresentKept(s: Sys, c: Id, g: Id)
    requires Inv(s) && !(c in s.hist.family && s.hist.family[c].0 == g)
    ensures Kept(s.db, PresentCodeTx(s.db, c), g)
  {
    if c in s.hist.family {
      PresentCodeIs(s, c);
      RevokeFramed(s.db, s.hist.family[c].0, CodeReplay);
      if ReplayTargets(s.db, c) != {} { FramedKept(s.db, PresentCodeTx(s.db, c), s.hist.family[c].0, g); }
    } else {
      PresentUnknown(s, c);
    }
  }

  lemma AgreePresent(x: Sys, y: Sys, c: Id, keep: set<Id>, g: Id)
    requires Inv(x) && Inv(y) && x.db.now == y.db.now && SameKin(x, y, keep) && g in keep
    requires Synced(x.db, y.db, g) && !Lost(x.db, y.db, g)
    ensures Agree(PresentCodeTx(x.db, c), PresentCodeTx(y.db, c), g)
  {
    if Kin(x, keep, c) && x.hist.family[c].0 == g {
      if c in y.db.codes {
        SyncedTwins(x, y, c, g);
      } else {
        PresentAbsent(x.db, c);
        PresentAbsent(y.db, c);
      }
    } else {
      assert !(c in y.hist.family && y.hist.family[c].0 == g) by {
        if Kin(y, keep, c) { assert Kin(x, keep, c); }
      }
      PresentKept(x, c, g);
      PresentKept(y, c, g);
      AgreeKept(x.db, y.db, PresentCodeTx(x.db, c), PresentCodeTx(y.db, c), g);
    }
  }

  // ------------------------------------------------------------------ the other steps

  lemma ExchangeIs(s: Sys, a: Step)
    requires Inv(s) && Enabled(s, a) && a.ExchangeCode? && ExchangeCodeTx(s.db, a.code, a.g, a.ids).1.Issued?
    ensures CodeExchanged(s, ExchangeCodeTx(s.db, a.code, a.g, a.ids).0, a.code, a.g, a.ids)
    ensures FramedRows(s.db, ExchangeCodeTx(s.db, a.code, a.g, a.ids).0, a.g)
    ensures ExchangeCodeTx(s.db, a.code, a.g, a.ids).0.clients == s.db.clients
  {
    assert CodeOk(s, a.code);
    ExchangedFrame(s, ExchangeCodeTx(s.db, a.code, a.g, a.ids).0, a.code, a.g, a.ids);
  }

  lemma ExchangeKept(s: Sys, a: Step, g: Id)
    requires Inv(s) && Enabled(s, a) && a.ExchangeCode? && g != a.g
    ensures Kept(s.db, Next(s, a).db, g)
  {
    if ExchangeCodeTx(s.db, a.code, a.g, a.ids).1.Issued? {
      ExchangeIs(s, a);
      FramedKept(s.db, Next(s, a).db, a.g, g);
    }
  }

  ghost predicate WorldStep(a: Step) {
    a.Authorize? || a.Approve? || a.Deny? || a.Tick? || a.AddOrg? || a.AddUser? || a.SetRole? || a.EndMembership?
    || a.RegisterClient? || a.RevokeClient?
  }

  lemma SyncedLater(a: Db, b: Db, a2: Db, b2: Db, g: Id)
    requires Synced(a, b, g) && a2.tokens == a.tokens && b2.tokens == b.tokens && a2.grants == a.grants
    requires b2.grants == b.grants
    requires a.now <= a2.now
    ensures Synced(a2, b2, g)
  {
    forall t | Of(b2, t, g) ensures Of(a2, t, g) && b2.tokens[t] == a2.tokens[t] { assert Of(b, t, g); }
    forall t | Of(a2, t, g) && (a2.tokens[t].kind == Refresh || !Expired(a2.tokens[t], a2.now)) ensures Of(b2, t, g) {
      assert Of(a, t, g);
    }
  }

  lemma WorldKeepsRows(db: Db, a: Step)
    requires WorldStep(a)
    ensures Apply(db, a).tokens == db.tokens && Apply(db, a).grants == db.grants && db.now <= Apply(db, a).now
  {}

  lemma GrantOrg(s: Sys, g: Id, t: Id)
    requires Inv(s) && Of(s.db, t, g)
    ensures g in s.db.grants && s.db.tokens[t].orgId == s.db.grants[g].orgId
  {
    TokenOrg(s, t);
  }

  lemma SyncedDeleteOrg(a: Db, b: Db, org: Id, g: Id)
    requires Synced(a, b, g) && a.now == b.now && a.grants[g].orgId != org
    requires forall t :: Of(a, t, g) ==> a.tokens[t].orgId != org
    ensures Synced(DeleteOrgTx(a, org), DeleteOrgTx(b, org), g)
  {
    var a2, b2 := DeleteOrgTx(a, org), DeleteOrgTx(b, org);
    forall t | Of(b2, t, g) ensures Of(a2, t, g) && b2.tokens[t] == a2.tokens[t] { assert Of(b, t, g) && Of(a, t, g); }
    forall t | Of(a2, t, g) && (a2.tokens[t].kind == Refresh || !Expired(a2.tokens[t], a2.now)) ensures Of(b2, t, g) {
      assert Of(a, t, g) && Of(b, t, g);
    }
  }

  lemma DeletedOrgLost(s: Sys, org: Id, g: Id)
    requires Inv(s) && g in s.db.grants && s.db.grants[g].orgId == org
    ensures Hopeless(DeleteOrgTx(s.db, org), g)
  {
    forall t ensures !Of(DeleteOrgTx(s.db, org), t, g) {
      if Of(s.db, t, g) { GrantOrg(s, g, t); }
    }
  }

  lemma AgreeDeleteOrg(x: Sys, y: Sys, org: Id, g: Id)
    requires Inv(x) && Inv(y) && x.db.now == y.db.now && Synced(x.db, y.db, g)
    ensures Agree(DeleteOrgTx(x.db, org), DeleteOrgTx(y.db, org), g)
  {
    if x.db.grants[g].orgId == org {
      DeletedOrgLost(x, org, g);
      DeletedOrgLost(y, org, g);
    } else {
      forall t | Of(x.db, t, g) ensures x.db.tokens[t].orgId != org { GrantOrg(x, g, t); }
      SyncedDeleteOrg(x.db, y.db, org, g);
    }
  }

  lemma SyncedDeleteUser(a: Db, b: Db, user: Id, g: Id)
    requires Synced(a, b, g) && a.now == b.now
    ensures Synced(DeleteUserTx(a, user), DeleteUserTx(b, user), g)
  {
    var a2, b2 := DeleteUserTx(a, user), DeleteUserTx(b, user);
    assert b2.grants[g] == a2.grants[g].(lockSeq := b2.grants[g].lockSeq);
    forall t | Of(b2, t, g) ensures Of(a2, t, g) && b2.tokens[t] == a2.tokens[t] { assert Of(b, t, g); }
    forall t | Of(a2, t, g) && (a2.tokens[t].kind == Refresh || !Expired(a2.tokens[t], a2.now)) ensures Of(b2, t, g) {
      assert Of(a, t, g);
    }
  }

  /** Purging an old grant, or purging around one that is not old. */
  lemma PurgeOld(s: Sys, g: Id)
    requires Inv(s) && (OldGrant(s.db, g) || g !in s.db.grants)
    ensures Hopeless(PurgeTx(s.db), g)
  {
    if OldGrant(s.db, g) { OldGrantIsDead(s, g); }
    forall t | Of(PurgeTx(s.db), t, g) ensures !Hopeful(PurgeTx(s.db), t) {
      PurgeRows(s.db, t);
      assert Of(s.db, t, g) && !Live(s.db, t);
    }
  }

  lemma YoungGrantStays(s: Sys, g: Id)
    requires Inv(s) && g in s.db.grants && !OldGrant(s.db, g)
    ensures g in PurgeTx(s.db).grants && PurgeTx(s.db).grants[g] == s.db.grants[g]
  {
    assert RecentRefresh(s.db, g);
    var r :| Of(s.db, r, g) && s.db.tokens[r].kind == Refresh;
    assert Of(PurgeCodesAndTokens(s.db), r, g);
  }

  lemma PurgeYoung(s: Sys, g: Id)
    requires Inv(s) && g in s.db.grants && !OldGrant(s.db, g)
    ensures g in PurgeTx(s.db).grants && PurgeTx(s.db).grants[g] == s.db.grants[g]
    ensures forall t :: Of(PurgeTx(s.db), t, g) ==> Of(s.db, t, g) && PurgeTx(s.db).tokens[t] == s.db.tokens[t]
    ensures forall t :: Of(s.db, t, g) && (s.db.tokens[t].kind == Refresh || !Expired(s.db.tokens[t], s.db.now)) ==>
        Of(PurgeTx(s.db), t, g)
  {
    YoungGrantStays(s, g);
    YoungTokens(s.db, g);
  }

  lemma YoungTokens(db: Db, g: Id)
    requires g in db.grants && !OldGrant(db, g)
    ensures forall t :: Of(PurgeTx(db), t, g) ==> Of(db, t, g) && PurgeTx(db).tokens[t] == db.tokens[t]
    ensures forall t :: Of(db, t, g) && (db.tokens[t].kind == Refresh || !Expired(db.tokens[t], db.now)) ==>
        Of(PurgeTx(db), t, g)
  {
    forall t ensures Of(PurgeTx(db), t, g) ==> Of(db, t, g) && PurgeTx(db).tokens[t] == db.tokens[t]
      ensures Of(db, t, g) && (db.tokens[t].kind == Refresh || !Expired(db.tokens[t], db.now)) ==> Of(PurgeTx(db), t, g)
    {
      PurgeRows(db, t);
    }
  }

  lemma SyncedOld(a: Db, b: Db, g: Id)
    requires Synced(a, b, g) && a.now == b.now
    ensures OldGrant(a, g) == OldGrant(b, g)
  {
    if RecentRefresh(a, g) {
      var t :| Of(a, t, g) && a.tokens[t].kind == Refresh &&
               (a.tokens[t].expiresAt.None? || a.tokens[t].expiresAt.value > a.now - TOKEN_RETENTION);
      assert Of(b, t, g);
    }
    if RecentRefresh(b, g) {
      var t :| Of(b, t, g) && b.tokens[t].kind == Refresh &&
               (b.tokens[t].expiresAt.None? || b.tokens[t].expiresAt.value > b.now - TOKEN_RETENTION);
      assert Of(a, t, g);
    }
  }

  /** What purging does to a token depends only on its row, for grants that are not old. */
  lemma SyncedPurge(a: Db, b: Db, a2: Db, b2: Db, g: Id)
    requires Synced(a, b, g) && a.now == b.now && a2.now == a.now && b2.now == b.now && !OldGrant(a, g)
    requires !OldGrant(b, g)
    requires g in a2.grants && g in b2.grants && a2.grants[g] == a.grants[g] && b2.grants[g] == b.grants[g]
    requires forall t :: t in a2.tokens <==> t in a.tokens && !PurgedToken(a, t)
    requires forall t :: t in b2.tokens <==> t in b.tokens && !PurgedToken(b, t)
    requires forall t :: t in a2.tokens ==> a2.tokens[t] == a.tokens[t]
    requires forall t :: t in b2.tokens ==> b2.tokens[t] == b.tokens[t]
    ensures Synced(a2, b2, g)
  {
    forall t | Of(b2, t, g) ensures Of(a2, t, g) && b2.tokens[t] == a2.tokens[t] {
      assert Of(b, t, g) && Of(a, t, g);
      assert PurgedToken(a, t) == PurgedToken(b, t);
    }
    forall t | Of(a2, t, g) && (a2.tokens[t].kind == Refresh || !Expired(a2.tokens[t], a2.now)) ensures Of(b2, t, g) {
      assert Of(a, t, g) && Of(b, t, g);
      assert PurgedToken(a, t) == PurgedToken(b, t);
    }
  }

  lemma PurgedRows(db: Db)
    ensures forall t :: t in PurgeTx(db).tokens <==> t in db.tokens && !PurgedToken(db, t)
    ensures forall t :: t in PurgeTx(db).tokens ==> PurgeTx(db).tokens[t] == db.tokens[t]
  {}

  lemma AgreePurge(x: Sys, y: Sys, g: Id)
    requires Inv(x) && Inv(y) && x.db.now == y.db.now && Synced(x.db, y.db, g)
    ensures Agree(PurgeTx(x.db), PurgeTx(y.db), g)
  {
    SyncedOld(x.db, y.db, g);
    if OldGrant(x.db, g) {
      PurgeOld(x, g);
      PurgeOld(y, g);
    } else {
      PurgeYoung(x, g);
      PurgeYoung(y, g);
      PurgedRows(x.db);
      PurgedRows(y.db);
      SyncedPurge(x.db, y.db, PurgeTx(x.db), PurgeTx(y.db), g);
    }
  }

  lemma SameWorldNext(x: Sys, y: Sys, a: Step)
    requires Both(x, y, a) && SameWorld(x.db, y.db)
    ensures SameWorld(Next(x, a).db, Next(y, a).db)
  {
    if Guarded(a) {
      GuardedWorld(x, a);
      GuardedWorld(y, a);
    } else if a.ExchangeCode? {
      ExchangeWorld(x.db, a);
      ExchangeWorld(y.db, a);
    } else {
      PlainWorld(x.db, y.db, a);
    }
  }

  // ------------------------------------------------------------------ every step

  ghost predicate SameOwners(a: Db, b: Db) {
    forall t :: t in a.tokens && t in b.tokens ==> a.tokens[t].grantId == b.tokens[t].grantId
  }

  /** The two sides agree about the grants in `keep`. Other grants, codes and clients may differ in any way. */
  ghost predicate Alike(x: Sys, y: Sys, keep: set<Id>) {
    && Inv(x) && Inv(y) && keep <= x.hist.used && keep <= y.hist.used
    && SameWorld(x.db, y.db) && SameKin(x, y, keep) && SameOwners(x.db, y.db)
    && forall g :: g in keep ==> Agree(x.db, y.db, g)
  }

  lemma AgreeNext(x: Sys, y: Sys, a: Step, keep: set<Id>, g: Id)
    requires Both(x, y, a) && keep <= x.hist.used && keep <= y.hist.used && SameWorld(x.db, y.db) && SameKin(x, y, keep)
    requires g in keep && Agree(x.db, y.db, g)
    ensures Agree(Next(x, a).db, Next(y, a).db, g)
  {
    if Lost(x.db, y.db, g) {
      LostNext(x, y, a, g);
    } else {
      match a
      case PresentCode(c) => AgreePresent(x, y, c, keep, g);
      case ExchangeCode(_, _, _) =>
        ExchangeKept(x, a, g);
        ExchangeKept(y, a, g);
        AgreeKept(x.db, y.db, Next(x, a).db, Next(y, a).db, g);
      case DeleteOrg(org) => AgreeDeleteOrg(x, y, org, g);
      case DeleteUser(user) => SyncedDeleteUser(x.db, y.db, user, g);
      case Purge => AgreePurge(x, y, g);
      case LoadRefresh(_, _, _) => AgreeGuarded(x, y, a, g);
      case RefreshToken(_, _, _, _, _) => AgreeGuarded(x, y, a, g);
      case RevokeOne(_, _, _) => AgreeGuarded(x, y, a, g);
      case RevokeGrant(_, _) => AgreeGuarded(x, y, a, g);
      case _ =>
        WorldKeepsRows(x.db, a);
        WorldKeepsRows(y.db, a);
        SyncedLater(x.db, y.db, Next(x, a).db, Next(y, a).db, g);
    }
  }

  /** Nor does an id that the other side has used name a new token. */
  lemma NotReissued(s: Sys, a: Step, t: Id)
    requires Enabled(s, a) && t in s.hist.used
    ensures t in Apply(s.db, a).tokens ==> t in s.db.tokens
  {
    if t !in s.db.tokens && t in Apply(s.db, a).tokens {
      NewTokens(s, a, t);
      if a.RefreshToken? { RefreshNewIds(s.db, a, t); } else { ExchangeNewIds(s.db, a, t); }
    }
  }

  lemma RefreshNewIds(db: Db, a: Step, t: Id)
    requires a.RefreshToken? && t in Apply(db, a).tokens && t !in db.tokens
    ensures t == a.ids.refresh || t == a.ids.access
  {}

  lemma ExchangeNewIds(db: Db, a: Step, t: Id)
    requires a.ExchangeCode? && t in Apply(db, a).tokens && t !in db.tokens
    ensures t == a.ids.refresh || t == a.ids.access
  {}

  lemma OwnerNext(x: Sys, y: Sys, a: Step, t: Id)
    requires Both(x, y, a) && SameOwners(x.db, y.db)
    requires t in Next(x, a).db.tokens && t in Next(y, a).db.tokens
    ensures Next(x, a).db.tokens[t].grantId == Next(y, a).db.tokens[t].grantId
  {
    if t in x.db.tokens || t in y.db.tokens {
      if t in x.db.tokens { NotReissued(Sys(y.db, x.hist), a, t); }
      if t in y.db.tokens { NotReissued(Sys(x.db, y.hist), a, t); }
      RowEvolves(x, a, t);
      RowEvolves(y, a, t);
    } else {
      NewTokens(x, a, t);
      NewTokens(y, a, t);
    }
  }

  lemma OwnersNext(x: Sys, y: Sys, a: Step)
    requires Both(x, y, a) && SameOwners(x.db, y.db)
    ensures SameOwners(Next(x, a).db, Next(y, a).db)
  {
    forall t | t in Next(x, a).db.tokens && t in Next(y, a).db.tokens
      ensures Next(x, a).db.tokens[t].grantId == Next(y, a).db.tokens[t].grantId
    {
      OwnerNext(x, y, a, t);
    }
  }

  lemma UsedNext(s: Sys, a: Step)
    ensures s.hist.used <= Next(s, a).hist.used
  {}

  lemma AlikeNext(x: Sys, y: Sys, a: Step, keep: set<Id>)
    requires Alike(x, y, keep) && Enabled(x, a) && Enabled(y, a)
    ensures Alike(Next(x, a), Next(y, a), keep)
  {
    NextInv(x, a);
    NextInv(y, a);
    UsedNext(x, a);
    UsedNext(y, a);
    SameWorldNext(x, y, a);
    SameKinNext(x, y, a, keep);
    OwnersNext(x, y, a);
    forall g | g in keep ensures Agree(Next(x, a).db, Next(y, a).db, g) { AgreeNext(x, y, a, keep, g); }
  }

  // ------------------------------------------------------------------ decisions

  /** The same answers about every token of the grants in `keep`. */
  ghost predicate SameAnswers(a: Db, b: Db, keep: set<Id>) {
    && (forall g, t :: g in keep && (Of(a, t, g) || Of(b, t, g)) ==> PrincipalFor(a, t) == PrincipalFor(b, t))
    && (forall g, t, c :: g in keep ==> RefreshAccepted(a, g, t, c) == RefreshAccepted(b, g, t, c))
  }

  /** An accepted token of an agreed grant is accepted on the other side, with the same principal. */
  lemma PrincipalFromA(x: Sys, y: Sys, t: Id, g: Id)
    requires Inv(x) && Inv(y) && SameWorld(x.db, y.db) && Agree(x.db, y.db, g)
    requires Of(x.db, t, g) && PrincipalFor(x.db, t).Some?
    ensures PrincipalFor(x.db, t) == PrincipalFor(y.db, t)
  {
    AcceptedIsHopeful(x.db, t);
    assert Synced(x.db, y.db, g);
    assert y.db.tokens[t].clientId in y.db.clients;
  }

  lemma PrincipalFromB(x: Sys, y: Sys, t: Id, g: Id)
    requires Inv(x) && Inv(y) && SameWorld(x.db, y.db) && Agree(x.db, y.db, g)
    requires Of(y.db, t, g) && PrincipalFor(y.db, t).Some?
    ensures PrincipalFor(x.db, t) == PrincipalFor(y.db, t)
  {
    AcceptedIsHopeful(y.db, t);
    assert Synced(x.db, y.db, g);
    assert y.db.tokens[t].clientId in y.db.clients;
  }

  lemma AlikePrincipal(x: Sys, y: Sys, keep: set<Id>, g: Id, t: Id)
    requires Alike(x, y, keep) && g in keep && (Of(x.db, t, g) || Of(y.db, t, g))
    ensures PrincipalFor(x.db, t) == PrincipalFor(y.db, t)
  {
    if PrincipalFor(x.db, t).Some? {
      PrincipalFromA(x, y, t, g);
    } else if PrincipalFor(y.db, t).Some? {
      PrincipalFromB(x, y, t, g);
    }
  }

  lemma AlikeRefresh(x: Sys, y: Sys, g: Id, t: Id, c: Id)
    requires SameWorld(x.db, y.db) && Agree(x.db, y.db, g)
    ensures RefreshAccepted(x.db, g, t, c) == RefreshAccepted(y.db, g, t, c)
  {
    if Lost(x.db, y.db, g) {
      HopelessRefuses(x.db, g);
      HopelessRefuses(y.db, g);
    } else {
      SyncedClassify(x.db, y.db, g, t, c);
    }
  }

  lemma AlikeAnswers(x: Sys, y: Sys, keep: set<Id>)
    requires Alike(x, y, keep)
    ensures SameAnswers(x.db, y.db, keep)
  {
    forall g, t | g in keep && (Of(x.db, t, g) || Of(y.db, t, g))
      ensures PrincipalFor(x.db, t) == PrincipalFor(y.db, t)
    {
      AlikePrincipal(x, y, keep, g, t);
    }
    forall g, t, c | g in keep ensures RefreshAccepted(x.db, g, t, c) == RefreshAccepted(y.db, g, t, c) {
      AlikeRefresh(x, y, g, t, c);
    }
  }

  /** Whatever runs on both sides, they answer alike about these grants. */
  lemma {:induction false} AlikeRun(x: Sys, y: Sys, keep: set<Id>, run: seq<Step>)
    requires Alike(x, y, keep) && EnabledRun(x, run) && EnabledRun(y, run)
    ensures SameAnswers(Run(x, run).db, Run(y, run).db, keep)
    decreases |run|
  {
    if run == [] {
      AlikeAnswers(x, y, keep);
    } else {
      AlikeNext(x, y, run[0], keep);
      AlikeRun(Next(x, run[0]), Next(y, run[0]), keep, run[1..]);
    }
  }
}
