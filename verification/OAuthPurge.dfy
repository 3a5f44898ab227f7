/** Retention and token decisions: when `purge_expired` cannot be noticed, and the cases in which it can. */
module OAuthPurge {
  import opened Common
  import opened OAuth
  import opened OAuthRuns
  import opened OAuthInvariant
  import opened OAuthTheorems
  import opened OAuthSync

  // ------------------------------------------------------------------ two tables that decide alike

  /** Codes only in `a` have expired, and if they were exchanged their family is lost. */
  ghost predicate SameCodes(a: Db, b: Db, h: Hist) {
    && (forall c :: c in b.codes ==> c in a.codes && a.codes[c] == b.codes[c])
    && (forall c :: c in a.codes && c !in b.codes ==>
          a.codes[c].expiresAt <= a.now && (c in h.family ==> Lost(a, b, h.family[c].0)))
  }

  ghost predicate Sim(x: Sys, y: Sys) {
    && x.hist == y.hist && Inv(x) && Inv(y)
    && SameWorld(x.db, y.db) && SameCodes(x.db, y.db, x.hist) && SameOwners(x.db, y.db)
    && (forall g :: Agree(x.db, y.db, g))
  }

  ghost predicate SameDecisions(a: Db, b: Db) {
    && (forall t :: PrincipalFor(a, t) == PrincipalFor(b, t))
    && (forall g, t, c :: RefreshAccepted(a, g, t, c) == RefreshAccepted(b, g, t, c))
  }

  lemma SimPrincipal(x: Sys, y: Sys, t: Id)
    requires Sim(x, y)
    ensures PrincipalFor(x.db, t) == PrincipalFor(y.db, t)
  {
    AcceptedIsHopeful(x.db, t);
    AcceptedIsHopeful(y.db, t);
    if PrincipalFor(x.db, t).Some? {
      PrincipalFromA(x, y, t, x.db.tokens[t].grantId.value);
    } else if PrincipalFor(y.db, t).Some? {
      PrincipalFromB(x, y, t, y.db.tokens[t].grantId.value);
    }
  }

  lemma SimDecides(x: Sys, y: Sys)
    requires Sim(x, y)
    ensures SameDecisions(x.db, y.db)
  {
    forall t ensures PrincipalFor(x.db, t) == PrincipalFor(y.db, t) { SimPrincipal(x, y, t); }
    forall g, t, c
      ensures RefreshAccepted(x.db, g, t, c) == RefreshAccepted(y.db, g, t, c)
    {
      AlikeRefresh(x, y, g, t, c);
    }
  }

  // ------------------------------------------------------------------ one step on both sides

  lemma RefreshOutcomes(a: Db, b: Db, g: Id, t: Id, c: Id, scopes: seq<Scope>, ids: NewPair)
    requires SameWorld(a, b) && Agree(a, b, g)
    ensures RefreshTx(a, g, t, c, scopes, ids).1.Issued? == RefreshTx(b, g, t, c, scopes, ids).1.Issued?
  {
    if Lost(a, b, g) {
      HopelessRefuses(a, g);
      HopelessRefuses(b, g);
    } else {
      SyncedRefresh(a, b, g, t, c, scopes, ids);
    }
  }

  lemma SameHistory(x: Sys, y: Sys, a: Step)
    requires Sim(x, y)
    ensures NextHist(x, a) == NextHist(y, a)
  {
    if a.RefreshToken? {
      RefreshOutcomes(x.db, y.db, a.g, a.t, a.c, a.scopes, a.ids);
    } else if a.ExchangeCode? {
      ExchangeOutcomes(x, y, a);
    }
  }

  lemma SyncedNewPair(a1: Db, a2: Db, b1: Db, b2: Db, c: Id, g: Id, ids: NewPair)
    requires PairIssued(a1, a2, g, c, ids) && PairIssued(b1, b2, g, c, ids) && a1.now == b1.now
    requires a1.grants[g] == b1.grants[g] && a2.tokens[ids.access] == b2.tokens[ids.access]
    requires forall t :: !Of(a1, t, g) && !Of(b1, t, g)
    ensures Synced(a2, b2, g)
  {
    forall t | Of(a2, t, g) ensures t == ids.refresh || t == ids.access { assert !Of(a1, t, g); }
    forall t | Of(b2, t, g) ensures t == ids.refresh || t == ids.access { assert !Of(b1, t, g); }
  }

  ghost function Consumed(db: Db, c: Id, g: Id): Db
    requires c in db.codes && db.codes[c].orgId.Some?
  {
    var code := db.codes[c];
    db.(codes := db.codes[c := code.(status := Exchanged)],
        grants := db.grants[g := Grant(code.clientId, code.orgId.value, code.userId, code.scopes, db.now,
                                       None, None, 0)])
  }

  lemma NoTokensYet(s: Sys, c: Id, g: Id)
    requires IdsOk(s) && RefsOk(s) && c in s.db.codes && s.db.codes[c].orgId.Some? && g !in s.hist.used
    ensures forall t :: !Of(Consumed(s.db, c, g), t, g)
  {
    assert forall t :: t in s.db.tokens ==> s.db.tokens[t].grantId != Some(g);
  }

  /** What an exchange leaves of the new grant. */
  lemma NewGrant(s: Sys, a: Step)
    requires Inv(s) && Enabled(s, a) && a.ExchangeCode? && ExchangeCodeTx(s.db, a.code, a.g, a.ids).1.Issued?
    ensures a.code in s.db.codes && s.db.codes[a.code].orgId.Some?
    ensures PairIssued(Consumed(s.db, a.code, a.g), ExchangeCodeTx(s.db, a.code, a.g, a.ids).0, a.g, a.code, a.ids)
    ensures forall t :: !Of(Consumed(s.db, a.code, a.g), t, a.g)
  {
    ExchangeIs(s, a);
    NoTokensYet(s, a.code, a.g);
  }

  lemma SameAccess(a: Db, b: Db, c: Id, g: Id, ids: NewPair)
    requires c in a.codes && c in b.codes && a.codes[c] == b.codes[c] && a.now == b.now
    requires ExchangeCodeTx(a, c, g, ids).1.Issued? && ExchangeCodeTx(b, c, g, ids).1.Issued?
    ensures ids.access in ExchangeCodeTx(a, c, g, ids).0.tokens && ids.access in ExchangeCodeTx(b, c, g, ids).0.tokens
    ensures ExchangeCodeTx(a, c, g, ids).0.tokens[ids.access] == ExchangeCodeTx(b, c, g, ids).0.tokens[ids.access]
  {}

  lemma SyncedNewGrant(x: Sys, y: Sys, a: Step)
    requires Both(x, y, a) && x.db.now == y.db.now && a.ExchangeCode?
    requires a.code in x.db.codes && a.code in y.db.codes && x.db.codes[a.code] == y.db.codes[a.code]
    requires ExchangeCodeTx(x.db, a.code, a.g, a.ids).1.Issued? && ExchangeCodeTx(y.db, a.code, a.g, a.ids).1.Issued?
    ensures Synced(ExchangeCodeTx(x.db, a.code, a.g, a.ids).0, ExchangeCodeTx(y.db, a.code, a.g, a.ids).0, a.g)
  {
    NewGrant(x, a);
    NewGrant(y, a);
    SameAccess(x.db, y.db, a.code, a.g, a.ids);
    SyncedExchange(x, y, a, ExchangeCodeTx(x.db, a.code, a.g, a.ids).0, ExchangeCodeTx(y.db, a.code, a.g, a.ids).0);
  }

  lemma SyncedExchange(x: Sys, y: Sys, a: Step, x2: Db, y2: Db)
    requires a.ExchangeCode? && a.code in x.db.codes && a.code in y.db.codes && x.db.codes[a.code] == y.db.codes[a.code]
    requires x.db.codes[a.code].orgId.Some? && x.db.now == y.db.now
    requires PairIssued(Consumed(x.db, a.code, a.g), x2, a.g, a.code, a.ids)
    requires PairIssued(Consumed(y.db, a.code, a.g), y2, a.g, a.code, a.ids)
    requires x2.tokens[a.ids.access] == y2.tokens[a.ids.access]
    requires forall t :: !Of(Consumed(x.db, a.code, a.g), t, a.g) && !Of(Consumed(y.db, a.code, a.g), t, a.g)
    ensures Synced(x2, y2, a.g)
  {
    SyncedNewPair(Consumed(x.db, a.code, a.g), x2, Consumed(y.db, a.code, a.g), y2, a.code, a.g, a.ids);
  }

  lemma ExchangeOutcomes(x: Sys, y: Sys, a: Step)
    requires Sim(x, y) && a.ExchangeCode?
    ensures ExchangeCodeTx(x.db, a.code, a.g, a.ids).1 == ExchangeCodeTx(y.db, a.code, a.g, a.ids).1
  {}

  lemma SimExchange(x: Sys, y: Sys, a: Step, g: Id)
    requires Sim(x, y) && Enabled(x, a) && Enabled(y, a) && a.ExchangeCode?
    ensures Agree(Next(x, a).db, Next(y, a).db, g)
  {
    ExchangeOutcomes(x, y, a);
    if g == a.g && ExchangeCodeTx(x.db, a.code, a.g, a.ids).1.Issued? {
      SyncedNewGrant(x, y, a);
    } else if g == a.g {
      assert Next(x, a).db == x.db && Next(y, a).db == y.db;
    } else {
      ExchangeKept(x, a, g);
      ExchangeKept(y, a, g);
      AgreeKept(x.db, y.db, Next(x, a).db, Next(y, a).db, g);
    }
  }

  lemma SimAlike(x: Sys, y: Sys)
    requires Sim(x, y)
    ensures Alike(x, y, x.hist.used)
  {}

  lemma UnusedIsHopeless(s: Sys, g: Id)
    requires Inv(s) && g !in s.hist.used
    ensures Hopeless(s.db, g)
  {}

  lemma SimGrants(x: Sys, y: Sys, a: Step, g: Id)
    requires Sim(x, y) && Enabled(x, a) && Enabled(y, a)
    ensures Agree(Next(x, a).db, Next(y, a).db, g)
  {
    if g in x.hist.used {
      SimAlike(x, y);
      AgreeNext(x, y, a, x.hist.used, g);
    } else if a.ExchangeCode? {
      SimExchange(x, y, a, g);
    } else {
      UnusedIsHopeless(x, g);
      UnusedIsHopeless(y, g);
      HopelessNext(x, a, g);
      HopelessNext(y, a, g);
    }
  }

  /** A request names a client that is registered on both sides, or on neither. */
  ghost predicate KnownClient(x: Sys, y: Sys, a: Step) {
    a.Authorize? ==> (a.c in x.db.clients <==> a.c in y.db.clients)
  }

  /** The code rows after a step, on both sides at once. */
  ghost predicate CodesTogether(a: Db, b: Db, a2: Db, b2: Db) {
    && (forall c :: c in b2.codes ==> c in a2.codes && a2.codes[c] == b2.codes[c])
    && (forall c :: c in a2.codes && c !in b2.codes ==>
          c in a.codes && c !in b.codes && a2.codes[c].expiresAt == a.codes[c].expiresAt)
  }

  ghost predicate CodesLag(a: Db, b: Db) {
    && (forall c :: c in b.codes ==> c in a.codes && a.codes[c] == b.codes[c])
    && (forall c :: c in a.codes && c !in b.codes ==> a.codes[c].expiresAt <= a.now)
  }

  lemma DroppedCodes(a: Db, b: Db, s: Step)
    requires CodesLag(a, b) && s.DeleteOrg?
    ensures CodesTogether(a, b, Apply(a, s), Apply(b, s))
  {
    KeptCodes(a, b, DeleteOrgTx(a, s.org), DeleteOrgTx(b, s.org));
  }

  lemma PurgedCodes(a: Db, b: Db, s: Step)
    requires CodesLag(a, b) && a.now == b.now && s.Purge?
    ensures CodesTogether(a, b, Apply(a, s), Apply(b, s))
  {
    KeptCodes(a, b, PurgeTx(a), PurgeTx(b));
  }

  lemma OrphanedCodes(a: Db, b: Db, s: Step)
    requires CodesLag(a, b) && s.DeleteUser?
    ensures CodesTogether(a, b, Apply(a, s), Apply(b, s))
  {}

  /** Rows are only deleted, and by the same condition on both sides. */
  lemma KeptCodes(a: Db, b: Db, a2: Db, b2: Db)
    requires CodesLag(a, b)
    requires forall c :: c in a2.codes ==> c in a.codes && a2.codes[c] == a.codes[c]
    requires forall c :: c in b2.codes ==> c in b.codes && b2.codes[c] == b.codes[c]
    requires forall c :: c in b.codes ==> (c in a2.codes <==> c in b2.codes)
    ensures CodesTogether(a, b, a2, b2)
  {}

  /** The same row is written on both sides, or none. */
  lemma WrittenCode(a: Db, b: Db, a2: Db, b2: Db, c: Id, row: Code)
    requires CodesLag(a, b)
    requires (a2.codes == a.codes[c := row] && b2.codes == b.codes[c := row])
        || (a2.codes == a.codes && b2.codes == b.codes)
    ensures CodesTogether(a, b, a2, b2)
  {}

  lemma DecidingCodes(a: Db, b: Db, s: Step)
    requires SameWorld(a, b) && CodesLag(a, b) && (s.Authorize? || s.Approve? || s.Deny?)
    requires s.Authorize? ==> (s.c in a.clients <==> s.c in b.clients) && s.code !in a.codes && s.code !in b.codes
    ensures CodesTogether(a, b, Apply(a, s), Apply(b, s))
  {
    var a2, b2 := Apply(a, s), Apply(b, s);
    assert !s.Authorize? ==> Decidable(a, s.code) == Decidable(b, s.code);
    var row := if s.code in a2.codes then a2.codes[s.code] else Code(0, None, None, [], Pending, 0);
    if a2.codes == a.codes {
      assert b2.codes == b.codes;
    } else {
      assert a2.codes == a.codes[s.code := row];
      assert b2.codes == b.codes[s.code := row];
    }
    WrittenCode(a, b, a2, b2, s.code, row);
  }

  lemma PlainCodes(a: Db, b: Db, s: Step)
    requires SameWorld(a, b) && CodesLag(a, b) && !Guarded(s) && !s.ExchangeCode?
    requires s.Authorize? ==> (s.c in a.clients <==> s.c in b.clients) && s.code !in a.codes && s.code !in b.codes
    ensures CodesTogether(a, b, Apply(a, s), Apply(b, s))
  {
    if s.Purge? {
      PurgedCodes(a, b, s);
    } else if s.DeleteOrg? {
      DroppedCodes(a, b, s);
    } else if s.DeleteUser? {
      OrphanedCodes(a, b, s);
    } else if s.Authorize? || s.Approve? || s.Deny? {
      DecidingCodes(a, b, s);
    } else {
      assert Apply(a, s).codes == a.codes && Apply(b, s).codes == b.codes;
    }
  }

  lemma CodeRowsNext(x: Sys, y: Sys, a: Step)
    requires Sim(x, y) && Enabled(x, a) && Enabled(y, a) && KnownClient(x, y, a)
    ensures CodesTogether(x.db, y.db, Next(x, a).db, Next(y, a).db)
    ensures forall c :: c in Next(x, a).hist.family && c !in x.hist.family ==> c in x.db.codes && c in y.db.codes
  {
    assert CodesLag(x.db, y.db);
    if Guarded(a) {
      GuardedWorld(x, a);
      GuardedWorld(y, a);
    } else if a.ExchangeCode? {
      ExchangeOutcomes(x, y, a);
      ExchangeWorld(x.db, a);
      ExchangeWorld(y.db, a);
    } else {
      PlainCodes(x.db, y.db, a);
    }
  }

  lemma SameCodesNext(x: Sys, y: Sys, a: Step)
    requires Sim(x, y) && Enabled(x, a) && Enabled(y, a) && KnownClient(x, y, a)
    ensures SameCodes(Next(x, a).db, Next(y, a).db, Next(x, a).hist)
  {
    CodeRowsNext(x, y, a);
    var x2, y2 := Next(x, a), Next(y, a);
    forall c | c in x2.db.codes && c !in y2.db.codes
      ensures x2.db.codes[c].expiresAt <= x2.db.now && (c in x2.hist.family ==> Lost(x2.db, y2.db, x2.hist.family[c].0))
    {
      ClockMoves(x, a);
      if c in x2.hist.family {
        assert c in x.hist.family && x.hist.family[c].0 in x.hist.used;
        FamilyKept(x, a, c);
        LostNext(x, y, a, x.hist.family[c].0);
      }
    }
  }

  lemma ClockMoves(s: Sys, a: Step)
    requires Enabled(s, a)
    ensures s.db.now <= Next(s, a).db.now
  {}

  lemma SimNext(x: Sys, y: Sys, a: Step)
    requires Sim(x, y) && Enabled(x, a) && Enabled(y, a) && KnownClient(x, y, a)
    ensures Sim(Next(x, a), Next(y, a))
  {
    NextInv(x, a);
    NextInv(y, a);
    SameHistory(x, y, a);
    SameWorldNext(x, y, a);
    SameCodesNext(x, y, a);
    OwnersNext(x, y, a);
    forall g ensures Agree(Next(x, a).db, Next(y, a).db, g) { SimGrants(x, y, a, g); }
  }

  // ------------------------------------------------------------------ when retention is silent

  /** No code that is about to be deleted leads to a grant that can still be used. */
  ghost predicate PurgeIsSilent(db: Db) {
    forall c, g :: c in db.codes && PurgedCode(db, c) && g in ReplayTargets(db, c) ==> Hopeless(db, g)
  }

  /** A continuation that both sides can take: ids are new on both, and requests come from clients that both know. */
  ghost predicate Joint(x: Sys, y: Sys, run: seq<Step>)
    decreases |run|
  {
    run == [] || (Enabled(x, run[0]) && Enabled(y, run[0]) && KnownClient(x, y, run[0])
                  && Joint(Next(x, run[0]), Next(y, run[0]), run[1..]))
  }

  lemma SilentGrants(s: Sys, g: Id)
    requires Inv(s)
    ensures Lost(s.db, PurgeTx(s.db), g) || Synced(s.db, PurgeTx(s.db), g)
  {
    if g in s.db.grants && !OldGrant(s.db, g) {
      SilentYoung(s, g);
    } else {
      PurgeOld(s, g);
      OldIsHopeless(s, g);
    }
  }

  lemma SilentYoung(s: Sys, g: Id)
    requires Inv(s) && g in s.db.grants && !OldGrant(s.db, g)
    ensures Synced(s.db, PurgeTx(s.db), g)
  {
    PurgeYoung(s, g);
  }

  lemma OldIsHopeless(s: Sys, g: Id)
    requires Inv(s) && (OldGrant(s.db, g) || g !in s.db.grants)
    ensures Hopeless(s.db, g)
  {
    if g in s.db.grants { OldGrantIsDead(s, g); }
  }

  lemma SilentCodes(s: Sys)
    requires Inv(s) && PurgeIsSilent(s.db)
    ensures SameCodes(s.db, PurgeTx(s.db), s.hist)
  {
    forall c | c in s.db.codes && c !in PurgeTx(s.db).codes && c in s.hist.family
      ensures Lost(s.db, PurgeTx(s.db), s.hist.family[c].0)
    {
      var g := s.hist.family[c].0;
      assert PurgedCode(s.db, c);
      ReplayFindsGrant(s, c);
      assert Hopeless(s.db, g);
      HopelessNext(s, Purge, g);
    }
  }

  lemma SilentStart(s: Sys)
    requires Inv(s) && PurgeIsSilent(s.db)
    ensures Sim(s, Next(s, Purge))
  {
    PurgeInv(s);
    SilentCodes(s);
    PurgedRows(s.db);
    forall g ensures Lost(s.db, PurgeTx(s.db), g) || Synced(s.db, PurgeTx(s.db), g) { SilentGrants(s, g); }
  }

  lemma {:induction false} SimRun(x: Sys, y: Sys, run: seq<Step>)
    requires Sim(x, y) && Joint(x, y, run)
    ensures SameDecisions(Run(x, run).db, Run(y, run).db)
    decreases |run|
  {
    if run == [] {
      SimDecides(x, y);
    } else {
      SimNext(x, y, run[0]);
      SimRun(Next(x, run[0]), Next(y, run[0]), run[1..]);
    }
  }

  // ------------------------------------------------------------------ when it is not

  /** Bringing the user of a token back into the organization touches neither codes, grants nor tokens. */
  function Reinstated(db: Db, org: Id, user: Id): Db {
    db.(orgs := db.orgs + {org}, users := db.users + {user}, members := db.members[(org, user) := Owner])
  }

  function Probe(org: Id, user: Id, c: Id): seq<Step> {
    [AddOrg(org), AddUser(user), SetRole(org, user, Owner), PresentCode(c)]
  }

  lemma ProbeRun(x: Sys, y: Sys, org: Id, user: Id, c: Id)
    ensures Run(x, Probe(org, user, c)) == Sys(PresentCodeTx(Reinstated(x.db, org, user), c), x.hist)
    ensures Joint(x, y, Probe(org, user, c))
  {
    var run := Probe(org, user, c);
    var x1, y1 := Next(x, run[0]), Next(y, run[0]);
    var x2, y2 := Next(x1, run[1]), Next(y1, run[1]);
    var x3, y3 := Next(x2, run[2]), Next(y2, run[2]);
    assert run[1..] == [run[1], run[2], run[3]] && run[1..][1..] == [run[2], run[3]] && run[1..][1..][1..] == [run[3]];
    assert x3.db == Reinstated(x.db, org, user);
    assert Run(x3, [run[3]]) == Next(x3, run[3]) by { assert [run[3]][1..] == []; }
    assert Joint(x3, y3, [run[3]]) by { assert [run[3]][1..] == []; }
    assert Run(x2, [run[2], run[3]]) == Run(x3, [run[3]]);
    assert Joint(x2, y2, [run[2], run[3]]);
    assert Run(x1, run[1..]) == Run(x2, [run[2], run[3]]);
    assert Joint(x1, y1, run[1..]);
  }

  ghost predicate Accepts(db: Db, t: Id, g: Id) {
    PrincipalFor(db, t).Some? || (t in db.tokens && RefreshAccepted(db, g, t, db.tokens[t].clientId))
  }

  lemma SameAnswersAccept(a: Db, b: Db, t: Id, g: Id)
    requires SameAnswers(a, b, {g}) && Of(b, t, g) && Accepts(b, t, g)
    ensures Accepts(a, t, g)
  {
    if PrincipalFor(b, t).None? {
      assert RefreshAccepted(a, g, t, b.tokens[t].clientId);
    }
  }

  /** A hopeful token is accepted as soon as its user is a member again. */
  lemma HopefulAccepted(s: Sys, t: Id, g: Id)
    requires Inv(s) && Of(s.db, t, g) && Hopeful(s.db, t)
    ensures Accepts(Reinstated(s.db, s.db.tokens[t].orgId, s.db.tokens[t].userId.value), t, g)
  {
    assert GrantOk(s, g) && RowOk(s, t, g);
  }

  lemma ReplayRefuses(db: Db, c: Id, g: Id, t: Id)
    requires g in ReplayTargets(db, c) && Of(db, t, g) && g in db.grants
    ensures !Accepts(PresentCodeTx(db, c), t, g)
  {
    assert PresentCodeTx(db, c).tokens[t].revokedAt.Some? && PresentCodeTx(db, c).grants[g].revokedAt.Some?;
  }

  lemma ReplayMissesPurgedCode(s: Sys, c: Id, org: Id, user: Id)
    requires c in s.db.codes && PurgedCode(s.db, c)
    ensures PresentCodeTx(Reinstated(PurgeTx(s.db), org, user), c) == Reinstated(PurgeTx(s.db), org, user)
  {
    RevokeNone(Reinstated(PurgeTx(s.db), org, user), CodeReplay);
  }

  lemma HopefulSurvivesPurge(s: Sys, g: Id, t: Id)
    requires Inv(s) && Of(s.db, t, g) && Hopeful(s.db, t)
    ensures var y := PurgeTx(s.db); Of(y, t, g) && y.tokens[t] == s.db.tokens[t] && Hopeful(y, t)
  {
    if OldGrant(s.db, g) { OldGrantIsDead(s, g); }
    PurgeYoung(s, g);
    PurgeInv(s);
    assert PurgeTx(s.db).tokens[t].clientId in PurgeTx(s.db).clients;
  }

  lemma WithoutPurgeRefused(s: Sys, c: Id, g: Id, t: Id, org: Id, user: Id)
    requires g in ReplayTargets(s.db, c) && Of(s.db, t, g) && g in s.db.grants
    ensures !Accepts(PresentCodeTx(Reinstated(s.db, org, user), c), t, g)
  {
    var a := Reinstated(s.db, org, user);
    assert ReplayTargets(a, c) == ReplayTargets(s.db, c);
    ReplayRefuses(a, c, g, t);
  }

  lemma PurgedStillAccepts(s: Sys, g: Id, t: Id)
    requires Inv(s) && Of(s.db, t, g) && Hopeful(s.db, t)
    ensures Accepts(Reinstated(PurgeTx(s.db), s.db.tokens[t].orgId, s.db.tokens[t].userId.value), t, g)
  {
    var y := Sys(PurgeTx(s.db), s.hist);
    PurgeInv(s);
    HopefulSurvivesPurge(s, g, t);
    HopefulAccepted(y, t, g);
  }

  lemma ProbesDiffer(s: Sys, c: Id, g: Id, t: Id, org: Id, user: Id)
    requires c in s.db.codes && PurgedCode(s.db, c) && g in ReplayTargets(s.db, c) && Of(s.db, t, g) && g in s.db.grants
    requires Of(PurgeTx(s.db), t, g) && Accepts(Reinstated(PurgeTx(s.db), org, user), t, g)
    ensures var x2 := PresentCodeTx(Reinstated(s.db, org, user), c);
      var y2 := PresentCodeTx(Reinstated(PurgeTx(s.db), org, user), c);
      !SameAnswers(x2, y2, {g})
  {
    var x2, y2 := PresentCodeTx(Reinstated(s.db, org, user), c), PresentCodeTx(Reinstated(PurgeTx(s.db), org, user), c);
    WithoutPurgeRefused(s, c, g, t, org, user);
    ReplayMissesPurgedCode(s, c, org, user);
    assert Of(y2, t, g);
    if SameAnswers(x2, y2, {g}) { SameAnswersAccept(x2, y2, t, g); }
  }

  lemma ProbeNotices(s: Sys, y: Sys, c: Id, g: Id, t: Id, org: Id, user: Id)
    requires y.db == PurgeTx(s.db) && c in s.db.codes && PurgedCode(s.db, c) && g in ReplayTargets(s.db, c)
    requires Of(s.db, t, g) && g in s.db.grants && Of(y.db, t, g) && Accepts(Reinstated(PurgeTx(s.db), org, user), t, g)
    ensures Joint(s, y, Probe(org, user, c))
    ensures !SameAnswers(Run(s, Probe(org, user, c)).db, Run(y, Probe(org, user, c)).db, {g})
  {
    ProbesDiffer(s, c, g, t, org, user);
    ProbeRun(s, y, org, user, c);
    ProbeRun(y, y, org, user, c);
  }

  lemma PurgeNext(s: Sys)
    ensures Next(s, Purge) == Sys(PurgeTx(s.db), s.hist)
  {}

  lemma HopefulGrant(s: Sys, g: Id, t: Id)
    requires Inv(s) && Of(s.db, t, g)
    ensures g in s.db.grants
  {}

  lemma SurvivorAccepts(s: Sys, g: Id, t: Id)
    requires Inv(s) && Of(s.db, t, g) && Hopeful(s.db, t)
    ensures g in s.db.grants && Of(PurgeTx(s.db), t, g)
    ensures Accepts(Reinstated(PurgeTx(s.db), s.db.tokens[t].orgId, s.db.tokens[t].userId.value), t, g)
  {
    HopefulGrant(s, g, t);
    HopefulSurvivesPurge(s, g, t);
    PurgedStillAccepts(s, g, t);
  }

  /** Retention is not among the steps. */
  predicate NoPurge(run: seq<Step>) { forall a :: a in run ==> !a.Purge? }

  lemma ProbeHasNoPurge(org: Id, user: Id, c: Id)
    ensures NoPurge(Probe(org, user, c))
  {}

  /** Purging a code whose family still lives is noticed by whoever presents that code again. */
  lemma PurgeIsNoticed(s: Sys, c: Id, g: Id, t: Id) returns (run: seq<Step>)
    requires Inv(s) && c in s.db.codes && PurgedCode(s.db, c) && g in ReplayTargets(s.db, c)
    requires Of(s.db, t, g) && Hopeful(s.db, t)
    ensures Joint(s, Next(s, Purge), run) && NoPurge(run)
    ensures !SameAnswers(Run(s, run).db, Run(Next(s, Purge), run).db, {g})
  {
    var org, user := s.db.tokens[t].orgId, s.db.tokens[t].userId.value;
    run := Probe(org, user, c);
    ProbeHasNoPurge(org, user, c);
    PurgeNext(s);
    SurvivorAccepts(s, g, t);
    ProbeNotices(s, Sys(PurgeTx(s.db), s.hist), c, g, t, org, user);
  }

  /** If retention is not silent, a short run shows it on a grant that existed before. */
  lemma LoudIsNoticed(s: Sys) returns (g: Id, run: seq<Step>)
    requires Inv(s) && !PurgeIsSilent(s.db)
    ensures g in s.hist.used && Joint(s, Next(s, Purge), run) && NoPurge(run)
    ensures !SameAnswers(Run(s, run).db, Run(Next(s, Purge), run).db, {g})
  {
    var c, h :| c in s.db.codes && PurgedCode(s.db, c) && h in ReplayTargets(s.db, c) && !Hopeless(s.db, h);
    var t :| Of(s.db, t, h) && Hopeful(s.db, t);
    HopefulGrant(s, h, t);
    g := h;
    run := PurgeIsNoticed(s, c, g, t);
  }

  lemma {:induction false} JointEnabled(x: Sys, y: Sys, run: seq<Step>)
    requires Joint(x, y, run)
    ensures EnabledRun(x, run) && EnabledRun(y, run)
    decreases |run|
  {
    if run != [] {
      JointEnabled(Next(x, run[0]), Next(y, run[0]), run[1..]);
    }
  }

  // ------------------------------------------------------------------ exactly when it can be noticed

  /** On the grants that have ever existed, retention shows in no continuation at all exactly when no code it deletes
      leads to a grant that can still be used. The code rows go a day after they expire, the grants live on: a second
      presentation of a code after that day is refused, but it no longer revokes the family. */
  lemma PurgeSparesGrantsIffSilent(s: Sys)
    requires Inv(s)
    ensures PurgeIsSilent(s.db) <==>
            forall run :: EnabledRun(s, run) && EnabledRun(Next(s, Purge), run) ==>
              SameAnswers(Run(s, run).db, Run(Next(s, Purge), run).db, s.hist.used)
  {
    var y := Next(s, Purge);
    if PurgeIsSilent(s.db) {
      SilentStart(s);
      SimAlike(s, y);
      forall run | EnabledRun(s, run) && EnabledRun(y, run)
        ensures SameAnswers(Run(s, run).db, Run(y, run).db, s.hist.used)
      {
        AlikeRun(s, y, s.hist.used, run);
      }
    } else {
      var g, run := LoudIsNoticed(s);
      JointEnabled(s, y, run);
      assert SameAnswers(Run(s, run).db, Run(y, run).db, s.hist.used) ==>
          SameAnswers(Run(s, run).db, Run(y, run).db, {g});
    }
  }

  lemma DecisionsAnswer(a: Db, b: Db, keep: set<Id>)
    requires SameDecisions(a, b)
    ensures SameAnswers(a, b, keep)
  {}

  /** On all grants, also those issued later, the same condition is exact for the continuations in which requests come
      from clients that are registered on both sides, or on neither. */
  lemma PurgeInvisibleIffSilent(s: Sys)
    requires Inv(s)
    ensures PurgeIsSilent(s.db) <==>
            forall run :: Joint(s, Next(s, Purge), run) ==> SameDecisions(Run(s, run).db, Run(Next(s, Purge), run).db)
  {
    var y := Next(s, Purge);
    if PurgeIsSilent(s.db) {
      SilentStart(s);
      forall run | Joint(s, y, run) ensures SameDecisions(Run(s, run).db, Run(y, run).db) { SimRun(s, y, run); }
    } else {
      var g, run := LoudIsNoticed(s);
      if SameDecisions(Run(s, run).db, Run(y, run).db) { DecisionsAnswer(Run(s, run).db, Run(y, run).db, {g}); }
    }
  }
}
