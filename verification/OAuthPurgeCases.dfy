/** Reachable states in which retention shows: by a deleted code, by a deleted client, and by what a later retention
    step makes of the difference. */
module OAuthPurgeCases {
  import opened Common
  import opened OAuth
  import opened OAuthRuns
  import opened OAuthInvariant
  import opened OAuthTheorems
  import opened OAuthSync
  import opened OAuthPurge
  import opened OAuthPurgeClients

  // ------------------------------------------------------------------ reachable states

  const EMPTY := Sys(Db(0, {}, {}, map[], map[], map[], map[], map[]), Hist({}, map[], map[]))

  const READY := Db(0, {2}, {3}, map[(2, 3) := Owner], map[1 := Client(0, None)], map[], map[], map[])
  const REQUESTED := READY.(codes := map[4 := Code(1, None, None, [RunsRead], Pending, 600)])
  const CONSENTED := READY.(codes := map[4 := Code(1, Some(2), Some(3), [RunsRead], Approved, 60)])
  const EXCHANGED := READY.(
    codes := map[4 := Code(1, Some(2), Some(3), [RunsRead], Exchanged, 60)],
    grants := map[5 := Grant(1, 2, Some(3), [RunsRead], 0, None, None, 0)],
    tokens := map[6 := Token(Refresh, 1, Some(5), 2, Some(3), [RunsRead], Some(4), 0, Some(2592000), None, None),
                  7 := Token(Access, 1, Some(5), 2, Some(3), [RunsRead], Some(6), 0, Some(3600), None, None)])
  const WITH_CODE := Hist({4}, map[], map[])
  const WITH_PAIR := Hist({4, 5, 6, 7}, map[6 := 5], map[4 := (5, 6)])

  /** State `s2` can be reached from `s`. */
  ghost predicate Reaches(s: Sys, s2: Sys) { exists run :: EnabledRun(s, run) && Run(s, run) == s2 }

  lemma Then(s: Sys, s1: Sys, a: Step, s2: Sys)
    requires Reaches(s, s1) && Enabled(s1, a) && Next(s1, a) == s2
    ensures Reaches(s, s2)
  {
    var run :| EnabledRun(s, run) && Run(s, run) == s1;
    RunThen(s, run, a);
  }

  lemma ReachesSelf(s: Sys)
    ensures Reaches(s, s)
  {
    assert EnabledRun(s, []) && Run(s, []) == s;
  }

  const WITH_CLIENT := EMPTY.db.(clients := map[1 := Client(0, None)])
  const WITH_ORG := WITH_CLIENT.(orgs := {2})
  const WITH_USER := WITH_ORG.(users := {3})

  lemma ReachesOrg()
    ensures Reaches(EMPTY, Sys(WITH_ORG, EMPTY.hist))
  {
    var h := EMPTY.hist;
    ReachesSelf(EMPTY);
    Then(EMPTY, EMPTY, RegisterClient(1), Sys(WITH_CLIENT, h));
    Then(EMPTY, Sys(WITH_CLIENT, h), AddOrg(2), Sys(WITH_ORG, h));
  }

  lemma ReachesReady()
    ensures Reaches(EMPTY, Sys(READY, EMPTY.hist))
  {
    var h := EMPTY.hist;
    ReachesOrg();
    Then(EMPTY, Sys(WITH_ORG, h), AddUser(3), Sys(WITH_USER, h));
    Then(EMPTY, Sys(WITH_USER, h), SetRole(2, 3, Owner), Sys(READY, h));
  }

  lemma ConsentStep()
    ensures ApproveTx(REQUESTED, 4, 2, 3, {RunsRead}) == CONSENTED
  {
    var grantable := GrantableScopes([RunsRead], Some(Owner));
    assert [RunsRead][1..] == [];
    assert grantable == [RunsRead];
    assert Chosen(grantable, {RunsRead}) == [RunsRead];
  }

  lemma ExchangeStep()
    ensures Next(Sys(CONSENTED, WITH_CODE), ExchangeCode(4, 5, NewPair(6, 7, Ttl(3600, 2592000))))
        == Sys(EXCHANGED, WITH_PAIR)
  {
    assert ExchangeCodeTx(CONSENTED, 4, 5, NewPair(6, 7, Ttl(3600, 2592000))).0 == EXCHANGED;
  }

  lemma ReachesExchanged()
    ensures Reaches(EMPTY, Sys(EXCHANGED, WITH_PAIR))
  {
    ReachesReady();
    Then(EMPTY, Sys(READY, EMPTY.hist), Authorize(4, 1, [RunsRead], 600), Sys(REQUESTED, WITH_CODE));
    ConsentStep();
    Then(EMPTY, Sys(REQUESTED, WITH_CODE), Approve(4, 2, 3, {RunsRead}), Sys(CONSENTED, WITH_CODE));
    ExchangeStep();
    Then(EMPTY, Sys(CONSENTED, WITH_CODE), ExchangeCode(4, 5, NewPair(6, 7, Ttl(3600, 2592000))),
        Sys(EXCHANGED, WITH_PAIR));
  }

  lemma ReachedInv(s: Sys)
    requires Reaches(EMPTY, s)
    ensures Inv(s)
  {
    InitInv(EMPTY);
    var run :| EnabledRun(EMPTY, run) && Run(EMPTY, run) == s;
    RunInv(EMPTY, run);
  }

  // ------------------------------------------------------------------ a deleted code

  /** A reachable state in which retention deletes the evidence that a code was used while its grant is alive (a bit
      more than a day after the exchange): the claim that retention never shows is false of the code. */
  lemma PurgeCanBeNoticed()
    ensures Init(EMPTY)
    ensures exists s :: Reaches(EMPTY, s) && !PurgeIsSilent(s.db)
  {
    var late := Sys(EXCHANGED.(now := 90000), WITH_PAIR);
    ReachesExchanged();
    Then(EMPTY, Sys(EXCHANGED, WITH_PAIR), Tick(90000), late);
    LateIsNotSilent();
  }

  lemma LateIsNotSilent()
    ensures !PurgeIsSilent(EXCHANGED.(now := 90000))
  {
    var db := EXCHANGED.(now := 90000);
    assert 6 in db.tokens && Of(db, 6, 5) && Hopeful(db, 6);
    assert db.tokens[6].parentId == Some(4);
    assert 5 in ReplayTargets(db, 4) && PurgedCode(db, 4);
    assert !Hopeless(db, 5);
  }

  // ------------------------------------------------------------------ a deleted client

  const IDLE := Sys(READY.(now := 90000), EMPTY.hist)
  const FIRST_PAIR := NewPair(6, 7, Ttl(3600, 2592000))

  lemma ServedOnce(x: Sys, y: Sys)
    requires Inv(y) && x.hist == y.hist == EMPTY.hist && Seated(x.db, 2, 3) && 1 in x.db.clients && 1 !in y.db.clients
    ensures var run := Sequel(4, 1, 2, 3, 5, FIRST_PAIR);
      && EnabledRun(x, run) && EnabledRun(y, run)
      && RefreshAccepted(Run(x, run).db, 5, 6, 1) && !RefreshAccepted(Run(y, run).db, 5, 6, 1)
  {
    SequelEnabled(x, 4, 1, 2, 3, 5, FIRST_PAIR);
    SequelEnabled(y, 4, 1, 2, 3, 5, FIRST_PAIR);
    KnownIsServed(x, 4, 1, 2, 3, 5, FIRST_PAIR);
    UnknownIsRefused(y, 4, 1, 2, 3, 5, FIRST_PAIR);
  }

  lemma ReachesIdle()
    ensures Reaches(EMPTY, IDLE) && Inv(IDLE)
  {
    ReachesReady();
    Then(EMPTY, Sys(READY, EMPTY.hist), Tick(90000), IDLE);
    ReachedInv(IDLE);
  }

  /** A client that never asked for anything is deleted after a day. It registers, waits, and asks: without the
      retention step it is served. */
  lemma ClientPurgeShows() returns (s: Sys, run: seq<Step>)
    ensures Reaches(EMPTY, s) && PurgeIsSilent(s.db) && EnabledRun(s, run) && EnabledRun(Next(s, Purge), run)
    ensures RefreshAccepted(Run(s, run).db, 5, 6, 1) && !RefreshAccepted(Run(Next(s, Purge), run).db, 5, 6, 1)
  {
    s, run := IDLE, Sequel(4, 1, 2, 3, 5, FIRST_PAIR);
    ReachesIdle();
    PurgeNext(s);
    IdleIsServedOnce();
  }

  lemma IdleIsServedOnce()
    requires Inv(IDLE)
    ensures var run, y := Sequel(4, 1, 2, 3, 5, FIRST_PAIR), Sys(PurgeTx(IDLE.db), EMPTY.hist);
      && EnabledRun(IDLE, run) && EnabledRun(y, run)
      && RefreshAccepted(Run(IDLE, run).db, 5, 6, 1) && !RefreshAccepted(Run(y, run).db, 5, 6, 1)
  {
    PurgeInv(IDLE);
    IdleClientGoes();
    ServedOnce(IDLE, Sys(PurgeTx(IDLE.db), EMPTY.hist));
  }

  lemma IdleClientGoes()
    ensures 1 !in PurgeTx(READY.(now := 90000)).clients
  {}

  // ------------------------------------------------------------------ a later retention step

  /** A day after the exchange; the user of the grant has been deleted in the meantime. */
  const ORPHANED := READY.(
    now := 90000, users := {}, members := map[],
    codes := map[4 := Code(1, Some(2), None, [RunsRead], Exchanged, 60)],
    grants := map[5 := Grant(1, 2, None, [RunsRead], 0, None, None, 0)],
    tokens := map[6 := Token(Refresh, 1, Some(5), 2, None, [RunsRead], Some(4), 0, Some(2592000), None, None),
                  7 := Token(Access, 1, Some(5), 2, None, [RunsRead], Some(6), 0, Some(3600), None, None)])

  lemma ReachesOrphaned()
    ensures Reaches(EMPTY, Sys(ORPHANED, WITH_PAIR))
  {
    var gone := ORPHANED.(now := 0);
    ReachesExchanged();
    UserGone();
    Then(EMPTY, Sys(EXCHANGED, WITH_PAIR), DeleteUser(3), Sys(gone, WITH_PAIR));
    Then(EMPTY, Sys(gone, WITH_PAIR), Tick(90000), Sys(ORPHANED, WITH_PAIR));
  }

  lemma UserGone()
    ensures DeleteUserTx(EXCHANGED, 3) == ORPHANED.(now := 0)
  {
    var db := DeleteUserTx(EXCHANGED, 3);
    assert db.users == {} && db.members == map[];
    UserGoneFromGrant();
    UserGoneFromTokens();
  }

  lemma UserGoneFromGrant()
    ensures DeleteUserTx(EXCHANGED, 3).codes == ORPHANED.codes && DeleteUserTx(EXCHANGED, 3).grants == ORPHANED.grants
  {}

  lemma UserGoneFromTokens()
    ensures DeleteUserTx(EXCHANGED, 3).tokens == ORPHANED.tokens
  {}

  lemma OrphanedIsSilent()
    ensures PurgeIsSilent(ORPHANED)
  {
    forall g ensures Hopeless(ORPHANED, g) {}
  }

  /** What is left of the grant of code 4, as long as its refresh token is recent. */
  ghost predicate Orphan(db: Db) {
    && db.now < 5000000 && 5 in db.grants && db.grants[5].clientId == 1 && db.grants[5].revokedAt.None?
    && Of(db, 6, 5) && db.tokens[6].kind == Refresh && db.tokens[6].expiresAt == Some(2592000)
  }

  lemma OrphanIsYoung(db: Db)
    requires Orphan(db)
    ensures !OldGrant(db, 5)
  {
    assert RecentRefresh(db, 5);
  }

  lemma OrphanStays(s: Sys)
    requires Inv(s) && Orphan(s.db)
    ensures Orphan(PurgeTx(s.db))
  {
    OrphanIsYoung(s.db);
    PurgeYoung(s, 5);
  }

  lemma OrphanHasClient(s: Sys)
    requires Inv(s) && Orphan(s.db)
    ensures 1 in s.db.clients
  {}

  const REPLAYED := ORPHANED.(
    now := 2682000,
    grants := map[5 := Grant(1, 2, None, [RunsRead], 0, Some(90000), Some(CodeReplay), 1)],
    tokens := map[6 := Token(Refresh, 1, Some(5), 2, None, [RunsRead], Some(4), 0, Some(2592000), Some(90000), None),
                  7 := Token(Access, 1, Some(5), 2, None, [RunsRead], Some(6), 0, Some(3600), Some(90000), None)])

  lemma ReplayRevokesOrphan()
    ensures PresentCodeTx(ORPHANED, 4) == REPLAYED.(now := 90000)
  {
    OrphanTargets();
    RevokedOrphan();
  }

  lemma OrphanTargets()
    ensures ReplayTargets(ORPHANED, 4) == {5}
  {
    assert 6 in ORPHANED.tokens && ORPHANED.tokens[6].parentId == Some(4);
  }

  lemma RevokedOrphan()
    ensures RevokeAll(ORPHANED, {5}, CodeReplay) == REPLAYED.(now := 90000)
  {
    RevokedOrphanTokens();
    assert RevokeAll(ORPHANED, {5}, CodeReplay).grants == REPLAYED.grants;
  }

  lemma RevokedOrphanTokens()
    ensures RevokeAll(ORPHANED, {5}, CodeReplay).tokens == REPLAYED.tokens
  {}

  /** Thirty days after its revocation the grant goes, and its client with it. */
  lemma ReplayedGoes()
    ensures 1 !in PurgeTx(REPLAYED).clients
  {
    var db1 := PurgeCodesAndTokens(REPLAYED);
    assert OldGrant(REPLAYED, 5);
    assert db1.codes == map[];
    assert db1.tokens == map[];
    assert PurgeGrants(db1).grants == map[];
    assert !ClientInUse(PurgeGrants(db1), 1);
  }

  function Later(db: Db): Db { db.(now := db.now + 2592000) }

  ghost function ThreeSteps(s: Sys): Sys { Next(Next(Next(s, PresentCode(4)), Tick(2592000)), Purge) }

  lemma ThreeStepsInv(s: Sys)
    requires Inv(s)
    ensures Inv(ThreeSteps(s))
  {
    var s1 := Next(s, PresentCode(4));
    NextInv(s, PresentCode(4));
    NextInv(s1, Tick(2592000));
    NextInv(Next(s1, Tick(2592000)), Purge);
  }

  lemma ThreeStepsAre(s: Sys)
    ensures ThreeSteps(s) == Sys(PurgeTx(Later(PresentCodeTx(s.db, 4))), s.hist)
  {
    assert Next(s, PresentCode(4)) == Sys(PresentCodeTx(s.db, 4), s.hist);
  }

  lemma LaterInv(s: Sys)
    requires Inv(s)
    ensures Inv(Sys(Later(s.db), s.hist))
  {
    NextInv(s, Tick(2592000));
  }

  lemma OrphanedCodeGoes()
    ensures Orphan(ORPHANED) && PurgeTx(ORPHANED).now == 90000 && 4 !in PurgeTx(ORPHANED).codes
  {}

  /** On the side that retention has purged, the replay finds no code, and the grant stays longer. */
  lemma PurgedSide(s: Sys) returns (y3: Sys)
    requires s == Sys(ORPHANED, WITH_PAIR) && Inv(s)
    ensures y3 == ThreeSteps(Sys(PurgeTx(ORPHANED), WITH_PAIR)) && Inv(y3) && y3.hist == WITH_PAIR && 1 in y3.db.clients
  {
    var y := Sys(PurgeTx(ORPHANED), WITH_PAIR);
    PurgeInv(s);
    OrphanedCodeGoes();
    OrphanStays(s);
    PurgedSideFrom(y);
    y3 := ThreeSteps(y);
  }

  lemma PurgedSideFrom(y: Sys)
    requires Inv(y) && y.hist == WITH_PAIR && Orphan(y.db) && y.db.now == 90000 && 4 !in y.db.codes
    ensures Inv(ThreeSteps(y)) && ThreeSteps(y).hist == WITH_PAIR && 1 in ThreeSteps(y).db.clients
  {
    ThreeStepsInv(y);
    ThreeStepsAre(y);
    PresentAbsent(y.db, 4);
    OrphanLater(y);
    OrphanHasClient(ThreeSteps(y));
  }

  lemma OrphanLater(y: Sys)
    requires Inv(y) && Orphan(y.db) && y.db.now == 90000
    ensures Orphan(PurgeTx(Later(y.db)))
  {
    LaterInv(y);
    OrphanStays(Sys(Later(y.db), y.hist));
  }

  lemma OrphanKeepsClients()
    requires Inv(Sys(ORPHANED, WITH_PAIR))
    ensures PurgeTx(ORPHANED).clients == ORPHANED.clients
  {
    var s := Sys(ORPHANED, WITH_PAIR);
    OrphanStays(s);
    PurgeInv(s);
    OrphanHasClient(Sys(PurgeTx(s.db), WITH_PAIR));
  }

  lemma UnpurgedSide(s: Sys) returns (s3: Sys)
    requires s == Sys(ORPHANED, WITH_PAIR) && Inv(s)
    ensures s3 == ThreeSteps(s) && Inv(s3) && s3.hist == WITH_PAIR && 1 !in s3.db.clients
  {
    s3 := ThreeSteps(s);
    ThreeStepsInv(s);
    ThreeStepsAre(s);
    ReplayRevokesOrphan();
    assert Later(REPLAYED.(now := 90000)) == REPLAYED;
    ReplayedGoes();
  }

  lemma FirstSteps(s: Sys, rest: seq<Step>)
    requires EnabledRun(ThreeSteps(s), rest)
    ensures var run := [PresentCode(4), Tick(2592000), Purge] + rest;
      EnabledRun(s, run) && Run(s, run) == Run(ThreeSteps(s), rest)
  {
    var s1 := Next(s, PresentCode(4));
    var s2 := Next(s1, Tick(2592000));
    RunCons(s2, Purge, rest);
    RunCons(s1, Tick(2592000), [Purge] + rest);
    RunCons(s, PresentCode(4), [Tick(2592000)] + ([Purge] + rest));
    assert [PresentCode(4), Tick(2592000), Purge] + rest == [PresentCode(4)] + ([Tick(2592000)] + ([Purge] + rest));
  }

  lemma LaterShows(s: Sys, y: Sys, s3: Sys, y3: Sys) returns (run: seq<Step>)
    requires s3 == ThreeSteps(s) && y3 == ThreeSteps(y) && Inv(s3) && Inv(y3) && s3.hist == y3.hist == WITH_PAIR
    requires 1 !in s3.db.clients && 1 in y3.db.clients
    ensures EnabledRun(s, run) && EnabledRun(y, run) && !SameDecisions(Run(s, run).db, Run(y, run).db)
  {
    var rest := ClientIsMissed(y3, s3, 1);
    FirstSteps(s, rest);
    FirstSteps(y, rest);
    run := [PresentCode(4), Tick(2592000), Purge] + rest;
  }

  lemma OrphanedShows(s: Sys, y: Sys) returns (run: seq<Step>)
    requires s == Sys(ORPHANED, WITH_PAIR) && Inv(s) && y == Sys(PurgeTx(ORPHANED), WITH_PAIR)
    ensures EnabledRun(s, run) && EnabledRun(y, run) && !SameDecisions(Run(s, run).db, Run(y, run).db)
  {
    var s3 := UnpurgedSide(s);
    var y3 := PurgedSide(s);
    run := LaterShows(s, y, s3, y3);
  }

  /** With a second retention step in the continuation it is not enough that the first one is silent and deletes no
      client: a replay that revokes a hopeless grant on one side only lets the later step delete its client there, and
      only there. */
  lemma LaterRetentionShows() returns (s: Sys, run: seq<Step>)
    ensures Reaches(EMPTY, s) && PurgeIsSilent(s.db) && PurgeTx(s.db).clients == s.db.clients
    ensures EnabledRun(s, run) && EnabledRun(Next(s, Purge), run)
    ensures !SameDecisions(Run(s, run).db, Run(Next(s, Purge), run).db)
  {
    s := Sys(ORPHANED, WITH_PAIR);
    ReachesOrphaned();
    ReachedInv(s);
    OrphanedIsSilent();
    OrphanKeepsClients();
    PurgeNext(s);
    run := OrphanedShows(s, Sys(PurgeTx(ORPHANED), WITH_PAIR));
  }
}
