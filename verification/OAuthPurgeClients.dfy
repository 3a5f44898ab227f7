/** Retention and clients: requests of a client that retention has deleted fail, and that shows in later decisions. */
module OAuthPurgeClients {
  import opened Common
  import opened OAuth
  import opened OAuthRuns
  import opened OAuthInvariant
  import opened OAuthTheorems
  import opened OAuthSync
  import opened OAuthPurge

  // ------------------------------------------------------------------ clients that stay known

  /** Besides retention, only registration changes which clients there are. */
  lemma ClientsNext(s: Sys, a: Step)
    requires Inv(s) && Enabled(s, a) && !a.Purge?
    ensures Next(s, a).db.clients.Keys == s.db.clients.Keys + (if a.RegisterClient? then {a.c} else {})
  {
    if Guarded(a) {
      GuardedWorld(s, a);
    } else if a.ExchangeCode? {
      ExchangeWorld(s.db, a);
    } else {
      PlainClientKeys(s.db, a);
    }
  }

  lemma PlainClientKeys(db: Db, a: Step)
    requires !Guarded(a) && !a.ExchangeCode? && !a.Purge?
    ensures Apply(db, a).clients.Keys == db.clients.Keys + (if a.RegisterClient? then {a.c} else {})
  {}

  lemma {:induction false} KnownRun(x: Sys, y: Sys, run: seq<Step>)
    requires Inv(x) && Inv(y) && x.db.clients.Keys == y.db.clients.Keys
    requires EnabledRun(x, run) && EnabledRun(y, run) && NoPurge(run)
    ensures Joint(x, y, run)
    decreases |run|
  {
    if run != [] {
      NextInv(x, run[0]);
      NextInv(y, run[0]);
      ClientsNext(x, run[0]);
      ClientsNext(y, run[0]);
      assert forall a :: a in run[1..] ==> a in run;
      KnownRun(Next(x, run[0]), Next(y, run[0]), run[1..]);
    }
  }

  // ------------------------------------------------------------------ a request, its consent and its exchange

  /** Client `k` asks for a scope, the user consents, and the client fetches its tokens. */
  function Sequel(code: Id, k: Id, org: Id, user: Id, g: Id, ids: NewPair): seq<Step> {
    [Authorize(code, k, [RunsRead], 600), Approve(code, org, user, {RunsRead}), ExchangeCode(code, g, ids)]
  }

  ghost predicate FreshIds(s: Sys, code: Id, g: Id, ids: NewPair) {
    && code !in s.hist.used && g !in s.hist.used && ids.refresh !in s.hist.used && ids.access !in s.hist.used
    && Distinct3(g, ids.refresh, ids.access) && code != g && code != ids.refresh && code != ids.access
    && ids.ttl.Valid()
  }

  ghost predicate Seated(db: Db, org: Id, user: Id) {
    org in db.orgs && user in db.users && (org, user) in db.members
  }

  lemma SequelEnabled(s: Sys, code: Id, k: Id, org: Id, user: Id, g: Id, ids: NewPair)
    requires FreshIds(s, code, g, ids)
    ensures EnabledRun(s, Sequel(code, k, org, user, g, ids))
    ensures Run(s, Sequel(code, k, org, user, g, ids)).db
         == ExchangeCodeTx(ApproveTx(AuthorizeTx(s.db, code, k, [RunsRead], 600), code, org, user, {RunsRead}),
                           code, g, ids).0
  {
    var run := Sequel(code, k, org, user, g, ids);
    var s1 := Next(s, run[0]);
    var s2 := Next(s1, run[1]);
    var s3 := Next(s2, run[2]);
    assert run[1..] == [run[1], run[2]] && run[1..][1..] == [run[2]] && [run[2]][1..] == [];
    assert EnabledRun(s3, []) && Run(s3, []) == s3;
    assert EnabledRun(s2, [run[2]]) && Run(s2, [run[2]]) == s3;
    assert EnabledRun(s1, run[1..]) && Run(s1, run[1..]) == s3;
  }

  lemma RunsReadIsGrantable(role: Role)
    ensures Chosen(GrantableScopes([RunsRead], Some(role)), {RunsRead}) == [RunsRead]
  {
    assert [RunsRead][1..] == [];
    assert GrantableScopes([RunsRead], Some(role)) == [RunsRead];
  }

  lemma Consented(db: Db, code: Id, k: Id, org: Id, user: Id)
    requires Seated(db, org, user) && k in db.clients
    ensures ApproveTx(AuthorizeTx(db, code, k, [RunsRead], 600), code, org, user, {RunsRead})
         == db.(codes := db.codes[code := Code(k, Some(org), Some(user), [RunsRead], Approved, db.now + CODE_TTL)])
  {
    RunsReadIsGrantable(db.members[(org, user)]);
  }

  lemma Fetched(db: Db, code: Id, k: Id, org: Id, user: Id, g: Id, ids: NewPair)
    requires Seated(db, org, user) && ids.refresh != ids.access && ids.ttl.Valid()
    requires code in db.codes
    requires db.codes[code] == Code(k, Some(org), Some(user), [RunsRead], Approved, db.now + CODE_TTL)
    ensures RefreshAccepted(ExchangeCodeTx(db, code, g, ids).0, g, ids.refresh, k)
  {}

  lemma KnownIsServed(s: Sys, code: Id, k: Id, org: Id, user: Id, g: Id, ids: NewPair)
    requires FreshIds(s, code, g, ids) && Seated(s.db, org, user) && k in s.db.clients
    ensures RefreshAccepted(Run(s, Sequel(code, k, org, user, g, ids)).db, g, ids.refresh, k)
  {
    SequelEnabled(s, code, k, org, user, g, ids);
    Consented(s.db, code, k, org, user);
    Fetched(ApproveTx(AuthorizeTx(s.db, code, k, [RunsRead], 600), code, org, user, {RunsRead}),
            code, k, org, user, g, ids);
  }

  lemma UnknownIsRefused(s: Sys, code: Id, k: Id, org: Id, user: Id, g: Id, ids: NewPair)
    requires Inv(s) && FreshIds(s, code, g, ids) && k !in s.db.clients
    ensures !RefreshAccepted(Run(s, Sequel(code, k, org, user, g, ids)).db, g, ids.refresh, k)
  {
    SequelEnabled(s, code, k, org, user, g, ids);
    assert code !in s.db.codes && g !in s.db.grants;
  }

  // ------------------------------------------------------------------ any continuation without retention

  lemma {:induction false} Above(used: set<Id>) returns (n: Id)
    ensures forall i :: i in used ==> i < n
    decreases |used|
  {
    if used == {} {
      n := 0;
    } else {
      var i :| i in used;
      n := Above(used - {i});
      assert used == (used - {i}) + {i};
      n := if n > i then n else i + 1;
    }
  }

  /** A new organization with a new owner. */
  const SEAT: seq<Step> := [AddOrg(0), AddUser(0), SetRole(0, 0, Owner)]

  lemma SeatState(s: Sys)
    ensures Next(Next(Next(s, SEAT[0]), SEAT[1]), SEAT[2]) == Sys(Reinstated(s.db, 0, 0), s.hist)
  {}

  lemma SeatRun(s: Sys, run: seq<Step>)
    requires EnabledRun(Sys(Reinstated(s.db, 0, 0), s.hist), run)
    ensures EnabledRun(s, SEAT + run) && Run(s, SEAT + run) == Run(Sys(Reinstated(s.db, 0, 0), s.hist), run)
  {
    var s1 := Next(s, SEAT[0]);
    var s2 := Next(s1, SEAT[1]);
    SeatState(s);
    RunCons(s2, SEAT[2], run);
    RunCons(s1, SEAT[1], [SEAT[2]] + run);
    RunCons(s, SEAT[0], [SEAT[1]] + ([SEAT[2]] + run));
    assert SEAT + run == [SEAT[0]] + ([SEAT[1]] + ([SEAT[2]] + run));
  }

  lemma SeatInv(s: Sys)
    requires Inv(s)
    ensures Inv(Sys(Reinstated(s.db, 0, 0), s.hist))
  {
    var s1 := Next(s, AddOrg(0));
    NextInv(s, AddOrg(0));
    var s2 := Next(s1, AddUser(0));
    NextInv(s1, AddUser(0));
    NextInv(s2, SetRole(0, 0, Owner));
    assert Next(s2, SetRole(0, 0, Owner)).db == Reinstated(s.db, 0, 0);
  }

  lemma FreshAbove(s: Sys, n: Id)
    requires forall i :: i in s.hist.used ==> i < n
    ensures FreshIds(s, n, n + 1, NewPair(n + 2, n + 3, Ttl(3600, 2592000)))
  {}

  lemma SeatedSequel(s: Sys, k: Id, n: Id) returns (run: seq<Step>)
    requires Inv(s) && forall i :: i in s.hist.used ==> i < n
    ensures run == SEAT + Sequel(n, k, 0, 0, n + 1, NewPair(n + 2, n + 3, Ttl(3600, 2592000)))
    ensures EnabledRun(s, run) && (RefreshAccepted(Run(s, run).db, n + 1, n + 2, k) <==> k in s.db.clients)
  {
    var ids := NewPair(n + 2, n + 3, Ttl(3600, 2592000));
    var s1 := Sys(Reinstated(s.db, 0, 0), s.hist);
    run := SEAT + Sequel(n, k, 0, 0, n + 1, ids);
    FreshAbove(s1, n);
    SequelEnabled(s1, n, k, 0, 0, n + 1, ids);
    SeatRun(s, Sequel(n, k, 0, 0, n + 1, ids));
    if k in s.db.clients {
      KnownIsServed(s1, n, k, 0, 0, n + 1, ids);
    } else {
      SeatInv(s);
      UnknownIsRefused(s1, n, k, 0, 0, n + 1, ids);
    }
  }

  /** A client that is registered on one side only shows as soon as it asks for tokens. */
  lemma ClientIsMissed(x: Sys, y: Sys, k: Id) returns (run: seq<Step>)
    requires Inv(x) && Inv(y) && x.hist == y.hist && k in x.db.clients && k !in y.db.clients
    ensures EnabledRun(x, run) && EnabledRun(y, run) && NoPurge(run) && !SameDecisions(Run(x, run).db, Run(y, run).db)
  {
    var n := Above(x.hist.used);
    run := SeatedSequel(x, k, n);
    var again := SeatedSequel(y, k, n);
    assert RefreshAccepted(Run(x, run).db, n + 1, n + 2, k) != RefreshAccepted(Run(y, run).db, n + 1, n + 2, k);
  }

  lemma DeletedClient(db: Db) returns (k: Id)
    requires PurgeTx(db).clients != db.clients
    ensures k in db.clients && k !in PurgeTx(db).clients
  {
    k :| k in db.clients && k !in PurgeTx(db).clients;
  }

  /** No continuation without a retention step tells the two sides apart. */
  ghost predicate Unnoticed(x: Sys, y: Sys) {
    forall run :: EnabledRun(x, run) && EnabledRun(y, run) && NoPurge(run) ==>
        SameDecisions(Run(x, run).db, Run(y, run).db)
  }

  lemma SimUnnoticed(x: Sys, y: Sys)
    requires Sim(x, y) && x.db.clients.Keys == y.db.clients.Keys
    ensures Unnoticed(x, y)
  {
    forall run | EnabledRun(x, run) && EnabledRun(y, run) && NoPurge(run)
      ensures SameDecisions(Run(x, run).db, Run(y, run).db)
    {
      KnownRun(x, y, run);
      SimRun(x, y, run);
    }
  }

  lemma LoudIsNotUnnoticed(s: Sys)
    requires Inv(s) && !PurgeIsSilent(s.db)
    ensures !Unnoticed(s, Next(s, Purge))
  {
    var g, run := LoudIsNoticed(s);
    JointEnabled(s, Next(s, Purge), run);
    if SameDecisions(Run(s, run).db, Run(Next(s, Purge), run).db) {
      DecisionsAnswer(Run(s, run).db, Run(Next(s, Purge), run).db, {g});
    }
  }

  lemma MissedIsNotUnnoticed(x: Sys, y: Sys, k: Id)
    requires Inv(x) && Inv(y) && x.hist == y.hist && k in x.db.clients && k !in y.db.clients
    ensures !Unnoticed(x, y)
  {
    var run := ClientIsMissed(x, y, k);
  }

  /** In the continuations without a further retention step, retention shows in no decision exactly when it deletes no
      client and no code that leads to a grant that can still be used. */
  lemma PurgeInvisibleIff(s: Sys)
    requires Inv(s)
    ensures Unnoticed(s, Next(s, Purge)) <==> PurgeIsSilent(s.db) && PurgeTx(s.db).clients == s.db.clients
  {
    PurgeNext(s);
    PurgeInv(s);
    if !PurgeIsSilent(s.db) {
      LoudIsNotUnnoticed(s);
    } else if PurgeTx(s.db).clients != s.db.clients {
      var k := DeletedClient(s.db);
      MissedIsNotUnnoticed(s, Sys(PurgeTx(s.db), s.hist), k);
    } else {
      SilentStart(s);
      SimUnnoticed(s, Sys(PurgeTx(s.db), s.hist));
    }
  }
}
