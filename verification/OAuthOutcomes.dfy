/** What each transaction gives its caller: exactly which requests are granted, what the new tokens may do and for how
    long, and what a revocation takes away, at once and for good. */
module OAuthOutcomes {
  import opened Common
  import opened OAuth
  import opened OAuthRuns
  import opened OAuthInvariant
  import opened OAuthTheorems

  // ------------------------------------------------------------------ when a token is accepted

  /** In a reachable state the row of an access token, its client and the membership decide alone: the grant need not be
      looked at, because its revocation reaches every token. */
  lemma AccessAcceptedIff(s: Sys, t: Id, g: Id)
    requires Inv(s) && Of(s.db, t, g)
    ensures PrincipalFor(s.db, t).Some? <==>
      var row := s.db.tokens[t];
      && row.kind == Access && row.revokedAt.None? && s.db.now < row.expiresAt.value
      && s.db.clients[row.clientId].revokedAt.None?
      && row.userId.Some? && row.userId.value in s.db.users && (row.orgId, row.userId.value) in s.db.members
  {
    assert GrantOk(s, g) && RowOk(s, t, g);
  }

  /** A refresh token is accepted exactly as long as it is the open one of its grant, not expired, and its user a
      member. */
  lemma RefreshAcceptedIff(s: Sys, t: Id, g: Id, c: Id)
    requires Inv(s)
    ensures RefreshAccepted(s.db, g, t, c) <==>
      && OpenRefresh(s.db, t, g) && s.db.tokens[t].clientId == c && s.db.now < s.db.tokens[t].expiresAt.value
      && s.db.tokens[t].userId.Some? && (s.db.tokens[t].orgId, s.db.tokens[t].userId.value) in s.db.members
  {
    if Of(s.db, t, g) {
      assert GrantOk(s, g) && RowOk(s, t, g);
    }
  }

  /** The principal has exactly the scopes that the token and the current role share. */
  lemma PrincipalIs(db: Db, t: Id)
    requires PrincipalFor(db, t).Some?
    ensures var p, row := PrincipalFor(db, t).value, db.tokens[t];
      && p.orgId == row.orgId && Some(p.userId) == row.userId && (p.orgId, p.userId) in db.members
      && forall x :: x in p.scopes <==> x in row.scopes && x in RoleScopes(db.members[(p.orgId, p.userId)])
  {}

  // ------------------------------------------------------------------ a new pair

  function Later(db: Db, d: nat): Db { db.(now := db.now + d) }

  /** A pair that was issued `d` seconds ago: each token is accepted until its lifetime ends. */
  lemma PairLives(db: Db, g: Id, c: Id, org: Id, user: Id, gs: seq<Scope>, xs: seq<Scope>, p: Id, ids: NewPair, d: nat)
    requires g in db.grants && db.grants[g].revokedAt.None? && ids.refresh != ids.access
    requires c in db.clients && db.clients[c].revokedAt.None? && user in db.users && (org, user) in db.members
    ensures var db2 := Later(IssuePair(db, g, c, org, Some(user), gs, xs, p, ids), d);
      && (RefreshAccepted(db2, g, ids.refresh, c) <==> d < ids.ttl.refresh)
      && (PrincipalFor(db2, ids.access).Some? <==> d < ids.ttl.access)
      && db2.tokens[ids.refresh].scopes == gs && db2.tokens[ids.access].scopes == xs
  {}

  // ------------------------------------------------------------------ refreshing

  /** The three outcomes, exactly: the token must be accepted, and no requested scope may lie outside its own. A refused
      scope leaves the tables as they are. */
  lemma RefreshOutcomeIs(db: Db, g: Id, t: Id, c: Id, scopes: seq<Scope>, ids: NewPair)
    ensures var (db2, out) := RefreshTx(db, g, t, c, scopes, ids);
      && (out == InvalidGrant <==> !RefreshAccepted(db, g, t, c))
      && (out == InvalidScope <==>
            RefreshAccepted(db, g, t, c) && exists x :: x in scopes && x !in db.tokens[t].scopes)
      && (out == Issued(ids.refresh, ids.access) <==>
            RefreshAccepted(db, g, t, c) && forall x :: x in scopes ==> x in db.tokens[t].scopes)
      && (out == InvalidScope ==> db2 == db)
  {
    if g in db.grants {
      assert Classify(Bump(db, g), g, t, c) == Classify(db, g, t, c);
    }
  }

  /** The new access token has exactly the requested scopes, or all of the presented token's when none are requested;
      the new refresh token has all of them. */
  lemma RefreshedScopes(db: Db, g: Id, t: Id, c: Id, scopes: seq<Scope>, ids: NewPair)
    requires RefreshTx(db, g, t, c, scopes, ids).1.Issued? && ids.refresh != ids.access
    ensures var db2 := RefreshTx(db, g, t, c, scopes, ids).0;
      && Of(db2, ids.access, g) && Of(db2, ids.refresh, g) && t in db.tokens
      && (forall x :: x in db2.tokens[ids.access].scopes <==>
            if scopes == [] then x in db.tokens[t].scopes else x in scopes)
      && db2.tokens[ids.refresh].scopes == db.tokens[t].scopes
  {
    assert Dedupe(scopes) == [] <==> scopes == [] by {
      if scopes != [] { assert scopes[0] in Dedupe(scopes); }
    }
  }

  /** Access token `u` was issued together with refresh token `t`. */
  predicate IssuedWith(db: Db, u: Id, t: Id, c: Id) {
    u in db.tokens && db.tokens[u].kind == Access && db.tokens[u].clientId == c && db.tokens[u].parentId == Some(t)
  }

  lemma RotatedIsRefused(db: Db, g: Id, t: Id, c: Id, scopes: seq<Scope>, ids: NewPair, d: nat)
    requires RefreshTx(db, g, t, c, scopes, ids).1.Issued?
    requires t != ids.refresh && t != ids.access
    ensures var db2 := Later(RefreshTx(db, g, t, c, scopes, ids).0, d);
      && (forall k :: !RefreshAccepted(db2, g, t, k))
      && (forall u :: IssuedWith(db, u, t, c) && u != ids.refresh && u != ids.access ==> PrincipalFor(db2, u).None?)
  {}

  /** After a refresh the new pair is accepted until the lifetimes end, with the principal of the new access token,
      and the old refresh token and its access tokens are refused from that moment on. */
  lemma RefreshServes(s: Sys, g: Id, t: Id, c: Id, scopes: seq<Scope>, ids: NewPair, d: nat)
    requires Inv(s) && Enabled(s, RefreshToken(g, t, c, scopes, ids))
    requires RefreshTx(s.db, g, t, c, scopes, ids).1.Issued?
    requires s.db.clients[c].revokedAt.None? && s.db.tokens[t].userId.value in s.db.users
    ensures var db2 := Later(RefreshTx(s.db, g, t, c, scopes, ids).0, d);
      && (PrincipalFor(db2, ids.access).Some? <==> d < ids.ttl.access)
      && (RefreshAccepted(db2, g, ids.refresh, c) <==> d < ids.ttl.refresh)
      && (forall k :: !RefreshAccepted(db2, g, t, k))
      && (forall u :: IssuedWith(s.db, u, t, c) ==> PrincipalFor(db2, u).None?)
  {
    RefreshOutcomeIs(s.db, g, t, c, scopes, ids);
    UsableFacts(s, g, t, c);
    RotatedIsRefused(s.db, g, t, c, scopes, ids, d);
    var row := s.db.tokens[t];
    var db1 := Rotate(Bump(s.db, g), t, c);
    var requested := if Dedupe(scopes) == [] then row.scopes else Dedupe(scopes);
    RefreshIssuesFrom(s.db, g, t, c, scopes, ids);
    PairLives(db1, g, c, row.orgId, row.userId.value, row.scopes, requested, t, ids, d);
  }

  lemma RefreshIssuesFrom(db: Db, g: Id, t: Id, c: Id, scopes: seq<Scope>, ids: NewPair)
    requires RefreshTx(db, g, t, c, scopes, ids).1.Issued?
    ensures t in db.tokens && g in db.grants
    ensures var row := db.tokens[t];
      var requested := if Dedupe(scopes) == [] then row.scopes else Dedupe(scopes);
      RefreshTx(db, g, t, c, scopes, ids).0
        == IssuePair(Rotate(Bump(db, g), t, c), g, c, row.orgId, row.userId, row.scopes, requested, t, ids)
  {}

  /** Loading a refresh token that is accepted changes no decision. */
  lemma LoadOnlyReads(db: Db, g: Id, t: Id, c: Id)
    requires RefreshAccepted(db, g, t, c)
    ensures var db2 := LoadRefreshTx(db, g, t, c);
      && (forall u :: PrincipalFor(db2, u) == PrincipalFor(db, u))
      && (forall h, u, k :: RefreshAccepted(db2, h, u, k) == RefreshAccepted(db, h, u, k))
  {
    assert LoadRefreshTx(db, g, t, c) == Bump(db, g);
  }

  // ------------------------------------------------------------------ revoking a token

  /** A client that revokes its access token loses that token and nothing else. */
  lemma AccessRevoked(db: Db, g: Id, t: Id, c: Id)
    requires g in db.grants && Of(db, t, g) && db.tokens[t].clientId == c && db.tokens[t].kind == Access
    ensures var db2 := RevokeTokenTx(db, g, t, c);
      && t in db2.tokens && db2.tokens[t].revokedAt.Some? && PrincipalFor(db2, t).None?
      && db2.tokens.Keys == db.tokens.Keys && (forall u :: u in db.tokens && u != t ==> db2.tokens[u] == db.tokens[u])
      && (forall u :: u != t ==> PrincipalFor(db2, u) == PrincipalFor(db, u))
      && (forall h, u, k :: RefreshAccepted(db2, h, u, k) == RefreshAccepted(db, h, u, k))
  {}

  /** A client that revokes a refresh token ends the grant: every token of it is refused. */
  lemma RefreshRevoked(db: Db, g: Id, t: Id, c: Id)
    requires g in db.grants && Of(db, t, g) && db.tokens[t].clientId == c && db.tokens[t].kind == Refresh
    ensures var db2 := RevokeTokenTx(db, g, t, c);
      && g in db2.grants && db2.grants[g].revokedAt.Some?
      && (db.grants[g].revokedAt.None? ==> db2.grants[g].reason == Some(ClientRevoked))
      && (forall u :: Of(db, u, g) ==> Of(db2, u, g) && db2.tokens[u].revokedAt.Some? && PrincipalFor(db2, u).None?)
      && (forall u, k :: !RefreshAccepted(db2, g, u, k))
      && (forall u :: !Of(db, u, g) ==> PrincipalFor(db2, u) == PrincipalFor(db, u))
  {}

  /** Another client's token, or one of another grant, is left alone. */
  lemma OthersNotRevoked(db: Db, g: Id, t: Id, c: Id)
    requires !(g in db.grants && Of(db, t, g) && db.tokens[t].clientId == c)
    ensures RevokeTokenTx(db, g, t, c) == db
  {}

  /** A revoked row is refused after every run, whether it is still stored or not. */
  lemma RevokedRowStaysOut(s: Sys, run: seq<Step>, t: Id)
    requires Inv(s) && EnabledRun(s, run) && t in s.db.tokens && s.db.tokens[t].revokedAt.Some?
    ensures PrincipalFor(Run(s, run).db, t).None?
    ensures forall g, c :: !RefreshAccepted(Run(s, run).db, g, t, c)
  {
    assert t in s.hist.used;
    RowEvolvesRun(s, run, t);
  }

  /** What a client has revoked stays refused: for an access token that token, for a refresh token the whole grant. */
  lemma RevokedStaysOut(s: Sys, g: Id, t: Id, c: Id, run: seq<Step>)
    requires Inv(s) && g in s.db.grants && Of(s.db, t, g) && s.db.tokens[t].clientId == c
    requires EnabledRun(Next(s, RevokeOne(g, t, c)), run)
    ensures var end := Run(Next(s, RevokeOne(g, t, c)), run).db;
      && PrincipalFor(end, t).None? && (forall h, k :: !RefreshAccepted(end, h, t, k))
      && (s.db.tokens[t].kind == Refresh ==> Hopeless(end, g))
  {
    var s1 := Next(s, RevokeOne(g, t, c));
    NextInv(s, RevokeOne(g, t, c));
    if s.db.tokens[t].kind == Access {
      AccessRevoked(s.db, g, t, c);
    } else {
      RefreshRevoked(s.db, g, t, c);
      RevokedForever(s1, run, g);
    }
    RevokedRowStaysOut(s1, run, t);
  }

  // ------------------------------------------------------------------ when a presented token ends its grant

  /** Presenting a refresh token revokes its grant exactly if the token was used before, or if its user has left while
      it was still valid. An expired token alone does not, nor does an unknown one or another client's. */
  lemma LoadRevokesIff(s: Sys, g: Id, t: Id, c: Id)
    requires Inv(s) && g in s.db.grants && s.db.grants[g].revokedAt.None?
    ensures var db2 := LoadRefreshTx(s.db, g, t, c);
      g in db2.grants && (db2.grants[g].revokedAt.Some? <==>
        && Of(s.db, t, g) && s.db.tokens[t].kind == Refresh && s.db.tokens[t].clientId == c
        && var row := s.db.tokens[t];
           || row.rotatedAt.Some?
           || (s.db.now < row.expiresAt.value
               && (row.userId.None? || (row.orgId, row.userId.value) !in s.db.members)))
  {
    if Of(s.db, t, g) {
      assert GrantOk(s, g) && RowOk(s, t, g);
    }
  }

  /** A code that is presented again, and whose family is found, revokes that family with its own reason and nothing
      else. */
  lemma PresentedCodeRevokes(s: Sys, c: Id)
    requires Inv(s) && ReplayTargets(s.db, c) != {}
    ensures c in s.hist.family
    ensures var g, db2 := s.hist.family[c].0, PresentCodeTx(s.db, c);
      && g in s.db.grants && g in db2.grants && db2.grants[g].revokedAt.Some?
      && (s.db.grants[g].revokedAt.None? ==> db2.grants[g].reason == Some(CodeReplay))
      && (forall u :: Of(s.db, u, g) ==> Of(db2, u, g) && db2.tokens[u].revokedAt.Some?)
      && (forall u :: !Of(s.db, u, g) ==> PrincipalFor(db2, u) == PrincipalFor(s.db, u))
      && (forall h, u, k :: h != g ==> RefreshAccepted(db2, h, u, k) == RefreshAccepted(s.db, h, u, k))
  {
    PresentCodeIs(s, c);
    FamilyGrantExists(s, c);
    RevokedGrantLeaves(s.db, s.hist.family[c].0, CodeReplay);
  }

  lemma FamilyGrantExists(s: Sys, c: Id)
    requires Inv(s) && c in s.hist.family && s.hist.family[c].0 in ReplayTargets(s.db, c)
    ensures s.hist.family[c].0 in s.db.grants
  {
    var t :| t in s.db.tokens && s.db.tokens[t].grantId == Some(s.hist.family[c].0);
    assert Of(s.db, t, s.hist.family[c].0);
  }

  /** Revoking a grant, from the cockpit too, takes all its tokens and touches no other decision. */
  lemma RevokedGrantLeaves(db: Db, g: Id, reason: Reason)
    requires g in db.grants
    ensures var db2 := RevokeGrantTx(db, g, reason);
      && g in db2.grants && db2.grants[g].revokedAt.Some?
      && (db.grants[g].revokedAt.None? ==> db2.grants[g].reason == Some(reason))
      && (db.grants[g].revokedAt.Some? ==> db2.grants[g].reason == db.grants[g].reason)
      && (forall u :: Of(db, u, g) ==> Of(db2, u, g) && db2.tokens[u].revokedAt.Some?)
      && (forall u :: !Of(db, u, g) ==> PrincipalFor(db2, u) == PrincipalFor(db, u))
      && (forall h, u, k :: h != g ==> RefreshAccepted(db2, h, u, k) == RefreshAccepted(db, h, u, k))
  {}

  // ------------------------------------------------------------------ the end of a membership

  /** A user who is no longer a member is refused at once, and the next refresh ends the family. */
  lemma NonMemberRefused(db: Db, g: Id, t: Id, c: Id, scopes: seq<Scope>, ids: NewPair)
    requires Of(db, t, g) && g in db.grants
    requires db.tokens[t].userId.None? || (db.tokens[t].orgId, db.tokens[t].userId.value) !in db.members
    ensures PrincipalFor(db, t).None? && RefreshTx(db, g, t, c, scopes, ids).1 == InvalidGrant
    ensures OpenRefresh(db, t, g) && db.tokens[t].rotatedAt.None? && !Expired(db.tokens[t], db.now)
            && db.tokens[t].clientId == c && db.grants[g].revokedAt.None? ==>
      var db2 := RefreshTx(db, g, t, c, scopes, ids).0;
      && LoadRefreshTx(db, g, t, c) == db2
      && db2.grants[g].revokedAt.Some? && db2.grants[g].reason == Some(MembershipEnded)
      && forall u :: Of(db2, u, g) ==> db2.tokens[u].revokedAt.Some?
  {}

  /** That holds after any later run, even if the user is made a member again. */
  lemma LeaverStaysOut(s: Sys, g: Id, t: Id, c: Id, run: seq<Step>)
    requires Inv(s) && RefreshAccepted(s.db, g, t, c)
    requires var row := s.db.tokens[t];
      var left := Next(s, EndMembership(row.orgId, row.userId.value));
      EnabledRun(Next(left, LoadRefresh(g, t, c)), run)
    ensures var row := s.db.tokens[t];
      var left := Next(s, EndMembership(row.orgId, row.userId.value));
      Hopeless(Run(Next(left, LoadRefresh(g, t, c)), run).db, g)
  {
    var row := s.db.tokens[t];
    var a := EndMembership(row.orgId, row.userId.value);
    var left := Next(s, a);
    UsableFacts(s, g, t, c);
    NextInv(s, a);
    NonMemberRefused(left.db, g, t, c, [], NewPair(0, 0, Ttl(60, 3600)));
    NextInv(left, LoadRefresh(g, t, c));
    RevokedForever(Next(left, LoadRefresh(g, t, c)), run, g);
  }

  // ------------------------------------------------------------------ the end of a client or a user

  lemma {:induction false} UnhopefulStays(s: Sys, run: seq<Step>, t: Id)
    requires Inv(s) && EnabledRun(s, run) && t in s.db.tokens && !Hopeful(s.db, t)
    ensures t in Run(s, run).db.tokens ==> !Hopeful(Run(s, run).db, t)
    decreases |run|
  {
    if run != [] {
      var s1 := Next(s, run[0]);
      NextInv(s, run[0]);
      if t in s1.db.tokens {
        HopelessOldRow(s, run[0], t);
        UnhopefulStays(s1, run[1..], t);
      } else {
        assert t in s.hist.used && t in s1.hist.used;
        RowEvolvesRun(s1, run[1..], t);
      }
    }
  }

  /** No run brings an access token of a revoked client back. */
  lemma RevokedClientStaysOut(s: Sys, c: Id, run: seq<Step>, t: Id)
    requires Inv(s) && c in s.db.clients && t in s.db.tokens && s.db.tokens[t].clientId == c
    requires s.db.tokens[t].kind == Access
    requires EnabledRun(Next(s, RevokeClient(c)), run)
    ensures PrincipalFor(Run(Next(s, RevokeClient(c)), run).db, t).None?
  {
    NextInv(s, RevokeClient(c));
    UnhopefulStays(Next(s, RevokeClient(c)), run, t);
    AcceptedIsHopeful(Run(Next(s, RevokeClient(c)), run).db, t);
  }

  /** Nor one of a deleted user, even if the id returns. */
  lemma DeletedUserStaysOut(s: Sys, user: Id, run: seq<Step>, t: Id)
    requires Inv(s) && t in s.db.tokens && s.db.tokens[t].userId == Some(user)
    requires EnabledRun(Next(s, DeleteUser(user)), run)
    ensures var end := Run(Next(s, DeleteUser(user)), run).db;
      PrincipalFor(end, t).None? && forall g, c :: !RefreshAccepted(end, g, t, c)
  {
    NextInv(s, DeleteUser(user));
    UnhopefulStays(Next(s, DeleteUser(user)), run, t);
    AcceptedIsHopeful(Run(Next(s, DeleteUser(user)), run).db, t);
  }

  // ------------------------------------------------------------------ consent

  /** A request that is consented to after `d` seconds and exchanged another `e` seconds later. */
  function Requested(db: Db, code: Id, c: Id, scopes: seq<Scope>, ttl: int, d: nat): Db {
    Later(AuthorizeTx(db, code, c, scopes, ttl), d)
  }

  function ConsentedTo(db: Db, code: Id, org: Id, user: Id, wanted: set<Scope>, e: nat): Db {
    Later(ApproveTx(db, code, org, user, wanted), e)
  }

  /** The scopes a consent gives: requested, wanted by the user, and within the user's role. */
  function Given(db: Db, scopes: seq<Scope>, org: Id, user: Id, wanted: set<Scope>): set<Scope> {
    if (org, user) !in db.members then {}
    else set x | x in wanted && x in scopes && x in RoleScopes(db.members[(org, user)])
  }

  /** The client gets tokens exactly if it is registered, the consent comes in time from a member who gives at least one
      scope, and the exchange follows within a minute while organization and user exist. */
  lemma ConsentIssuesIff(db: Db, code: Id, c: Id, scopes: seq<Scope>, ttl: int, d: nat, org: Id, user: Id,
                         wanted: set<Scope>, e: nat, g: Id, ids: NewPair)
    requires code !in db.codes
    ensures var db2 := ConsentedTo(Requested(db, code, c, scopes, ttl, d), code, org, user, wanted, e);
      ExchangeCodeTx(db2, code, g, ids).1.Issued? <==>
        && c in db.clients && d < ttl && Given(db, scopes, org, user, wanted) != {} && e < 60
        && org in db.orgs && user in db.users
  {
    var db1 := Requested(db, code, c, scopes, ttl, d);
    if c in db.clients && d < ttl && (org, user) in db.members {
      var granted := Chosen(GrantableScopes(scopes, Some(db.members[(org, user)])), wanted);
      assert db1.codes[code].scopes == scopes && Decidable(db1, code);
      GivenIs(db, scopes, org, user, wanted);
    }
  }

  lemma GivenIs(db: Db, scopes: seq<Scope>, org: Id, user: Id, wanted: set<Scope>)
    requires (org, user) in db.members
    ensures var granted := Chosen(GrantableScopes(scopes, Some(db.members[(org, user)])), wanted);
      && (forall x :: x in granted <==> x in Given(db, scopes, org, user, wanted))
      && (granted == [] <==> Given(db, scopes, org, user, wanted) == {})
  {
    var granted := Chosen(GrantableScopes(scopes, Some(db.members[(org, user)])), wanted);
    if granted != [] {
      assert granted[0] in granted && granted[0] in Given(db, scopes, org, user, wanted);
    }
  }

  lemma ConsentRow(db: Db, code: Id, c: Id, scopes: seq<Scope>, ttl: int, d: nat, org: Id, user: Id, wanted: set<Scope>,
                   e: nat)
    requires c in db.clients && d < ttl && (org, user) in db.members
    requires Chosen(GrantableScopes(scopes, Some(db.members[(org, user)])), wanted) != []
    ensures var db2 := ConsentedTo(Requested(db, code, c, scopes, ttl, d), code, org, user, wanted, e);
      var granted := Chosen(GrantableScopes(scopes, Some(db.members[(org, user)])), wanted);
      && db2.members == db.members && db2.clients == db.clients && code in db2.codes
      && db2.codes[code] == Code(c, Some(org), Some(user), granted, Approved, db.now + d + CODE_TTL)
  {}

  /** Then both tokens have exactly the given scopes, and are accepted for their lifetimes. */
  lemma ConsentServes(db: Db, code: Id, c: Id, scopes: seq<Scope>, ttl: int, d: nat, org: Id, user: Id,
                      wanted: set<Scope>, e: nat, g: Id, ids: NewPair, f: nat)
    requires code !in db.codes && ids.refresh != ids.access && (org, user) in db.members
    requires c in db.clients && db.clients[c].revokedAt.None?
    requires var db2 := ConsentedTo(Requested(db, code, c, scopes, ttl, d), code, org, user, wanted, e);
      ExchangeCodeTx(db2, code, g, ids).1.Issued?
    ensures var db2 := ConsentedTo(Requested(db, code, c, scopes, ttl, d), code, org, user, wanted, e);
      var end := Later(ExchangeCodeTx(db2, code, g, ids).0, f);
      && Of(end, ids.access, g) && Of(end, ids.refresh, g)
      && (forall x :: x in end.tokens[ids.access].scopes <==> x in Given(db, scopes, org, user, wanted))
      && end.tokens[ids.refresh].scopes == end.tokens[ids.access].scopes
      && (PrincipalFor(end, ids.access).Some? <==> f < ids.ttl.access)
      && (RefreshAccepted(end, g, ids.refresh, c) <==> f < ids.ttl.refresh)
  {
    ConsentIssuesIff(db, code, c, scopes, ttl, d, org, user, wanted, e, g, ids);
    GivenIs(db, scopes, org, user, wanted);
    ConsentRow(db, code, c, scopes, ttl, d, org, user, wanted, e);
    ExchangeServes(ConsentedTo(Requested(db, code, c, scopes, ttl, d), code, org, user, wanted, e), code, g, ids, f);
  }

  lemma ExchangeServes(db: Db, code: Id, g: Id, ids: NewPair, f: nat)
    requires ExchangeCodeTx(db, code, g, ids).1.Issued? && ids.refresh != ids.access
    requires db.codes[code].clientId in db.clients && db.clients[db.codes[code].clientId].revokedAt.None?
    requires (db.codes[code].orgId.value, db.codes[code].userId.value) in db.members
    ensures var end, c := Later(ExchangeCodeTx(db, code, g, ids).0, f), db.codes[code].clientId;
      && Of(end, ids.access, g) && Of(end, ids.refresh, g)
      && end.tokens[ids.refresh].scopes == end.tokens[ids.access].scopes == db.codes[code].scopes
      && (PrincipalFor(end, ids.access).Some? <==> f < ids.ttl.access)
      && (RefreshAccepted(end, g, ids.refresh, c) <==> f < ids.ttl.refresh)
  {
    var code1 := db.codes[code];
    var db1 := db.(codes := db.codes[code := code1.(status := Exchanged)],
                   grants := db.grants[g := Grant(code1.clientId, code1.orgId.value, code1.userId, code1.scopes, db.now,
                                                  None, None, 0)]);
    PairLives(db1, g, code1.clientId, code1.orgId.value, code1.userId.value, code1.scopes, code1.scopes, code, ids, f);
  }

  ghost predicate NeverIssues(db: Db, code: Id) { code !in db.codes || db.codes[code].status == Denied }

  lemma NeverIssuesNext(s: Sys, a: Step, code: Id)
    requires Inv(s) && Enabled(s, a) && code in s.hist.used && NeverIssues(s.db, code)
    ensures NeverIssues(Next(s, a).db, code)
  {
    match a
    case LoadRefresh(_, _, _) => GuardedCodes(s.db, a);
    case RefreshToken(g, t, c, scopes, ids) => RefreshCodes(s.db, g, t, c, scopes, ids);
    case RevokeOne(_, _, _) => GuardedCodes(s.db, a);
    case RevokeGrant(_, _) => GuardedCodes(s.db, a);
    case PresentCode(_) => GuardedCodes(s.db, a);
    case _ =>
  }

  lemma GuardedCodes(db: Db, a: Step)
    requires a.LoadRefresh? || a.RevokeOne? || a.RevokeGrant? || a.PresentCode?
    ensures Apply(db, a).codes == db.codes
  {}

  lemma RefreshCodes(db: Db, g: Id, t: Id, c: Id, scopes: seq<Scope>, ids: NewPair)
    ensures RefreshTx(db, g, t, c, scopes, ids).0.codes == db.codes
  {}

  lemma {:induction false} NeverIssuesRun(s: Sys, run: seq<Step>, code: Id)
    requires Inv(s) && EnabledRun(s, run) && code in s.hist.used && NeverIssues(s.db, code)
    ensures NeverIssues(Run(s, run).db, code)
    decreases |run|
  {
    if run != [] {
      NextInv(s, run[0]);
      NeverIssuesNext(s, run[0], code);
      NeverIssuesRun(Next(s, run[0]), run[1..], code);
    }
  }

  /** A request that the user denies in time never yields tokens, whatever is tried afterwards. */
  lemma DeniedNeverIssues(s: Sys, code: Id, user: Id, run: seq<Step>, g: Id, ids: NewPair)
    requires Inv(s) && Decidable(s.db, code) && EnabledRun(Next(s, Deny(code, user)), run)
    ensures !ExchangeCodeTx(Run(Next(s, Deny(code, user)), run).db, code, g, ids).1.Issued?
  {
    NextInv(s, Deny(code, user));
    NeverIssuesRun(Next(s, Deny(code, user)), run, code);
  }

  // ------------------------------------------------------------------ what retention leaves

  /** After retention nothing is stored beyond its time: no code a day past its end, no access token thirty days past
      its end, no refresh token of a grant that ended thirty days ago, no grant without tokens, no old idle client. */
  ghost predicate Tidy(db: Db) {
    && (forall c :: c in db.codes ==> db.codes[c].expiresAt >= db.now - CODE_RETENTION)
    && (forall t :: t in db.tokens && db.tokens[t].kind == Access && db.tokens[t].expiresAt.Some? ==>
          db.tokens[t].expiresAt.value >= db.now - TOKEN_RETENTION)
    && (forall g, t :: Of(db, t, g) && db.tokens[t].kind == Refresh ==> !OldGrant(db, g))
    && (forall g :: g in db.grants ==> exists t :: Of(db, t, g))
    && (forall k :: k in db.clients ==> db.clients[k].createdAt >= db.now - CLIENT_RETENTION || ClientInUse(db, k))
  }

  lemma RetentionTidies(s: Sys)
    requires Inv(s)
    ensures Tidy(PurgeTx(s.db))
  {
    var db2 := PurgeTx(s.db);
    forall g, t | Of(db2, t, g) && db2.tokens[t].kind == Refresh ensures !OldGrant(db2, g) {
      PurgeRows(s.db, t);
      YoungStays(s.db, g, t);
    }
    forall g | g in db2.grants ensures exists t :: Of(db2, t, g) {
      var t :| Of(PurgeCodesAndTokens(s.db), t, g);
      assert Of(db2, t, g);
    }
    UsedClientsStay(s.db);
  }

  lemma YoungStays(db: Db, g: Id, t: Id)
    requires Of(db, t, g) && db.tokens[t].kind == Refresh && !PurgedToken(db, t)
    ensures !OldGrant(PurgeTx(db), g)
  {
    if g in db.grants {
      var r :| Of(db, r, g) && db.tokens[r].kind == Refresh &&
               (db.tokens[r].expiresAt.None? || db.tokens[r].expiresAt.value > db.now - TOKEN_RETENTION);
      PurgeRows(db, r);
      assert Of(PurgeTx(db), r, g);
    }
  }

  lemma UsedClientsStay(db: Db)
    ensures var db2 := PurgeTx(db);
      forall k :: k in db2.clients ==> db2.clients[k].createdAt >= db2.now - CLIENT_RETENTION || ClientInUse(db2, k)
  {}

  /** And nothing is deleted before its time: what is live, pending or in use stays as it is. */
  lemma RetentionKeeps(s: Sys)
    requires Inv(s)
    ensures var db2 := PurgeTx(s.db);
      && (forall c :: c in s.db.codes && s.db.codes[c].expiresAt >= s.db.now - CODE_RETENTION ==>
            c in db2.codes && db2.codes[c] == s.db.codes[c])
      && (forall t, g :: Of(s.db, t, g) && Live(s.db, t) ==> t in db2.tokens && db2.tokens[t] == s.db.tokens[t])
      && (forall k :: k in s.db.clients && s.db.clients[k].createdAt >= s.db.now - CLIENT_RETENTION ==>
          k in db2.clients)
  {
    forall t, g | Of(s.db, t, g) && Live(s.db, t)
      ensures t in PurgeTx(s.db).tokens && PurgeTx(s.db).tokens[t] == s.db.tokens[t]
    {
      PurgeRows(s.db, t);
      if OldGrant(s.db, g) { OldGrantIsDead(s, g); }
    }
  }
}
