/** The authorization server's tables as mutable state: each method is one transaction of app/control/oauth.py, written
    statement by statement, and refines the transaction function that the theorems are about. */
module OAuthStore {
  import opened Common
  import opened OAuth

  class Store {
    var now: int
    var orgs: set<Id>
    var users: set<Id>
    var members: map<(Id, Id), Role>
    var clients: map<Id, Client>
    var codes: map<Id, Code>
    var grants: map<Id, Grant>
    var tokens: map<Id, Token>

    function State(): Db
      reads this
    {
      Db(now, orgs, users, members, clients, codes, grants, tokens)
    }

    constructor (db: Db)
      ensures State() == db
    {
      now, orgs, users, members := db.now, db.orgs, db.users, db.members;
      clients, codes, grants, tokens := db.clients, db.codes, db.grants, db.tokens;
    }

    /** `_guard_grant`: the UPDATE of the lock counter; false when there is no such grant. */
    method GuardGrant(g: Id) returns (locked: bool)
      modifies this`grants
      ensures locked == (g in old(grants))
      ensures State() == if locked then Bump(old(State()), g) else old(State())
    {
      locked := g in grants;
      if locked {
        grants := grants[g := grants[g].(lockSeq := grants[g].lockSeq + 1)];
      }
    }

    /** `_revoke_guarded_grant`: revoke the grant if it is not, then its tokens that are not. */
    method RevokeGuardedGrant(g: Id, reason: Reason)
      modifies this`grants, this`tokens
      ensures State() == if g in old(grants) then RevokeFamily(old(State()), g, reason) else old(State())
    {
      if g !in grants { return; }
      if grants[g].revokedAt.None? {
        grants := grants[g := grants[g].(revokedAt := Some(now), reason := Some(reason))];
      }
      tokens := map t | t in tokens ::
        if tokens[t].grantId == Some(g) && tokens[t].revokedAt.None? then tokens[t].(revokedAt := Some(now))
            else tokens[t];
    }

    /** `revoke_oauth_grant` and the commit of its caller. */
    method RevokeOAuthGrant(g: Id, reason: Reason)
      modifies this`grants, this`tokens
      ensures State() == RevokeGrantTx(old(State()), g, reason)
    {
      var locked := GuardGrant(g);
      if locked { RevokeGuardedGrant(g, reason); }
    }

    /** `_usable_refresh`: classify under the guard, revoking where the verdict says so. */
    method UsableRefresh(g: Id, t: Id, c: Id) returns (usable: bool)
      requires g in grants
      modifies this`grants, this`tokens
      ensures usable == (Classify(old(State()), g, t, c) == Usable)
      ensures State() == match Classify(old(State()), g, t, c)
                         case Kill(reason) => RevokeFamily(old(State()), g, reason)
                         case _ => old(State())
    {
      if t !in tokens || tokens[t].grantId != Some(g) || tokens[t].clientId != c || tokens[t].kind != Refresh {
        return false;
      }
      var row := tokens[t];
      if grants[g].revokedAt.Some? { return false; }
      var reason: Option<Reason> := None;
      if row.rotatedAt.Some? {
        reason := Some(ReuseDetected);
      } else if row.revokedAt.Some? {
        reason := Some(ClientRevoked);
      } else if row.expiresAt.Some? && row.expiresAt.value <= now {
        return false;
      } else if row.userId.None? || (row.orgId, row.userId.value) !in members {
        reason := Some(MembershipEnded);
      }
      if reason.Some? {
        RevokeGuardedGrant(g, reason.value);
        return false;
      }
      return true;
    }

    /** The transaction of `load_refresh_token`. */
    method LoadRefreshToken(g: Id, t: Id, c: Id) returns (found: bool)
      modifies this`grants, this`tokens
      ensures found == (g in old(grants) && RefreshAccepted(old(State()), g, t, c))
      ensures State() == LoadRefreshTx(old(State()), g, t, c)
    {
      found := GuardGrant(g);
      if found {
        assert Classify(State(), g, t, c) == Classify(old(State()), g, t, c);
        found := UsableRefresh(g, t, c);
      }
    }

    /** `_issue_pair`. */
    method IssueTokens(g: Id, c: Id, org: Id, user: Option<Id>, grantScopes: seq<Scope>, accessScopes: seq<Scope>,
                       parent: Id, ids: NewPair)
      modifies this`tokens
      ensures State() == IssuePair(old(State()), g, c, org, user, grantScopes, accessScopes, parent, ids)
    {
      tokens := tokens[ids.refresh := Token(Refresh, c, Some(g), org, user, grantScopes, Some(parent), now,
                                            Some(now + ids.ttl.refresh), None, None)];
      tokens := tokens[ids.access := Token(Access, c, Some(g), org, user, accessScopes, Some(ids.refresh), now,
                                           Some(now + ids.ttl.access), None, None)];
    }

    /** The transaction of `exchange_refresh_token`; scopes beyond the grant roll everything back. */
    method ExchangeRefreshToken(g: Id, t: Id, c: Id, scopes: seq<Scope>, ids: NewPair) returns (out: Outcome)
      modifies this`grants, this`tokens
      ensures (State(), out) == RefreshTx(old(State()), g, t, c, scopes, ids)
    {
      var saved := grants;
      var locked := GuardGrant(g);
      if !locked { return InvalidGrant; }
      var usable := UsableRefresh(g, t, c);
      if !usable { return InvalidGrant; }
      var row := tokens[t];
      var requested := Dedupe(scopes);
      if requested == [] { requested := row.scopes; }
      if exists s :: s in requested && s !in row.scopes {
        grants := saved;
        return InvalidScope;
      }
      tokens := tokens[t := row.(revokedAt := Some(now), rotatedAt := Some(now))];
      tokens := map k | k in tokens ::
        if tokens[k].clientId == c && tokens[k].parentId == Some(t) && tokens[k].kind == Access
            && tokens[k].revokedAt.None?
        then tokens[k].(revokedAt := Some(now)) else tokens[k];
      assert tokens == Rotate(Bump(old(State()), g), t, c).tokens;
      IssueTokens(g, c, row.orgId, row.userId, row.scopes, requested, t, ids);
      return Issued(ids.refresh, ids.access);
    }

    /** The guarded transaction of `revoke_token` (RFC 7009 section 2.1). */
    method RevokeTokenRequest(g: Id, t: Id, c: Id)
      modifies this`grants, this`tokens
      ensures State() == RevokeTokenTx(old(State()), g, t, c)
    {
      var saved := grants;
      var locked := GuardGrant(g);
      if !locked { return; }
      if t !in tokens || tokens[t].grantId != Some(g) || tokens[t].clientId != c {
        grants := saved;
        return;
      }
      if tokens[t].kind == Refresh {
        RevokeGuardedGrant(g, ClientRevoked);
      } else if tokens[t].revokedAt.None? {
        tokens := tokens[t := tokens[t].(revokedAt := Some(now))];
      } else {
        assert tokens == tokens[t := tokens[t]];
      }
    }

    /** The transaction of `exchange_authorization_code`. */
    method ExchangeAuthorizationCode(c: Id, g: Id, ids: NewPair) returns (out: Outcome)
      modifies this`codes, this`grants, this`tokens
      ensures (State(), out) == ExchangeCodeTx(old(State()), c, g, ids)
    {
      if c !in codes || codes[c].status != Approved || codes[c].expiresAt <= now { return InvalidGrant; }
      var saved := codes;
      var code := codes[c];
      codes := codes[c := code.(status := Exchanged)];
      if code.orgId.None? || code.userId.None? || code.orgId.value !in orgs || code.userId.value !in users {
        codes := saved;
        return ServerError;
      }
      grants := grants[g := Grant(code.clientId, code.orgId.value, code.userId, code.scopes, now, None, None, 0)];
      IssueTokens(g, code.clientId, code.orgId.value, code.userId, code.scopes, code.scopes, c, ids);
      return Issued(ids.refresh, ids.access);
    }

    /** `_revoke_code_family` for a code that is presented again: its grants, one after the other. */
    method RevokeCodeFamily(c: Id)
      modifies this`grants, this`tokens
      ensures State() == PresentCodeTx(old(State()), c)
    {
      ghost var before := State();
      var todo: set<Id> := {};
      if c in codes && codes[c].status == Exchanged {
        todo := set t | t in tokens && tokens[t].clientId == codes[c].clientId && tokens[t].parentId == Some(c) &&
                        tokens[t].grantId.Some? :: tokens[t].grantId.value;
      }
      ghost var all := todo;
      assert all == ReplayTargets(before, c);
      RevokeNothing(before);
      while todo != {}
        invariant todo <= all
        invariant State() == RevokeAll(before, all - todo, CodeReplay)
        decreases todo
      {
        var g :| g in todo;
        RevokeOneMore(before, all - todo, g);
        assert all - (todo - {g}) == all - todo + {g};
        RevokeOAuthGrant(g, CodeReplay);
        todo := todo - {g};
      }
      assert all - todo == all;
    }

    /** The grants whose refresh tokens retention deletes. */
    method OldGrants() returns (stale: set<Id>)
      ensures forall g :: g in stale <==> OldGrant(State(), g)
    {
      var cutoff := now - TOKEN_RETENTION;
      var recent := set t | t in tokens && tokens[t].grantId.Some? && tokens[t].kind == Refresh &&
                            (tokens[t].expiresAt.None? || tokens[t].expiresAt.value > cutoff) ::
                                tokens[t].grantId.value;
      stale := set g | g in grants &&
                      ((grants[g].revokedAt.Some? && grants[g].revokedAt.value <= cutoff) || g !in recent);
      OldGrantsAre(State(), recent, stale);
    }

    /** The first two DELETE statements of `purge_expired`. */
    method PurgeCodesAndTokensNow()
      modifies this`codes, this`tokens
      ensures State() == PurgeCodesAndTokens(old(State()))
    {
      var stale := OldGrants();
      DeletedAre(State(), stale);
      codes := LiveCodes(codes, now);
      tokens := KeptTokens(tokens, now - TOKEN_RETENTION, stale);
    }

    /** Grants left without a token. */
    method PurgeGrantsNow()
      modifies this`grants
      ensures State() == PurgeGrants(old(State()))
    {
      ghost var before := State();
      var withToken := set t | t in tokens && tokens[t].grantId.Some? :: tokens[t].grantId.value;
      forall g: Id ensures g in withToken <==> exists t :: Of(before, t, g) {
        if g in withToken {
          var t :| t in tokens && tokens[t].grantId == Some(g);
          assert Of(before, t, g);
        }
      }
      grants := map g | g in grants && g in withToken :: grants[g];
    }

    /** Old clients that nothing refers to. */
    method PurgeClientsNow()
      modifies this`clients
      ensures State() == PurgeClients(old(State()))
    {
      var used := (set c | c in codes :: codes[c].clientId) + (set t | t in tokens :: tokens[t].clientId)
                  + (set g | g in grants :: grants[g].clientId);
      assert forall k :: k in used <==> ClientInUse(State(), k);
      clients := map k | k in clients && (clients[k].createdAt >= now - CLIENT_RETENTION || k in used) :: clients[k];
    }

    /** `purge_expired`. */
    method PurgeExpired()
      modifies this`codes, this`tokens, this`grants, this`clients
      ensures State() == PurgeTx(old(State()))
    {
      PurgeCodesAndTokensNow();
      PurgeGrantsNow();
      PurgeClientsNow();
    }
  }

  /** The condition of the DELETE on tokens. */
  predicate Deleted(row: Token, cutoff: int, stale: set<Id>) {
    || (row.kind == Access && row.expiresAt.Some? && row.expiresAt.value < cutoff)
    || (row.kind == Refresh && row.grantId.Some? && row.grantId.value in stale)
    || (row.grantId.None? && ((row.revokedAt.Some? && row.revokedAt.value <= cutoff)
                              || (row.kind == Refresh && row.expiresAt.Some? && row.expiresAt.value <= cutoff)))
  }

  function KeptTokens(rows: map<Id, Token>, cutoff: int, stale: set<Id>): map<Id, Token> {
    map t | t in rows && !Deleted(rows[t], cutoff, stale) :: rows[t]
  }

  function LiveCodes(rows: map<Id, Code>, now: int): map<Id, Code> {
    map c | c in rows && !(rows[c].expiresAt < now - CODE_RETENTION) :: rows[c]
  }

  lemma DeletedAre(db: Db, stale: set<Id>)
    requires forall g :: g in stale <==> OldGrant(db, g)
    ensures PurgeCodesAndTokens(db) ==
            db.(codes := LiveCodes(db.codes, db.now), tokens := KeptTokens(db.tokens, db.now - TOKEN_RETENTION, stale))
  {
    forall t | t in db.tokens ensures PurgedToken(db, t) <==> Deleted(db.tokens[t], db.now - TOKEN_RETENTION, stale) {}
    assert PurgeCodesAndTokens(db).tokens == KeptTokens(db.tokens, db.now - TOKEN_RETENTION, stale);
    assert PurgeCodesAndTokens(db).codes == LiveCodes(db.codes, db.now);
  }

  lemma RevokeNothing(db: Db)
    ensures forall reason :: RevokeAll(db, {}, reason) == db
  {
    forall reason ensures RevokeAll(db, {}, reason) == db {
      assert RevokeAll(db, {}, reason).tokens == db.tokens;
      assert RevokeAll(db, {}, reason).grants == db.grants;
    }
  }

  lemma RevokeOneMoreTokens(db: Db, done: set<Id>, g: Id)
    requires g !in done
    ensures RevokeGrantTx(RevokeAll(db, done, CodeReplay), g, CodeReplay).tokens
        == RevokeAll(db, done + {g}, CodeReplay).tokens
  {
    var mid := RevokeAll(db, done, CodeReplay);
    var x, y := RevokeGrantTx(mid, g, CodeReplay).tokens, RevokeAll(db, done + {g}, CodeReplay).tokens;
    assert g in mid.grants <==> g in db.grants;
    assert mid.tokens.Keys == db.tokens.Keys && y.Keys == db.tokens.Keys;
    assert x.Keys == db.tokens.Keys;
    forall t | t in db.tokens ensures x[t] == y[t] {
      assert g in db.grants ==>
          x[t] == (if mid.tokens[t].grantId == Some(g) then RevokeToken(mid.tokens[t], db.now) else mid.tokens[t]);
    }
  }

  lemma RevokedRow(db: Db, g: Id, h: Id)
    requires h in db.grants
    ensures h in RevokeGrantTx(db, g, CodeReplay).grants
    ensures RevokeGrantTx(db, g, CodeReplay).grants[h] == RevokeAll(db, {g}, CodeReplay).grants[h]
  {}

  lemma RevokeOneMoreGrants(db: Db, done: set<Id>, g: Id)
    requires g !in done
    ensures RevokeGrantTx(RevokeAll(db, done, CodeReplay), g, CodeReplay).grants
        == RevokeAll(db, done + {g}, CodeReplay).grants
  {
    var mid := RevokeAll(db, done, CodeReplay);
    var x, y := RevokeGrantTx(mid, g, CodeReplay).grants, RevokeAll(db, done + {g}, CodeReplay).grants;
    assert mid.grants.Keys == db.grants.Keys && y.Keys == db.grants.Keys;
    forall h | h in db.grants ensures h in x && x[h] == y[h] {
      RevokedRow(mid, g, h);
    }
    assert x.Keys == db.grants.Keys;
  }

  /** Revoking families one at a time is revoking them together. */
  lemma RevokeOneMore(db: Db, done: set<Id>, g: Id)
    requires g !in done
    ensures RevokeGrantTx(RevokeAll(db, done, CodeReplay), g, CodeReplay) == RevokeAll(db, done + {g}, CodeReplay)
  {
    RevokeOneMoreTokens(db, done, g);
    RevokeOneMoreGrants(db, done, g);
  }

  lemma OldGrantsAre(db: Db, recent: set<Id>, oldGrants: set<Id>)
    requires recent == set t | t in db.tokens && db.tokens[t].grantId.Some? && db.tokens[t].kind == Refresh &&
                               (db.tokens[t].expiresAt.None? || db.tokens[t].expiresAt.value > db.now - TOKEN_RETENTION)
                               :: db.tokens[t].grantId.value
    requires oldGrants == set g | g in db.grants &&
      ((db.grants[g].revokedAt.Some? && db.grants[g].revokedAt.value <= db.now - TOKEN_RETENTION) || g !in recent)
    ensures forall g :: g in oldGrants <==> OldGrant(db, g)
  {
    forall g: Id ensures g in recent <==> RecentRefresh(db, g) {
      if g in recent {
        var t :| t in db.tokens && db.tokens[t].grantId == Some(g) && db.tokens[t].kind == Refresh &&
                 (db.tokens[t].expiresAt.None? || db.tokens[t].expiresAt.value > db.now - TOKEN_RETENTION);
        assert Of(db, t, g);
      }
    }
  }
}
