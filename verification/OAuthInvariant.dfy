/** The invariant of OAuthRuns holds after every step, so in every state of every run. */
module OAuthInvariant {
  import opened Common
  import opened OAuth
  import opened OAuthRuns

  // ------------------------------------------------------------------ transactions that only take away

  /** Inside grant `g`, rows keep everything but their revocation, which is never undone; and when the grant itself or
      a refresh token is newly revoked, the whole family is. */
  ghost predicate Weaker(db: Db, db2: Db, g: Id) {
    && Framed(db, db2, g)
    && g in db.grants && g in db2.grants
    && (var a, b := db.grants[g], db2.grants[g];
        && b == a.(revokedAt := b.revokedAt, reason := b.reason, lockSeq := b.lockSeq)
        && (a.revokedAt.Some? ==> b.revokedAt == a.revokedAt)
        && (b.revokedAt.Some? ==> forall t :: Of(db2, t, g) ==> db2.tokens[t].revokedAt.Some?))
    && db.tokens.Keys == db2.tokens.Keys
    && (forall t :: Of(db, t, g) ==>
          var a, b := db.tokens[t], db2.tokens[t];
          && b == a.(revokedAt := b.revokedAt)
          && (a.revokedAt.Some? ==> b.revokedAt == a.revokedAt)
          && (db2.grants[g].revokedAt.None? && a.kind == Refresh ==> b == a))
  }

  lemma WeakerRow(s: Sys, db2: Db, g: Id, t: Id)
    requires g in s.db.grants && Of(s.db, t, g) && RowOk(s, t, g)
    requires Weaker(s.db, db2, g)
    ensures Of(db2, t, g) && RowOk(Sys(db2, s.hist), t, g)
  {
    var s2 := Sys(db2, s.hist);
    if s.db.tokens[t].kind == Refresh {
      assert RefreshRowOk(s2, t, g);
    } else {
      var p := s.db.tokens[t].parentId.value;
      assert p in s.db.tokens ==> Of(s.db, p, g);
      assert Live(db2, t) ==> Live(s.db, t);
      assert AccessRowOk(s2, t, g);
    }
  }

  lemma WeakerGrantOk(s: Sys, db2: Db, g: Id)
    requires g in s.db.grants && GrantOk(s, g) && Weaker(s.db, db2, g)
    ensures GrantOk(Sys(db2, s.hist), g)
  {
    forall t | Of(db2, t, g)
      ensures RowOk(Sys(db2, s.hist), t, g)
    {
      assert Of(s.db, t, g);
      WeakerRow(s, db2, g, t);
    }
    forall t, u | OpenRefresh(db2, t, g) && OpenRefresh(db2, u, g)
      ensures t == u
    {
      assert Of(s.db, t, g) && Of(s.db, u, g);
      assert OpenRefresh(s.db, t, g) && OpenRefresh(s.db, u, g);
    }
    if Dead(s.db, g) {
      forall t | Of(db2, t, g)
        ensures !Live(db2, t)
      {
        assert Of(s.db, t, g);
      }
    }
  }

  lemma WeakerCodes(s: Sys, db2: Db, g: Id)
    requires Weaker(s.db, db2, g) && db2.grants.Keys == s.db.grants.Keys
    requires forall c :: c in s.db.codes ==> CodeOk(s, c)
    ensures forall c :: c in db2.codes ==> CodeOk(Sys(db2, s.hist), c)
  {
    forall h | h in db2.grants
      ensures db2.grants[h].clientId == s.db.grants[h].clientId && db2.grants[h].orgId == s.db.grants[h].orgId
    {
      assert h in s.db.grants;
    }
    forall c | c in db2.codes
      ensures CodeOk(Sys(db2, s.hist), c)
    {
      assert CodeOk(s, c);
    }
  }

  lemma WeakerFamilies(s: Sys, db2: Db, g: Id)
    requires Weaker(s.db, db2, g) && RefsOk(s)
    requires forall c :: c in s.hist.family ==> FamilyOk(s, c)
    ensures forall c :: c in s.hist.family ==> FamilyOk(Sys(db2, s.hist), c)
  {
    forall c | c in s.hist.family
      ensures FamilyOk(Sys(db2, s.hist), c)
    {
      assert FamilyOk(s, c);
      var r := s.hist.family[c].1;
      assert r in s.db.tokens ==> Of(s.db, r, s.hist.refresh[r]);
    }
  }

  lemma WeakerInv(s: Sys, db2: Db, g: Id)
    requires Inv(s) && Weaker(s.db, db2, g)
    ensures Inv(Sys(db2, s.hist))
  {
    var s2 := Sys(db2, s.hist);
    assert db2.grants.Keys == s.db.grants.Keys;
    forall h | h in db2.grants
      ensures GrantOk(s2, h)
    {
      if h == g { WeakerGrantOk(s, db2, g); } else { FramedGrantOk(s, s2, g, h); }
    }
    SameLinks(s, db2, g);
    WeakerCodes(s, db2, g);
    WeakerFamilies(s, db2, g);
  }

  lemma SameLinks(s: Sys, db2: Db, g: Id)
    requires RefsOk(s) && Weaker(s.db, db2, g)
    ensures RefsOk(Sys(db2, s.hist))
  {
    assert db2.grants.Keys == s.db.grants.Keys;
    forall t | t in db2.tokens
      ensures db2.tokens[t] == s.db.tokens[t].(revokedAt := db2.tokens[t].revokedAt)
    {
      assert t in s.db.tokens;
      if s.db.tokens[t].grantId == Some(g) { assert Of(s.db, t, g); }
    }
    forall h | h in db2.grants
      ensures db2.grants[h].clientId == s.db.grants[h].clientId
    {
      assert h in s.db.grants;
    }
    forall r | r in s.hist.refresh && r in db2.tokens
      ensures Of(db2, r, s.hist.refresh[r]) && db2.tokens[r].kind == Refresh
    {
      assert Of(s.db, r, s.hist.refresh[r]);
    }
  }

  lemma BumpWeaker(db: Db, g: Id)
    requires g in db.grants
    requires db.grants[g].revokedAt.Some? ==> forall t :: Of(db, t, g) ==> db.tokens[t].revokedAt.Some?
    ensures Weaker(db, Bump(db, g), g)
  {}

  lemma RevokeFamilyWeaker(db: Db, g: Id, reason: Reason)
    requires g in db.grants
    ensures Weaker(db, RevokeFamily(Bump(db, g), g, reason), g)
  {}

  lemma RevokedGrantRows(s: Sys, g: Id)
    requires Inv(s) && g in s.db.grants
    ensures s.db.grants[g].revokedAt.Some? ==> forall t :: Of(s.db, t, g) ==> s.db.tokens[t].revokedAt.Some?
  {
    assert GrantOk(s, g);
    forall t | Of(s.db, t, g) ensures s.db.grants[g].revokedAt.Some? ==> s.db.tokens[t].revokedAt.Some? {
      assert RowOk(s, t, g);
    }
  }

  lemma RevokeGrantInv(s: Sys, g: Id, reason: Reason)
    requires Inv(s)
    ensures Inv(Sys(RevokeGrantTx(s.db, g, reason), s.hist))
  {
    if g in s.db.grants {
      RevokeFamilyWeaker(s.db, g, reason);
      WeakerInv(s, RevokeGrantTx(s.db, g, reason), g);
    }
  }

  lemma LoadRefreshInv(s: Sys, g: Id, t: Id, c: Id)
    requires Inv(s)
    ensures Inv(Sys(LoadRefreshTx(s.db, g, t, c), s.hist))
  {
    if g in s.db.grants {
      match Classify(Bump(s.db, g), g, t, c)
      case Kill(reason) => RevokeGrantInv(s, g, reason);
      case _ =>
        RevokedGrantRows(s, g);
        BumpWeaker(s.db, g);
        WeakerInv(s, Bump(s.db, g), g);
    }
  }

  lemma RevokeAccessWeaker(db: Db, g: Id, t: Id, c: Id)
    requires g in db.grants && Of(db, t, g) && db.tokens[t].clientId == c && db.tokens[t].kind == Access
    requires db.grants[g].revokedAt.Some? ==> forall t :: Of(db, t, g) ==> db.tokens[t].revokedAt.Some?
    ensures Weaker(db, RevokeTokenTx(db, g, t, c), g)
  {
    var db2 := RevokeTokenTx(db, g, t, c);
    assert db2.tokens == db.tokens[t := RevokeToken(db.tokens[t], db.now)];
    assert db2.grants == Bump(db, g).grants;
    assert db2.(grants := db.grants, tokens := db.tokens) == db;
  }

  lemma RevokeOneInv(s: Sys, g: Id, t: Id, c: Id)
    requires Inv(s)
    ensures Inv(Sys(RevokeTokenTx(s.db, g, t, c), s.hist))
  {
    if g in s.db.grants && Of(s.db, t, g) && s.db.tokens[t].clientId == c {
      if s.db.tokens[t].kind == Refresh {
        RevokeGrantInv(s, g, ClientRevoked);
      } else {
        RevokedGrantRows(s, g);
        RevokeAccessWeaker(s.db, g, t, c);
        WeakerInv(s, RevokeTokenTx(s.db, g, t, c), g);
      }
    }
  }

  // ------------------------------------------------------------------ code replay

  /** An exchanged code leads to one grant at most: the one its exchange created. */
  lemma ReplayTargetsBound(s: Sys, c: Id)
    requires Inv(s)
    ensures ReplayTargets(s.db, c) <= (if c in s.hist.family then {s.hist.family[c].0} else {})
  {
    if c in s.db.codes && s.db.codes[c].status == Exchanged {
      assert CodeOk(s, c);
      forall t | t in s.db.tokens && s.db.tokens[t].parentId == Some(c) && s.db.tokens[t].grantId.Some?
        ensures s.db.tokens[t].grantId.value == s.hist.family[c].0
      {
        var h := s.db.tokens[t].grantId.value;
        assert GrantOk(s, h) && Of(s.db, t, h) && RowOk(s, t, h);
        assert c !in s.hist.refresh;
      }
    }
  }

  lemma RevokeNone(db: Db, reason: Reason)
    ensures RevokeAll(db, {}, reason) == db
  {
    var z := RevokeAll(db, {}, reason);
    assert z.tokens == db.tokens;
    assert z.grants == db.grants;
  }

  /** Revoking one family out of a lookup is the guarded revocation of that grant. */
  lemma RevokeAllOne(db: Db, g: Id, reason: Reason)
    ensures RevokeAll(db, {g}, reason) == RevokeGrantTx(db, g, reason)
  {
    var x, y := RevokeAll(db, {g}, reason), RevokeGrantTx(db, g, reason);
    if g in db.grants {
      assert x.tokens == y.tokens by {
        forall t | t in db.tokens ensures x.tokens[t] == y.tokens[t] {}
      }
      assert x.grants == y.grants by {
        forall h | h in db.grants ensures h in y.grants && x.grants[h] == y.grants[h] {}
      }
    } else {
      RevokeAllUnknown(db, g, reason);
    }
  }

  lemma RevokeAllUnknown(db: Db, g: Id, reason: Reason)
    requires g !in db.grants
    ensures RevokeAll(db, {g}, reason) == db
  {
    var z := RevokeAll(db, {g}, reason);
    assert z.tokens == db.tokens;
    assert z.grants == db.grants;
  }

  /** Presenting a code again is revoking the grant it created, or nothing. */
  lemma PresentCodeIs(s: Sys, c: Id)
    requires Inv(s)
    ensures PresentCodeTx(s.db, c) ==
      if ReplayTargets(s.db, c) == {} then s.db else RevokeGrantTx(s.db, s.hist.family[c].0, CodeReplay)
    ensures ReplayTargets(s.db, c) != {} ==> c in s.hist.family && ReplayTargets(s.db, c) == {s.hist.family[c].0}
  {
    ReplayTargetsBound(s, c);
    var gs := ReplayTargets(s.db, c);
    if gs == {} {
      RevokeNone(s.db, CodeReplay);
    } else {
      var g :| g in gs;
      assert gs == {s.hist.family[c].0};
      RevokeAllOne(s.db, s.hist.family[c].0, CodeReplay);
    }
  }

  lemma PresentCodeInv(s: Sys, c: Id)
    requires Inv(s)
    ensures Inv(Sys(PresentCodeTx(s.db, c), s.hist))
  {
    PresentCodeIs(s, c);
    if ReplayTargets(s.db, c) != {} {
      RevokeGrantInv(s, s.hist.family[c].0, CodeReplay);
    }
  }

  // ------------------------------------------------------------------ rotation

  /** A usable refresh token is the one unrevoked refresh token of its grant, and all the others are stored. */
  lemma UsableFacts(s: Sys, g: Id, t: Id, c: Id)
    requires Inv(s) && Classify(s.db, g, t, c) == Usable
    ensures g in s.db.grants && s.db.grants[g].revokedAt.None? && s.db.grants[g].clientId == c
    ensures Of(s.db, t, g) && RowOk(s, t, g) && RotateHits(s.db, t)
    ensures s.db.tokens[t].kind == Refresh && s.db.tokens[t].scopes == s.db.grants[g].scopes
    ensures s.db.tokens[t].clientId == c
    ensures forall u :: OpenRefresh(s.db, u, g) ==> u == t
    ensures Complete(s, g)
  {
    assert GrantOk(s, g) && RowOk(s, t, g);
    assert OpenRefresh(s.db, t, g) && Live(s.db, t);
  }

  /** A remark on the transaction itself, in any tables: what is classified under the guard is what the UPDATE then
      meets, so its branch for a lost rotation is unreachable. */
  lemma RotationIsNeverLost(db: Db, g: Id, t: Id, c: Id)
    ensures Classify(db, g, t, c) == Usable ==> RotateHits(db, t)
  {}

  /** `dbR` is `Rotate(db, t, c)` seen from inside grant `g`. */
  ghost predicate Rotated(db: Db, dbR: Db, g: Id, t: Id) {
    && Framed(db, dbR, g)
    && g in db.grants && g in dbR.grants
    && dbR.grants[g] == db.grants[g].(lockSeq := dbR.grants[g].lockSeq)
    && db.tokens.Keys == dbR.tokens.Keys
    && Of(db, t, g) && dbR.tokens[t] == db.tokens[t].(revokedAt := Some(db.now), rotatedAt := Some(db.now))
    && (forall u :: Of(db, u, g) && u != t ==>
          dbR.tokens[u] == (if db.tokens[u].parentId == Some(t) && db.tokens[u].kind == Access
                            then RevokeToken(db.tokens[u], db.now) else db.tokens[u]))
  }

  lemma RotateIsRotated(s: Sys, g: Id, t: Id, c: Id)
    requires Inv(s) && Classify(s.db, g, t, c) == Usable
    ensures Rotated(s.db, Rotate(Bump(s.db, g), t, c), g, t)
  {
    UsableFacts(s, g, t, c);
    var dbR := Rotate(Bump(s.db, g), t, c);
    forall u | u in s.db.tokens && s.db.tokens[u].kind == Access && s.db.tokens[u].parentId == Some(t)
      ensures s.db.tokens[u].grantId == Some(g)
    {
      assert t in s.hist.refresh;
      if s.db.tokens[u].grantId.Some? {
        var h := s.db.tokens[u].grantId.value;
        assert GrantOk(s, h) && Of(s.db, u, h) && RowOk(s, u, h);
      }
    }
    forall u | Of(s.db, u, g)
      ensures s.db.tokens[u].clientId == c
    {
      assert GrantOk(s, g) && RowOk(s, u, g);
    }
  }

  lemma RotatedRow(s: Sys, dbR: Db, g: Id, t: Id, u: Id)
    requires Rotated(s.db, dbR, g, t) && Of(s.db, u, g) && RowOk(s, u, g) && RowOk(s, t, g)
    requires s.db.grants[g].revokedAt.None? && OpenRefresh(s.db, t, g)
    requires forall v :: OpenRefresh(s.db, v, g) ==> v == t
    ensures RowOk(Sys(dbR, s.hist), u, g)
    ensures dbR.tokens[u].revokedAt.Some? || (dbR.tokens[u].kind == Access && !Live(dbR, u))
  {
    var sR := Sys(dbR, s.hist);
    if s.db.tokens[u].kind == Refresh {
      assert u != t ==> !OpenRefresh(s.db, u, g);
      assert RefreshRowOk(sR, u, g);
    } else {
      assert AccessRowOk(s, u, g);
      var p := s.db.tokens[u].parentId.value;
      if p in s.db.tokens && s.db.tokens[u].revokedAt.None? {
        assert OpenRefresh(s.db, p, g);
      }
      assert AccessRowOk(sR, u, g);
    }
  }

  // ------------------------------------------------------------------ issuing a pair

  /** A pair issued on top of tables in which the grant has no live token. */
  ghost predicate PairIssued(db: Db, db2: Db, g: Id, parent: Id, ids: NewPair) {
    && g in db.grants && db2.grants == db.grants && db2.(grants := db.grants, tokens := db.tokens) == db
    && ids.refresh !in db.tokens && ids.access !in db.tokens && ids.refresh != ids.access && ids.ttl.Valid()
    && db2.tokens.Keys == db.tokens.Keys + {ids.refresh, ids.access}
    && (forall u :: u in db.tokens ==> db2.tokens[u] == db.tokens[u])
    && (var grant := db.grants[g];
        var r, a := db2.tokens[ids.refresh], db2.tokens[ids.access];
        && r == Token(Refresh, grant.clientId, Some(g), grant.orgId, grant.userId, grant.scopes, Some(parent),
                      db.now, Some(db.now + ids.ttl.refresh), None, None)
        && a == Token(Access, grant.clientId, Some(g), grant.orgId, grant.userId, a.scopes, Some(ids.refresh),
                      db.now, Some(db.now + ids.ttl.access), None, None)
        && Within(a.scopes, grant.scopes))
  }

  ghost function HistWith(h: Hist, g: Id, ids: NewPair): Hist {
    h.(used := h.used + {ids.refresh, ids.access}, refresh := h.refresh[ids.refresh := g])
  }

  lemma IssuedOldRow(s: Sys, s2: Sys, g: Id, parent: Id, ids: NewPair, u: Id)
    requires PairIssued(s.db, s2.db, g, parent, ids)
    requires s2.hist.refresh == s.hist.refresh[ids.refresh := g]
    requires forall c :: c in s.hist.family ==> c in s2.hist.family && s2.hist.family[c] == s.hist.family[c]
    requires ids.refresh !in s.hist.refresh && ids.access !in s.hist.refresh
    requires Of(s.db, u, g) && RowOk(s, u, g)
    ensures RowOk(s2, u, g)
  {
    assert s2.db.tokens[u] == s.db.tokens[u];
    if s.db.tokens[u].kind == Refresh {
      assert RefreshRowOk(s2, u, g);
    } else {
      assert AccessRowOk(s, u, g);
      var p := s.db.tokens[u].parentId.value;
      assert p in s2.db.tokens ==> p in s.db.tokens;
      assert p in s.db.tokens ==> s2.db.tokens[p] == s.db.tokens[p];
      assert AccessRowOk(s2, u, g);
    }
  }

  lemma IssuedGrantOk(s: Sys, s2: Sys, g: Id, parent: Id, ids: NewPair)
    requires PairIssued(s.db, s2.db, g, parent, ids) && s.db.grants[g].revokedAt.None?
    requires s2.hist.refresh == s.hist.refresh[ids.refresh := g]
    requires forall c :: c in s.hist.family ==> c in s2.hist.family && s2.hist.family[c] == s.hist.family[c]
    requires ids.refresh !in s.hist.refresh && ids.access !in s.hist.refresh
    requires forall u :: Of(s.db, u, g) ==> RowOk(s, u, g)
    requires forall u :: !OpenRefresh(s.db, u, g)
    requires Complete(s, g)
    requires (parent in s2.hist.family && s2.hist.family[parent] == (g, ids.refresh))
             || (parent in s.hist.refresh && s.hist.refresh[parent] == g)
    ensures GrantOk(s2, g)
  {
    forall u | Of(s2.db, u, g)
      ensures RowOk(s2, u, g)
    {
      if u == ids.refresh {
        assert RefreshRowOk(s2, u, g);
      } else if u == ids.access {
        assert AccessRowOk(s2, u, g);
      } else {
        assert Of(s.db, u, g);
        IssuedOldRow(s, s2, g, parent, ids, u);
      }
    }
    forall u, v | OpenRefresh(s2.db, u, g) && OpenRefresh(s2.db, v, g)
      ensures u == v
    {
      assert u != ids.refresh ==> OpenRefresh(s.db, u, g);
      assert v != ids.refresh ==> OpenRefresh(s.db, v, g);
    }
    assert Complete(s2, g);
  }

  // ------------------------------------------------------------------ refresh

  /** What a successful refresh does to the tables, seen from grant `g`. */
  ghost predicate Refreshed(s: Sys, dbR: Db, db2: Db, g: Id, t: Id, ids: NewPair) {
    Rotated(s.db, dbR, g, t) && PairIssued(dbR, db2, g, t, ids)
  }

  lemma RefreshedFrame(s: Sys, dbR: Db, db2: Db, g: Id, t: Id, ids: NewPair)
    requires Refreshed(s, dbR, db2, g, t, ids)
    ensures Framed(s.db, db2, g)
    ensures db2.grants.Keys == s.db.grants.Keys
  {}

  lemma RefreshIsRefreshed(s: Sys, g: Id, t: Id, c: Id, scopes: seq<Scope>, ids: NewPair)
    requires Inv(s) && Enabled(s, RefreshToken(g, t, c, scopes, ids))
    requires RefreshTx(s.db, g, t, c, scopes, ids).1.Issued?
    ensures Classify(s.db, g, t, c) == Usable
    ensures Refreshed(s, Rotate(Bump(s.db, g), t, c), RefreshTx(s.db, g, t, c, scopes, ids).0, g, t, ids)
  {
    assert Classify(Bump(s.db, g), g, t, c) == Classify(s.db, g, t, c);
    UsableFacts(s, g, t, c);
    RotateIsRotated(s, g, t, c);
    RefreshIssues(s.db, g, t, c, scopes, ids);
  }

  lemma RefreshIssues(db: Db, g: Id, t: Id, c: Id, scopes: seq<Scope>, ids: NewPair)
    requires RefreshTx(db, g, t, c, scopes, ids).1.Issued?
    requires g in db.grants && Of(db, t, g) && Rotated(db, Rotate(Bump(db, g), t, c), g, t)
    requires ids.refresh !in db.tokens && ids.access !in db.tokens && ids.refresh != ids.access && ids.ttl.Valid()
    requires db.tokens[t].clientId == c == db.grants[g].clientId && db.tokens[t].scopes == db.grants[g].scopes
    requires db.tokens[t].orgId == db.grants[g].orgId && db.tokens[t].userId == db.grants[g].userId
    ensures PairIssued(Rotate(Bump(db, g), t, c), RefreshTx(db, g, t, c, scopes, ids).0, g, t, ids)
  {}

  lemma RefreshedGrantOk(s: Sys, dbR: Db, db2: Db, g: Id, t: Id, c: Id, ids: NewPair)
    requires Inv(s) && Refreshed(s, dbR, db2, g, t, ids) && Classify(s.db, g, t, c) == Usable
    requires ids.refresh !in s.hist.used && ids.access !in s.hist.used
    ensures GrantOk(Sys(db2, HistWith(s.hist, g, ids)), g)
  {
    UsableFacts(s, g, t, c);
    var sR := Sys(dbR, s.hist);
    forall u | Of(dbR, u, g)
      ensures RowOk(sR, u, g) && !OpenRefresh(dbR, u, g)
    {
      assert Of(s.db, u, g) && GrantOk(s, g) && RowOk(s, u, g);
      RotatedRow(s, dbR, g, t, u);
    }
    assert Complete(sR, g);
    assert t in s.hist.refresh && s.hist.refresh[t] == g;
    IssuedGrantOk(sR, Sys(db2, HistWith(s.hist, g, ids)), g, t, ids);
  }

  lemma RefreshedRefs(s: Sys, dbR: Db, db2: Db, g: Id, t: Id, ids: NewPair)
    requires RefsOk(s) && IdsOk(s) && Refreshed(s, dbR, db2, g, t, ids)
    requires ids.refresh !in s.hist.used && ids.access !in s.hist.used
    ensures RefsOk(Sys(db2, HistWith(s.hist, g, ids)))
  {
    RefreshedFrame(s, dbR, db2, g, t, ids);
    forall u | u in db2.tokens && u in s.db.tokens
      ensures db2.tokens[u]
          == s.db.tokens[u].(revokedAt := db2.tokens[u].revokedAt, rotatedAt := db2.tokens[u].rotatedAt)
    {
      if s.db.tokens[u].grantId == Some(g) { assert Of(s.db, u, g); }
    }
    forall h | h in db2.grants
      ensures db2.grants[h].clientId == s.db.grants[h].clientId
    {
      assert h in s.db.grants;
    }
    forall r | r in HistWith(s.hist, g, ids).refresh && r in db2.tokens
      ensures Of(db2, r, HistWith(s.hist, g, ids).refresh[r]) && db2.tokens[r].kind == Refresh
    {
      if r != ids.refresh {
        assert r in s.db.tokens;
        assert Of(s.db, r, s.hist.refresh[r]);
      }
    }
  }

  lemma RefreshedIds(s: Sys, dbR: Db, db2: Db, g: Id, t: Id, ids: NewPair)
    requires IdsOk(s) && Refreshed(s, dbR, db2, g, t, ids)
    requires ids.refresh !in s.hist.used && ids.access !in s.hist.used
    ensures IdsOk(Sys(db2, HistWith(s.hist, g, ids)))
  {
    RefreshedFrame(s, dbR, db2, g, t, ids);
    var h2 := HistWith(s.hist, g, ids);
    forall v | v in h2.refresh.Values ensures v in h2.used {
      var r :| r in h2.refresh && h2.refresh[r] == v;
      assert r != ids.refresh ==> s.hist.refresh[r] in s.hist.refresh.Values;
    }
  }

  lemma RefreshedCodes(s: Sys, dbR: Db, db2: Db, g: Id, t: Id, ids: NewPair)
    requires Refreshed(s, dbR, db2, g, t, ids)
    requires forall c :: c in s.db.codes ==> CodeOk(s, c)
    ensures forall c :: c in db2.codes ==> CodeOk(Sys(db2, HistWith(s.hist, g, ids)), c)
  {
    RefreshedFrame(s, dbR, db2, g, t, ids);
    forall h | h in db2.grants
      ensures db2.grants[h].clientId == s.db.grants[h].clientId && db2.grants[h].orgId == s.db.grants[h].orgId
    {
      assert h in s.db.grants;
    }
    forall c | c in db2.codes ensures CodeOk(Sys(db2, HistWith(s.hist, g, ids)), c) { assert CodeOk(s, c); }
  }

  lemma RefreshedFamilies(s: Sys, dbR: Db, db2: Db, g: Id, t: Id, ids: NewPair)
    requires IdsOk(s) && RefsOk(s) && Refreshed(s, dbR, db2, g, t, ids)
    requires ids.refresh !in s.hist.used && ids.access !in s.hist.used
    requires forall c :: c in s.hist.family ==> FamilyOk(s, c)
    ensures forall c :: c in s.hist.family ==> FamilyOk(Sys(db2, HistWith(s.hist, g, ids)), c)
  {
    forall c | c in s.hist.family ensures FamilyOk(Sys(db2, HistWith(s.hist, g, ids)), c) {
      assert FamilyOk(s, c);
      var r := s.hist.family[c].1;
      if r in db2.tokens {
        assert r in s.db.tokens;
        assert Of(s.db, r, s.hist.refresh[r]);
        assert db2.tokens[r].parentId == s.db.tokens[r].parentId by {
          if s.hist.refresh[r] != g { assert s.db.tokens[r].grantId != Some(g); }
        }
      }
    }
  }

  lemma RefreshInv(s: Sys, g: Id, t: Id, c: Id, scopes: seq<Scope>, ids: NewPair)
    requires Inv(s) && Enabled(s, RefreshToken(g, t, c, scopes, ids))
    ensures Inv(Next(s, RefreshToken(g, t, c, scopes, ids)))
  {
    var (db2, out) := RefreshTx(s.db, g, t, c, scopes, ids);
    if out.Issued? {
      RefreshIsRefreshed(s, g, t, c, scopes, ids);
      RefreshedInv(s, Rotate(Bump(s.db, g), t, c), db2, g, t, c, ids);
    } else if g in s.db.grants && out != InvalidScope {
      assert db2 == LoadRefreshTx(s.db, g, t, c);
      LoadRefreshInv(s, g, t, c);
    }
  }

  lemma RefreshedHist(s: Sys, dbR: Db, db2: Db, g: Id, t: Id, ids: NewPair)
    requires IdsOk(s) && Refreshed(s, dbR, db2, g, t, ids)
    requires ids.refresh !in s.hist.used && ids.access !in s.hist.used
    ensures HistGrows(s, Sys(db2, HistWith(s.hist, g, ids)), g)
  {}

  lemma RefreshedGrants(s: Sys, dbR: Db, db2: Db, g: Id, t: Id, c: Id, ids: NewPair, h: Id)
    requires Inv(s) && Refreshed(s, dbR, db2, g, t, ids) && Classify(s.db, g, t, c) == Usable
    requires ids.refresh !in s.hist.used && ids.access !in s.hist.used && h in s.db.grants
    ensures h in db2.grants && GrantOk(Sys(db2, HistWith(s.hist, g, ids)), h)
  {
    if h == g {
      RefreshedGrantOk(s, dbR, db2, g, t, c, ids);
    } else {
      RefreshedFrame(s, dbR, db2, g, t, ids);
      RefreshedHist(s, dbR, db2, g, t, ids);
      FramedGrantOk(s, Sys(db2, HistWith(s.hist, g, ids)), g, h);
    }
  }

  lemma RefreshedInv(s: Sys, dbR: Db, db2: Db, g: Id, t: Id, c: Id, ids: NewPair)
    requires Inv(s) && Refreshed(s, dbR, db2, g, t, ids) && Classify(s.db, g, t, c) == Usable
    requires ids.refresh !in s.hist.used && ids.access !in s.hist.used
    ensures Inv(Sys(db2, HistWith(s.hist, g, ids)))
  {
    var s2 := Sys(db2, HistWith(s.hist, g, ids));
    forall h | h in db2.grants
      ensures GrantOk(s2, h)
    {
      assert h in s.db.grants by { RefreshedFrame(s, dbR, db2, g, t, ids); }
      RefreshedGrants(s, dbR, db2, g, t, c, ids, h);
    }
    RefreshedRefs(s, dbR, db2, g, t, ids);
    RefreshedIds(s, dbR, db2, g, t, ids);
    RefreshedCodes(s, dbR, db2, g, t, ids);
    RefreshedFamilies(s, dbR, db2, g, t, ids);
  }

  // ------------------------------------------------------------------ code exchange

  /** What a successful exchange does: a new grant with one pair, and a consumed code. */
  ghost predicate CodeExchanged(s: Sys, db2: Db, c: Id, g: Id, ids: NewPair) {
    && c in s.db.codes && s.db.codes[c].status == Approved && s.db.codes[c].orgId.Some?
    && (var code := s.db.codes[c];
        var grant := Grant(code.clientId, code.orgId.value, code.userId, code.scopes, s.db.now, None, None, 0);
        var db1 := s.db.(codes := s.db.codes[c := code.(status := Exchanged)], grants := s.db.grants[g := grant]);
        PairIssued(db1, db2, g, c, ids))
  }

  ghost function HistExchange(h: Hist, c: Id, g: Id, ids: NewPair): Hist {
    Hist(h.used + {g, ids.refresh, ids.access}, h.refresh[ids.refresh := g], h.family[c := (g, ids.refresh)])
  }

  lemma ExchangedGrantOk(s: Sys, db2: Db, c: Id, g: Id, ids: NewPair)
    requires Inv(s) && CodeExchanged(s, db2, c, g, ids)
    requires g !in s.hist.used && ids.refresh !in s.hist.used && ids.access !in s.hist.used
    ensures GrantOk(Sys(db2, HistExchange(s.hist, c, g, ids)), g)
  {
    var code := s.db.codes[c];
    var grant := Grant(code.clientId, code.orgId.value, code.userId, code.scopes, s.db.now, None, None, 0);
    var db1 := s.db.(codes := s.db.codes[c := code.(status := Exchanged)], grants := s.db.grants[g := grant]);
    var s1 := Sys(db1, s.hist);
    assert forall u :: !Of(db1, u, g);
    assert g !in s.hist.refresh.Values;
    assert Complete(s1, g);
    assert CodeOk(s, c);
    IssuedGrantOk(s1, Sys(db2, HistExchange(s.hist, c, g, ids)), g, c, ids);
  }

  lemma ExchangedFrame(s: Sys, db2: Db, c: Id, g: Id, ids: NewPair)
    requires IdsOk(s) && CodeExchanged(s, db2, c, g, ids)
    requires g !in s.hist.used && ids.refresh !in s.hist.used && ids.access !in s.hist.used && c !in s.hist.family
    ensures FramedRows(s.db, db2, g)
    ensures HistGrows(s, Sys(db2, HistExchange(s.hist, c, g, ids)), g)
  {}

  /** Grants other than the new one. */
  lemma ExchangedOther(s: Sys, db2: Db, c: Id, g: Id, ids: NewPair, h: Id)
    requires Inv(s) && CodeExchanged(s, db2, c, g, ids) && h in s.db.grants
    requires g !in s.hist.used && ids.refresh !in s.hist.used && ids.access !in s.hist.used
    ensures GrantOk(Sys(db2, HistExchange(s.hist, c, g, ids)), h)
  {
    assert CodeOk(s, c);
    ExchangedFrame(s, db2, c, g, ids);
    FramedGrantOk(s, Sys(db2, HistExchange(s.hist, c, g, ids)), g, h);
  }

  lemma ExchangedRest(s: Sys, db2: Db, c: Id, g: Id, ids: NewPair)
    requires Inv(s) && CodeExchanged(s, db2, c, g, ids)
    requires g !in s.hist.used && ids.refresh !in s.hist.used && ids.access !in s.hist.used
    requires Distinct3(g, ids.refresh, ids.access)
    ensures IdsOk(Sys(db2, HistExchange(s.hist, c, g, ids)))
    ensures RefsOk(Sys(db2, HistExchange(s.hist, c, g, ids)))
  {
    var h2 := HistExchange(s.hist, c, g, ids);
    forall v | v in h2.refresh.Values ensures v in h2.used {
      var r :| r in h2.refresh && h2.refresh[r] == v;
      assert r != ids.refresh ==> s.hist.refresh[r] in s.hist.refresh.Values;
    }
    forall r | r in h2.refresh && r in db2.tokens ensures Of(db2, r, h2.refresh[r]) && db2.tokens[r].kind == Refresh {
      if r != ids.refresh { assert r in s.db.tokens && Of(s.db, r, s.hist.refresh[r]); }
    }
  }

  lemma ExchangedCodes(s: Sys, db2: Db, c: Id, g: Id, ids: NewPair)
    requires Inv(s) && CodeExchanged(s, db2, c, g, ids)
    requires g !in s.hist.used && ids.refresh !in s.hist.used && ids.access !in s.hist.used
    ensures forall k :: k in db2.codes ==> CodeOk(Sys(db2, HistExchange(s.hist, c, g, ids)), k)
    ensures forall k :: k in HistExchange(s.hist, c, g, ids).family ==>
        FamilyOk(Sys(db2, HistExchange(s.hist, c, g, ids)), k)
  {
    var h2 := HistExchange(s.hist, c, g, ids);
    assert CodeOk(s, c);
    forall k | k in db2.codes ensures CodeOk(Sys(db2, h2), k) {
      assert CodeOk(s, k);
      if k != c && k in s.hist.family { assert s.hist.family[k].0 in s.hist.used; }
    }
    forall k | k in h2.family ensures FamilyOk(Sys(db2, h2), k) {
      if k != c { assert FamilyOk(s, k); }
    }
  }

  lemma ExchangeInv(s: Sys, c: Id, g: Id, ids: NewPair)
    requires Inv(s) && Enabled(s, ExchangeCode(c, g, ids))
    ensures Inv(Next(s, ExchangeCode(c, g, ids)))
  {
    var (db2, out) := ExchangeCodeTx(s.db, c, g, ids);
    if out.Issued? {
      assert CodeExchanged(s, db2, c, g, ids);
      forall h | h in db2.grants
        ensures GrantOk(Sys(db2, HistExchange(s.hist, c, g, ids)), h)
      {
        if h == g { ExchangedGrantOk(s, db2, c, g, ids); } else { ExchangedOther(s, db2, c, g, ids, h); }
      }
      ExchangedRest(s, db2, c, g, ids);
      ExchangedCodes(s, db2, c, g, ids);
    }
  }

  // ------------------------------------------------------------------ steps that leave grants and tokens alone

  lemma SameRowsGrantOk(s: Sys, s2: Sys, h: Id)
    requires h in s.db.grants && GrantOk(s, h)
    requires s2.db.grants == s.db.grants && s2.db.tokens == s.db.tokens && s.db.now <= s2.db.now
    requires s2.hist.refresh == s.hist.refresh && s2.hist.family == s.hist.family
    ensures GrantOk(s2, h)
  {
    forall t | Of(s2.db, t, h) ensures RowOk(s2, t, h) && (Live(s2.db, t) ==> Live(s.db, t)) {
      assert Of(s.db, t, h) && RowOk(s, t, h);
    }
    forall t, u | OpenRefresh(s2.db, t, h) && OpenRefresh(s2.db, u, h) ensures t == u {
      assert OpenRefresh(s.db, t, h) && OpenRefresh(s.db, u, h);
    }
    assert Complete(s, h) ==> Complete(s2, h);
    if Dead(s.db, h) {
      forall t | Of(s2.db, t, h) ensures !Live(s2.db, t) { assert Of(s.db, t, h); }
    }
  }

  /** Clock, memberships, organizations, users, clients and codes may change; grants and tokens stay. */
  lemma SameRowsInv(s: Sys, s2: Sys)
    requires Inv(s)
    requires s2.db.grants == s.db.grants && s2.db.tokens == s.db.tokens && s.db.now <= s2.db.now
    requires s2.hist.refresh == s.hist.refresh && s2.hist.family == s.hist.family && s.hist.used <= s2.hist.used
    requires s.db.clients.Keys <= s2.db.clients.Keys
    requires s2.db.codes.Keys <= s2.hist.used && s2.db.codes.Keys !! s2.hist.refresh.Keys
    requires forall c :: c in s2.db.codes ==> s2.db.codes[c].clientId in s2.db.clients
    requires forall c :: c in s2.db.codes ==> CodeOk(s2, c)
    ensures Inv(s2)
  {
    forall h | h in s2.db.grants ensures GrantOk(s2, h) { SameRowsGrantOk(s, s2, h); }
    forall r | r in s2.hist.refresh && r in s2.db.tokens
      ensures Of(s2.db, r, s2.hist.refresh[r]) && s2.db.tokens[r].kind == Refresh
    {
      assert Of(s.db, r, s.hist.refresh[r]);
    }
    forall c | c in s2.hist.family ensures FamilyOk(s2, c) { assert FamilyOk(s, c); }
  }

  lemma SameCodesInv(s: Sys, s2: Sys)
    requires Inv(s) && s2.hist == s.hist
    requires s2.db.grants == s.db.grants && s2.db.tokens == s.db.tokens && s.db.now <= s2.db.now
    requires s.db.clients.Keys <= s2.db.clients.Keys && s2.db.codes == s.db.codes
    ensures Inv(s2)
  {
    forall c | c in s2.db.codes ensures CodeOk(s2, c) { assert CodeOk(s, c); }
    SameRowsInv(s, s2);
  }

  /** Requests and decisions write one code row that is not exchanged. */
  lemma CodeStepInv(s: Sys, a: Step, c: Id, row: Code)
    requires Inv(s) && Enabled(s, a)
    requires Next(s, a).db == s.db.(codes := s.db.codes[c := row]) && row.clientId in s.db.clients
    requires Next(s, a).hist == s.hist.(used := Next(s, a).hist.used)
    requires c in Next(s, a).hist.used && s.hist.used <= Next(s, a).hist.used
    requires row.status != Exchanged && (row.status == Approved ==> row.orgId.Some?)
    requires (c in s.db.codes && s.db.codes[c].status != Exchanged) || c !in s.hist.used
    ensures Inv(Next(s, a))
  {
    var s2 := Next(s, a);
    assert c in s.db.codes ==> CodeOk(s, c);
    assert c !in s.hist.family;
    assert c !in s.hist.refresh;
    forall k | k in s2.db.codes ensures CodeOk(s2, k) {
      if k != c { assert CodeOk(s, k); }
    }
    SameRowsInv(s, s2);
  }

  lemma ConsentInv(s: Sys, a: Step)
    requires Inv(s) && Enabled(s, a) && (a.Authorize? || a.Approve? || a.Deny?)
    ensures Inv(Next(s, a))
  {
    var s2 := Next(s, a);
    if s2.db != s.db {
      CodeStepInv(s, a, a.code, s2.db.codes[a.code]);
    } else {
      forall c | c in s2.db.codes ensures CodeOk(s2, c) { assert CodeOk(s, c); }
      SameRowsInv(s, s2);
    }
  }

  // ------------------------------------------------------------------ steps that delete rows

  /** Some rows are gone, the rest is as it was. */
  ghost predicate Shrunk(db: Db, db2: Db) {
    && db2.now == db.now
    && (forall g :: g in db2.grants ==> g in db.grants && db2.grants[g] == db.grants[g])
    && (forall t :: t in db2.tokens ==> t in db.tokens && db2.tokens[t] == db.tokens[t])
    && (forall c :: c in db2.codes ==> c in db.codes && db2.codes[c] == db.codes[c])
    && (forall k :: k in db2.clients ==> k in db.clients)
    && (forall t :: t in db2.tokens ==> db2.tokens[t].clientId in db2.clients)
    && (forall t :: t in db2.tokens && db2.tokens[t].grantId.Some? ==> db2.tokens[t].grantId.value in db2.grants)
    && (forall g :: g in db2.grants ==> db2.grants[g].clientId in db2.clients)
    && (forall c :: c in db2.codes ==> db2.codes[c].clientId in db2.clients)
  }

  /** Of a grant that stays, live access tokens keep their refresh token, and history is complete unless it is dead. */
  ghost predicate KeepsEvidence(s: Sys, db2: Db, g: Id) {
    && (forall t :: Of(db2, t, g) && Live(db2, t) && db2.tokens[t].kind == Access && db2.tokens[t].parentId.Some?
          ==> db2.tokens[t].parentId.value in db2.tokens)
    && (Complete(Sys(db2, s.hist), g) || Dead(db2, g))
  }

  lemma ShrunkGrantOk(s: Sys, db2: Db, g: Id)
    requires g in s.db.grants && g in db2.grants && GrantOk(s, g) && Shrunk(s.db, db2) && KeepsEvidence(s, db2, g)
    ensures GrantOk(Sys(db2, s.hist), g)
  {
    var s2 := Sys(db2, s.hist);
    forall t | Of(db2, t, g) ensures RowOk(s2, t, g) {
      assert Of(s.db, t, g) && RowOk(s, t, g);
      if db2.tokens[t].kind == Access {
        var p := db2.tokens[t].parentId.value;
        assert p in db2.tokens ==> p in s.db.tokens && db2.tokens[p] == s.db.tokens[p];
        assert AccessRowOk(s2, t, g);
      } else {
        assert RefreshRowOk(s2, t, g);
      }
    }
    forall t, u | OpenRefresh(db2, t, g) && OpenRefresh(db2, u, g) ensures t == u {
      assert OpenRefresh(s.db, t, g) && OpenRefresh(s.db, u, g);
    }
  }

  lemma ShrunkInv(s: Sys, db2: Db)
    requires Inv(s) && Shrunk(s.db, db2)
    requires forall g :: g in db2.grants ==> KeepsEvidence(s, db2, g)
    ensures Inv(Sys(db2, s.hist))
  {
    var s2 := Sys(db2, s.hist);
    forall g | g in db2.grants ensures GrantOk(s2, g) { ShrunkGrantOk(s, db2, g); }
    forall r | r in s.hist.refresh && r in db2.tokens
      ensures Of(db2, r, s.hist.refresh[r]) && db2.tokens[r].kind == Refresh
    {
      assert Of(s.db, r, s.hist.refresh[r]);
    }
    forall c | c in db2.codes ensures CodeOk(s2, c) { assert CodeOk(s, c); }
    forall c | c in s.hist.family ensures FamilyOk(s2, c) { assert FamilyOk(s, c); }
  }

  lemma AllTokensStay(s: Sys, db2: Db, g: Id)
    requires g in s.db.grants && GrantOk(s, g) && StoredRefresh(s) && db2.now == s.db.now
    requires forall t :: Of(s.db, t, g) ==> t in db2.tokens && db2.tokens[t] == s.db.tokens[t]
    requires forall t :: Of(db2, t, g) ==> Of(s.db, t, g)
    ensures KeepsEvidence(s, db2, g)
  {
    if Complete(s, g) {
      forall r | r in s.hist.refresh && s.hist.refresh[r] == g ensures r in db2.tokens { assert Of(s.db, r, g); }
    } else {
      assert Dead(db2, g);
    }
    forall t | Of(db2, t, g) && Live(db2, t) && db2.tokens[t].kind == Access && db2.tokens[t].parentId.Some?
      ensures db2.tokens[t].parentId.value in db2.tokens
    {
      assert RowOk(s, t, g) && AccessRowOk(s, t, g) && Live(s.db, t);
      assert Of(s.db, db2.tokens[t].parentId.value, g);
    }
  }

  lemma TokenOrg(s: Sys, t: Id)
    requires Inv(s) && t in s.db.tokens && s.db.tokens[t].grantId.Some?
    ensures s.db.tokens[t].grantId.value in s.db.grants
    ensures s.db.grants[s.db.tokens[t].grantId.value].orgId == s.db.tokens[t].orgId
  {
    var g := s.db.tokens[t].grantId.value;
    assert GrantOk(s, g) && Of(s.db, t, g) && RowOk(s, t, g);
  }

  lemma DeleteOrgInv(s: Sys, org: Id)
    requires Inv(s)
    ensures Inv(Sys(DeleteOrgTx(s.db, org), s.hist))
  {
    var db2 := DeleteOrgTx(s.db, org);
    forall t | t in s.db.tokens && s.db.tokens[t].grantId.Some?
      ensures s.db.grants[s.db.tokens[t].grantId.value].orgId == s.db.tokens[t].orgId
    {
      TokenOrg(s, t);
    }
    assert Shrunk(s.db, db2);
    forall g | g in db2.grants ensures KeepsEvidence(s, db2, g) {
      assert GrantOk(s, g);
      AllTokensStay(s, db2, g);
    }
    ShrunkInv(s, db2);
  }

  // ------------------------------------------------------------------ users

  lemma DeleteUserGrantOk(s: Sys, user: Id, g: Id)
    requires g in s.db.grants && GrantOk(s, g)
    ensures GrantOk(Sys(DeleteUserTx(s.db, user), s.hist), g)
  {
    var db2 := DeleteUserTx(s.db, user);
    var s2 := Sys(db2, s.hist);
    forall t | Of(db2, t, g) ensures RowOk(s2, t, g) && (Live(db2, t) ==> Live(s.db, t)) {
      assert Of(s.db, t, g) && RowOk(s, t, g);
      if s.db.tokens[t].kind == Access {
        assert AccessRowOk(s2, t, g);
      } else {
        assert RefreshRowOk(s2, t, g);
      }
    }
    forall t, u | OpenRefresh(db2, t, g) && OpenRefresh(db2, u, g) ensures t == u {
      assert OpenRefresh(s.db, t, g) && OpenRefresh(s.db, u, g);
    }
    assert Complete(s, g) ==> Complete(s2, g);
    if Dead(s.db, g) {
      forall t | Of(db2, t, g) ensures !Live(db2, t) { assert Of(s.db, t, g); }
    }
  }

  lemma DeleteUserInv(s: Sys, user: Id)
    requires Inv(s)
    ensures Inv(Sys(DeleteUserTx(s.db, user), s.hist))
  {
    var db2 := DeleteUserTx(s.db, user);
    var s2 := Sys(db2, s.hist);
    assert db2.grants.Keys == s.db.grants.Keys && db2.tokens.Keys == s.db.tokens.Keys
        && db2.codes.Keys == s.db.codes.Keys;
    forall g | g in db2.grants ensures GrantOk(s2, g) { DeleteUserGrantOk(s, user, g); }
    forall r | r in s.hist.refresh && r in db2.tokens
      ensures Of(db2, r, s.hist.refresh[r]) && db2.tokens[r].kind == Refresh
    {
      assert Of(s.db, r, s.hist.refresh[r]);
    }
    forall c | c in db2.codes ensures CodeOk(s2, c) { assert CodeOk(s, c); }
    forall c | c in s.hist.family ensures FamilyOk(s2, c) { assert FamilyOk(s, c); }
  }

  // ------------------------------------------------------------------ retention

  /** While a grant has a live token, its newest refresh token is recent. This is where the lifetime bounds of the
      settings (refresh at least an hour, access at most a day) meet the 30 days of retention. */
  lemma LiveIsRecent(s: Sys, g: Id, t: Id)
    requires Inv(s) && g in s.db.grants && Of(s.db, t, g) && Live(s.db, t)
    ensures RecentRefresh(s.db, g) && s.db.grants[g].revokedAt.None?
  {
    assert GrantOk(s, g) && RowOk(s, t, g);
    if s.db.tokens[t].kind == Access {
      assert AccessRowOk(s, t, g);
      var p := s.db.tokens[t].parentId.value;
      assert Of(s.db, p, g) && RowOk(s, p, g) && RefreshRowOk(s, p, g);
    }
  }

  /** A grant whose refresh tokens retention deletes has nothing usable left. */
  lemma OldGrantIsDead(s: Sys, g: Id)
    requires Inv(s) && OldGrant(s.db, g)
    ensures Dead(s.db, g)
  {
    forall t | Of(s.db, t, g) ensures !Live(s.db, t) {
      if Live(s.db, t) { LiveIsRecent(s, g, t); }
    }
  }

  lemma PurgeShrinks(db: Db)
    requires forall t :: t in db.tokens ==> db.tokens[t].clientId in db.clients
    requires forall t :: t in db.tokens && db.tokens[t].grantId.Some? ==> db.tokens[t].grantId.value in db.grants
    requires forall g :: g in db.grants ==> db.grants[g].clientId in db.clients
    requires forall c :: c in db.codes ==> db.codes[c].clientId in db.clients
    ensures Shrunk(db, PurgeTx(db))
  {
    var db1 := PurgeCodesAndTokens(db);
    var db2 := PurgeGrants(db1);
    var db3 := PurgeClients(db2);
    forall t | t in db3.tokens && db3.tokens[t].grantId.Some? ensures db3.tokens[t].grantId.value in db3.grants {
      assert Of(db1, t, db3.tokens[t].grantId.value);
    }
    forall t | t in db3.tokens ensures db3.tokens[t].clientId in db3.clients {
      assert ClientInUse(db2, db3.tokens[t].clientId);
    }
    forall g | g in db3.grants ensures db3.grants[g].clientId in db3.clients {
      assert ClientInUse(db2, db3.grants[g].clientId);
    }
    forall c | c in db3.codes ensures db3.codes[c].clientId in db3.clients {
      assert ClientInUse(db2, db3.codes[c].clientId);
    }
  }

  lemma PurgeKeepsEvidence(s: Sys, g: Id)
    requires Inv(s) && g in PurgeTx(s.db).grants
    ensures KeepsEvidence(s, PurgeTx(s.db), g)
  {
    var db2 := PurgeTx(s.db);
    assert GrantOk(s, g);
    if OldGrant(s.db, g) {
      OldGrantIsDead(s, g);
      forall t | Of(db2, t, g) ensures !Live(db2, t) { assert Of(s.db, t, g); }
    } else {
      forall r | r in s.hist.refresh && s.hist.refresh[r] == g && r in s.db.tokens ensures r in db2.tokens {
        assert Of(s.db, r, g);
        assert !PurgedToken(s.db, r);
      }
      if Dead(s.db, g) {
        forall t | Of(db2, t, g) ensures !Live(db2, t) { assert Of(s.db, t, g); }
      }
      forall t | Of(db2, t, g) && Live(db2, t) && db2.tokens[t].kind == Access && db2.tokens[t].parentId.Some?
        ensures db2.tokens[t].parentId.value in db2.tokens
      {
        assert Of(s.db, t, g) && RowOk(s, t, g) && AccessRowOk(s, t, g) && Live(s.db, t);
        assert Of(s.db, db2.tokens[t].parentId.value, g);
      }
    }
  }

  lemma PurgeInv(s: Sys)
    requires Inv(s)
    ensures Inv(Sys(PurgeTx(s.db), s.hist))
  {
    PurgeShrinks(s.db);
    forall g | g in PurgeTx(s.db).grants ensures KeepsEvidence(s, PurgeTx(s.db), g) { PurgeKeepsEvidence(s, g); }
    ShrunkInv(s, PurgeTx(s.db));
  }

  // ------------------------------------------------------------------ every step, every run

  lemma NextInv(s: Sys, a: Step)
    requires Inv(s) && Enabled(s, a)
    ensures Inv(Next(s, a))
  {
    match a
    case LoadRefresh(g, t, c) => LoadRefreshInv(s, g, t, c);
    case RefreshToken(g, t, c, scopes, ids) => RefreshInv(s, g, t, c, scopes, ids);
    case RevokeOne(g, t, c) => RevokeOneInv(s, g, t, c);
    case RevokeGrant(g, reason) => RevokeGrantInv(s, g, reason);
    case Authorize(_, _, _, _) => ConsentInv(s, a);
    case Approve(_, _, _, _) => ConsentInv(s, a);
    case Deny(_, _) => ConsentInv(s, a);
    case ExchangeCode(c, g, ids) => ExchangeInv(s, c, g, ids);
    case PresentCode(c) => PresentCodeInv(s, c);
    case Purge => PurgeInv(s);
    case DeleteOrg(org) => DeleteOrgInv(s, org);
    case DeleteUser(user) => DeleteUserInv(s, user);
    case _ => SameCodesInv(s, Next(s, a));
  }

  lemma {:induction false} RunInv(s: Sys, run: seq<Step>)
    requires Inv(s) && EnabledRun(s, run)
    ensures Inv(Run(s, run))
    decreases |run|
  {
    if run != [] {
      NextInv(s, run[0]);
      RunInv(Next(s, run[0]), run[1..]);
    }
  }
}
