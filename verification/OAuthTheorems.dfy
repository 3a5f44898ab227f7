/** What a client of the authorization server can rely on, over every run. */
module OAuthTheorems {
  import opened Common
  import opened OAuth
  import opened OAuthRuns
  import opened OAuthInvariant

  // ------------------------------------------------------------------ shape of a grant

  /** In every reachable state a grant has at most one unrevoked refresh token, and a live access token hangs on
      exactly that one. */
  lemma OneRefreshPerGrant(s0: Sys, run: seq<Step>, g: Id)
    requires Init(s0) && EnabledRun(s0, run) && g in Run(s0, run).db.grants
    ensures OneRefresh(Run(s0, run).db, g)
    ensures var db := Run(s0, run).db;
      forall t :: Of(db, t, g) && db.tokens[t].kind == Access && Live(db, t) ==>
        var p := db.tokens[t].parentId;
        p.Some? && OpenRefresh(db, p.value, g) && forall u :: OpenRefresh(db, u, g) ==> u == p.value
  {
    InitInv(s0);
    RunInv(s0, run);
    var s := Run(s0, run);
    assert GrantOk(s, g);
    forall t | Of(s.db, t, g) && s.db.tokens[t].kind == Access && Live(s.db, t)
      ensures s.db.tokens[t].parentId.Some? && OpenRefresh(s.db, s.db.tokens[t].parentId.value, g)
    {
      assert RowOk(s, t, g) && AccessRowOk(s, t, g);
    }
  }

  /** A grant that still has a usable token stores every refresh token it ever issued. */
  lemma LiveGrantKeepsHistory(s0: Sys, run: seq<Step>, g: Id, t: Id, r: Id)
    requires Init(s0) && EnabledRun(s0, run)
    requires Of(Run(s0, run).db, t, g) && Live(Run(s0, run).db, t)
    requires r in Run(s0, run).hist.refresh && Run(s0, run).hist.refresh[r] == g
    ensures r in Run(s0, run).db.tokens
  {
    InitInv(s0);
    RunInv(s0, run);
    assert GrantOk(Run(s0, run), g);
  }

  // ------------------------------------------------------------------ rows only get weaker

  /** A token row keeps its identity, and its revocation and rotation are never undone. */
  ghost predicate Evolves(a: Token, b: Token) {
    && b == a.(userId := b.userId, revokedAt := b.revokedAt, rotatedAt := b.rotatedAt)
    && (a.revokedAt.Some? ==> b.revokedAt.Some?)
    && (a.rotatedAt.Some? ==> b.rotatedAt.Some?)
    && (a.userId.None? ==> b.userId.None?)
  }

  lemma FamilyEvolves(db: Db, g: Id, reason: Reason, u: Id)
    requires u in db.tokens && g in db.grants
    ensures var db2 := RevokeFamily(Bump(db, g), g, reason); u in db2.tokens && Evolves(db.tokens[u], db2.tokens[u])
  {}

  lemma RotateEvolves(db: Db, t: Id, c: Id, u: Id)
    requires u in db.tokens && t in db.tokens
    ensures u in Rotate(db, t, c).tokens && Evolves(db.tokens[u], Rotate(db, t, c).tokens[u])
  {}

  lemma RefreshEvolves(db: Db, g: Id, t: Id, c: Id, scopes: seq<Scope>, ids: NewPair, u: Id)
    requires u in db.tokens && u != ids.refresh && u != ids.access
    ensures var db2 := RefreshTx(db, g, t, c, scopes, ids).0; u in db2.tokens && Evolves(db.tokens[u], db2.tokens[u])
  {
    if g in db.grants {
      match Classify(Bump(db, g), g, t, c)
      case Kill(reason) => FamilyEvolves(db, g, reason, u);
      case Usable => RotateEvolves(Bump(db, g), t, c, u);
      case Refuse =>
    }
  }

  lemma GuardedEvolves(db: Db, a: Step, u: Id)
    requires u in db.tokens && (a.LoadRefresh? || a.RevokeOne? || a.RevokeGrant?)
    ensures u in Apply(db, a).tokens && Evolves(db.tokens[u], Apply(db, a).tokens[u])
  {
    match a
    case LoadRefresh(g, t, c) =>
      if g in db.grants && Classify(Bump(db, g), g, t, c).Kill? {
        FamilyEvolves(db, g, Classify(Bump(db, g), g, t, c).reason, u);
      }
    case RevokeOne(g, t, c) => if g in db.grants { FamilyEvolves(db, g, ClientRevoked, u); }
    case RevokeGrant(g, reason) => if g in db.grants { FamilyEvolves(db, g, reason, u); }
  }

  lemma RowEvolves(s: Sys, a: Step, t: Id)
    requires Inv(s) && Enabled(s, a)
    requires t in s.db.tokens && t in Next(s, a).db.tokens
    ensures Evolves(s.db.tokens[t], Next(s, a).db.tokens[t])
  {
    UsedToken(s, t);
    DbEvolves(s, a, t);
  }

  lemma UsedToken(s: Sys, t: Id)
    requires Inv(s) && t in s.db.tokens
    ensures t in s.hist.used
  {}

  lemma DbEvolves(s: Sys, a: Step, t: Id)
    requires Enabled(s, a) && t in s.hist.used && t in s.db.tokens && t in Apply(s.db, a).tokens
    ensures Evolves(s.db.tokens[t], Apply(s.db, a).tokens[t])
  {
    match a
    case RefreshToken(g, r, c, scopes, ids) => RefreshEvolves(s.db, g, r, c, scopes, ids, t);
    case LoadRefresh(_, _, _) => GuardedEvolves(s.db, a, t);
    case RevokeOne(_, _, _) => GuardedEvolves(s.db, a, t);
    case RevokeGrant(_, _) => GuardedEvolves(s.db, a, t);
    case Purge => PurgeRows(s.db, t);
    case _ =>
  }

  lemma PurgeRows(db: Db, t: Id)
    ensures t in PurgeTx(db).tokens <==> t in db.tokens && !PurgedToken(db, t)
    ensures t in PurgeTx(db).tokens ==> PurgeTx(db).tokens[t] == db.tokens[t]
  {}

  lemma {:induction false} RowEvolvesRun(s: Sys, run: seq<Step>, t: Id)
    requires Inv(s) && EnabledRun(s, run) && t in s.hist.used
    ensures t in Run(s, run).db.tokens ==> t in s.db.tokens && Evolves(s.db.tokens[t], Run(s, run).db.tokens[t])
    decreases |run|
  {
    if run != [] {
      var s1 := Next(s, run[0]);
      NextInv(s, run[0]);
      RowEvolvesRun(s1, run[1..], t);
      if t in Run(s, run).db.tokens {
        NoResurrection(s, run[0], t);
        RowEvolves(s, run[0], t);
      }
    }
  }

  /** A used id never names a new token. */
  lemma NoResurrection(s: Sys, a: Step, t: Id)
    requires Inv(s) && Enabled(s, a) && t in s.hist.used
    ensures t in Next(s, a).db.tokens ==> t in s.db.tokens
  {}

  /** The history only grows. */
  lemma {:induction false} HistoryGrows(s: Sys, run: seq<Step>)
    requires Inv(s) && EnabledRun(s, run)
    ensures s.hist.used <= Run(s, run).hist.used
    ensures forall r :: r in s.hist.refresh ==>
              r in Run(s, run).hist.refresh && Run(s, run).hist.refresh[r] == s.hist.refresh[r]
    ensures forall c :: c in s.hist.family ==>
              c in Run(s, run).hist.family && Run(s, run).hist.family[c] == s.hist.family[c]
    decreases |run|
  {
    if run != [] {
      var s1 := Next(s, run[0]);
      NextInv(s, run[0]);
      assert s.hist.used <= s1.hist.used;
      forall c | c in s.hist.family ensures c in s1.hist.family && s1.hist.family[c] == s.hist.family[c] {
        if c in s.db.codes { assert CodeOk(s, c); }
      }
      HistoryGrows(s1, run[1..]);
    }
  }

  // ------------------------------------------------------------------ a hopeless grant stays hopeless

  /** The token may be accepted now or later: unrevoked, unexpired, its user still exists, and a bearer of an access
      token is not cut off by the revocation of the client. */
  ghost predicate Hopeful(db: Db, t: Id)
    requires t in db.tokens
  {
    var row := db.tokens[t];
    Live(db, t) && row.userId.Some?
        && (row.kind == Access ==> row.clientId in db.clients && db.clients[row.clientId].revokedAt.None?)
  }

  ghost predicate Hopeless(db: Db, g: Id) { forall t :: Of(db, t, g) ==> !Hopeful(db, t) }

  /** Only a hopeful token is ever accepted. */
  lemma AcceptedIsHopeful(db: Db, t: Id)
    ensures PrincipalFor(db, t).Some? ==> t in db.tokens && db.tokens[t].grantId.Some? && Hopeful(db, t)
    ensures forall g, c :: RefreshAccepted(db, g, t, c) ==> Of(db, t, g) && Hopeful(db, t)
  {}

  /** A token of a hopeless grant is not accepted, and a refresh under it issues nothing. */
  lemma HopelessRefuses(db: Db, g: Id)
    requires Hopeless(db, g)
    ensures forall t :: Of(db, t, g) ==> PrincipalFor(db, t).None?
    ensures forall t, c :: !RefreshAccepted(db, g, t, c)
    ensures forall t, c, scopes, ids :: !RefreshTx(db, g, t, c, scopes, ids).1.Issued?
  {
    forall t | Of(db, t, g) ensures PrincipalFor(db, t).None? { AcceptedIsHopeful(db, t); }
    forall t, c ensures !RefreshAccepted(db, g, t, c) { AcceptedIsHopeful(db, t); }
    forall t, c, scopes, ids ensures !RefreshTx(db, g, t, c, scopes, ids).1.Issued? {
      if g in db.grants {
        assert Classify(Bump(db, g), g, t, c) == Classify(db, g, t, c);
        assert !RefreshAccepted(db, g, t, c);
      }
    }
  }

  lemma RefreshNewTokens(db: Db, g: Id, r: Id, c: Id, scopes: seq<Scope>, ids: NewPair, t: Id)
    requires t in RefreshTx(db, g, r, c, scopes, ids).0.tokens && t !in db.tokens
    ensures RefreshTx(db, g, r, c, scopes, ids).1.Issued?
    ensures RefreshTx(db, g, r, c, scopes, ids).0.tokens[t].grantId == Some(g)
  {}

  lemma GuardedNewTokens(db: Db, a: Step, t: Id)
    requires a.LoadRefresh? || a.RevokeOne? || a.RevokeGrant? || a.PresentCode? || a.DeleteOrg? || a.DeleteUser?
    ensures t in Apply(db, a).tokens ==> t in db.tokens
  {}

  /** New tokens come from issued pairs only. */
  lemma NewTokens(s: Sys, a: Step, t: Id)
    requires Enabled(s, a) && t in Next(s, a).db.tokens && t !in s.db.tokens
    ensures (a.RefreshToken? && RefreshTx(s.db, a.g, a.t, a.c, a.scopes, a.ids).1.Issued?
             && Next(s, a).db.tokens[t].grantId == Some(a.g))
         || (a.ExchangeCode? && Next(s, a).db.tokens[t].grantId == Some(a.g))
  {
    match a
    case RefreshToken(g, r, c, scopes, ids) => RefreshNewTokens(s.db, g, r, c, scopes, ids, t);
    case ExchangeCode(_, _, _) =>
    case Purge => PurgeRows(s.db, t);
    case LoadRefresh(_, _, _) => GuardedNewTokens(s.db, a, t);
    case RevokeOne(_, _, _) => GuardedNewTokens(s.db, a, t);
    case RevokeGrant(_, _) => GuardedNewTokens(s.db, a, t);
    case PresentCode(_) => GuardedNewTokens(s.db, a, t);
    case DeleteOrg(_) => GuardedNewTokens(s.db, a, t);
    case DeleteUser(_) => GuardedNewTokens(s.db, a, t);
    case _ =>
  }

  /** Time does not run backwards and a client's revocation is final. */
  lemma ClockAndClients(s: Sys, a: Step, k: Id)
    requires Enabled(s, a) && k in s.db.clients
    ensures k in Next(s, a).db.clients && s.db.clients[k].revokedAt.Some? ==> Next(s, a).db.clients[k].revokedAt.Some?
    ensures s.db.now <= Next(s, a).db.now
  {}

  lemma HopelessOldRow(s: Sys, a: Step, t: Id)
    requires Inv(s) && Enabled(s, a) && t in s.db.tokens && !Hopeful(s.db, t) && t in Next(s, a).db.tokens
    ensures !Hopeful(Next(s, a).db, t)
  {
    RowEvolves(s, a, t);
    var k := s.db.tokens[t].clientId;
    assert k in s.db.clients;
    ClockAndClients(s, a, k);
  }

  lemma HopelessRow(s: Sys, a: Step, g: Id, t: Id)
    requires Inv(s) && Enabled(s, a) && Hopeless(s.db, g) && (g in s.hist.used || !a.ExchangeCode?)
    requires Of(Next(s, a).db, t, g)
    ensures !Hopeful(Next(s, a).db, t)
  {
    if t in s.db.tokens {
      RowEvolves(s, a, t);
      assert Of(s.db, t, g);
      HopelessOldRow(s, a, t);
    } else {
      HopelessRefuses(s.db, g);
      NewTokens(s, a, t);
    }
  }

  lemma HopelessNext(s: Sys, a: Step, g: Id)
    requires Inv(s) && Enabled(s, a) && Hopeless(s.db, g) && (g in s.hist.used || !a.ExchangeCode?)
    ensures Hopeless(Next(s, a).db, g)
  {
    forall t | Of(Next(s, a).db, t, g) ensures !Hopeful(Next(s, a).db, t) { HopelessRow(s, a, g, t); }
  }

  lemma {:induction false} HopelessStays(s: Sys, run: seq<Step>, g: Id)
    requires Inv(s) && EnabledRun(s, run) && Hopeless(s.db, g) && g in s.hist.used
    ensures Hopeless(Run(s, run).db, g)
    decreases |run|
  {
    if run != [] {
      var s1 := Next(s, run[0]);
      NextInv(s, run[0]);
      HopelessNext(s, run[0], g);
      assert g in s1.hist.used;
      HopelessStays(s1, run[1..], g);
    }
  }

  // ------------------------------------------------------------------ revocation is final

  /** Once a grant is revoked (or gone), no later state of any run accepts one of its tokens or issues one under it. */
  lemma RevokedForever(s: Sys, run: seq<Step>, g: Id)
    requires Inv(s) && EnabledRun(s, run) && g in s.hist.used
    requires g in s.db.grants ==> s.db.grants[g].revokedAt.Some?
    ensures forall t :: Of(Run(s, run).db, t, g) ==> PrincipalFor(Run(s, run).db, t).None?
    ensures forall t, c, scopes, ids :: !RefreshTx(Run(s, run).db, g, t, c, scopes, ids).1.Issued?
    ensures Hopeless(Run(s, run).db, g)
  {
    forall t | Of(s.db, t, g) ensures !Hopeful(s.db, t) {
      assert GrantOk(s, g) && RowOk(s, t, g);
    }
    HopelessStays(s, run, g);
    HopelessRefuses(Run(s, run).db, g);
  }

  // ------------------------------------------------------------------ replay of a refresh token

  /** Presenting a rotated refresh token under the guard revokes the grant and every token of it, at once. */
  lemma ReplayRevokes(s: Sys, g: Id, t: Id, scopes: seq<Scope>, ids: NewPair)
    requires Inv(s) && Of(s.db, t, g) && s.db.tokens[t].kind == Refresh && s.db.tokens[t].rotatedAt.Some?
    ensures var c := s.db.tokens[t].clientId;
            var db2 := RefreshTx(s.db, g, t, c, scopes, ids).0;
            && RefreshTx(s.db, g, t, c, scopes, ids).1 == InvalidGrant
            && LoadRefreshTx(s.db, g, t, c) == db2
            && g in db2.grants && db2.grants[g].revokedAt.Some?
            && (s.db.grants[g].revokedAt.None? ==> db2.grants[g].reason == Some(ReuseDetected))
            && (forall u :: Of(db2, u, g) ==> db2.tokens[u].revokedAt.Some?)
  {
    RevokedGrantRows(s, g);
  }

  /** A replay of a refresh token that was rotated at any earlier point of the run, whatever happened in between
      (retention included), leaves no usable token in the family, then and for ever. */
  lemma ReplayKillsFamily(s: Sys, before: seq<Step>, replay: Step, after: seq<Step>, t: Id)
    requires Inv(s) && t in s.db.tokens && s.db.tokens[t].kind == Refresh && s.db.tokens[t].rotatedAt.Some?
    requires s.db.tokens[t].grantId.Some?
    requires EnabledRun(s, before)
    requires replay.LoadRefresh? || replay.RefreshToken?
    requires replay.g == s.db.tokens[t].grantId.value && replay.t == t && replay.c == s.db.tokens[t].clientId
    requires Enabled(Run(s, before), replay) && EnabledRun(Next(Run(s, before), replay), after)
    ensures Hopeless(Run(Next(Run(s, before), replay), after).db, replay.g)
  {
    var g := replay.g;
    var s1 := Run(s, before);
    var s2 := Next(s1, replay);
    RunInv(s, before);
    RowEvolvesRun(s, before, t);
    HistoryGrows(s, before);
    NextInv(s1, replay);
    assert GrantOk(s, g) && RowOk(s, t, g);
    if t in s1.db.tokens {
      ReplayRevokes(s1, g, t, if replay.RefreshToken? then replay.scopes else [],
                    if replay.RefreshToken? then replay.ids else NewPair(0, 0, Ttl(60, 3600)));
      RevokedForever(s2, after, g);
    } else {
      if g in s1.db.grants {
        assert GrantOk(s1, g) && !Complete(s1, g) && Dead(s1.db, g);
      }
      assert Hopeless(s1.db, g);
      HopelessStays(s1, [replay] + after, g) by {
        RunCons(s1, replay, after);
      }
      RunCons(s1, replay, after);
    }
  }

  lemma RunCons(s: Sys, a: Step, run: seq<Step>)
    requires Enabled(s, a) && EnabledRun(Next(s, a), run)
    ensures EnabledRun(s, [a] + run) && Run(s, [a] + run) == Run(Next(s, a), run)
  {
    assert ([a] + run)[1..] == run;
  }

  /** A token of a hopeless grant, wherever a run has left it, is refused. */
  lemma HopelessTokenRefused(s: Sys, run: seq<Step>, t: Id, g: Id)
    requires Inv(s) && EnabledRun(s, run) && Of(s.db, t, g) && t in s.hist.used
    requires Hopeless(Run(s, run).db, g)
    ensures PrincipalFor(Run(s, run).db, t).None?
  {
    HopelessRefuses(Run(s, run).db, g);
    RowEvolvesRun(s, run, t);
  }

  lemma LoserReplays(s: Sys, between: seq<Step>, lose: Step, access: Id)
    requires Inv(s) && EnabledRun(s, between) && lose.RefreshToken? && Enabled(Run(s, between), lose)
    requires Of(s.db, lose.t, lose.g) && s.db.tokens[lose.t].kind == Refresh && s.db.tokens[lose.t].rotatedAt.Some?
    requires s.db.tokens[lose.t].clientId == lose.c && Of(s.db, access, lose.g) && access in s.hist.used
    ensures var end := Next(Run(s, between), lose).db;
      Hopeless(end, lose.g) && PrincipalFor(end, access).None? && forall t, c :: !RefreshAccepted(end, lose.g, t, c)
  {
    ReplayKillsFamily(s, between, lose, [], lose.t);
    HopelessRefuses(Next(Run(s, between), lose).db, lose.g);
    RunThen(s, between, lose);
    HopelessTokenRefused(s, between + [lose], access, lose.g);
  }

  /** Two refreshes with the same token: both looked it up, one committed and got a new pair, anything may have
      happened since. The commit of the loser ends the family, the winner's pair included. */
  lemma LoserEndsTheFamily(s: Sys, win: Step, between: seq<Step>, lose: Step)
    requires Inv(s) && Enabled(s, win) && win.RefreshToken?
    requires RefreshTx(s.db, win.g, win.t, win.c, win.scopes, win.ids).1.Issued?
    requires EnabledRun(Next(s, win), between)
    requires lose.RefreshToken? && lose.g == win.g && lose.t == win.t && lose.c == win.c
    requires Enabled(Run(Next(s, win), between), lose)
    ensures var end := Next(Run(Next(s, win), between), lose).db;
            && Hopeless(end, win.g)
            && PrincipalFor(end, win.ids.access).None?
            && !RefreshAccepted(end, win.g, win.ids.refresh, win.c)
  {
    NextInv(s, win);
    WinnersPair(s, win);
    LoserReplays(Next(s, win), between, lose, win.ids.access);
  }

  lemma WinnersPair(s: Sys, win: Step)
    requires Inv(s) && Enabled(s, win) && win.RefreshToken?
    requires RefreshTx(s.db, win.g, win.t, win.c, win.scopes, win.ids).1.Issued?
    ensures var s1 := Next(s, win);
      && Of(s1.db, win.ids.access, win.g) && win.ids.access in s1.hist.used
      && Of(s1.db, win.t, win.g) && s1.db.tokens[win.t].kind == Refresh && s1.db.tokens[win.t].rotatedAt.Some?
      && s1.db.tokens[win.t].clientId == win.c
  {
    RefreshIsRefreshed(s, win.g, win.t, win.c, win.scopes, win.ids);
    UsableFacts(s, win.g, win.t, win.c);
  }

  lemma {:induction false} RunThen(s: Sys, run: seq<Step>, a: Step)
    requires EnabledRun(s, run) && Enabled(Run(s, run), a)
    ensures EnabledRun(s, run + [a]) && Run(s, run + [a]) == Next(Run(s, run), a)
    decreases |run|
  {
    if run == [] {
      assert [a][1..] == [] && run + [a] == [a];
      assert Run(Next(s, a), []) == Next(s, a);
    } else {
      assert (run + [a])[1..] == run[1..] + [a];
      RunThen(Next(s, run[0]), run[1..], a);
    }
  }

  // ------------------------------------------------------------------ authorization codes

  /** A code that has been exchanged once never yields a second grant. */
  lemma CodeIsSpent(s: Sys, c: Id, g: Id, ids: NewPair)
    requires Inv(s) && c in s.hist.family
    ensures !ExchangeCodeTx(s.db, c, g, ids).1.Issued?
  {
    if c in s.db.codes { assert CodeOk(s, c); }
  }

  lemma CodeYieldsOneGrant(s: Sys, first: Step, between: seq<Step>, second: Step)
    requires Inv(s) && Enabled(s, first) && first.ExchangeCode?
    requires ExchangeCodeTx(s.db, first.code, first.g, first.ids).1.Issued?
    requires EnabledRun(Next(s, first), between) && second.ExchangeCode? && second.code == first.code
    ensures !ExchangeCodeTx(Run(Next(s, first), between).db, second.code, second.g, second.ids).1.Issued?
  {
    NextInv(s, first);
    RunInv(Next(s, first), between);
    HistoryGrows(Next(s, first), between);
    CodeIsSpent(Run(Next(s, first), between), second.code, second.g, second.ids);
  }

  /** The parent link leads from a stored, exchanged code to its grant, as long as that grant can still be used. */
  lemma ReplayFindsGrant(s: Sys, c: Id)
    requires Inv(s) && c in s.db.codes && c in s.hist.family
    ensures ReplayTargets(s.db, c) == {s.hist.family[c].0} || Dead(s.db, s.hist.family[c].0)
  {
    var (g, r) := s.hist.family[c];
    assert CodeOk(s, c) && FamilyOk(s, c);
    ReplayTargetsBound(s, c);
    if !Dead(s.db, g) {
      var t :| Of(s.db, t, g) && Live(s.db, t);
      assert g in s.db.grants && GrantOk(s, g);
      assert Of(s.db, r, g) && RowOk(s, r, g);
      assert g in CodeFamily(s.db, c);
    }
  }

  /** Presenting an exchanged code again ends its family: the lookup may be any time before the revocation. */
  lemma CodeReplayKillsFamily(s: Sys, c: Id, between: seq<Step>, after: seq<Step>)
    requires Inv(s) && c in s.db.codes && c in s.hist.family && EnabledRun(s, between)
    requires EnabledRun(Next(Run(s, between), RevokeGrant(s.hist.family[c].0, CodeReplay)), after)
    ensures ReplayTargets(s.db, c) == {s.hist.family[c].0} ==>
              Hopeless(Run(Next(Run(s, between), RevokeGrant(s.hist.family[c].0, CodeReplay)), after).db,
                  s.hist.family[c].0)
    ensures ReplayTargets(s.db, c) == {} ==> Hopeless(Run(s, between).db, s.hist.family[c].0)
  {
    var g := s.hist.family[c].0;
    var s1 := Run(s, between);
    var a := RevokeGrant(g, CodeReplay);
    RunInv(s, between);
    NextInv(s1, a);
    HistoryGrows(s, between);
    assert g in s1.hist.used;
    RevokedForever(Next(s1, a), after, g);
    ReplayFindsGrant(s, c);
    if Dead(s.db, g) {
      assert Hopeless(s.db, g);
      HopelessStays(s, between, g);
    }
  }

  // ------------------------------------------------------------------ scopes

  /** The scopes of a principal lie within its token, within the grant, and within the user's role of this moment; the
      refresh tokens of the grant carry exactly the scopes of the grant. */
  lemma ScopesWithin(s: Sys, t: Id)
    requires Inv(s) && PrincipalFor(s.db, t).Some?
    ensures var p := PrincipalFor(s.db, t).value;
            var row := s.db.tokens[t];
            && row.grantId.Some? && row.grantId.value in s.db.grants && (p.orgId, p.userId) in s.db.members
            && p.orgId == row.orgId && Some(p.userId) == row.userId
            && (forall x :: x in p.scopes ==> x in row.scopes && x in RoleScopes(s.db.members[(p.orgId, p.userId)]))
            && Within(row.scopes, s.db.grants[row.grantId.value].scopes)
    ensures forall r, g :: g in s.db.grants && Of(s.db, r, g) && s.db.tokens[r].kind == Refresh ==>
              s.db.tokens[r].scopes == s.db.grants[g].scopes
  {
    var g := s.db.tokens[t].grantId.value;
    assert GrantOk(s, g) && Of(s.db, t, g) && RowOk(s, t, g) && AccessRowOk(s, t, g);
    forall r, h | h in s.db.grants && Of(s.db, r, h) && s.db.tokens[r].kind == Refresh
      ensures s.db.tokens[r].scopes == s.db.grants[h].scopes
    {
      assert GrantOk(s, h) && RowOk(s, r, h) && RefreshRowOk(s, r, h);
    }
  }

  lemma GrantScopesStep(s: Sys, a: Step, g: Id)
    requires Inv(s) && Enabled(s, a) && g in s.hist.used && g in Next(s, a).db.grants
    ensures g in s.db.grants && Next(s, a).db.grants[g].scopes == s.db.grants[g].scopes
  {
    match a
    case RefreshToken(h, t, c, scopes, ids) => RefreshGrants(s.db, h, t, c, scopes, ids);
    case LoadRefresh(_, _, _) => GuardedGrants(s.db, a);
    case RevokeOne(_, _, _) => GuardedGrants(s.db, a);
    case RevokeGrant(_, _) => GuardedGrants(s.db, a);
    case PresentCode(_) => GuardedGrants(s.db, a);
    case DeleteUser(_) => GuardedGrants(s.db, a);
    case _ =>
  }

  ghost predicate KeepsScopes(db: Db, db2: Db) {
    forall h :: h in db2.grants ==> h in db.grants && db2.grants[h].scopes == db.grants[h].scopes
  }

  lemma FamilyGrants(db: Db, g: Id, reason: Reason)
    requires g in db.grants
    ensures KeepsScopes(db, RevokeFamily(Bump(db, g), g, reason)) && KeepsScopes(db, Bump(db, g))
  {}

  lemma GuardedGrants(db: Db, a: Step)
    requires a.LoadRefresh? || a.RevokeOne? || a.RevokeGrant? || a.PresentCode? || a.DeleteUser?
    ensures KeepsScopes(db, Apply(db, a))
  {
    match a
    case LoadRefresh(g, t, c) =>
      if g in db.grants && Classify(Bump(db, g), g, t, c).Kill? {
        FamilyGrants(db, g, Classify(Bump(db, g), g, t, c).reason);
      }
    case RevokeOne(g, t, c) => if g in db.grants { FamilyGrants(db, g, ClientRevoked); }
    case RevokeGrant(g, reason) => if g in db.grants { FamilyGrants(db, g, reason); }
    case _ =>
  }

  lemma RefreshGrants(db: Db, g: Id, t: Id, c: Id, scopes: seq<Scope>, ids: NewPair)
    ensures forall h :: h in RefreshTx(db, g, t, c, scopes, ids).0.grants ==>
              h in db.grants && RefreshTx(db, g, t, c, scopes, ids).0.grants[h].scopes == db.grants[h].scopes
  {}

  /** No rotation changes the scopes of a grant. */
  lemma {:induction false} GrantScopesFixed(s: Sys, run: seq<Step>, g: Id)
    requires Inv(s) && EnabledRun(s, run) && g in s.hist.used && g in Run(s, run).db.grants
    ensures g in s.db.grants && Run(s, run).db.grants[g].scopes == s.db.grants[g].scopes
    decreases |run|
  {
    if run != [] {
      NextInv(s, run[0]);
      GrantScopesFixed(Next(s, run[0]), run[1..], g);
      GrantScopesStep(s, run[0], g);
    }
  }

  /** Tokens from before grants existed are never accepted, in any state. */
  lemma LegacyTokensRefused(db: Db, t: Id)
    requires t in db.tokens && db.tokens[t].grantId.None?
    ensures PrincipalFor(db, t).None?
    ensures forall g, c :: !RefreshAccepted(db, g, t, c)
  {}
}
