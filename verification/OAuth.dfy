/** The OAuth tables of the control plane and every transaction that touches them (app/control/oauth.py).

    A row is a value; a table is a map from its primary key. The secret of a token is identified with the id of
    its row: `token_hash` is unique, so presenting a secret means naming a row. Each function below is one committed
    transaction, or the unchanged tables when the transaction rolls back.

    The unlocked lookup that precedes a guarded transaction only produces the arguments of that transaction (a grant
    id, a token id). The transactions therefore take them as free arguments: whatever an earlier lookup may have
    read, and however many other transactions ran in between, is covered. */
module OAuth {
  import opened Common

  type Id = nat

  datatype Scope =
    | OrgRead | OrgManage | OrgDelete | MembersManage | KeysManage | UploadsWrite
    | RunsRead | RunsWrite | ReportsRead | UsageRead | AuditRead | WebhooksManage
  datatype Role = Owner | Admin | Member

  const MEMBER_SCOPES: set<Scope> := {OrgRead, UploadsWrite, RunsRead, RunsWrite, ReportsRead, UsageRead}
  const ADMIN_SCOPES: set<Scope> :=
    MEMBER_SCOPES + {OrgManage, MembersManage, KeysManage, AuditRead, WebhooksManage}
  const OWNER_SCOPES: set<Scope> := ADMIN_SCOPES + {OrgDelete}

  function RoleScopes(role: Role): set<Scope> {
    match role
    case Owner => OWNER_SCOPES
    case Admin => ADMIN_SCOPES
    case Member => MEMBER_SCOPES
  }

  // Seconds.
  const CODE_TTL := 60
  const CODE_RETENTION := 86400
  const TOKEN_RETENTION := 30 * 86400
  const CLIENT_RETENTION := 86400

  /** Token lifetimes, within the bounds that the settings accept (app/core/config.py). */
  datatype Ttl = Ttl(access: int, refresh: int) {
    predicate Valid() { 60 <= access <= 86400 && 3600 <= refresh <= 365 * 86400 }
  }

  datatype Kind = Access | Refresh
  datatype Token = Token(
    kind: Kind, clientId: Id, grantId: Option<Id>, orgId: Id, userId: Option<Id>, scopes: seq<Scope>,
    parentId: Option<Id>, createdAt: int, expiresAt: Option<int>, revokedAt: Option<int>, rotatedAt: Option<int>)

  datatype Reason = CodeReplay | ReuseDetected | ClientRevoked | MembershipEnded | Disconnected
  datatype Grant = Grant(
    clientId: Id, orgId: Id, userId: Option<Id>, scopes: seq<Scope>, createdAt: int,
    revokedAt: Option<int>, reason: Option<Reason>, lockSeq: nat)

  datatype Status = Pending | Approved | Exchanged | Denied
  datatype Code = Code(
    clientId: Id, orgId: Option<Id>, userId: Option<Id>, scopes: seq<Scope>, status: Status, expiresAt: int)
  datatype Client = Client(createdAt: int, revokedAt: Option<int>)

  datatype Db = Db(
    now: int, orgs: set<Id>, users: set<Id>, members: map<(Id, Id), Role>,
    clients: map<Id, Client>, codes: map<Id, Code>, grants: map<Id, Grant>, tokens: map<Id, Token>)

  predicate Expired(t: Token, now: int) { t.expiresAt.Some? && t.expiresAt.value <= now }

  /** Token `t` is stored and belongs to grant `g`. */
  predicate Of(db: Db, t: Id, g: Id) { t in db.tokens && db.tokens[t].grantId == Some(g) }

  // ------------------------------------------------------------------ scopes

  /** Scopes of the request that the role may grant, in the order of the request. */
  function GrantableScopes(requested: seq<Scope>, role: Option<Role>): (r: seq<Scope>)
    ensures forall s :: s in r <==> role.Some? && s in requested && s in RoleScopes(role.value)
  {
    if role.None? || requested == [] then []
    else if requested[0] in RoleScopes(role.value) then [requested[0]] + GrantableScopes(requested[1..], role)
    else GrantableScopes(requested[1..], role)
  }

  /** First occurrences, in order. */
  function Dedupe(values: seq<Scope>): (r: seq<Scope>)
    ensures forall s :: s in r <==> s in values
    ensures forall i, j :: 0 <= i < j < |r| ==> r[i] != r[j]
  {
    if values == [] then []
    else
      var init := Dedupe(values[..|values| - 1]);
      var last := values[|values| - 1];
      if last in init then init else init + [last]
  }

  /** The order of the request is kept, and nothing is dropped or repeated on the way. */
  lemma {:induction false} GrantableInOrder(a: seq<Scope>, b: seq<Scope>, role: Option<Role>)
    ensures GrantableScopes(a + b, role) == GrantableScopes(a, role) + GrantableScopes(b, role)
  {
    if a == [] {
      assert a + b == b;
    } else {
      assert (a + b)[1..] == a[1..] + b;
      GrantableInOrder(a[1..], b, role);
    }
  }

  /** Where a value occurs first. */
  function FirstAt(values: seq<Scope>, x: Scope): (i: nat)
    requires x in values
    ensures i < |values| && values[i] == x
  {
    if values[0] == x then 0 else 1 + FirstAt(values[1..], x)
  }

  lemma {:induction false} FirstAtJoin(values: seq<Scope>, more: seq<Scope>, x: Scope)
    requires x in values || x in more
    ensures x in values ==> FirstAt(values + more, x) == FirstAt(values, x)
    ensures x !in values ==> FirstAt(values + more, x) == |values| + FirstAt(more, x)
  {
    if values == [] {
      assert values + more == more;
    } else {
      assert (values + more)[1..] == values[1..] + more;
      if values[0] != x {
        FirstAtJoin(values[1..], more, x);
      }
    }
  }

  /** First occurrences stay in their order. */
  lemma {:induction false} DedupeInOrder(values: seq<Scope>, i: nat, j: nat)
    requires i < j < |Dedupe(values)|
    ensures Dedupe(values)[i] in values && Dedupe(values)[j] in values
    ensures FirstAt(values, Dedupe(values)[i]) < FirstAt(values, Dedupe(values)[j])
    decreases |values|
  {
    var init, last := values[..|values| - 1], values[|values| - 1];
    assert values == init + [last];
    var r := Dedupe(values);
    FirstAtJoin(init, [last], r[i]);
    FirstAtJoin(init, [last], r[j]);
    if j < |Dedupe(init)| {
      DedupeInOrder(init, i, j);
    } else {
      assert r[i] in init && r[j] == last && last !in init;
    }
  }

  predicate Within(a: seq<Scope>, b: seq<Scope>) { forall s :: s in a ==> s in b }

  // ------------------------------------------------------------------ guarded grant transactions

  /** The conditional UPDATE of `lock_seq` that opens every guarded transaction. */
  function Bump(db: Db, g: Id): Db
    requires g in db.grants
  {
    db.(grants := db.grants[g := db.grants[g].(lockSeq := db.grants[g].lockSeq + 1)])
  }

  function RevokeToken(t: Token, now: int): Token {
    if t.revokedAt.None? then t.(revokedAt := Some(now)) else t
  }

  /** The grant and all its tokens are revoked; rows that already were keep their first time and reason. */
  function RevokeFamily(db: Db, g: Id, reason: Reason): Db
    requires g in db.grants
  {
    var row := db.grants[g];
    db.(grants := if row.revokedAt.None?
                  then db.grants[g := row.(revokedAt := Some(db.now), reason := Some(reason))] else db.grants,
        tokens := map t | t in db.tokens ::
          if db.tokens[t].grantId == Some(g) then RevokeToken(db.tokens[t], db.now) else db.tokens[t])
  }

  datatype Verdict = Usable | Refuse | Kill(reason: Reason)

  /** What the guarded transaction finds when it re-reads refresh token `t` of grant `g` for client `c`. */
  function Classify(db: Db, g: Id, t: Id, c: Id): Verdict {
    if !(Of(db, t, g) && g in db.grants && db.tokens[t].clientId == c && db.tokens[t].kind == Refresh) then Refuse
    else
      var row := db.tokens[t];
      if db.grants[g].revokedAt.Some? then Refuse
      else if row.rotatedAt.Some? then Kill(ReuseDetected)
      else if row.revokedAt.Some? then Kill(ClientRevoked)
      else if Expired(row, db.now) then Refuse
      else if row.userId.None? || (row.orgId, row.userId.value) !in db.members then Kill(MembershipEnded)
      else Usable
  }

  /** `revoke_oauth_grant` and its commit: disconnecting in the cockpit, or the second half of a code replay. */
  function RevokeGrantTx(db: Db, g: Id, reason: Reason): Db {
    if g !in db.grants then db else RevokeFamily(Bump(db, g), g, reason)
  }

  /** The transaction of `load_refresh_token`: classify, and commit a revocation if that is the verdict. */
  function LoadRefreshTx(db: Db, g: Id, t: Id, c: Id): Db {
    if g !in db.grants then db
    else
      var db1 := Bump(db, g);
      match Classify(db1, g, t, c)
      case Kill(reason) => RevokeFamily(db1, g, reason)
      case _ => db1
  }

  datatype Outcome = Issued(refresh: Id, access: Id) | InvalidGrant | InvalidScope | ServerError

  /** Refresh token `t` becomes rotated and revoked, and so do the access tokens issued with it. */
  function Rotate(db: Db, t: Id, c: Id): Db
    requires t in db.tokens
  {
    db.(tokens := map k | k in db.tokens ::
          if k == t then db.tokens[k].(revokedAt := Some(db.now), rotatedAt := Some(db.now))
          else if db.tokens[k].clientId == c && db.tokens[k].parentId == Some(t) && db.tokens[k].kind == Access
          then RevokeToken(db.tokens[k], db.now) else db.tokens[k])
  }

  /** The condition of the UPDATE that rotates: it touches one row exactly when this holds. */
  predicate RotateHits(db: Db, t: Id) {
    t in db.tokens && db.tokens[t].revokedAt.None? && db.tokens[t].rotatedAt.None?
  }

  datatype NewPair = NewPair(refresh: Id, access: Id, ttl: Ttl)

  /** A refresh token with the scopes of the whole grant, child of `parent`, and an access token, its child. */
  function IssuePair(db: Db, g: Id, c: Id, org: Id, user: Option<Id>, grantScopes: seq<Scope>,
                     accessScopes: seq<Scope>, parent: Id, ids: NewPair): Db
  {
    var r := Token(Refresh, c, Some(g), org, user, grantScopes, Some(parent), db.now,
                   Some(db.now + ids.ttl.refresh), None, None);
    var a := Token(Access, c, Some(g), org, user, accessScopes, Some(ids.refresh), db.now,
                   Some(db.now + ids.ttl.access), None, None);
    db.(tokens := db.tokens[ids.refresh := r][ids.access := a])
  }

  /** The transaction of `exchange_refresh_token`. An `InvalidScope` error leaves without a commit. */
  function RefreshTx(db: Db, g: Id, t: Id, c: Id, scopes: seq<Scope>, ids: NewPair): (Db, Outcome) {
    if g !in db.grants then (db, InvalidGrant)
    else
      var db1 := Bump(db, g);
      match Classify(db1, g, t, c)
      case Kill(reason) => (RevokeFamily(db1, g, reason), InvalidGrant)
      case Refuse => (db1, InvalidGrant)
      case Usable =>
        var row := db1.tokens[t];
        var requested := if Dedupe(scopes) == [] then row.scopes else Dedupe(scopes);
        if !Within(requested, row.scopes) then (db, InvalidScope)
        else
          (IssuePair(Rotate(db1, t, c), g, c, row.orgId, row.userId, row.scopes, requested, t, ids),
           Issued(ids.refresh, ids.access))
  }

  /** The transaction of `revoke_token`: a refresh token takes its whole grant, an access token only itself. */
  function RevokeTokenTx(db: Db, g: Id, t: Id, c: Id): Db {
    if g !in db.grants || !(Of(db, t, g) && db.tokens[t].clientId == c) then db
    else if db.tokens[t].kind == Refresh then RevokeFamily(Bump(db, g), g, ClientRevoked)
    else Bump(db, g).(tokens := db.tokens[t := RevokeToken(db.tokens[t], db.now)])
  }

  // ------------------------------------------------------------------ authorization codes

  /** The UPDATE that consumes a code matches. */
  predicate Consumable(db: Db, c: Id) {
    c in db.codes && db.codes[c].status == Approved && db.codes[c].expiresAt > db.now
  }

  /** The transaction of `exchange_authorization_code`. The grant references the user and the organization of the
      consent: if one is gone, the foreign key fails and everything rolls back. */
  function ExchangeCodeTx(db: Db, c: Id, g: Id, ids: NewPair): (Db, Outcome) {
    if !Consumable(db, c) then (db, InvalidGrant)
    else
      var code := db.codes[c];
      if code.orgId.None? || code.userId.None? || code.orgId.value !in db.orgs || code.userId.value !in db.users
      then (db, ServerError)
      else
        var db1 := db.(
          codes := db.codes[c := code.(status := Exchanged)],
          grants := db.grants[g := Grant(code.clientId, code.orgId.value, code.userId, code.scopes, db.now,
                                         None, None, 0)]);
        (IssuePair(db1, g, code.clientId, code.orgId.value, code.userId, code.scopes, code.scopes, c, ids),
         Issued(ids.refresh, ids.access))
  }

  /** The grants that `_revoke_code_family` looks up: those of the tokens whose parent is the code. */
  function CodeFamily(db: Db, c: Id): set<Id> {
    if c !in db.codes then {}
    else set t | t in db.tokens && db.tokens[t].clientId == db.codes[c].clientId &&
                 db.tokens[t].parentId == Some(c) && db.tokens[t].grantId.Some? :: db.tokens[t].grantId.value
  }

  /** The lookup triggers only when the presented code has been exchanged. */
  function ReplayTargets(db: Db, c: Id): set<Id> {
    if c in db.codes && db.codes[c].status == Exchanged then CodeFamily(db, c) else {}
  }

  /** Several families, one after the other. Every one ends revoked, whatever the order. */
  function RevokeAll(db: Db, gs: set<Id>, reason: Reason): Db {
    db.(grants := map g | g in db.grants ::
          if g in gs then
            var row := db.grants[g].(lockSeq := db.grants[g].lockSeq + 1);
            if row.revokedAt.None? then row.(revokedAt := Some(db.now), reason := Some(reason)) else row
          else db.grants[g],
        tokens := map t | t in db.tokens ::
          if db.tokens[t].grantId.Some? && db.tokens[t].grantId.value in gs && db.tokens[t].grantId.value in db.grants
          then RevokeToken(db.tokens[t], db.now) else db.tokens[t])
  }

  /** A code is presented again (at load or at exchange) and nothing comes between lookup and revocation. */
  function PresentCodeTx(db: Db, c: Id): Db { RevokeAll(db, ReplayTargets(db, c), CodeReplay) }

  // ------------------------------------------------------------------ retention

  /** The newest refresh token of the grant is still within the retention window. */
  ghost predicate RecentRefresh(db: Db, g: Id) {
    exists t :: Of(db, t, g) && db.tokens[t].kind == Refresh &&
                (db.tokens[t].expiresAt.None? || db.tokens[t].expiresAt.value > db.now - TOKEN_RETENTION)
  }

  ghost predicate OldGrant(db: Db, g: Id) {
    g in db.grants &&
    ((db.grants[g].revokedAt.Some? && db.grants[g].revokedAt.value <= db.now - TOKEN_RETENTION)
     || !RecentRefresh(db, g))
  }

  ghost predicate PurgedToken(db: Db, t: Id)
    requires t in db.tokens
  {
    var row := db.tokens[t];
    var cutoff := db.now - TOKEN_RETENTION;
    || (row.kind == Access && row.expiresAt.Some? && row.expiresAt.value < cutoff)
    || (row.kind == Refresh && row.grantId.Some? && OldGrant(db, row.grantId.value))
    || (row.grantId.None? &&
        ((row.revokedAt.Some? && row.revokedAt.value <= cutoff)
         || (row.kind == Refresh && row.expiresAt.Some? && row.expiresAt.value <= cutoff)))
  }

  predicate PurgedCode(db: Db, c: Id)
    requires c in db.codes
  {
    db.codes[c].expiresAt < db.now - CODE_RETENTION
  }

  ghost function PurgeCodesAndTokens(db: Db): Db {
    db.(codes := map c | c in db.codes && !PurgedCode(db, c) :: db.codes[c],
        tokens := map t | t in db.tokens && !PurgedToken(db, t) :: db.tokens[t])
  }

  ghost function PurgeGrants(db: Db): Db {
    db.(grants := map g | g in db.grants && (exists t :: Of(db, t, g)) :: db.grants[g])
  }

  ghost predicate ClientInUse(db: Db, k: Id) {
    || (exists c :: c in db.codes && db.codes[c].clientId == k)
    || (exists t :: t in db.tokens && db.tokens[t].clientId == k)
    || (exists g :: g in db.grants && db.grants[g].clientId == k)
  }

  ghost function PurgeClients(db: Db): Db {
    db.(clients :=
      map k | k in db.clients && (db.clients[k].createdAt >= db.now - CLIENT_RETENTION || ClientInUse(db, k)) ::
        db.clients[k])
  }

  /** `purge_expired`: codes and tokens, then grants left without a token, then unused old clients. */
  ghost function PurgeTx(db: Db): Db { PurgeClients(PurgeGrants(PurgeCodesAndTokens(db))) }

  // ------------------------------------------------------------------ decisions

  datatype Principal = Principal(orgId: Id, userId: Id, scopes: set<Scope>)

  /** `principal_for`: who an access token speaks for, if anyone. */
  function PrincipalFor(db: Db, t: Id): (p: Option<Principal>) {
    if t !in db.tokens then None
    else
      var row := db.tokens[t];
      if row.kind != Access || row.revokedAt.Some? then None
      else if row.clientId !in db.clients || db.clients[row.clientId].revokedAt.Some? then None
      else if row.grantId.None? || row.grantId.value !in db.grants then None
      else if db.grants[row.grantId.value].revokedAt.Some? then None
      else if row.userId.None? || row.userId.value !in db.users then None
      else if (row.orgId, row.userId.value) !in db.members then None
      else if Expired(row, db.now) then None
      else
        var role := db.members[(row.orgId, row.userId.value)];
        Some(Principal(row.orgId, row.userId.value, set s | s in GrantableScopes(row.scopes, Some(role))))
  }

  /** A refresh of grant `g` with token `t` by client `c` would be let through now. */
  predicate RefreshAccepted(db: Db, g: Id, t: Id, c: Id) { Classify(db, g, t, c) == Usable }
}
