/** Restrictive reconciliation of a restored database with a newer snapshot (app/control/restore_reconcile.py).

    The thirteen tables are one map: a key names the table and the primary key, a row holds the columns that the plan
    compares or writes. Columns that only feed the report of differences are one opaque value per row. */
module Reconcile {
  import opened Common

  type Id = nat
  datatype Role = Owner | Admin | Member | Unknown
  datatype JobStatus = Queued | Running | Succeeded | Failed | Cancelled

  datatype Key =
    | OrgKey(id: Id) | UserKey(id: Id) | MemberKey(org: Id, user: Id) | InvitationKey(id: Id) | ApiKeyKey(id: Id)
    | ClientKey(id: Id) | GrantKey(id: Id) | TokenKey(id: Id) | WebhookKey(id: Id) | ScheduleKey(org: Id)
    | UploadKey(id: Id) | RunKey(id: Id) | JobKey(id: Id)

  datatype Row =
    | OrgRow(details: string)
    | UserRow(email: string, details: string)
    | MemberRow(role: Role)
    | InvitationRow(orgId: Id, acceptedAt: Option<int>, expiresAt: int)
    | ApiKeyRow(orgId: Id, revokedAt: Option<int>)
    | ClientRow(revokedAt: Option<int>)
    | GrantRow(client: Id, orgId: Id, revokedAt: Option<int>, reconciled: bool)
    | TokenRow(client: Id, orgId: Id, grant: Option<Id>, revokedAt: Option<int>)
    | WebhookRow(orgId: Id, url: string, events: seq<string>, active: bool)
    | ScheduleRow(reminder: bool, notify: bool, autoRun: bool, notifyUrl: Option<string>, next: Option<int>,
        details: string)
    | UploadRow(orgId: Id)
    | RunRow(orgId: Id, purgedAt: Option<int>)
    | JobRow(orgId: Id, status: JobStatus, finishedAt: Option<int>, reconciled: bool)

  predicate Finished(status: JobStatus) { status.Succeeded? || status.Failed? || status.Cancelled? }

  type Table = map<Key, Row>

  predicate Fits(k: Key, row: Row) {
    match k
    case OrgKey(_) => row.OrgRow?
    case UserKey(_) => row.UserRow?
    case MemberKey(_, _) => row.MemberRow?
    case InvitationKey(_) => row.InvitationRow?
    case ApiKeyKey(_) => row.ApiKeyRow?
    case ClientKey(_) => row.ClientRow?
    case GrantKey(_) => row.GrantRow?
    case TokenKey(_) => row.TokenRow?
    case WebhookKey(_) => row.WebhookRow?
    case ScheduleKey(_) => row.ScheduleRow?
    case UploadKey(_) => row.UploadRow?
    case RunKey(_) => row.RunRow?
    case JobKey(_) => row.JobRow?
  }

  /** The organization a row belongs to; users and clients belong to none. */
  function OrgOf(k: Key, row: Row): Option<Id>
    requires Fits(k, row)
  {
    match k
    case OrgKey(id) => Some(id)
    case UserKey(_) => None
    case ClientKey(_) => None
    case MemberKey(org, _) => Some(org)
    case ScheduleKey(org) => Some(org)
    case _ => Some(row.orgId)
  }

  /** The rows whose deletion takes this one along (ON DELETE CASCADE in app/control/models.py). */
  function Parents(k: Key, row: Row): set<Key>
    requires Fits(k, row)
  {
    match k
    case OrgKey(_) => {}
    case UserKey(_) => {}
    case ClientKey(_) => {}
    case MemberKey(org, user) => {OrgKey(org), UserKey(user)}
    case ScheduleKey(org) => {OrgKey(org)}
    case GrantKey(_) => {OrgKey(row.orgId), ClientKey(row.client)}
    case TokenKey(_) =>
      {OrgKey(row.orgId), ClientKey(row.client)} + (if row.grant.Some? then {GrantKey(row.grant.value)} else {})
    case _ => {OrgKey(row.orgId)}
  }

  function Depth(k: Key): nat {
    if k.OrgKey? || k.UserKey? || k.ClientKey? then 0 else if k.TokenKey? then 2 else 1
  }

  predicate WellTyped(db: Table) { forall k :: k in db ==> Fits(k, db[k]) }

  ghost predicate ForeignKeys(db: Table)
    requires WellTyped(db)
  {
    forall k :: k in db ==> Parents(k, db[k]) <= db.Keys
  }

  /** `users.email` and webhook `(org_id, url)` are unique. */
  ghost predicate UniqueKeys(db: Table) {
    && (forall j, k :: j in db && k in db && j != k && db[j].UserRow? && db[k].UserRow? ==> db[j].email != db[k].email)
    && (forall j, k :: j in db && k in db && j != k && db[j].WebhookRow? && db[k].WebhookRow? ==>
          db[j].orgId != db[k].orgId || db[j].url != db[k].url)
  }

  function Rank(role: Role): int {
    match role
    case Member => 0
    case Admin => 1
    case Owner => 2
    case Unknown => -1
  }

  // ------------------------------------------------------------------ the decision about one row

  /** The columns an UPDATE sets. */
  datatype Patch =
    | SetEmail(email: string)
    | SetRole(role: Role)
    | Revoke(at: int)
    | SetHook(url: Option<string>, events: Option<seq<string>>, off: bool)
    | SetSchedule(reminderOff: bool, notifyOff: bool, autoOff: bool, target: Option<Option<string>>)
    | PurgeReport(at: int)
    | CancelJob(at: int)

  datatype Verdict = Keep | Delete | Update(patch: Patch)

  predicate PatchFits(row: Row, p: Patch) {
    match p
    case SetEmail(_) => row.UserRow?
    case SetRole(_) => row.MemberRow?
    case Revoke(_) => row.ApiKeyRow? || row.ClientRow? || row.GrantRow? || row.TokenRow?
    case SetHook(_, _, _) => row.WebhookRow?
    case SetSchedule(_, _, _, _) => row.ScheduleRow?
    case PurgeReport(_) => row.RunRow?
    case CancelJob(_) => row.JobRow?
  }

  function Patched(row: Row, p: Patch): Row
    requires PatchFits(row, p)
  {
    match p
    case SetEmail(email) => row.(email := email)
    case SetRole(role) => row.(role := role)
    case Revoke(at) =>
      (match row
       case ApiKeyRow(org, _) => ApiKeyRow(org, Some(at))
       case ClientRow(_) => ClientRow(Some(at))
       case GrantRow(client, org, _, _) => GrantRow(client, org, Some(at), true)
       case TokenRow(client, org, grant, _) => TokenRow(client, org, grant, Some(at)))
    case SetHook(url, events, off) =>
      row.(url := if url.Some? then url.value else row.url,
           events := if events.Some? then events.value else row.events,
           active := row.active && !off)
    case SetSchedule(r, n, a, url) =>
      row.(reminder := row.reminder && !r, notify := row.notify && !n, autoRun := row.autoRun && !a,
           next := if r then None else row.next,
           notifyUrl := if url.Some? then url.value else row.notifyUrl)
    case PurgeReport(at) => row.(purgedAt := Some(at))
    case CancelJob(at) => row.(status := Cancelled, finishedAt := Some(at), reconciled := true)
  }

  /** Absent from the snapshot, or revoked there. */
  predicate GoneOrRevoked(pre: Table, k: Key)
    requires k in pre ==> pre[k].ApiKeyRow? || pre[k].ClientRow? || pre[k].GrantRow? || pre[k].TokenRow?
  {
    k !in pre || pre[k].revokedAt.Some?
  }

  predicate DeletedUser(cur: Table, pre: Table, user: Id) { UserKey(user) in cur && UserKey(user) !in pre }
  predicate DeletedOrg(cur: Table, pre: Table, org: Id) { OrgKey(org) in cur && OrgKey(org) !in pre }

  /** Must a credential of this kind be revoked, going by the snapshot? */
  predicate RevokedBefore(pre: Table, k: Key, row: Row)
    requires WellTyped(pre) && Fits(k, row) && (k.ApiKeyKey? || k.ClientKey? || k.GrantKey? || k.TokenKey?)
  {
    || GoneOrRevoked(pre, k)
    || ((k.GrantKey? || k.TokenKey?) && GoneOrRevoked(pre, ClientKey(row.client)))
    || (k.TokenKey? && row.grant.Some? && GoneOrRevoked(pre, GrantKey(row.grant.value)))
  }

  /** What the main loop of the plan decides about a row it visits. */
  function Visit(cur: Table, pre: Table, now: int, k: Key): Verdict
    requires WellTyped(cur) && WellTyped(pre) && k in cur
  {
    var row := cur[k];
    match k
    case OrgKey(_) => if k !in pre then Delete else Keep
    case UserKey(_) =>
      if k !in pre then Delete else if row.email != pre[k].email then Update(SetEmail(pre[k].email)) else Keep
    case MemberKey(_, user) =>
      if DeletedUser(cur, pre, user) || k !in pre then Delete
      else if Rank(pre[k].role) < Rank(row.role) then Update(SetRole(pre[k].role)) else Keep
    case InvitationKey(_) =>
      if k !in pre || pre[k].acceptedAt.Some? || pre[k].expiresAt <= now then Delete else Keep
    case WebhookKey(_) =>
      if k !in pre then Delete
      else
        var p := SetHook(if row.url != pre[k].url then Some(pre[k].url) else None,
                         if row.events != pre[k].events then Some(pre[k].events) else None,
                         row.active && !pre[k].active);
        if p == SetHook(None, None, false) then Keep else Update(p)
    case ScheduleKey(_) =>
      if k !in pre then Delete
      else
        var p := SetSchedule(row.reminder && !pre[k].reminder, row.notify && !pre[k].notify,
                             row.autoRun && !pre[k].autoRun,
                             if row.notifyUrl != pre[k].notifyUrl then Some(pre[k].notifyUrl) else None);
        if p == SetSchedule(false, false, false, None) then Keep else Update(p)
    case UploadKey(_) => if k !in pre then Delete else Keep
    case RunKey(_) =>
      if k !in pre then Delete
      else if row.purgedAt.None? && pre[k].purgedAt.Some? then Update(PurgeReport(now)) else Keep
    case JobKey(_) =>
      if row.status == Queued && (k !in pre || Finished(pre[k].status))
      then Update(CancelJob(now)) else Keep
    case _ => if RevokedBefore(pre, k, row) && row.revokedAt.None? then Update(Revoke(now)) else Keep
  }

  // ------------------------------------------------------------------ owners

  predicate OwnerIn(db: Table, org: Id, user: Id) {
    MemberKey(org, user) in db && db[MemberKey(org, user)] == MemberRow(Owner)
  }

  predicate RetainedOwner(cur: Table, pre: Table, org: Id, user: Id) {
    OwnerIn(cur, org, user) && !DeletedUser(cur, pre, user) && OwnerIn(pre, org, user)
  }

  /** A member that may be made owner: retained, and owner in the snapshot. */
  predicate Candidate(cur: Table, pre: Table, org: Id, user: Id) {
    MemberKey(org, user) in cur && UserKey(user) in cur && !DeletedUser(cur, pre, user) && OwnerIn(pre, org, user)
  }

  /** The organization stays, but would be left without an owner. */
  ghost predicate Conflict(cur: Table, pre: Table, org: Id) {
    OrgKey(org) in cur && OrgKey(org) in pre && forall user :: !RetainedOwner(cur, pre, org, user)
  }

  type Resolutions = map<Id, Id>

  ghost predicate ResolutionsOk(cur: Table, pre: Table, res: Resolutions) {
    forall org :: org in res ==> Conflict(cur, pre, org) && Candidate(cur, pre, org, res[org])
  }

  ghost predicate Blocked(cur: Table, pre: Table, res: Resolutions, org: Id) { Conflict(cur, pre, org) && org !in res }

  /** Rows of organizations that are blocked, or deleted as a whole, are not looked at. */
  ghost predicate Skipped(cur: Table, pre: Table, res: Resolutions, k: Key)
    requires WellTyped(cur) && k in cur
  {
    var org := OrgOf(k, cur[k]);
    org.Some? && (Blocked(cur, pre, res, org.value) || (DeletedOrg(cur, pre, org.value) && !k.OrgKey?))
  }

  predicate Resolved(res: Resolutions, k: Key) { k.MemberKey? && k.org in res && res[k.org] == k.user }

  /** The action of the plan for a row, if any. */
  ghost function Decide(cur: Table, pre: Table, now: int, res: Resolutions, k: Key): Verdict
    requires WellTyped(cur) && WellTyped(pre) && k in cur
  {
    if Resolved(res, k) then Update(SetRole(Owner))
    else if Skipped(cur, pre, res, k) then Keep
    else Visit(cur, pre, now, k)
  }

  /** The two databases share no organization: not the same history. */
  ghost predicate Foreign(cur: Table, pre: Table) {
    && (exists org :: OrgKey(org) in cur)
    && (forall org :: OrgKey(org) in cur ==> OrgKey(org) !in pre)
  }

  ghost predicate BadRole(cur: Table, pre: Table, res: Resolutions)
    requires WellTyped(cur)
  {
    exists k :: k in cur && k.MemberKey? && !Skipped(cur, pre, res, k) && cur[k].role == Unknown
  }

  ghost predicate PlanFails(cur: Table, pre: Table, res: Resolutions)
    requires WellTyped(cur)
  {
    Foreign(cur, pre) || !ResolutionsOk(cur, pre, res) || BadRole(cur, pre, res)
  }

  // ------------------------------------------------------------------ the reconciled database, row by row

  /** The row, or one it hangs on, is deleted. */
  ghost predicate Doomed(cur: Table, pre: Table, now: int, res: Resolutions, k: Key)
    requires WellTyped(cur) && WellTyped(pre) && k in cur
    decreases Depth(k)
  {
    || Decide(cur, pre, now, res, k) == Delete
    || (exists p :: p in Parents(k, cur[k]) && p in cur && Depth(p) < Depth(k) && Doomed(cur, pre, now, res, p))
  }

  ghost function NewRow(cur: Table, pre: Table, now: int, res: Resolutions, k: Key): Row
    requires WellTyped(cur) && WellTyped(pre) && k in cur
  {
    match Decide(cur, pre, now, res, k)
    case Update(p) => if PatchFits(cur[k], p) then Patched(cur[k], p) else cur[k]
    case _ => cur[k]
  }

  /** What a successful reconciliation leaves behind. */
  ghost function Reconciled(cur: Table, pre: Table, now: int, res: Resolutions): Table
    requires WellTyped(cur) && WellTyped(pre)
  {
    map k | k in cur && !Doomed(cur, pre, now, res, k) :: NewRow(cur, pre, now, res, k)
  }
}
