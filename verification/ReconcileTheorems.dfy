/** The reconciled database is a meet of the restored one and the snapshot, owners included, and reconciling it again
    changes nothing. */
module ReconcileTheorems {
  import opened Common
  import opened Reconcile

  /** What the readers of the two databases have checked, and a plan that goes through without a blocked
      organization. */
  ghost predicate Plannable(cur: Table, pre: Table, res: Resolutions) {
    && WellTyped(cur) && WellTyped(pre) && ForeignKeys(cur)
    && (forall k :: k in pre && k.MemberKey? ==> pre[k].role != Unknown)
    && !PlanFails(cur, pre, res)
    && (forall org :: !Blocked(cur, pre, res, org))
  }

  // ------------------------------------------------------------------ which rows survive

  /** Rows that must still exist in the snapshot; credentials and jobs stay as rows in any case. */
  predicate Present(pre: Table, now: int, k: Key)
    requires WellTyped(pre)
  {
    if k.ApiKeyKey? || k.ClientKey? || k.GrantKey? || k.TokenKey? || k.JobKey? then true
    else k in pre && (k.InvitationKey? ==> pre[k].acceptedAt.None? && pre[k].expiresAt > now)
  }

  lemma ParentsBelow(k: Key, row: Row, p: Key)
    requires Fits(k, row) && p in Parents(k, row)
    ensures Depth(p) < Depth(k)
  {}

  lemma DecideFits(cur: Table, pre: Table, now: int, res: Resolutions, k: Key)
    requires WellTyped(cur) && WellTyped(pre) && k in cur
    ensures Decide(cur, pre, now, res, k).Update? ==> PatchFits(cur[k], Decide(cur, pre, now, res, k).patch)
    ensures Fits(k, NewRow(cur, pre, now, res, k))
    ensures Parents(k, NewRow(cur, pre, now, res, k)) == Parents(k, cur[k])
    ensures OrgOf(k, NewRow(cur, pre, now, res, k)) == OrgOf(k, cur[k])
  {
    assert Fits(k, cur[k]);
    if k in pre { assert Fits(k, pre[k]); }
  }

  /** In an unblocked plan, only rows of deleted organizations are skipped. */
  lemma SkippedMeansDeletedOrg(cur: Table, pre: Table, res: Resolutions, k: Key)
    requires Plannable(cur, pre, res) && k in cur && Skipped(cur, pre, res, k)
    ensures var org := OrgKey(OrgOf(k, cur[k]).value); org in Parents(k, cur[k]) && org in cur && org !in pre
  {}

  lemma OrgSurvives(cur: Table, pre: Table, now: int, res: Resolutions, org: Id)
    requires Plannable(cur, pre, res)
    ensures OrgKey(org) in Reconciled(cur, pre, now, res) <==> OrgKey(org) in cur && OrgKey(org) in pre
  {}

  predicate HasOrganization(db: Table) { exists k :: k in db && k.OrgKey? }

  /** A database that had an organization is never emptied: a snapshot of another history is refused, and so at least
      one organization is in both. */
  lemma OrganizationsRemain(cur: Table, pre: Table, now: int, res: Resolutions)
    requires Plannable(cur, pre, res) && HasOrganization(cur)
    ensures HasOrganization(Reconciled(cur, pre, now, res))
  {
    var k :| k in cur && k.OrgKey?;
    assert k == OrgKey(k.id);
    var org :| OrgKey(org) in cur && OrgKey(org) in pre;
    OrgSurvives(cur, pre, now, res, org);
    assert OrgKey(org).OrgKey?;
  }

  lemma DeadParent(cur: Table, pre: Table, now: int, res: Resolutions, k: Key)
    requires Plannable(cur, pre, res) && k in cur
    ensures k in Reconciled(cur, pre, now, res) <==>
            Decide(cur, pre, now, res, k) != Delete && Parents(k, cur[k]) <= Reconciled(cur, pre, now, res).Keys
  {
    assert Parents(k, cur[k]) <= cur.Keys;
    forall p | p in Parents(k, cur[k]) ensures Depth(p) < Depth(k) && p in cur { ParentsBelow(k, cur[k], p); }
    if Doomed(cur, pre, now, res, k) && Decide(cur, pre, now, res, k) != Delete {
      var p :| p in Parents(k, cur[k]) && p in cur && Depth(p) < Depth(k) && Doomed(cur, pre, now, res, p);
      assert p !in Reconciled(cur, pre, now, res);
    }
  }

  /** A row survives exactly when the snapshot still has it (and, for an invitation, has it pending) and everything
      it belongs to survives. */
  lemma MeetSurvival(cur: Table, pre: Table, now: int, res: Resolutions, k: Key)
    requires Plannable(cur, pre, res)
    ensures k in Reconciled(cur, pre, now, res) <==>
            k in cur && Present(pre, now, k) && Parents(k, cur[k]) <= Reconciled(cur, pre, now, res).Keys
  {
    if k in cur {
      DeadParent(cur, pre, now, res, k);
      if Resolved(res, k) {
        assert Candidate(cur, pre, k.org, k.user);
      } else if Skipped(cur, pre, res, k) {
        SkippedMeansDeletedOrg(cur, pre, res, k);
        var org := OrgOf(k, cur[k]).value;
        OrgSurvives(cur, pre, now, res, org);
        assert OrgKey(org) !in Reconciled(cur, pre, now, res);
      } else if k.MemberKey? {
        UserSurvives(cur, pre, now, res, k.user);
      }
    }
  }

  lemma UserSurvives(cur: Table, pre: Table, now: int, res: Resolutions, user: Id)
    requires Plannable(cur, pre, res)
    ensures UserKey(user) in Reconciled(cur, pre, now, res) <==> UserKey(user) in cur && UserKey(user) in pre
  {
    if UserKey(user) in cur { DeadParent(cur, pre, now, res, UserKey(user)); }
  }

  // ------------------------------------------------------------------ what is in them

  function Lower(a: Role, b: Role): Role { if Rank(a) <= Rank(b) then a else b }

  /** The surviving row as the meet of the two: the lower role, a switch on only if on in both, revoked if it or what
      it hangs on was revoked or gone, and the addresses of the snapshot. */
  ghost predicate MeetRow(cur: Table, pre: Table, now: int, res: Resolutions, k: Key, row: Row)
    requires WellTyped(cur) && WellTyped(pre) && k in cur && Fits(k, row) && Present(pre, now, k)
  {
    match k
    case UserKey(_) => row == cur[k].(email := pre[k].email)
    case MemberKey(_, _) => row.role == if Resolved(res, k) then Owner else Lower(cur[k].role, pre[k].role)
    case WebhookKey(_) => row == WebhookRow(cur[k].orgId, pre[k].url, pre[k].events, cur[k].active && pre[k].active)
    case ScheduleKey(_) =>
      && row.reminder == (cur[k].reminder && pre[k].reminder)
      && row.notify == (cur[k].notify && pre[k].notify)
      && row.autoRun == (cur[k].autoRun && pre[k].autoRun)
      && row.notifyUrl == pre[k].notifyUrl
      && row.next == (if cur[k].reminder && !pre[k].reminder then None else cur[k].next)
    case RunKey(_) => row.purgedAt.None? <==> cur[k].purgedAt.None? && pre[k].purgedAt.None?
    case JobKey(_) =>
      if cur[k].status == Queued && !(k in pre && !Finished(pre[k].status))
      then row == JobRow(cur[k].orgId, Cancelled, Some(now), true) else row == cur[k]
    case OrgKey(_) => row == cur[k]
    case UploadKey(_) => row == cur[k]
    case InvitationKey(_) => row == cur[k]
    case _ =>
      && (row.revokedAt.None? <==> cur[k].revokedAt.None? && !RevokedBefore(pre, k, cur[k]))
      && (cur[k].revokedAt.Some? ==> row == cur[k])
  }

  lemma SurvivorIsVisited(cur: Table, pre: Table, now: int, res: Resolutions, k: Key)
    requires Plannable(cur, pre, res) && k in Reconciled(cur, pre, now, res)
    ensures !Skipped(cur, pre, res, k)
  {
    if Skipped(cur, pre, res, k) {
      SkippedMeansDeletedOrg(cur, pre, res, k);
      DeadParent(cur, pre, now, res, k);
      OrgSurvives(cur, pre, now, res, OrgOf(k, cur[k]).value);
    }
  }

  lemma SurvivorMeets(cur: Table, pre: Table, now: int, res: Resolutions, k: Key)
    requires Plannable(cur, pre, res) && k in Reconciled(cur, pre, now, res)
    ensures k in cur && Present(pre, now, k) && Fits(k, Reconciled(cur, pre, now, res)[k])
    ensures MeetRow(cur, pre, now, res, k, Reconciled(cur, pre, now, res)[k])
  {
    MeetSurvival(cur, pre, now, res, k);
    SurvivorIsVisited(cur, pre, now, res, k);
    DecideFits(cur, pre, now, res, k);
    assert Fits(k, cur[k]);
    if k in pre { assert Fits(k, pre[k]); }
  }

  /** Reconciliation only restricts. */
  lemma OnlyRestricts(cur: Table, pre: Table, now: int, res: Resolutions, k: Key)
    requires Plannable(cur, pre, res) && k in Reconciled(cur, pre, now, res)
    ensures k in cur && Fits(k, Reconciled(cur, pre, now, res)[k])
    ensures !(k.ApiKeyKey? || k.ClientKey? || k.GrantKey? || k.TokenKey? || k.JobKey?) ==> k in pre
    ensures k.MemberKey? ==>
              var role := Reconciled(cur, pre, now, res)[k].role;
              && Rank(role) <= Rank(pre[k].role)
              && (Rank(role) <= Rank(cur[k].role) || (Resolved(res, k) && pre[k].role == Owner))
              && UserKey(k.user) in pre && OrgKey(k.org) in pre
    ensures k.WebhookKey? && Reconciled(cur, pre, now, res)[k].active ==> cur[k].active && pre[k].active
    ensures k.ScheduleKey? ==>
              var row := Reconciled(cur, pre, now, res)[k];
              && (row.reminder ==> cur[k].reminder && pre[k].reminder)
              && (row.notify ==> cur[k].notify && pre[k].notify)
              && (row.autoRun ==> cur[k].autoRun && pre[k].autoRun)
    ensures (k.ApiKeyKey? || k.ClientKey? || k.GrantKey? || k.TokenKey?)
            && Reconciled(cur, pre, now, res)[k].revokedAt.None? ==>
              && cur[k].revokedAt.None? && k in pre && pre[k].revokedAt.None?
              && (k.GrantKey? || k.TokenKey? ==>
                  ClientKey(cur[k].client) in pre && pre[ClientKey(cur[k].client)].revokedAt.None?)
              && (k.TokenKey? && cur[k].grant.Some? ==>
                    GrantKey(cur[k].grant.value) in pre && pre[GrantKey(cur[k].grant.value)].revokedAt.None?)
    ensures k.JobKey? && Reconciled(cur, pre, now, res)[k].status == Queued ==>
              cur[k].status == Queued && k in pre && !Finished(pre[k].status)
  {
    SurvivorMeets(cur, pre, now, res, k);
    if k.MemberKey? {
      MeetSurvival(cur, pre, now, res, k);
      UserSurvives(cur, pre, now, res, k.user);
      OrgSurvives(cur, pre, now, res, k.org);
      if Resolved(res, k) { assert Candidate(cur, pre, k.org, k.user); }
    }
  }

  /** A member is raised only to owner, only one who was owner in the snapshot, and only where no owner would be
      left. */
  lemma RaisedOnlyInConflict(cur: Table, pre: Table, now: int, res: Resolutions, k: Key)
    requires Plannable(cur, pre, res) && k in Reconciled(cur, pre, now, res) && k.MemberKey?
    ensures Rank(Reconciled(cur, pre, now, res)[k].role) > Rank(cur[k].role) ==>
      && Reconciled(cur, pre, now, res)[k].role == Owner && OwnerIn(pre, k.org, k.user)
      && forall user :: !RetainedOwner(cur, pre, k.org, user)
    ensures Reconciled(cur, pre, now, res)[k].role != Unknown
  {
    OnlyRestricts(cur, pre, now, res, k);
    SurvivorMeets(cur, pre, now, res, k);
    MeetSurvival(cur, pre, now, res, k);
    SurvivorIsVisited(cur, pre, now, res, k);
    if Resolved(res, k) {
      assert Conflict(cur, pre, k.org) && Candidate(cur, pre, k.org, k.user);
    }
  }

  // ------------------------------------------------------------------ owners

  /** Every surviving organization has an owner who exists and was owner in the snapshot too. */
  lemma OwnersRemain(cur: Table, pre: Table, now: int, res: Resolutions, org: Id)
    requires Plannable(cur, pre, res) && OrgKey(org) in Reconciled(cur, pre, now, res)
    ensures exists user :: OwnerIn(Reconciled(cur, pre, now, res), org, user) && OwnerIn(pre, org, user)
                           && UserKey(user) in Reconciled(cur, pre, now, res)
  {
    OrgSurvives(cur, pre, now, res, org);
    var user: Id;
    if org in res {
      user := res[org];
      assert Candidate(cur, pre, org, user);
    } else {
      assert !Conflict(cur, pre, org);
      user :| RetainedOwner(cur, pre, org, user);
    }
    var k := MemberKey(org, user);
    assert Parents(k, cur[k]) <= cur.Keys;
    UserSurvives(cur, pre, now, res, user);
    MeetSurvival(cur, pre, now, res, k);
    SurvivorMeets(cur, pre, now, res, k);
    assert OwnerIn(Reconciled(cur, pre, now, res), org, user);
  }

  // ------------------------------------------------------------------ idempotence

  lemma ReconciledIsValid(cur: Table, pre: Table, now: int, res: Resolutions)
    requires Plannable(cur, pre, res)
    ensures WellTyped(Reconciled(cur, pre, now, res))
    ensures ForeignKeys(Reconciled(cur, pre, now, res))
  {
    var r := Reconciled(cur, pre, now, res);
    forall k | k in r ensures Fits(k, r[k]) && Parents(k, r[k]) <= r.Keys {
      DecideFits(cur, pre, now, res, k);
      MeetSurvival(cur, pre, now, res, k);
    }
  }

  lemma NoConflictLeft(cur: Table, pre: Table, now: int, res: Resolutions, org: Id)
    requires Plannable(cur, pre, res)
    ensures !Conflict(Reconciled(cur, pre, now, res), pre, org)
  {
    var r := Reconciled(cur, pre, now, res);
    if OrgKey(org) in r {
      OwnersRemain(cur, pre, now, res, org);
      var user :| OwnerIn(r, org, user) && OwnerIn(pre, org, user) && UserKey(user) in r;
      UserSurvives(cur, pre, now, res, user);
      assert RetainedOwner(r, pre, org, user);
    }
  }

  /** Planning again, with the same snapshot and clock, finds nothing to do for any row. */
  lemma NothingLeftToDo(cur: Table, pre: Table, now: int, res: Resolutions, k: Key)
    requires Plannable(cur, pre, res) && k in Reconciled(cur, pre, now, res)
    requires WellTyped(Reconciled(cur, pre, now, res))
    ensures Decide(Reconciled(cur, pre, now, res), pre, now, map[], k) == Keep
  {
    var r := Reconciled(cur, pre, now, res);
    SurvivorMeets(cur, pre, now, res, k);
    MeetSurvival(cur, pre, now, res, k);
    DecideFits(cur, pre, now, res, k);
    if k.MemberKey? {
      UserSurvives(cur, pre, now, res, k.user);
      if Resolved(res, k) { assert Candidate(cur, pre, k.org, k.user); }
    }
    assert Fits(k, r[k]) && Fits(k, cur[k]);
    if k in pre { assert Fits(k, pre[k]); }
  }

  lemma NoBadRoleLeft(cur: Table, pre: Table, now: int, res: Resolutions)
    requires Plannable(cur, pre, res) && WellTyped(Reconciled(cur, pre, now, res))
    ensures !BadRole(Reconciled(cur, pre, now, res), pre, map[])
  {
    var r := Reconciled(cur, pre, now, res);
    forall k | k in r && k.MemberKey? ensures r[k].role != Unknown {
      SurvivorMeets(cur, pre, now, res, k);
      SurvivorIsVisited(cur, pre, now, res, k);
      assert cur[k].role != Unknown;
    }
  }

  /** Reconciling twice is reconciling once: the second plan is accepted, blocks nothing, has no action, and leaves the
      database as it is. */
  lemma Idempotent(cur: Table, pre: Table, now: int, res: Resolutions)
    requires Plannable(cur, pre, res)
    ensures Plannable(Reconciled(cur, pre, now, res), pre, map[])
    ensures forall k :: k in Reconciled(cur, pre, now, res) ==>
        Decide(Reconciled(cur, pre, now, res), pre, now, map[], k) == Keep
    ensures Reconciled(Reconciled(cur, pre, now, res), pre, now, map[]) == Reconciled(cur, pre, now, res)
  {
    var r := Reconciled(cur, pre, now, res);
    ReconciledIsValid(cur, pre, now, res);
    forall org ensures !Conflict(r, pre, org) { NoConflictLeft(cur, pre, now, res, org); }
    forall org | OrgKey(org) in r ensures OrgKey(org) in pre { OrgSurvives(cur, pre, now, res, org); }
    NoBadRoleLeft(cur, pre, now, res);
    forall k | k in r ensures Decide(r, pre, now, map[], k) == Keep { NothingLeftToDo(cur, pre, now, res, k); }
    forall k | k in r ensures !Doomed(r, pre, now, map[], k) { NobodyDoomed(r, pre, now, k); }
    assert Reconciled(r, pre, now, map[]).Keys == r.Keys;
    assert Reconciled(r, pre, now, map[]) == r;
  }

  lemma {:induction false} NobodyDoomed(r: Table, pre: Table, now: int, k: Key)
    requires WellTyped(r) && WellTyped(pre) && k in r
    requires forall j :: j in r ==> Decide(r, pre, now, map[], j) == Keep
    ensures !Doomed(r, pre, now, map[], k)
    decreases Depth(k)
  {
    forall p | p in Parents(k, r[k]) && p in r && Depth(p) < Depth(k) ensures !Doomed(r, pre, now, map[], p) {
      NobodyDoomed(r, pre, now, p);
    }
  }
}
