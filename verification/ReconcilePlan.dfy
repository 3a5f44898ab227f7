/** `_plan`: the loops that find conflicts, check the resolutions and collect the actions. */
module ReconcilePlan {
  import opened Common
  import opened Reconcile

  datatype Action = Action(key: Key, verdict: Verdict)
  datatype PlanResult = Refused | Planned(blocked: set<Id>, actions: seq<Action>)

  /** Every row that has something to be done is there once, with what is to be done. */
  ghost predicate ActionsFor(cur: Table, pre: Table, now: int, res: Resolutions, actions: seq<Action>)
    requires WellTyped(cur) && WellTyped(pre)
  {
    && (forall a :: a in actions ==>
        a.key in cur && a.verdict == Decide(cur, pre, now, res, a.key) && a.verdict != Keep)
    && (forall i, j :: 0 <= i < j < |actions| ==> actions[i].key != actions[j].key)
    && (forall k :: k in cur && Decide(cur, pre, now, res, k) != Keep ==>
        Action(k, Decide(cur, pre, now, res, k)) in actions)
  }

  /** Conflicts and the members that may resolve them. */
  method FindConflicts(cur: Table, pre: Table) returns (blocked: set<Id>, candidates: map<Id, set<Id>>)
    requires WellTyped(cur) && WellTyped(pre)
    ensures forall org :: org in blocked <==> Conflict(cur, pre, org)
    ensures candidates.Keys == blocked
    ensures forall org, user :: org in blocked ==> (user in candidates[org] <==> Candidate(cur, pre, org, user))
  {
    blocked, candidates := {}, map[];
    var kept := set k | k in cur && k.OrgKey? && k in pre :: k.id;
    var todo := kept;
    while todo != {}
      invariant todo <= kept
      invariant forall org :: org in blocked <==> org in kept - todo && Conflict(cur, pre, org)
      invariant candidates.Keys == blocked
      invariant forall org, user :: org in blocked ==> (user in candidates[org] <==> Candidate(cur, pre, org, user))
      decreases todo
    {
      var org :| org in todo;
      var retained := set k | k in cur && k.MemberKey? && k.org == org && RetainedOwner(cur, pre, org, k.user) ::
          k.user;
      assert forall user :: RetainedOwner(cur, pre, org, user) ==> MemberKey(org, user) in cur;
      assert forall user :: user in retained <==> RetainedOwner(cur, pre, org, user);
      if retained == {} {
        var choices := set k | k in cur && k.MemberKey? && k.org == org && Candidate(cur, pre, org, k.user) :: k.user;
        assert forall user :: Candidate(cur, pre, org, user) ==> MemberKey(org, user) in cur;
        assert forall user :: user in choices <==> Candidate(cur, pre, org, user);
        blocked := blocked + {org};
        candidates := candidates[org := choices];
      }
      todo := todo - {org};
    }
    assert forall org :: Conflict(cur, pre, org) ==> OrgKey(org) in cur && OrgKey(org) in pre;
  }

  /** The explicit promotions. */
  method ResolvedActions(res: Resolutions) returns (actions: seq<Action>)
    ensures forall a :: a in actions <==> Resolved(res, a.key) && a.verdict == Update(SetRole(Owner))
    ensures forall i, j :: 0 <= i < j < |actions| ==> actions[i].key != actions[j].key
  {
    actions := [];
    var todo := res.Keys;
    while todo != {}
      invariant todo <= res.Keys
      invariant forall a :: a in actions <==>
                  Resolved(res, a.key) && a.verdict == Update(SetRole(Owner)) && a.key.org !in todo
      invariant forall i, j :: 0 <= i < j < |actions| ==> actions[i].key != actions[j].key
      decreases todo
    {
      var org :| org in todo;
      forall i | 0 <= i < |actions| ensures actions[i].key.MemberKey? && actions[i].key.org != org {
        assert actions[i] in actions;
      }
      actions := actions + [Action(MemberKey(org, res[org]), Update(SetRole(Owner)))];
      todo := todo - {org};
    }
  }

  /** A promotion leaves nothing for the main loop to decide about that row. */
  lemma ResolvedIsKept(cur: Table, pre: Table, now: int, res: Resolutions, k: Key)
    requires WellTyped(cur) && WellTyped(pre) && ResolutionsOk(cur, pre, res) && Resolved(res, k)
    ensures k in cur && Visit(cur, pre, now, k) == Keep && !Skipped(cur, pre, res, k)
  {
    assert Candidate(cur, pre, k.org, k.user) && Conflict(cur, pre, k.org);
  }

  /** The actions collected so far: those of the rows already visited, and the promotions. */
  ghost predicate Collected(cur: Table, pre: Table, now: int, res: Resolutions, todo: set<Key>, actions: seq<Action>)
    requires WellTyped(cur) && WellTyped(pre)
  {
    && (forall a :: a in actions <==>
          && a.key in cur && a.verdict == Decide(cur, pre, now, res, a.key) && a.verdict != Keep
          && (a.key !in todo || Resolved(res, a.key)))
    && (forall i, j :: 0 <= i < j < |actions| ==> actions[i].key != actions[j].key)
  }

  lemma CollectOne(cur: Table, pre: Table, now: int, res: Resolutions, todo: set<Key>, actions: seq<Action>, k: Key)
    requires WellTyped(cur) && WellTyped(pre) && ResolutionsOk(cur, pre, res) && k in todo && k in cur
    requires Collected(cur, pre, now, res, todo, actions)
    ensures (Skipped(cur, pre, res, k) || Visit(cur, pre, now, k) == Keep) ==>
        Collected(cur, pre, now, res, todo - {k}, actions)
    ensures !Skipped(cur, pre, res, k) && Visit(cur, pre, now, k) != Keep ==>
              Collected(cur, pre, now, res, todo - {k}, actions + [Action(k, Visit(cur, pre, now, k))])
  {
    if Resolved(res, k) { ResolvedIsKept(cur, pre, now, res, k); }
    if !Skipped(cur, pre, res, k) && Visit(cur, pre, now, k) != Keep {
      forall i | 0 <= i < |actions| ensures actions[i].key != k { assert actions[i] in actions; }
    }
  }

  /** The main loop over all rows of all tables. */
  method VisitRows(cur: Table, pre: Table, now: int, res: Resolutions, blocked: set<Id>, promoted: seq<Action>)
    returns (ok: bool, actions: seq<Action>)
    requires WellTyped(cur) && WellTyped(pre) && ResolutionsOk(cur, pre, res)
    requires forall org :: org in blocked <==> Blocked(cur, pre, res, org)
    requires Collected(cur, pre, now, res, cur.Keys, promoted)
    ensures ok <==> !BadRole(cur, pre, res)
    ensures ok ==> Collected(cur, pre, now, res, {}, actions)
  {
    actions := promoted;
    var todo := cur.Keys;
    while todo != {}
      invariant todo <= cur.Keys
      invariant forall k :: k in cur && k !in todo && k.MemberKey? && !Skipped(cur, pre, res, k) ==>
          cur[k].role != Unknown
      invariant Collected(cur, pre, now, res, todo, actions)
      decreases todo
    {
      var k :| k in todo;
      var org := OrgOf(k, cur[k]);
      CollectOne(cur, pre, now, res, todo, actions, k);
      if !(org.Some? && (org.value in blocked || (DeletedOrg(cur, pre, org.value) && !k.OrgKey?))) {
        if k.MemberKey? && cur[k].role == Unknown {
          return false, [];
        }
        var v := Visit(cur, pre, now, k);
        if v != Keep { actions := actions + [Action(k, v)]; }
      }
      todo := todo - {k};
    }
    return true, actions;
  }

  lemma PromotionsCollected(cur: Table, pre: Table, now: int, res: Resolutions, promoted: seq<Action>)
    requires WellTyped(cur) && WellTyped(pre) && ResolutionsOk(cur, pre, res)
    requires forall a :: a in promoted <==> Resolved(res, a.key) && a.verdict == Update(SetRole(Owner))
    requires forall i, j :: 0 <= i < j < |promoted| ==> promoted[i].key != promoted[j].key
    ensures Collected(cur, pre, now, res, cur.Keys, promoted)
  {
    forall a | a in promoted ensures a.key in cur { ResolvedIsKept(cur, pre, now, res, a.key); }
  }

  method Plan(cur: Table, pre: Table, now: int, res: Resolutions) returns (r: PlanResult)
    requires WellTyped(cur) && WellTyped(pre)
    ensures r.Refused? <==> PlanFails(cur, pre, res)
    ensures r.Planned? ==> forall org :: org in r.blocked <==> Blocked(cur, pre, res, org)
    ensures r.Planned? ==> ActionsFor(cur, pre, now, res, r.actions)
  {
    var orgs := set k | k in cur && k.OrgKey? :: k.id;
    assert forall org :: org in orgs <==> OrgKey(org) in cur;
    if orgs != {} && !exists org | org in orgs :: OrgKey(org) in pre {
      var org :| org in orgs;
      return Refused;
    }
    var blocked, candidates := FindConflicts(cur, pre);
    if exists org | org in res :: org !in blocked || res[org] !in candidates[org] {
      return Refused;
    }
    blocked := blocked - res.Keys;
    var promoted := ResolvedActions(res);
    PromotionsCollected(cur, pre, now, res, promoted);
    var ok, actions := VisitRows(cur, pre, now, res, blocked, promoted);
    if !ok { return Refused; }
    AllCollected(cur, pre, now, res, actions);
    return Planned(blocked, actions);
  }

  lemma AllCollected(cur: Table, pre: Table, now: int, res: Resolutions, actions: seq<Action>)
    requires WellTyped(cur) && WellTyped(pre) && Collected(cur, pre, now, res, {}, actions)
    ensures ActionsFor(cur, pre, now, res, actions)
  {
    forall k | k in cur && Decide(cur, pre, now, res, k) != Keep
      ensures Action(k, Decide(cur, pre, now, res, k)) in actions
    {
      var a := Action(k, Decide(cur, pre, now, res, k));
      assert a in actions <==> a.key in cur && a.verdict == Decide(cur, pre, now, res, a.key) && a.verdict != Keep;
    }
  }
}
