/** The apply part of `restore_reconcile`: placeholders, deletes with their cascades, then updates, as statements
    against tables whose constraints hold after every one of them. */
module ReconcileApply {
  import opened Common
  import opened Reconcile
  import opened ReconcileTheorems
  import opened ReconcilePlan

  // ------------------------------------------------------------------ cascades

  /** Row `j` is one of `gone`, or hangs on one. */
  ghost predicate Under(db: Table, j: Key, gone: set<Key>)
    requires WellTyped(db) && j in db
    decreases Depth(j)
  {
    j in gone || exists p :: p in Parents(j, db[j]) && p in db && Depth(p) < Depth(j) && Under(db, p, gone)
  }

  /** DELETE of one row, with ON DELETE CASCADE. */
  ghost function Cascade(db: Table, k: Key): Table
    requires WellTyped(db)
  {
    map j | j in db && !Under(db, j, {k}) :: db[j]
  }

  ghost function Minus(db: Table, gone: set<Key>): Table
    requires WellTyped(db)
  {
    map j | j in db && !Under(db, j, gone) :: db[j]
  }

  /** Same keys, and every row in its place in the hierarchy. */
  ghost predicate SameShape(a: Table, b: Table) {
    && WellTyped(a) && WellTyped(b)
    && a.Keys == b.Keys && (forall k :: k in a ==> Parents(k, a[k]) == Parents(k, b[k]))
  }

  lemma {:induction false} SameUnder(a: Table, b: Table, j: Key, gone: set<Key>)
    requires SameShape(a, b) && j in a
    ensures Under(a, j, gone) == Under(b, j, gone)
    decreases Depth(j)
  {
    forall p | p in Parents(j, a[j]) && p in a && Depth(p) < Depth(j) ensures Under(a, p, gone) == Under(b, p, gone) {
      SameUnder(a, b, p, gone);
    }
  }

  lemma {:induction false} UnderMore(db: Table, j: Key, gone: set<Key>, k: Key)
    requires WellTyped(db) && j in db
    ensures Under(db, j, gone + {k}) <==> Under(db, j, gone) || Under(db, j, {k})
    decreases Depth(j)
  {
    forall p | p in Parents(j, db[j]) && p in db && Depth(p) < Depth(j)
      ensures Under(db, p, gone + {k}) <==> Under(db, p, gone) || Under(db, p, {k})
    {
      UnderMore(db, p, gone, k);
    }
  }

  /** What is left after deletes has the cascades of the whole. */
  lemma {:induction false} UnderInRest(db: Table, j: Key, gone: set<Key>, k: Key)
    requires WellTyped(db) && ForeignKeys(db) && j in Minus(db, gone) && WellTyped(Minus(db, gone))
    ensures Under(Minus(db, gone), j, {k}) == Under(db, j, {k})
    decreases Depth(j)
  {
    forall p | p in Parents(j, db[j]) && p in db && Depth(p) < Depth(j)
      ensures p in Minus(db, gone) && Under(Minus(db, gone), p, {k}) == Under(db, p, {k})
    {
      assert !Under(db, p, gone);
      UnderInRest(db, p, gone, k);
    }
  }

  lemma CascadeOneMore(db: Table, gone: set<Key>, k: Key)
    requires WellTyped(db) && ForeignKeys(db)
    ensures WellTyped(Minus(db, gone))
    ensures Cascade(Minus(db, gone), k) == Minus(db, gone + {k})
  {
    var rest := Minus(db, gone);
    forall j | j in db ensures j in Cascade(rest, k) <==> j in Minus(db, gone + {k}) {
      UnderMore(db, j, gone, k);
      if j in rest { UnderInRest(db, j, gone, k); }
    }
  }

  lemma MinusKeepsForeignKeys(db: Table, gone: set<Key>)
    requires WellTyped(db) && ForeignKeys(db)
    ensures WellTyped(Minus(db, gone)) && ForeignKeys(Minus(db, gone))
  {
    forall j, p | j in Minus(db, gone) && p in Parents(j, db[j]) ensures p in Minus(db, gone) {
      assert Parents(j, db[j]) <= db.Keys;
      ParentsBelow(j, db[j], p);
    }
  }

  /** The rows the plan deletes, and everything below them, are the doomed ones. */
  lemma {:induction false} DoomedIsUnder(cur: Table, pre: Table, now: int, res: Resolutions, gone: set<Key>, j: Key)
    requires WellTyped(cur) && WellTyped(pre) && j in cur
    requires forall k :: k in gone <==> k in cur && Decide(cur, pre, now, res, k) == Delete
    ensures Doomed(cur, pre, now, res, j) == Under(cur, j, gone)
    decreases Depth(j)
  {
    forall p | p in Parents(j, cur[j]) && p in cur && Depth(p) < Depth(j)
      ensures Doomed(cur, pre, now, res, p) == Under(cur, p, gone)
    {
      DoomedIsUnder(cur, pre, now, res, gone, p);
    }
  }

  // ------------------------------------------------------------------ the database

  ghost predicate Constraints(db: Table) { WellTyped(db) && ForeignKeys(db) && UniqueKeys(db) }

  lemma CascadeKeeps(db: Table, k: Key)
    requires Constraints(db)
    ensures Constraints(Cascade(db, k))
  {
    MinusKeepsForeignKeys(db, {k});
    assert Cascade(db, k) == Minus(db, {k});
  }

  // ------------------------------------------------------------------ the three phases as tables

  /** A plan that goes through, two databases of one history, and placeholders that are in use nowhere. */
  ghost predicate Ready(cur: Table, pre: Table, now: int, res: Resolutions, ph: Key -> string) {
    && Plannable(cur, pre, res) && UniqueKeys(cur) && UniqueKeys(pre)
    && (forall k :: k in cur && k in pre && k.WebhookKey? ==> cur[k].orgId == pre[k].orgId)
    && (forall j, k :: j != k ==> ph(j) != ph(k))
    && (forall j, k :: j in cur && cur[j].UserRow? ==> cur[j].email != ph(k))
    && (forall j, k :: j in pre && pre[j].UserRow? ==> pre[j].email != ph(k))
    && (forall j, k :: j in cur && cur[j].WebhookRow? ==> cur[j].url != ph(k))
    && (forall j, k :: j in pre && pre[j].WebhookRow? ==> pre[j].url != ph(k))
  }

  /** The row with a placeholder where the plan sets an e-mail or a URL. */
  function HeldRow(v: Verdict, row: Row, placeholder: string): Row {
    if v.Update? && v.patch.SetEmail? && row.UserRow? then row.(email := placeholder)
    else if v.Update? && v.patch.SetHook? && v.patch.url.Some? && row.WebhookRow? then row.(url := placeholder)
    else row
  }

  ghost function Held(cur: Table, pre: Table, now: int, res: Resolutions, ph: Key -> string, done: set<Key>): Table
    requires WellTyped(cur) && WellTyped(pre)
  {
    map k | k in cur :: if k in done then HeldRow(Decide(cur, pre, now, res, k), cur[k], ph(k)) else cur[k]
  }

  ghost function ToDelete(cur: Table, pre: Table, now: int, res: Resolutions): set<Key>
    requires WellTyped(cur) && WellTyped(pre)
  {
    set k | k in cur && Decide(cur, pre, now, res, k) == Delete
  }

  /** After the deletes, rows in `done` are final and the others still hold their placeholder. */
  ghost function Mixed(cur: Table, pre: Table, now: int, res: Resolutions, ph: Key -> string, done: set<Key>): Table
    requires WellTyped(cur) && WellTyped(pre)
  {
    map k | k in Reconciled(cur, pre, now, res) ::
      if k in done then NewRow(cur, pre, now, res, k) else HeldRow(Decide(cur, pre, now, res, k), cur[k], ph(k))
  }

  lemma HeldShape(cur: Table, pre: Table, now: int, res: Resolutions, ph: Key -> string, done: set<Key>)
    requires Ready(cur, pre, now, res, ph)
    ensures SameShape(cur, Held(cur, pre, now, res, ph, done)) && ForeignKeys(Held(cur, pre, now, res, ph, done))
  {
    var h := Held(cur, pre, now, res, ph, done);
    forall k | k in cur ensures Fits(k, h[k]) && Parents(k, h[k]) == Parents(k, cur[k]) { assert Fits(k, cur[k]); }
    forall k | k in h ensures Parents(k, h[k]) <= h.Keys { assert Parents(k, cur[k]) <= cur.Keys; }
  }

  /** Placeholders never collide. */
  lemma HeldUnique(cur: Table, pre: Table, now: int, res: Resolutions, ph: Key -> string, done: set<Key>)
    requires Ready(cur, pre, now, res, ph)
    ensures UniqueKeys(Held(cur, pre, now, res, ph, done))
  {
    var h := Held(cur, pre, now, res, ph, done);
    forall k | k in cur ensures
        && (h[k].UserRow? ==> cur[k].UserRow? && (h[k].email == cur[k].email || h[k].email == ph(k)))
        && (h[k].WebhookRow? ==>
            cur[k].WebhookRow? && h[k].orgId == cur[k].orgId && (h[k].url == cur[k].url || h[k].url == ph(k)))
    {}
  }

  /** The e-mail or URL of the row is the one of the snapshot, or a placeholder. */
  ghost predicate Addressed(cur: Table, pre: Table, ph: Key -> string, k: Key, row: Row)
    requires WellTyped(cur) && WellTyped(pre) && k in cur
  {
    && Fits(k, row) && Parents(k, row) == Parents(k, cur[k])
    && (k.UserKey? ==> k in pre && (row.email == pre[k].email || row.email == ph(k)))
    && (k.WebhookKey? ==> k in pre && row.orgId == pre[k].orgId && (row.url == pre[k].url || row.url == ph(k)))
  }

  lemma HeldAddress(cur: Table, pre: Table, now: int, res: Resolutions, ph: Key -> string, k: Key)
    requires Ready(cur, pre, now, res, ph) && k in Reconciled(cur, pre, now, res)
    ensures Addressed(cur, pre, ph, k, HeldRow(Decide(cur, pre, now, res, k), cur[k], ph(k)))
  {
    SurvivorIsVisited(cur, pre, now, res, k);
    MeetSurvival(cur, pre, now, res, k);
    assert Fits(k, cur[k]);
    if k in pre { assert Fits(k, pre[k]); }
  }

  lemma NewAddress(cur: Table, pre: Table, now: int, res: Resolutions, ph: Key -> string, k: Key)
    requires Ready(cur, pre, now, res, ph) && k in Reconciled(cur, pre, now, res)
    ensures Addressed(cur, pre, ph, k, NewRow(cur, pre, now, res, k))
  {
    SurvivorIsVisited(cur, pre, now, res, k);
    MeetSurvival(cur, pre, now, res, k);
    DecideFits(cur, pre, now, res, k);
    assert Fits(k, cur[k]);
    if k in pre { assert Fits(k, pre[k]); }
  }

  lemma MixedAddresses(cur: Table, pre: Table, now: int, res: Resolutions, ph: Key -> string, done: set<Key>, k: Key)
    requires Ready(cur, pre, now, res, ph) && k in Reconciled(cur, pre, now, res)
    ensures Addressed(cur, pre, ph, k, Mixed(cur, pre, now, res, ph, done)[k])
  {
    if k in done { NewAddress(cur, pre, now, res, ph, k); } else { HeldAddress(cur, pre, now, res, ph, k); }
  }

  lemma MixedConstraints(cur: Table, pre: Table, now: int, res: Resolutions, ph: Key -> string, done: set<Key>)
    requires Ready(cur, pre, now, res, ph)
    ensures Constraints(Mixed(cur, pre, now, res, ph, done))
  {
    var m := Mixed(cur, pre, now, res, ph, done);
    var r := Reconciled(cur, pre, now, res);
    forall k | k in m ensures Fits(k, m[k]) && Parents(k, m[k]) <= m.Keys {
      MixedAddresses(cur, pre, now, res, ph, done, k);
      DeadParent(cur, pre, now, res, k);
    }
    forall j, k | j in m && k in m && j != k && m[j].UserRow? && m[k].UserRow? ensures m[j].email != m[k].email {
      MixedAddresses(cur, pre, now, res, ph, done, j);
      MixedAddresses(cur, pre, now, res, ph, done, k);
      assert Fits(j, pre[j]) && Fits(k, pre[k]);
    }
    forall j, k | j in m && k in m && j != k && m[j].WebhookRow? && m[k].WebhookRow?
      ensures m[j].orgId != m[k].orgId || m[j].url != m[k].url
    {
      MixedAddresses(cur, pre, now, res, ph, done, j);
      MixedAddresses(cur, pre, now, res, ph, done, k);
      assert Fits(j, pre[j]) && Fits(k, pre[k]);
    }
  }

  /** Placeholders, then all the deletes: the surviving rows, still holding placeholders. */
  lemma HeldMinusIsMixed(cur: Table, pre: Table, now: int, res: Resolutions, ph: Key -> string, done: set<Key>)
    requires Ready(cur, pre, now, res, ph)
    requires forall k :: k in cur && Decide(cur, pre, now, res, k) != Keep ==> k in done
    ensures WellTyped(Held(cur, pre, now, res, ph, done))
    ensures Minus(Held(cur, pre, now, res, ph, done), ToDelete(cur, pre, now, res)) == Mixed(cur, pre, now, res, ph, {})
  {
    HeldShape(cur, pre, now, res, ph, done);
    var h := Held(cur, pre, now, res, ph, done);
    var gone := ToDelete(cur, pre, now, res);
    forall k | k in cur ensures Under(h, k, gone) == Doomed(cur, pre, now, res, k) {
      SameUnder(cur, h, k, gone);
      DoomedIsUnder(cur, pre, now, res, gone, k);
    }
    HeldMinusRows(cur, pre, now, res, ph, done, gone);
  }

  lemma HeldMinusRows(cur: Table, pre: Table, now: int, res: Resolutions, ph: Key -> string, done: set<Key>,
        gone: set<Key>)
    requires WellTyped(cur) && WellTyped(pre) && WellTyped(Held(cur, pre, now, res, ph, done))
    requires forall k :: k in cur && Decide(cur, pre, now, res, k) != Keep ==> k in done
    requires forall k :: k in cur ==>
        (Under(Held(cur, pre, now, res, ph, done), k, gone) <==> Doomed(cur, pre, now, res, k))
    ensures Minus(Held(cur, pre, now, res, ph, done), gone) == Mixed(cur, pre, now, res, ph, {})
  {
    var x, y := Minus(Held(cur, pre, now, res, ph, done), gone), Mixed(cur, pre, now, res, ph, {});
    HeldMinusKeys(cur, pre, now, res, ph, done, gone);
    forall k | k in x ensures x[k] == y[k] { HeldStays(cur, pre, now, res, ph, done, k); }
  }

  lemma HeldMinusKeys(cur: Table, pre: Table, now: int, res: Resolutions, ph: Key -> string, done: set<Key>,
                      gone: set<Key>)
    requires WellTyped(cur) && WellTyped(pre) && WellTyped(Held(cur, pre, now, res, ph, done))
    requires forall k :: k in cur ==>
        (Under(Held(cur, pre, now, res, ph, done), k, gone) <==> Doomed(cur, pre, now, res, k))
    ensures Minus(Held(cur, pre, now, res, ph, done), gone).Keys == Mixed(cur, pre, now, res, ph, {}).Keys
  {
    var x, y := Minus(Held(cur, pre, now, res, ph, done), gone), Mixed(cur, pre, now, res, ph, {});
    forall k | k in cur ensures k in x <==> k in y {}
  }

  lemma HeldStays(cur: Table, pre: Table, now: int, res: Resolutions, ph: Key -> string, done: set<Key>, k: Key)
    requires WellTyped(cur) && WellTyped(pre) && k in cur && (Decide(cur, pre, now, res, k) != Keep ==> k in done)
    ensures Held(cur, pre, now, res, ph, done)[k] == HeldRow(Decide(cur, pre, now, res, k), cur[k], ph(k))
  {}

  /** Once every row with an update is done, no placeholder is left. */
  lemma MixedAll(cur: Table, pre: Table, now: int, res: Resolutions, ph: Key -> string, done: set<Key>)
    requires Ready(cur, pre, now, res, ph)
    requires forall k :: k in cur && Decide(cur, pre, now, res, k).Update? ==> k in done
    ensures Mixed(cur, pre, now, res, ph, done) == Reconciled(cur, pre, now, res)
  {}

  // ------------------------------------------------------------------ the database

  class Database {
    var rows: Table

    constructor (rows: Table)
      ensures this.rows == rows
    {
      this.rows := rows;
    }

    /** An UPDATE of columns other than keys. The database accepts it only if the new table meets its constraints. */
    method UpdateRow(k: Key, row: Row)
      requires Constraints(rows) && k in rows && Fits(k, row) && Parents(k, row) == Parents(k, rows[k])
      requires UniqueKeys(rows[k := row])
      modifies this
      ensures rows == old(rows)[k := row] && Constraints(rows)
    {
      rows := rows[k := row];
    }

    /** A DELETE: level by level, the rows whose parents went go as well. */
    method DeleteRow(k: Key)
      requires Constraints(rows)
      modifies this
      ensures rows == Cascade(old(rows), k) && Constraints(rows)
    {
      ghost var before := rows;
      var gone := {k};
      var level := 1;
      RootsAreNotUnder(rows, k);
      while level < 3
        invariant 1 <= level <= 3 && rows == before
        invariant GoneBelow(rows, k, gone, level)
      {
        var next := set j | j in rows && Depth(j) == level && Parents(j, rows[j]) * gone != {};
        OneLevelMore(rows, k, gone, level);
        gone := gone + next;
        level := level + 1;
      }
      rows := map j | j in rows && j !in gone :: rows[j];
      forall j | j in before ensures j in gone <==> Under(before, j, {k}) {}
      assert rows == Cascade(before, k);
      CascadeKeeps(before, k);
    }

    method PlaceOne(a: Action, ghost cur: Table, ghost pre: Table, ghost now: int, ghost res: Resolutions,
                    ph: Key -> string, ghost done: set<Key>)
      requires Ready(cur, pre, now, res, ph) && a.key in cur && a.key !in done
      requires a.verdict == Decide(cur, pre, now, res, a.key)
      requires rows == Held(cur, pre, now, res, ph, done) && Constraints(rows)
      modifies this
      ensures rows == Held(cur, pre, now, res, ph, done + {a.key}) && Constraints(rows)
    {
      HeldStep(cur, pre, now, res, ph, done, a.key);
      HeldNext(cur, pre, now, res, ph, done, a.key);
      if a.verdict.Update? && a.verdict.patch.SetEmail? {
        UpdateRow(a.key, rows[a.key].(email := ph(a.key)));
      } else if a.verdict.Update? && a.verdict.patch.SetHook? && a.verdict.patch.url.Some? {
        UpdateRow(a.key, rows[a.key].(url := ph(a.key)));
      }
    }

    /** Every e-mail and URL the plan sets makes way first. */
    method PlacePlaceholders(actions: seq<Action>, ghost pre: Table, ghost now: int, ghost res: Resolutions,
          ph: Key -> string)
      requires Ready(rows, pre, now, res, ph) && ActionsFor(rows, pre, now, res, actions)
      modifies this
      ensures rows == Held(old(rows), pre, now, res, ph, KeysOf(actions)) && Constraints(rows)
    {
      ghost var cur := rows;
      HeldNothing(cur, pre, now, res, ph);
      var i := 0;
      while i < |actions|
        invariant 0 <= i <= |actions|
        invariant rows == Held(cur, pre, now, res, ph, KeysOf(actions[..i])) && Constraints(rows)
      {
        NextAction(cur, pre, now, res, actions, i);
        PlaceOne(actions[i], cur, pre, now, res, ph, KeysOf(actions[..i]));
        i := i + 1;
      }
      Whole(actions);
    }

    /** The DELETE statements. The actions are sorted so that they all come before the first UPDATE. */
    method RunDeletes(actions: seq<Action>, ghost cur: Table, ghost pre: Table, ghost now: int, ghost res: Resolutions,
                      ghost ph: Key -> string)
      requires Ready(cur, pre, now, res, ph) && ActionsFor(cur, pre, now, res, actions)
      requires rows == Held(cur, pre, now, res, ph, KeysOf(actions)) && Constraints(rows)
      modifies this
      ensures rows == Mixed(cur, pre, now, res, ph, {}) && Constraints(rows)
    {
      ghost var held := rows;
      ghost var gone: set<Key> := {};
      MinusNothing(held);
      var i := 0;
      while i < |actions|
        invariant 0 <= i <= |actions|
        invariant gone == DeletedKeys(actions[..i])
        invariant rows == Minus(held, gone) && Constraints(rows)
      {
        DeletedKeysNext(actions, i);
        DeleteOne(actions[i], held, gone);
        gone := gone + if actions[i].verdict == Delete then {actions[i].key} else {};
        i := i + 1;
      }
      Whole(actions);
      DeletesAre(cur, pre, now, res, actions);
      ActionsCover(cur, pre, now, res, actions);
      HeldMinusIsMixed(cur, pre, now, res, ph, KeysOf(actions));
    }

    method DeleteOne(a: Action, ghost held: Table, ghost gone: set<Key>)
      requires Constraints(held) && rows == Minus(held, gone) && Constraints(rows)
      modifies this
      ensures rows == Minus(held, gone + if a.verdict == Delete then {a.key} else {}) && Constraints(rows)
    {
      if a.verdict == Delete {
        CascadeOneMore(held, gone, a.key);
        DeleteRow(a.key);
      } else {
        assert gone + {} == gone;
      }
    }

    method PatchOne(a: Action, ghost cur: Table, ghost pre: Table, ghost now: int, ghost res: Resolutions,
                    ghost ph: Key -> string, ghost done: set<Key>)
      requires Ready(cur, pre, now, res, ph) && a.key in cur && a.key !in done
      requires a.verdict == Decide(cur, pre, now, res, a.key)
      requires rows == Mixed(cur, pre, now, res, ph, done) && Constraints(rows)
      modifies this
      ensures rows == Mixed(cur, pre, now, res, ph, if a.verdict.Update? then done + {a.key} else done)
          && Constraints(rows)
    {
      if a.verdict.Update? {
        MixedStep(cur, pre, now, res, ph, done, a.key);
        MixedConstraints(cur, pre, now, res, ph, done + {a.key});
        if a.key in rows {
          MixedRowFits(cur, pre, now, res, ph, done, a.key);
          UpdateRow(a.key, Patched(rows[a.key], a.verdict.patch));
        }
      }
    }

    /** The UPDATE statements. One whose row went with a cascade touches nothing. */
    method RunUpdates(actions: seq<Action>, ghost cur: Table, ghost pre: Table, ghost now: int, ghost res: Resolutions,
                      ghost ph: Key -> string)
      requires Ready(cur, pre, now, res, ph) && ActionsFor(cur, pre, now, res, actions)
      requires rows == Mixed(cur, pre, now, res, ph, {}) && Constraints(rows)
      modifies this
      ensures rows == Reconciled(cur, pre, now, res) && Constraints(rows)
    {
      ghost var done: set<Key> := {};
      var i := 0;
      while i < |actions|
        invariant 0 <= i <= |actions|
        invariant done == UpdatedKeys(actions[..i])
        invariant rows == Mixed(cur, pre, now, res, ph, done) && Constraints(rows)
      {
        NextAction(cur, pre, now, res, actions, i);
        PatchOne(actions[i], cur, pre, now, res, ph, done);
        done := if actions[i].verdict.Update? then done + {actions[i].key} else done;
        UpdatedKeysNext(actions, i);
        i := i + 1;
      }
      AllUpdated(cur, pre, now, res, ph, actions, i);
    }

    /** `restore_reconcile` on the control tables: plan, and apply all of it or nothing. `ph` stands for the new
        identifiers in the placeholder addresses. */
    method RestoreReconcile(pre: Table, now: int, res: Resolutions, apply: bool, ph: Key -> string)
          returns (plan: PlanResult)
      requires Constraints(rows) && WellTyped(pre) && (forall k :: k in pre && k.MemberKey? ==> pre[k].role != Unknown)
      requires !PlanFails(rows, pre, res) && (forall org :: !Blocked(rows, pre, res, org)) ==>
          Ready(rows, pre, now, res, ph)
      modifies this
      ensures plan.Refused? <==> PlanFails(old(rows), pre, res)
      ensures plan.Planned? ==> forall org :: org in plan.blocked <==> Blocked(old(rows), pre, res, org)
      ensures rows == if plan.Planned? && apply && plan.blocked == {} then Reconciled(old(rows), pre, now, res)
                      else old(rows)
      ensures Constraints(rows)
      ensures HasOrganization(old(rows)) ==> HasOrganization(rows)
    {
      ghost var cur := rows;
      plan := Plan(rows, pre, now, res);
      if plan.Refused? || !apply || plan.blocked != {} { return; }
      if HasOrganization(cur) { OrganizationsRemain(cur, pre, now, res); }
      PlacePlaceholders(plan.actions, pre, now, res, ph);
      RunDeletes(plan.actions, cur, pre, now, res, ph);
      RunUpdates(plan.actions, cur, pre, now, res, ph);
    }
  }

  /** Of the rows above `level` in the hierarchy, exactly those under `k` are in `gone`. */
  ghost predicate GoneBelow(db: Table, k: Key, gone: set<Key>, level: nat)
    requires WellTyped(db)
  {
    && k in gone
    && (forall j :: j in gone && j in db ==> Under(db, j, {k}))
    && (forall j :: j in db && Depth(j) < level && Under(db, j, {k}) ==> j in gone)
  }

  lemma RootsAreNotUnder(db: Table, k: Key)
    requires WellTyped(db)
    ensures GoneBelow(db, k, {k}, 1)
  {
    forall j | j in db && Depth(j) < 1 && Under(db, j, {k}) ensures j == k {}
  }

  lemma OneLevelMore(db: Table, k: Key, gone: set<Key>, level: nat)
    requires WellTyped(db) && ForeignKeys(db) && GoneBelow(db, k, gone, level)
    ensures GoneBelow(db, k, gone + (set j | j in db && Depth(j) == level && Parents(j, db[j]) * gone != {}), level + 1)
  {
    forall j | j in db && Depth(j) == level && Parents(j, db[j]) * gone != {} ensures Under(db, j, {k}) {
      var p :| p in Parents(j, db[j]) * gone;
      assert Parents(j, db[j]) <= db.Keys;
      ParentsBelow(j, db[j], p);
    }
    forall j | j in db && Depth(j) == level && Under(db, j, {k}) && j != k ensures Parents(j, db[j]) * gone != {} {
      var p :| p in Parents(j, db[j]) && p in db && Depth(p) < Depth(j) && Under(db, p, {k});
      assert p in Parents(j, db[j]) * gone;
    }
  }

  // ------------------------------------------------------------------ bookkeeping of the loops

  ghost function KeysOf(actions: seq<Action>): set<Key> { set a | a in actions :: a.key }

  ghost function UpdatedKeys(actions: seq<Action>): set<Key> { set a | a in actions && a.verdict.Update? :: a.key }

  lemma Whole(actions: seq<Action>)
    ensures actions[..|actions|] == actions
  {}

  lemma KeysOfNext(actions: seq<Action>, i: nat)
    requires i < |actions|
    ensures KeysOf(actions[..i + 1]) == KeysOf(actions[..i]) + {actions[i].key}
  {
    assert actions[..i + 1] == actions[..i] + [actions[i]];
  }

  ghost function DeletedKeys(actions: seq<Action>): set<Key> { set a | a in actions && a.verdict == Delete :: a.key }

  lemma DeletedKeysNext(actions: seq<Action>, i: nat)
    requires i < |actions|
    ensures DeletedKeys(actions[..i + 1])
        == DeletedKeys(actions[..i]) + (if actions[i].verdict == Delete then {actions[i].key} else {})
  {
    assert actions[..i + 1] == actions[..i] + [actions[i]];
  }

  lemma UpdatedKeysNext(actions: seq<Action>, i: nat)
    requires i < |actions|
    ensures UpdatedKeys(actions[..i + 1])
        == UpdatedKeys(actions[..i]) + (if actions[i].verdict.Update? then {actions[i].key} else {})
  {
    assert actions[..i + 1] == actions[..i] + [actions[i]];
  }

  lemma HeldNothing(cur: Table, pre: Table, now: int, res: Resolutions, ph: Key -> string)
    requires Ready(cur, pre, now, res, ph)
    ensures Held(cur, pre, now, res, ph, {}) == cur && Constraints(cur)
  {}

  lemma HeldNext(cur: Table, pre: Table, now: int, res: Resolutions, ph: Key -> string, done: set<Key>, k: Key)
    requires Ready(cur, pre, now, res, ph)
    ensures Constraints(Held(cur, pre, now, res, ph, done + {k}))
  {
    HeldShape(cur, pre, now, res, ph, done + {k});
    HeldUnique(cur, pre, now, res, ph, done + {k});
  }

  lemma HeldStep(cur: Table, pre: Table, now: int, res: Resolutions, ph: Key -> string, done: set<Key>, k: Key)
    requires WellTyped(cur) && WellTyped(pre) && k in cur && k !in done
    ensures var v := Decide(cur, pre, now, res, k);
            var h := Held(cur, pre, now, res, ph, done);
            && h[k] == cur[k]
            && Held(cur, pre, now, res, ph, done + {k}) == h[k := HeldRow(v, cur[k], ph(k))]
            && (v.Update? && v.patch.SetEmail? ==> cur[k].UserRow?)
            && (v.Update? && v.patch.SetHook? ==> cur[k].WebhookRow?)
            && (HeldRow(v, cur[k], ph(k)) == cur[k] ==> Held(cur, pre, now, res, ph, done + {k}) == h)
  {
    DecideFits(cur, pre, now, res, k);
  }

  lemma MinusNothing(db: Table)
    requires WellTyped(db)
    ensures Minus(db, {}) == db
  {
    forall j | j in db ensures !Under(db, j, {}) { NotUnderNothing(db, j); }
  }

  lemma {:induction false} NotUnderNothing(db: Table, j: Key)
    requires WellTyped(db) && j in db
    ensures !Under(db, j, {})
    decreases Depth(j)
  {
    forall p | p in Parents(j, db[j]) && p in db && Depth(p) < Depth(j)
      ensures !Under(db, p, {})
    {
      NotUnderNothing(db, p);
    }
  }

  lemma DeletesAre(cur: Table, pre: Table, now: int, res: Resolutions, actions: seq<Action>)
    requires WellTyped(cur) && WellTyped(pre) && ActionsFor(cur, pre, now, res, actions)
    ensures DeletedKeys(actions) == ToDelete(cur, pre, now, res)
  {
    forall k | k in ToDelete(cur, pre, now, res) ensures k in DeletedKeys(actions) {
      assert Action(k, Delete) in actions;
    }
  }

  lemma ActionsCover(cur: Table, pre: Table, now: int, res: Resolutions, actions: seq<Action>)
    requires WellTyped(cur) && WellTyped(pre) && ActionsFor(cur, pre, now, res, actions)
    ensures forall k :: k in cur && Decide(cur, pre, now, res, k) != Keep ==> k in KeysOf(actions)
  {
    forall k | k in cur && Decide(cur, pre, now, res, k) != Keep ensures k in KeysOf(actions) {
      assert Action(k, Decide(cur, pre, now, res, k)) in actions;
    }
  }

  lemma UpdatesCover(cur: Table, pre: Table, now: int, res: Resolutions, actions: seq<Action>)
    requires WellTyped(cur) && WellTyped(pre) && ActionsFor(cur, pre, now, res, actions)
    ensures forall k :: k in cur && Decide(cur, pre, now, res, k).Update? ==> k in UpdatedKeys(actions)
  {
    forall k | k in cur && Decide(cur, pre, now, res, k).Update? ensures k in UpdatedKeys(actions) {
      assert Action(k, Decide(cur, pre, now, res, k)) in actions;
    }
  }

  lemma AllUpdated(cur: Table, pre: Table, now: int, res: Resolutions, ph: Key -> string, actions: seq<Action>, i: nat)
    requires Ready(cur, pre, now, res, ph) && ActionsFor(cur, pre, now, res, actions) && i == |actions|
    ensures Mixed(cur, pre, now, res, ph, UpdatedKeys(actions[..i])) == Reconciled(cur, pre, now, res)
  {
    assert actions[..i] == actions;
    UpdatesCover(cur, pre, now, res, actions);
    MixedAll(cur, pre, now, res, ph, UpdatedKeys(actions));
  }

  lemma MixedStep(cur: Table, pre: Table, now: int, res: Resolutions, ph: Key -> string, done: set<Key>, k: Key)
    requires WellTyped(cur) && WellTyped(pre) && k in cur
    ensures var m := Mixed(cur, pre, now, res, ph, done);
            Mixed(cur, pre, now, res, ph, done + {k}) == if k in m then m[k := NewRow(cur, pre, now, res, k)] else m
  {}

  lemma NextAction(cur: Table, pre: Table, now: int, res: Resolutions, actions: seq<Action>, i: nat)
    requires WellTyped(cur) && WellTyped(pre) && ActionsFor(cur, pre, now, res, actions) && i < |actions|
    ensures actions[i].key in cur && actions[i].verdict == Decide(cur, pre, now, res, actions[i].key)
    ensures actions[i].key !in KeysOf(actions[..i]) && actions[i].key !in UpdatedKeys(actions[..i])
    ensures KeysOf(actions[..i + 1]) == KeysOf(actions[..i]) + {actions[i].key}
  {
    assert actions[i] in actions;
    KeysOfNext(actions, i);
  }

  /** Patching a row that holds a placeholder gives what patching the original row gives. */
  lemma MixedRowFits(cur: Table, pre: Table, now: int, res: Resolutions, ph: Key -> string, done: set<Key>, k: Key)
    requires Ready(cur, pre, now, res, ph) && k in Mixed(cur, pre, now, res, ph, done) && k !in done
    requires Decide(cur, pre, now, res, k).Update?
    ensures var m := Mixed(cur, pre, now, res, ph, done);
            var p := Decide(cur, pre, now, res, k).patch;
            && PatchFits(m[k], p) && Patched(m[k], p) == NewRow(cur, pre, now, res, k)
            && Fits(k, m[k]) && Fits(k, Patched(m[k], p)) && Parents(k, Patched(m[k], p)) == Parents(k, m[k])
  {
    DecideFits(cur, pre, now, res, k);
    MixedAddresses(cur, pre, now, res, ph, done, k);
  }
}
