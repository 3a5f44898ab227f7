/** The registry of tenant runners (app/control/tenancy.py): least recently used first, never evicting a tenant in
    use. */
module Tenancy {
  import opened Common

  type Id = nat
  datatype Entry = Entry(org: Id, runner: nat, llm: Option<bool>)

  // ------------------------------------------------------------------ an ordered dictionary

  ghost predicate Distinct(es: seq<Entry>) {
    forall i, j :: 0 <= i < j < |es| ==> es[i].org != es[j].org
  }

  function Without(es: seq<Entry>, org: Id): seq<Entry> {
    if es == [] then [] else (if es[0].org == org then [] else [es[0]]) + Without(es[1..], org)
  }

  lemma {:induction false} WithoutIs(es: seq<Entry>, org: Id)
    ensures forall e :: e in Without(es, org) <==> e in es && e.org != org
  {
    if es != [] {
      WithoutIs(es[1..], org);
    }
  }

  lemma {:induction false} WithoutAt(before: seq<Entry>, e: Entry, after: seq<Entry>)
    requires forall x :: x in before || x in after ==> x.org != e.org
    ensures Without(before + [e] + after, e.org) == before + after
  {
    var es := before + [e] + after;
    if before == [] {
      WithoutAbsent(after, e.org);
      assert es[1..] == after;
    } else {
      WithoutAt(before[1..], e, after);
      assert es[1..] == before[1..] + [e] + after;
    }
  }

  lemma {:induction false} WithoutAbsent(es: seq<Entry>, org: Id)
    requires forall e :: e in es ==> e.org != org
    ensures Without(es, org) == es
  {
    if es != [] {
      WithoutAbsent(es[1..], org);
    }
  }

  // ------------------------------------------------------------------ what eviction must leave

  /** `excess` entries have to go, oldest first, protected ones excepted. */
  function Survivors(es: seq<Entry>, protect: set<Id>, excess: int): seq<Entry> {
    if es == [] || excess <= 0 then es
    else if es[0].org in protect then [es[0]] + Survivors(es[1..], protect, excess)
    else Survivors(es[1..], protect, excess - 1)
  }

  /** The loop's view: `kept` has been passed, `rest` has not. */
  ghost function Evicting(kept: seq<Entry>, rest: seq<Entry>, protect: set<Id>, max: nat): seq<Entry>
    decreases |rest|
  {
    if rest == [] || |kept| + |rest| <= max then kept + rest
    else if rest[0].org in protect then Evicting(kept + [rest[0]], rest[1..], protect, max)
    else Evicting(kept, rest[1..], protect, max)
  }

  lemma {:induction false} EvictingLeaves(kept: seq<Entry>, rest: seq<Entry>, protect: set<Id>, max: nat)
    ensures Evicting(kept, rest, protect, max) == kept + Survivors(rest, protect, |kept| + |rest| - max)
    decreases |rest|
  {
    if rest == [] || |kept| + |rest| <= max {
    } else if rest[0].org in protect {
      EvictingLeaves(kept + [rest[0]], rest[1..], protect, max);
    } else {
      EvictingLeaves(kept, rest[1..], protect, max);
    }
  }

  lemma {:induction false} ProtectedSurvive(es: seq<Entry>, protect: set<Id>, excess: int)
    ensures forall e :: e in es && e.org in protect ==> e in Survivors(es, protect, excess)
    ensures forall e :: e in Survivors(es, protect, excess) ==> e in es
  {
    if es != [] && excess > 0 {
      ProtectedSurvive(es[1..], protect, if es[0].org in protect then excess else excess - 1);
    }
  }

  /** Exactly the excess is evicted, unless only protected entries are left. */
  lemma {:induction false} EvictsTheExcess(es: seq<Entry>, protect: set<Id>, excess: nat)
    ensures |Survivors(es, protect, excess)| >= |es| - excess
    ensures |Survivors(es, protect, excess)| == |es| - excess
            || forall e :: e in Survivors(es, protect, excess) ==> e.org in protect
  {
    if es != [] && excess > 0 {
      EvictsTheExcess(es[1..], protect, if es[0].org in protect then excess else excess - 1);
    }
  }

  /** Least recently used first: whatever is evicted is older than every unprotected entry that stays. */
  lemma {:induction false} OldestGoFirst(es: seq<Entry>, protect: set<Id>, excess: int, i: nat, j: nat)
    requires Distinct(es) && i < |es| && j < |es|
    requires es[i] !in Survivors(es, protect, excess)
    requires es[j] in Survivors(es, protect, excess) && es[j].org !in protect
    ensures i < j
  {
    if es[0].org in protect {
      assert i != 0 && j != 0;
      OldestGoFirst(es[1..], protect, excess, i - 1, j - 1);
    } else if j == 0 {
      ProtectedSurvive(es[1..], protect, excess - 1);
      assert false;
    } else if i > 0 {
      OldestGoFirst(es[1..], protect, excess - 1, i - 1, j - 1);
    }
  }

  // ------------------------------------------------------------------ use order

  /** The entries stand in the order of their last use. */
  ghost predicate ByUse(es: seq<Entry>, used: map<Id, nat>, now: nat) {
    es == [] || (es[0].org in used && used[es[0].org] < now && UsedBefore(es[0], es[1..], used)
        && ByUse(es[1..], used, now))
  }

  ghost predicate UsedBefore(e: Entry, es: seq<Entry>, used: map<Id, nat>)
    requires e.org in used
  {
    forall x :: x in es ==> x.org in used && used[e.org] < used[x.org]
  }

  lemma {:induction false} ByUseOrders(es: seq<Entry>, used: map<Id, nat>, now: nat, i: nat, j: nat)
    requires ByUse(es, used, now) && i < |es| && j < |es|
    ensures es[i].org in used && es[j].org in used && used[es[i].org] < now
    ensures i < j ==> used[es[i].org] < used[es[j].org]
  {
    if i > 0 && j > 0 {
      ByUseOrders(es[1..], used, now, i - 1, j - 1);
    } else if i > 0 {
      ByUseOrders(es[1..], used, now, i - 1, i - 1);
    } else if j > 0 {
      ByUseOrders(es[1..], used, now, j - 1, j - 1);
    }
  }

  lemma ByUseDistinct(es: seq<Entry>, used: map<Id, nat>, now: nat)
    requires ByUse(es, used, now)
    ensures Distinct(es)
  {
    forall i, j | 0 <= i < j < |es| ensures es[i].org != es[j].org {
      ByUseOrders(es, used, now, i, j);
    }
  }

  ghost predicate Among(part: seq<Entry>, es: seq<Entry>) { forall x :: x in part ==> x in es }

  lemma EvictedByUse(es: seq<Entry>, protect: set<Id>, max: nat, used: map<Id, nat>, now: nat)
    requires ByUse(es, used, now)
    ensures EntriesAfter(es, protect, max, |es|) == Survivors(es, protect, |es| - max)
    ensures ByUse(Survivors(es, protect, |es| - max), used, now)
  {
    var kept := Passed(es, protect, max, |es|, used, now);
    assert es[|es|..] == [];
    EvictingLeaves([], es, protect, max);
    SurvivorsByUse(es, protect, |es| - max, used, now);
  }

  lemma KeptApart(es: seq<Entry>, i: nat, kept: seq<Entry>, used: map<Id, nat>, now: nat)
    requires ByUse(es, used, now) && i < |es| && Among(kept, es[..i])
    ensures Apart(kept, es[i]) && Apart(es[i + 1..], es[i])
  {
    ByUseDistinct(es, used, now);
  }

  lemma {:induction false} WithoutByUse(es: seq<Entry>, org: Id, used: map<Id, nat>, now: nat)
    requires ByUse(es, used, now)
    ensures ByUse(Without(es, org), used, now)
  {
    if es != [] {
      var rest := Without(es[1..], org);
      WithoutByUse(es[1..], org, used, now);
      WithoutIs(es[1..], org);
      assert ([es[0]] + rest)[1..] == rest && [] + rest == rest;
    }
  }

  lemma {:induction false} SurvivorsByUse(es: seq<Entry>, protect: set<Id>, excess: int, used: map<Id, nat>, now: nat)
    requires ByUse(es, used, now)
    ensures ByUse(Survivors(es, protect, excess), used, now)
    decreases |es|
  {
    if es != [] && excess > 0 {
      var less := if es[0].org in protect then excess else excess - 1;
      SurvivorsByUse(es[1..], protect, less, used, now);
      ProtectedSurvive(es[1..], protect, less);
    }
  }

  /** Deleting a key that occurs once, at a known place. */
  lemma Removal(before: seq<Entry>, e: Entry, after: seq<Entry>)
    requires Apart(before, e) && Apart(after, e)
    ensures Without(before + ([e] + after), e.org) == before + after
  {
    assert before + ([e] + after) == before + [e] + after;
    WithoutAt(before, e, after);
  }

  /** The dictionary after `i` turns of the eviction loop. */
  ghost function EntriesAfter(es: seq<Entry>, protect: set<Id>, max: nat, i: nat): seq<Entry>
    requires i <= |es|
  {
    if i == 0 then es
    else
      var before := EntriesAfter(es, protect, max, i - 1);
      if |before| <= max || es[i - 1].org in protect then before else Without(before, es[i - 1].org)
  }

  lemma {:induction false} StopsEarly(es: seq<Entry>, protect: set<Id>, max: nat, i: nat, j: nat)
    requires i <= j <= |es| && (|EntriesAfter(es, protect, max, i)| <= max || i == j)
    ensures EntriesAfter(es, protect, max, j) == EntriesAfter(es, protect, max, i)
    decreases j
  {
    if i < j {
      StopsEarly(es, protect, max, i, j - 1);
    }
  }

  /** What has been passed is kept in front of what has not, and evicting goes on from there. */
  lemma {:induction false} Passed(es: seq<Entry>, protect: set<Id>, max: nat, i: nat, used: map<Id, nat>, now: nat)
    returns (kept: seq<Entry>)
    requires ByUse(es, used, now) && i <= |es|
    ensures Among(kept, es[..i]) && EntriesAfter(es, protect, max, i) == kept + es[i..]
    ensures Evicting([], es, protect, max) == Evicting(kept, es[i..], protect, max)
  {
    if i == 0 {
      kept := [];
      assert [] + es == es && es[0..] == es;
    } else {
      kept := Passed(es, protect, max, i - 1, used, now);
      kept := Pass(es, protect, max, i - 1, kept, used, now);
    }
  }

  lemma Pass(es: seq<Entry>, protect: set<Id>, max: nat, i: nat, before: seq<Entry>, used: map<Id, nat>, now: nat)
    returns (kept: seq<Entry>)
    requires ByUse(es, used, now) && i < |es| && Among(before, es[..i])
    requires EntriesAfter(es, protect, max, i) == before + es[i..]
    ensures Among(kept, es[..i + 1]) && EntriesAfter(es, protect, max, i + 1) == kept + es[i + 1..]
    ensures Evicting(before, es[i..], protect, max) == Evicting(kept, es[i + 1..], protect, max)
  {
    assert es[..i + 1] == es[..i] + [es[i]];
    assert es[i..] == [es[i]] + es[i + 1..];
    if |before + es[i..]| <= max || es[i].org in protect {
      kept := before + [es[i]];
      assert before + es[i..] == kept + es[i + 1..];
    } else {
      kept := before;
      KeptApart(es, i, before, used, now);
      Removal(before, es[i], es[i + 1..]);
    }
    EvictingTurn(before, es[i], es[i + 1..], protect, max);
  }

  lemma EvictingTurn(kept: seq<Entry>, e: Entry, rest: seq<Entry>, protect: set<Id>, max: nat)
    ensures Evicting(kept, [e] + rest, protect, max)
         == if |kept| + 1 + |rest| <= max || e.org in protect then Evicting(kept + [e], rest, protect, max)
            else Evicting(kept, rest, protect, max)
  {
    assert ([e] + rest)[1..] == rest;
    if |kept| + 1 + |rest| <= max {
      assert kept + ([e] + rest) == (kept + [e]) + rest;
      assert rest == [] ==> (kept + [e]) + rest == kept + [e];
    }
  }

  /** The removed entry is there, so one turn removes exactly one. */
  lemma PassEntry(es: seq<Entry>, protect: set<Id>, max: nat, i: nat, used: map<Id, nat>, now: nat)
        returns (kept: seq<Entry>)
    requires ByUse(es, used, now) && i < |es|
    ensures var entries := EntriesAfter(es, protect, max, i); |Without(entries, es[i].org)| == |entries| - 1
  {
    kept := Passed(es, protect, max, i, used, now);
    KeptApart(es, i, kept, used, now);
    assert es[i..] == [es[i]] + es[i + 1..];
    Removal(kept, es[i], es[i + 1..]);
  }

  ghost predicate Apart(es: seq<Entry>, e: Entry) { forall x :: x in es ==> x.org != e.org }

  /** Using an entry puts it last. */
  function Touched(es: seq<Entry>, e: Entry): seq<Entry> { Without(es, e.org) + [e] }

  lemma TouchedByUse(es: seq<Entry>, e: Entry, used: map<Id, nat>, now: nat)
    requires ByUse(es, used, now)
    ensures ByUse(Touched(es, e), used[e.org := now], now + 1)
  {
    WithoutByUse(es, e.org, used, now);
    WithoutIs(es, e.org);
    AppendedByUse(Without(es, e.org), e, used, now);
  }

  lemma {:induction false} AppendedByUse(es: seq<Entry>, e: Entry, used: map<Id, nat>, now: nat)
    requires ByUse(es, used, now) && Apart(es, e)
    ensures ByUse(es + [e], used[e.org := now], now + 1)
  {
    if es == [] {
      assert ([e])[1..] == [];
    } else {
      AppendedByUse(es[1..], e, used, now);
      assert (es + [e])[1..] == es[1..] + [e];
      forall x | x in es[1..] + [e] ensures x.org in used[e.org := now] && used[es[0].org] < used[e.org := now][x.org] {
        assert x in es[1..] || x == e;
      }
      assert es[0] in es;
    }
  }

  // ------------------------------------------------------------------ the registry

  class TenantRegistry {
    const maxActive: nat
    var entries: seq<Entry>
    var inUse: map<Id, int>
    var evictions: nat
    var nextRunner: nat
    ghost var used: map<Id, nat>
    ghost var now: nat

    constructor (maxActive: nat)
      ensures this.maxActive == maxActive && Valid() && entries == [] && inUse == map[] && evictions == 0
    {
      this.maxActive := maxActive;
      entries, inUse, evictions, nextRunner := [], map[], 0, 0;
      used, now := map[], 0;
    }

    ghost predicate Valid()
      reads this
    {
      ByUse(entries, used, now)
    }

    function Uses(org: Id): int
      reads this
    {
      if org in inUse then inUse[org] else 0
    }

    ghost function Protected(keep: Id): set<Id>
      reads this
    {
      (set o | o in inUse && inUse[o] > 0) + {keep}
    }

    /** The loop of the source over a snapshot of the keys: exactly the oldest unprotected entries go. */
    method EvictOverLimit(keep: Id)
      requires Valid()
      modifies this`entries, this`evictions
      ensures Valid()
      ensures entries == Survivors(old(entries), Protected(keep), |old(entries)| - maxActive)
      ensures evictions - old(evictions) == |old(entries)| - |entries|
    {
      var snapshot := entries;
      ghost var protect := Protected(keep);
      var i := 0;
      while i < |snapshot| && |entries| > maxActive
        invariant 0 <= i <= |snapshot|
        invariant entries == EntriesAfter(snapshot, protect, maxActive, i)
        invariant evictions - old(evictions) == |snapshot| - |entries|
      {
        var org := snapshot[i].org;
        ghost var kept := PassEntry(snapshot, protect, maxActive, i, used, now);
        assert org in protect <==> org == keep || Uses(org) > 0;
        if !(org == keep || Uses(org) > 0) {
          entries := Without(entries, org);
          evictions := evictions + 1;
        }
        i := i + 1;
      }
      StopsEarly(snapshot, protect, maxActive, i, |snapshot|);
      EvictedByUse(snapshot, protect, maxActive, used, now);
    }

    /** A runner for the organization, now the most recently used entry. */
    method Get(org: Id, llm: Option<bool>) returns (runner: nat)
      requires Valid()
      modifies this`entries, this`evictions, this`nextRunner, this`used, this`now
      ensures Valid()
      ensures match Found(old(entries), org) {
          case Some(e) =>
            if llm.None? || e.llm == llm
            then runner == e.runner && entries == Touched(old(entries), e) && evictions == old(evictions)
            else Rebuilt(old(entries), Entry(org, runner, llm), entries) && runner == old(nextRunner)
          case None => Rebuilt(old(entries), Entry(org, runner, llm), entries) && runner == old(nextRunner)
        }
      ensures evictions - old(evictions) == |Touched(old(entries), Entry(org, runner, llm))| - |entries|
    {
      var found := Found(entries, org);
      used, now := used[org := now], now + 1;
      if found.Some? && (llm.None? || found.value.llm == llm) {
        TouchedByUse(entries, found.value, old(used), old(now));
        entries := Touched(entries, found.value);
        SameSize(old(entries), found.value, Entry(org, found.value.runner, llm));
        return found.value.runner;
      }
      runner := nextRunner;
      nextRunner := nextRunner + 1;
      var entry := Entry(org, runner, llm);
      TouchedByUse(entries, entry, old(used), old(now));
      entries := Touched(entries, entry);
      EvictOverLimit(org);
    }

    ghost predicate Rebuilt(before: seq<Entry>, e: Entry, after: seq<Entry>)
      reads this
    {
      after == Survivors(Touched(before, e), Protected(e.org), |Touched(before, e)| - maxActive)
    }

    /** `evict`: only an idle tenant. */
    method Evict(org: Id)
      requires Valid()
      modifies this`entries
      ensures Valid() && entries == if Uses(org) == 0 then Without(old(entries), org) else old(entries)
    {
      if Uses(org) == 0 {
        WithoutByUse(entries, org, used, now);
        entries := Without(entries, org);
      }
    }

    method MarkInUse(org: Id)
      requires Valid()
      modifies this`inUse
      ensures Valid() && inUse == old(inUse)[org := old(Uses(org)) + 1]
    {
      inUse := inUse[org := Uses(org) + 1];
    }

    method Release(org: Id)
      requires Valid()
      modifies this`inUse
      ensures Valid() && inUse == old(inUse)[org := if old(Uses(org)) > 1 then old(Uses(org)) - 1 else 0]
    {
      var left := Uses(org) - 1;
      inUse := inUse[org := if left > 0 then left else 0];
    }
  }

  function Found(es: seq<Entry>, org: Id): (r: Option<Entry>)
    ensures r.Some? ==> r.value in es && r.value.org == org
    ensures r.None? ==> forall e :: e in es ==> e.org != org
  {
    if es == [] then None else if es[0].org == org then Some(es[0]) else Found(es[1..], org)
  }

  lemma SameSize(es: seq<Entry>, e: Entry, f: Entry)
    requires e.org == f.org
    ensures |Touched(es, e)| == |Touched(es, f)|
  {}

  /** What a rebuild leaves: the new runner last, every tenant in use kept, at most `max` entries or only protected
      ones. */
  lemma RebuildKeeps(before: seq<Entry>, e: Entry, protect: set<Id>, max: nat)
    requires e.org in protect
    ensures var full := Touched(before, e); var after := Survivors(full, protect, |full| - max);
      && after != [] && after[|after| - 1] == e
      && (forall x :: x in before && x.org in protect && x.org != e.org ==> x in after)
      && (|after| <= max || forall x :: x in after ==> x.org in protect)
      && (|after| >= max || |after| == |full|)
  {
    var full := Touched(before, e);
    var excess := |full| - max;
    WithoutIs(before, e.org);
    ProtectedSurvive(full, protect, excess);
    if excess >= 0 { EvictsTheExcess(full, protect, excess); }
    LastSurvives(full, protect, excess);
  }

  /** Everything a rebuild evicts was used longer ago than every idle tenant that stays. */
  lemma EvictedLongerIdle(before: seq<Entry>, e: Entry, protect: set<Id>, max: nat, used: map<Id, nat>, now: nat,
        x: Entry, y: Entry)
    requires ByUse(before, used, now) && e.org in protect && x in before && x.org != e.org
    requires var full := Touched(before, e); var after := Survivors(full, protect, |full| - max);
      x !in after && y in after && y.org !in protect
    ensures y in before && x.org in used && y.org in used && used[x.org] < used[y.org]
  {
    var full := Touched(before, e);
    ProtectedSurvive(full, protect, |full| - max);
    WithoutByUse(before, e.org, used, now);
    WithoutIs(before, e.org);
    var others := Without(before, e.org);
    var i :| 0 <= i < |others| && others[i] == x;
    var j :| 0 <= j < |others| && others[j] == y;
    assert full[i] == x && full[j] == y;
    TouchedDistinct(before, e, used, now);
    OldestGoFirst(full, protect, |full| - max, i, j);
    ByUseOrders(others, used, now, i, j);
  }

  lemma TouchedDistinct(before: seq<Entry>, e: Entry, used: map<Id, nat>, now: nat)
    requires ByUse(before, used, now)
    ensures Distinct(Touched(before, e))
  {
    TouchedByUse(before, e, used, now);
    ByUseDistinct(Touched(before, e), used[e.org := now], now + 1);
  }

  lemma {:induction false} LastSurvives(es: seq<Entry>, protect: set<Id>, excess: int)
    requires es != [] && es[|es| - 1].org in protect
    ensures var r := Survivors(es, protect, excess); r != [] && r[|r| - 1] == es[|es| - 1]
  {
    if excess > 0 && |es| > 1 {
      LastSurvives(es[1..], protect, if es[0].org in protect then excess else excess - 1);
    } else if excess > 0 {
      assert Survivors(es[1..], protect, excess) == [];
    }
  }
}
