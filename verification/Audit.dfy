/** Keyset pagination of the audit log (app/api/v1/audit.py): pages by (ts, id) descending, each behind a cursor. */
module Audit {
  import opened Common

  datatype Event = Event(org: nat, ts: int, id: nat)

  /** The cursor is the (ts, id) of a page's last event. */
  datatype Cursor = Cursor(ts: int, id: nat)

  /** A page and the cursor of the next one. */
  datatype Page = Page(items: seq<Event>, next: Option<Cursor>)

  predicate Before(e: Event, c: Cursor) { e.ts < c.ts || (e.ts == c.ts && e.id < c.id) }

  function At(e: Event): Cursor { Cursor(e.ts, e.id) }

  /** Ids are primary keys. */
  ghost predicate Unique(log: set<Event>) { forall e, f :: e in log && f in log && e.id == f.id ==> e == f }

  // ------------------------------------------------------------------ one query

  /** The WHERE clause. */
  function Selected(log: set<Event>, org: nat, cursor: Option<Cursor>): set<Event> {
    set e | e in log && e.org == org && (cursor.Some? ==> Before(e, cursor.value))
  }

  ghost predicate Newest(s: set<Event>, m: Event) { m in s && forall e :: e in s && e != m ==> Before(e, At(m)) }

  lemma {:induction false} NewestExists(s: set<Event>)
    requires s != {} && Unique(s)
    ensures exists m :: Newest(s, m)
  {
    var m :| m in s;
    if s == {m} {
      assert Newest(s, m);
    } else {
      NewestExists(s - {m});
      var n :| Newest(s - {m}, n);
      if Before(m, At(n)) {
        assert Newest(s, n);
      } else {
        assert m.id != n.id;
        forall e | e in s && e != m ensures Before(e, At(m)) {
          assert e == n || Before(e, At(n));
        }
        assert Newest(s, m);
      }
    }
  }

  ghost function Max(s: set<Event>): (m: Event)
    requires s != {} && Unique(s)
    ensures Newest(s, m)
  {
    NewestExists(s);
    var m :| Newest(s, m);
    m
  }

  /** ORDER BY ts DESC, id DESC LIMIT n. */
  ghost function Top(s: set<Event>, n: nat): (rows: seq<Event>)
    requires Unique(s)
    decreases n
  {
    if n == 0 || s == {} then [] else [Max(s)] + Top(s - {Max(s)}, n - 1)
  }

  ghost predicate Descending(rows: seq<Event>) { forall i, j :: 0 <= i < j < |rows| ==> Before(rows[j], At(rows[i])) }

  function Least(a: nat, b: nat): nat { if a <= b then a else b }

  /** The rows of a query are the right number, and in order. */
  lemma {:induction false} TopIs(s: set<Event>, n: nat)
    requires Unique(s)
    ensures |Top(s, n)| == Least(n, |s|) && Descending(Top(s, n))
    decreases n
  {
    if n > 0 && s != {} {
      var m := Max(s);
      TopIs(s - {m}, n - 1);
      TopFrom(s - {m}, n - 1);
      var rest := Top(s - {m}, n - 1);
      forall j | 0 <= j < |rest| ensures Before(rest[j], At(m)) {
        assert rest[j] in rest;
      }
      Headed(m, rest);
    }
  }

  lemma Headed(m: Event, rest: seq<Event>)
    requires Descending(rest) && forall j :: 0 <= j < |rest| ==> Before(rest[j], At(m))
    ensures Descending([m] + rest)
  {}

  /** All of them are from the selection. */
  lemma {:induction false} TopFrom(s: set<Event>, n: nat)
    requires Unique(s)
    ensures forall e :: e in Top(s, n) ==> e in s
    decreases n
  {
    if n > 0 && s != {} {
      TopFrom(s - {Max(s)}, n - 1);
    }
  }

  /** None left out is better than one of them. */
  lemma {:induction false} TopBest(s: set<Event>, n: nat, e: Event, f: Event)
    requires Unique(s) && e in s && e !in Top(s, n) && f in Top(s, n)
    ensures Before(e, At(f))
    decreases n
  {
    var m := Max(s);
    if f != m {
      TopBest(s - {m}, n - 1, e, f);
    }
  }

  ghost function PageOf(log: set<Event>, org: nat, cursor: Option<Cursor>, limit: nat): Page
    requires Unique(log) && limit >= 1
  {
    var rows := Top(Selected(log, org, cursor), limit + 1);
    TopIs(Selected(log, org, cursor), limit + 1);
    var items := rows[..Least(limit, |rows|)];
    Page(items, if |rows| > limit then Some(At(items[|items| - 1])) else None)
  }

  /** A page is the newest part of the selection, in order. */
  lemma PageIs(log: set<Event>, org: nat, cursor: Option<Cursor>, limit: nat)
    requires Unique(log) && limit >= 1
    ensures var p := PageOf(log, org, cursor, limit);
      && Descending(p.items) && (forall e :: e in p.items ==> e in Selected(log, org, cursor))
      && (p.next.Some? ==> |p.items| == limit && p.next == Some(At(p.items[limit - 1])))
  {
    var s := Selected(log, org, cursor);
    TopIs(s, limit + 1);
    TopFrom(s, limit + 1);
  }

  lemma InPrefix(rows: seq<Event>, n: nat, k: nat)
    requires k < n <= |rows|
    ensures rows[k] in rows[..n]
  {
    assert rows[..n][k] == rows[k];
  }

  /** Nothing is lost: what is not on the page lies behind its cursor, and without a cursor there is nothing more. */
  lemma PageLosesNothing(log: set<Event>, org: nat, cursor: Option<Cursor>, limit: nat, e: Event)
    requires Unique(log) && limit >= 1 && e in Selected(log, org, cursor) && e !in PageOf(log, org, cursor, limit).items
    ensures PageOf(log, org, cursor, limit).next.Some? && e in Selected(log, org, PageOf(log, org, cursor, limit).next)
  {
    var s := Selected(log, org, cursor);
    var rows := Top(s, limit + 1);
    TopIs(s, limit + 1);
    TopFrom(s, limit + 1);
    if |rows| <= limit {
      Fewer(s, rows, e);
      assert false;
    }
    var last := rows[limit - 1];
    if e in rows {
      var k :| 0 <= k < |rows| && rows[k] == e;
      if k < limit {
        InPrefix(rows, limit, k);
        assert false;
      }
    } else {
      assert last in rows;
      TopBest(s, limit + 1, e, last);
    }
  }

  /** A strictly descending list that misses an element of the set is shorter than the set. */
  lemma Fewer(s: set<Event>, rows: seq<Event>, missing: Event)
    requires Descending(rows) && (forall e :: e in rows ==> e in s) && missing in s && missing !in rows
    ensures |rows| < |s|
  {
    Elements(rows);
    var listed := set e | e in rows;
    assert listed <= s - {missing};
    Smaller(listed, s - {missing});
  }

  lemma {:induction false} Elements(rows: seq<Event>)
    requires Descending(rows)
    ensures |set e | e in rows| == |rows|
  {
    if rows != [] {
      var rest := rows[1..];
      Elements(rest);
      assert rows[0] !in rest;
      assert (set e | e in rows) == (set e | e in rest) + {rows[0]};
    }
  }

  lemma Smaller(a: set<Event>, b: set<Event>)
    requires a <= b
    ensures |a| <= |b|
  {
    assert b == a + (b - a);
  }

  // ------------------------------------------------------------------ following the cursor

  /** The events a client collects by following `next_cursor`; `logs[i]` is the log when the i-th page is read. None
      if the client has not reached the last page yet. */
  ghost function Walk(logs: seq<set<Event>>, org: nat, cursor: Option<Cursor>, limit: nat): Option<seq<Event>>
    requires limit >= 1 && forall i :: 0 <= i < |logs| ==> Unique(logs[i])
  {
    if logs == [] then None
    else
      var p := PageOf(logs[0], org, cursor, limit);
      if p.next.None? then Some(p.items)
      else match Walk(logs[1..], org, p.next, limit)
        case None => None
        case Some(rest) => Some(p.items + rest)
  }

  ghost predicate Growing(logs: seq<set<Event>>) { forall i :: 0 <= i < |logs| - 1 ==> logs[i] <= logs[i + 1] }

  lemma {:induction false} GrowingFrom(logs: seq<set<Event>>, i: nat)
    requires Growing(logs) && i < |logs|
    ensures logs[0] <= logs[i] <= logs[|logs| - 1]
    decreases |logs|
  {
    if i > 0 {
      GrowingFrom(logs[1..], i - 1);
    } else if |logs| > 1 {
      GrowingFrom(logs[1..], 0);
    }
  }

  lemma {:induction false} WalkFrom(logs: seq<set<Event>>, org: nat, cursor: Option<Cursor>, limit: nat)
    requires limit >= 1 && (forall i :: 0 <= i < |logs| ==> Unique(logs[i])) && Growing(logs)
    requires Walk(logs, org, cursor, limit).Some?
    ensures var seen := Walk(logs, org, cursor, limit).value;
      && logs != [] && Descending(seen)
      && (forall e :: e in seen ==> e in Selected(logs[|logs| - 1], org, cursor))
      && (forall e :: e in Selected(logs[0], org, cursor) ==> e in seen)
    decreases |logs|
  {
    PageIs(logs[0], org, cursor, limit);
    GrowingFrom(logs, 0);
    var p := PageOf(logs[0], org, cursor, limit);
    if p.next.Some? {
      WalkFrom(logs[1..], org, p.next, limit);
      var rest := Walk(logs[1..], org, p.next, limit).value;
      Appended(p.items, rest, p.items[limit - 1]);
      forall e | e in rest ensures e in Selected(logs[|logs| - 1], org, cursor) {
        assert Before(e, At(p.items[limit - 1])) && p.items[limit - 1] in p.items;
      }
      forall e | e in Selected(logs[0], org, cursor) && e !in p.items ensures e in rest {
        PageLosesNothing(logs[0], org, cursor, limit, e);
        assert e in Selected(logs[1], org, p.next);
      }
    } else {
      forall e | e in Selected(logs[0], org, cursor) ensures e in p.items {
        if e !in p.items { PageLosesNothing(logs[0], org, cursor, limit, e); }
      }
    }
  }

  lemma Appended(items: seq<Event>, rest: seq<Event>, last: Event)
    requires Descending(items) && Descending(rest) && items != [] && items[|items| - 1] == last
    requires forall e :: e in rest ==> Before(e, At(last))
    ensures Descending(items + rest)
  {
    var rows := items + rest;
    forall i, j | 0 <= i < j < |rows| ensures Before(rows[j], At(rows[i])) {
      if i < |items| <= j {
        assert rows[j] == rest[j - |items|] && rest[j - |items|] in rest;
        assert i < |items| - 1 ==> Before(items[|items| - 1], At(items[i]));
      } else if |items| <= i {
        assert rows[i] == rest[i - |items|] && rows[j] == rest[j - |items|];
      }
    }
  }

  /** While events are appended between the page reads, following the cursor to its end visits every event that was
      there at the start exactly once, newest first, and nothing of another organization. */
  lemma WalkVisitsAll(logs: seq<set<Event>>, org: nat, limit: nat)
    requires limit >= 1 && (forall i :: 0 <= i < |logs| ==> Unique(logs[i])) && Growing(logs)
    requires Walk(logs, org, None, limit).Some?
    ensures var seen := Walk(logs, org, None, limit).value;
      && logs != [] && Descending(seen)
      && (forall e :: e in logs[0] && e.org == org ==> multiset(seen)[e] == 1)
      && (forall e :: e in seen ==> e in logs[|logs| - 1] && e.org == org)
  {
    WalkFrom(logs, org, None, limit);
    var seen := Walk(logs, org, None, limit).value;
    forall e | e in logs[0] && e.org == org ensures multiset(seen)[e] == 1 {
      assert e in Selected(logs[0], org, None);
      OnceOnly(seen, e);
    }
  }

  lemma {:induction false} OnceOnly(rows: seq<Event>, e: Event)
    requires Descending(rows) && e in rows
    ensures multiset(rows)[e] == 1
  {
    assert rows == [rows[0]] + rows[1..];
    if rows[0] == e {
      assert e !in rows[1..];
    } else {
      OnceOnly(rows[1..], e);
    }
  }

  // ------------------------------------------------------------------ a log that does not change

  /** Two strictly descending lists of the same events are the same list. */
  lemma {:induction false} SameList(a: seq<Event>, b: seq<Event>)
    requires Descending(a) && Descending(b) && forall e :: e in a <==> e in b
    ensures a == b
  {
    Elements(a);
    Elements(b);
    assert (set e | e in a) == (set e | e in b);
    if a != [] {
      assert a[0] in b && b[0] in a;
      assert a[0] == b[0];
      assert forall e :: e in a[1..] <==> e in a && e != a[0];
      assert forall e :: e in b[1..] <==> e in b && e != b[0];
      SameList(a[1..], b[1..]);
    }
  }

  lemma {:induction false} WalkEnds(log: set<Event>, org: nat, cursor: Option<Cursor>, limit: nat, pages: nat)
    requires Unique(log) && limit >= 1 && |Selected(log, org, cursor)| < pages
    ensures Walk(seq(pages, _ => log), org, cursor, limit).Some?
    decreases pages
  {
    PageIs(log, org, cursor, limit);
    var p := PageOf(log, org, cursor, limit);
    var logs := seq(pages, _ => log);
    assert logs[1..] == seq(pages - 1, _ => log);
    if p.next.Some? {
      var last := p.items[limit - 1];
      var before, after := Selected(log, org, cursor), Selected(log, org, p.next);
      assert last in p.items;
      forall e | e in after ensures e in before && e != last {
        assert Before(e, At(last));
      }
      assert after <= before - {last};
      Smaller(after, before - {last});
      WalkEnds(log, org, p.next, limit, pages - 1);
    }
  }

  /** Over a log that does not change the walk ends, with any limit, and is the whole log in order. */
  lemma FixedLogIsSorted(log: set<Event>, org: nat, limit: nat)
    requires Unique(log) && limit >= 1
    ensures var mine := Selected(log, org, None);
      Walk(seq(|mine| + 1, _ => log), org, None, limit) == Some(Top(mine, |mine|))
  {
    var mine := Selected(log, org, None);
    var logs := seq(|mine| + 1, _ => log);
    WalkEnds(log, org, None, limit, |mine| + 1);
    WalkFrom(logs, org, None, limit);
    TopIs(mine, |mine|);
    TopFrom(mine, |mine|);
    var sorted := Top(mine, |mine|);
    if e :| e in mine && e !in sorted {
      Fewer(mine, sorted, e);
    }
    SameList(Walk(logs, org, None, limit).value, sorted);
  }
}
