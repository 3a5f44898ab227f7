/** The token buckets of app/core/ratelimit.py, over real time and real tokens. */
module RateLimit {
  type Key = string

  datatype Bucket = Bucket(tokens: real, stamp: real)
  datatype Hit = Hit(key: Key, limit: int, time: real)

  const FULL_REFILL_SEC: real := 60.0

  function Min(a: real, b: real): real { if a <= b then a else b }
  function Rate(limit: int): real { limit as real / 60.0 }

  /** What `elapsed` seconds add: a sixtieth of a token a second for each unit of the limit. Written as a sum, which
      keeps the proofs linear; `EarnedIsRate` is the product the source computes. */
  function Earned(limit: int, elapsed: real): real
    decreases limit
  {
    if limit <= 0 then 0.0 else elapsed / 60.0 + Earned(limit - 1, elapsed)
  }

  lemma {:induction false} EarnedIsRate(limit: nat, elapsed: real)
    ensures Earned(limit, elapsed) == elapsed * Rate(limit)
    decreases limit
  {
    if limit > 0 {
      EarnedIsRate(limit - 1, elapsed);
      assert elapsed * Rate(limit) == elapsed * Rate(limit - 1) + elapsed / 60.0;
    }
  }

  lemma {:induction false} EarnedAdds(limit: int, a: real, b: real)
    ensures Earned(limit, a + b) == Earned(limit, a) + Earned(limit, b)
    decreases limit
  {
    if limit > 0 {
      EarnedAdds(limit - 1, a, b);
    }
  }

  lemma {:induction false} EarnedGrows(limit: int, a: real, b: real)
    requires a <= b
    ensures Earned(limit, a) <= Earned(limit, b)
    ensures limit > 0 && a < b ==> Earned(limit, a) < Earned(limit, b)
    ensures Earned(limit, 0.0) == 0.0
    ensures limit > 0 ==> Earned(limit, FULL_REFILL_SEC) == limit as real
    decreases limit
  {
    if limit > 0 {
      EarnedGrows(limit - 1, a, b);
    }
  }

  // ------------------------------------------------------------------ one hit

  function Refilled(b: Bucket, limit: int, now: real): real {
    Min(limit as real, b.tokens + Earned(limit, now - b.stamp))
  }

  /** The tokens a hit finds; a key without a bucket gets a full one. */
  function Level(table: map<Key, Bucket>, h: Hit): real {
    if h.key in table then Refilled(table[h.key], h.limit, h.time) else h.limit as real
  }

  predicate Admits(table: map<Key, Bucket>, h: Hit) { h.limit <= 0 || Level(table, h) >= 1.0 }

  function Wait(table: map<Key, Bucket>, h: Hit): real {
    if Admits(table, h) then 0.0 else (1.0 - Level(table, h)) / Rate(h.limit)
  }

  /** The bucket a hit leaves, in a table that is large enough. */
  function After(table: map<Key, Bucket>, h: Hit): map<Key, Bucket> {
    if h.limit <= 0 then table
    else table[h.key := Bucket(if Level(table, h) >= 1.0 then Level(table, h) - 1.0 else Level(table, h), h.time)]
  }

  /** Tokens are never negative, and no stamp lies in the future. */
  ghost predicate Sane(table: map<Key, Bucket>, now: real) {
    forall k :: k in table ==> table[k].tokens >= 0.0 && table[k].stamp <= now
  }

  lemma AfterSane(table: map<Key, Bucket>, h: Hit, now: real)
    requires Sane(table, now) && now <= h.time
    ensures Sane(After(table, h), h.time)
  {
    if h.limit > 0 && h.key in table {
      EarnedGrows(h.limit, 0.0, h.time - table[h.key].stamp);
    }
  }

  // ------------------------------------------------------------------ the wait is exact

  /** Waiting as long as the refusal says admits the next hit; any shorter wait is refused. */
  lemma WaitIsExact(table: map<Key, Bucket>, h: Hit, next: Hit)
    requires !Admits(table, h) && next.key == h.key && next.limit == h.limit && h.time <= next.time
    ensures Wait(table, h) > 0.0
    ensures Admits(After(table, h), next) <==> next.time >= h.time + Wait(table, h)
  {
    var level := Level(table, h);
    var wait := Wait(table, h);
    Quotient(1.0 - level, Rate(h.limit), wait);
    EarnedIsRate(h.limit, wait);
    var waited := next.time - h.time;
    if waited >= wait {
      EarnedGrows(h.limit, wait, waited);
    } else {
      EarnedGrows(h.limit, waited, wait);
    }
  }

  lemma Quotient(a: real, b: real, q: real)
    requires a > 0.0 && b > 0.0 && q == a / b
    ensures q > 0.0 && q * b == a
  {}

  // ------------------------------------------------------------------ a burst

  /** The table after `n` hits of a key at one instant. */
  function Burst(table: map<Key, Bucket>, h: Hit, n: nat): map<Key, Bucket> {
    if n == 0 then table else After(Burst(table, h, n - 1), h)
  }

  lemma {:induction false} BurstLevel(table: map<Key, Bucket>, h: Hit, n: nat)
    requires h.key !in table && 0 < h.limit && n <= h.limit
    ensures Level(Burst(table, h, n), h) == (h.limit - n) as real
  {
    if n > 0 {
      BurstLevel(table, h, n - 1);
      EarnedGrows(h.limit, 0.0, 0.0);
    }
  }

  /** A key without a bucket can hit `limit` times at one instant, and no more. */
  lemma BurstIsTheLimit(table: map<Key, Bucket>, h: Hit, n: nat)
    requires h.key !in table && 0 < h.limit && n <= h.limit
    ensures Admits(Burst(table, h, n), h) <==> n < h.limit
  {
    BurstLevel(table, h, n);
  }

  // ------------------------------------------------------------------ traces

  /** Times do not go back, from `now` on. */
  ghost predicate Ordered(hits: seq<Hit>, now: real)
    decreases |hits|
  {
    hits == [] || (now <= hits[0].time && Ordered(hits[1..], hits[0].time))
  }

  /** What the callers of a trace get, from a table without a bound. */
  function Waits(table: map<Key, Bucket>, hits: seq<Hit>): (r: seq<real>)
    ensures |r| == |hits|
    decreases |hits|
  {
    if hits == [] then [] else [Wait(table, hits[0])] + Waits(After(table, hits[0]), hits[1..])
  }

  function Last(hits: seq<Hit>, now: real): real { if hits == [] then now else hits[|hits| - 1].time }

  ghost predicate FixedLimit(hits: seq<Hit>, key: Key, limit: int) {
    forall h :: h in hits && h.key == key ==> h.limit == limit
  }

  // ------------------------------------------------------------------ the limiter's table

  /** The buckets that are not idle. */
  function Busy(table: map<Key, Bucket>, now: real): map<Key, Bucket> {
    map k | k in table && now - table[k].stamp < FULL_REFILL_SEC :: table[k]
  }

  function Tenth(max: nat): (n: nat)
    ensures n >= 1
  {
    if max / 10 > 1 then max / 10 else 1
  }

  function Least(a: nat, b: nat): nat { if a <= b then a else b }

  /** The overflow part of `_prune`: `n` buckets go, none of them newer than any that stays. */
  ghost predicate OldestRemoved(before: map<Key, Bucket>, after: map<Key, Bucket>, n: nat) {
    && after.Keys <= before.Keys
    && (forall k :: k in after ==> after[k] == before[k])
    && |after| == |before| - n
    && (forall k, l :: k in before && k !in after && l in after ==> before[k].stamp <= after[l].stamp)
  }

  /** One call of the limiter, with the buckets that `_prune` drops before it. */
  datatype Turn = Turn(hit: Hit, gone: set<Key>)

  /** Nothing is dropped unless a new bucket meets a full table; then the idle buckets go, and the oldest of the
      others if the table is still full. */
  ghost predicate LimiterTurn(table: map<Key, Bucket>, max: nat, t: Turn) {
    var busy := Busy(table, t.hit.time);
    && t.gone <= table.Keys
    && (if t.hit.limit <= 0 || t.hit.key in table || |table| < max then t.gone == {}
        else if |busy| < max then table - t.gone == busy
        else OldestRemoved(busy, table - t.gone, Least(Tenth(max), |busy|)))
  }

  function AfterTurn(table: map<Key, Bucket>, t: Turn): map<Key, Bucket> { After(table - t.gone, t.hit) }

  ghost predicate LimiterRun(table: map<Key, Bucket>, max: nat, turns: seq<Turn>)
    decreases |turns|
  {
    turns == [] || (LimiterTurn(table, max, turns[0]) && LimiterRun(AfterTurn(table, turns[0]), max, turns[1..]))
  }

  function TurnsAfter(table: map<Key, Bucket>, turns: seq<Turn>): map<Key, Bucket>
    decreases |turns|
  {
    if turns == [] then table else TurnsAfter(AfterTurn(table, turns[0]), turns[1..])
  }

  /** What the callers get. */
  function TurnWaits(table: map<Key, Bucket>, turns: seq<Turn>): (r: seq<real>)
    ensures |r| == |turns|
    decreases |turns|
  {
    if turns == [] then []
    else [Wait(table - turns[0].gone, turns[0].hit)] + TurnWaits(AfterTurn(table, turns[0]), turns[1..])
  }

  function Hits(turns: seq<Turn>): (r: seq<Hit>)
    ensures |r| == |turns| && forall i :: 0 <= i < |r| ==> r[i] == turns[i].hit
  {
    if turns == [] then [] else [turns[0].hit] + Hits(turns[1..])
  }

  /** How many of the answers let a hit of the key through. */
  function Granted(hits: seq<Hit>, waits: seq<real>, key: Key): nat
    requires |hits| == |waits|
    decreases |hits|
  {
    if hits == [] then 0
    else (if hits[0].key == key && waits[0] == 0.0 then 1 else 0) + Granted(hits[1..], waits[1..], key)
  }

  /** The key's bucket is dropped only when it is idle: no overflow evicts it. Other keys may lose theirs at any
      time. */
  ghost predicate NotEvicted(table: map<Key, Bucket>, turns: seq<Turn>, key: Key)
    decreases |turns|
  {
    turns == []
    || (&& (key in table && key in turns[0].gone ==> turns[0].hit.time - table[key].stamp >= FULL_REFILL_SEC)
        && NotEvicted(AfterTurn(table, turns[0]), turns[1..], key))
  }

  // ------------------------------------------------------------------ the rate bound

  function LevelAt(table: map<Key, Bucket>, key: Key, limit: int, time: real): real {
    Level(table, Hit(key, limit, time))
  }

  /** Time adds at most the rate to a level. */
  lemma LevelGrows(table: map<Key, Bucket>, key: Key, limit: int, t: real, u: real)
    requires limit > 0 && t <= u
    ensures LevelAt(table, key, limit, u) <= LevelAt(table, key, limit, t) + Earned(limit, u - t)
  {
    EarnedGrows(limit, 0.0, u - t);
    if key in table {
      EarnedAdds(limit, t - table[key].stamp, u - t);
      assert (t - table[key].stamp) + (u - t) == u - table[key].stamp;
    }
  }

  lemma LevelAfter(table: map<Key, Bucket>, h: Hit, key: Key, limit: int)
    requires limit > 0 && (h.key == key ==> h.limit == limit)
    ensures LevelAt(After(table, h), key, limit, h.time)
         == LevelAt(table, key, limit, h.time) - (if h.key == key && Admits(table, h) then 1.0 else 0.0)
  {
    EarnedGrows(limit, 0.0, 0.0);
  }

  lemma LevelCapped(table: map<Key, Bucket>, key: Key, limit: int, time: real)
    ensures LevelAt(table, key, limit, time) <= limit as real
  {}

  /** An idle bucket is worth a fresh one, whatever the limit of the next hit. */
  lemma IdleIsFull(b: Bucket, limit: int, now: real)
    requires b.tokens >= 0.0 && limit > 0 && now - b.stamp >= FULL_REFILL_SEC
    ensures Refilled(b, limit, now) == limit as real
  {
    EarnedGrows(limit, FULL_REFILL_SEC, now - b.stamp);
  }

  /** Dropping other buckets, or this one when it is idle, leaves the key's level alone. */
  lemma LevelKept(table: map<Key, Bucket>, gone: set<Key>, key: Key, limit: int, time: real)
    requires limit > 0 && (key in table ==> table[key].tokens >= 0.0)
    requires key in table && key in gone ==> time - table[key].stamp >= FULL_REFILL_SEC
    ensures LevelAt(table - gone, key, limit, time) == LevelAt(table, key, limit, time)
  {
    if key in table && key in gone {
      IdleIsFull(table[key], limit, time);
    }
  }

  lemma TurnSane(table: map<Key, Bucket>, t: Turn, now: real)
    requires Sane(table, now) && now <= t.hit.time
    ensures Sane(AfterTurn(table, t), t.hit.time)
  {
    AfterSane(table - t.gone, t.hit, now);
  }

  lemma AdmitsIff(table: map<Key, Bucket>, h: Hit)
    ensures Admits(table, h) <==> Wait(table, h) == 0.0
    ensures Wait(table, h) >= 0.0
  {
    if !Admits(table, h) {
      Quotient(1.0 - Level(table, h), Rate(h.limit), Wait(table, h));
    }
  }

  /** Admissions are paid for: what a trace admits, plus what is left, came from the first level and from the time. */
  lemma {:induction false} Budget(table: map<Key, Bucket>, turns: seq<Turn>, key: Key, limit: int, start: real)
    requires limit > 0 && Ordered(Hits(turns), start) && FixedLimit(Hits(turns), key, limit) && Sane(table, start)
    requires NotEvicted(table, turns, key)
    ensures Granted(Hits(turns), TurnWaits(table, turns), key) as real
         <= LevelAt(table, key, limit, start) + Earned(limit, Last(Hits(turns), start) - start)
    decreases |turns|
  {
    if turns == [] {
      LevelPositive(table, key, limit, start);
    } else {
      var t := turns[0];
      TurnSane(table, t, start);
      RestOfTurns(turns, start);
      LimitOfTurns(turns, key, limit);
      Budget(AfterTurn(table, t), turns[1..], key, limit, t.hit.time);
      BudgetStep(table, turns, key, limit, start, Last(Hits(turns), start));
    }
  }

  lemma LevelPositive(table: map<Key, Bucket>, key: Key, limit: int, now: real)
    requires limit > 0 && Sane(table, now)
    ensures 0.0 <= LevelAt(table, key, limit, now) + Earned(limit, 0.0)
  {
    EarnedGrows(limit, 0.0, if key in table then now - table[key].stamp else 0.0);
  }

  lemma BudgetStep(table: map<Key, Bucket>, turns: seq<Turn>, key: Key, limit: int, start: real, end: real)
    requires turns != [] && limit > 0 && Sane(table, start) && start <= turns[0].hit.time
    requires turns[0].hit.key == key ==> turns[0].hit.limit == limit
    requires key in table && key in turns[0].gone ==> turns[0].hit.time - table[key].stamp >= FULL_REFILL_SEC
    requires Granted(Hits(turns[1..]), TurnWaits(AfterTurn(table, turns[0]), turns[1..]), key) as real
          <= LevelAt(AfterTurn(table, turns[0]), key, limit, turns[0].hit.time) + Earned(limit, end - turns[0].hit.time)
    ensures Granted(Hits(turns), TurnWaits(table, turns), key) as real
         <= LevelAt(table, key, limit, start) + Earned(limit, end - start)
  {
    OneTurn(table, turns[0], key, limit, start);
    TimeAdds(limit, start, turns[0].hit.time, end);
    FirstGranted(table, turns, key);
  }

  lemma FirstGranted(table: map<Key, Bucket>, turns: seq<Turn>, key: Key)
    requires turns != []
    ensures Granted(Hits(turns), TurnWaits(table, turns), key)
         == (if turns[0].hit.key == key && Admits(table - turns[0].gone, turns[0].hit) then 1 else 0)
            + Granted(Hits(turns[1..]), TurnWaits(AfterTurn(table, turns[0]), turns[1..]), key)
  {
    AdmitsIff(table - turns[0].gone, turns[0].hit);
    assert TurnWaits(table, turns)[1..] == TurnWaits(AfterTurn(table, turns[0]), turns[1..]);
    assert Hits(turns)[1..] == Hits(turns[1..]);
  }

  lemma RestOfTurns(turns: seq<Turn>, start: real)
    requires turns != [] && Ordered(Hits(turns), start)
    ensures Hits(turns)[1..] == Hits(turns[1..]) && Ordered(Hits(turns[1..]), turns[0].hit.time)
    ensures Last(Hits(turns), start) == Last(Hits(turns[1..]), turns[0].hit.time)
    ensures start <= turns[0].hit.time
  {}

  lemma LimitOfTurns(turns: seq<Turn>, key: Key, limit: int)
    requires turns != [] && FixedLimit(Hits(turns), key, limit)
    ensures FixedLimit(Hits(turns[1..]), key, limit) && (turns[0].hit.key == key ==> turns[0].hit.limit == limit)
  {
    assert Hits(turns)[1..] == Hits(turns[1..]);
    assert Hits(turns)[0] == turns[0].hit;
  }

  lemma TimeAdds(limit: int, a: real, b: real, c: real)
    ensures Earned(limit, c - b) + Earned(limit, b - a) == Earned(limit, c - a)
  {
    EarnedAdds(limit, c - b, b - a);
    assert (c - b) + (b - a) == c - a;
  }

  /** What one turn grants the key comes out of its level. */
  lemma OneTurn(table: map<Key, Bucket>, t: Turn, key: Key, limit: int, start: real)
    requires limit > 0 && Sane(table, start) && start <= t.hit.time && (t.hit.key == key ==> t.hit.limit == limit)
    requires key in table && key in t.gone ==> t.hit.time - table[key].stamp >= FULL_REFILL_SEC
    ensures LevelAt(AfterTurn(table, t), key, limit, t.hit.time)
            + (if t.hit.key == key && Admits(table - t.gone, t.hit) then 1.0 else 0.0)
         <= LevelAt(table, key, limit, start) + Earned(limit, t.hit.time - start)
  {
    LevelKept(table, t.gone, key, limit, t.hit.time);
    LevelAfter(table - t.gone, t.hit, key, limit);
    LevelGrows(table, key, limit, start, t.hit.time);
  }

  lemma SaneLater(table: map<Key, Bucket>, now: real, later: real)
    requires Sane(table, now) && now <= later
    ensures Sane(table, later)
  {}

  lemma {:induction false} TurnParts(table: map<Key, Bucket>, before: seq<Turn>, window: seq<Turn>, now: real)
    requires Sane(table, now) && Ordered(Hits(before + window), now)
    ensures exists later :: now <= later && Sane(TurnsAfter(table, before), later) && Ordered(Hits(window), later)
    decreases |before|
  {
    if before == [] {
      assert before + window == window;
      assert now <= now && Sane(TurnsAfter(table, before), now) && Ordered(Hits(window), now);
    } else {
      var turns := before + window;
      assert turns[1..] == before[1..] + window;
      RestOfTurns(turns, now);
      TurnSane(table, before[0], now);
      TurnParts(AfterTurn(table, before[0]), before[1..], window, before[0].hit.time);
    }
  }

  lemma {:induction false} TurnWaitsJoined(table: map<Key, Bucket>, before: seq<Turn>, window: seq<Turn>)
    ensures TurnWaits(table, before + window) == TurnWaits(table, before) + TurnWaits(TurnsAfter(table, before), window)
    decreases |before|
  {
    if before == [] {
      assert before + window == window;
    } else {
      assert (before + window)[1..] == before[1..] + window;
      TurnWaitsJoined(AfterTurn(table, before[0]), before[1..], window);
    }
  }

  lemma WindowBound(table: map<Key, Bucket>, window: seq<Turn>, key: Key, limit: int, now: real)
    requires limit > 0 && window != [] && Sane(table, now) && Ordered(Hits(window), now)
    requires FixedLimit(Hits(window), key, limit) && NotEvicted(table, window, key)
    ensures Granted(Hits(window), TurnWaits(table, window), key) as real
         <= limit as real + Earned(limit, window[|window| - 1].hit.time - window[0].hit.time)
  {
    var start := window[0].hit.time;
    SaneLater(table, now, start);
    assert Ordered(Hits(window), start);
    Budget(table, window, key, limit, start);
    LevelCapped(table, key, limit, start);
  }

  /** The bound for any drops whatever that leave the key's bucket alone unless it is idle. */
  lemma RateBoundDropping(before: seq<Turn>, window: seq<Turn>, key: Key, limit: int, now: real)
    returns (granted: nat, elapsed: real)
    requires limit > 0 && window != [] && Ordered(Hits(before + window), now) && FixedLimit(Hits(window), key, limit)
    requires NotEvicted(TurnsAfter(map[], before), window, key)
    ensures granted == Granted(Hits(window), TurnWaits(map[], before + window)[|before|..], key)
    ensures elapsed == window[|window| - 1].hit.time - window[0].hit.time
    ensures granted as real <= limit as real + Earned(limit, elapsed)
  {
    TurnWaitsJoined(map[], before, window);
    assert TurnWaits(map[], before + window)[|before|..] == TurnWaits(TurnsAfter(map[], before), window);
    TurnParts(map[], before, window, now);
    var later :| now <= later && Sane(TurnsAfter(map[], before), later) && Ordered(Hits(window), later);
    WindowBound(TurnsAfter(map[], before), window, key, limit, later);
    granted := Granted(Hits(window), TurnWaits(map[], before + window)[|before|..], key);
    elapsed := window[|window| - 1].hit.time - window[0].hit.time;
  }

  lemma PerMinute(granted: nat, limit: nat, elapsed: real)
    requires granted as real <= limit as real + Earned(limit, elapsed)
    ensures granted as real <= limit as real + limit as real * elapsed / 60.0
  {
    EarnedIsRate(limit, elapsed);
  }

  /** In every window of every trace of the limiter, a key with a fixed limit whose bucket is not evicted by an
      overflow is let through at most `limit` times plus `limit` per minute of the window, whatever happens to the
      other keys. */
  lemma RateBound(max: nat, before: seq<Turn>, window: seq<Turn>, key: Key, limit: int, now: real)
    returns (granted: nat, elapsed: real)
    requires limit > 0 && window != [] && Ordered(Hits(before + window), now) && FixedLimit(Hits(window), key, limit)
    requires LimiterRun(map[], max, before + window) && NotEvicted(TurnsAfter(map[], before), window, key)
    ensures granted == Granted(Hits(window), TurnWaits(map[], before + window)[|before|..], key)
    ensures elapsed == window[|window| - 1].hit.time - window[0].hit.time
    ensures granted as real <= limit as real + limit as real * elapsed / 60.0
  {
    granted, elapsed := RateBoundDropping(before, window, key, limit, now);
    PerMinute(granted, limit, elapsed);
  }

  // ------------------------------------------------------------------ refusals leave no trace

  /** A bucket as a refusal leaves it: the same tokens, written at a later time. */
  ghost predicate SameCredit(a: map<Key, Bucket>, b: map<Key, Bucket>, key: Key, limit: int) {
    && a.Keys == b.Keys
    && (forall k :: k in a && k != key ==> a[k] == b[k])
    && (key in a ==> a[key].tokens == b[key].tokens + Earned(limit, a[key].stamp - b[key].stamp))
  }

  lemma SameLevel(a: map<Key, Bucket>, b: map<Key, Bucket>, key: Key, limit: int, h: Hit)
    requires SameCredit(a, b, key, limit) && (h.key == key ==> h.limit == limit)
    ensures Level(a, h) == Level(b, h)
  {
    if h.key == key && key in a {
      EarnedAdds(limit, h.time - a[key].stamp, a[key].stamp - b[key].stamp);
      assert (h.time - a[key].stamp) + (a[key].stamp - b[key].stamp) == h.time - b[key].stamp;
    }
  }

  lemma {:induction false} SameCreditWaits(a: map<Key, Bucket>, b: map<Key, Bucket>, key: Key, limit: int,
        hits: seq<Hit>)
    requires limit > 0 && SameCredit(a, b, key, limit) && FixedLimit(hits, key, limit)
    ensures Waits(a, hits) == Waits(b, hits)
    decreases |hits|
  {
    if hits != [] {
      SameLevel(a, b, key, limit, hits[0]);
      EarnedGrows(limit, 0.0, 0.0);
      SameCreditWaits(After(a, hits[0]), After(b, hits[0]), key, limit, hits[1..]);
    }
  }

  /** A refused hit can be taken out of a trace: every later caller gets the same answer. */
  lemma RefusalsLeaveNoTrace(table: map<Key, Bucket>, h: Hit, later: seq<Hit>)
    requires !Admits(table, h) && FixedLimit(later, h.key, h.limit)
    ensures Waits(After(table, h), later) == Waits(table, later)
  {
    assert h.key in table;
    assert Level(table, h) == table[h.key].tokens + Earned(h.limit, h.time - table[h.key].stamp);
    SameCreditWaits(After(table, h), table, h.key, h.limit, later);
  }

  // ------------------------------------------------------------------ dropping idle buckets

  /** `_prune` runs before a new bucket when the table is full. */
  function Pruned(table: map<Key, Bucket>, max: nat, h: Hit): map<Key, Bucket> {
    if h.limit <= 0 || h.key in table || |table| < max then table else Busy(table, h.time)
  }

  /** The table is full even without its idle buckets. */
  predicate Overflows(table: map<Key, Bucket>, max: nat, h: Hit) {
    h.limit > 0 && h.key !in table && |Pruned(table, max, h)| >= max
  }

  function AfterBounded(table: map<Key, Bucket>, max: nat, h: Hit): map<Key, Bucket> { After(Pruned(table, max, h), h) }

  /** What the callers of a trace get from the limiter, while no bucket has to be evicted before its time. */
  function WaitsBounded(table: map<Key, Bucket>, max: nat, hits: seq<Hit>): seq<real>
    requires NeverOverflows(table, max, hits)
    decreases |hits|
  {
    if hits == [] then []
    else [Wait(Pruned(table, max, hits[0]), hits[0])] + WaitsBounded(AfterBounded(table, max, hits[0]), max, hits[1..])
  }

  predicate NeverOverflows(table: map<Key, Bucket>, max: nat, hits: seq<Hit>)
    decreases |hits|
  {
    hits == [] || (!Overflows(table, max, hits[0]) && NeverOverflows(AfterBounded(table, max, hits[0]), max, hits[1..]))
  }

  /** What the bounded table lacks has been idle long enough to be full again. */
  ghost predicate Covers(bounded: map<Key, Bucket>, full: map<Key, Bucket>, now: real) {
    && bounded.Keys <= full.Keys
    && (forall k :: k in bounded ==> bounded[k] == full[k])
    && (forall k :: k in full && k !in bounded ==> now - full[k].stamp >= FULL_REFILL_SEC)
  }

  lemma CoversStep(bounded: map<Key, Bucket>, full: map<Key, Bucket>, max: nat, h: Hit, now: real)
    requires Covers(bounded, full, now) && Sane(full, now) && now <= h.time
    ensures Wait(Pruned(bounded, max, h), h) == Wait(full, h)
    ensures Covers(AfterBounded(bounded, max, h), After(full, h), h.time)
  {
    var pruned := Pruned(bounded, max, h);
    assert Covers(pruned, full, h.time);
    if h.limit > 0 && h.key in full && h.key !in pruned {
      IdleIsFull(full[h.key], h.limit, h.time);
    }
    assert h.limit > 0 ==> Level(pruned, h) == Level(full, h);
  }

  /** The limiter that forgets idle buckets answers every trace as one that never forgets, even when limits change. */
  lemma {:induction false} PruningIsInvisible(bounded: map<Key, Bucket>, full: map<Key, Bucket>, max: nat,
        hits: seq<Hit>, now: real)
    requires Covers(bounded, full, now) && Sane(full, now) && Ordered(hits, now)
    requires NeverOverflows(bounded, max, hits)
    ensures WaitsBounded(bounded, max, hits) == Waits(full, hits)
    decreases |hits|
  {
    if hits != [] {
      var h := hits[0];
      CoversStep(bounded, full, max, h, now);
      AfterSane(full, h, now);
      PruningIsInvisible(AfterBounded(bounded, max, h), After(full, h), max, hits[1..], h.time);
    }
  }

  /** Such a trace is a run of the limiter whose turns drop just the idle buckets. */
  lemma {:induction false} TurnsWithoutOverflow(table: map<Key, Bucket>, max: nat, turns: seq<Turn>)
    requires LimiterRun(table, max, turns) && NeverOverflows(table, max, Hits(turns))
    ensures TurnWaits(table, turns) == WaitsBounded(table, max, Hits(turns))
    decreases |turns|
  {
    if turns != [] {
      var t := turns[0];
      assert table - t.gone == Pruned(table, max, t.hit);
      assert Hits(turns)[1..] == Hits(turns[1..]);
      TurnsWithoutOverflow(AfterTurn(table, t), max, turns[1..]);
    }
  }

  // ------------------------------------------------------------------ refusals leave no trace in the limiter

  lemma Fewer(a: set<Key>, b: set<Key>)
    requires a <= b
    ensures |a| <= |b|
  {
    assert b == a + (b - a);
  }

  /** The unbounded tables with and without the refused hit: the same keys, and no bucket is newer without it. */
  ghost predicate NoNewer(a: map<Key, Bucket>, b: map<Key, Bucket>) {
    a.Keys == b.Keys && forall k :: k in a ==> b[k].stamp <= a[k].stamp
  }

  lemma BusyIsStored(a: map<Key, Bucket>, fullA: map<Key, Bucket>, b: map<Key, Bucket>, fullB: map<Key, Bucket>,
        now: real, t: real)
    requires Covers(a, fullA, now) && Covers(b, fullB, now) && NoNewer(fullA, fullB) && now <= t
    ensures Busy(b, t).Keys <= Busy(a, t).Keys
  {}

  /** Without the refused hit the table can be smaller, but it does not overflow where the other did not. */
  lemma NoNewOverflow(a: map<Key, Bucket>, fullA: map<Key, Bucket>, b: map<Key, Bucket>, fullB: map<Key, Bucket>,
                      max: nat, h: Hit, now: real)
    requires Covers(a, fullA, now) && Covers(b, fullB, now) && NoNewer(fullA, fullB) && now <= h.time
    requires |a| <= max && !Overflows(a, max, h)
    ensures !Overflows(b, max, h)
  {
    BusyIsStored(a, fullA, b, fullB, now, h.time);
    Fewer(Busy(b, h.time).Keys, Busy(a, h.time).Keys);
    Fewer(Busy(a, h.time).Keys, a.Keys);
    if h.key in a && h.key !in b {
      Fewer(Busy(b, h.time).Keys + {h.key}, a.Keys);
    }
  }

  lemma StaysWithin(table: map<Key, Bucket>, max: nat, h: Hit)
    requires |table| <= max && !Overflows(table, max, h)
    ensures |AfterBounded(table, max, h)| <= max
  {
    var pruned := Pruned(table, max, h);
    Fewer(Busy(table, h.time).Keys, table.Keys);
    assert h.limit > 0 ==> AfterBounded(table, max, h).Keys == pruned.Keys + {h.key};
  }

  lemma NoNewerStep(a: map<Key, Bucket>, b: map<Key, Bucket>, h: Hit)
    requires NoNewer(a, b)
    ensures NoNewer(After(a, h), After(b, h))
  {}

  lemma {:induction false} NoNewOverflows(a: map<Key, Bucket>, fullA: map<Key, Bucket>, b: map<Key, Bucket>,
                                          fullB: map<Key, Bucket>, max: nat, hits: seq<Hit>, now: real)
    requires Covers(a, fullA, now) && Covers(b, fullB, now) && NoNewer(fullA, fullB) && Sane(fullA, now)
    requires Sane(fullB, now)
    requires Ordered(hits, now) && |a| <= max && NeverOverflows(a, max, hits)
    ensures NeverOverflows(b, max, hits)
    decreases |hits|
  {
    if hits != [] {
      var h := hits[0];
      NoNewOverflow(a, fullA, b, fullB, max, h, now);
      CoversStep(a, fullA, max, h, now);
      CoversStep(b, fullB, max, h, now);
      NoNewerStep(fullA, fullB, h);
      AfterSane(fullA, h, now);
      AfterSane(fullB, h, now);
      StaysWithin(a, max, h);
      NoNewOverflows(AfterBounded(a, max, h), After(fullA, h), AfterBounded(b, max, h), After(fullB, h), max,
          hits[1..], h.time);
    }
  }

  /** In the limiter too, a refused hit can be taken out of a trace: that cannot bring about an overflow, and every
      later caller gets the same answer. */
  lemma LimiterForgetsRefusals(table: map<Key, Bucket>, max: nat, h: Hit, later: seq<Hit>, now: real)
    requires |table| <= max && Sane(table, now) && Ordered([h] + later, now) && !Admits(table, h)
    requires FixedLimit(later, h.key, h.limit) && NeverOverflows(table, max, [h] + later)
    ensures NeverOverflows(table, max, later)
    ensures WaitsBounded(table, max, [h] + later)[1..] == WaitsBounded(table, max, later)
  {
    var hits := [h] + later;
    assert hits[0] == h && hits[1..] == later;
    var after := After(table, h);
    AfterSane(table, h, now);
    SaneLater(table, now, h.time);
    Fewer(after.Keys, table.Keys);
    NoNewOverflows(after, after, table, table, max, later, h.time);
    PruningIsInvisible(after, after, max, later, h.time);
    PruningIsInvisible(table, table, max, later, h.time);
    RefusalsLeaveNoTrace(table, h, later);
  }
}
