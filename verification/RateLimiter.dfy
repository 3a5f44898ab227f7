/** The limiter object of app/core/ratelimit.py: its table, `hit` and `_prune`. */
module RateLimiterObject {
  import opened RateLimit

  lemma Removed<K, V>(m: map<K, V>, k: K)
    requires k in m
    ensures |m - {k}| == |m| - 1
  {
    assert (m - {k}).Keys == m.Keys - {k};
    assert |m.Keys - {k}| == |m.Keys| - 1;
  }

  lemma FewerKeys(a: map<Key, Bucket>, b: map<Key, Bucket>)
    requires a.Keys <= b.Keys
    ensures |a| <= |b|
  {
    assert b.Keys == a.Keys + (b.Keys - a.Keys);
  }

  class RateLimiter {
    const max: nat
    var buckets: map<Key, Bucket>

    constructor (max: nat)
      ensures this.max == max && buckets == map[]
    {
      this.max, buckets := max, map[];
    }

    /** The first loop of `_prune`. */
    method DropIdle(now: real)
      modifies this
      ensures buckets == Busy(old(buckets), now)
    {
      var rest := buckets.Keys;
      while rest != {}
        invariant rest <= buckets.Keys <= old(buckets).Keys
        invariant forall k :: k in buckets ==> buckets[k] == old(buckets)[k]
        invariant forall k :: k in old(buckets) && k !in rest ==>
            (k in buckets <==> now - old(buckets)[k].stamp < FULL_REFILL_SEC)
        decreases |rest|
      {
        var k :| k in rest;
        rest := rest - {k};
        if now - buckets[k].stamp >= FULL_REFILL_SEC {
          buckets := buckets - {k};
        }
      }
    }

    method Oldest() returns (k: Key)
      requires buckets != map[]
      ensures k in buckets && forall l :: l in buckets ==> buckets[k].stamp <= buckets[l].stamp
    {
      k :| k in buckets;
      var rest := buckets.Keys - {k};
      while rest != {}
        invariant rest <= buckets.Keys && k in buckets
        invariant forall l :: l in buckets && l !in rest ==> buckets[k].stamp <= buckets[l].stamp
        decreases |rest|
      {
        var l :| l in rest;
        rest := rest - {l};
        if buckets[l].stamp < buckets[k].stamp {
          k := l;
        }
      }
    }

    /** The second loop of `_prune`: the oldest tenth, one at least. */
    method DropOldest(n: nat)
      modifies this
      ensures OldestRemoved(old(buckets), buckets, Least(n, |old(buckets)|))
    {
      var i := 0;
      while i < n && buckets != map[]
        invariant 0 <= i <= n && i <= |old(buckets)|
        invariant OldestRemoved(old(buckets), buckets, i)
        decreases n - i
      {
        var k := Oldest();
        Removed(buckets, k);
        buckets := buckets - {k};
        i := i + 1;
      }
    }

    method Prune(now: real)
      modifies this
      ensures |old(buckets)| < max ==> buckets == old(buckets)
      ensures |old(buckets)| >= max && |Busy(old(buckets), now)| < max ==> buckets == Busy(old(buckets), now)
      ensures |old(buckets)| >= max && |Busy(old(buckets), now)| >= max ==>
        OldestRemoved(Busy(old(buckets), now), buckets, Least(Tenth(max), |Busy(old(buckets), now)|))
    {
      if |buckets| < max {
        return;
      }
      DropIdle(now);
      if |buckets| >= max {
        DropOldest(if max / 10 > 1 then max / 10 else 1);
      }
    }

    /** A fresh bucket, or the stored one with what the elapsed time has added. */
    method Current(key: Key, perMinute: int, now: real) returns (bucket: Bucket)
      requires perMinute > 0
      ensures bucket == Bucket(Level(buckets, RateLimit.Hit(key, perMinute, now)), now)
    {
      if key !in buckets {
        return Bucket(perMinute as real, now);
      }
      var b := buckets[key];
      EarnedIsRate(perMinute, now - b.stamp);
      bucket := Bucket(Min(perMinute as real, b.tokens + (now - b.stamp) * Rate(perMinute)), now);
    }

    /** A hit is one turn of the limiter, and the table never grows past `max`. */
    method Hit(key: Key, perMinute: int, now: real) returns (wait: real, ghost turn: Turn)
      modifies this
      ensures turn.hit == RateLimit.Hit(key, perMinute, now) && LimiterTurn(old(buckets), max, turn)
      ensures wait == Wait(old(buckets) - turn.gone, turn.hit)
      ensures buckets == AfterTurn(old(buckets), turn)
      ensures max >= 1 && |old(buckets)| <= max ==> |buckets| <= max
    {
      ghost var before, h := buckets, RateLimit.Hit(key, perMinute, now);
      if perMinute <= 0 {
        turn := Nothing(before, max, h);
        return 0.0, turn;
      }
      if key in buckets {
        turn := Nothing(before, max, h);
      } else {
        Prune(now);
        turn := Dropped(before, buckets, max, h);
        Room(before, buckets, max, now);
      }
      var bucket := Current(key, perMinute, now);
      Fits(buckets, key, bucket, max);
      HitIs(buckets, h, bucket);
      if bucket.tokens >= 1.0 {
        buckets := buckets[key := bucket.(tokens := bucket.tokens - 1.0)];
        return 0.0, turn;
      }
      buckets := buckets[key := bucket];
      return (1.0 - bucket.tokens) / Rate(perMinute), turn;
    }
  }

  lemma Untouched(table: map<Key, Bucket>)
    ensures table - {} == table
  {}

  lemma Nothing(before: map<Key, Bucket>, max: nat, h: Hit) returns (turn: Turn)
    requires h.limit <= 0 || h.key in before
    ensures turn.hit == h && before - turn.gone == before && LimiterTurn(before, max, turn)
  {
    turn := Turn(h, {});
    Untouched(before);
  }

  /** After pruning there is room for one more. */
  lemma Room(before: map<Key, Bucket>, after: map<Key, Bucket>, max: nat, now: real)
    requires |before| < max ==> after == before
    requires |before| >= max && |Busy(before, now)| < max ==> after == Busy(before, now)
    requires |before| >= max && |Busy(before, now)| >= max ==>
      OldestRemoved(Busy(before, now), after, Least(Tenth(max), |Busy(before, now)|))
    ensures max >= 1 && |before| <= max ==> |after| < max
  {
    FewerKeys(Busy(before, now), before);
  }

  /** What `_prune` leaves is what the turn keeps. */
  lemma Dropped(before: map<Key, Bucket>, after: map<Key, Bucket>, max: nat, h: Hit) returns (turn: Turn)
    requires h.key !in before && h.limit > 0
    requires |before| < max ==> after == before
    requires |before| >= max && |Busy(before, h.time)| < max ==> after == Busy(before, h.time)
    requires |before| >= max && |Busy(before, h.time)| >= max ==>
      OldestRemoved(Busy(before, h.time), after, Least(Tenth(max), |Busy(before, h.time)|))
    ensures turn.hit == h && before - turn.gone == after && LimiterTurn(before, max, turn)
  {
    turn := if |before| < max then Turn(h, {}) else Turn(h, before.Keys - after.Keys);
    if |before| < max {
      Untouched(before);
    } else {
      Kept(before, after);
    }
  }

  lemma Kept(before: map<Key, Bucket>, after: map<Key, Bucket>)
    requires after.Keys <= before.Keys && forall k :: k in after ==> after[k] == before[k]
    ensures before - (before.Keys - after.Keys) == after
  {}

  lemma HitIs(table: map<Key, Bucket>, h: Hit, bucket: Bucket)
    requires h.limit > 0 && bucket == Bucket(Level(table, h), h.time)
    ensures bucket.tokens >= 1.0 ==>
      Wait(table, h) == 0.0 && After(table, h) == table[h.key := bucket.(tokens := bucket.tokens - 1.0)]
    ensures bucket.tokens < 1.0 ==>
      Wait(table, h) == (1.0 - bucket.tokens) / Rate(h.limit) && After(table, h) == table[h.key := bucket]
  {}

  lemma Fits(table: map<Key, Bucket>, key: Key, bucket: Bucket, max: nat)
    ensures |table[key := bucket]| == if key in table then |table| else |table| + 1
  {
    assert table[key := bucket].Keys == table.Keys + {key};
  }
}
