/** ULIDs (app/control/ids.py): 48 bits of time and 80 random bits in Crockford base 32, strictly increasing within a
    process. */
module Ulid {
  const ALPHABET := "0123456789ABCDEFGHJKMNPQRSTVWXYZ"

  const RAND_LIMIT: nat := Pow32(16)

  function Pow32(n: nat): (r: nat)
    ensures r > 0
  {
    if n == 0 then 1 else 32 * Pow32(n - 1)
  }

  /** String comparison as Python and SQL do it for strings of one length. */
  predicate Less(a: string, b: string)
    requires |a| == |b|
  {
    a != [] && (a[0] < b[0] || (a[0] == b[0] && Less(a[1..], b[1..])))
  }

  // ------------------------------------------------------------------ encoding

  /** The `length` low base-32 digits, most significant first. */
  function Encoded(value: nat, length: nat): (s: string)
    ensures |s| == length
  {
    if length == 0 then "" else Encoded(value / 32, length - 1) + [ALPHABET[value % 32]]
  }

  function Reversed(s: string): (r: string)
    ensures |r| == |s|
  {
    if s == "" then "" else Reversed(s[1..]) + [s[0]]
  }

  /** The loop of `_encode`: digits are appended from the lowest, then the list is reversed. */
  method Encode(value: nat, length: nat) returns (s: string)
    ensures s == Encoded(value, length)
  {
    var chars, rest := "", value;
    for i := 0 to length
      invariant |chars| == i
      invariant Encoded(value, length) == Encoded(rest, length - i) + Reversed(chars)
    {
      ghost var before := chars;
      chars := chars + [ALPHABET[rest % 32]];
      ReversedAppend(before, ALPHABET[rest % 32]);
      assert Encoded(rest, length - i) + Reversed(before)
          == Encoded(rest / 32, length - i - 1) + ([ALPHABET[rest % 32]] + Reversed(before));
      rest := rest / 32;
    }
    s := Reversed(chars);
    assert Encoded(value, length) == s;
  }

  lemma {:induction false} ReversedAppend(s: string, c: char)
    ensures Reversed(s + [c]) == [c] + Reversed(s)
  {
    if s == "" {
      assert s + [c] == [c] && [c][1..] == "";
    } else {
      assert (s + [c])[1..] == s[1..] + [c];
      ReversedAppend(s[1..], c);
    }
  }

  lemma AlphabetOrder(i: nat, j: nat)
    requires i < j < 32
    ensures ALPHABET[i] < ALPHABET[j]
  {}

  lemma {:induction false} LessAppend(a: string, b: string, x: char, y: char)
    requires |a| == |b|
    ensures Less(a + [x], b + [y]) <==> Less(a, b) || (a == b && x < y)
  {
    if a == "" {
      assert (a + [x])[1..] == "" && (b + [y])[1..] == "";
    } else {
      assert (a + [x])[1..] == a[1..] + [x] && (b + [y])[1..] == b[1..] + [y];
      LessAppend(a[1..], b[1..], x, y);
      assert a == b <==> a[0] == b[0] && a[1..] == b[1..];
    }
  }

  /** Fixed-length encoding keeps the order of the numbers that fit, and so never maps two of them to one string. */
  lemma {:induction false} EncodingKeepsOrder(a: nat, b: nat, length: nat)
    requires a < Pow32(length) && b < Pow32(length)
    ensures Less(Encoded(a, length), Encoded(b, length)) <==> a < b
    ensures Encoded(a, length) == Encoded(b, length) <==> a == b
  {
    if length > 0 {
      EncodingKeepsOrder(a / 32, b / 32, length - 1);
      var x, y := ALPHABET[a % 32], ALPHABET[b % 32];
      LessAppend(Encoded(a / 32, length - 1), Encoded(b / 32, length - 1), x, y);
      if a % 32 < b % 32 { AlphabetOrder(a % 32, b % 32); }
      if b % 32 < a % 32 { AlphabetOrder(b % 32, a % 32); }
      Tails(Encoded(a / 32, length - 1), Encoded(b / 32, length - 1), x, y);
    }
  }

  lemma Tails(a: string, b: string, x: char, y: char)
    ensures a + [x] == b + [y] <==> a == b && x == y
  {
    if a + [x] == b + [y] {
      assert a == (a + [x])[..|a|] && b == (b + [y])[..|b|];
      assert x == (a + [x])[|a|] && y == (b + [y])[|b|];
    }
  }

  lemma {:induction false} LessJoin(a: string, b: string, c: string, d: string)
    requires |a| == |b| && |c| == |d|
    ensures Less(a + c, b + d) <==> Less(a, b) || (a == b && Less(c, d))
  {
    if a == "" {
      assert a + c == c && b + d == d;
    } else {
      assert (a + c)[1..] == a[1..] + c && (b + d)[1..] == b[1..] + d;
      LessJoin(a[1..], b[1..], c, d);
      assert a == b <==> a[0] == b[0] && a[1..] == b[1..];
    }
  }

  // ------------------------------------------------------------------ identifiers

  function Text(ms: nat, rand: nat): (s: string)
    ensures |s| == 26
  {
    Encoded(ms, 10) + Encoded(rand, 16)
  }

  /** (time, random) pairs order as their texts do, for times below 2^50 ms and random parts below 2^80. */
  lemma TextKeepsOrder(ms: nat, rand: nat, ms2: nat, rand2: nat)
    requires ms < Pow32(10) && ms2 < Pow32(10) && rand < RAND_LIMIT && rand2 < RAND_LIMIT
    ensures Less(Text(ms, rand), Text(ms2, rand2)) <==> ms < ms2 || (ms == ms2 && rand < rand2)
    ensures Text(ms, rand) == Text(ms2, rand2) <==> ms == ms2 && rand == rand2
  {
    EncodingKeepsOrder(ms, ms2, 10);
    EncodingKeepsOrder(rand, rand2, 16);
    LessJoin(Encoded(ms, 10), Encoded(ms2, 10), Encoded(rand, 16), Encoded(rand2, 16));
    if Text(ms, rand) == Text(ms2, rand2) {
      assert Encoded(ms, 10) == Text(ms, rand)[..10] && Encoded(ms2, 10) == Text(ms2, rand2)[..10];
      assert Encoded(rand, 16) == Text(ms, rand)[10..] && Encoded(rand2, 16) == Text(ms2, rand2)[10..];
    }
  }

  /** One call: the clock reading, and the random numbers of 79 and 80 bits it may draw. */
  datatype Draw = Draw(nowMs: nat, low: nat, high: nat)

  predicate Drawn(d: Draw) { d.low < RAND_LIMIT / 2 && d.high < RAND_LIMIT }

  datatype Last = Last(ms: int, rand: nat)

  /** Later in time, or later within the same millisecond. */
  predicate Later(a: Last, b: Last) { a.ms < b.ms || (a.ms == b.ms && a.rand < b.rand) }

  function Advance(last: Last, d: Draw): Last {
    if d.nowMs > last.ms then Last(d.nowMs, d.low)
    else if last.rand + 1 < RAND_LIMIT then Last(last.ms, last.rand + 1)
    else Last(last.ms + 1, d.high)
  }

  /** The identifiers of a series of calls. */
  function Ids(last: Last, draws: seq<Draw>): (ids: seq<string>)
    requires last.ms >= -1
    ensures |ids| == |draws| && forall i :: 0 <= i < |ids| ==> |ids[i]| == 26
    decreases |draws|
  {
    if draws == [] then []
    else
      var next := Advance(last, draws[0]);
      [Text(next.ms, next.rand)] + Ids(next, draws[1..])
  }

  /** Readings stay below 2^50 ms, with room for the calls to come. */
  ghost predicate InRange(last: Last, draws: seq<Draw>) {
    && -1 <= last.ms && last.ms + |draws| < Pow32(10) && last.rand < RAND_LIMIT
    && forall i :: 0 <= i < |draws| ==> Drawn(draws[i]) && draws[i].nowMs + |draws| < Pow32(10)
  }

  lemma {:induction false} IdsAreLater(last: Last, draws: seq<Draw>, i: nat)
    requires InRange(last, draws) && last.ms >= 0 && i < |draws|
    ensures Less(Text(last.ms, last.rand), Ids(last, draws)[i])
    decreases |draws|
  {
    var next := Advance(last, draws[0]);
    TextKeepsOrder(last.ms, last.rand, next.ms, next.rand);
    if i > 0 {
      IdsAreLater(next, draws[1..], i - 1);
      LessTransitive(Text(last.ms, last.rand), Text(next.ms, next.rand), Ids(last, draws)[i]);
    }
  }

  lemma {:induction false} LessTransitive(a: string, b: string, c: string)
    requires |a| == |b| == |c| && Less(a, b) && Less(b, c)
    ensures Less(a, c)
  {
    if a[0] == b[0] && b[0] == c[0] {
      LessTransitive(a[1..], b[1..], c[1..]);
    }
  }

  /** Any series of calls, with clocks that stand still or go back and random parts that overflow, gives strictly
      increasing strings. */
  lemma {:induction false} IdsIncrease(last: Last, draws: seq<Draw>, i: nat, j: nat)
    requires InRange(last, draws) && i < j < |draws|
    ensures Less(Ids(last, draws)[i], Ids(last, draws)[j])
    decreases |draws|
  {
    var next := Advance(last, draws[0]);
    if i == 0 {
      IdsAreLater(next, draws[1..], j - 1);
      assert Ids(last, draws)[0] == Text(next.ms, next.rand);
    } else {
      IdsIncrease(next, draws[1..], i - 1, j - 1);
      assert Ids(last, draws)[i] == Ids(next, draws[1..])[i - 1];
    }
  }

  // ------------------------------------------------------------------ the time in an identifier

  /** The generator's state after a series of calls. */
  function LastAfter(last: Last, draws: seq<Draw>): Last
    decreases |draws|
  {
    if draws == [] then last else LastAfter(Advance(last, draws[0]), draws[1..])
  }

  lemma {:induction false} IdAt(last: Last, draws: seq<Draw>, i: nat)
    requires last.ms >= -1 && i < |draws|
    ensures var now := LastAfter(last, draws[..i + 1]);
      now.ms >= 0 && Ids(last, draws)[i] == Text(now.ms, now.rand)
    decreases i
  {
    var next := Advance(last, draws[0]);
    assert draws[..i + 1][0] == draws[0] && draws[..i + 1][1..] == draws[1..][..i];
    if i == 0 {
      assert draws[1..][..0] == [];
    } else {
      IdAt(next, draws[1..], i - 1);
    }
  }

  /** The time of an identifier is no earlier than any clock reading so far, and ahead of all of them by no more than
      the number of calls. */
  lemma {:induction false} TimeIsRecent(last: Last, draws: seq<Draw>, top: int)
    requires forall i :: 0 <= i < |draws| ==> draws[i].nowMs <= top
    requires last.ms <= top
    ensures last.ms <= LastAfter(last, draws).ms <= top + |draws|
    ensures forall i :: 0 <= i < |draws| ==> draws[i].nowMs <= LastAfter(last, draws).ms
    decreases |draws|
  {
    if draws != [] {
      var next := Advance(last, draws[0]);
      var most := if next.ms <= top then top else top + 1;
      TimeIsRecent(next, draws[1..], most);
      TimeCounts(next, draws[1..], top);
    }
  }

  lemma {:induction false} TimeCounts(last: Last, draws: seq<Draw>, top: int)
    requires forall i :: 0 <= i < |draws| ==> draws[i].nowMs <= top
    ensures LastAfter(last, draws).ms <= (if last.ms <= top then top else last.ms) + |draws|
    decreases |draws|
  {
    if draws != [] {
      TimeCounts(Advance(last, draws[0]), draws[1..], top);
    }
  }

  /** A reading that is later than the generator's time is shown as it is, with its own random part. */
  lemma ClockIsShown(last: Last, d: Draw)
    requires last.ms >= -1 && d.nowMs > last.ms
    ensures Ids(last, [d])[0] == Text(d.nowMs, d.low)
  {}

  class Generator {
    var lastMs: int
    var lastRand: nat

    constructor ()
      ensures Valid() && State() == Last(-1, 0)
    {
      lastMs, lastRand := -1, 0;
    }

    ghost function State(): Last
      reads this
    {
      Last(lastMs, lastRand)
    }

    ghost predicate Valid()
      reads this
    {
      lastMs >= -1 && lastRand < RAND_LIMIT
    }

    /** One identifier; the state moves on, also when the clock does not. */
    method NewUlid(d: Draw) returns (id: string)
      requires Valid() && Drawn(d)
      modifies this
      ensures Valid() && State() == Advance(old(State()), d) && Later(old(State()), State())
      ensures lastMs >= 0 && id == Text(lastMs, lastRand)
    {
      var ms: int := d.nowMs;
      if ms <= lastMs {
        ms := lastMs;
        lastRand := lastRand + 1;
        if lastRand >= RAND_LIMIT {
          ms := ms + 1;
          lastRand := d.high;
        }
      } else {
        lastRand := d.low;
      }
      lastMs := ms;
      var time := Encode(ms, 10);
      var rand := Encode(lastRand, 16);
      id := time + rand;
    }
  }
}
