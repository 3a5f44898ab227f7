/** The streaming scan of an XML part (app/core/xlsx_import.py): chunk by chunk with an overlap of 64 bytes. */
module XmlScan {
  newtype Byte = x: int | 0 <= x < 256

  const MAX_SHARED_STRINGS := 200_000
  const MAX_SHARED_STRINGS_BYTES := 24 * 1024 * 1024
  const OVERLAP: nat := 64

  /** `<!DOCTYPE` and `<!ENTITY`. */
  const DOCTYPE: seq<Byte> := [60, 33, 68, 79, 67, 84, 89, 80, 69]
  const ENTITY: seq<Byte> := [60, 33, 69, 78, 84, 73, 84, 89]

  datatype Verdict = Accepted | InvalidXml | TooLarge

  /** A byte order mark of UTF-16 or UTF-32; FF FE 00 00 is among those that start with FF FE. */
  predicate HasBom(w: seq<Byte>) {
    || (|w| >= 2 && ((w[0] == 255 && w[1] == 254) || (w[0] == 254 && w[1] == 255)))
    || (|w| >= 4 && w[0] == 0 && w[1] == 0 && w[2] == 254 && w[3] == 255)
  }

  predicate OccursAt(w: seq<Byte>, m: seq<Byte>, p: nat) {
    p + |m| <= |w| && forall i :: 0 <= i < |m| ==> w[p + i] == m[i]
  }

  /** `m in w` for byte strings. */
  predicate Contains(w: seq<Byte>, m: seq<Byte>) { OccursAt(w, m, 0) || (w != [] && Contains(w[1..], m)) }

  lemma {:induction false} ContainsWhere(w: seq<Byte>, m: seq<Byte>) returns (p: nat)
    requires Contains(w, m)
    ensures OccursAt(w, m, p)
  {
    p := 0;
    if !OccursAt(w, m, 0) {
      p := ContainsWhere(w[1..], m);
      p := p + 1;
    }
  }

  lemma {:induction false} ContainsAt(w: seq<Byte>, m: seq<Byte>, p: nat)
    requires m != [] && OccursAt(w, m, p)
    ensures Contains(w, m)
  {
    if p > 0 {
      ContainsAt(w[1..], m, p - 1);
    }
  }

  predicate HasMarker(w: seq<Byte>) { Contains(w, DOCTYPE) || Contains(w, ENTITY) }

  // ------------------------------------------------------------------ tags of shared strings

  predicate Word(b: Byte) { 48 <= b <= 57 || 65 <= b <= 90 || b == 95 || 97 <= b <= 122 }

  /** White space, a slash or a closing bracket. */
  predicate TagEndByte(b: Byte) { b == 32 || 9 <= b <= 13 || b == 47 || b == 62 }

  function WordEnd(w: seq<Byte>, p: nat): (e: nat)
    requires p <= |w|
    ensures p <= e <= |w| && forall i :: p <= i < e ==> Word(w[i])
    decreases |w| - p
  {
    if p < |w| && Word(w[p]) then WordEnd(w, p + 1) else p
  }

  /** The tag's name `si` and the byte behind it. */
  predicate NameAt(w: seq<Byte>, p: nat) { p + 2 < |w| && w[p] == 115 && w[p + 1] == 105 && TagEndByte(w[p + 2]) }

  /** Where the name stands in a tag at `p`: behind an optional prefix with a colon. */
  function NameStart(w: seq<Byte>, p: nat): (e: nat)
    requires p < |w|
    ensures p < e <= |w| + 1
  {
    var e := WordEnd(w, p + 1);
    if e > p + 1 && e < |w| && w[e] == 58 then e + 1 else p + 1
  }

  predicate TagAt(w: seq<Byte>, p: nat) { p < |w| && w[p] == 60 && NameAt(w, NameStart(w, p)) }

  function TagEnd(w: seq<Byte>, p: nat): (e: nat)
    requires TagAt(w, p)
    ensures p + 4 <= e <= |w|
  {
    NameStart(w, p) + 3
  }

  function Tags(w: seq<Byte>): set<nat> { set p: nat | p < |w| && TagAt(w, p) }

  /** The text of a tag: an optional prefix of word characters with a colon, the name, and the byte behind it. */
  function TagText(prefix: seq<Byte>, last: Byte): seq<Byte> {
    [60] + (if prefix == [] then [] else prefix + [58]) + [115, 105, last]
  }

  predicate AllWord(s: seq<Byte>) { forall i :: 0 <= i < |s| ==> Word(s[i]) }

  lemma {:induction false} WordEndIs(w: seq<Byte>, p: nat, e: nat)
    requires p <= e <= |w| && (forall i :: p <= i < e ==> Word(w[i])) && (e < |w| ==> !Word(w[e]))
    ensures WordEnd(w, p) == e
    decreases e - p
  {
    if p < e { WordEndIs(w, p + 1, e); }
  }

  lemma TagIsText(w: seq<Byte>, p: nat) returns (prefix: seq<Byte>, last: Byte)
    requires TagAt(w, p)
    ensures AllWord(prefix) && TagEndByte(last) && OccursAt(w, TagText(prefix, last), p)
    ensures TagEnd(w, p) == p + |TagText(prefix, last)|
  {
    var start := NameStart(w, p);
    prefix := if start == p + 1 then [] else w[p + 1..start - 1];
    last := w[start + 2];
  }

  lemma TextIsTag(w: seq<Byte>, p: nat, prefix: seq<Byte>, last: Byte)
    requires AllWord(prefix) && TagEndByte(last) && OccursAt(w, TagText(prefix, last), p)
    ensures TagAt(w, p) && TagEnd(w, p) == p + |TagText(prefix, last)|
  {
    var text := TagText(prefix, last);
    assert forall i :: 0 <= i < |text| ==> w[p + i] == text[i];
    if prefix == [] {
      assert |text| == 4 && w[p] == text[0];
      assert w[p + 1] == text[1] && w[p + 2] == text[2] && w[p + 3] == text[3] == last;
      WordEndIs(w, p + 1, p + 3);
      assert NameStart(w, p) == p + 1;
    } else {
      var e, n := p + 1 + |prefix|, |prefix|;
      assert text[n + 1] == 58 && text[n + 2] == 115 && text[n + 3] == 105 && text[n + 4] == last;
      assert w[e] == 58 && w[e + 1] == 115 && w[e + 2] == 105 && w[e + 3] == last;
      forall i | p + 1 <= i < e ensures Word(w[i]) { assert w[i] == text[i - p] == prefix[i - p - 1]; }
      WordEndIs(w, p + 1, e);
      assert |text| == n + 5 && w[p] == text[0] && NameStart(w, p) == e + 1;
    }
  }

  /** A tag is at a place exactly if such a text is there. */
  lemma TagAtIff(w: seq<Byte>, p: nat)
    ensures TagAt(w, p) <==>
      exists prefix, last :: AllWord(prefix) && TagEndByte(last) && OccursAt(w, TagText(prefix, last), p)
  {
    if TagAt(w, p) {
      var prefix, last := TagIsText(w, p);
    }
    if prefix, last :| AllWord(prefix) && TagEndByte(last) && OccursAt(w, TagText(prefix, last), p) {
      TextIsTag(w, p, prefix, last);
    }
  }

  /** No tag starts inside another one, so searching on behind a match misses nothing. */
  lemma TagsDoNotOverlap(w: seq<Byte>, p: nat, q: nat)
    requires TagAt(w, p) && p < q < TagEnd(w, p)
    ensures !TagAt(w, q)
  {
    var e := WordEnd(w, p + 1);
    if q < e {
      assert Word(w[q]);
    }
  }

  // ------------------------------------------------------------------ parts of a content

  lemma {:induction false} WordEndInside(w: seq<Byte>, n: nat, p: nat)
    requires p <= n <= |w|
    ensures WordEnd(w[..n], p) == if WordEnd(w, p) < n then WordEnd(w, p) else n
    decreases n - p
  {
    if p < n && Word(w[p]) {
      WordEndInside(w, n, p + 1);
    }
  }

  /** A tag is a matter of its own bytes: a prefix of the content has exactly the tags that end inside it. */
  lemma TagInPrefix(w: seq<Byte>, n: nat, p: nat)
    requires n <= |w|
    ensures TagAt(w[..n], p) <==> TagAt(w, p) && TagEnd(w, p) <= n
    ensures TagAt(w[..n], p) ==> TagEnd(w[..n], p) == TagEnd(w, p)
  {
    if p < n {
      WordEndInside(w, n, p + 1);
    }
  }

  lemma {:induction false} WordEndShift(w: seq<Byte>, base: nat, p: nat)
    requires base + p <= |w|
    ensures WordEnd(w[base..], p) + base == WordEnd(w, base + p)
    decreases |w| - p
  {
    if base + p < |w| && Word(w[base + p]) {
      WordEndShift(w, base, p + 1);
    }
  }

  lemma TagInSuffix(w: seq<Byte>, base: nat, p: nat)
    requires base <= |w|
    ensures TagAt(w[base..], p) <==> TagAt(w, base + p)
    ensures TagAt(w, base + p) ==> TagEnd(w[base..], p) + base == TagEnd(w, base + p)
  {
    if base + p < |w| {
      WordEndShift(w, base, p + 1);
    }
  }

  // ------------------------------------------------------------------ what the scan counts

  function All(chunks: seq<seq<Byte>>): seq<Byte> {
    if chunks == [] then [] else All(chunks[..|chunks| - 1]) + chunks[|chunks| - 1]
  }

  /** The last bytes of what came before. */
  function Base(n: nat): nat { if n > OVERLAP then n - OVERLAP else 0 }

  /** `window[-64:]`. */
  function CarryOver(window: seq<Byte>): seq<Byte> { window[Base(|window|)..] }

  /** The tags that end in a new chunk and start inside the window. */
  ghost function NewTags(before: seq<Byte>, chunk: seq<Byte>): set<nat> {
    set p: nat | p < |before + chunk| && TagAt(before + chunk, p) && TagEnd(before + chunk, p) > |before|
        && p >= Base(|before|)
  }

  ghost function Counted(chunks: seq<seq<Byte>>): set<nat> {
    if chunks == [] then {} else
      var before := chunks[..|chunks| - 1];
      Counted(before) + NewTags(All(before), chunks[|chunks| - 1])
  }

  lemma {:induction false} CountedAreTags(chunks: seq<seq<Byte>>)
    ensures Counted(chunks) <= Tags(All(chunks))
  {
    if chunks != [] {
      var before := chunks[..|chunks| - 1];
      CountedAreTags(before);
      assert All(chunks)[..|All(before)|] == All(before);
      forall p | p in Counted(before) ensures p in Tags(All(chunks)) {
        TagInPrefix(All(chunks), |All(before)|, p);
      }
    }
  }

  /** A tag of at most 65 bytes is counted, wherever the chunks end. */
  lemma {:induction false} ShortTagIsCounted(chunks: seq<seq<Byte>>, p: nat)
    requires TagAt(All(chunks), p) && TagEnd(All(chunks), p) - p <= OVERLAP + 1
    ensures p in Counted(chunks)
  {
    var before := chunks[..|chunks| - 1];
    assert All(chunks)[..|All(before)|] == All(before);
    TagInPrefix(All(chunks), |All(before)|, p);
    if TagEnd(All(chunks), p) <= |All(before)| {
      ShortTagIsCounted(before, p);
    }
  }

  ghost predicate ShortTags(w: seq<Byte>) { forall p :: p in Tags(w) ==> TagEnd(w, p) - p <= OVERLAP + 1 }

  /** Never more than there are, and exactly as many when every tag is at most 65 bytes long. */
  lemma CountedSize(chunks: seq<seq<Byte>>)
    ensures |Counted(chunks)| <= |Tags(All(chunks))|
    ensures ShortTags(All(chunks)) ==> Counted(chunks) == Tags(All(chunks))
  {
    CountedAreTags(chunks);
    Smaller(Counted(chunks), Tags(All(chunks)));
    if ShortTags(All(chunks)) {
      forall p | p in Tags(All(chunks)) ensures p in Counted(chunks) {
        ShortTagIsCounted(chunks, p);
      }
    }
  }

  lemma Smaller(a: set<nat>, b: set<nat>)
    requires a <= b
    ensures |a| <= |b|
  {
    assert b == a + (b - a);
  }

  // ------------------------------------------------------------------ one window

  ghost function WindowTags(window: seq<Byte>, carry: nat): set<nat> {
    set p: nat | p < |window| && TagAt(window, p) && TagEnd(window, p) > carry
  }

  ghost function Shifted(a: set<nat>, base: nat): set<nat> { set p | p in a :: p + base }

  lemma {:induction false} ShiftedSize(a: set<nat>, base: nat)
    ensures |Shifted(a, base)| == |a|
  {
    if a == {} {
      assert Shifted(a, base) == {};
    } else {
      var p :| p in a;
      ShiftedSize(a - {p}, base);
      ShiftedOne(a, p, base);
    }
  }

  lemma ShiftedOne(a: set<nat>, p: nat, base: nat)
    requires p in a
    ensures p + base !in Shifted(a - {p}, base)
    ensures Shifted(a, base) == Shifted(a - {p}, base) + {p + base}
  {
    forall q | q in a ensures q + base in Shifted(a - {p}, base) + {p + base} {
      assert q != p ==> q in a - {p};
    }
  }

  /** The window sees the new tags of the content. */
  lemma WindowCounts(before: seq<Byte>, chunk: seq<Byte>)
    ensures |WindowTags(CarryOver(before) + chunk, |CarryOver(before)|)| == |NewTags(before, chunk)|
  {
    var whole, n := before + chunk, |before|;
    assert before[Base(n)..] + chunk == whole[Base(n)..];
    ShiftedWindow(whole, n);
    assert NewTags(before, chunk) == EndingBehind(whole, n);
  }

  ghost function EndingBehind(whole: seq<Byte>, n: nat): set<nat> {
    set p: nat | p < |whole| && TagAt(whole, p) && TagEnd(whole, p) > n && p >= Base(n)
  }

  lemma ShiftedWindow(whole: seq<Byte>, n: nat)
    requires n <= |whole|
    ensures |WindowTags(whole[Base(n)..], n - Base(n))| == |EndingBehind(whole, n)|
  {
    ShiftedTags(whole, n);
    ShiftedSize(WindowTags(whole[Base(n)..], n - Base(n)), Base(n));
  }

  lemma ShiftedTags(whole: seq<Byte>, n: nat)
    requires n <= |whole|
    ensures EndingBehind(whole, n) == Shifted(WindowTags(whole[Base(n)..], n - Base(n)), Base(n))
  {
    forall q: nat
      ensures q in EndingBehind(whole, n) <==> q in Shifted(WindowTags(whole[Base(n)..], n - Base(n)), Base(n))
    {
      ShiftedTag(whole, n, q);
    }
  }

  lemma ShiftedTag(whole: seq<Byte>, n: nat, q: nat)
    requires n <= |whole|
    ensures q in EndingBehind(whole, n) <==> q in Shifted(WindowTags(whole[Base(n)..], n - Base(n)), Base(n))
  {
    if q >= Base(n) {
      WindowTag(whole, Base(n), n, q - Base(n));
    }
  }

  lemma WindowTag(whole: seq<Byte>, base: nat, n: nat, p: nat)
    requires base <= n <= |whole|
    ensures p in WindowTags(whole[base..], n - base) <==> TagAt(whole, base + p) && TagEnd(whole, base + p) > n
  {
    TagInSuffix(whole, base, p);
  }

  /** An occurrence in a part of the content is one in the content. */
  lemma OccursInPart(whole: seq<Byte>, from: nat, to: nat, m: seq<Byte>, p: nat)
    requires from <= to <= |whole|
    ensures OccursAt(whole[from..to], m, p) <==> OccursAt(whole, m, from + p) && from + p + |m| <= to
  {
    assert forall i :: 0 <= i < to - from ==> whole[from..to][i] == whole[from + i];
  }

  lemma PartContains(whole: seq<Byte>, from: nat, to: nat, m: seq<Byte>)
    requires from <= to <= |whole| && m != [] && Contains(whole[from..to], m)
    ensures Contains(whole, m)
  {
    var p := ContainsWhere(whole[from..to], m);
    OccursInPart(whole, from, to, m, p);
    ContainsAt(whole, m, from + p);
  }

  /** A short marker is in the content before, or in the window. */
  lemma MarkerInWindow(before: seq<Byte>, chunk: seq<Byte>, m: seq<Byte>)
    requires 0 < |m| <= OVERLAP + 1
    ensures Contains(before + chunk, m) <==> Contains(before, m) || Contains(CarryOver(before) + chunk, m)
  {
    var base, whole := Base(|before|), before + chunk;
    assert before[base..] + chunk == whole[base..|whole|] && before == whole[0..|before|];
    if Contains(before, m) { PartContains(whole, 0, |before|, m); }
    if Contains(whole[base..|whole|], m) { PartContains(whole, base, |whole|, m); }
    if Contains(whole, m) {
      var p := ContainsWhere(whole, m);
      if p + |m| <= |before| {
        OccursInPart(whole, 0, |before|, m, p);
        ContainsAt(before, m, p);
      } else {
        OccursInPart(whole, base, |whole|, m, p - base);
        ContainsAt(whole[base..|whole|], m, p - base);
      }
    }
  }

  // ------------------------------------------------------------------ the scan

  /** `any(marker in window)`. */
  method FindMarker(window: seq<Byte>, m: seq<Byte>) returns (found: bool)
    requires m != []
    ensures found == Contains(window, m)
  {
    var p := 0;
    while p < |window|
      invariant 0 <= p <= |window|
      invariant Contains(window, m) == Contains(window[p..], m)
    {
      assert window[p..][1..] == window[p + 1..];
      if p + |m| <= |window| && window[p..p + |m|] == m {
        assert forall i :: 0 <= i < |m| ==> window[p..][i] == window[p..p + |m|][i];
        return true;
      }
      NotHere(window, m, p);
      p := p + 1;
    }
    return false;
  }

  lemma NotHere(window: seq<Byte>, m: seq<Byte>, p: nat)
    requires p < |window| && !(p + |m| <= |window| && window[p..p + |m|] == m)
    ensures !OccursAt(window[p..], m, 0)
  {
    if OccursAt(window[p..], m, 0) {
      assert forall i :: 0 <= i < |m| ==> window[p..p + |m|][i] == window[p..][i];
    }
  }

  /** The matches of the tag pattern, left to right, that end behind the carry. */
  method CountTags(window: seq<Byte>, carry: nat) returns (n: nat)
    ensures n == |WindowTags(window, carry)|
  {
    n := 0;
    var p := 0;
    while p < |window|
      invariant 0 <= p <= |window|
      invariant n == |TagsBefore(window, carry, p)|
      decreases |window| - p
    {
      var next := p + 1;
      if TagAt(window, p) {
        next := TagEnd(window, p);
        if next > carry {
          n := n + 1;
        }
      }
      PassTag(window, carry, p, next);
      p := next;
    }
    assert TagsBefore(window, carry, p) == WindowTags(window, carry);
  }

  ghost function TagsBefore(window: seq<Byte>, carry: nat, p: nat): set<nat> {
    set q: nat | q in WindowTags(window, carry) && q < p
  }

  lemma PassTag(window: seq<Byte>, carry: nat, p: nat, next: nat)
    requires p < |window| && next == if TagAt(window, p) then TagEnd(window, p) else p + 1
    ensures |TagsBefore(window, carry, next)|
         == |TagsBefore(window, carry, p)| + if TagAt(window, p) && next > carry then 1 else 0
  {
    if TagAt(window, p) {
      forall q | p < q < next ensures !TagAt(window, q) {
        TagsDoNotOverlap(window, p, q);
      }
    }
    PassSets(window, carry, p, next);
    if p in WindowTags(window, carry) {
      assert p !in TagsBefore(window, carry, p);
    }
  }

  lemma PassSets(window: seq<Byte>, carry: nat, p: nat, next: nat)
    requires p < next && forall q :: p < q < next ==> !TagAt(window, q)
    ensures TagsBefore(window, carry, next)
        == TagsBefore(window, carry, p) + if p in WindowTags(window, carry) then {p} else {}
  {}

  ghost predicate Clean(chunks: seq<seq<Byte>>) {
    (chunks != [] ==> !HasBom(chunks[0])) && !HasMarker(All(chunks))
  }

  ghost predicate Small(chunks: seq<seq<Byte>>) {
    |All(chunks)| <= MAX_SHARED_STRINGS_BYTES && |Counted(chunks)| <= MAX_SHARED_STRINGS
  }

  lemma AllOf(before: seq<seq<Byte>>, chunk: seq<Byte>)
    ensures All(before + [chunk]) == All(before) + chunk
  {
    var after := before + [chunk];
    assert after[..|after| - 1] == before;
  }

  /** One more chunk is clean exactly when it passes the checks the loop makes on it. */
  lemma CleanStep(before: seq<seq<Byte>>, chunk: seq<Byte>)
    ensures var window := CarryOver(All(before)) + chunk;
      Clean(before + [chunk]) <==> Clean(before) && (before == [] ==> !HasBom(chunk)) && !HasMarker(window)
  {
    AllOf(before, chunk);
    MarkerInWindow(All(before), chunk, DOCTYPE);
    MarkerInWindow(All(before), chunk, ENTITY);
    assert (before + [chunk])[0] == if before == [] then chunk else before[0];
  }

  lemma CarryStep(before: seq<seq<Byte>>, chunk: seq<Byte>)
    ensures CarryOver(CarryOver(All(before)) + chunk) == CarryOver(All(before + [chunk]))
  {
    AllOf(before, chunk);
  }

  lemma OneMore(chunks: seq<seq<Byte>>, i: nat)
    requires i < |chunks|
    ensures chunks[..i + 1] == chunks[..i] + [chunks[i]]
  {}

  // ---- what the loop's variables hold after `i` chunks

  ghost function CarryAfter(chunks: seq<seq<Byte>>, i: nat): seq<Byte>
    requires i <= |chunks|
  {
    if i == 0 then [] else CarryOver(CarryAfter(chunks, i - 1) + chunks[i - 1])
  }

  ghost predicate CleanAfter(chunks: seq<seq<Byte>>, i: nat)
    requires i <= |chunks|
  {
    i == 0 || (&& CleanAfter(chunks, i - 1) && (i == 1 ==> !HasBom(chunks[0]))
               && !HasMarker(CarryAfter(chunks, i - 1) + chunks[i - 1]))
  }

  ghost function SizeAfter(chunks: seq<seq<Byte>>, i: nat): nat
    requires i <= |chunks|
  {
    if i == 0 then 0 else SizeAfter(chunks, i - 1) + |chunks[i - 1]|
  }

  ghost function StringsAfter(chunks: seq<seq<Byte>>, i: nat): nat
    requires i <= |chunks|
  {
    if i == 0 then 0
    else
      var carry := CarryAfter(chunks, i - 1);
      StringsAfter(chunks, i - 1) + |WindowTags(carry + chunks[i - 1], |carry|)|
  }

  lemma {:induction false} AfterPrefix(chunks: seq<seq<Byte>>, i: nat)
    requires i <= |chunks|
    ensures CarryAfter(chunks, i) == CarryOver(All(chunks[..i])) && CleanAfter(chunks, i) == Clean(chunks[..i])
    ensures SizeAfter(chunks, i) == |All(chunks[..i])| && StringsAfter(chunks, i) == |Counted(chunks[..i])|
  {
    if i > 0 {
      var before, chunk := chunks[..i - 1], chunks[i - 1];
      AfterPrefix(chunks, i - 1);
      OneMore(chunks, i - 1);
      CleanStep(before, chunk);
      CountStep(before, chunk, CarryOver(All(before)));
      CarryStep(before, chunk);
    }
  }

  lemma {:induction false} OnlyGrows(chunks: seq<seq<Byte>>, i: nat, j: nat)
    requires i <= j <= |chunks|
    ensures CleanAfter(chunks, j) ==> CleanAfter(chunks, i)
    ensures SizeAfter(chunks, i) <= SizeAfter(chunks, j) && StringsAfter(chunks, i) <= StringsAfter(chunks, j)
    decreases j
  {
    if i < j {
      OnlyGrows(chunks, i, j - 1);
    }
  }

  /** A rejection after some chunks is a rejection of the whole. */
  lemma EarlyVerdict(chunks: seq<seq<Byte>>, i: nat)
    requires i <= |chunks|
    ensures !CleanAfter(chunks, i) ==> !Clean(chunks)
    ensures SizeAfter(chunks, i) > MAX_SHARED_STRINGS_BYTES || StringsAfter(chunks, i) > MAX_SHARED_STRINGS ==>
        !Small(chunks)
  {
    OnlyGrows(chunks, i, |chunks|);
    AfterPrefix(chunks, |chunks|);
    assert chunks[..|chunks|] == chunks;
  }

  /** Passing all chunks is passing as a whole. */
  lemma FinalVerdict(chunks: seq<seq<Byte>>)
    ensures CleanAfter(chunks, |chunks|) ==> Clean(chunks)
    ensures var n := |chunks|;
      SizeAfter(chunks, n) <= MAX_SHARED_STRINGS_BYTES && StringsAfter(chunks, n) <= MAX_SHARED_STRINGS ==>
        Small(chunks)
  {
    AfterPrefix(chunks, |chunks|);
    assert chunks[..|chunks|] == chunks;
  }

  /** Accepted exactly when the first chunk has no byte order mark, the whole content has no forbidden marker, and, for
      shared strings, its size and its counted tags are within the limits. */
  method Scan(chunks: seq<seq<Byte>>, countStrings: bool) returns (verdict: Verdict)
    requires forall i :: 0 <= i < |chunks| ==> |chunks[i]| > 0
    ensures verdict == Accepted <==> Clean(chunks) && (countStrings ==> Small(chunks))
    ensures verdict == InvalidXml ==> !Clean(chunks)
    ensures verdict == TooLarge ==> countStrings && !Small(chunks)
  {
    var carry: seq<Byte> := [];
    var first, size, strings := true, 0, 0;
    var i := 0;
    while i < |chunks|
      invariant 0 <= i <= |chunks|
      invariant first <==> i == 0
      invariant CleanAfter(chunks, i) && carry == CarryAfter(chunks, i)
      invariant countStrings ==> size == SizeAfter(chunks, i) <= MAX_SHARED_STRINGS_BYTES
      invariant countStrings ==> strings == StringsAfter(chunks, i) <= MAX_SHARED_STRINGS
    {
      var chunk := chunks[i];
      EarlyVerdict(chunks, i + 1);
      if first {
        first := false;
        if HasBom(chunk) {
          return InvalidXml;
        }
      }
      var window := carry + chunk;
      var doctype := FindMarker(window, DOCTYPE);
      var entity := FindMarker(window, ENTITY);
      if doctype || entity {
        return InvalidXml;
      }
      if countStrings {
        size := size + |chunk|;
        var more := CountTags(window, |carry|);
        strings := strings + more;
        if size > MAX_SHARED_STRINGS_BYTES || strings > MAX_SHARED_STRINGS {
          return TooLarge;
        }
      }
      carry := CarryOver(window);
      i := i + 1;
    }
    FinalVerdict(chunks);
    return Accepted;
  }

  lemma CountStep(before: seq<seq<Byte>>, chunk: seq<Byte>, carry: seq<Byte>)
    requires carry == CarryOver(All(before))
    ensures |All(before + [chunk])| == |All(before)| + |chunk|
    ensures |Counted(before + [chunk])| == |Counted(before)| + |WindowTags(carry + chunk, |carry|)|
  {
    AllOf(before, chunk);
    CountedGrows(before, chunk);
    WindowCounts(All(before), chunk);
  }

  /** The new tags are none of those counted before. */
  lemma CountedGrows(before: seq<seq<Byte>>, chunk: seq<Byte>)
    ensures |Counted(before + [chunk])| == |Counted(before)| + |NewTags(All(before), chunk)|
  {
    var after := before + [chunk];
    assert after[..|after| - 1] == before;
    CountedAreTags(before);
    assert (All(before) + chunk)[..|All(before)|] == All(before);
    forall p | p in Counted(before) ensures p !in NewTags(All(before), chunk) {
      TagInPrefix(All(before) + chunk, |All(before)|, p);
    }
    assert Counted(before) !! NewTags(All(before), chunk);
  }

  // ------------------------------------------------------------------ independence of the chunks

  /** What the scan of the whole content would decide. */
  ghost predicate Acceptable(content: seq<Byte>, countStrings: bool) {
    && !HasBom(content) && !HasMarker(content)
    && (countStrings ==> |content| <= MAX_SHARED_STRINGS_BYTES && |Tags(content)| <= MAX_SHARED_STRINGS)
  }

  lemma {:induction false} FirstChunk(chunks: seq<seq<Byte>>)
    requires chunks != []
    ensures |chunks[0]| <= |All(chunks)| && All(chunks)[..|chunks[0]|] == chunks[0]
  {
    if |chunks| > 1 {
      FirstChunk(chunks[..|chunks| - 1]);
    } else {
      assert chunks[..0] == [];
    }
  }

  lemma BomInFirst(chunks: seq<seq<Byte>>)
    requires chunks != [] && (|chunks[0]| >= 4 || |chunks| == 1)
    ensures HasBom(chunks[0]) <==> HasBom(All(chunks))
  {
    FirstChunk(chunks);
    if |chunks| == 1 {
      assert chunks[..0] == [];
      assert All(chunks) == chunks[0];
    } else {
      assert forall i :: 0 <= i < |chunks[0]| ==> All(chunks)[i] == chunks[0][i];
    }
  }

  /** However the content is cut into chunks, the scan accepts exactly what the whole content deserves, provided the
      first chunk can hold a byte order mark and, where tags are counted, no tag is longer than 65 bytes. */
  lemma ChunkingIsInvisible(chunks: seq<seq<Byte>>, countStrings: bool)
    requires chunks != [] ==> |chunks[0]| >= 4 || |chunks| == 1
    requires countStrings ==> ShortTags(All(chunks))
    ensures Clean(chunks) && (countStrings ==> Small(chunks)) <==> Acceptable(All(chunks), countStrings)
  {
    CountedSize(chunks);
    if chunks != [] {
      BomInFirst(chunks);
    }
  }

  /** With longer tags the scan can only be more lenient, never stricter. */
  lemma NeverStricter(chunks: seq<seq<Byte>>, countStrings: bool)
    requires chunks != [] ==> |chunks[0]| >= 4 || |chunks| == 1
    requires Acceptable(All(chunks), countStrings)
    ensures Clean(chunks) && (countStrings ==> Small(chunks))
  {
    CountedSize(chunks);
    if chunks != [] {
      BomInFirst(chunks);
    }
  }

  /** A longer tag is missed when the chunks are cut just before its last byte. */
  lemma LongTagIsMissed(content: seq<Byte>, p: nat)
    requires TagAt(content, p) && TagEnd(content, p) - p > OVERLAP + 1
    ensures var cut := TagEnd(content, p) - 1; var chunks := [content[..cut], content[cut..]];
      All(chunks) == content && p !in Counted(chunks)
  {
    var cut := TagEnd(content, p) - 1;
    var first, second := [content[..cut]], content[cut..];
    assert [content[..cut], second] == first + [second];
    assert content[..cut] + second == content;
    AllOf([], content[..cut]);
    assert [] + [content[..cut]] == first;
    assert All(first) == content[..cut];
    AllOf(first, second);
    assert (first + [second])[..1] == first;
    CountedAreTags(first);
    TagInPrefix(content, cut, p);
  }

  /** A tag is counted under every way of cutting the content exactly when it has at most 65 bytes. */
  lemma CountedWheneverShort(content: seq<Byte>, p: nat)
    requires TagAt(content, p)
    ensures (forall chunks :: All(chunks) == content ==> p in Counted(chunks)) <==>
        TagEnd(content, p) - p <= OVERLAP + 1
  {
    if TagEnd(content, p) - p <= OVERLAP + 1 {
      forall chunks | All(chunks) == content ensures p in Counted(chunks) {
        ShortTagIsCounted(chunks, p);
      }
    } else {
      LongTagIsMissed(content, p);
    }
  }
}
