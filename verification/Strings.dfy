/** Strings as the number parser uses them: Python's `strip`, `count`, `rfind`, and the digits of a string. */
module Strings {
  predicate Digit(c: char) { '0' <= c <= '9' }

  predicate AllDigits(s: string) { forall i :: 0 <= i < |s| ==> Digit(s[i]) }

  /** What `str.isspace` accepts. */
  predicate Space(c: char) {
    || '\t' <= c <= '\r' || '\U{1c}' <= c <= ' ' || c == '\U{85}' || c == '\U{a0}' || c == '\U{1680}'
    || '\U{2000}' <= c <= '\U{200a}' || c == '\U{2028}' || c == '\U{2029}' || c == '\U{202f}' || c == '\U{205f}'
    || c == '\U{3000}'
  }

  predicate Blank(c: char) { c == ' ' }

  function TrimLeft(s: string, drop: char -> bool): (r: string)
    ensures |r| <= |s| && (r != "" ==> !drop(r[0]))
  {
    if s != "" && drop(s[0]) then TrimLeft(s[1..], drop) else s
  }

  function TrimRight(s: string, drop: char -> bool): (r: string)
    ensures |r| <= |s| && (r != "" ==> !drop(r[|r| - 1]))
  {
    if s != "" && drop(s[|s| - 1]) then TrimRight(s[..|s| - 1], drop) else s
  }

  function Strip(s: string, drop: char -> bool): string { TrimRight(TrimLeft(s, drop), drop) }

  lemma StripNothing(s: string, drop: char -> bool)
    requires s != "" ==> !drop(s[0]) && !drop(s[|s| - 1])
    ensures Strip(s, drop) == s
  {}

  function CountOf(s: string, c: char): (n: nat)
    ensures n > 0 <==> c in s
  {
    if s == "" then 0 else (if s[0] == c then 1 else 0) + CountOf(s[1..], c)
  }

  /** The first index of a character, or the length. */
  function FirstOf(s: string, c: char): (i: nat)
    ensures i <= |s| && c !in s[..i] && (i < |s| ==> s[i] == c) && (c in s <==> i < |s|)
  {
    if s == "" || s[0] == c then 0
    else
      var i := 1 + FirstOf(s[1..], c);
      assert s[..i] == [s[0]] + s[1..][..i - 1];
      i
  }

  /** The last index of a character, or -1. */
  function LastOf(s: string, c: char): (i: int)
    ensures -1 <= i < |s| && (i >= 0 ==> s[i] == c) && (i >= 0 <==> c in s)
  {
    if s == "" then -1 else if s[|s| - 1] == c then |s| - 1 else LastOf(s[..|s| - 1], c)
  }

  lemma {:induction false} CountJoin(a: string, b: string, c: char)
    ensures CountOf(a + b, c) == CountOf(a, c) + CountOf(b, c)
  {
    if a == "" {
      assert a + b == b;
    } else {
      assert (a + b)[1..] == a[1..] + b;
      CountJoin(a[1..], b, c);
    }
  }

  lemma {:induction false} LastJoin(a: string, b: string, c: char)
    ensures LastOf(a + b, c) == if c in b then |a| + LastOf(b, c) else LastOf(a, c)
  {
    if b == "" {
      assert a + b == a;
    } else {
      assert (a + b)[..|a + b| - 1] == a + b[..|b| - 1];
      LastJoin(a, b[..|b| - 1], c);
    }
  }

  lemma FirstJoin(a: string, c: char, b: string)
    requires c !in a
    ensures FirstOf(a + [c] + b, c) == |a|
  {
    var s := a + [c] + b;
    assert s[|a|] == c;
    assert forall i :: 0 <= i < |a| ==> s[i] == a[i];
  }

  // ------------------------------------------------------------------ digits

  /** The digits of a string, in order. */
  function Digits(s: string): (r: string)
    ensures AllDigits(r)
  {
    if s == "" then "" else (if Digit(s[0]) then [s[0]] else "") + Digits(s[1..])
  }

  lemma {:induction false} DigitsJoin(a: string, b: string)
    ensures Digits(a + b) == Digits(a) + Digits(b)
  {
    if a == "" {
      assert a + b == b;
    } else {
      assert (a + b)[1..] == a[1..] + b;
      DigitsJoin(a[1..], b);
    }
  }

  lemma {:induction false} DigitsOfDigits(s: string)
    requires AllDigits(s)
    ensures Digits(s) == s
  {
    if s != "" {
      DigitsOfDigits(s[1..]);
    }
  }

  lemma {:induction false} NoDigits(s: string)
    requires forall i :: 0 <= i < |s| ==> !Digit(s[i])
    ensures Digits(s) == ""
  {
    if s != "" {
      NoDigits(s[1..]);
    }
  }

  predicate KeepsDigits(drop: char -> bool) { forall c :: Digit(c) ==> !drop(c) }

  lemma {:induction false} TrimLeftDigits(s: string, drop: char -> bool)
    requires KeepsDigits(drop)
    ensures Digits(TrimLeft(s, drop)) == Digits(s)
  {
    if s != "" && drop(s[0]) {
      TrimLeftDigits(s[1..], drop);
    }
  }

  lemma {:induction false} TrimRightDigits(s: string, drop: char -> bool)
    requires KeepsDigits(drop)
    ensures Digits(TrimRight(s, drop)) == Digits(s)
  {
    if s != "" && drop(s[|s| - 1]) {
      TrimRightDigits(s[..|s| - 1], drop);
      assert s == s[..|s| - 1] + [s[|s| - 1]];
      DigitsJoin(s[..|s| - 1], [s[|s| - 1]]);
    }
  }

  lemma StripDigits(s: string, drop: char -> bool)
    requires KeepsDigits(drop)
    ensures Digits(Strip(s, drop)) == Digits(s)
  {
    TrimLeftDigits(s, drop);
    TrimRightDigits(TrimLeft(s, drop), drop);
  }

  /** Stripping removes dropped characters only. */
  lemma {:induction false} TrimLeftKeeps(s: string, drop: char -> bool, c: char)
    requires !drop(c)
    ensures c in TrimLeft(s, drop) <==> c in s
  {
    if s != "" && drop(s[0]) {
      TrimLeftKeeps(s[1..], drop, c);
    }
  }

  lemma {:induction false} TrimRightKeeps(s: string, drop: char -> bool, c: char)
    requires !drop(c)
    ensures c in TrimRight(s, drop) <==> c in s
  {
    if s != "" && drop(s[|s| - 1]) {
      TrimRightKeeps(s[..|s| - 1], drop, c);
      assert s == s[..|s| - 1] + [s[|s| - 1]];
    }
  }

  lemma StripKeeps(s: string, drop: char -> bool, c: char)
    requires !drop(c)
    ensures c in Strip(s, drop) <==> c in s
  {
    TrimLeftKeeps(s, drop, c);
    TrimRightKeeps(TrimLeft(s, drop), drop, c);
  }

  // ------------------------------------------------------------------ numbers

  function DigitValue(c: char): nat
    requires Digit(c)
  {
    c as int - '0' as int
  }

  function Nat(s: string): nat
    requires AllDigits(s)
  {
    if s == "" then 0 else 10 * Nat(s[..|s| - 1]) + DigitValue(s[|s| - 1])
  }

  function Pow10(k: nat): (r: nat)
    ensures r > 0
  {
    if k == 0 then 1 else 10 * Pow10(k - 1)
  }

  lemma {:induction false} NatJoin(a: string, b: string)
    requires AllDigits(a) && AllDigits(b)
    ensures AllDigits(a + b) && Nat(a + b) == Nat(a) * Pow10(|b|) + Nat(b)
  {
    if b == "" {
      assert a + b == a;
    } else {
      var init := b[..|b| - 1];
      assert (a + b)[..|a + b| - 1] == a + init;
      NatJoin(a, init);
      Tenfold(Nat(a), Pow10(|init|), Nat(init));
    }
  }

  lemma Tenfold(a: nat, p: nat, n: nat)
    ensures 10 * (a * p + n) == a * (10 * p) + 10 * n
  {}
}
