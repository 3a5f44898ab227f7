/** Where the decimal mark of a number is: the rule of `_split_number` in app/sources/csv_mapper.py, said without its
    code, and what is left of that place in the cell around the number. */
module DecimalMark {
  import opened Strings
  import opened Numbers

  predicate Mark(c: char) { c == '.' || c == ',' }

  predicate Marked(s: string) { '.' in s || ',' in s }

  /** How many digits stand behind the last mark. */
  function BehindLast(s: string): nat {
    if s == "" then 0
    else if Marked(s[1..]) then BehindLast(s[1..])
    else if Mark(s[0]) then |Digits(s[1..])|
    else 0
  }

  /** How many digits stand behind the last mark that has a digit behind it. */
  function BehindUsed(s: string): nat {
    if s == "" then 0
    else if BehindUsed(s[1..]) > 0 then BehindUsed(s[1..])
    else if Mark(s[0]) then |Digits(s[1..])|
    else 0
  }

  /** One kind of mark only, more than once: it groups thousands. */
  predicate Repeats(s: string) {
    || (',' !in s && CountOf(s, '.') > 1)
    || ('.' !in s && CountOf(s, ',') > 1)
  }

  /** The length of the fraction of a number. */
  function FractionLength(num: string): nat { if Repeats(num) then 0 else BehindLast(num) }

  // ------------------------------------------------------------------ the last mark

  lemma {:induction false} NothingBehind(s: string)
    requires !Marked(s)
    ensures BehindLast(s) == 0
  {
    if s != "" {
      NothingBehind(s[1..]);
    }
  }

  lemma {:induction false} BehindSuffix(a: string, b: string)
    requires Marked(b)
    ensures BehindLast(a + b) == BehindLast(b)
  {
    if a == "" {
      assert a + b == b;
    } else {
      assert (a + b)[1..] == a[1..] + b;
      BehindSuffix(a[1..], b);
      assert Marked(a[1..] + b);
    }
  }

  lemma BehindDecimal(whole: string, c: char, frac: string)
    requires Mark(c) && AllDigits(frac)
    ensures BehindLast(whole + [c] + frac) == |frac|
  {
    var tail := [c] + frac;
    assert tail[1..] == frac && tail[0] == c && !Marked(frac);
    DigitsOfDigits(frac);
    BehindSuffix(whole, tail);
    assert whole + [c] + frac == whole + tail;
  }

  lemma BehindPast(s: string, c: char)
    requires !Mark(c)
    ensures BehindLast([c] + s) == BehindLast(s)
  {
    assert ([c] + s)[1..] == s;
    if !Marked(s) {
      NothingBehind(s);
    }
  }

  lemma {:induction false} BehindBefore(s: string, c: char)
    requires !Mark(c) && !Digit(c)
    ensures BehindLast(s + [c]) == BehindLast(s)
  {
    if s == "" {
      BehindPast("", c);
      assert s + [c] == [c] + "";
    } else {
      assert (s + [c])[1..] == s[1..] + [c];
      BehindBefore(s[1..], c);
      DigitsJoin(s[1..], [c]);
      NoDigits([c]);
    }
  }

  predicate KeepsNumber(drop: char -> bool) { forall c :: Digit(c) || Mark(c) ==> !drop(c) }

  lemma {:induction false} BehindTrimLeft(s: string, drop: char -> bool)
    requires KeepsNumber(drop)
    ensures BehindLast(TrimLeft(s, drop)) == BehindLast(s)
  {
    if s != "" && drop(s[0]) {
      BehindTrimLeft(s[1..], drop);
      BehindPast(s[1..], s[0]);
      assert s == [s[0]] + s[1..];
    }
  }

  lemma {:induction false} BehindTrimRight(s: string, drop: char -> bool)
    requires KeepsNumber(drop)
    ensures BehindLast(TrimRight(s, drop)) == BehindLast(s)
  {
    if s != "" && drop(s[|s| - 1]) {
      BehindTrimRight(s[..|s| - 1], drop);
      BehindBefore(s[..|s| - 1], s[|s| - 1]);
      assert s == s[..|s| - 1] + [s[|s| - 1]];
    }
  }

  lemma {:induction false} CountTrimLeft(s: string, drop: char -> bool, c: char)
    requires !drop(c)
    ensures CountOf(TrimLeft(s, drop), c) == CountOf(s, c)
  {
    if s != "" && drop(s[0]) {
      CountTrimLeft(s[1..], drop, c);
    }
  }

  lemma {:induction false} CountTrimRight(s: string, drop: char -> bool, c: char)
    requires !drop(c)
    ensures CountOf(TrimRight(s, drop), c) == CountOf(s, c)
  {
    if s != "" && drop(s[|s| - 1]) {
      CountTrimRight(s[..|s| - 1], drop, c);
      assert s == s[..|s| - 1] + [s[|s| - 1]];
      CountJoin(s[..|s| - 1], [s[|s| - 1]], c);
      assert [s[|s| - 1]][1..] == "";
    }
  }

  lemma {:induction false} BlanksCount(s: string, c: char)
    requires !Ws(c)
    ensures CountOf(Blanks(s), c) == CountOf(s, c)
  {
    if s != "" {
      BlanksCount(s[1..], c);
    }
  }

  lemma {:induction false} BlanksDigits(s: string)
    ensures Digits(Blanks(s)) == Digits(s)
  {
    if s != "" {
      BlanksDigits(s[1..]);
    }
  }

  lemma {:induction false} BlanksBehind(s: string)
    ensures BehindLast(Blanks(s)) == BehindLast(s)
  {
    if s != "" {
      BlanksBehind(s[1..]);
      BlanksDigits(s[1..]);
      BlanksCount(s[1..], '.');
      BlanksCount(s[1..], ',');
    }
  }

  /** Cleaning a number leaves its fraction alone. */
  lemma CleaningKeeps(text: string)
    ensures FractionLength(Strip(Blanks(text), Blank)) == FractionLength(text)
  {
    var b := Blanks(text);
    BlanksBehind(text);
    BehindTrimLeft(b, Blank);
    BehindTrimRight(TrimLeft(b, Blank), Blank);
    CountCleaned(text, '.');
    CountCleaned(text, ',');
  }

  lemma CountCleaned(text: string, c: char)
    requires Mark(c)
    ensures CountOf(Strip(Blanks(text), Blank), c) == CountOf(text, c)
  {
    BlanksCount(text, c);
    CountTrimLeft(Blanks(text), Blank, c);
    CountTrimRight(TrimLeft(Blanks(text), Blank), Blank, c);
  }

  // ------------------------------------------------------------------ the fraction that is split off

  lemma CheckedFraction(whole: string, frac: string, flag: Flag)
    requires Checked(whole, frac, flag).Parts?
    ensures Checked(whole, frac, flag).frac == frac && AllDigits(frac)
  {}

  lemma AtFirst(num: string, c: char)
    requires c in num && Mark(c) && AllDigits(num[FirstOf(num, c) + 1..])
    ensures BehindLast(num) == |num| - FirstOf(num, c) - 1
  {
    var i := FirstOf(num, c);
    BehindDecimal(num[..i], c, num[i + 1..]);
    assert num == num[..i] + [c] + num[i + 1..];
  }

  lemma BothFraction(num: string, mark: char, group: char)
    requires SplitBoth(num, mark, group).Parts? && Mark(mark) && '.' in num && ',' in num
    ensures |SplitBoth(num, mark, group).frac| == FractionLength(num)
  {
    var i := FirstOf(num, mark);
    CheckedFraction(num[..i], num[i + 1..], NoFlag);
    AtFirst(num, mark);
  }

  lemma OneFraction(num: string, sep: char)
    requires sep in num && SplitOne(num, sep).Parts? && Mark(sep)
    requires (sep == '.' ==> ',' !in num) && (sep == ',' ==> '.' !in num)
    ensures |SplitOne(num, sep).frac| == FractionLength(num)
  {
    if CountOf(num, sep) == 1 {
      var i := FirstOf(num, sep);
      CheckedFraction(num[..i], num[i + 1..], if LooksGrouped(num[..i], num[i + 1..]) then Ambiguous else NoFlag);
      AtFirst(num, sep);
    } else {
      assert Repeats(num);
    }
  }

  lemma CleanedFraction(num: string)
    requires SplitCleaned(num).Parts?
    ensures |SplitCleaned(num).frac| == FractionLength(num)
  {
    if '.' in num && ',' in num {
      if LastOf(num, '.') > LastOf(num, ',') { BothFraction(num, '.', ','); } else { BothFraction(num, ',', '.'); }
    } else if '.' in num {
      OneFraction(num, '.');
    } else if ',' in num {
      OneFraction(num, ',');
    } else {
      NothingBehind(num);
    }
  }

  /** The fraction has the length the rule gives: the digits behind the last mark, or none if the number has no mark,
      or one kind of mark more than once. */
  lemma FractionIs(text: string)
    requires SplitNumber(text).Parts?
    ensures |SplitNumber(text).frac| == FractionLength(text)
  {
    CleanedFraction(Strip(Blanks(text), Blank));
    CleaningKeeps(text);
  }

  // ------------------------------------------------------------------ the mark in the cell around the number

  lemma {:induction false} LastIsUsed(s: string)
    requires BehindLast(s) > 0
    ensures BehindUsed(s) == BehindLast(s)
  {
    if Marked(s[1..]) {
      LastIsUsed(s[1..]);
    } else {
      NothingUsed(s[1..]);
    }
  }

  lemma {:induction false} NothingUsed(s: string)
    requires !Marked(s) || Digits(s) == ""
    ensures BehindUsed(s) == 0
  {
    if s != "" {
      NothingUsed(s[1..]);
    }
  }

  lemma {:induction false} UsedBefore(a: string, b: string)
    requires Digits(b) == ""
    ensures BehindUsed(a + b) == BehindUsed(a)
  {
    if a == "" {
      assert a + b == b;
      NothingUsed(b);
    } else {
      assert (a + b)[1..] == a[1..] + b;
      UsedBefore(a[1..], b);
      DigitsJoin(a[1..], b);
    }
  }

  lemma {:induction false} UsedSuffix(a: string, b: string)
    requires BehindUsed(b) > 0
    ensures BehindUsed(a + b) == BehindUsed(b)
  {
    if a == "" {
      assert a + b == b;
    } else {
      assert (a + b)[1..] == a[1..] + b;
      UsedSuffix(a[1..], b);
    }
  }

  /** Text around a number hides none of its used marks, if no digit follows. */
  lemma UsedInside(a: string, s: string, b: string)
    requires BehindUsed(s) > 0 && Digits(b) == ""
    ensures BehindUsed(a + s + b) == BehindUsed(s)
  {
    UsedSuffix(a, s);
    UsedBefore(a + s, b);
  }

  lemma {:induction false} UsedTrimLeft(s: string, drop: char -> bool)
    requires KeepsNumber(drop)
    ensures BehindUsed(TrimLeft(s, drop)) == BehindUsed(s)
  {
    if s != "" && drop(s[0]) {
      UsedTrimLeft(s[1..], drop);
    }
  }

  lemma {:induction false} UsedTrimRight(s: string, drop: char -> bool)
    requires KeepsNumber(drop)
    ensures BehindUsed(TrimRight(s, drop)) == BehindUsed(s)
  {
    if s != "" && drop(s[|s| - 1]) {
      UsedTrimRight(s[..|s| - 1], drop);
      NoDigits([s[|s| - 1]]);
      UsedBefore(s[..|s| - 1], [s[|s| - 1]]);
      assert s == s[..|s| - 1] + [s[|s| - 1]];
    }
  }

  lemma UsedStripped(s: string, drop: char -> bool)
    requires KeepsNumber(drop)
    ensures BehindUsed(Strip(s, drop)) == BehindUsed(s)
  {
    UsedTrimLeft(s, drop);
    UsedTrimRight(TrimLeft(s, drop), drop);
  }

  lemma {:induction false} MinusDigits(s: string)
    ensures Digits(Minus(s)) == Digits(s)
  {
    if s != "" {
      MinusDigits(s[1..]);
    }
  }

  lemma {:induction false} UsedMinus(s: string)
    ensures BehindUsed(Minus(s)) == BehindUsed(s)
  {
    if s != "" {
      UsedMinus(s[1..]);
      MinusDigits(s[1..]);
    }
  }
}
