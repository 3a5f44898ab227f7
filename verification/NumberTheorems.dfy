/** The number parser reads what is written: the fast path agrees with the general one, no digit is lost or moved, and
    what the reports print is read back. */
module NumberTheorems {
  import opened Common
  import opened Strings
  import opened Numbers
  import opened DecimalMark

  // ------------------------------------------------------------------ a sign and a number without ornaments

  predicate Bare(c: char) { Digit(c) || c == '.' || c == ',' || c == ' ' }

  ghost predicate BareNumber(sign: string, body: string) {
    && (sign == "" || sign == "-")
    && body != "" && Digit(body[0]) && Digit(body[|body| - 1])
    && forall i :: 0 <= i < |body| ==> Bare(body[i])
  }

  lemma {:induction false} MinusNothing(s: string)
    requires '\U{2212}' !in s
    ensures Minus(s) == s
  {
    if s != "" { MinusNothing(s[1..]); }
  }

  lemma {:induction false} BlanksNothing(s: string)
    requires forall i :: 0 <= i < |s| ==> Bare(s[i])
    ensures Blanks(s) == s
  {
    if s != "" {
      BlanksNothing(s[1..]);
    }
  }

  lemma {:induction false} RunOfAll(s: string)
    requires forall i :: 0 <= i < |s| ==> NumChar(s[i])
    ensures RunLength(s) == |s|
  {
    if s != "" {
      RunOfAll(s[1..]);
    }
  }

  lemma BareStart(sign: string, body: string)
    requires BareNumber(sign, body)
    ensures Strip(sign + body, Space) == sign + body
    ensures FirstDigit(sign + body) == NumberAt(sign + body) == |sign|
  {
    var s := sign + body;
    StripNothing(s, Space);
    assert s[|sign|] == body[0];
  }

  lemma CoreParts(pre: string, num: string, post: string)
    requires num != "" && RunLength(num + post) == |num|
    ensures CoreFrom(pre + num + post, |pre|)
         == if PrefixOk(pre) && AffixOk(post) then Some(Match((pre + num)[0] == '-', num)) else None
  {
    var s := pre + num + post;
    assert s[|pre|..] == num + post;
    assert s[..|pre|] == pre;
    var to := |pre| + |num|;
    assert s[to..] == post;
    assert s[|pre|..to] == num;
  }

  lemma BareCore(sign: string, body: string)
    requires BareNumber(sign, body)
    ensures CoreMatch(sign + body) == Some(Match(sign == "-", body))
  {
    BareStart(sign, body);
    RunOfAll(body);
    assert body + "" == body && sign + body + "" == sign + body;
    CoreParts(sign, body, "");
    NoPrefix(sign);
  }

  lemma NoPrefix(sign: string)
    requires sign == "" || sign == "-"
    ensures PrefixOk(sign)
  {
    assert Unsigned(sign, true) == "";
  }

  lemma BareNotSci(sign: string, body: string)
    requires BareNumber(sign, body)
    ensures !IsSci(sign + body) && Minus(sign + body) == sign + body
    ensures '(' !in sign + body && ')' !in sign + body
  {
    var s := sign + body;
    Lacks(sign, body, 'e');
    Lacks(sign, body, 'E');
    Lacks(sign, body, '(');
    Lacks(sign, body, ')');
    Lacks(sign, body, '\U{2212}');
    MinusNothing(s);
    NotSci(s);
  }

  lemma Lacks(sign: string, body: string, c: char)
    requires BareNumber(sign, body) && !Bare(c) && c != '-'
    ensures c !in sign + body
  {}

  lemma NotSci(s: string)
    requires 'e' !in s && 'E' !in s
    ensures !IsSci(s)
  {}

  /** The general path reads such a string by its digits and separators alone. */
  lemma BareGeneral(sign: string, body: string)
    requires BareNumber(sign, body)
    ensures General(sign + body) == match SplitNumber(body)
      case Bad => INVALID
      case Parts(whole, frac, flag) => Reading(Some(Signed(sign == "-", FloatOf(whole, frac))), flag)
  {
    BareNotSci(sign, body);
    BareStart(sign, body);
    BareCore(sign, body);
  }

  lemma BareReads(s: string, sign: string, body: string, whole: string, frac: string, v: real)
    requires s == sign + body && BareNumber(sign, body) && AllDigits(whole) && AllDigits(frac)
    requires SplitNumber(body) == Parts(whole, frac, NoFlag) && Signed(sign == "-", FloatOf(whole, frac)) == v
    ensures General(s) == Reading(Some(v), NoFlag)
  {
    BareGeneral(sign, body);
  }

  // ------------------------------------------------------------------ the fast path

  lemma CheckedDigits(whole: string, frac: string, flag: Flag)
    requires whole != "" && AllDigits(whole) && AllDigits(frac)
    ensures Checked(whole, frac, flag) == Parts(whole, frac, flag)
  {
    DigitsOfDigits(whole);
  }

  lemma Cleaned(s: string)
    requires BareNumber("", s)
    ensures SplitNumber(s) == SplitCleaned(s)
  {
    BlanksNothing(s);
    StripNothing(s, Blank);
  }

  /** A mark that occurs once splits the string. */
  lemma OneMark(a: string, c: char, b: string)
    requires c !in a && c !in b
    ensures var s := a + [c] + b;
      CountOf(s, c) == 1 && FirstOf(s, c) == |a| && s[..|a|] == a && s[|a| + 1..] == b
  {
    var s := a + [c] + b;
    CountJoin(a + [c], b, c);
    CountJoin(a, [c], c);
    assert CountOf([c], c) == 1 by { assert [c][1..] == ""; }
    FirstJoin(a, c, b);
  }

  /** A plain string is a sign and a bare number, whose separator the general path reads in the same way. */
  lemma PlainParts(s: string)
    requires s != "" && Plain(s)
    ensures BareNumber("", Unsigned(s, false))
    ensures Unsigned(s, false) == PlainWhole(s) + if PlainFrac(s) == "" then "" else ['.'] + PlainFrac(s)
  {
    var body, whole, frac := Unsigned(s, false), PlainWhole(s), PlainFrac(s);
    var dot := FirstOf(body, '.');
    if dot < |body| {
      assert s[|s| - |body| + dot] == '.';
      assert body == whole + (['.'] + frac);
    } else {
      assert body == whole;
    }
  }

  ghost predicate NoMarks(s: string) { '.' !in s && ',' !in s }

  lemma SplitAtMark(a: string, c: char, b: string)
    requires NoMarks(a) && NoMarks(b) && (c == '.' || c == ',')
    ensures SplitCleaned(a + [c] + b) == Checked(a, b, if LooksGrouped(a, b) then Ambiguous else NoFlag)
  {
    OneMark(a, c, b);
    var s, other := a + [c] + b, if c == '.' then ',' else '.';
    assert other !in s;
    assert SplitCleaned(s) == SplitOne(s, c);
  }

  lemma WholeSplit(whole: string)
    requires whole != "" && AllDigits(whole)
    ensures SplitCleaned(whole) == Parts(whole, "", NoFlag)
  {
    assert '.' !in whole && ',' !in whole;
    CheckedDigits(whole, "", NoFlag);
  }

  lemma FracSplit(whole: string, c: char, frac: string)
    requires whole != "" && AllDigits(whole) && AllDigits(frac) && (c == '.' || c == ',') && !LooksGrouped(whole, frac)
    ensures SplitCleaned(whole + [c] + frac) == Parts(whole, frac, NoFlag)
  {
    assert NoMarks(whole) && NoMarks(frac);
    SplitAtMark(whole, c, frac);
    CheckedDigits(whole, frac, NoFlag);
  }

  lemma PlainSplit(s: string)
    requires s != "" && Plain(s)
    ensures SplitNumber(Unsigned(s, false)) == Parts(PlainWhole(s), PlainFrac(s), NoFlag)
  {
    var body, whole, frac := Unsigned(s, false), PlainWhole(s), PlainFrac(s);
    PlainParts(s);
    Cleaned(body);
    if frac == "" {
      assert body == whole;
      WholeSplit(whole);
    } else {
      assert body == whole + ['.'] + frac;
      FracSplit(whole, '.', frac);
    }
  }

  /** Every string the fast path takes has the same value, and no flag, on the general path. */
  lemma FastPathAgrees(s: string)
    requires s != "" && Plain(s)
    ensures General(s) == Reading(Some(PlainValue(s)), NoFlag)
  {
    var sign := if s[0] == '-' then "-" else "";
    var body := Unsigned(s, false);
    assert s == sign + body;
    PlainParts(s);
    PlainSplit(s);
    BareReads(s, sign, body, PlainWhole(s), PlainFrac(s), PlainValue(s));
  }

  /** So the whole parser is the general path behind its guards. */
  lemma ParseIsGeneral(cell: string)
    ensures var s := Strip(cell, Space);
      s != "" && Lower(s) !in ["nan", "none", "null", "-"] && |s| <= MAX_NUMBER_CELL_CHARS ==> Parse(cell) == General(s)
  {
    var s := Strip(cell, Space);
    if s != "" && Plain(s) { FastPathAgrees(s); }
  }

  // ------------------------------------------------------------------ no digit is lost, added or moved

  /** What an affix and its white space may contain. */
  predicate Clean(c: char) {
    !Digit(c) && c != '-' && c != '+' && c != '(' && c != ')' && c != '\U{2212}'
  }

  predicate AllClean(s: string) { forall i :: 0 <= i < |s| ==> Clean(s[i]) }

  lemma WordClean(s: string, k: nat)
    requires k < |AFFIXES| && StartsWith(s, AFFIXES[k])
    ensures AllClean(s[..|AFFIXES[k]|])
  {
    var word := AFFIXES[k];
    WordLetters(k);
    forall i | 0 <= i < |word| ensures Clean(s[i]) {
      assert Fold(s[i]) == word[i];
    }
  }

  lemma WordLetters(k: nat)
    requires k < |AFFIXES|
    ensures AllClean(AFFIXES[k])
  {}

  lemma {:induction false} SkippedClean(s: string)
    requires AllClean(SkipWs(s))
    ensures AllClean(s)
  {
    if s != "" && Ws(s[0]) {
      SkippedClean(s[1..]);
      assert forall i :: 0 < i < |s| ==> s[i] == s[1..][i - 1];
    }
  }

  lemma {:induction false} AffixClean(s: string)
    requires AffixOk(s)
    ensures AllClean(s)
    decreases |s|
  {
    if s != "" {
      var k :| 0 <= k < |AFFIXES| && AffixStep(s, AFFIXES[k]);
      StepClean(s, k);
    }
  }

  lemma {:induction false} StepClean(s: string, k: nat)
    requires k < |AFFIXES| && AffixStep(s, AFFIXES[k])
    ensures AllClean(s)
    decreases |s|, 0
  {
    var n := |AFFIXES[k]|;
    WordClean(s, k);
    var rest := s[n..];
    if AffixOk(SkipWs(rest)) {
      AffixClean(SkipWs(rest));
      SkippedClean(rest);
    } else {
      AffixClean(SkipWs(rest[1..]));
      SkippedClean(rest[1..]);
      assert forall i :: 0 < i < |rest| ==> rest[i] == rest[1..][i - 1];
    }
    assert s == s[..n] + rest;
  }

  lemma PrefixClean(s: string)
    requires PrefixOk(s)
    ensures AllClean(Unsigned(s, true))
  {
    AffixClean(SkipWs(Unsigned(s, true)));
    SkippedClean(Unsigned(s, true));
  }

  lemma MatchParts(s: string) returns (pre: string, num: string, post: string)
    requires CoreMatch(s).Some?
    ensures s == pre + num + post && PrefixOk(pre) && AffixOk(post)
    ensures num != "" && AllNumChars(num)
    ensures CoreMatch(s).value == Match(s[0] == '-', num)
  {
    var from := NumberAt(s);
    var rest := s[from..];
    var n := RunLength(rest);
    RunStarts(rest);
    pre, num, post := s[..from], s[from..from + n], s[from + n..];
    InParts(s, from, n);
  }

  lemma InParts(s: string, from: nat, n: nat)
    requires from + n <= |s| && AllNumChars(s[from..][..n])
    ensures s == s[..from] + s[from..from + n] + s[from + n..]
    ensures AllNumChars(s[from..from + n])
  {
    assert s[from..][..n] == s[from..from + n];
  }

  predicate AllNumChars(s: string) { forall i :: 0 <= i < |s| ==> NumChar(s[i]) }

  lemma RunStarts(s: string)
    requires s != "" && NumChar(s[0])
    ensures RunLength(s) > 0
  {}

  /** A match keeps all digits in the number, and its sign is the only minus in the string. */
  lemma MatchKeeps(s: string)
    requires CoreMatch(s).Some?
    ensures Digits(s) == Digits(CoreMatch(s).value.num)
    ensures '-' in s <==> CoreMatch(s).value.negative
    ensures '(' !in s
  {
    var pre, num, post := MatchParts(s);
    PrefixClean(pre);
    AffixClean(post);
    MatchSigns(pre, num, post);
    MatchDigits(pre, num, post);
  }

  lemma MatchDigits(pre: string, num: string, post: string)
    requires AllClean(Unsigned(pre, true)) && AllClean(post)
    ensures Digits(pre + num + post) == Digits(num)
  {
    DigitsJoin(pre + num, post);
    DigitsJoin(pre, num);
    NoDigits(post);
    PrefixDigits(pre);
  }

  lemma PrefixDigits(pre: string)
    requires AllClean(Unsigned(pre, true))
    ensures Digits(pre) == ""
  {
    forall i | 0 <= i < |pre| ensures !Digit(pre[i]) {
      if i > 0 && |Unsigned(pre, true)| < |pre| { assert pre[i] == Unsigned(pre, true)[i - 1]; }
    }
    NoDigits(pre);
  }

  lemma MatchSigns(pre: string, num: string, post: string)
    requires AllClean(Unsigned(pre, true)) && AllClean(post) && num != "" && AllNumChars(num)
    ensures var s := pre + num + post; ('-' in s <==> s[0] == '-') && '(' !in s
  {
    var s := pre + num + post;
    forall i | 0 < i < |s| ensures s[i] != '-' && s[i] != '(' {
      if i < |pre| {
        SignIsFirst(pre, i);
      } else if i < |pre| + |num| {
        assert s[i] == num[i - |pre|];
      } else {
        assert s[i] == post[i - |pre| - |num|];
      }
    }
    if pre == "" {
      assert s[0] == num[0];
    }
  }

  lemma SignIsFirst(pre: string, i: nat)
    requires AllClean(Unsigned(pre, true)) && 0 < i < |pre|
    ensures Clean(pre[i])
  {
    var rest := Unsigned(pre, true);
    if |rest| < |pre| {
      assert pre[i] == rest[i - 1];
    }
  }

  lemma {:induction false} MinusSigns(s: string)
    ensures '-' in Minus(s) <==> '-' in s || '\U{2212}' in s
    ensures forall c :: c != '-' && c != '\U{2212}' ==> (c in Minus(s) <==> c in s)
  {
    if s != "" {
      MinusSigns(s[1..]);
      assert s == [s[0]] + s[1..];
    }
  }

  lemma AtMark(s: string, i: nat)
    requires i < |s| && !Digit(s[i]) && AllDigits(s[i + 1..])
    ensures Digits(s) == Digits(s[..i]) + s[i + 1..]
  {
    assert s == s[..i] + [s[i]] + s[i + 1..];
    DigitsJoin(s[..i] + [s[i]], s[i + 1..]);
    DigitsJoin(s[..i], [s[i]]);
    NoDigits([s[i]]);
    DigitsOfDigits(s[i + 1..]);
  }

  lemma CheckedKeeps(whole: string, frac: string, flag: Flag)
    requires Checked(whole, frac, flag).Parts?
    ensures Checked(whole, frac, flag).whole == Digits(whole) && Checked(whole, frac, flag).frac == frac
        && AllDigits(frac)
  {}

  lemma BothKeeps(num: string, mark: char, group: char)
    requires SplitBoth(num, mark, group).Parts? && !Digit(mark)
    ensures Digits(num) == SplitBoth(num, mark, group).whole + SplitBoth(num, mark, group).frac
  {
    var i := FirstOf(num, mark);
    CheckedKeeps(num[..i], num[i + 1..], NoFlag);
    AtMark(num, i);
  }

  lemma OneKeeps(num: string, sep: char)
    requires sep in num && SplitOne(num, sep).Parts? && !Digit(sep)
    ensures Digits(num) == SplitOne(num, sep).whole + SplitOne(num, sep).frac
  {
    if CountOf(num, sep) == 1 {
      var i := FirstOf(num, sep);
      CheckedKeeps(num[..i], num[i + 1..], if LooksGrouped(num[..i], num[i + 1..]) then Ambiguous else NoFlag);
      AtMark(num, i);
    }
  }

  lemma SplitKeeps(num: string)
    requires SplitCleaned(num).Parts?
    ensures Digits(num) == SplitCleaned(num).whole + SplitCleaned(num).frac
  {
    var dots, commas := CountOf(num, '.'), CountOf(num, ',');
    if dots > 0 && commas > 0 {
      if LastOf(num, '.') > LastOf(num, ',') { BothKeeps(num, '.', ','); } else { BothKeeps(num, ',', '.'); }
    } else if dots > 0 {
      OneKeeps(num, '.');
    } else if commas > 0 {
      OneKeeps(num, ',');
    }
  }

  lemma NumberKeeps(text: string)
    requires SplitNumber(text).Parts?
    ensures Digits(text) == SplitNumber(text).whole + SplitNumber(text).frac
  {
    SplitKeeps(Strip(Blanks(text), Blank));
    StripDigits(Blanks(text), Blank);
    BlanksDigits(text);
  }

  /** A value is an integer, the one its digits spell, over a power of ten. */
  ghost predicate Spells(v: real, negative: bool, digits: string, k: nat)
    requires AllDigits(digits)
  {
    k <= |digits| && v == Signed(negative, Nat(digits) as real / Pow10(k) as real)
  }

  lemma FloatSpells(whole: string, frac: string, negative: bool)
    requires AllDigits(whole) && AllDigits(frac)
    ensures AllDigits(whole + frac) && Spells(Signed(negative, FloatOf(whole, frac)), negative, whole + frac, |frac|)
  {
    NatJoin(whole, frac);
    Scaled(Nat(whole), Nat(frac), Pow10(|frac|), Nat(whole + frac));
  }

  lemma Scaled(a: nat, b: nat, p: nat, n: nat)
    requires p > 0 && n == a * p + b
    ensures n as real / p as real == a as real + b as real / p as real
  {
    assert n as real == a as real * p as real + b as real;
  }

  /** The number in a string around which there is nothing but a sign, affixes and white space. */
  function NumeralOf(s: string): string {
    match CoreMatch(Strip(s, Space))
    case None => ""
    case Some(m) => m.num
  }

  lemma CoreSpells(s: string, negative: bool)
    requires Core(s, negative).value.Some?
    ensures Spells(Core(s, negative).value.value, negative || '-' in s, Digits(s), FractionLength(NumeralOf(s)))
    ensures '(' !in s && (negative ==> '-' !in s) && Digits(NumeralOf(s)) == Digits(s)
  {
    var t := Strip(s, Space);
    MatchKeeps(t);
    var m := CoreMatch(t).value;
    NumberKeeps(m.num);
    FractionIs(m.num);
    var parts := SplitNumber(m.num);
    FloatSpells(parts.whole, parts.frac, m.negative || negative);
    StripDigits(s, Space);
    StripKeeps(s, Space, '-');
    StripKeeps(s, Space, '(');
  }

  /** A mark that counts in the number is a mark that counts in the string around it. */
  lemma CoreUsed(s: string, negative: bool)
    requires Core(s, negative).value.Some?
    ensures FractionLength(NumeralOf(s)) in {0, BehindUsed(s)}
  {
    if FractionLength(NumeralOf(s)) > 0 {
      MatchUsed(Strip(s, Space));
      UsedStripped(s, Space);
    }
  }

  lemma MatchUsed(t: string)
    requires CoreMatch(t).Some? && BehindLast(CoreMatch(t).value.num) > 0
    ensures BehindUsed(t) == BehindLast(CoreMatch(t).value.num)
  {
    var pre, num, post := MatchParts(t);
    LastIsUsed(num);
    AffixClean(post);
    NoDigits(post);
    UsedInside(pre, num, post);
  }

  lemma DigitsPast(a: string, c: char)
    requires !Digit(c)
    ensures Digits(a + [c]) == Digits(a)
  {
    DigitsJoin(a, [c]);
    assert [c][1..] == "";
  }

  lemma DigitsApart(a: string, c: char, b: string)
    requires !Digit(c)
    ensures Digits(a + [c] + b) == Digits(a) + Digits(b)
  {
    DigitsPast(a, c);
    DigitsJoin(a + [c], b);
  }

  lemma InParentheses(inner: string, tail: string)
    ensures Digits((['('] + inner) + [')'] + tail) == Digits(inner) + Digits(tail)
  {
    DigitsApart(['('] + inner, ')', tail);
    DigitsApart("", '(', inner);
    assert "" + ['('] + inner == ['('] + inner;
  }

  lemma StrippedParts(inner: string, tail: string)
    ensures Digits(Strip(inner, Space) + " " + Strip(tail, Space)) == Digits(inner) + Digits(tail)
  {
    StripDigits(inner, Space);
    StripDigits(tail, Space);
    DigitsApart(Strip(inner, Space), ' ', Strip(tail, Space));
  }

  lemma AccountingKeeps(s: string)
    requires Accounting(s).Some?
    ensures Digits(s) == Digits(Accounting(s).value.0 + " " + Accounting(s).value.1)
  {
    var close := FirstOf(s, ')');
    var inner, tail := s[1..close], s[close + 1..];
    assert s == (['('] + inner) + [')'] + tail;
    InParentheses(inner, tail);
    StrippedParts(inner, tail);
  }

  lemma TailHasNoDigits(tail: string)
    requires AffixOk(SkipWs(Strip(tail, Space)))
    ensures Digits(tail) == ""
  {
    AffixClean(SkipWs(Strip(tail, Space)));
    SkippedClean(Strip(tail, Space));
    NoDigits(Strip(tail, Space));
    StripDigits(tail, Space);
  }

  lemma DigitlessTail(c: char, tail: string)
    requires !Digit(c) && Digits(tail) == ""
    ensures Digits([c] + tail) == ""
  {
    NoDigits([c]);
    DigitsJoin([c], tail);
  }

  lemma UsedInner(inner: string, tail: string)
    requires Digits(tail) == ""
    ensures BehindUsed(Strip(inner, Space) + " " + Strip(tail, Space)) == BehindUsed(inner)
  {
    StripDigits(tail, Space);
    DigitlessTail(' ', Strip(tail, Space));
    UsedBefore(Strip(inner, Space), [' '] + Strip(tail, Space));
    assert Strip(inner, Space) + " " + Strip(tail, Space) == Strip(inner, Space) + ([' '] + Strip(tail, Space));
    UsedStripped(inner, Space);
  }

  lemma UsedInParentheses(inner: string, tail: string)
    requires Digits(tail) == "" && BehindUsed(inner) > 0
    ensures BehindUsed(['('] + inner + ([')'] + tail)) == BehindUsed(inner)
  {
    DigitlessTail(')', tail);
    UsedInside(['('], inner, [')'] + tail);
  }

  lemma AccountingUsed(s: string)
    requires Accounting(s).Some? && AffixOk(SkipWs(Accounting(s).value.1))
    requires BehindUsed(Accounting(s).value.0 + " " + Accounting(s).value.1) > 0
    ensures BehindUsed(s) == BehindUsed(Accounting(s).value.0 + " " + Accounting(s).value.1)
  {
    var close := FirstOf(s, ')');
    var inner, tail := s[1..close], s[close + 1..];
    TailHasNoDigits(tail);
    UsedInner(inner, tail);
    UsedInParentheses(inner, tail);
    assert s == ['('] + inner + ([')'] + tail);
  }

  predicate Negative(cell: string) { '-' in cell || '\U{2212}' in cell || '(' in cell }

  /** What the general path reads: the string, or the inside of its accounting parentheses and what follows them. */
  function Inside(s: string): string {
    var t := Minus(s);
    if '(' !in t && ')' !in t then t
    else match Accounting(t)
      case None => ""
      case Some((inner, tail)) => inner + " " + tail
  }

  function Numeral(cell: string): string { NumeralOf(Inside(Strip(cell, Space))) }

  lemma GeneralSpells(s: string)
    requires General(s).value.Some? && !IsSci(Minus(s))
    ensures Spells(General(s).value.value, Negative(s), Digits(s), FractionLength(NumeralOf(Inside(s))))
    ensures Digits(NumeralOf(Inside(s))) == Digits(s)
  {
    var t := Minus(s);
    MinusDigits(s);
    MinusSigns(s);
    if '(' in t || ')' in t {
      AccountingKeeps(t);
      CoreSpells(Inside(s), true);
    } else {
      CoreSpells(t, false);
    }
  }

  lemma GeneralUsed(s: string)
    requires General(s).value.Some? && !IsSci(Minus(s))
    ensures FractionLength(NumeralOf(Inside(s))) in {0, BehindUsed(s)}
  {
    var t := Minus(s);
    UsedMinus(s);
    if '(' in t || ')' in t {
      CoreUsed(Inside(s), true);
      if BehindUsed(Inside(s)) > 0 { AccountingUsed(t); }
    } else {
      CoreUsed(t, false);
    }
  }

  lemma StrippedSame(cell: string)
    ensures Digits(Strip(cell, Space)) == Digits(cell) && Negative(Strip(cell, Space)) == Negative(cell)
  {
    StripDigits(cell, Space);
    StripKeeps(cell, Space, '-');
    StripKeeps(cell, Space, '\U{2212}');
    StripKeeps(cell, Space, '(');
  }

  lemma AcceptedByGeneral(cell: string)
    requires Parse(cell).value.Some?
    ensures Parse(cell) == General(Strip(cell, Space))
  {
    ParseIsGeneral(cell);
  }

  /** Every accepted number that is not in scientific notation is spelled by all the digits of its cell, in order, and
      is negative exactly for a minus sign or accounting parentheses. Its decimal mark is where `FractionLength` puts
      it in the number that the cell holds. */
  lemma ValueIsItsDigits(cell: string)
    requires Parse(cell).value.Some? && !IsSci(Minus(Strip(cell, Space)))
    ensures Spells(Parse(cell).value.value, Negative(cell), Digits(cell), FractionLength(Numeral(cell)))
    ensures Digits(Numeral(cell)) == Digits(cell)
  {
    AcceptedByGeneral(cell);
    StrippedSame(cell);
    GeneralSpells(Strip(cell, Space));
  }

  lemma GeneralInTheCell(cell: string)
    requires General(Strip(cell, Space)).value.Some? && !IsSci(Minus(Strip(cell, Space)))
    ensures FractionLength(Numeral(cell)) in {0, BehindUsed(cell)}
  {
    GeneralUsed(Strip(cell, Space));
    UsedStripped(cell, Space);
  }

  /** Said of the cell alone: the fraction is empty, or all the digits behind the last mark that has a digit behind
      it. */
  lemma FractionInTheCell(cell: string)
    requires Parse(cell).value.Some? && !IsSci(Minus(Strip(cell, Space)))
    ensures FractionLength(Numeral(cell)) in {0, BehindUsed(cell)}
  {
    AcceptedByGeneral(cell);
    GeneralInTheCell(cell);
  }
}
