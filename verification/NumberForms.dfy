/** Which strings the number parser accepts, with which flag, and what signs, parentheses, affixes and exponents do to
    the number they stand around. */
module NumberForms {
  import opened Common
  import opened Strings
  import opened Numbers
  import opened DecimalMark
  import opened NumberTheorems

  // ------------------------------------------------------------------ flags

  /** One to three digits that do not start with a zero, a mark, and three digits: possibly a grouped thousand. */
  predicate ThousandLike(n: string) {
    && 5 <= |n| <= 7 && Mark(n[|n| - 4]) && n[0] != '0'
    && AllDigits(n[..|n| - 4]) && AllDigits(n[|n| - 3..])
  }

  function FlagOf(n: string): Flag {
    if ThousandLike(n) then Ambiguous
    else if CountOf(n, '.') > 1 && ',' !in n then DotThousands
    else NoFlag
  }

  lemma OnlyMark(n: string)
    requires ThousandLike(n)
    ensures var c := n[|n| - 4];
      CountOf(n, c) == 1 && FirstOf(n, c) == |n| - 4 && !((if c == '.' then ',' else '.') in n) && ' ' !in n
  {
    var i := |n| - 4;
    var a, c, b := n[..i], n[i], n[i + 1..];
    assert n == a + [c] + b;
    OneMark(a, c, b);
  }

  lemma ThousandLikeIff(n: string, sep: char)
    requires Mark(sep) && CountOf(n, sep) == 1 && ((if sep == '.' then ',' else '.') !in n)
    requires var i := FirstOf(n, sep);
      AllDigits(n[i + 1..]) && (AllDigits(n[..i]) || |n[..i]| > 3)
    ensures var i := FirstOf(n, sep); LooksGrouped(n[..i], n[i + 1..]) <==> ThousandLike(n)
  {
    if ThousandLike(n) {
      OnlyMark(n);
      assert n[|n| - 4] == sep;
    }
  }

  lemma CheckedWhole(whole: string, frac: string, flag: Flag)
    requires Checked(whole, frac, flag).Parts?
    ensures Checked(whole, frac, flag).splitFlag == flag && AllDigits(frac) && (AllDigits(whole) || |whole| > 3)
  {}

  lemma OneFlag(n: string, sep: char)
    requires Mark(sep) && sep in n && ((if sep == '.' then ',' else '.') !in n) && SplitOne(n, sep).Parts?
    ensures SplitOne(n, sep).splitFlag == FlagOf(n)
  {
    if CountOf(n, sep) == 1 {
      var i := FirstOf(n, sep);
      CheckedWhole(n[..i], n[i + 1..], if LooksGrouped(n[..i], n[i + 1..]) then Ambiguous else NoFlag);
      ThousandLikeIff(n, sep);
    } else if ThousandLike(n) {
      OnlyMark(n);
    }
  }

  lemma SplitFlag(n: string)
    requires SplitCleaned(n).Parts?
    ensures SplitCleaned(n).splitFlag == FlagOf(n)
  {
    if ThousandLike(n) { OnlyMark(n); }
    if '.' in n && ',' !in n {
      OneFlag(n, '.');
    } else if ',' in n && '.' !in n {
      OneFlag(n, ',');
    }
  }

  /** The numeral of a cell, with its white space made plain and trimmed. */
  function CleanNumeral(cell: string): string { Strip(Blanks(Numeral(cell)), Blank) }

  lemma CoreFlag(s: string, negative: bool)
    requires Core(s, negative).value.Some?
    ensures Core(s, negative).flag == FlagOf(Strip(Blanks(NumeralOf(s)), Blank))
  {
    SplitFlag(Strip(Blanks(NumeralOf(s)), Blank));
  }

  lemma GeneralFlag(s: string)
    requires General(s).value.Some? && !IsSci(Minus(s))
    ensures General(s).flag == FlagOf(Strip(Blanks(NumeralOf(Inside(s))), Blank))
  {
    CoreFlag(Inside(s), '(' in Minus(s) || ')' in Minus(s));
  }

  /** The flag of an accepted number is exactly what its numeral calls for. */
  lemma FlagIs(cell: string)
    requires Parse(cell).value.Some? && !IsSci(Minus(Strip(cell, Space)))
    ensures Parse(cell).flag == FlagOf(CleanNumeral(cell))
  {
    AcceptedByGeneral(cell);
    GeneralFlag(Strip(cell, Space));
  }

  predicate Null(cell: string) {
    var s := Strip(cell, Space);
    s == "" || Lower(s) in ["nan", "none", "null", "-"]
  }

  lemma CoreNoValue(s: string, negative: bool)
    ensures Core(s, negative).value.None? <==> Core(s, negative).flag.Invalid?
  {
    match CoreMatch(Strip(s, Space))
    case None =>
    case Some(m) => SplitNoInvalid(Strip(Blanks(m.num), Blank));
  }

  lemma SplitNoInvalid(n: string)
    ensures SplitCleaned(n).Parts? ==> !SplitCleaned(n).splitFlag.Invalid?
  {
    if SplitCleaned(n).Parts? { SplitFlag(n); }
  }

  lemma GeneralNoValue(s: string)
    ensures General(s).value.None? <==> General(s).flag.Invalid?
  {
    CoreNoValue(Inside(s), true);
    CoreNoValue(Inside(s), false);
  }

  /** Without a value there is the flag Invalid, except for an empty or null cell, which has none; with a value there
      never is. A cell of more than 64 characters has no value. */
  lemma NoValueIs(cell: string)
    ensures Parse(cell).flag == Invalid <==> Parse(cell).value.None? && !Null(cell)
    ensures Null(cell) ==> Parse(cell) == Reading(None, NoFlag)
    ensures |Strip(cell, Space)| > MAX_NUMBER_CELL_CHARS ==> Parse(cell).value.None?
  {
    GeneralNoValue(Strip(cell, Space));
  }

  predicate ThousandParts(whole: string, c: char, frac: string) {
    AllDigits(whole) && AllDigits(frac) && 1 <= |whole| <= 3 && whole[0] != '0' && |frac| == 3 && Mark(c)
  }

  lemma ThousandSplit(whole: string, c: char, frac: string)
    requires ThousandParts(whole, c, frac)
    ensures BareNumber("", whole + [c] + frac)
    ensures SplitNumber(whole + [c] + frac) == Parts(whole, frac, Ambiguous)
  {
    var s := whole + [c] + frac;
    BlanksNothing(s);
    StripNothing(s, Blank);
    assert NoMarks(whole) && NoMarks(frac);
    SplitAtMark(whole, c, frac);
    CheckedDigits(whole, frac, Ambiguous);
  }

  lemma ThousandGeneral(whole: string, c: char, frac: string)
    requires ThousandParts(whole, c, frac)
    ensures General(whole + [c] + frac) == Reading(Some(FloatOf(whole, frac)), Ambiguous)
  {
    var s := whole + [c] + frac;
    ThousandSplit(whole, c, frac);
    assert "" + s == s;
    BareGeneral("", s);
  }

  /** So what may be a grouped thousand is read as a fraction, and always flagged. */
  lemma PossibleThousand(whole: string, c: char, frac: string)
    requires AllDigits(whole) && AllDigits(frac) && 1 <= |whole| <= 3 && whole[0] != '0' && |frac| == 3 && Mark(c)
    ensures Parse(whole + [c] + frac) == Reading(Some(FloatOf(whole, frac)), Ambiguous)
  {
    var s := whole + [c] + frac;
    assert s[0] == whole[0] && s[|s| - 1] == frac[2];
    ThousandGeneral(whole, c, frac);
    TrimmedIsGeneral(s);
  }

  // ------------------------------------------------------------------ which numerals are accepted

  /** Two or more groups of digits: one to three in the first, three in every other. */
  ghost predicate Groups(gs: seq<string>) {
    && |gs| >= 2 && 1 <= |gs[0]| <= 3
    && (forall i :: 0 <= i < |gs| ==> AllDigits(gs[i]))
    && (forall i :: 1 <= i < |gs| ==> |gs[i]| == 3)
  }

  function Joined(gs: seq<string>, sep: char): string {
    if |gs| == 0 then ""
    else if |gs| == 1 then gs[0]
    else Joined(gs[..|gs| - 1], sep) + [sep] + gs[|gs| - 1]
  }

  ghost predicate InGroups(s: string, sep: char) { exists gs :: Groups(gs) && s == Joined(gs, sep) }

  lemma {:induction false} GroupedHas(s: string, sep: char) returns (gs: seq<string>)
    requires Grouped(s, sep)
    ensures Groups(gs) && s == Joined(gs, sep)
    decreases |s|
  {
    var head, last := s[..|s| - 4], s[|s| - 3..];
    assert s == head + [sep] + last;
    if 1 <= |head| <= 3 && AllDigits(head) {
      gs := [head, last];
      assert gs[..1] == [head];
    } else {
      var front := GroupedHas(head, sep);
      gs := front + [last];
      assert gs[..|gs| - 1] == front;
    }
  }

  lemma {:induction false} GroupsMake(gs: seq<string>, sep: char)
    requires Groups(gs)
    ensures Grouped(Joined(gs, sep), sep)
    decreases |gs|
  {
    var front, last := gs[..|gs| - 1], gs[|gs| - 1];
    var s := Joined(gs, sep);
    assert s == Joined(front, sep) + [sep] + last;
    assert |Joined(front, sep)| >= 1 by { JoinedLength(front, sep); }
    assert s[|s| - 3..] == last && s[..|s| - 4] == Joined(front, sep);
    if |gs| == 2 {
      assert front == [gs[0]];
    } else {
      GroupsMake(front, sep);
    }
  }

  lemma {:induction false} JoinedLength(gs: seq<string>, sep: char)
    requires |gs| >= 1 && |gs[0]| >= 1
    ensures |Joined(gs, sep)| >= 1
  {
    if |gs| > 1 { JoinedLength(gs[..|gs| - 1], sep); }
  }

  lemma GroupedIff(s: string, sep: char)
    ensures Grouped(s, sep) <==> InGroups(s, sep)
  {
    if Grouped(s, sep) {
      var gs := GroupedHas(s, sep);
    }
    if InGroups(s, sep) {
      var gs :| Groups(gs) && s == Joined(gs, sep);
      GroupsMake(gs, sep);
    }
  }

  /** Digits, or groups of digits with one kind of separator. */
  ghost predicate WholeOk(s: string) { AllDigits(s) || InGroups(s, ',') || InGroups(s, '.') || InGroups(s, ' ') }

  /** The whole part, a mark that does not occur before, and digits; one of the two parts may be empty. */
  ghost predicate DecimalAt(n: string, i: nat) {
    && i < |n| && |n| > 1 && Mark(n[i]) && n[i] !in n[..i]
    && WholeOk(n[..i]) && AllDigits(n[i + 1..])
  }

  ghost predicate WellFormed(n: string) { (exists i: nat :: DecimalAt(n, i)) || (n != "" && WholeOk(n)) }

  lemma {:induction false} GroupedChars(s: string, sep: char)
    requires Grouped(s, sep)
    ensures forall i :: 0 <= i < |s| ==> Digit(s[i]) || s[i] == sep
    ensures Digits(s) != ""
    decreases |s|
  {
    var head, last := s[..|s| - 4], s[|s| - 3..];
    assert s == head + ([sep] + last);
    if !(1 <= |head| <= 3 && AllDigits(head)) { GroupedChars(head, sep); }
    forall i | 0 <= i < |s| ensures Digit(s[i]) || s[i] == sep {
      if i < |head| { assert s[i] == head[i]; } else if i > |head| { assert s[i] == last[i - |head| - 1]; }
    }
    DigitsJoin(head, [sep] + last);
    DigitsJoin([sep], last);
    DigitsOfDigits(last);
  }

  lemma CheckedIff(whole: string, frac: string, flag: Flag)
    ensures Checked(whole, frac, flag).Parts? <==> WholeOk(whole) && AllDigits(frac) && !(whole == "" && frac == "")
  {
    GroupedIff(whole, ',');
    GroupedIff(whole, '.');
    GroupedIff(whole, ' ');
    if AllDigits(whole) { DigitsOfDigits(whole); }
    if Grouped(whole, ',') { GroupedChars(whole, ','); }
    if Grouped(whole, '.') { GroupedChars(whole, '.'); }
    if Grouped(whole, ' ') { GroupedChars(whole, ' '); }
  }

  lemma SplitIsWellFormed(n: string)
    requires SplitCleaned(n).Parts?
    ensures WellFormed(n)
  {
    if '.' in n && ',' in n {
      AtFirstMark(n, if LastOf(n, '.') > LastOf(n, ',') then '.' else ',', NoFlag);
    } else if '.' in n {
      OneIsWellFormed(n, '.');
    } else if ',' in n {
      OneIsWellFormed(n, ',');
    } else {
      CheckedIff(n, "", NoFlag);
    }
  }

  lemma OneIsWellFormed(n: string, sep: char)
    requires Mark(sep) && sep in n && SplitOne(n, sep).Parts?
    ensures WellFormed(n)
  {
    if CountOf(n, sep) == 1 {
      var i := FirstOf(n, sep);
      AtFirstMark(n, sep, if LooksGrouped(n[..i], n[i + 1..]) then Ambiguous else NoFlag);
    } else {
      CheckedIff(n, "", if sep == '.' then DotThousands else NoFlag);
    }
  }

  lemma AtFirstMark(n: string, mark: char, flag: Flag)
    requires Mark(mark) && mark in n
    ensures var i := FirstOf(n, mark); Checked(n[..i], n[i + 1..], flag).Parts? ==> DecimalAt(n, i)
  {
    var i := FirstOf(n, mark);
    CheckedIff(n[..i], n[i + 1..], flag);
  }

  lemma DecimalSplits(n: string, i: nat)
    requires DecimalAt(n, i)
    ensures SplitCleaned(n).Parts?
  {
    var a, c, b := n[..i], n[i], n[i + 1..];
    assert n == a + [c] + b;
    if (if c == '.' then ',' else '.') in n { BothSplits(a, c, b); } else { OneSplits(a, c, b); }
  }

  ghost predicate DecimalParts(a: string, c: char, b: string) {
    Mark(c) && c !in a && WholeOk(a) && AllDigits(b) && !(a == "" && b == "")
  }

  lemma OneSplits(a: string, c: char, b: string)
    requires DecimalParts(a, c, b) && (if c == '.' then ',' else '.') !in a + [c] + b
    ensures SplitCleaned(a + [c] + b).Parts?
  {
    OneMark(a, c, b);
    CheckedIff(a, b, if LooksGrouped(a, b) then Ambiguous else NoFlag);
  }

  lemma BothSplits(a: string, c: char, b: string)
    requires DecimalParts(a, c, b) && (if c == '.' then ',' else '.') in a + [c] + b
    ensures SplitCleaned(a + [c] + b).Parts?
  {
    var n, other := a + [c] + b, if c == '.' then ',' else '.';
    OneMark(a, c, b);
    CheckedIff(a, b, NoFlag);
    LastMarkIs(a, c, b, other);
    assert SplitCleaned(n) == SplitBoth(n, c, other);
  }

  lemma LastMarkIs(a: string, c: char, b: string, other: char)
    requires AllDigits(b) && !Digit(c) && !Digit(other) && other != c
    ensures LastOf(a + [c] + b, c) == |a| && LastOf(a + [c] + b, other) < |a|
  {
    LastJoin(a + [c], b, other);
    LastJoin(a, [c], other);
    LastJoin(a + [c], b, c);
    LastJoin(a, [c], c);
  }

  lemma GroupedSplits(n: string, sep: char)
    requires Grouped(n, sep) && Mark(sep)
    ensures SplitCleaned(n).Parts?
  {
    GroupedChars(n, sep);
    GroupedIff(n, sep);
    var head, last := n[..|n| - 4], n[|n| - 3..];
    assert n == head + [sep] + last;
    if CountOf(n, sep) == 1 {
      CountJoin(head + [sep], last, sep);
      CountJoin(head, [sep], sep);
      assert CountOf([sep], sep) == 1 by { assert [sep][1..] == ""; }
      assert sep !in head;
      OneMark(head, sep, last);
      CheckedIff(head, last, if LooksGrouped(head, last) then Ambiguous else NoFlag);
    } else {
      CheckedIff(n, "", if sep == '.' then DotThousands else NoFlag);
    }
  }

  lemma WholeSplits(n: string)
    requires n != "" && WholeOk(n)
    ensures SplitCleaned(n).Parts?
  {
    GroupedIff(n, ',');
    GroupedIff(n, '.');
    GroupedIff(n, ' ');
    if AllDigits(n) {
      CheckedIff(n, "", NoFlag);
    } else if Grouped(n, ' ') {
      GroupedChars(n, ' ');
      CheckedIff(n, "", NoFlag);
    } else if Grouped(n, ',') {
      GroupedSplits(n, ',');
    } else {
      GroupedSplits(n, '.');
    }
  }

  /** A numeral is accepted exactly if it is well formed: nothing badly grouped or with stray marks is read. */
  lemma AcceptedIff(n: string)
    ensures SplitCleaned(n).Parts? <==> WellFormed(n)
  {
    if SplitCleaned(n).Parts? { SplitIsWellFormed(n); }
    if i: nat :| DecimalAt(n, i) {
      DecimalSplits(n, i);
    } else if n != "" && WholeOk(n) {
      WholeSplits(n);
    }
  }

  /** Every accepted number outside scientific notation has a well-formed numeral. */
  lemma AcceptedIsWellFormed(cell: string)
    requires Parse(cell).value.Some? && !IsSci(Minus(Strip(cell, Space)))
    ensures WellFormed(CleanNumeral(cell))
  {
    AcceptedByGeneral(cell);
    GeneralSplits(Strip(cell, Space));
    AcceptedIff(CleanNumeral(cell));
  }

  lemma GeneralSplits(s: string)
    requires General(s).value.Some? && !IsSci(Minus(s))
    ensures SplitNumber(NumeralOf(Inside(s))).Parts?
  {
    CoreSplits(Inside(s), '(' in Minus(s) || ')' in Minus(s));
  }

  lemma CoreSplits(s: string, negative: bool)
    requires Core(s, negative).value.Some?
    ensures SplitNumber(NumeralOf(s)).Parts?
  {}

  /** A sign and a bare numeral are accepted exactly if the numeral is well formed. */
  lemma BareAcceptedIff(sign: string, body: string)
    requires BareNumber(sign, body)
    ensures General(sign + body).value.Some? <==> WellFormed(body)
  {
    BareGeneral(sign, body);
    BlanksNothing(body);
    StripNothing(body, Blank);
    AcceptedIff(body);
  }

  // ------------------------------------------------------------------ signs and parentheses

  function Negated(r: Reading): Reading {
    match r.value
    case None => r
    case Some(v) => Reading(Some(-v), r.flag)
  }

  /** The minus sign of typography is a minus. */
  lemma MinusSign(x: string)
    ensures General("\U{2212}" + x) == General("-" + x)
  {
    assert ("\U{2212}" + x)[1..] == x && ("-" + x)[1..] == x;
    assert Minus("\U{2212}" + x) == Minus("-" + x);
  }

  predicate Unmarked(s: string) { '(' !in s && ')' !in s && '-' !in s && '+' !in s && '\U{2212}' !in s }

  lemma ParenthesisNotSci(s: string)
    requires s != "" && s[0] == '('
    ensures !IsSci(s)
  {
    var e := ExponentAt(s);
    if e < |s| && e > 0 {
      var m := Unsigned(s[..e], true);
      assert m == s[..e] && m[0] == '(';
      var i := MarkAt(m);
      assert i > 0 && m[..i][0] == '(';
    }
  }

  lemma SplitsAt(x: string, tail: string)
    requires Unmarked(x) && Unmarked(tail)
    ensures var s := (['('] + x) + [')'] + tail;
      && Minus(s) == s && Accounting(s) == Some((Strip(x, Space), Strip(tail, Space)))
  {
    var s := (['('] + x) + [')'] + tail;
    MinusNothing(s);
    OneMark(['('] + x, ')', tail);
    OpensOnce(x, tail);
    assert s[1..|x| + 1] == x;
  }

  lemma OpensOnce(x: string, tail: string)
    requires Unmarked(x) && Unmarked(tail)
    ensures CountOf((['('] + x) + [')'] + tail, '(') == 1
  {
    OneMark("", '(', x + [')'] + tail);
    assert (['('] + x) + [')'] + tail == "" + ['('] + (x + [')'] + tail);
  }

  lemma ReadingNegates(split: Split)
    requires split.Parts? ==> AllDigits(split.whole) && AllDigits(split.frac)
    ensures ReadingOf(false, split, true) == Negated(ReadingOf(false, split, false))
  {}

  lemma CoreNegates(s: string)
    requires '-' !in s
    ensures Core(s, true) == Negated(Core(s, false))
  {
    StripKeeps(s, Space, '-');
    match CoreMatch(Strip(s, Space))
    case None =>
    case Some(m) =>
      assert !m.negative;
      ReadingNegates(SplitNumber(m.num));
  }

  lemma UnmarkedStrip(s: string)
    requires Unmarked(s)
    ensures Unmarked(Strip(s, Space))
  {
    StripKeeps(s, Space, '(');
    StripKeeps(s, Space, ')');
    StripKeeps(s, Space, '-');
    StripKeeps(s, Space, '+');
    StripKeeps(s, Space, '\U{2212}');
  }

  lemma ParenthesesRead(x: string, tail: string)
    requires Unmarked(x) && Unmarked(tail) && AffixOk(SkipWs(Strip(tail, Space)))
    ensures General((['('] + x) + [')'] + tail) == Core(Strip(x, Space) + " " + Strip(tail, Space), true)
  {
    SplitsAt(x, tail);
    ParenthesisNotSci((['('] + x) + [')'] + tail);
    UnmarkedStrip(x);
  }

  lemma UnmarkedRead(z: string)
    requires Unmarked(z) && !IsSci(z)
    ensures General(z) == Core(z, false)
  {
    MinusNothing(z);
  }

  /** Accounting parentheses negate: the number in them, with what follows, reads as its negative. */
  lemma ParenthesesNegate(x: string, tail: string)
    requires Unmarked(x) && Unmarked(tail) && AffixOk(SkipWs(Strip(tail, Space)))
    requires !IsSci(Strip(x, Space) + " " + Strip(tail, Space))
    ensures General((['('] + x) + [')'] + tail) == Negated(General(Strip(x, Space) + " " + Strip(tail, Space)))
  {
    ParenthesesRead(x, tail);
    UnmarkedStrip(x);
    UnmarkedStrip(tail);
    UnmarkedRead(Strip(x, Space) + " " + Strip(tail, Space));
    CoreNegates(Strip(x, Space) + " " + Strip(tail, Space));
  }

  // ------------------------------------------------------------------ affixes

  lemma {:induction false} RunThen(body: string, post: string)
    requires (forall i :: 0 <= i < |body| ==> NumChar(body[i])) && (post != "" ==> !NumChar(post[0]))
    ensures RunLength(body + post) == |body|
  {
    if body == "" {
      assert body + post == post;
    } else {
      assert (body + post)[1..] == body[1..] + post;
      RunThen(body[1..], post);
    }
  }

  lemma NoExponent(x: string)
    requires forall i :: 0 <= i < |x| ==> !Digit(x[i])
    ensures !Exponent(x)
  {
    var digits := Unsigned(x, true);
    if digits != "" { assert digits[0] in x; }
  }

  lemma NothingAfterE(a: string, post: string)
    requires forall i :: 0 <= i < |a| ==> a[i] != 'e' && a[i] != 'E'
    requires forall i :: 0 <= i < |post| ==> !Digit(post[i])
    ensures !IsSci(a + post)
  {
    var s := a + post;
    var e := ExponentAt(s);
    if e < |s| {
      assert s[e] == 'e' || s[e] == 'E';
      assert e >= |a|;
      var x := s[e + 1..];
      assert forall i :: 0 <= i < |x| ==> x[i] == post[e + 1 - |a| + i];
      NoExponent(x);
    }
  }

  lemma AffixNotSci(sign: string, body: string, post: string)
    requires BareNumber(sign, body) && AllClean(post)
    ensures !IsSci(sign + body + post)
  {
    Lacks(sign, body, 'e');
    Lacks(sign, body, 'E');
    NothingAfterE(sign + body, post);
  }

  lemma AffixMatches(sign: string, body: string, post: string)
    requires BareNumber(sign, body) && AffixOk(post) && (post != "" ==> !NumChar(post[0]))
    ensures CoreMatch(sign + body + post) == Some(Match(sign == "-", body))
  {
    var s := sign + body + post;
    assert s[|sign|] == body[0];
    assert forall j :: 0 <= j < |sign| ==> s[j] == '-';
    assert FirstDigit(s) == |sign| && NumberAt(s) == |sign|;
    RunThen(body, post);
    CoreParts(sign, body, post);
    NoPrefix(sign);
  }

  lemma SameMatch(s: string, t: string)
    requires CoreMatch(Strip(s, Space)) == CoreMatch(Strip(t, Space))
    ensures Core(s, false) == Core(t, false)
  {}

  lemma PlainlyCore(s: string)
    requires Minus(s) == s && !IsSci(s) && '(' !in s && ')' !in s
    ensures General(s) == Core(s, false)
  {}

  lemma AffixedPlainly(sign: string, body: string, post: string)
    requires BareNumber(sign, body) && AllClean(post)
    ensures var s := sign + body + post; Minus(s) == s && !IsSci(s) && '(' !in s && ')' !in s
  {
    var s := sign + body + post;
    AffixNotSci(sign, body, post);
    BareNotSci(sign, body);
    Lacks(sign, body, '\U{2212}');
    MinusNothing(s);
  }

  /** Currencies and units behind a number do not change how it is read. (A cell is trimmed before.) */
  lemma AffixesAreIgnored(sign: string, body: string, post: string)
    requires BareNumber(sign, body) && AffixOk(post)
    requires post != "" ==> !NumChar(post[0]) && !Space(post[|post| - 1])
    ensures General(sign + body + post) == General(sign + body)
  {
    AffixClean(post);
    AffixedPlainly(sign, body, post);
    PlainlyCore(sign + body + post);
    BareNotSci(sign, body);
    PlainlyCore(sign + body);
    AffixMatches(sign, body, post);
    BareCore(sign, body);
    BareStart(sign, body);
    StripNothing(sign + body + post, Space);
    SameMatch(sign + body + post, sign + body);
  }

  // ------------------------------------------------------------------ scientific notation

  /** A mantissa: digits, or digits around a mark, or a mark and digits. */
  function MantissaText(whole: string, mark: string, frac: string): string { whole + mark + frac }

  predicate MantissaParts(whole: string, mark: string, frac: string) {
    && AllDigits(whole) && AllDigits(frac)
    && (if mark == "" then frac == "" && whole != "" else (mark == "." || mark == ",") && frac != "")
  }

  predicate SignText(sign: string, plus: bool) { sign == "" || sign == "-" || (plus && sign == "+") }

  lemma MantissaIs(whole: string, mark: string, frac: string)
    requires MantissaParts(whole, mark, frac)
    ensures var m := MantissaText(whole, mark, frac); Mantissa(m) && MantissaValue(m) == FloatOf(whole, frac)
  {
    var m := MantissaText(whole, mark, frac);
    if mark == "" {
      assert m == whole && MarkAt(m) == |m| && m[..|m|] == whole;
    } else {
      assert mark == [mark[0]];
      OneMark(whole, mark[0], frac);
      assert m == whole + [mark[0]] + frac;
      var other := if mark[0] == '.' then ',' else '.';
      assert other !in m;
    }
  }

  lemma ExponentIs(sign: string, digits: string)
    requires SignText(sign, true) && digits != "" && AllDigits(digits)
    ensures Exponent(sign + digits)
    ensures ExponentValue(sign + digits) == if sign == "-" then -(Nat(digits) as int) else Nat(digits)
  {
    assert Unsigned(sign + digits, true) == digits;
  }

  lemma MantissaChars(m: string)
    requires Mantissa(m)
    ensures m != "" && forall i :: 0 <= i < |m| ==> Digit(m[i]) || Mark(m[i])
  {
    var i := MarkAt(m);
    if i < |m| {
      assert forall k :: i < k < |m| ==> m[k] == m[i + 1..][k - i - 1];
    }
    assert forall k :: 0 <= k < i ==> m[k] == m[..i][k];
  }

  lemma ExponentChars(x: string)
    requires Exponent(x)
    ensures x != "" && Digit(x[|x| - 1]) && forall i :: 0 <= i < |x| ==> Digit(x[i]) || x[i] == '-' || x[i] == '+'
  {
    var digits := Unsigned(x, true);
    if |digits| < |x| {
      assert forall k :: 0 < k < |x| ==> x[k] == digits[k - 1];
    }
  }

  predicate SciChar(c: char) { Digit(c) || Mark(c) || c == '-' || c == '+' }

  /** Sign, mantissa, `e`, and exponent: the only `e` is this one, and nothing else is unusual. */
  lemma SciShape(sign: string, m: string, e: char, x: string)
    requires SignText(sign, true) && Mantissa(m) && (e == 'e' || e == 'E') && Exponent(x)
    ensures forall i :: 0 <= i < |sign + m| ==> SciChar((sign + m)[i])
    ensures m != "" && m[0] != '-' && m[0] != '+'
    ensures x != "" && Digit(x[|x| - 1]) && forall i :: 0 <= i < |x| ==> SciChar(x[i])
  {
    MantissaChars(m);
    ExponentChars(x);
  }

  lemma AtE(a: string, e: char, x: string)
    requires (e == 'e' || e == 'E') && (forall i :: 0 <= i < |a| ==> SciChar(a[i])) && forall i :: 0 <= i < |x| ==>
        SciChar(x[i])
    ensures var s := a + [e] + x; ExponentAt(s) == |a| && s[..|a|] == a && s[|a| + 1..] == x
    ensures '\U{2212}' !in a + [e] + x
  {
    var s, other := a + [e] + x, if e == 'e' then 'E' else 'e';
    OneMark(a, e, x);
    assert other !in s;
  }

  predicate SciText(a: string, x: string) {
    && a != "" && SciEnd(x)
    && (forall i :: 0 <= i < |a| ==> SciChar(a[i])) && (forall i :: 0 <= i < |x| ==> SciChar(x[i]))
  }

  predicate SciEnd(x: string) { x != "" && Digit(x[|x| - 1]) }

  lemma SciOf(s: string, a: string, x: string)
    requires |a| < |s| && ExponentAt(s) == |a| && s[..|a|] == a && s[|a| + 1..] == x
    requires Mantissa(Unsigned(a, true)) && Exponent(x)
    ensures IsSci(s)
    ensures SciValue(s) == Signed(s[0] == '-', Times(MantissaValue(Unsigned(a, true)), TenTo(ExponentValue(x))))
  {
    SciIs(s, a, x);
    SciValueIs(s, a, x);
  }

  lemma SciIs(s: string, a: string, x: string)
    requires |a| < |s| && ExponentAt(s) == |a| && s[..|a|] == a && s[|a| + 1..] == x
    requires Mantissa(Unsigned(a, true)) && Exponent(x)
    ensures IsSci(s)
  {}

  lemma SciValueIs(s: string, a: string, x: string)
    requires IsSci(s) && ExponentAt(s) == |a| && s[..|a|] == a && s[|a| + 1..] == x
    ensures Mantissa(Unsigned(a, true)) && Exponent(x)
    ensures SciValue(s) == Signed(s[0] == '-', Times(MantissaValue(Unsigned(a, true)), TenTo(ExponentValue(x))))
  {}

  lemma SciAt(a: string, e: char, x: string) returns (s: string)
    requires SciText(a, x) && (e == 'e' || e == 'E') && Mantissa(Unsigned(a, true)) && Exponent(x)
    ensures s == a + [e] + x && IsSci(s) && '\U{2212}' !in s && !Space(s[0]) && Digit(s[|s| - 1])
    ensures SciValue(s) == Signed(a[0] == '-', Times(MantissaValue(Unsigned(a, true)), TenTo(ExponentValue(x))))
  {
    s := a + [e] + x;
    AtE(a, e, x);
    assert s[0] == a[0] && s[|s| - 1] == x[|x| - 1];
    SciOf(s, a, x);
  }

  lemma SciFront(sign: string, m: string, e: char, x: string)
    requires SignText(sign, true) && Mantissa(m) && (e == 'e' || e == 'E') && Exponent(x)
    ensures SciText(sign + m, x) && Unsigned(sign + m, true) == m && ((sign + m)[0] == '-' <==> sign == "-")
  {
    SciShape(sign, m, e, x);
  }

  lemma {:induction false} LowerSame(s: string)
    ensures |Lower(s)| == |s| && forall i :: 0 <= i < |s| && s[i] < 'A' ==> Lower(s)[i] == s[i]
  {
    if s != "" {
      LowerSame(s[1..]);
    }
  }

  /** A string that ends with a digit is none of those for a missing value. */
  lemma EndsInDigit(s: string)
    requires s != "" && Digit(s[|s| - 1])
    ensures Lower(s) !in ["nan", "none", "null", "-"]
  {
    LowerSame(s);
    assert Digit(Lower(s)[|Lower(s)| - 1]);
  }

  lemma TrimmedIsGeneral(s: string)
    requires s != "" && !Space(s[0]) && Digit(s[|s| - 1]) && |s| <= MAX_NUMBER_CELL_CHARS
    ensures Parse(s) == General(s)
  {
    StripNothing(s, Space);
    EndsInDigit(s);
    ParseIsGeneral(s);
  }

  /** The value of scientific notation: the mantissa times a power of ten, with its sign. */
  function SciMeaning(sign: string, whole: string, frac: string, esign: string, digits: string): real
    requires AllDigits(whole) && AllDigits(frac) && AllDigits(digits)
  {
    Signed(sign == "-", Times(FloatOf(whole, frac), TenTo(if esign == "-" then -(Nat(digits) as int) else Nat(digits))))
  }

  /** It is read with that value and without a flag, unless it is too large. */
  lemma SciReads(sign: string, whole: string, mark: string, frac: string, e: char, esign: string, digits: string)
    requires SignText(sign, true) && MantissaParts(whole, mark, frac) && (e == 'e' || e == 'E')
    requires SignText(esign, true) && digits != "" && AllDigits(digits)
    ensures var s, v := sign + (whole + mark + frac) + [e] + (esign + digits),
        SciMeaning(sign, whole, frac, esign, digits);
      |s| <= MAX_NUMBER_CELL_CHARS ==> Parse(s) == if Finite(v) then Reading(Some(v), NoFlag) else INVALID
  {
    var m, x := MantissaText(whole, mark, frac), esign + digits;
    MantissaIs(whole, mark, frac);
    ExponentIs(esign, digits);
    SciFront(sign, m, e, x);
    SciMeans(sign, whole, frac, esign, digits, MantissaValue(m), ExponentValue(x));
    SciReadsAt(sign + m, e, x, SciMeaning(sign, whole, frac, esign, digits));
  }

  lemma SciMeans(sign: string, whole: string, frac: string, esign: string, digits: string, m: real, x: int)
    requires AllDigits(whole) && AllDigits(frac) && AllDigits(digits)
    requires m == FloatOf(whole, frac) && x == if esign == "-" then -(Nat(digits) as int) else Nat(digits)
    ensures SciMeaning(sign, whole, frac, esign, digits) == Signed(sign == "-", Times(m, TenTo(x)))
  {}

  lemma SciReadsAt(a: string, e: char, x: string, v: real)
    requires SciText(a, x) && (e == 'e' || e == 'E') && Mantissa(Unsigned(a, true)) && Exponent(x)
    requires v == Signed(a[0] == '-', Times(MantissaValue(Unsigned(a, true)), TenTo(ExponentValue(x))))
    ensures |a + [e] + x| <= MAX_NUMBER_CELL_CHARS ==>
      Parse(a + [e] + x) == if Finite(v) then Reading(Some(v), NoFlag) else INVALID
  {
    if |a + [e] + x| <= MAX_NUMBER_CELL_CHARS {
      var s := SciAt(a, e, x);
      MinusNothing(s);
      TrimmedIsGeneral(s);
      SciGeneral(s, v);
    }
  }

  lemma SciGeneral(s: string, v: real)
    requires Minus(s) == s && IsSci(s) && SciValue(s) == v
    ensures General(s) == if Finite(v) then Reading(Some(v), NoFlag) else INVALID
  {}
}
