/** Amounts as the reports print them (app/reporting/fmt.py), on whole cents, and the round trip through the parser. */
module Money {
  import opened Common
  import opened Strings
  import opened Numbers
  import opened NumberForms
  import opened NumberTheorems

  function DigitChar(d: nat): (c: char)
    requires d < 10
    ensures Digit(c) && DigitValue(c) == d
  {
    ('0' as int + d) as char
  }

  function Two(n: nat): string
    requires n < 100
  {
    [DigitChar(n / 10), DigitChar(n % 10)]
  }

  function Three(n: nat): string
    requires n < 1000
  {
    [DigitChar(n / 100)] + Two(n % 100)
  }

  function Short(n: nat): string
    requires n < 1000
  {
    if n < 10 then [DigitChar(n)] else if n < 100 then Two(n) else Three(n)
  }

  /** Groups of three behind a separator. */
  function Thousands(n: nat, sep: char): string {
    if n < 1000 then Short(n) else Thousands(n / 1000, sep) + ([sep] + Three(n % 1000))
  }

  function Abs(n: int): nat { if n < 0 then -n else n }

  function Body(cents: int, sep: char, mark: char): string {
    Thousands(Abs(cents) / 100, sep) + [mark] + Two(Abs(cents) % 100)
  }

  function Text(cents: int, sep: char, mark: char): string {
    Sign(cents) + Body(cents, sep, mark)
  }

  function Sign(cents: int): string { if cents < 0 then "-" else "" }

  /** `7 255,95`: a space between thousands, a comma before the cents, no minus on zero. */
  function Pln(cents: int): string { Text(cents, ' ', ',') }

  // ------------------------------------------------------------------ what the printer writes

  lemma TwoIs(n: nat)
    requires n < 100
    ensures AllDigits(Two(n)) && Nat(Two(n)) == n
  {
    var s := Two(n);
    assert s[..1] == [s[0]] && s[..1][..0] == "";
    assert Nat(s[..1]) == DigitValue(s[0]);
  }

  lemma ShortIs(n: nat)
    requires n < 1000
    ensures AllDigits(Short(n)) && 1 <= |Short(n)| <= 3 && Nat(Short(n)) == n
  {
    if n < 10 {
      assert Short(n)[..0] == "";
    } else if n < 100 {
      TwoIs(n);
    } else {
      ThreeIs(n);
    }
  }

  lemma ThreeIs(n: nat)
    requires n < 1000
    ensures AllDigits(Three(n)) && |Three(n)| == 3 && Nat(Three(n)) == n
  {
    TwoIs(n % 100);
    var head := [DigitChar(n / 100)];
    assert head[..0] == "" && Nat(head) == n / 100;
    NatJoin(head, Two(n % 100));
    assert Pow10(2) == 100;
  }

  /** Only digits and separators, digits at both ends. */
  lemma {:induction false} ThousandsChars(n: nat, sep: char)
    ensures var s := Thousands(n, sep);
      && s != "" && Digit(s[0]) && Digit(s[|s| - 1])
      && (forall i :: 0 <= i < |s| ==> Digit(s[i]) || s[i] == sep)
      && (n < 1000 ==> AllDigits(s))
  {
    if n < 1000 {
      ShortIs(n);
    } else {
      ThousandsChars(n / 1000, sep);
      ThreeIs(n % 1000);
    }
  }

  lemma {:induction false} ThousandsGrouped(n: nat, sep: char)
    requires n >= 1000
    ensures Grouped(Thousands(n, sep), sep)
  {
    var s, head, tail := Thousands(n, sep), Thousands(n / 1000, sep), Three(n % 1000);
    ThousandsChars(n / 1000, sep);
    ThreeIs(n % 1000);
    assert s[..|s| - 4] == head && s[|s| - 3..] == tail;
    if n / 1000 < 1000 {
      ShortIs(n / 1000);
    } else {
      ThousandsGrouped(n / 1000, sep);
    }
  }

  lemma {:induction false} ThousandsDigits(n: nat, sep: char)
    requires !Digit(sep)
    ensures Digits(Thousands(n, sep)) != "" && Nat(Digits(Thousands(n, sep))) == n
  {
    if n < 1000 {
      ShortIs(n);
      DigitsOfDigits(Short(n));
    } else {
      var head, tail := Thousands(n / 1000, sep), Three(n % 1000);
      ThousandsDigits(n / 1000, sep);
      ThreeIs(n % 1000);
      GroupDigits(head, sep, tail);
      NatJoin(Digits(head), tail);
      assert Pow10(3) == 1000;
      assert n == (n / 1000) * 1000 + n % 1000;
    }
  }

  lemma GroupDigits(head: string, sep: char, tail: string)
    requires !Digit(sep) && AllDigits(tail)
    ensures Digits(head + ([sep] + tail)) == Digits(head) + tail
  {
    DigitsJoin(head, [sep] + tail);
    assert ([sep] + tail)[1..] == tail;
    DigitsOfDigits(tail);
  }

  // ------------------------------------------------------------------ what the parser makes of it

  ghost predicate Separators(sep: char, mark: char) {
    (sep == ' ' || sep == '.' || sep == ',') && (mark == '.' || mark == ',') && sep != mark
  }

  lemma CheckedThousands(n: nat, sep: char, frac: string)
    requires (sep == ' ' || sep == '.' || sep == ',') && AllDigits(frac)
    ensures Checked(Thousands(n, sep), frac, NoFlag) == Parts(Digits(Thousands(n, sep)), frac, NoFlag)
  {
    ThousandsDigits(n, sep);
    if n < 1000 {
      ThousandsChars(n, sep);
    } else {
      ThousandsGrouped(n, sep);
    }
  }

  lemma SplitThousands(n: nat, sep: char, mark: char, frac: string)
    requires Separators(sep, mark) && |frac| == 2 && AllDigits(frac)
    ensures SplitCleaned(Thousands(n, sep) + [mark] + frac) == Parts(Digits(Thousands(n, sep)), frac, NoFlag)
  {
    var whole := Thousands(n, sep);
    ThousandsChars(n, sep);
    CheckedThousands(n, sep, frac);
    if sep !in whole || sep == ' ' {
      assert NoMarks(whole) && NoMarks(frac);
      SplitAtMark(whole, mark, frac);
    } else {
      SplitTwoMarks(whole, sep, mark, frac);
    }
  }

  /** The mark behind the last group separator is the decimal one. */
  lemma SplitTwoMarks(whole: string, sep: char, mark: char, frac: string)
    requires Separators(sep, mark) && sep != ' ' && sep in whole && mark !in whole && AllDigits(frac)
    ensures SplitCleaned(whole + [mark] + frac) == Checked(whole, frac, NoFlag)
  {
    var s := whole + [mark] + frac;
    OneMark(whole, mark, frac);
    assert sep in s by {
      var i :| 0 <= i < |whole| && whole[i] == sep;
      assert s[i] == sep;
    }
    assert mark !in frac && sep !in frac && ' ' !in frac;
    LastJoin(whole + [mark], frac, mark);
    LastJoin(whole + [mark], frac, sep);
    LastJoin(whole, [mark], sep);
    assert LastOf(s, mark) == |whole| > LastOf(s, sep);
    assert SplitCleaned(s) == SplitBoth(s, mark, sep);
  }

  lemma BareText(cents: int, sep: char, mark: char)
    requires Separators(sep, mark)
    ensures BareNumber("-", Body(cents, sep, mark)) && BareNumber("", Body(cents, sep, mark))
  {
    ThousandsChars(Abs(cents) / 100, sep);
    TwoIs(Abs(cents) % 100);
  }

  lemma Hundredths(cents: int)
    ensures Signed(cents < 0, (Abs(cents) / 100) as real + (Abs(cents) % 100) as real / 100.0) == cents as real / 100.0
  {
    var n := Abs(cents);
    assert n == 100 * (n / 100) + n % 100;
    assert n as real == 100.0 * (n / 100) as real + (n % 100) as real;
  }

  lemma SplitBody(cents: int, sep: char, mark: char)
    requires Separators(sep, mark)
    ensures SplitNumber(Body(cents, sep, mark))
        == Parts(Digits(Thousands(Abs(cents) / 100, sep)), Two(Abs(cents) % 100), NoFlag)
  {
    TwoIs(Abs(cents) % 100);
    SplitThousands(Abs(cents) / 100, sep, mark, Two(Abs(cents) % 100));
    BareText(cents, sep, mark);
    Cleaned(Body(cents, sep, mark));
  }

  lemma TextParts(cents: int, sep: char, mark: char) returns (whole: string, frac: string, v: real)
    requires Separators(sep, mark)
    ensures BareNumber(Sign(cents), Body(cents, sep, mark)) && AllDigits(whole) && AllDigits(frac)
    ensures SplitNumber(Body(cents, sep, mark)) == Parts(whole, frac, NoFlag)
    ensures v == Signed(Sign(cents) == "-", FloatOf(whole, frac)) == cents as real / 100.0
  {
    whole, frac, v := Digits(Thousands(Abs(cents) / 100, sep)), Two(Abs(cents) % 100), cents as real / 100.0;
    SplitBody(cents, sep, mark);
    TwoIs(Abs(cents) % 100);
    ThousandsDigits(Abs(cents) / 100, sep);
    CentsFloat(cents, whole, frac);
    BareText(cents, sep, mark);
  }

  lemma GeneralText(cents: int, sep: char, mark: char) returns (v: real)
    requires Separators(sep, mark)
    ensures v == cents as real / 100.0 && General(Text(cents, sep, mark)) == Reading(Some(v), NoFlag)
  {
    var whole, frac, value := TextParts(cents, sep, mark);
    v := value;
    BareReads(Text(cents, sep, mark), Sign(cents), Body(cents, sep, mark), whole, frac, v);
  }

  lemma CentsFloat(cents: int, whole: string, frac: string)
    requires AllDigits(whole) && AllDigits(frac) && |frac| == 2
    requires Nat(whole) == Abs(cents) / 100 && Nat(frac) == Abs(cents) % 100
    ensures Signed(cents < 0, FloatOf(whole, frac)) == cents as real / 100.0
  {
    assert Pow10(2) == 100;
    Hundredths(cents);
  }

  /** No amount is one of the strings for a missing value. */
  lemma TextIsNoNull(cents: int, sep: char, mark: char)
    requires Separators(sep, mark)
    ensures var s := Text(cents, sep, mark);
      Strip(s, Space) == s && s != "" && Lower(s) !in ["nan", "none", "null", "-"]
  {
    var s := Text(cents, sep, mark);
    BareText(cents, sep, mark);
    BareStart(Sign(cents), Body(cents, sep, mark));
    LowerSame(s);
    assert s[|s| - 1] == Two(Abs(cents) % 100)[1];
    assert Digit(Lower(s)[|s| - 1]);
  }

  lemma ReadBack(cell: string, v: real)
    requires Strip(cell, Space) == cell && cell != "" && Lower(cell) !in ["nan", "none", "null", "-"]
    requires |cell| <= MAX_NUMBER_CELL_CHARS && General(cell) == Reading(Some(v), NoFlag)
    ensures Parse(cell) == Reading(Some(v), NoFlag)
  {
    ParseIsGeneral(cell);
  }

  /** Every printed amount that fits a cell is read back exactly and without a flag: as the reports print it, and with
      any other pair of group separator and decimal mark. */
  lemma RoundTrip(cents: int, sep: char, mark: char) returns (v: real)
    requires Separators(sep, mark) && |Text(cents, sep, mark)| <= MAX_NUMBER_CELL_CHARS
    ensures v == cents as real / 100.0 && Parse(Text(cents, sep, mark)) == Reading(Some(v), NoFlag)
  {
    TextIsNoNull(cents, sep, mark);
    v := GeneralText(cents, sep, mark);
    ReadBack(Text(cents, sep, mark), v);
  }

  lemma PlnRoundTrip(cents: int) returns (v: real)
    requires |Pln(cents)| <= MAX_NUMBER_CELL_CHARS
    ensures v == cents as real / 100.0 && Parse(Pln(cents)) == Reading(Some(v), NoFlag)
  {
    v := RoundTrip(cents, ' ', ',');
  }

  /** The shape of a printed amount: a minus for a negative one only, the whole part without leading zeros and in
      groups of three with a space between, a comma, and two digits. */
  lemma PlnShape(cents: int) returns (whole: string, frac: string)
    ensures Pln(cents) == (if cents < 0 then "-" else "") + whole + "," + frac
    ensures AllDigits(frac) && |frac| == 2
    ensures if Abs(cents) < 100_000 then AllDigits(whole) && 1 <= |whole| <= 3 else InGroups(whole, ' ')
    ensures whole[..1] == "0" ==> whole == "0"
  {
    whole, frac := Thousands(Abs(cents) / 100, ' '), Two(Abs(cents) % 100);
    TwoIs(Abs(cents) % 100);
    NoLeadingZero(Abs(cents) / 100, ' ');
    if Abs(cents) < 100_000 {
      ShortIs(Abs(cents) / 100);
    } else {
      ThousandsGrouped(Abs(cents) / 100, ' ');
      GroupedIff(whole, ' ');
    }
  }

  lemma {:induction false} NoLeadingZero(n: nat, sep: char)
    ensures Thousands(n, sep) != "" && (Thousands(n, sep)[0] == '0' ==> n == 0 && Thousands(n, sep) == "0")
  {
    if n >= 1000 { NoLeadingZero(n / 1000, sep); }
  }
}
