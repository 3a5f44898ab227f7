/** The number parser of app/sources/csv_mapper.py: a fast path for plain numbers, and a general path that reads signs,
    currencies, grouping and accounting parentheses, or refuses. */
module Numbers {
  import opened Common
  import opened Strings

  datatype Flag = NoFlag | Invalid | Ambiguous | DotThousands
  datatype Reading = Reading(value: Option<real>, flag: Flag)

  const INVALID := Reading(None, Invalid)
  const MAX_NUMBER_CELL_CHARS := 64

  // ------------------------------------------------------------------ values

  /** `float("int.frac")`, exactly. */
  function FloatOf(whole: string, frac: string): real
    requires AllDigits(whole) && AllDigits(frac)
  {
    Nat(whole) as real + Nat(frac) as real / Pow10(|frac|) as real
  }

  function Signed(negative: bool, v: real): real { if negative then -v else v }

  function TenTo(e: int): real
    decreases if e < 0 then -e else e
  {
    if e == 0 then 1.0 else if e > 0 then 10.0 * TenTo(e - 1) else TenTo(e + 1) / 10.0
  }

  function TwoTo(e: nat): real { if e == 0 then 1.0 else 2.0 * TwoTo(e - 1) }

  /** Values from here on round to infinity. */
  predicate Finite(v: real) { var limit := TwoTo(1024) - TwoTo(970); -limit < v < limit }

  // ------------------------------------------------------------------ the fast path

  function PlainWhole(s: string): string { var body := Unsigned(s, false); body[..FirstOf(body, '.')] }

  function PlainFrac(s: string): string {
    var body := Unsigned(s, false);
    var dot := FirstOf(body, '.');
    if dot < |body| then body[dot + 1..] else ""
  }

  /** `-?(\d+)(?:\.(\d+))?`, except what could also be a grouped thousand. */
  predicate Plain(s: string) {
    var whole, frac := PlainWhole(s), PlainFrac(s);
    && whole != "" && AllDigits(whole) && AllDigits(frac) && ('.' in s ==> frac != "")
    && !(|frac| == 3 && |whole| <= 3 && whole[0] != '0')
  }

  /** The string without a leading minus, or plus where that is allowed. */
  function Unsigned(s: string, plus: bool): (r: string)
    ensures |r| <= |s|
  {
    if s != "" && (s[0] == '-' || (plus && s[0] == '+')) then s[1..] else s
  }

  function PlainValue(s: string): real
    requires s != "" && Plain(s)
  {
    Signed(s[0] == '-', FloatOf(PlainWhole(s), PlainFrac(s)))
  }

  // ------------------------------------------------------------------ the general path

  /** The characters the source calls white space inside a number. */
  predicate Ws(c: char) { c == ' ' || c == '\t' || c == '\U{a0}' || c == '\U{202f}' || c == '\U{2009}' }

  predicate NumChar(c: char) { Digit(c) || c == '.' || c == ',' || Ws(c) }

  function Minus(s: string): (r: string)
    ensures |r| == |s|
  {
    if s == "" then "" else [if s[0] == '\U{2212}' then '-' else s[0]] + Minus(s[1..])
  }

  // ---- scientific notation

  function ExponentAt(s: string): (i: nat)
    ensures i <= |s|
  {
    if FirstOf(s, 'e') <= FirstOf(s, 'E') then FirstOf(s, 'e') else FirstOf(s, 'E')
  }

  function MarkAt(s: string): (i: nat)
    ensures i <= |s|
  {
    if FirstOf(s, '.') <= FirstOf(s, ',') then FirstOf(s, '.') else FirstOf(s, ',')
  }

  predicate Mantissa(m: string) {
    var i := MarkAt(m);
    AllDigits(m[..i]) && if i == |m| then m != "" else |m[i + 1..]| > 0 && AllDigits(m[i + 1..])
  }

  predicate Exponent(e: string) { var digits := Unsigned(e, true); digits != "" && AllDigits(digits) }

  predicate IsSci(s: string) {
    var e := ExponentAt(s);
    e < |s| && Mantissa(Unsigned(s[..e], true)) && Exponent(s[e + 1..])
  }

  function MantissaValue(m: string): real
    requires Mantissa(m)
  {
    var i := MarkAt(m);
    FloatOf(m[..i], if i == |m| then "" else m[i + 1..])
  }

  function ExponentValue(e: string): int
    requires Exponent(e)
  {
    if e[0] == '-' then -(Nat(Unsigned(e, true)) as int) else Nat(Unsigned(e, true))
  }

  function SciValue(s: string): real
    requires IsSci(s)
  {
    var e := ExponentAt(s);
    Signed(s[0] == '-', Times(MantissaValue(Unsigned(s[..e], true)), TenTo(ExponentValue(s[e + 1..]))))
  }

  function Times(a: real, b: real): real { a * b }

  // ---- affixes: currencies and units

  const AFFIXES: seq<string> := ["z\U{142}", "zl", "pln", "eur", "usd", "gbp", "chf", "czk", "brutto", "netto",
                                 "szt", "sztuk", "pcs", "$", "\U{20ac}", "\U{a3}", "\U{a5}", "%"]

  /** Case is ignored the way the regular expressions do, long s and the Kelvin sign included. */
  function Fold(c: char): char {
    if 'A' <= c <= 'Z' then (c as int + 32) as char
    else if c == '\U{141}' then '\U{142}' else if c == '\U{17f}' then 's' else if c == '\U{212a}' then 'k' else c
  }

  predicate StartsWith(s: string, word: string) {
    |word| <= |s| && forall i :: 0 <= i < |word| ==> Fold(s[i]) == word[i]
  }

  function SkipWs(s: string): (r: string)
    ensures |r| <= |s|
  {
    if s != "" && Ws(s[0]) then SkipWs(s[1..]) else s
  }

  /** Any number of affixes, each with an optional full stop and white space behind it. */
  predicate AffixOk(s: string)
    decreases |s|
  {
    s == "" || exists k :: 0 <= k < |AFFIXES| && AffixStep(s, AFFIXES[k])
  }

  predicate AffixStep(s: string, word: string)
    decreases |s|, 0
  {
    && word != "" && StartsWith(s, word)
    && (var rest := s[|word|..];
        AffixOk(SkipWs(rest)) || (rest != "" && rest[0] == '.' && AffixOk(SkipWs(rest[1..]))))
  }

  predicate PrefixOk(s: string) { AffixOk(SkipWs(Unsigned(s, true))) }

  // ---- the number inside

  function FirstDigit(s: string): (i: nat)
    ensures i <= |s| && (forall j :: 0 <= j < i ==> !Digit(s[j])) && (i < |s| ==> Digit(s[i]))
  {
    if s == "" || Digit(s[0]) then 0 else 1 + FirstDigit(s[1..])
  }

  function RunLength(s: string): (n: nat)
    ensures n <= |s| && (forall j :: 0 <= j < n ==> NumChar(s[j])) && (n < |s| ==> !NumChar(s[n]))
  {
    if s == "" || !NumChar(s[0]) then 0 else 1 + RunLength(s[1..])
  }

  /** Where the number starts: at its first digit, or at a mark before it that no affix takes. */
  function NumberAt(s: string): (i: nat)
    ensures i <= FirstDigit(s) <= i + 1
    ensures i < |s| ==> NumChar(s[i])
  {
    var d := FirstDigit(s);
    if d == 0 || d == |s| || (s[d - 1] != '.' && s[d - 1] != ',') || (s[d - 1] == '.' && PrefixOk(s[..d])) then d
        else d - 1
  }

  datatype Match = Match(negative: bool, num: string)

  /** The whole string is a sign, affixes, a number, and affixes. */
  function CoreMatch(s: string): Option<Match> {
    if FirstDigit(s) < |s| then CoreFrom(s, NumberAt(s)) else None
  }

  function CoreFrom(s: string, from: nat): Option<Match>
    requires from < |s|
  {
    var to := from + RunLength(s[from..]);
    if PrefixOk(s[..from]) && AffixOk(s[to..]) then Some(Match(s[0] == '-', s[from..to])) else None
  }

  // ---- digits and separators

  datatype Split = Bad | Parts(whole: string, frac: string, splitFlag: Flag)

  function Blanks(s: string): (r: string)
    ensures |r| == |s|
  {
    if s == "" then "" else [if Ws(s[0]) then ' ' else s[0]] + Blanks(s[1..])
  }

  /** One to three digits, then groups of three behind the separator. */
  predicate Grouped(s: string, sep: char) {
    && |s| >= 5 && s[|s| - 4] == sep && AllDigits(s[|s| - 3..])
    && (var head := s[..|s| - 4]; (1 <= |head| <= 3 && AllDigits(head)) || Grouped(head, sep))
  }

  function Checked(whole: string, frac: string, flag: Flag): (r: Split)
    ensures r.Parts? ==> AllDigits(r.whole) && AllDigits(r.frac)
  {
    if !AllDigits(frac) then Bad
    else if !AllDigits(whole) && !Grouped(whole, ',') && !Grouped(whole, '.') && !Grouped(whole, ' ') then Bad
    else if Digits(whole) == "" && frac == "" then Bad
    else Parts(Digits(whole), frac, flag)
  }

  /** Both marks: the later one is decimal, and nothing is grouped behind it. */
  function SplitBoth(num: string, mark: char, group: char): (r: Split)
    ensures r.Parts? ==> AllDigits(r.whole) && AllDigits(r.frac)
  {
    var i := FirstOf(num, mark);
    if CountOf(num, mark) != 1 || group in num[i + 1..] || ' ' in num[i + 1..] then Bad
    else Checked(num[..i], num[i + 1..], NoFlag)
  }

  /** One mark: decimal when it occurs once, grouping otherwise. */
  function SplitOne(num: string, sep: char): (r: Split)
    requires sep in num
    ensures r.Parts? ==> AllDigits(r.whole) && AllDigits(r.frac)
  {
    if CountOf(num, sep) == 1 then
      var i := FirstOf(num, sep);
      Checked(num[..i], num[i + 1..], if LooksGrouped(num[..i], num[i + 1..]) then Ambiguous else NoFlag)
    else Checked(num, "", if sep == '.' then DotThousands else NoFlag)
  }

  predicate LooksGrouped(whole: string, frac: string) {
    |frac| == 3 && ' ' !in whole && 1 <= |whole| <= 3 && whole[0] != '0'
  }

  function SplitCleaned(num: string): (r: Split)
    ensures r.Parts? ==> AllDigits(r.whole) && AllDigits(r.frac)
  {
    var dots, commas := CountOf(num, '.'), CountOf(num, ',');
    if dots > 0 && commas > 0 then
      if LastOf(num, '.') > LastOf(num, ',') then SplitBoth(num, '.', ',') else SplitBoth(num, ',', '.')
    else if dots > 0 then SplitOne(num, '.')
    else if commas > 0 then SplitOne(num, ',')
    else Checked(num, "", NoFlag)
  }

  function SplitNumber(text: string): (r: Split)
    ensures r.Parts? ==> AllDigits(r.whole) && AllDigits(r.frac)
  {
    SplitCleaned(Strip(Blanks(text), Blank))
  }

  function Core(s: string, negative: bool): Reading {
    match CoreMatch(Strip(s, Space))
    case None => INVALID
    case Some(m) => ReadingOf(m.negative, SplitNumber(m.num), negative)
  }

  /** A number with its sign, inside parentheses or not; both is one minus too many. */
  function ReadingOf(minus: bool, split: Split, negative: bool): Reading
    requires split.Parts? ==> AllDigits(split.whole) && AllDigits(split.frac)
  {
    match split
    case Bad => INVALID
    case Parts(whole, frac, flag) =>
      if minus && negative then INVALID
      else Reading(Some(Signed(minus || negative, FloatOf(whole, frac))), flag)
  }

  // ---- accounting parentheses

  function Accounting(s: string): Option<(string, string)> {
    if s == "" || s[0] != '(' || CountOf(s, '(') != 1 || CountOf(s, ')') != 1 then None
    else
      var close := FirstOf(s, ')');
      Some((Strip(s[1..close], Space), Strip(s[close + 1..], Space)))
  }

  function General(s: string): Reading {
    var t := Minus(s);
    if IsSci(t) then (if Finite(SciValue(t)) then Reading(Some(SciValue(t)), NoFlag) else INVALID)
    else if '(' in t || ')' in t then
      match Accounting(t)
      case None => INVALID
      case Some((inner, tail)) =>
        if '-' in inner || '+' in inner || !AffixOk(SkipWs(tail)) then INVALID else Core(inner + " " + tail, true)
    else Core(t, false)
  }

  function Lower(s: string): string {
    if s == "" then "" else [if 'A' <= s[0] <= 'Z' then (s[0] as int + 32) as char else s[0]] + Lower(s[1..])
  }

  function Parse(cell: string): Reading {
    var s := Strip(cell, Space);
    if s == "" || Lower(s) in ["nan", "none", "null", "-"] then Reading(None, NoFlag)
    else if |s| > MAX_NUMBER_CELL_CHARS then INVALID
    else if Plain(s) then Reading(Some(PlainValue(s)), NoFlag)
    else General(s)
  }
}
