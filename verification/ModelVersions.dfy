/** mlserver/registry.py:20-49: how two model versions compare. */
module ModelVersions {
  import opened OrderedDict

  type Version = Option<string>

  // ---------- int(str) ----------

  /** More digits than this are refused by `int`. */
  const MAX_STR_DIGITS := 4300

  predicate IsSpace(c: char) {
    c == ' ' || c == '\t' || c == '\n' || c == '\r' || c as int == 11 || c as int == 12
  }

  predicate IsDigit(c: char) {
    '0' <= c <= '9'
  }

  function StripLeft(s: string): string {
    if s != "" && IsSpace(s[0]) then StripLeft(s[1..]) else s
  }

  function StripRight(s: string): string {
    if s != "" && IsSpace(s[|s| - 1]) then StripRight(s[..|s| - 1]) else s
  }

  function DigitCount(s: string): nat {
    if s == "" then 0 else DigitCount(s[1..]) + if IsDigit(s[0]) then 1 else 0
  }

  /** Decimal digits, with single underscores between them. */
  function ParseDigits(s: string): Option<nat> {
    if s == "" || !IsDigit(s[|s| - 1]) then None
    else
      var init, digit := s[..|s| - 1], s[|s| - 1] as int - '0' as int;
      if init == "" then Some(digit)
      else
        match ParseDigits(if init[|init| - 1] == '_' then init[..|init| - 1] else init)
        case None => None
        case Some(n) => Some(10 * n + digit)
  }

  /** `int(s)` on ASCII text; `None` for a `ValueError`. */
  function ParseInt(s: string): Option<int> {
    var t := StripRight(StripLeft(s));
    var digits := if t != "" && (t[0] == '+' || t[0] == '-') then t[1..] else t;
    if DigitCount(digits) > MAX_STR_DIGITS then None
    else
      match ParseDigits(digits)
      case None => None
      case Some(n) => Some(if t[0] == '-' then -(n as int) else n)
  }

  // ---------- The order ----------

  /** `a < b` on strings. */
  predicate Less(a: string, b: string) {
    b != "" && (a == "" || a[0] < b[0] || (a[0] == b[0] && Less(a[1..], b[1..])))
  }

  function Compare(a: string, b: string): int {
    var m, n := ParseInt(a), ParseInt(b);
    if m.Some? && n.Some? then m.value - n.value
    else if Less(b, a) then 1
    else if Less(a, b) then -1
    else 0
  }

  /** `_is_newer` */
  function IsNewer(a: Version, b: Version): int {
    if a.None? then 1
    else if b.None? then -1
    else Compare(a.value, b.value)
  }

  lemma {:induction false} LessIsTotal(a: string, b: string)
    ensures if a == b then !Less(a, b) && !Less(b, a) else Less(a, b) <==> !Less(b, a)
  {
    if a != "" && b != "" && a[0] == b[0] {
      LessIsTotal(a[1..], b[1..]);
      assert a == [a[0]] + a[1..] && b == [b[0]] + b[1..];
    }
  }

  lemma {:induction false} LessIsTransitive(a: string, b: string, c: string)
    requires Less(a, b) && Less(b, c)
    ensures Less(a, c)
  {
    if a != "" && a[0] == b[0] == c[0] { LessIsTransitive(a[1..], b[1..], c[1..]); }
  }

  lemma {:induction false} EmptyStringIsOldest(version: string)
    requires version != ""
    ensures Compare(version, "") > 0 && Compare("", version) < 0
  {
    LessIsTotal(version, "");
  }

  /** Both are integers, or neither is. */
  predicate Alike(a: string, b: string) {
    ParseInt(a).Some? <==> ParseInt(b).Some?
  }

  /** The comparison is reflexive and antisymmetric in sign, whatever the versions. */
  lemma {:induction false} CompareIsAntisymmetric(a: string, b: string)
    ensures Compare(a, a) == 0
    ensures Compare(a, b) > 0 <==> Compare(b, a) < 0
    ensures Compare(a, b) == 0 <==> Compare(b, a) == 0
  {
    LessIsTotal(a, a);
    LessIsTotal(a, b);
  }

  /** Among versions that are all integers, or all non-integers, it is a total preorder. */
  lemma {:induction false} CompareIsTransitive(a: string, b: string, c: string)
    requires Alike(a, b) && Alike(b, c)
    requires Compare(a, b) <= 0 && Compare(b, c) <= 0
    ensures Compare(a, c) <= 0
    ensures Compare(a, b) < 0 || Compare(b, c) < 0 ==> Compare(a, c) < 0
  {
    LessIsTotal(a, b);
    LessIsTotal(b, c);
    LessIsTotal(a, c);
    if Less(a, b) && Less(b, c) { LessIsTransitive(a, b, c); }
  }

  // ---------- Numbers ----------

  predicate AllDigits(s: string) {
    s != "" && forall i :: 0 <= i < |s| ==> IsDigit(s[i])
  }

  /** `str(n)` without the sign */
  function Decimal(n: nat): (s: string)
    ensures AllDigits(s)
  {
    if n < 10 then [DIGITS[n]] else Decimal(n / 10) + [DIGITS[n % 10]]
  }

  const DIGITS: string := "0123456789"

  /** `str(n)` */
  function Text(n: int): string {
    if n < 0 then "-" + Decimal(-n) else Decimal(n)
  }

  predicate Short(n: int) {
    |Decimal(if n < 0 then -n else n)| <= MAX_STR_DIGITS
  }

  lemma {:induction false} DigitsCount(s: string)
    requires forall i :: 0 <= i < |s| ==> IsDigit(s[i])
    ensures DigitCount(s) == |s|
  {
    if s != "" { DigitsCount(s[1..]); }
  }

  lemma {:induction false} StripsNothing(s: string)
    requires s != "" && !IsSpace(s[0]) && !IsSpace(s[|s| - 1])
    ensures StripRight(StripLeft(s)) == s
  {
  }

  lemma {:induction false} ParseSnoc(s: string, c: char)
    requires AllDigits(s) && IsDigit(c)
    ensures ParseDigits(s + [c]) ==
            if ParseDigits(s).Some? then Some(10 * ParseDigits(s).value + (c as int - '0' as int)) else None
  {
    assert (s + [c])[..|s|] == s;
  }

  lemma {:induction false} ParseDecimal(n: nat)
    ensures ParseDigits(Decimal(n)) == Some(n)
  {
    if n >= 10 {
      ParseDecimal(n / 10);
      ParseSnoc(Decimal(n / 10), DIGITS[n % 10]);
    }
  }

  lemma {:induction false} PlainIsRead(s: string)
    requires AllDigits(s) && |s| <= MAX_STR_DIGITS
    ensures ParseInt(s) == if ParseDigits(s).Some? then Some(ParseDigits(s).value) else None
  {
    DigitsCount(s);
    StripsNothing(s);
  }

  lemma {:induction false} SignedIsRead(s: string)
    requires AllDigits(s) && |s| <= MAX_STR_DIGITS
    ensures ParseInt("-" + s) == if ParseDigits(s).Some? then Some(-(ParseDigits(s).value as int)) else None
  {
    DigitsCount(s);
    StripsNothing("-" + s);
    assert ("-" + s)[1..] == s;
  }

  /** The text of an integer is read as that integer, unless it is too long. */
  lemma {:induction false} IntegersAreRead(n: int)
    requires Short(n)
    ensures ParseInt(Text(n)) == Some(n)
  {
    if n < 0 {
      ParseDecimal(-n);
      SignedIsRead(Decimal(-n));
    } else {
      ParseDecimal(n);
      PlainIsRead(Decimal(n));
    }
  }

  /** Integer versions compare by their value, not by their text. */
  lemma {:induction false} IntegerVersionsCompareByValue(m: int, n: int)
    requires Short(m) && Short(n)
    ensures IsNewer(Some(Text(m)), Some(Text(n))) == m - n
  {
    IntegersAreRead(m);
    IntegersAreRead(n);
  }

  lemma {:induction false} ShortNumbers()
    ensures ParseInt("9") == Some(9) && ParseInt("10") == Some(10) && ParseInt("1a") == None
  {
    assert ParseDigits("9") == Some(9);
    assert "10"[..1] == "1" && ParseDigits("1") == Some(1);
    assert ParseDigits("10") == Some(10);
    assert "10"[1..] == "0" && "0"[1..] == "" && "9"[1..] == "" && "1a"[1..] == "a" && "a"[1..] == "";
    assert DigitCount("0") == 1 && DigitCount("10") == 2 && DigitCount("9") == 1;
    assert DigitCount("a") == 0 && DigitCount("1a") == 1;
    assert StripLeft("9") == "9" && StripLeft("10") == "10" && StripLeft("1a") == "1a";
    assert StripRight("9") == "9" && StripRight("10") == "10" && StripRight("1a") == "1a";
  }

  /** Mixed versions can beat one another in a circle: "9" over "1a" over "10" over "9". */
  lemma {:induction false} MixedVersionsCycle()
    ensures Compare("9", "1a") > 0 && Compare("1a", "10") > 0 && Compare("10", "9") > 0
  {
    ShortNumbers();
    assert Less("1a", "9");
    assert "10"[1..] == "0" && "1a"[1..] == "a" && Less("0", "a");
    assert Less("10", "1a");
    LessIsTotal("1a", "9");
    LessIsTotal("10", "1a");
  }
}
