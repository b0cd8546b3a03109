/** mlserver/registry.py:28-49: which texts are integers, what they are read as, and how other texts compare. */
module VersionText {
  import opened OrderedDict
  import opened ModelVersions

  // ---------- Texts that are no integers ----------

  /** Up to there the texts agree, and there the first one is over or has the lower character. */
  predicate LowerAt(a: string, b: string, k: nat) {
    k <= |a| && k < |b| && a[..k] == b[..k] && (k == |a| || a[k] < b[k])
  }

  lemma {:induction false} LowerIsLess(a: string, b: string, k: nat)
    requires LowerAt(a, b, k)
    ensures Less(a, b)
  {
    if k > 0 {
      assert a[0] == a[..k][0] && b[0] == b[..k][0];
      assert a[1..][..k - 1] == a[..k][1..] && b[1..][..k - 1] == b[..k][1..];
      LowerIsLess(a[1..], b[1..], k - 1);
    }
  }

  lemma {:induction false} LessIsLower(a: string, b: string) returns (k: nat)
    requires Less(a, b)
    ensures LowerAt(a, b, k)
  {
    if a == "" || a[0] < b[0] {
      k := 0;
    } else {
      k := LessIsLower(a[1..], b[1..]);
      assert a[..k + 1] == [a[0]] + a[1..][..k] && b[..k + 1] == [b[0]] + b[1..][..k];
      k := k + 1;
    }
  }

  /** Strings compare by the first place where they differ, and a prefix is less. */
  lemma {:induction false} LessAtFirstDifference(a: string, b: string)
    ensures Less(a, b) <==> exists k :: LowerAt(a, b, k)
  {
    if Less(a, b) { var k := LessIsLower(a, b); }
    if exists k :: LowerAt(a, b, k) {
      var k :| LowerAt(a, b, k);
      LowerIsLess(a, b, k);
    }
  }

  /** Of two versions of which one is no integer, the one whose text is greater is newer; a missing version
      is newer than any. */
  lemma {:induction false} OtherVersionsCompareByText(a: string, b: string)
    requires ParseInt(a).None? || ParseInt(b).None?
    ensures IsNewer(Some(a), Some(b)) > 0 <==> exists k :: LowerAt(b, a, k)
    ensures IsNewer(Some(a), Some(b)) == 0 <==> a == b
    ensures IsNewer(None, Some(b)) > 0 && IsNewer(Some(a), None) < 0 && IsNewer(None, None) > 0
  {
    LessAtFirstDifference(b, a);
    LessIsTotal(a, b);
    LessIsTotal(a, a);
  }

  // ---------- Texts that are integers ----------

  /** Digits with single underscores between them. */
  predicate IsNumeral(s: string) {
    && s != "" && IsDigit(s[0]) && IsDigit(s[|s| - 1])
    && (forall i :: 0 <= i < |s| ==> IsDigit(s[i]) || s[i] == '_')
    && forall i :: 0 <= i < |s| - 1 ==> IsDigit(s[i]) || IsDigit(s[i + 1])
  }

  /** The decimal value of the digits. */
  function ValueOf(s: string): nat
    requires forall i :: 0 <= i < |s| ==> IsDigit(s[i]) || s[i] == '_'
  {
    if s == "" then 0
    else
      var before, c := ValueOf(s[..|s| - 1]), s[|s| - 1];
      assert IsDigit(s[|s| - 1]) || s[|s| - 1] == '_';
      if c == '_' then before else 10 * before + (c as int - '0' as int)
  }

  lemma {:induction false} NumeralTail(s: string)
    requires |s| > 1 && IsDigit(s[|s| - 1])
    ensures var init := s[..|s| - 1];
            var rest := if init[|init| - 1] == '_' then init[..|init| - 1] else init;
            && (IsNumeral(s) <==> IsNumeral(rest))
            && (IsNumeral(s) ==> ValueOf(init) == ValueOf(rest))
  {
    var n := |s| - 1;
    assert forall i :: 0 <= i < n ==> s[..n][i] == s[i];
    if s[n - 1] == '_' {
      var rest := s[..n][..n - 1];
      assert forall i :: 0 <= i < n - 1 ==> rest[i] == s[i];
      assert IsNumeral(s) && n > 1 ==> IsDigit(s[n - 2]);
      if IsNumeral(rest) { assert forall i :: 0 <= i < n ==> IsDigit(s[i]) || s[i] == '_'; }
    }
  }

  /** `int` takes the digits exactly when they are a numeral, and reads its value. */
  lemma {:induction false} DigitsAreReadExactly(s: string)
    ensures ParseDigits(s).Some? <==> IsNumeral(s)
    ensures IsNumeral(s) ==> ParseDigits(s) == Some(ValueOf(s))
  {
    if s != "" && IsDigit(s[|s| - 1]) {
      var init := s[..|s| - 1];
      if init != "" {
        NumeralTail(s);
        DigitsAreReadExactly(if init[|init| - 1] == '_' then init[..|init| - 1] else init);
      } else {
        assert ValueOf(init) == 0;
      }
    }
  }

  /** Blanks, and tab, line feed, vertical tab, form feed and carriage return. */
  predicate AllSpaces(s: string) {
    forall i :: 0 <= i < |s| ==> s[i] == ' ' || 9 <= s[i] as int <= 13
  }

  /** White space, a sign, a numeral of at most 4300 digits, white space. */
  predicate IsIntegerText(s: string, before: string, sign: string, digits: string, after: string) {
    && s == before + sign + digits + after && AllSpaces(before) && AllSpaces(after)
    && (sign == "" || sign == "+" || sign == "-") && IsNumeral(digits) && DigitCount(digits) <= 4300
  }

  lemma {:induction false} StripsLeft(before: string, t: string)
    requires AllSpaces(before) && t != "" && !IsSpace(t[0])
    ensures StripLeft(before + t) == t
  {
    if before == "" {
      assert before + t == t;
    } else {
      assert (before + t)[1..] == before[1..] + t;
      StripsLeft(before[1..], t);
    }
  }

  lemma {:induction false} StripsRight(t: string, after: string)
    requires AllSpaces(after) && t != "" && !IsSpace(t[|t| - 1])
    ensures StripRight(t + after) == t
  {
    if after == "" {
      assert t + after == t;
    } else {
      var n := |after| - 1;
      assert (t + after)[..|t + after| - 1] == t + after[..n];
      StripsRight(t, after[..n]);
    }
  }

  lemma {:induction false} StripSplitsLeft(s: string) returns (before: string)
    ensures s == before + StripLeft(s) && AllSpaces(before)
  {
    if s != "" && IsSpace(s[0]) {
      var rest := StripSplitsLeft(s[1..]);
      before := [s[0]] + rest;
      assert s == [s[0]] + s[1..] == before + StripLeft(s[1..]);
    } else {
      before := "";
    }
  }

  lemma {:induction false} StripSplitsRight(s: string) returns (after: string)
    ensures s == StripRight(s) + after && AllSpaces(after)
  {
    if s != "" && IsSpace(s[|s| - 1]) {
      var rest := StripSplitsRight(s[..|s| - 1]);
      after := rest + [s[|s| - 1]];
      assert s == s[..|s| - 1] + [s[|s| - 1]] == StripRight(s[..|s| - 1]) + after;
    } else {
      after := "";
    }
  }

  lemma {:induction false} Trimmed(before: string, sign: string, digits: string, after: string)
    requires IsIntegerText(before + sign + digits + after, before, sign, digits, after)
    ensures StripRight(StripLeft(before + sign + digits + after)) == sign + digits
  {
    var t := sign + digits;
    assert before + sign + digits + after == before + (t + after);
    assert (t + after)[0] == t[0] && t[|t| - 1] == digits[|digits| - 1];
    StripsLeft(before, t + after);
    StripsRight(t, after);
  }

  /** `int` reads such a text as the value of its numeral, negated after a minus. */
  lemma {:induction false} IntegerTextIsRead(s: string, before: string, sign: string, digits: string, after: string)
    requires IsIntegerText(s, before, sign, digits, after)
    ensures ParseInt(s) == Some(if sign == "-" then -(ValueOf(digits) as int) else ValueOf(digits))
  {
    Trimmed(before, sign, digits, after);
    TrimmedIsRead(s, sign, digits);
  }

  lemma {:induction false} TrimmedIsRead(s: string, sign: string, digits: string)
    requires StripRight(StripLeft(s)) == sign + digits && (sign == "" || sign == "+" || sign == "-")
    requires IsNumeral(digits) && DigitCount(digits) <= 4300
    ensures ParseInt(s) == Some(if sign == "-" then -(ValueOf(digits) as int) else ValueOf(digits))
  {
    var t := sign + digits;
    DigitsAreReadExactly(digits);
    if sign == "" {
      assert t == digits && t[0] != '+' && t[0] != '-';
    } else {
      assert t[0] == sign[0] && t[1..] == digits;
    }
  }

  /** And it reads no other. */
  lemma {:induction false} ReadIsIntegerText(s: string)
    returns (before: string, sign: string, digits: string, after: string)
    requires ParseInt(s).Some?
    ensures IsIntegerText(s, before, sign, digits, after)
  {
    before := StripSplitsLeft(s);
    after := StripSplitsRight(StripLeft(s));
    var t := StripRight(StripLeft(s));
    sign, digits := SignAndDigits(t);
    Joined(before, sign, digits, after, t);
  }

  lemma {:induction false} SignAndDigits(t: string) returns (sign: string, digits: string)
    ensures t == sign + digits && (sign == "" || sign == "+" || sign == "-")
    ensures digits == if t != "" && (t[0] == '+' || t[0] == '-') then t[1..] else t
    ensures ParseDigits(digits).Some? ==> IsNumeral(digits)
  {
    if t != "" && (t[0] == '+' || t[0] == '-') {
      sign, digits := t[..1], t[1..];
    } else {
      sign, digits := "", t;
    }
    DigitsAreReadExactly(digits);
  }

  lemma {:induction false} Joined(before: string, sign: string, digits: string, after: string, t: string)
    requires t == sign + digits
    ensures before + (t + after) == before + sign + digits + after
  {
  }

  /** A version is an integer exactly when its text is white space, a sign, a numeral and white space. */
  lemma {:induction false} IntegersAreExactly(s: string)
    ensures ParseInt(s).Some? <==> exists before, sign, digits, after :: IsIntegerText(s, before, sign, digits, after)
  {
    if ParseInt(s).Some? { var before, sign, digits, after := ReadIsIntegerText(s); }
    if exists before, sign, digits, after :: IsIntegerText(s, before, sign, digits, after) {
      var before, sign, digits, after :| IsIntegerText(s, before, sign, digits, after);
      IntegerTextIsRead(s, before, sign, digits, after);
    }
  }
}
