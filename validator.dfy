/** `InputValidator`: strict checks of one answer against the type of the field it answers. */
module Validator {
  import opened Text
  import opened Wrappers
  import opened Numbers
  import opened Calendar

  /** The `(is_valid, error_message)` pair: the message is present exactly when invalid. */
  datatype Verdict = Valid | Invalid(message: string)

  const EmptyMessage := "This field cannot be empty."
  const PhoneMessage := "Please provide a valid 10-digit phone number."
  const EmailMessage := "Please provide a valid email address."
  const AgeRangeMessage := "Please provide a realistic age (1-120)."
  const AgeNumberMessage := "Please provide your age as a number."
  const DateMessage := "Please use the date picker or format YYYY-MM-DD."
  const BloodGroupMessage := "Please enter a valid Blood Group (e.g., A+, O-)."
  const WeightRangeMessage := "Please provide a realistic weight in kg."
  const WeightNumberMessage := "Please enter weight as a number."
  const NumberMessage := "Please enter a valid number."

  // ---------------------------------------------------------------- phone

  predicate IsPhoneSeparator(c: char) { IsSpace(c) || c == '-' }

  /** `re.sub(r'[\s\-]', '', value)`. */
  function RemoveSeparators(v: string): string
  {
    if v == [] then []
    else if IsPhoneSeparator(v[0]) then RemoveSeparators(v[1..])
    else [v[0]] + RemoveSeparators(v[1..])
  }

  function DigitCount(v: string): nat
  {
    if v == [] then 0 else (if IsDigit(v[0]) then 1 else 0) + DigitCount(v[1..])
  }

  /** `validate_phone`: exactly ten digits once spaces and dashes are removed. */
  function ValidatePhone(v: string): Verdict
  {
    var clean := RemoveSeparators(v);
    if |clean| == 10 && AllDigits(clean) then Valid else Invalid(PhoneMessage)
  }

  lemma {:induction false} RemoveSeparatorsDigits(v: string)
    ensures DigitsOnly(RemoveSeparators(v))
      <==> forall i :: 0 <= i < |v| ==> IsDigit(v[i]) || IsPhoneSeparator(v[i])
    ensures DigitsOnly(RemoveSeparators(v)) ==> |RemoveSeparators(v)| == DigitCount(v)
  {
    if v != [] {
      RemoveSeparatorsDigits(v[1..]);
      var r := RemoveSeparators(v[1..]);
      if !IsPhoneSeparator(v[0]) {
        assert RemoveSeparators(v) == [v[0]] + r;
        if DigitsOnly([v[0]] + r) {
          assert ([v[0]] + r)[0] == v[0];
          forall i | 0 <= i < |r| ensures IsDigit(r[i]) {
            assert ([v[0]] + r)[i + 1] == r[i];
          }
        }
      }
      if forall i :: 0 <= i < |v| ==> IsDigit(v[i]) || IsPhoneSeparator(v[i]) {
        forall i | 0 <= i < |v[1..]| ensures IsDigit(v[1..][i]) || IsPhoneSeparator(v[1..][i]) {
          assert v[1..][i] == v[i + 1];
        }
      } else {
        var i :| 0 <= i < |v| && !(IsDigit(v[i]) || IsPhoneSeparator(v[i]));
        if i > 0 {
          assert v[1..][i - 1] == v[i];
        }
      }
    }
  }

  /**
   * A phone number is accepted exactly when it is made of digits, whitespace and dashes
   * and holds ten digits.
   */
  lemma PhoneAccepted(v: string)
    ensures ValidatePhone(v) == Valid
      <==> (forall i :: 0 <= i < |v| ==> IsDigit(v[i]) || IsPhoneSeparator(v[i])) && DigitCount(v) == 10
  {
    RemoveSeparatorsDigits(v);
  }

  // ---------------------------------------------------------------- email

  /**
   * `re.match(r"[^@]+@[^@]+\.[^@]+", v)`: the text starts with a non-empty '@'-free part,
   * an '@', a non-empty '@'-free part, a '.', and one more character that is not '@'.
   */
  ghost predicate EmailPattern(v: string) {
    exists i, k :: EmailMatchAt(v, i, k)
  }

  /** The first '@' is at `i` and the '.' after the domain's first character is at `k`. */
  ghost predicate EmailMatchAt(v: string, i: int, k: int) {
    0 < i && i + 1 < k && k + 1 < |v| && v[i] == '@' && v[k] == '.' && v[k + 1] != '@'
      && '@' !in v[..i] && '@' !in v[i + 1..k]
  }

  /** The '@'-free run at the start of `s`. */
  function AtFreePrefix(s: string): (p: string)
    ensures |p| <= |s| && p == s[..|p|] && '@' !in p
    ensures |p| < |s| ==> s[|p|] == '@'
  {
    var j := Find(s, '@');
    if j == -1 then s else s[..j]
  }

  /** The '@'-free text after the '@' holds a '.' with a character on each side. */
  predicate InnerDot(p: string) {
    |p| >= 3 && '.' in p[1..|p| - 1]
  }

  /** The verdict once the first '@' of `v` is known to be at `at` (-1 for none). */
  function EmailVerdict(v: string, at: int): Verdict
    requires -1 <= at < |v|
  {
    if at >= 1 && InnerDot(AtFreePrefix(v[at + 1..])) then Valid else Invalid(EmailMessage)
  }

  /** `validate_email`: the regular expression above, as a scan. */
  function ValidateEmail(v: string): Verdict
  {
    EmailVerdict(v, Find(v, '@'))
  }

  /** The scan accepts exactly the texts the regular expression matches. */
  lemma EmailAccepted(v: string)
    ensures ValidateEmail(v) == Valid <==> EmailPattern(v)
  {
    if ValidateEmail(v) == Valid {
      EmailScanMatches(v);
    }
    if EmailPattern(v) {
      EmailPatternScanned(v);
    }
  }

  lemma EmailPatternScanned(v: string)
    requires EmailPattern(v)
    ensures ValidateEmail(v) == Valid
  {
    var i, k :| EmailMatchAt(v, i, k);
    EmailMatchScanned(v, i, k);
  }

  lemma EmailScanMatches(v: string)
    requires ValidateEmail(v) == Valid
    ensures EmailPattern(v)
  {
    var i := Find(v, '@');
    assert EmailVerdict(v, i) == Valid;
    var rest := v[i + 1..];
    InnerDotMatches(v, i, AtFreePrefix(rest));
  }

  /** An '@' at `i >= 1` with no '@' before it, followed by an '@'-free `p` with a '.'
    * strictly inside, is a match of the pattern. */
  lemma InnerDotMatches(v: string, i: int, p: string)
    requires 1 <= i < |v| && v[i] == '@' && '@' !in v[..i]
    requires |p| <= |v| - i - 1 && p == v[i + 1..][..|p|] && '@' !in p && InnerDot(p)
    ensures EmailPattern(v)
  {
    var q := p[1..|p| - 1];
    assert '.' in q;
    var m :| 0 <= m < |q| && q[m] == '.';
    var k := i + 2 + m;
    assert v[k] == p[m + 1];
    assert v[k + 1] == p[m + 2];
    assert v[i + 1..k] == p[..m + 1];
    assert EmailMatchAt(v, i, k);
  }

  lemma EmailMatchScanned(v: string, i: int, k: int)
    requires 0 < i && i + 1 < k && k + 1 < |v| && v[i] == '@' && v[k] == '.' && v[k + 1] != '@'
    requires '@' !in v[..i] && '@' !in v[i + 1..k]
    ensures ValidateEmail(v) == Valid
  {
    FindFirst(v, '@', i);
    var rest := v[i + 1..];
    assert |AtFreePrefix(rest)| >= k - i + 1 by {
      forall t | 0 <= t < k - i + 1 ensures rest[t] != '@' {
        if t < k - i - 1 {
          assert rest[t] == v[i + 1..k][t];
        }
      }
      AtFreePrefixCovers(rest, k - i + 1);
    }
    var p := AtFreePrefix(rest);
    assert '.' in p[1..|p| - 1] by {
      assert p[k - i - 1] == rest[k - i - 1] == '.';
      assert p[1..|p| - 1][k - i - 2] == '.';
    }
    EmailAcceptedWith(v, i);
  }

  /** The scan accepts once the first '@' is at `i >= 1` and the '@'-free text after
    * it has a '.' strictly inside. */
  lemma EmailAcceptedWith(v: string, i: int)
    requires 1 <= i < |v| && Find(v, '@') == i
    requires InnerDot(AtFreePrefix(v[i + 1..]))
    ensures ValidateEmail(v) == Valid
  {
  }

  /** The '@'-free prefix reaches past every position before the first '@'. */
  lemma AtFreePrefixCovers(s: string, n: int)
    requires 0 <= n <= |s|
    requires forall t :: 0 <= t < n ==> s[t] != '@'
    ensures |AtFreePrefix(s)| >= n
  {
  }

  // ---------------------------------------------------------------- age, date, blood group, weight

  /** `validate_age`: `int(value)` within 1..120. */
  function ValidateAge(v: string): Verdict
  {
    match ParseInt(v)
    case None => Invalid(AgeNumberMessage)
    case Some(n) => if 1 <= n <= 120 then Valid else Invalid(AgeRangeMessage)
  }

  /** `validate_date`: `datetime.strptime(value, '%Y-%m-%d')` succeeds. */
  function ValidateDate(v: string): Verdict
  {
    if ParseDate(v).Some? then Valid else Invalid(DateMessage)
  }

  const BloodGroups: seq<string> := ["A+", "A-", "B+", "B-", "AB+", "AB-", "O+", "O-"]

  /** `value.strip().upper().replace(" ", "")`. */
  function CleanBloodGroup(v: string): string
  {
    RemoveChar(Upper(Strip(v)), ' ')
  }

  /** `validate_blood_group`: `^(A|B|AB|O)[+-]$` on the cleaned text, or a "KNOW" in it. */
  function ValidateBloodGroup(v: string): Verdict
  {
    var clean := CleanBloodGroup(v);
    if clean in BloodGroups || Contains(clean, "KNOW") then Valid else Invalid(BloodGroupMessage)
  }

  /** `validate_weight`: `float(value)` within 1..300 kg. */
  function ValidateWeight(v: string): Verdict
  {
    match ParseFloat(v)
    case None => Invalid(WeightNumberMessage)
    case Some(w) => if w.Within(1, 300) then Valid else Invalid(WeightRangeMessage)
  }

  /** `str(value).replace(".", "", 1).isdigit()`. */
  predicate NumberText(v: string) {
    AllDigits(ReplaceFirst(v, ".", ""))
  }

  function DotCount(v: string): nat
  {
    if v == [] then 0 else (if v[0] == '.' then 1 else 0) + DotCount(v[1..])
  }

  /** The general number check accepts digits with at most one '.', and at least one digit. */
  lemma {:induction false} NumberTextShape(v: string)
    ensures NumberText(v)
      <==> (forall i :: 0 <= i < |v| ==> IsDigit(v[i]) || v[i] == '.') && DotCount(v) <= 1 && DigitCount(v) >= 1
  {
    if v == [] {
    } else if v[0] == '.' {
      assert StartsWith(v, ".");
      assert ReplaceFirst(v, ".", "") == v[1..];
      DigitsOnlyCounts(v[1..]);
      AllDigitsVersusCounts(v[1..]);
    } else {
      assert !StartsWith(v, ".");
      var r := ReplaceFirst(v[1..], ".", "");
      assert ReplaceFirst(v, ".", "") == [v[0]] + r;
      NumberTextShape(v[1..]);
      NumberTextStep(v, r);
    }
  }

  lemma NumberTextStep(v: string, r: string)
    requires v != [] && v[0] != '.' && r == ReplaceFirst(v[1..], ".", "")
    requires NumberText(v[1..])
      <==> (forall i :: 0 <= i < |v[1..]| ==> IsDigit(v[1..][i]) || v[1..][i] == '.') && DotCount(v[1..]) <= 1 && DigitCount(v[1..]) >= 1
    ensures AllDigits([v[0]] + r)
      <==> (forall i :: 0 <= i < |v| ==> IsDigit(v[i]) || v[i] == '.') && DotCount(v) <= 1 && DigitCount(v) >= 1
  {
    ReplaceFirstNoDot(v[1..]);
    if AllDigits([v[0]] + r) {
      assert IsDigit(([v[0]] + r)[0]);
      if r != [] {
        assert AllDigits(r) by {
          forall i | 0 <= i < |r| ensures IsDigit(r[i]) { assert ([v[0]] + r)[i + 1] == r[i]; }
        }
      } else {
        ReplaceFirstEmpty(v[1..]);
      }
      forall i | 0 <= i < |v| ensures IsDigit(v[i]) || v[i] == '.' {
        if i > 0 { assert v[1..][i - 1] == v[i]; }
      }
    }
    if (forall i :: 0 <= i < |v| ==> IsDigit(v[i]) || v[i] == '.') && DotCount(v) <= 1 && DigitCount(v) >= 1 {
      assert IsDigit(v[0]);
      forall i | 0 <= i < |v[1..]| ensures IsDigit(v[1..][i]) || v[1..][i] == '.' {
        assert v[1..][i] == v[i + 1];
      }
      if DigitCount(v[1..]) == 0 {
        ReplaceFirstEmpty(v[1..]);
      }
      forall i | 0 <= i < |[v[0]] + r| ensures IsDigit(([v[0]] + r)[i]) {
        if i > 0 { assert ([v[0]] + r)[i] == r[i - 1]; }
      }
    }
  }

  /** Removing the first '.' of a digits-and-one-dot text leaves only digits. */
  lemma {:induction false} ReplaceFirstNoDot(v: string)
    ensures (forall i :: 0 <= i < |v| ==> IsDigit(v[i]) || v[i] == '.') && DotCount(v) <= 1
      ==> DigitsOnly(ReplaceFirst(v, ".", ""))
    ensures DigitsOnly(ReplaceFirst(v, ".", ""))
      ==> (forall i :: 0 <= i < |v| ==> IsDigit(v[i]) || v[i] == '.') && DotCount(v) <= 1
  {
    if v != [] {
      if v[0] == '.' {
        assert StartsWith(v, ".");
        assert ReplaceFirst(v, ".", "") == v[1..];
        DigitsOnlyCounts(v[1..]);
        forall i | 0 <= i < |v[1..]| ensures v[1..][i] == v[i + 1] { }
      } else {
        assert !StartsWith(v, ".");
        ReplaceFirstNoDot(v[1..]);
        var r := ReplaceFirst(v[1..], ".", "");
        assert ReplaceFirst(v, ".", "") == [v[0]] + r;
        if DigitsOnly([v[0]] + r) {
          assert IsDigit(([v[0]] + r)[0]);
          forall i | 0 <= i < |r| ensures IsDigit(r[i]) { assert ([v[0]] + r)[i + 1] == r[i]; }
          forall i | 0 <= i < |v| ensures IsDigit(v[i]) || v[i] == '.' {
            if i > 0 { assert v[1..][i - 1] == v[i]; }
          }
        }
        if (forall i :: 0 <= i < |v| ==> IsDigit(v[i]) || v[i] == '.') && DotCount(v) <= 1 {
          forall i | 0 <= i < |v[1..]| ensures IsDigit(v[1..][i]) || v[1..][i] == '.' {
            assert v[1..][i] == v[i + 1];
          }
          forall i | 0 <= i < |[v[0]] + r| ensures IsDigit(([v[0]] + r)[i]) {
            if i > 0 { assert ([v[0]] + r)[i] == r[i - 1]; }
          }
        }
      }
    }
  }

  /** Dropping the first '.' keeps the digit count, and empties only a text without digits. */
  lemma {:induction false} ReplaceFirstEmpty(v: string)
    ensures DigitCount(ReplaceFirst(v, ".", "")) == DigitCount(v)
  {
    if v != [] {
      if v[0] == '.' {
        assert StartsWith(v, ".");
        assert ReplaceFirst(v, ".", "") == v[1..];
      } else {
        assert !StartsWith(v, ".");
        ReplaceFirstEmpty(v[1..]);
        assert ReplaceFirst(v, ".", "") == [v[0]] + ReplaceFirst(v[1..], ".", "");
        assert ([v[0]] + ReplaceFirst(v[1..], ".", ""))[1..] == ReplaceFirst(v[1..], ".", "");
      }
    }
  }

  /** In a text of digits only, there is no '.' and every character counts as a digit. */
  lemma {:induction false} DigitsOnlyCounts(v: string)
    ensures DigitsOnly(v) ==> DotCount(v) == 0 && DigitCount(v) == |v|
    ensures DotCount(v) == 0 && (forall i :: 0 <= i < |v| ==> IsDigit(v[i]) || v[i] == '.') ==> DigitsOnly(v)
  {
    if v != [] {
      DigitsOnlyCounts(v[1..]);
      if DigitsOnly(v) {
        assert DigitsOnly(v[1..]) by {
          forall i | 0 <= i < |v[1..]| ensures IsDigit(v[1..][i]) { assert v[1..][i] == v[i + 1]; }
        }
      }
      if DotCount(v) == 0 && (forall i :: 0 <= i < |v| ==> IsDigit(v[i]) || v[i] == '.') {
        forall i | 0 <= i < |v[1..]| ensures IsDigit(v[1..][i]) || v[1..][i] == '.' {
          assert v[1..][i] == v[i + 1];
        }
        forall i | 0 <= i < |v| ensures IsDigit(v[i]) {
          if i > 0 { assert v[1..][i - 1] == v[i]; }
        }
      }
    }
  }

  lemma AllDigitsVersusCounts(v: string)
    ensures AllDigits(v) <==> DigitsOnly(v) && |v| >= 1
  {
  }

  // ---------------------------------------------------------------- dispatch

  /** `InputValidator.validate(field_type, value)`. */
  function Validate(fieldType: string, v: string): Verdict
  {
    if Strip(v) == [] then Invalid(EmptyMessage)
    else if fieldType == "phone" then ValidatePhone(v)
    else if fieldType == "email" then ValidateEmail(v)
    else if fieldType == "age" then ValidateAge(v)
    else if fieldType == "date" then ValidateDate(v)
    else if fieldType == "blood_group" then ValidateBloodGroup(v)
    else if fieldType == "weight" then ValidateWeight(v)
    else if fieldType == "number" then (if NumberText(v) then Valid else Invalid(NumberMessage))
    else Valid
  }

  const CheckedTypes: set<string> := {"phone", "email", "age", "date", "blood_group", "weight", "number"}

  /** Blank input is refused before the type is looked at, whatever the type. */
  lemma BlankRefused(fieldType: string, v: string)
    ensures Validate(fieldType, v) == Invalid(EmptyMessage) <==> forall i :: 0 <= i < |v| ==> IsSpace(v[i])
  {
    StripEmptyIffBlank(v);
    if Strip(v) != [] {
      OtherMessages(fieldType, v);
    }
  }

  /** Only the blank check uses the empty-field message. */
  lemma OtherMessages(fieldType: string, v: string)
    requires Strip(v) != []
    ensures Validate(fieldType, v) != Invalid(EmptyMessage)
  {
    var r := Validate(fieldType, v);
    if r.Invalid? {
      if fieldType == "phone" {
        assert r.message == PhoneMessage;
      } else if fieldType == "email" {
        assert r.message == EmailMessage;
      } else if fieldType == "age" {
        assert r.message in {AgeRangeMessage, AgeNumberMessage};
      } else if fieldType == "date" {
        assert r.message == DateMessage;
      } else if fieldType == "blood_group" {
        assert r.message == BloodGroupMessage;
      } else if fieldType == "weight" {
        assert r.message in {WeightRangeMessage, WeightNumberMessage};
      } else {
        assert r.message == NumberMessage;
      }
    }
  }

  /** Non-blank input of a type without a rule, "text" included, is accepted. */
  lemma UncheckedAccepted(fieldType: string, v: string)
    requires fieldType !in CheckedTypes && Strip(v) != []
    ensures Validate(fieldType, v) == Valid
  {
    assert fieldType != "phone" && fieldType != "email" && fieldType != "age" && fieldType != "date";
    assert fieldType != "blood_group" && fieldType != "weight" && fieldType != "number";
  }

  /** Age: accepted exactly when `int()` reads a number from 1 to 120; the two messages tell the cases apart. */
  lemma AgeVerdicts(v: string)
    ensures ValidateAge(v) == Valid <==> ParseInt(v).Some? && 1 <= ParseInt(v).value <= 120
    ensures ValidateAge(v) == Invalid(AgeNumberMessage) <==> ParseInt(v).None?
    ensures ValidateAge(v) == Invalid(AgeRangeMessage) <==> ParseInt(v).Some? && !(1 <= ParseInt(v).value <= 120)
  {
  }

  /** Every age `str()` writes from 1 to 120 is accepted, 0 and 121 get the range message. */
  lemma AgeBoundaries(n: int)
    ensures ValidateAge(IntToString(n)) == (if 1 <= n <= 120 then Valid else Invalid(AgeRangeMessage))
  {
    ParseIntRoundTrip(n);
  }

  /** A date `strftime('%Y-%m-%d')` writes is accepted. */
  lemma FormattedDateAccepted(dt: DateTime)
    requires dt.Valid() && 1000 <= dt.year
    ensures ValidateDate(YearText(dt.year) + "-" + Pad2(dt.month) + "-" + Pad2(dt.day)) == Valid
  {
    ParseDateRoundTrip(dt);
  }

  /** Accepted dates name real calendar days. */
  lemma DateAcceptedIsReal(v: string)
    requires ValidateDate(v) == Valid
    ensures ParseDate(v).Some? && ValidDate(ParseDate(v).value.year, ParseDate(v).value.month, ParseDate(v).value.day)
  {
  }

  /** An accepted blood group is one of the eight groups or mentions "KNOW", after cleaning. */
  lemma BloodGroupAccepted(v: string)
    ensures ValidateBloodGroup(v) == Valid
      <==> CleanBloodGroup(v) in BloodGroups || exists i :: OccursAt(CleanBloodGroup(v), "KNOW", i)
  {
    ContainsIffOccurs(CleanBloodGroup(v), "KNOW");
  }

  /** Weight: a number from 1 to 300 inclusive, with the two messages telling the cases apart. */
  lemma WeightVerdicts(v: string)
    ensures ValidateWeight(v) == Valid <==> ParseFloat(v).Some? && ParseFloat(v).value.Within(1, 300)
    ensures ValidateWeight(v) == Invalid(WeightNumberMessage) <==> ParseFloat(v).None?
  {
  }

  /** Whole numbers of kilograms: exactly 1 to 300 are accepted. */
  lemma WholeWeights(n: int)
    ensures ValidateWeight(IntToString(n)) == Valid <==> 1 <= n <= 300
  {
    var s := IntToString(n);
    ParseIntRoundTrip(n);
    ParseFloatExtendsParseInt(s, n);
    WeightVerdicts(s);
    var d := ParseFloat(s).value;
    ScaledRange(n, d.mantissa, Pow10(d.scale));
  }

  /** `lo <= n <= hi` survives scaling by a positive factor. */
  lemma ScaledRange(n: int, m: int, p: int)
    requires p >= 1 && n * p <= m <= n * p
    ensures 1 * p <= m <= 300 * p <==> 1 <= n <= 300
  {
    assert m == n * p;
    if n < 1 {
      assert n * p < 1 * p;
    } else if n > 300 {
      assert n * p > 300 * p;
    } else {
      assert 1 * p <= n * p <= 300 * p;
    }
  }
}
