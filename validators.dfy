/** The contact-form checks used by checkout: three string predicates and the form
    validator that gathers their failures into a field-keyed error map. */
module Validators {
  import opened JsString

  // ---------------------------------------------------------------------------
  // Email
  // ---------------------------------------------------------------------------

  /** Number of occurrences of `c` in `s`. */
  function Count(s: string, c: char): nat {
    if s == [] then 0 else (if s[0] == c then 1 else 0) + Count(s[1..], c)
  }

  lemma {:induction false} CountConcat(x: string, y: string, c: char)
    ensures Count(x + y, c) == Count(x, c) + Count(y, c)
  {
    if x != [] {
      var xy := x + y;
      assert xy[0] == x[0] && xy[1..] == x[1..] + y;
      CountConcat(x[1..], y, c);
    } else {
      assert x + y == y;
    }
  }

  lemma {:induction false} CountZero(x: string, c: char)
    ensures Count(x, c) == 0 <==> c !in x
  {
    if x != [] {
      CountZero(x[1..], c);
      assert x == [x[0]] + x[1..];
    }
  }

  /** Index of the first `c` in `s`, or `|s|` when there is none. */
  function IndexOf(s: string, c: char): (i: nat)
    ensures i <= |s|
    ensures i < |s| ==> s[i] == c
    ensures forall k :: 0 <= k < i ==> s[k] != c
  {
    if s == [] then 0 else if s[0] == c then 0 else 1 + IndexOf(s[1..], c)
  }

  /** The domain part holds a `.` that is neither its first nor its last character. */
  predicate HasInnerDot(d: string) {
    exists j | 0 < j < |d| - 1 :: d[j] == '.'
  }

  /** `isValidEmail`: no whitespace, exactly one `@` and not in front, and after it a
      `.` that is neither the first nor the last character of what follows the `@`. */
  predicate IsValidEmail(s: string) {
    && (forall k :: 0 <= k < |s| ==> !IsWhitespace(s[k]))
    && Count(s, '@') == 1
    && var i := IndexOf(s, '@');
       0 < i < |s| && HasInnerDot(s[i + 1..])
  }

  /** A run matched by the regular-expression class `[^\s@]+`. */
  predicate EmailAtom(x: string) {
    |x| > 0 && forall k :: 0 <= k < |x| ==> x[k] != '@' && !IsWhitespace(x[k])
  }

  /** `s` is `a@b.c` with each part a run of `[^\s@]+`. */
  predicate IsEmailSplit(s: string, a: string, b: string, c: string) {
    EmailAtom(a) && EmailAtom(b) && EmailAtom(c) && s == a + "@" + b + "." + c
  }

  /** The whole string matches `^[^\s@]+@[^\s@]+\.[^\s@]+$`, the pattern the source tests. */
  ghost predicate MatchesEmailPattern(s: string) {
    exists a, b, c :: IsEmailSplit(s, a, b, c)
  }

  /** `IsValidEmail` accepts exactly the strings the regular expression matches. */
  lemma EmailPredicateIsPattern(s: string)
    ensures IsValidEmail(s) <==> MatchesEmailPattern(s)
  {
    if IsValidEmail(s) {
      ValidEmailMatches(s);
    }
    if MatchesEmailPattern(s) {
      var a, b, c :| IsEmailSplit(s, a, b, c);
      PatternIsValidEmail(a, b, c);
    }
  }

  lemma ValidEmailMatches(s: string)
    requires IsValidEmail(s)
    ensures MatchesEmailPattern(s)
  {
    var i := IndexOf(s, '@');
    var d := s[i + 1..];
    var j :| 0 < j < |d| - 1 && d[j] == '.';
    assert s[i + 1 + j] == d[j];
    OnlyOneAt(s, i, '@');
    SplitAtMarks(s, i, i + 1 + j);
  }

  /** A character counted once occurs at no index but the one it is known at. */
  lemma OnlyOneAt(s: string, i: nat, c: char)
    requires i < |s| && s[i] == c && Count(s, c) == 1
    ensures forall k :: 0 <= k < |s| && k != i ==> s[k] != c
  {
    var x, y := s[..i], s[i + 1..];
    CountAround(s, i, c);
    CountZero(x, c);
    CountZero(y, c);
    forall k | 0 <= k < |s| && k != i ensures s[k] != c {
      if k < i { assert s[k] == x[k]; } else { assert s[k] == y[k - i - 1]; }
    }
  }

  lemma CountAround(s: string, i: nat, c: char)
    requires i < |s|
    ensures Count(s, c) == Count(s[..i], c) + Count([s[i]], c) + Count(s[i + 1..], c)
  {
    assert s == s[..i] + ([s[i]] + s[i + 1..]);
    CountConcat(s[..i], [s[i]] + s[i + 1..], c);
    CountConcat([s[i]], s[i + 1..], c);
  }

  /** Cutting at the `@` (index `i`) and the dot (index `p`) yields the regular
      expression's three runs. */
  lemma SplitAtMarks(s: string, i: nat, p: nat)
    requires 0 < i && i + 1 < p && p + 1 < |s|
    requires s[i] == '@' && s[p] == '.'
    requires forall k :: 0 <= k < |s| ==> !IsWhitespace(s[k])
    requires forall k :: 0 <= k < |s| && k != i ==> s[k] != '@'
    ensures IsEmailSplit(s, s[..i], s[i + 1..p], s[p + 1..])
  {
    var a, b, c := s[..i], s[i + 1..p], s[p + 1..];
    AtomOfSlice(s, 0, i);
    AtomOfSlice(s, i + 1, p);
    AtomOfSlice(s, p + 1, |s|);
    assert a == s[0..i];
    assert c == s[p + 1..|s|];
    var t := a + "@" + b + "." + c;
    assert |t| == |s|;
    forall k | 0 <= k < |s| ensures t[k] == s[k] {
      if k < i { assert t[k] == a[k]; }
      else if k == i { }
      else if k < p { assert t[k] == b[k - i - 1]; }
      else if k == p { }
      else { assert t[k] == c[k - p - 1]; }
    }
    assert t == s;
  }

  lemma AtomOfSlice(s: string, lo: nat, hi: nat)
    requires lo < hi <= |s|
    requires forall k :: 0 <= k < |s| ==> !IsWhitespace(s[k])
    requires forall k :: lo <= k < hi ==> s[k] != '@'
    ensures EmailAtom(s[lo..hi])
  {
    var x := s[lo..hi];
    forall k | 0 <= k < |x| ensures x[k] != '@' && !IsWhitespace(x[k]) {
      assert x[k] == s[lo + k];
    }
  }

  lemma PatternIsValidEmail(a: string, b: string, c: string)
    requires EmailAtom(a) && EmailAtom(b) && EmailAtom(c)
    ensures IsValidEmail(a + "@" + b + "." + c)
  {
    var s := a + "@" + b + "." + c;
    var i, p := |a|, |a| + 1 + |b|;
    forall k | 0 <= k < |s| ensures !IsWhitespace(s[k]) && (k != i ==> s[k] != '@') {
      if k < i { assert s[k] == a[k]; }
      else if k == i { }
      else if k < p { assert s[k] == b[k - i - 1]; }
      else if k == p { }
      else { assert s[k] == c[k - p - 1]; }
    }
    assert s[i] == '@' && s[p] == '.';
    CountOnlyAt(s, i, '@');
    var n := IndexOf(s, '@');
    assert n == i;
    assert s[i + 1..][|b|] == s[p];
  }

  /** A character present at exactly one index occurs once. */
  lemma CountOnlyAt(s: string, i: nat, c: char)
    requires i < |s| && s[i] == c
    requires forall k :: 0 <= k < |s| && k != i ==> s[k] != c
    ensures Count(s, c) == 1
  {
    var x, y := s[..i], s[i + 1..];
    CountAround(s, i, c);
    assert c !in x by {
      forall k | 0 <= k < |x| ensures x[k] != c { assert x[k] == s[k]; }
    }
    assert c !in y by {
      forall k | 0 <= k < |y| ensures y[k] != c { assert y[k] == s[i + 1 + k]; }
    }
    CountZero(x, c);
    CountZero(y, c);
  }

  // ---------------------------------------------------------------------------
  // Phone
  // ---------------------------------------------------------------------------

  /** The class `[\d\s\-\+\(\)]`. */
  predicate IsPhoneChar(c: char) {
    IsDigit(c) || IsWhitespace(c) || c == '-' || c == '+' || c == '(' || c == ')'
  }

  /** `phone.replace(/\D/g, '')`: the digits of `s`, in order. */
  function DigitsOf(s: string): (r: string)
    ensures |r| <= |s| && AllDigits(r)
  {
    if s == [] then [] else (if IsDigit(s[0]) then [s[0]] else []) + DigitsOf(s[1..])
  }

  /** Every digit of `s` is kept, as often as it occurs, and nothing else is. */
  lemma {:induction false} DigitsOfKeepsEveryDigit(s: string)
    ensures forall c :: multiset(DigitsOf(s))[c] == if IsDigit(c) then multiset(s)[c] else 0
  {
    if s != [] {
      DigitsOfKeepsEveryDigit(s[1..]);
      assert s == [s[0]] + s[1..];
      assert multiset(s) == multiset{s[0]} + multiset(s[1..]);
    }
  }

  lemma {:induction false} DigitsOfConcat(x: string, y: string)
    ensures DigitsOf(x + y) == DigitsOf(x) + DigitsOf(y)
  {
    if x != [] {
      var xy := x + y;
      assert xy[0] == x[0] && xy[1..] == x[1..] + y;
      DigitsOfConcat(x[1..], y);
    } else {
      assert x + y == y;
    }
  }

  /** `isValidPhone`: non-empty, made only of digits, whitespace, `-`, `+`, `(` and `)`,
      and holding at least ten digits. */
  predicate IsValidPhone(s: string) {
    |s| > 0 && AllPhoneChars(s) && |DigitsOf(s)| >= 10
  }

  /** With fewer than ten digits a phone number is rejected whatever else it holds, so
      every accepted number is at least ten characters long. */
  lemma PhoneNeedsTenDigits(s: string)
    ensures |DigitsOf(s)| < 10 ==> !IsValidPhone(s)
    ensures IsValidPhone(s) ==> |s| >= 10
  {
  }

  predicate AllPhoneChars(s: string) {
    forall k :: 0 <= k < |s| ==> IsPhoneChar(s[k])
  }

  lemma AllPhoneCharsConcat(x: string, y: string)
    ensures AllPhoneChars(x + y) <==> AllPhoneChars(x) && AllPhoneChars(y)
  {
    var xy := x + y;
    if AllPhoneChars(x) && AllPhoneChars(y) {
      forall k | 0 <= k < |xy| ensures IsPhoneChar(xy[k]) {
        if k < |x| { assert xy[k] == x[k]; } else { assert xy[k] == y[k - |x|]; }
      }
    }
    if AllPhoneChars(xy) {
      forall k | 0 <= k < |x| ensures IsPhoneChar(x[k]) { assert xy[k] == x[k]; }
      forall k | 0 <= k < |y| ensures IsPhoneChar(y[k]) { assert xy[|x| + k] == y[k]; }
    }
  }

  /** Adding or removing one separator character (not a digit) never changes the
      verdict. */
  lemma PhoneIgnoresSeparators(a: string, b: string, c: char)
    requires IsPhoneChar(c) && !IsDigit(c)
    ensures IsValidPhone(a + [c] + b) <==> IsValidPhone(a + b)
  {
    var s := a + ([c] + b);
    assert s == a + [c] + b;
    DigitsOfConcat(a, [c] + b);
    DigitsOfConcat([c], b);
    DigitsOfConcat(a, b);
    assert DigitsOf([c]) == [];
    AllPhoneCharsConcat(a, [c] + b);
    AllPhoneCharsConcat([c], b);
    AllPhoneCharsConcat(a, b);
  }

  // ---------------------------------------------------------------------------
  // Name
  // ---------------------------------------------------------------------------

  /** `isValidName`: at least two UTF-16 code units remain after trimming. */
  predicate IsValidName(s: string) {
    Utf16Length(Trim(s)) >= 2
  }

  /** Two characters that are not whitespace. */
  ghost predicate HasTwoVisible(s: string) {
    exists i, j :: 0 <= i < j < |s| && !IsWhitespace(s[i]) && !IsWhitespace(s[j])
  }

  /** A character above U+FFFF, which counts twice in `length`. */
  ghost predicate HasAstral(s: string) {
    exists k :: 0 <= k < |s| && IsAstral(s[k])
  }

  /** A name is valid exactly when it holds two characters that are not whitespace, or
      one character above U+FFFF (no whitespace character is). */
  lemma NameNeedsTwoVisibleCharacters(s: string)
    ensures IsValidName(s) <==> HasTwoVisible(s) || HasAstral(s)
  {
    var r := Trim(s);
    Utf16LengthAtLeastTwo(r);
    if IsValidName(s) {
      if |r| >= 2 {
        ValidNameHasTwoVisible(s);
      } else {
        TrimShape(s);
        assert IsAstral(s[TrimOffset(s)]);
      }
    }
    if HasTwoVisible(s) {
      var i, j :| 0 <= i < j < |s| && !IsWhitespace(s[i]) && !IsWhitespace(s[j]);
      TwoVisibleSurviveTrim(s, i, j);
    }
    if HasAstral(s) {
      var k :| 0 <= k < |s| && IsAstral(s[k]);
      AstralSurvivesTrim(s, k);
    }
  }

  lemma ValidNameHasTwoVisible(s: string)
    requires |Trim(s)| >= 2
    ensures HasTwoVisible(s)
  {
    TrimShape(s);
    var r := Trim(s);
    var t0 := TrimOffset(s);
    var i, j := t0, t0 + |r| - 1;
    assert 0 <= i < j < |s| && !IsWhitespace(s[i]) && !IsWhitespace(s[j]);
  }

  lemma TwoVisibleSurviveTrim(s: string, i: int, j: int)
    requires 0 <= i < j < |s| && !IsWhitespace(s[i]) && !IsWhitespace(s[j])
    ensures |Trim(s)| >= 2
  {
    TrimShape(s);
  }

  /** A character above U+FFFF is not whitespace, so trimming keeps it. */
  lemma AstralSurvivesTrim(s: string, k: int)
    requires 0 <= k < |s| && IsAstral(s[k])
    ensures |Trim(s)| >= 2 || (|Trim(s)| == 1 && IsAstral(Trim(s)[0]))
  {
    TrimShape(s);
    assert !IsWhitespace(s[k]);
    var r, i := Trim(s), TrimOffset(s);
    assert i <= k < i + |r|;
    assert r[k - i] == s[k];
  }

  // ---------------------------------------------------------------------------
  // The booking form
  // ---------------------------------------------------------------------------

  /** The fields `validateBookingForm` reads. */
  datatype BookingFields = BookingFields(name: string, email: string, phone: string, number_of_people: int)

  /** All four checks of `validateBookingForm` pass. */
  predicate IsValidBooking(data: BookingFields) {
    IsValidName(data.name) && IsValidEmail(data.email) && IsValidPhone(data.phone) && data.number_of_people >= 1
  }

  /** The keys an error map can hold. */
  datatype FormField = Name | Email | Phone | NumberOfPeople {

    /** The property name the key has in the JavaScript error object. */
    function Key(): string {
      match this
      case Name => "name"
      case Email => "email"
      case Phone => "phone"
      case NumberOfPeople => "number_of_people"
    }
  }

  /** The fixed message stored under each field key. */
  function ErrorMessage(field: FormField): (m: string)
    ensures m != ""
  {
    match field
    case Name => "Please enter a valid name (at least 2 characters)"
    case Email => "Please enter a valid email address"
    case Phone => "Please enter a valid phone number"
    case NumberOfPeople => "Number of people must be at least 1"
  }

  /** `validateBookingForm`: a key for each failing check, mapped to its message; the
      map is empty exactly when the form is valid. */
  method ValidateBookingForm(data: BookingFields) returns (errors: map<FormField, string>)
    ensures Name in errors <==> !IsValidName(data.name)
    ensures Email in errors <==> !IsValidEmail(data.email)
    ensures Phone in errors <==> !IsValidPhone(data.phone)
    ensures NumberOfPeople in errors <==> data.number_of_people < 1
    ensures forall f :: f in errors ==> errors[f] == ErrorMessage(f)
    ensures errors == map[] <==> IsValidBooking(data)
  {
    errors := CollectErrors(IsValidName(data.name), IsValidEmail(data.email), IsValidPhone(data.phone),
      data.number_of_people >= 1);
  }

  /** The body of `validateBookingForm` once each check has been evaluated: one `if`
      per field, in the source's order. */
  method CollectErrors(nameOk: bool, emailOk: bool, phoneOk: bool, countOk: bool)
    returns (errors: map<FormField, string>)
    ensures Name in errors <==> !nameOk
    ensures Email in errors <==> !emailOk
    ensures Phone in errors <==> !phoneOk
    ensures NumberOfPeople in errors <==> !countOk
    ensures forall f :: f in errors ==> errors[f] == ErrorMessage(f)
    ensures errors == map[] <==> nameOk && emailOk && phoneOk && countOk
  {
    errors := map[];
    if !nameOk {
      errors := errors[Name := ErrorMessage(Name)];
    }
    if !emailOk {
      errors := errors[Email := ErrorMessage(Email)];
    }
    if !phoneOk {
      errors := errors[Phone := ErrorMessage(Phone)];
    }
    if !countOk {
      errors := errors[NumberOfPeople := ErrorMessage(NumberOfPeople)];
    }
    assert Name in errors || Email in errors || Phone in errors || NumberOfPeople in errors
      ==> errors != map[];
  }
}
