/** The input rules shared word for word by the registration form
    (frontend/src/components/demo-register.tsx) and the login form
    (frontend/src/components/demo-login.tsx): the phone field's digit
    sanitiser and 10-digit cap, the Indian mobile number pattern, the
    password length rule, the fixed error messages and the "+91" prefix of
    the submitted number. */
module InputRules {
  import opened JsStrings

  const MaxPhoneDigits := 10
  const MinPasswordLength := 8
  const CountryPrefix := "+91"

  const PhoneMessage := "Please enter a valid 10-digit Indian phone number"
  const PasswordMessage := "Password must be at least 8 characters long"

  // ---------------------------------------------------------------------
  // The phone field's sanitiser

  /** The phone sanitiser: every non-digit removed, the digits of `value`
      kept in order. */
  function StripNonDigits(value: string): (r: string)
    ensures AllDigits(r)
    ensures |r| <= |value|
  {
    if |value| == 0 then ""
    else if IsDigit(value[0]) then [value[0]] + StripNonDigits(value[1..])
    else StripNonDigits(value[1..])
  }

  /** Every digit of the input survives, as often as it occurs, and
      nothing else does. */
  lemma {:induction false} StripKeepsEveryDigit(value: string)
    ensures forall c :: IsDigit(c) ==> multiset(StripNonDigits(value))[c] == multiset(value)[c]
    ensures forall c :: !IsDigit(c) ==> c !in StripNonDigits(value)
    decreases |value|
  {
    if |value| > 0 {
      StripKeepsEveryDigit(value[1..]);
      assert value == [value[0]] + value[1..];
    }
  }

  /** The sanitiser works piecewise, so it keeps the digits' order. */
  lemma {:induction false} StripNonDigitsAppend(a: string, b: string)
    ensures StripNonDigits(a + b) == StripNonDigits(a) + StripNonDigits(b)
    decreases |a|
  {
    if |a| > 0 {
      assert (a + b)[0] == a[0] && (a + b)[1..] == a[1..] + b;
      StripNonDigitsAppend(a[1..], b);
    } else {
      assert a + b == b;
    }
  }

  /** A string of digits is left as it is. */
  lemma {:induction false} StripDigitsOnly(value: string)
    requires AllDigits(value)
    ensures StripNonDigits(value) == value
    decreases |value|
  {
    if |value| > 0 {
      StripDigitsOnly(value[1..]);
      assert [value[0]] + value[1..] == value;
    }
  }

  /** Sanitising twice is sanitising once. */
  lemma StripIdempotent(value: string)
    ensures StripNonDigits(StripNonDigits(value)) == StripNonDigits(value)
  {
    StripDigitsOnly(StripNonDigits(value));
  }

  /** `handlePhoneNumberChange`: the sanitised input replaces the field
      only when it has at most 10 digits; otherwise the field keeps its
      value. */
  function PhoneAfterChange(current: string, input: string): (r: string)
    ensures |StripNonDigits(input)| <= MaxPhoneDigits ==> r == StripNonDigits(input)
    ensures |StripNonDigits(input)| > MaxPhoneDigits ==> r == current
  {
    var value := StripNonDigits(input);
    if |value| <= MaxPhoneDigits then value else current
  }

  /** What the phone field can hold: at most 10 digits. */
  predicate SanitisedPhone(phone: string) {
    AllDigits(phone) && |phone| <= MaxPhoneDigits
  }

  /** The field stays sanitised whatever is typed or pasted into it. */
  lemma PhoneStaysSanitised(current: string, input: string)
    requires SanitisedPhone(current)
    ensures SanitisedPhone(PhoneAfterChange(current, input))
  {
  }

  // ---------------------------------------------------------------------
  // The pattern ^[6-9]\d{9}$

  /** A bracket class of one character range, such as `[6-9]`; `\d` is
      `[0-9]` (the pattern has no `u` flag). */
  datatype CharRange = CharRange(lo: char, hi: char)

  predicate InRange(c: char, r: CharRange) { r.lo <= c <= r.hi }

  /** An anchored pattern made of single-character classes matches `s`
      when each class in turn matches the next character and nothing is
      left over. */
  predicate MatchesAnchored(pattern: seq<CharRange>, s: string)
    decreases |pattern|
  {
    if |pattern| == 0 then |s| == 0
    else |s| > 0 && InRange(s[0], pattern[0]) && MatchesAnchored(pattern[1..], s[1..])
  }

  /** `\d`. */
  const Digit := CharRange('0', '9')

  /** `/^[6-9]\d{9}$/`: a class for the first character and nine digit
      classes after it. */
  const IndianMobilePattern: seq<CharRange> :=
    [CharRange('6', '9'), Digit, Digit, Digit, Digit, Digit, Digit, Digit, Digit, Digit]

  /** `validatePhoneNumber`: ten digits, the first of them 6, 7, 8 or 9. */
  predicate ValidatePhoneNumber(phone: string) {
    |phone| == 10 && '6' <= phone[0] <= '9' && AllDigits(phone)
  }

  lemma {:induction false} MatchesAnchoredIff(pattern: seq<CharRange>, s: string)
    ensures MatchesAnchored(pattern, s) <==>
      |s| == |pattern| && forall i :: 0 <= i < |s| ==> InRange(s[i], pattern[i])
    decreases |pattern|
  {
    if |pattern| > 0 && |s| > 0 {
      MatchesAnchoredIff(pattern[1..], s[1..]);
      if |s| == |pattern| && forall i :: 0 <= i < |s| ==> InRange(s[i], pattern[i]) {
        assert forall i :: 0 <= i < |s[1..]| ==> s[1..][i] == s[i + 1] && pattern[1..][i] == pattern[i + 1];
      }
    }
  }

  /** `phoneRegex.test(phone)` accepts exactly what `ValidatePhoneNumber`
      accepts. */
  lemma ValidatePhoneNumberIff(phone: string)
    ensures ValidatePhoneNumber(phone) <==> MatchesAnchored(IndianMobilePattern, phone)
  {
    MatchesAnchoredIff(IndianMobilePattern, phone);
  }

  /** On what the phone field can hold, validity is just: 10 digits, the
      first of them 6 to 9. */
  lemma ValidSanitisedPhone(phone: string)
    requires SanitisedPhone(phone)
    ensures ValidatePhoneNumber(phone) <==> |phone| == MaxPhoneDigits && '6' <= phone[0] <= '9'
  {
  }

  // ---------------------------------------------------------------------
  // Password and the submitted number

  /** `validatePassword`: a JavaScript length of at least 8, whatever the
      characters are. */
  predicate ValidatePassword(password: string) {
    Utf16Length(password) >= MinPasswordLength
  }

  /** The length is JavaScript's: four characters beyond U+FFFF make a long
      enough password, seven ordinary ones do not. */
  lemma PasswordCountsCodeUnits()
    ensures ValidatePassword("\U{1F600}\U{1F600}\U{1F600}\U{1F600}")
    ensures !ValidatePassword("1234567")
  {
    var p := "\U{1F600}\U{1F600}\U{1F600}\U{1F600}";
    assert p[1..][1..][1..][1..] == "";
  }

  /** Without characters beyond U+FFFF the rule is "8 characters or more". */
  lemma BasicPasswordRule(password: string)
    requires forall i :: 0 <= i < |password| ==> password[i] as int < 0x1_0000
    ensures ValidatePassword(password) <==> |password| >= MinPasswordLength
  {
    Utf16LengthBasic(password);
  }

  /** The submitted phone number: the country prefix "+91" and the digits. */
  function SubmittedPhone(phone: string): string {
    CountryPrefix + phone
  }

  /** A number as sent: "+91" followed by the 10 digits entered. */
  predicate SentPhone(s: string, phone: string) {
    |s| == 13 && s[..3] == CountryPrefix && s[3..] == phone && AllDigits(s[1..])
  }

  /** A valid number is submitted as "+91" and its 10 digits (13
      characters), from which the entered number is recovered. */
  lemma SubmittedPhoneShape(phone: string)
    requires ValidatePhoneNumber(phone)
    ensures var s := SubmittedPhone(phone);
      && |s| == 13 && s[..3] == "+91" && s[3..] == phone
      && AllDigits(s[1..]) && '6' <= s[3] <= '9'
  {
    var s := SubmittedPhone(phone);
    assert s[1..] == "91" + phone;
  }
}
