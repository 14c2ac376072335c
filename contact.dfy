/** The contact form of js/contact.js: the `validationRules` table, the
    per-field validator `validateField`, the whole-form fold
    `validateForm`, the Polish phone-number formatter installed by
    `initPhoneFormatting`, and the template parameters `sendEmailJS`
    builds from the collected form data.

    The three regular expressions of the rules table are written out as
    predicates over characters. Lengths are counted in `char`s. */
module Contact {
  import opened Wrappers
  import JsText

  // ---------------------------------------------------------------------
  // Patterns
  // ---------------------------------------------------------------------

  /** The patterns of the rules table. */
  datatype Pattern = NamePattern | EmailPattern | PhonePattern

  /** `[a-zA-ZĄąĆćĘęŁłŃńÓóŚśŹźŻż\s]`: an ASCII letter, a Polish letter or
      white space. */
  predicate IsNameChar(c: char) {
    ('a' <= c <= 'z') || ('A' <= c <= 'Z') || c in "ĄąĆćĘęŁłŃńÓóŚśŹźŻż" || JsText.IsWhiteSpace(c)
  }

  /** `[^\s@]`: neither white space nor `@`. */
  predicate IsAddressChar(c: char) {
    !JsText.IsWhiteSpace(c) && c != '@'
  }

  /** `[0-9\s\-\(\)]`: a digit, white space, a hyphen or a parenthesis. */
  predicate IsPhoneChar(c: char) {
    JsText.IsDigit(c) || JsText.IsWhiteSpace(c) || c == '-' || c == '(' || c == ')'
  }

  predicate AllAddressChars(s: string) {
    forall k :: 0 <= k < |s| ==> IsAddressChar(s[k])
  }

  /** `/^[a-zA-ZĄąĆćĘęŁłŃńÓóŚśŹźŻż\s]+$/`. */
  predicate NameMatches(s: string)
    ensures NameMatches(s) ==> |s| >= 1
    ensures NameMatches(s) ==> forall k :: 0 <= k < |s| ==> !JsText.IsDigit(s[k]) && s[k] != '@'
  {
    |s| > 0 && forall k :: 0 <= k < |s| ==> IsNameChar(s[k])
  }

  /** `/^[^\s@]+@[^\s@]+\.[^\s@]+$/`: a non-empty local part, an `@`, and a
      domain with a dot that has address characters on both sides. The
      part between `@` and that dot may itself hold dots. */
  predicate EmailMatches(s: string)
    ensures EmailMatches(s) ==> |s| >= 5 && s[0] != '@' && s[|s| - 1] != '@' && '.' in s
  {
    exists at, dot :: 0 < at && at + 1 < dot && dot + 1 < |s| && s[at] == '@' && s[dot] == '.' &&
      AllAddressChars(s[..at]) && AllAddressChars(s[at + 1..dot]) && AllAddressChars(s[dot + 1..])
  }

  /** `/^[\+]?[0-9\s\-\(\)]{9,15}$/`. Since `+` is not in the repeated class,
      a leading `+` is always the optional sign. */
  predicate PhoneMatches(s: string)
    ensures PhoneMatches(s) ==> 9 <= |s| <= 16
    ensures PhoneMatches(s) ==> forall k :: 0 < k < |s| ==> s[k] != '+'
  {
    var body := if |s| > 0 && s[0] == '+' then s[1..] else s;
    9 <= |body| <= 15 && forall k :: 0 <= k < |body| ==> IsPhoneChar(body[k])
  }

  predicate Matches(p: Pattern, s: string) {
    match p
    case NamePattern => NameMatches(s)
    case EmailPattern => EmailMatches(s)
    case PhonePattern => PhoneMatches(s)
  }

  /** An address the email pattern accepts has exactly one `@` and no white
      space. */
  lemma EmailHasOneAtAndNoSpace(s: string)
    requires EmailMatches(s)
    ensures forall k :: 0 <= k < |s| ==> !JsText.IsWhiteSpace(s[k])
    ensures exists at :: 0 <= at < |s| && s[at] == '@' && forall k :: 0 <= k < |s| && s[k] == '@' ==> k == at
  {
    var at, dot :| 0 < at && at + 1 < dot && dot + 1 < |s| && s[at] == '@' && s[dot] == '.' &&
      AllAddressChars(s[..at]) && AllAddressChars(s[at + 1..dot]) && AllAddressChars(s[dot + 1..]);
    forall k | 0 <= k < |s| && k != at
      ensures IsAddressChar(s[k])
    {
      if k < at {
        assert s[k] == s[..at][k];
      } else if k < dot {
        assert s[k] == s[at + 1..dot][k - at - 1];
      } else if k > dot {
        assert s[k] == s[dot + 1..][k - dot - 1];
      }
    }
  }

  // ---------------------------------------------------------------------
  // The rules table and validateField
  // ---------------------------------------------------------------------

  /** One entry of `validationRules`. A length limit of 0 stands for an
      absent one (JavaScript's `rules.minLength && …` skips both), and so
      does an empty message. */
  datatype Rule = Rule(required: bool, minLength: nat, maxLength: nat, pattern: Option<Pattern>, message: string)

  const NameRule := Rule(true, 2, 50, Some(NamePattern), "Imię i nazwisko musi zawierać tylko litery (2-50 znaków)")
  const EmailRule := Rule(true, 0, 0, Some(EmailPattern), "Podaj poprawny adres email")
  const PhoneRule := Rule(false, 0, 0, Some(PhonePattern), "Podaj poprawny numer telefonu")
  const MessageRule := Rule(true, 10, 1000, None, "Wiadomość musi mieć od 10 do 1000 znaków")
  const PrivacyRule := Rule(true, 0, 0, None, "Musisz wyrazić zgodę na przetwarzanie danych osobowych")

  /** `window.contactFormValidation[fieldName]`. */
  function RuleFor(fieldName: string): (r: Option<Rule>)
    ensures r.Some? <==> fieldName in {"name", "email", "phone", "message", "privacy"}
    // `phone` is the only optional field
    ensures r.Some? ==> (r.value.required <==> fieldName != "phone")
    // the three text fields with a pattern; the others have none
    ensures r.Some? ==> (r.value.pattern.Some? <==> fieldName in {"name", "email", "phone"})
    ensures fieldName == "name" ==> r.value.pattern == Some(NamePattern)
    ensures fieldName == "email" ==> r.value.pattern == Some(EmailPattern)
    ensures fieldName == "phone" ==> r.value.pattern == Some(PhonePattern)
    // length limits only for name (2-50) and message (10-1000)
    ensures r.Some? ==> (r.value.minLength > 0 <==> fieldName in {"name", "message"})
    ensures r.Some? ==> (r.value.maxLength > 0 <==> fieldName in {"name", "message"})
    ensures fieldName == "name" ==> r.value.minLength == 2 && r.value.maxLength == 50
    ensures fieldName == "message" ==> r.value.minLength == 10 && r.value.maxLength == 1000
    ensures r.Some? ==> r.value.minLength <= r.value.maxLength
    // each rule's own message
    ensures fieldName == "name" ==> r.value.message == "Imię i nazwisko musi zawierać tylko litery (2-50 znaków)"
    ensures fieldName == "email" ==> r.value.message == "Podaj poprawny adres email"
    ensures fieldName == "phone" ==> r.value.message == "Podaj poprawny numer telefonu"
    ensures fieldName == "message" ==> r.value.message == "Wiadomość musi mieć od 10 do 1000 znaków"
    ensures fieldName == "privacy" ==> r.value.message == "Musisz wyrazić zgodę na przetwarzanie danych osobowych"
  {
    match fieldName
    case "name" => Some(NameRule)
    case "email" => Some(EmailRule)
    case "phone" => Some(PhoneRule)
    case "message" => Some(MessageRule)
    case "privacy" => Some(PrivacyRule)
    case _ => None
  }

  const RequiredMessage: string := "To pole jest wymagane"
  const DefaultPatternMessage: string := "Niepoprawny format"

  /** What `validateField` reads from a form control. */
  datatype Field = Field(name: string, isCheckbox: bool, value: string, checked: bool)

  /** The change `validateField` makes to the field's error display. */
  datatype Display = Untouched | ShowError(message: string) | ClearError

  /** The checks of `validateField`, in the order the code runs them. */
  datatype Check = RequiredCheck | MinLengthCheck | MaxLengthCheck | PatternCheck

  const CheckOrder: seq<Check> := [RequiredCheck, MinLengthCheck, MaxLengthCheck, PatternCheck]

  /** Whether `check` rejects the trimmed value `v`. Only the required check
      looks at an empty value. */
  predicate Fails(check: Check, rule: Rule, v: string) {
    match check
    case RequiredCheck => rule.required && v == []
    case MinLengthCheck => v != [] && rule.minLength != 0 && |v| < rule.minLength
    case MaxLengthCheck => v != [] && rule.maxLength != 0 && |v| > rule.maxLength
    case PatternCheck => v != [] && rule.pattern.Some? && !Matches(rule.pattern.value, v)
  }

  /** The message each check reports. */
  function MessageOf(check: Check, rule: Rule): string {
    match check
    case RequiredCheck => RequiredMessage
    case MinLengthCheck => "Minimum " + JsText.NatToString(rule.minLength) + " znaków"
    case MaxLengthCheck => "Maksimum " + JsText.NatToString(rule.maxLength) + " znaków"
    case PatternCheck => if rule.message != "" then rule.message else DefaultPatternMessage
  }

  /** The message of the first check in `checks` that rejects `v`. */
  function FirstFailure(checks: seq<Check>, rule: Rule, v: string): Option<string> {
    if checks == [] then None
    else if Fails(checks[0], rule, v) then Some(MessageOf(checks[0], rule))
    else FirstFailure(checks[1..], rule, v)
  }

  /** `FirstFailure` reports a failure exactly when some check fails, and
      then it reports the message of the earliest one. */
  lemma {:induction false} FirstFailureIsEarliest(checks: seq<Check>, rule: Rule, v: string)
    ensures FirstFailure(checks, rule, v).None? <==> forall k :: 0 <= k < |checks| ==> !Fails(checks[k], rule, v)
    ensures FirstFailure(checks, rule, v).Some? ==>
      exists k :: 0 <= k < |checks| && Fails(checks[k], rule, v) &&
        FirstFailure(checks, rule, v).value == MessageOf(checks[k], rule) &&
        forall j :: 0 <= j < k ==> !Fails(checks[j], rule, v)
  {
    if checks != [] {
      FirstFailureIsEarliest(checks[1..], rule, v);
      if !Fails(checks[0], rule, v) && FirstFailure(checks, rule, v).Some? {
        var k :| 0 <= k < |checks[1..]| && Fails(checks[1..][k], rule, v) &&
          FirstFailure(checks[1..], rule, v).value == MessageOf(checks[1..][k], rule) &&
          forall j :: 0 <= j < k ==> !Fails(checks[1..][j], rule, v);
        assert forall j :: 0 < j <= k ==> checks[j] == checks[1..][j - 1];
        assert Fails(checks[k + 1], rule, v);
      }
      forall k | 0 < k < |checks| ensures checks[k] == checks[1..][k - 1] { }
    }
  }

  /** `FirstFailure` over the code's check order, unfolded. */
  lemma FirstFailureOfCheckOrder(rule: Rule, v: string)
    ensures FirstFailure(CheckOrder, rule, v) ==
      if Fails(RequiredCheck, rule, v) then Some(RequiredMessage)
      else if Fails(MinLengthCheck, rule, v) then Some(MessageOf(MinLengthCheck, rule))
      else if Fails(MaxLengthCheck, rule, v) then Some(MessageOf(MaxLengthCheck, rule))
      else if Fails(PatternCheck, rule, v) then Some(MessageOf(PatternCheck, rule))
      else None
  {
    var rest1: seq<Check> := [MinLengthCheck, MaxLengthCheck, PatternCheck];
    var rest2: seq<Check> := [MaxLengthCheck, PatternCheck];
    var rest3: seq<Check> := [PatternCheck];
    assert CheckOrder[1..] == rest1 && rest1[1..] == rest2 && rest2[1..] == rest3 && rest3[1..] == [];
    assert FirstFailure(rest3, rule, v) ==
      if Fails(PatternCheck, rule, v) then Some(MessageOf(PatternCheck, rule)) else FirstFailure([], rule, v);
    assert FirstFailure(rest2, rule, v) ==
      if Fails(MaxLengthCheck, rule, v) then Some(MessageOf(MaxLengthCheck, rule)) else FirstFailure(rest3, rule, v);
    assert FirstFailure(rest1, rule, v) ==
      if Fails(MinLengthCheck, rule, v) then Some(MessageOf(MinLengthCheck, rule)) else FirstFailure(rest2, rule, v);
  }

  /** The verdict `validateField` reaches for a field, stated as the
      first-failing-check rule with the checkbox override last. */
  function Verdict(field: Field): (r: Option<string>)
  {
    match RuleFor(field.name)
    case None => None
    case Some(rule) =>
      if field.isCheckbox && rule.required && !field.checked then Some(rule.message)
      else FirstFailure(CheckOrder, rule, JsText.Trim(field.value))
  }

  /** The display change that goes with a verdict: none for a field without
      a rule, otherwise the error shown or cleared. */
  function DisplayFor(field: Field): Display {
    if RuleFor(field.name).None? then Untouched
    else match Verdict(field)
      case None => ClearError
      case Some(m) => ShowError(m)
  }

  /** `validateField`: the guarded reassignments of `isValid` and
      `errorMessage`, in the code's order. The field is valid exactly when
      no check fails, and an error shown is the first failing check's,
      unless an unticked required checkbox overrides it. */
  method ValidateField(field: Field) returns (isValid: bool, display: Display)
    ensures isValid <==> Verdict(field).None?
    ensures display == DisplayFor(field)
  {
    var rules := RuleFor(field.name);
    if rules.None? {
      return true, Untouched;
    }
    var rule := rules.value;
    var value := JsText.Trim(field.value);
    FirstFailureOfCheckOrder(rule, value);
    isValid := true;
    var errorMessage := "";

    if rule.required && value == [] {
      isValid := false;
      errorMessage := RequiredMessage;
    }
    if isValid && value != [] && rule.minLength != 0 && |value| < rule.minLength {
      isValid := false;
      errorMessage := "Minimum " + JsText.NatToString(rule.minLength) + " znaków";
    }
    if isValid && value != [] && rule.maxLength != 0 && |value| > rule.maxLength {
      isValid := false;
      errorMessage := "Maksimum " + JsText.NatToString(rule.maxLength) + " znaków";
    }
    if isValid && value != [] && rule.pattern.Some? && !Matches(rule.pattern.value, value) {
      isValid := false;
      errorMessage := if rule.message != "" then rule.message else DefaultPatternMessage;
    }
    if field.isCheckbox && rule.required && !field.checked {
      isValid := false;
      errorMessage := rule.message;
    }

    if !isValid {
      display := ShowError(errorMessage);
    } else {
      display := ClearError;
    }
  }

  /** A field the rules table does not name is always valid. */
  lemma UnknownFieldIsValid(field: Field)
    requires field.name !in {"name", "email", "phone", "message", "privacy"}
    ensures Verdict(field).None? && DisplayFor(field) == Untouched
  {
  }

  /** A required field left blank reports the required-field message,
      unless it is an unticked checkbox. */
  lemma BlankRequiredFieldIsMissing(field: Field)
    requires RuleFor(field.name).Some? && RuleFor(field.name).value.required
    requires JsText.AllWhiteSpace(field.value)
    requires !field.isCheckbox || field.checked
    ensures Verdict(field) == Some(RequiredMessage)
  {
    FirstFailureOfCheckOrder(RuleFor(field.name).value, JsText.Trim(field.value));
  }

  /** A blank optional field passes: the length and pattern checks skip an
      empty value. In the rules table this is the phone number. */
  lemma BlankOptionalFieldIsValid(field: Field)
    requires RuleFor(field.name).Some? && !RuleFor(field.name).value.required
    requires JsText.AllWhiteSpace(field.value)
    ensures Verdict(field).None?
    ensures field.name == "phone"
  {
    FirstFailureOfCheckOrder(RuleFor(field.name).value, JsText.Trim(field.value));
  }

  /** An unticked required checkbox reports its rule's own message,
      whatever its value. */
  lemma UntickedRequiredCheckboxFails(field: Field)
    requires RuleFor(field.name).Some? && RuleFor(field.name).value.required
    requires field.isCheckbox && !field.checked
    ensures Verdict(field) == Some(RuleFor(field.name).value.message)
  {
  }

  /** With no checkbox override, a field's error is the message of the
      earliest check in the order required, minimum length, maximum length,
      pattern that rejects its trimmed value. */
  lemma VerdictReportsEarliestCheck(field: Field)
    requires RuleFor(field.name).Some?
    requires !(field.isCheckbox && RuleFor(field.name).value.required && !field.checked)
    ensures var rule, v := RuleFor(field.name).value, JsText.Trim(field.value);
      Verdict(field).Some? <==> exists k :: 0 <= k < |CheckOrder| && Fails(CheckOrder[k], rule, v)
    ensures var rule, v := RuleFor(field.name).value, JsText.Trim(field.value);
      Verdict(field).Some? ==>
        exists k :: 0 <= k < |CheckOrder| && Fails(CheckOrder[k], rule, v) &&
          Verdict(field).value == MessageOf(CheckOrder[k], rule) &&
          forall j :: 0 <= j < k ==> !Fails(CheckOrder[j], rule, v)
  {
    FirstFailureIsEarliest(CheckOrder, RuleFor(field.name).value, JsText.Trim(field.value));
  }

  /** A one-letter name is too short. */
  lemma ShortNameExample()
    ensures Verdict(Field("name", false, "A", false)) == Some("Minimum 2 znaków")
  {
    var v := "A";
    assert Verdict(Field("name", false, v, false)) == FirstFailure(CheckOrder, NameRule, JsText.Trim(v));
    assert JsText.Trim(v) == v;
    assert JsText.NatToString(2) == "2";
    assert "Minimum " + "2" + " znaków" == "Minimum 2 znaków";
    assert !Fails(RequiredCheck, NameRule, v) && Fails(MinLengthCheck, NameRule, v);
    FirstFailureOfCheckOrder(NameRule, v);
  }

  /** Sample inputs for the three patterns: a name with a digit and an
      address without a dot after the `@` are rejected; a Polish name, a
      plain address and a spaced mobile number are accepted. */
  lemma PatternExamples()
    ensures !NameMatches("Jan 3") && NameMatches("Łucja Żak")
    ensures EmailMatches("jan@firma.pl") && !EmailMatches("jan@firma")
    ensures PhoneMatches("+48 600 100 200") && !PhoneMatches("600-100")
  {
    assert !IsNameChar("Jan 3"[4]);
    var name := "Łucja Żak";
    forall k | 0 <= k < |name| ensures IsNameChar(name[k]) {
      assert name[k] in "ŁucjaŻk ";
    }
    var email := "jan@firma.pl";
    assert email[..3] == "jan" && email[4..9] == "firma" && email[10..] == "pl";
    assert 0 < 3 && 3 + 1 < 9 && 9 + 1 < |email| && email[3] == '@' && email[9] == '.';
    var bad := "jan@firma";
    assert forall k :: 0 <= k < |bad| ==> bad[k] != '.';
    var phone := "+48 600 100 200";
    forall k | 0 <= k < |phone[1..]| ensures IsPhoneChar(phone[1..][k]) {
      assert phone[1..][k] in "48 60120";
    }
  }

  /** An unticked privacy checkbox reports the consent message. */
  lemma PrivacyExample()
    ensures Verdict(Field("privacy", true, "on", false)) == Some("Musisz wyrazić zgodę na przetwarzanie danych osobowych")
  {
  }

  // ---------------------------------------------------------------------
  // validateForm
  // ---------------------------------------------------------------------

  /** `validateForm`: every named field is validated, with no early exit,
      and the form is valid exactly when every field is. */
  method ValidateForm(fields: seq<Field>) returns (isValid: bool, displays: seq<Display>)
    ensures |displays| == |fields|
    ensures forall i :: 0 <= i < |fields| ==> displays[i] == DisplayFor(fields[i])
    ensures isValid <==> forall i :: 0 <= i < |fields| ==> Verdict(fields[i]).None?
  {
    isValid := true;
    displays := [];
    for i := 0 to |fields|
      invariant |displays| == i
      invariant forall j :: 0 <= j < i ==> displays[j] == DisplayFor(fields[j])
      invariant isValid <==> forall j :: 0 <= j < i ==> Verdict(fields[j]).None?
    {
      var fieldValid, display := ValidateField(fields[i]);
      displays := displays + [display];
      if !fieldValid {
        isValid := false;
      }
    }
  }

  // ---------------------------------------------------------------------
  // Phone formatting
  // ---------------------------------------------------------------------

  /** What the phone field's `input` handler makes of `s`: the digits of
      `s`, given a `+` when they already start with the country code 48, or
      the prefix `+48 ` when they are a nine-digit national number. */
  function FormattedPhone(s: string): (r: string)
    ensures var d := JsText.KeepDigits(s);
      JsText.KeepDigits(r) == if !JsText.StartsWith(d, "48") && |d| == 9 then "48" + d else d
    ensures var d := JsText.KeepDigits(s);
      r == d || (|r| > 0 && r[0] == '+' && r[1..] == d) || (|r| == 13 && r[..4] == "+48 " && r[4..] == d)
    // which of the three forms: `+` before a number already starting with 48,
    // `+48 ` before any other nine-digit number, the bare digits otherwise
    ensures var d := JsText.KeepDigits(s);
      JsText.StartsWith(d, "48") ==> r == "+" + d
    ensures var d := JsText.KeepDigits(s);
      !JsText.StartsWith(d, "48") && |d| == 9 ==> r == "+48 " + d
    ensures var d := JsText.KeepDigits(s);
      !JsText.StartsWith(d, "48") && |d| != 9 ==> r == d
  {
    var d := JsText.KeepDigits(s);
    JsText.KeepDigitsOfDigits(d);
    JsText.KeepDigitsOfDigits("48" + d);
    if JsText.StartsWith(d, "48") then
      JsText.KeepDigitsAppend("+", d);
      "+" + d
    else if |d| == 9 then
      JsText.KeepDigitsAppend("+48 ", d);
      assert JsText.KeepDigits("+48 ") == "48";
      "+48 " + d
    else d
  }

  /** Formatting settles after two rounds: a second round changes only a
      freshly prefixed `+48 ` number (to `+48` followed by the digits), and
      a third round changes nothing. */
  lemma {:induction false} FormattedPhoneSettles(s: string)
    ensures FormattedPhone(FormattedPhone(FormattedPhone(s))) == FormattedPhone(FormattedPhone(s))
    ensures var d := JsText.KeepDigits(s);
      FormattedPhone(FormattedPhone(s)) == if !JsText.StartsWith(d, "48") && |d| == 9 then "+48" + d else FormattedPhone(s)
  {
    var d := JsText.KeepDigits(s);
    var once := FormattedPhone(s);
    var twice := FormattedPhone(once);
    JsText.KeepDigitsOfDigits(d);
    if !JsText.StartsWith(d, "48") && |d| == 9 {
      assert JsText.KeepDigits(once) == "48" + d;
      assert JsText.StartsWith("48" + d, "48");
      assert twice == "+" + ("48" + d);
      assert JsText.KeepDigits(twice) == "48" + d;
    } else {
      assert JsText.KeepDigits(once) == d;
    }
  }

  /** A nine-digit national number, however typed, comes out in a form the
      phone pattern accepts. */
  lemma NineDigitPhoneMatchesPattern(s: string)
    requires |JsText.KeepDigits(s)| == 9
    ensures PhoneMatches(FormattedPhone(s))
  {
    var d := JsText.KeepDigits(s);
    var r := FormattedPhone(s);
    assert r[1..] == d || r[1..] == "48 " + d;
    forall k | 0 <= k < |r[1..]| ensures IsPhoneChar(r[1..][k]) {
      if r[1..] != d && k >= 3 {
        assert r[1..][k] == d[k - 3];
      }
    }
  }

  /** The phone input and its `input` handler, which rewrites the field's
      value in place. */
  class PhoneInput {
    var value: string

    constructor (initial: string)
      ensures value == initial
    {
      value := initial;
    }

    /** The handler body: strip the non-digits, then add the country code
      prefix that fits, and store the result. */
    method OnInput()
      modifies this
      ensures value == FormattedPhone(old(value))
    {
      var v := JsText.KeepDigits(value);
      if JsText.StartsWith(v, "48") {
        v := "+" + v;
      } else if |v| == 9 {
        v := "+48 " + v;
      }
      value := v;
    }
  }

  // ---------------------------------------------------------------------
  // Template parameters
  // ---------------------------------------------------------------------

  /** The collected form data: field name to value. */
  type FormData = map<string, string>

  /** `formData[key]`, `None` when the key is absent (`undefined`). */
  function Get(data: FormData, key: string): Option<string> {
    if key in data then Some(data[key]) else None
  }

  /** `formData[key] || fallback`: an absent or empty value gives way. */
  function GetOr(data: FormData, key: string, fallback: string): (r: string)
    ensures r == fallback || (key in data && r == data[key])
    ensures key in data && data[key] != "" ==> r == data[key]
    ensures key !in data || data[key] == "" ==> r == fallback
  {
    if key in data && data[key] != "" then data[key] else fallback
  }

  /** The parameters handed to the email service. */
  datatype TemplateParams = TemplateParams(
    toName: string,
    fromName: Option<string>,
    fromEmail: Option<string>,
    phone: string,
    service: string,
    message: Option<string>,
    timestamp: string,
    replyTo: Option<string>)

  /** `templateParams` of `sendEmailJS`; `now` is the locale rendering of
      the current time. */
  function BuildTemplateParams(data: FormData, now: string): (p: TemplateParams)
    ensures p.replyTo == p.fromEmail == Get(data, "email")
    ensures p.fromName == Get(data, "name") && p.message == Get(data, "message")
    ensures p.phone == (if "phone" in data && data["phone"] != "" then data["phone"] else "Nie podano")
    ensures p.service == (if "service" in data && data["service"] != "" then data["service"] else "Nie wybrano")
    ensures p.toName == "ProfessionalWeld" && p.timestamp == now
  {
    TemplateParams(
      "ProfessionalWeld",
      Get(data, "name"),
      Get(data, "email"),
      GetOr(data, "phone", "Nie podano"),
      GetOr(data, "service", "Nie wybrano"),
      Get(data, "message"),
      now,
      Get(data, "email"))
  }
}
