/**
 * The checkout form schema (zodValidation.ts): minimum lengths on the name,
 * city and state fields, and a phone number that is stripped of whitespace
 * and must then be all digits and at least 10 long. Every failing rule
 * reports its own issue, in field order; a form with no issue is accepted
 * with its phone number replaced by the stripped one.
 */
module CheckoutValidation {
  import opened Wrappers
  import opened Text

  datatype CheckoutForm = CheckoutForm(
    firstName: string,
    lastName: string,
    phoneNumber: string,
    city: string,
    state: string,
    note: Option<string>)

  datatype Issue =
    | FirstNameTooShort   // "First name must be at least 2 characters"
    | LastNameTooShort    // "Last name must be at least 2 characters"
    | PhoneNotDigits      // "Phone number must contain only digits"
    | PhoneTooShort       // "Phone number must be at least 10 digits"
    | CityRequired        // "City is required"
    | StateRequired       // "Please select a state"

  datatype Outcome = Accepted(form: CheckoutForm) | Rejected(issues: seq<Issue>)

  const MinNameLength := 2
  const MinPhoneLength := 10
  const MinCityLength := 2
  const MinStateLength := 1

  /** `val.replace(/\s+/g, "")`: the characters of `s` that are not whitespace, in order. */
  function StripWhitespace(s: string): (r: string)
    ensures |r| <= |s|
    ensures forall i :: 0 <= i < |r| ==> !IsWhitespace(r[i])
    ensures forall c :: c in r <==> c in s && !IsWhitespace(c)
  {
    if s == [] then []
    else (if IsWhitespace(s[0]) then [] else [s[0]]) + StripWhitespace(s[1..])
  }

  /** A string without whitespace is left as it is. */
  lemma {:induction false} StripLeavesPlainText(s: string)
    requires forall i :: 0 <= i < |s| ==> !IsWhitespace(s[i])
    ensures StripWhitespace(s) == s
  {
    if s != [] {
      StripLeavesPlainText(s[1..]);
      assert s == [s[0]] + s[1..];
    }
  }

  /** Stripping twice is stripping once. */
  lemma {:induction false} StripIdempotent(s: string)
    ensures StripWhitespace(StripWhitespace(s)) == StripWhitespace(s)
  {
    StripLeavesPlainText(StripWhitespace(s));
  }

  /** Stripping works piece by piece: whitespace between two parts just disappears. */
  lemma {:induction false} StripAppend(a: string, b: string)
    ensures StripWhitespace(a + b) == StripWhitespace(a) + StripWhitespace(b)
  {
    if a == [] {
      assert a + b == b;
    } else {
      assert (a + b)[1..] == a[1..] + b;
      StripAppend(a[1..], b);
    }
  }

  /** `/^\d+$/`: non-empty and digits only. */
  predicate AllDigits(s: string) {
    |s| > 0 && forall i :: 0 <= i < |s| ==> IsDigit(s[i])
  }

  /** The form the schema accepts, rule by rule. */
  predicate Acceptable(f: CheckoutForm) {
    var phone := StripWhitespace(f.phoneNumber);
    && |f.firstName| >= MinNameLength
    && |f.lastName| >= MinNameLength
    && AllDigits(phone)
    && |phone| >= MinPhoneLength
    && |f.city| >= MinCityLength
    && |f.state| >= MinStateLength
  }

  /** The rules' issues, in the order the schema checks the fields. */
  const RuleIssues := [FirstNameTooShort, LastNameTooShort, PhoneNotDigits, PhoneTooShort, CityRequired, StateRequired]

  /** Which rules fail, in the same order. */
  function Failures(f: CheckoutForm): (r: seq<bool>)
    ensures |r| == |RuleIssues|
  {
    var phone := StripWhitespace(f.phoneNumber);
    [ |f.firstName| < MinNameLength,
      |f.lastName| < MinNameLength,
      !AllDigits(phone),
      |phone| < MinPhoneLength,
      |f.city| < MinCityLength,
      |f.state| < MinStateLength ]
  }

  /** The issues of the failing rules, in order. */
  function Report(fails: seq<bool>, issues: seq<Issue>): (r: seq<Issue>)
    requires |fails| == |issues|
    ensures |r| <= |issues|
    ensures forall x :: x in r ==> x in issues
    ensures r == [] <==> true !in fails
  {
    if fails == [] then []
    else
      assert fails == [fails[0]] + fails[1..];
      (if fails[0] then [issues[0]] else []) + Report(fails[1..], issues[1..])
  }

  predicate Distinct(issues: seq<Issue>) {
    forall i, j :: 0 <= i < j < |issues| ==> issues[i] != issues[j]
  }

  /** With distinct issues, a rule's issue is reported exactly when the rule fails. */
  lemma {:induction false} ReportMembership(fails: seq<bool>, issues: seq<Issue>, k: nat)
    requires |fails| == |issues| && k < |issues| && Distinct(issues)
    ensures issues[k] in Report(fails, issues) <==> fails[k]
  {
    var rest := Report(fails[1..], issues[1..]);
    if k == 0 {
      assert issues[0] !in issues[1..] by {
        forall j | 0 <= j < |issues[1..]| ensures issues[1..][j] != issues[0] {
          assert issues[1..][j] == issues[j + 1];
        }
      }
    } else {
      assert Distinct(issues[1..]) by {
        forall i, j | 0 <= i < j < |issues[1..]| ensures issues[1..][i] != issues[1..][j] {
          assert issues[1..][i] == issues[i + 1] && issues[1..][j] == issues[j + 1];
        }
      }
      ReportMembership(fails[1..], issues[1..], k - 1);
      assert issues[k] != issues[0];
    }
  }

  lemma {:induction false} RuleIssuesDistinct()
    ensures Distinct(RuleIssues)
  {
  }

  /** Every issue the schema reports, in field order; nothing is reported exactly when every rule holds. */
  function Issues(f: CheckoutForm): (r: seq<Issue>)
    ensures |r| <= |RuleIssues|
    ensures r == [] <==> Acceptable(f)
  {
    Report(Failures(f), RuleIssues)
  }

  /** Each rule reports its issue exactly when it fails. */
  lemma {:induction false} IssuesReportEachFailure(f: CheckoutForm)
    ensures FirstNameTooShort in Issues(f) <==> |f.firstName| < MinNameLength
    ensures LastNameTooShort in Issues(f) <==> |f.lastName| < MinNameLength
    ensures PhoneNotDigits in Issues(f) <==> !AllDigits(StripWhitespace(f.phoneNumber))
    ensures PhoneTooShort in Issues(f) <==> |StripWhitespace(f.phoneNumber)| < MinPhoneLength
    ensures CityRequired in Issues(f) <==> |f.city| < MinCityLength
    ensures StateRequired in Issues(f) <==> |f.state| < MinStateLength
  {
    var fails := Failures(f);
    RuleIssuesDistinct();
    ReportMembership(fails, RuleIssues, 0);
    ReportMembership(fails, RuleIssues, 1);
    ReportMembership(fails, RuleIssues, 2);
    ReportMembership(fails, RuleIssues, 3);
    ReportMembership(fails, RuleIssues, 4);
    ReportMembership(fails, RuleIssues, 5);
  }

  /** checkoutSchema.safeParse: the normalised form, or the issues. The note is optional and never checked. */
  function Validate(f: CheckoutForm): (r: Outcome)
    ensures r.Accepted? <==> Acceptable(f)
    ensures r.Accepted? ==> r.form == f.(phoneNumber := StripWhitespace(f.phoneNumber))
    ensures r.Rejected? ==> r.issues == Issues(f) && |r.issues| > 0
  {
    var issues := Issues(f);
    if issues == [] then Accepted(f.(phoneNumber := StripWhitespace(f.phoneNumber)))
    else Rejected(issues)
  }

  /** Validating the normalised form again accepts it unchanged. */
  lemma {:induction false} ValidateIdempotent(f: CheckoutForm)
    requires Validate(f).Accepted?
    ensures Validate(Validate(f).form) == Validate(f)
  {
    StripIdempotent(f.phoneNumber);
  }

  /** The note never decides acceptance. */
  lemma {:induction false} NoteIgnored(f: CheckoutForm, note: Option<string>)
    ensures Validate(f.(note := note)).Accepted? <==> Validate(f).Accepted?
  {
  }

  /** An empty phone number fails both phone rules. */
  lemma {:induction false} EmptyPhoneFailsBoth(f: CheckoutForm)
    requires StripWhitespace(f.phoneNumber) == []
    ensures Validate(f).Rejected?
    ensures PhoneNotDigits in Validate(f).issues && PhoneTooShort in Validate(f).issues
  {
    IssuesReportEachFailure(f);
  }

  lemma {:induction false} DigitsArePlain(a: string)
    requires forall i :: 0 <= i < |a| ==> IsDigit(a[i])
    ensures forall i :: 0 <= i < |a| ==> !IsWhitespace(a[i])
  {
  }

  /** A space between two digit groups is removed before the checks: the number is judged on its digits alone. */
  lemma {:induction false} SpacedPhoneJudgedOnDigits(f: CheckoutForm, a: string, b: string)
    requires f.phoneNumber == a + " " + b
    requires forall i :: 0 <= i < |a| ==> IsDigit(a[i])
    requires forall i :: 0 <= i < |b| ==> IsDigit(b[i])
    ensures StripWhitespace(f.phoneNumber) == a + b
    ensures Validate(f) == Validate(f.(phoneNumber := a + b))
  {
    DigitsArePlain(a);
    DigitsArePlain(b);
    var spaced := a + " ";
    assert StripWhitespace(spaced) == a by {
      StripAppend(a, " ");
      StripLeavesPlainText(a);
      assert StripWhitespace(" ") == [];
    }
    assert StripWhitespace(b) == b by {
      StripLeavesPlainText(b);
    }
    StripAppend(spaced, b);
    var g := f.(phoneNumber := a + b);
    assert StripWhitespace(g.phoneNumber) == a + b by {
      DigitsArePlain(a + b);
      StripLeavesPlainText(a + b);
    }
    assert Issues(f) == Issues(g);
  }
}
