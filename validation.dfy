/**
 * The contact-form schema and `validateInput`. Each field is a string
 * schema whose checks all run and all report, an optional string schema,
 * or a string schema followed by a refinement; a refinement also runs
 * after a failed check but not after a wrong type. Issues are reported
 * field by field in the schema's order and grouped by their dotted path.
 */
module Validation {
  import opened Wrappers
  import opened Text

  // ---------------------------------------------------------------------
  // Inputs and issues
  // ---------------------------------------------------------------------

  /** A field's value: absent, a string, or a value of another type (named
      as the schema library names it in its messages, e.g. `number`). */
  datatype FieldInput = Missing | Str(s: string) | OtherType(typeName: string)

  datatype ContactForm = ContactForm(
    businessName: FieldInput,
    contactName: FieldInput,
    email: FieldInput,
    phone: FieldInput,
    industry: FieldInput,
    currentProcesses: FieldInput,
    budgetRange: FieldInput,
    contactMethod: FieldInput,
    projectDescription: FieldInput)

  /** What is handed to the schema: an object, or a value of another type. */
  datatype FormInput = FormObject(form: ContactForm) | NotAnObject(typeName: string)

  /** A validation issue: where, and what. */
  datatype Issue = Issue(path: seq<string>, message: string)

  /** `err.path.join('.')`. */
  function PathKey(i: Issue): string
  {
    Join(i.path, '.')
  }

  // ---------------------------------------------------------------------
  // Field rules
  // ---------------------------------------------------------------------

  /** A `^[...]+$` test: non-empty and every character in the class. */
  predicate AllOf(s: string, allowed: char -> bool)
  {
    |s| > 0 && forall i :: 0 <= i < |s| ==> allowed(s[i])
  }

  predicate BusinessNameChar(c: char)
  {
    IsAsciiLetter(c) || IsDigit(c) || IsJsSpace(c)
    || c == '-' || c == '&' || c == '.' || c == ',' || c == '(' || c == ')'
  }

  predicate ContactNameChar(c: char)
  {
    IsAsciiLetter(c) || IsJsSpace(c) || c == '-' || c == '\''
  }

  /** The issue a string schema reports for a value that is not a string. */
  function TypeMessage(v: FieldInput): string
    requires !v.Str?
  {
    if v.Missing? then "Required" else "Expected string, received " + v.typeName
  }

  function If(cond: bool, message: string): seq<string>
  {
    if cond then [message] else []
  }

  function BusinessNameChecks(s: string): seq<string>
  {
    If(|s| < 1, "Business name is required")
    + If(|s| > 100, "Business name must be less than 100 characters")
    + If(!AllOf(s, BusinessNameChar), "Business name contains invalid characters")
  }

  function ContactNameChecks(s: string): seq<string>
  {
    If(|s| < 1, "Contact name is required")
    + If(|s| > 50, "Contact name must be less than 50 characters")
    + If(!AllOf(s, ContactNameChar), "Contact name contains invalid characters")
  }

  /** `isEmail` stands for the library's e-mail test. */
  function EmailChecks(s: string, isEmail: string -> bool): seq<string>
  {
    If(|s| < 1, "Email is required")
    + If(!isEmail(s), "Please enter a valid email address")
    + If(|s| > 254, "Email must be less than 254 characters")
  }

  const Industries: seq<string> :=
    ["ecommerce", "saas", "healthcare", "finance", "real-estate", "manufacturing", "consulting", "other"]
  const BudgetRanges: seq<string> := ["under-5k", "5k-15k", "15k-50k", "50k-plus", "discuss"]
  const ContactMethods: seq<string> := ["email", "phone", "video", "in-person"]

  /** `industry`: the minimum-length check, then the refinement, which runs
      even when the check failed. */
  function IndustryChecks(s: string): seq<string>
  {
    If(|s| < 1, "Industry is required") + If(s !in Industries, "Please select a valid industry")
  }

  function CurrentProcessesChecks(s: string): seq<string>
  {
    If(|s| < 10, "Please provide at least 10 characters describing your processes")
    + If(|s| > 2000, "Description must be less than 2000 characters")
  }

  /** `[\s\-\(\)]`, what the phone refinement deletes before testing. */
  predicate PhoneSeparator(c: char) { IsJsSpace(c) || c == '-' || c == '(' || c == ')' }

  predicate NotPhoneSeparator(c: char) { !PhoneSeparator(c) }

  /** `^[\+]?[1-9][\d]{0,15}$`. */
  predicate PhonePattern(s: string)
  {
    var digits := if |s| > 0 && s[0] == '+' then s[1..] else s;
    1 <= |digits| <= 16 && '1' <= digits[0] <= '9' && forall i :: 0 <= i < |digits| ==> IsDigit(digits[i])
  }

  predicate PhoneAccepted(s: string)
  {
    PhonePattern(Keep(s, NotPhoneSeparator))
  }

  predicate BudgetAccepted(s: string) { s in BudgetRanges }
  predicate ContactMethodAccepted(s: string) { s in ContactMethods }
  predicate DescriptionAccepted(s: string) { |s| <= 2000 }

  /** A required string field: the type issue, or every failed check. */
  function RequiredField(v: FieldInput, checks: string -> seq<string>): seq<string>
  {
    if v.Str? then checks(v.s) else [TypeMessage(v)]
  }

  /** An optional string field with a refinement that passes absent and empty values. */
  function OptionalField(v: FieldInput, accepted: string -> bool, message: string): seq<string>
  {
    match v
    case Missing => []
    case OtherType(_) => [TypeMessage(v)]
    case Str(s) => If(s != [] && !accepted(s), message)
  }

  function At(field: string, messages: seq<string>): (issues: seq<Issue>)
    ensures |issues| == |messages|
    ensures forall i :: 0 <= i < |issues| ==> issues[i] == Issue([field], messages[i])
  {
    if messages == [] then [] else [Issue([field], messages[0])] + At(field, messages[1..])
  }

  /** Every issue of the contact form, in the schema's field order. */
  function FormIssues(f: ContactForm, isEmail: string -> bool): seq<Issue>
  {
    At("businessName", RequiredField(f.businessName, BusinessNameChecks))
    + At("contactName", RequiredField(f.contactName, ContactNameChecks))
    + At("email", RequiredField(f.email, s => EmailChecks(s, isEmail)))
    + At("phone", OptionalField(f.phone, PhoneAccepted, "Please enter a valid phone number"))
    + At("industry", RequiredField(f.industry, IndustryChecks))
    + At("currentProcesses", RequiredField(f.currentProcesses, CurrentProcessesChecks))
    + At("budgetRange", OptionalField(f.budgetRange, BudgetAccepted, "Please select a valid budget range"))
    + At("contactMethod", OptionalField(f.contactMethod, ContactMethodAccepted, "Please select a valid contact method"))
    + At("projectDescription", OptionalField(f.projectDescription, DescriptionAccepted,
                                             "Project description must be less than 2000 characters"))
  }

  /** The root issue for a value that is not an object: as for a field,
      an undefined value is reported as `Required`. */
  function RootTypeMessage(typeName: string): string
  {
    if typeName == "undefined" then "Required" else "Expected object, received " + typeName
  }

  /** `contactFormSchema.parse`: the issues it throws with, none on success. */
  function SchemaIssues(input: FormInput, isEmail: string -> bool): seq<Issue>
  {
    match input
    case NotAnObject(t) => [Issue([], RootTypeMessage(t))]
    case FormObject(f) => FormIssues(f, isEmail)
  }

  // ---------------------------------------------------------------------
  // The field rules, stated
  // ---------------------------------------------------------------------

  /** A business name is accepted exactly when it is 1 to 100 characters of
      letters, digits, white space and `- & . , ( )`. */
  lemma BusinessNameRule(s: string)
    ensures BusinessNameChecks(s) == [] <==>
      1 <= |s| <= 100 && forall i :: 0 <= i < |s| ==> BusinessNameChar(s[i])
    ensures s == [] ==> |BusinessNameChecks(s)| == 2
  {
  }

  /** A contact name is accepted exactly when it is 1 to 50 characters of
      letters, white space, `-` and `'`. */
  lemma ContactNameRule(s: string)
    ensures ContactNameChecks(s) == [] <==>
      1 <= |s| <= 50 && forall i :: 0 <= i < |s| ==> ContactNameChar(s[i])
  {
  }

  /** The e-mail is non-empty, passes the e-mail test and is at most 254 characters. */
  lemma EmailRule(s: string, isEmail: string -> bool)
    ensures EmailChecks(s, isEmail) == [] <==> 1 <= |s| <= 254 && isEmail(s)
  {
  }

  /** The industry must be one of the eight values; an empty one gets both messages. */
  lemma IndustryRule(s: string)
    ensures IndustryChecks(s) == [] <==> s in Industries
    ensures s == [] ==> IndustryChecks(s) == ["Industry is required", "Please select a valid industry"]
  {
    if s == [] {
      assert s !in Industries;
    } else if s in Industries {
      assert |s| >= 1;
    }
  }

  /** Optional fields: absent or empty passes, a wrong type fails, and
      otherwise the refinement decides. */
  lemma OptionalRule(v: FieldInput, accepted: string -> bool, message: string)
    ensures OptionalField(v, accepted, message) == [] <==>
      v.Missing? || (v.Str? && (v.s == [] || accepted(v.s)))
  {
  }

  /** Once separators are deleted, a phone number is an optional `+` and one
      to sixteen digits, the first of them not zero. */
  lemma PhoneRule(s: string)
    requires forall i :: 0 <= i < |s| ==> !PhoneSeparator(s[i])
    ensures PhoneAccepted(s) <==> PhonePattern(s)
  {
    KeepAll(s, NotPhoneSeparator);
  }

  /** The form is accepted exactly when every field is. */
  lemma FormAcceptedRule(f: ContactForm, isEmail: string -> bool)
    ensures FormIssues(f, isEmail) == [] <==>
      && RequiredField(f.businessName, BusinessNameChecks) == []
      && RequiredField(f.contactName, ContactNameChecks) == []
      && RequiredField(f.email, s => EmailChecks(s, isEmail)) == []
      && OptionalField(f.phone, PhoneAccepted, "Please enter a valid phone number") == []
      && RequiredField(f.industry, IndustryChecks) == []
      && RequiredField(f.currentProcesses, CurrentProcessesChecks) == []
      && OptionalField(f.budgetRange, BudgetAccepted, "Please select a valid budget range") == []
      && OptionalField(f.contactMethod, ContactMethodAccepted, "Please select a valid contact method") == []
      && OptionalField(f.projectDescription, DescriptionAccepted,
                       "Project description must be less than 2000 characters") == []
  {
  }

  // ---------------------------------------------------------------------
  // Grouping by path
  // ---------------------------------------------------------------------

  /** The dotted paths that occur among the issues. */
  function PathKeys(issues: seq<Issue>): set<string>
  {
    set i | 0 <= i < |issues| :: PathKey(issues[i])
  }

  /** The messages of the issues at `key`, in the order encountered. */
  function MessagesAt(issues: seq<Issue>, key: string): seq<string>
    decreases |issues|
  {
    if issues == [] then []
    else
      var last := issues[|issues| - 1];
      MessagesAt(issues[..|issues| - 1], key) + (if PathKey(last) == key then [last.message] else [])
  }

  /** The errors dictionary: each path that occurs, with its messages. */
  function Grouped(issues: seq<Issue>): map<string, seq<string>>
  {
    map k | k in PathKeys(issues) :: MessagesAt(issues, k)
  }

  /** A path that occurs has at least one message; one that does not has none. */
  lemma {:induction false} MessagesAtPresence(issues: seq<Issue>, key: string)
    ensures MessagesAt(issues, key) != [] <==> key in PathKeys(issues)
    decreases |issues|
  {
    if issues != [] {
      var init := issues[..|issues| - 1];
      MessagesAtPresence(init, key);
      assert PathKeys(issues) == PathKeys(init) + {PathKey(issues[|issues| - 1])} by {
        forall k | k in PathKeys(issues) ensures k in PathKeys(init) + {PathKey(issues[|issues| - 1])} {
          var i :| 0 <= i < |issues| && PathKey(issues[i]) == k;
          if i < |issues| - 1 {
            assert init[i] == issues[i];
          }
        }
        forall k | k in PathKeys(init) ensures k in PathKeys(issues) {
          var i :| 0 <= i < |init| && PathKey(init[i]) == k;
          assert issues[i] == init[i];
        }
      }
    }
  }

  /** Every key of the grouping has a non-empty list, and every issue's
      message is filed under its own path. */
  lemma GroupedShape(issues: seq<Issue>)
    ensures Grouped(issues).Keys == PathKeys(issues)
    ensures forall k :: k in Grouped(issues) ==> Grouped(issues)[k] != []
  {
    forall k | k in Grouped(issues) ensures Grouped(issues)[k] != [] {
      MessagesAtPresence(issues, k);
    }
  }

  /** Appending one issue files its message last under its path and changes
      no other key. */
  lemma GroupedStep(issues: seq<Issue>, x: Issue)
    ensures var g := Grouped(issues);
      Grouped(issues + [x]) == g[PathKey(x) := (if PathKey(x) in g then g[PathKey(x)] else []) + [x.message]]
  {
    var s := issues + [x];
    PathKeysStep(issues, x);
    MessagesAtPresence(issues, PathKey(x));
    var g := Grouped(issues);
    var expected := g[PathKey(x) := (if PathKey(x) in g then g[PathKey(x)] else []) + [x.message]];
    forall k | k in PathKeys(s)
      ensures Grouped(s)[k] == expected[k]
    {
      MessagesAtStep(issues, x, k);
    }
    assert Grouped(s).Keys == expected.Keys;
  }

  /** Appending an issue adds its path to the keys. */
  lemma PathKeysStep(issues: seq<Issue>, x: Issue)
    ensures PathKeys(issues + [x]) == PathKeys(issues) + {PathKey(x)}
  {
    var s := issues + [x];
    forall k | k in PathKeys(s) ensures k in PathKeys(issues) + {PathKey(x)} {
      var i :| 0 <= i < |s| && PathKey(s[i]) == k;
      if i < |issues| {
        assert s[i] == issues[i];
      }
    }
    forall k | k in PathKeys(issues) ensures k in PathKeys(s) {
      var i :| 0 <= i < |issues| && PathKey(issues[i]) == k;
      assert s[i] == issues[i];
    }
    assert s[|issues|] == x;
  }

  /** Appending an issue adds its message under its own path only. */
  lemma MessagesAtStep(issues: seq<Issue>, x: Issue, k: string)
    ensures MessagesAt(issues + [x], k) == MessagesAt(issues, k) + (if PathKey(x) == k then [x.message] else [])
  {
    var s := issues + [x];
    assert s[..|s| - 1] == issues;
  }

  /** `GroupedStep` on a prefix of the issues. */
  lemma GroupedPrefixStep(issues: seq<Issue>, i: nat)
    requires i < |issues|
    ensures var g := Grouped(issues[..i]);
      var key := PathKey(issues[i]);
      Grouped(issues[..i + 1]) == g[key := (if key in g then g[key] else []) + [issues[i].message]]
  {
    assert issues[..i + 1] == issues[..i] + [issues[i]];
    GroupedStep(issues[..i], issues[i]);
  }

  /** The `forEach` that fills the errors dictionary in place. */
  method GroupByPath(issues: seq<Issue>) returns (errors: map<string, seq<string>>)
    ensures errors == Grouped(issues)
  {
    errors := map[];
    var i := 0;
    assert Grouped([]) == map[];
    while i < |issues|
      invariant 0 <= i <= |issues|
      invariant errors == Grouped(issues[..i])
    {
      ghost var before := errors;
      var key := PathKey(issues[i]);
      if key !in errors {
        errors := errors[key := []];
      }
      errors := errors[key := errors[key] + [issues[i].message]];
      assert errors == before[key := (if key in before then before[key] else []) + [issues[i].message]];
      GroupedPrefixStep(issues, i);
      i := i + 1;
    }
    assert issues[..|issues|] == issues;
  }

  // ---------------------------------------------------------------------
  // validateInput
  // ---------------------------------------------------------------------

  /** How `schema.parse(data)` ended. */
  datatype ParseOutcome<T> = Parsed(value: T) | SchemaFailure(issues: seq<Issue>) | OtherFailure

  datatype ValidationResult<T> = ValidationResult(success: bool, data: Option<T>, errors: Option<map<string, seq<string>>>)

  const GeneralFailure: map<string, seq<string>> := map["general" := ["Validation failed"]]

  /** What `validateInput` returns for a parse outcome. */
  function ValidationFor<T>(outcome: ParseOutcome<T>): ValidationResult<T>
  {
    match outcome
    case Parsed(v) => ValidationResult(true, Some(v), None)
    case SchemaFailure(issues) => ValidationResult(false, None, Some(Grouped(issues)))
    case OtherFailure => ValidationResult(false, None, Some(GeneralFailure))
  }

  /** `validateInput`. */
  method ValidateInput<T>(outcome: ParseOutcome<T>) returns (result: ValidationResult<T>)
    ensures result == ValidationFor(outcome)
  {
    match outcome {
      case Parsed(v) =>
        return ValidationResult(true, Some(v), None);
      case SchemaFailure(issues) =>
        var errors := GroupByPath(issues);
        return ValidationResult(false, None, Some(errors));
      case OtherFailure =>
        return ValidationResult(false, None, Some(GeneralFailure));
    }
  }

  /** Parsing the contact form. */
  function ParseContactForm(input: FormInput, isEmail: string -> bool): ParseOutcome<ContactForm>
  {
    if SchemaIssues(input, isEmail) == [] then Parsed(input.form) else SchemaFailure(SchemaIssues(input, isEmail))
  }

  /** Validation of the contact form succeeds exactly when the schema accepts;
      on failure every field with a problem is a key holding its messages. */
  lemma ContactFormValidation(input: FormInput, isEmail: string -> bool)
    ensures ValidationFor(ParseContactForm(input, isEmail)).success <==> SchemaIssues(input, isEmail) == []
    ensures !ValidationFor(ParseContactForm(input, isEmail)).success ==>
      var errors := ValidationFor(ParseContactForm(input, isEmail)).errors.value;
      errors.Keys == PathKeys(SchemaIssues(input, isEmail))
      && forall k :: k in errors ==> errors[k] != []
    ensures input.NotAnObject? ==>
      ValidationFor(ParseContactForm(input, isEmail)).errors
        == Some(map["" := [if input.typeName == "undefined" then "Required"
                           else "Expected object, received " + input.typeName]])
  {
    GroupedShape(SchemaIssues(input, isEmail));
    if input.NotAnObject? {
      var issues := SchemaIssues(input, isEmail);
      assert PathKey(issues[0]) == "";
      assert PathKeys(issues) == {""};
      assert MessagesAt(issues, "") == [RootTypeMessage(input.typeName)] by {
        assert issues[..0] == [];
      }
      assert Grouped(issues) == map["" := [RootTypeMessage(input.typeName)]];
    }
  }
}
