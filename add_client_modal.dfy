/** The "Add Client" dialog: its contact schema, the phone split written into the form,
    and the rule that closes the dialog after a submit. */
module AddClientModal {
  import opened Wrappers
  import opened Text
  import opened Zod
  import opened Validation
  import opened PhoneFields

  const FirstNameChecks := [MinLength(2, "First name must be at least 2 characters"), MaxLength(50, AtMostFifty)]
  const LastNameChecks := [MinLength(2, "Last name must be at least 2 characters"), MaxLength(50, AtMostFifty)]
  const EmailChecks := [Email("Please enter a valid email address")]
  const CompanyChecks := [MinLength(2, "Company must be at least 2 characters"), MaxLength(50, AtMostFifty)]
  const PositionChecks := [MinLength(2, "Position must be at least 2 characters"), MaxLength(50, AtMostFifty)]

  /** The form's values; `None` is a field the form never set. */
  datatype ContactValues = ContactValues(
    first_name: Option<string>, last_name: Option<string>, email: Option<string>,
    phone: Option<string>, country_code: Option<string>,
    company: Option<string>, position: Option<string>)

  /** The values when the dialog mounts: a registered text input holds its empty DOM value,
      while `phone` and `country_code`, written only by the PhoneInput, are unset. */
  const Blank := ContactValues(Some(""), Some(""), Some(""), None, None, Some(""), Some(""))

  /** What the schema hands to the submit handler. */
  datatype ContactData = ContactData(
    first_name: string, last_name: string, email: string, phone: string,
    country_code: string, company: string, position: string)

  /** A name, company or position: 2 to 50 characters. */
  predicate NameLength(s: string) {
    2 <= |s| <= 50
  }

  /** Every rule of `formSchema`, stated field by field. */
  predicate ContactAcceptable(v: ContactValues, o: Oracles) {
    && v.first_name.Some? && NameLength(v.first_name.value)
    && v.last_name.Some? && NameLength(v.last_name.value)
    && v.email.Some? && o.isEmail(v.email.value)
    && v.phone.Some? && 10 <= |v.phone.value| <= 13 && o.isMobilePhone(v.phone.value)
    && v.country_code.Some? && 1 <= |v.country_code.value| <= 3 && IsDigitString(v.country_code.value)
    && v.company.Some? && NameLength(v.company.value)
    && v.position.Some? && NameLength(v.position.value)
  }

  /** Each field with its first issue, in schema order. */
  function ContactEntries(v: ContactValues, o: Oracles): seq<(string, Option<string>)> {
    [
      ("first_name", StringIssue(v.first_name, FirstNameChecks, o)),
      ("last_name", StringIssue(v.last_name, LastNameChecks, o)),
      ("email", StringIssue(v.email, EmailChecks, o)),
      ("phone", StringIssue(v.phone, PhoneChecks, o)),
      ("country_code", StringIssue(v.country_code, CountryCodeChecks, o)),
      ("company", StringIssue(v.company, CompanyChecks, o)),
      ("position", StringIssue(v.position, PositionChecks, o))]
  }

  function ContactIssues(v: ContactValues, o: Oracles): seq<FieldIssue> {
    Collect(ContactEntries(v, o))
  }

  /** A name-like field's rule accepts exactly a set value of 2 to 50 characters. */
  lemma NameChecksAcceptedIff(checks: seq<Check>, v: Option<string>, o: Oracles)
    requires checks in {FirstNameChecks, LastNameChecks, CompanyChecks, PositionChecks}
    ensures StringIssue(v, checks, o).None? <==> v.Some? && NameLength(v.value)
  {
    if v.Some? {
      assert Holds(checks[0], v.value, o) && Holds(checks[1], v.value, o) <==> NameLength(v.value);
    }
  }

  /** The schema reports no issue exactly when every field satisfies its rule. */
  lemma ContactIssuesEmptyIff(v: ContactValues, o: Oracles)
    ensures ContactIssues(v, o) == [] <==> ContactAcceptable(v, o)
  {
    var e := ContactEntries(v, o);
    NameChecksAcceptedIff(FirstNameChecks, v.first_name, o);
    NameChecksAcceptedIff(LastNameChecks, v.last_name, o);
    NameChecksAcceptedIff(CompanyChecks, v.company, o);
    NameChecksAcceptedIff(PositionChecks, v.position, o);
    if v.phone.Some? { PhoneAcceptedIff(v.phone.value, o); }
    if v.country_code.Some? { CountryCodeAcceptedIff(v.country_code.value, o); }
    assert e[2].1.None? <==> v.email.Some? && o.isEmail(v.email.value) by {
      if v.email.Some? {
        assert Holds(EmailChecks[0], v.email.value, o) <==> o.isEmail(v.email.value);
      }
    }
    assert (forall i :: 0 <= i < |e| ==> e[i].1.None?) <==>
      e[0].1.None? && e[1].1.None? && e[2].1.None? && e[3].1.None? && e[4].1.None? && e[5].1.None? && e[6].1.None?;
  }

  /** `formSchema` run on the form's values: the accepted data carries the values verbatim. */
  function ValidateContact(v: ContactValues, o: Oracles): (r: Validated<ContactData>)
    ensures r.Valid? <==> ContactAcceptable(v, o)
    ensures r.Valid? ==> r.data == ContactData(v.first_name.value, v.last_name.value, v.email.value,
                                               v.phone.value, v.country_code.value,
                                               v.company.value, v.position.value)
    ensures r.Invalid? ==> r.issues != []
  {
    ContactIssuesEmptyIff(v, o);
    var issues := ContactIssues(v, o);
    if issues == [] then
      Valid(ContactData(v.first_name.value, v.last_name.value, v.email.value,
                        v.phone.value, v.country_code.value, v.company.value, v.position.value))
    else Invalid(issues)
  }

  /** What `onSubmit` did: returned an error message or `null`, or threw (with its message, if any). */
  datatype SubmitOutcome = Returned(error: Option<string>) | Threw(message: Option<string>)

  /** `if (error)`: `null` and `""` are both falsy and count as success. */
  predicate Succeeded(outcome: SubmitOutcome) {
    outcome.Returned? && (outcome.error.None? || outcome.error.value == "")
  }

  function SubmitToast(outcome: SubmitOutcome): (t: Toast)
    ensures t.title == "Success!" <==> Succeeded(outcome)
    ensures outcome.Returned? && !Succeeded(outcome) ==> t.description == outcome.error.value
  {
    match outcome
    case Returned(e) =>
      if e.None? || e.value == "" then Toast("Success!", "Client added successfully.", 1000)
      else Toast("Error!", e.value, 1000)
    case Threw(m) =>
      Toast("Error!", if m.None? || m.value == "" then "An unknown error occurred." else m.value, 3000)
  }

  class AddClientDialog {
    var open: bool
    var values: ContactValues

    constructor ()
      ensures !open && values == Blank
    {
      open, values := false, Blank;
    }

    /** `onOpenChange={setOpen}`: the trigger button opens, the dialog's own close closes. */
    method SetOpen(value: bool)
      modifies this
      ensures open == value && values == old(values)
    {
      open := value;
    }

    /** The PhoneInput `onChange`: writes `country_code` and `phone` together. */
    method OnPhoneChange(value: string, dialCode: Option<string>)
      modifies this
      ensures var d := SplitPhone(value, dialCode);
              values == old(values).(country_code := Some(d.countryCode), phone := Some(d.phone))
      ensures open == old(open)
    {
      var d := SplitPhone(value, dialCode);
      values := values.(country_code := Some(d.countryCode), phone := Some(d.phone));
    }

    /** `handleSubmit(formSubmit)`: nothing leaves the form unless the schema accepts it;
        the dialog closes only when the backend call returns a falsy result. */
    method Submit(o: Oracles, outcome: SubmitOutcome) returns (sent: Option<ContactData>, toast: Option<Toast>)
      modifies this
      ensures values == old(values)
      ensures sent.Some? <==> ContactAcceptable(values, o)
      ensures sent.Some? ==> sent == Some(ValidateContact(values, o).data) && toast == Some(SubmitToast(outcome))
      ensures sent.None? ==> toast.None?
      ensures open == if sent.Some? && Succeeded(outcome) then false else old(open)
    {
      match ValidateContact(values, o)
      case Invalid(_) =>
        sent, toast := None, None;
      case Valid(data) =>
        sent, toast := Some(data), Some(SubmitToast(outcome));
        if Succeeded(outcome) {
          open := false;
        }
    }
  }
}
