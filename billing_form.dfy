/** The "Billing" section form: bill-to, tax id, address, the shared phone pair and a
    billing e-mail, sent as a JSON `PATCH` to `api/clientsBilling/{id}`. */
module BillingForm {
  import opened Wrappers
  import opened Text
  import opened Zod
  import opened Validation
  import opened Http
  import opened PhoneFields

  const BillToChecks := [MinLength(3, "Billing Details required")]
  const TaxIdChecks := [MinLength(4, "Tax id is required")]
  const AddressChecks := [MinLength(5, "Billing address is required")]
  const BillingEmailChecks := [Email("Please enter a valid email address")]

  /** The form's values; `None` is a field the form never set. */
  datatype BillingValues = BillingValues(
    bill_to: Option<string>, tax_id: Option<string>, billing_address: Option<string>,
    billing_phone: Option<string>, country_code: Option<string>, billing_email: Option<string>)

  /** What `editBillingFormSchema` hands to the submit handler. */
  datatype BillingData = BillingData(
    bill_to: string, tax_id: string, billing_address: string,
    billing_phone: string, country_code: string, billing_email: string)

  /** The values when the section mounts: the four registered inputs hold their empty DOM
      value; the phone pair, written only by the PhoneInput, is unset. */
  const Mounted := BillingValues(Some(""), Some(""), Some(""), None, None, Some(""))

  /** Every rule of the billing schema, stated field by field. */
  predicate BillingAcceptable(v: BillingValues, o: Oracles) {
    && v.bill_to.Some? && |v.bill_to.value| >= 3
    && v.tax_id.Some? && |v.tax_id.value| >= 4
    && v.billing_address.Some? && |v.billing_address.value| >= 5
    && v.billing_phone.Some? && 10 <= |v.billing_phone.value| <= 13 && o.isMobilePhone(v.billing_phone.value)
    && v.country_code.Some? && 1 <= |v.country_code.value| <= 3 && IsDigitString(v.country_code.value)
    && v.billing_email.Some? && o.isEmail(v.billing_email.value)
  }

  /** Each field with its first issue, in schema order. */
  function BillingEntries(v: BillingValues, o: Oracles): seq<(string, Option<string>)> {
    [
      ("bill_to", StringIssue(v.bill_to, BillToChecks, o)),
      ("tax_id", StringIssue(v.tax_id, TaxIdChecks, o)),
      ("billing_address", StringIssue(v.billing_address, AddressChecks, o)),
      ("billing_phone", StringIssue(v.billing_phone, PhoneChecks, o)),
      ("country_code", StringIssue(v.country_code, CountryCodeChecks, o)),
      ("billing_email", StringIssue(v.billing_email, BillingEmailChecks, o))]
  }

  /** The schema reports no issue exactly when every field satisfies its rule. */
  lemma BillingIssuesEmptyIff(v: BillingValues, o: Oracles)
    ensures Collect(BillingEntries(v, o)) == [] <==> BillingAcceptable(v, o)
  {
    var e := BillingEntries(v, o);
    if v.bill_to.Some? { assert Holds(BillToChecks[0], v.bill_to.value, o) <==> |v.bill_to.value| >= 3; }
    if v.tax_id.Some? { assert Holds(TaxIdChecks[0], v.tax_id.value, o) <==> |v.tax_id.value| >= 4; }
    if v.billing_address.Some? {
      assert Holds(AddressChecks[0], v.billing_address.value, o) <==> |v.billing_address.value| >= 5;
    }
    if v.billing_phone.Some? { PhoneAcceptedIff(v.billing_phone.value, o); }
    if v.country_code.Some? { CountryCodeAcceptedIff(v.country_code.value, o); }
    if v.billing_email.Some? {
      assert Holds(BillingEmailChecks[0], v.billing_email.value, o) <==> o.isEmail(v.billing_email.value);
    }
    assert (forall i :: 0 <= i < |e| ==> e[i].1.None?) <==>
      e[0].1.None? && e[1].1.None? && e[2].1.None? && e[3].1.None? && e[4].1.None? && e[5].1.None?;
  }

  /** `editBillingFormSchema` run on the form's values: accepted data carries them verbatim. */
  function ValidateBilling(v: BillingValues, o: Oracles): (r: Validated<BillingData>)
    ensures r.Valid? <==> BillingAcceptable(v, o)
    ensures r.Valid? ==> r.data == BillingData(v.bill_to.value, v.tax_id.value, v.billing_address.value,
                                               v.billing_phone.value, v.country_code.value, v.billing_email.value)
    ensures r.Invalid? ==> r.issues != []
  {
    BillingIssuesEmptyIff(v, o);
    var issues := Collect(BillingEntries(v, o));
    if issues == [] then
      Valid(BillingData(v.bill_to.value, v.tax_id.value, v.billing_address.value,
                        v.billing_phone.value, v.country_code.value, v.billing_email.value))
    else Invalid(issues)
  }

  const BillingKeys := ["bill_to", "tax_id", "billing_address", "billing_phone", "country_code", "billing_email"]

  lemma BillingKeyAt<V>(members: seq<(string, V)>, k: nat)
    requires KeysOf(members) == BillingKeys && k < |BillingKeys|
    ensures Get(members, BillingKeys[k]) == Some(members[k].1)
  {
    forall j | 0 <= j < k ensures BillingKeys[j] != BillingKeys[k] {
      var a, b := BillingKeys[j], BillingKeys[k];
      assert |a| != |b| || a[0] != b[0] || a[|a| - 1] != b[|b| - 1];
    }
    LookupAt(members, BillingKeys, k);
  }

  /** `onSubmit`'s request: `JSON.stringify(data)`, one string member per schema field. */
  function BillingRequest(data: BillingData, userId: int): (req: Request)
    ensures req.verb == PATCH && req.resource == "api/clientsBilling" && req.id == userId
    ensures req.body.JsonObject? && KeysOf(req.body.members) == BillingKeys
    ensures var m := req.body.members;
            && Get(m, "bill_to") == Some(JString(data.bill_to))
            && Get(m, "tax_id") == Some(JString(data.tax_id))
            && Get(m, "billing_address") == Some(JString(data.billing_address))
            && Get(m, "billing_phone") == Some(JString(data.billing_phone))
            && Get(m, "country_code") == Some(JString(data.country_code))
            && Get(m, "billing_email") == Some(JString(data.billing_email))
  {
    var m := [
      ("bill_to", JString(data.bill_to)),
      ("tax_id", JString(data.tax_id)),
      ("billing_address", JString(data.billing_address)),
      ("billing_phone", JString(data.billing_phone)),
      ("country_code", JString(data.country_code)),
      ("billing_email", JString(data.billing_email))];
    BillingKeyAt(m, 0); BillingKeyAt(m, 1); BillingKeyAt(m, 2);
    BillingKeyAt(m, 3); BillingKeyAt(m, 4); BillingKeyAt(m, 5);
    Request(PATCH, "api/clientsBilling", userId, JsonObject(m))
  }

  class BillingSectionForm {
    var values: BillingValues

    constructor ()
      ensures values == Mounted
    {
      values := Mounted;
    }

    /** The PhoneInput `onChange`: writes `country_code` and `billing_phone` together. */
    method OnPhoneChange(value: string, dialCode: Option<string>)
      modifies this
      ensures var d := SplitPhone(value, dialCode);
              values == old(values).(country_code := Some(d.countryCode), billing_phone := Some(d.phone))
    {
      var d := SplitPhone(value, dialCode);
      values := values.(country_code := Some(d.countryCode), billing_phone := Some(d.phone));
    }

    /** `handleSubmit(onSubmit)`: the request goes out only when the schema accepts the
        values; a request that throws is only logged, so it raises no toast. */
    method Submit(o: Oracles, userId: int, response: Response<()>) returns (req: Option<Request>, toast: Option<Toast>)
      ensures req.Some? <==> BillingAcceptable(values, o)
      ensures req.Some? ==> req.value == BillingRequest(ValidateBilling(values, o).data, userId)
      ensures toast.Some? <==> req.Some? && !response.Failed?
      ensures toast.Some? ==> (toast.value.title == "Success!" <==> response.Ok?)
      ensures toast.Some? && response.NotOk? ==> toast.value.description == response.message
    {
      match ValidateBilling(values, o)
      case Invalid(_) =>
        req, toast := None, None;
      case Valid(data) =>
        req := Some(BillingRequest(data, userId));
        toast := UpdateToast(response, "Client Updated successfully.", None);
    }
  }
}
