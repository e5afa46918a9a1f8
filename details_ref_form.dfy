/** The "Details & Reference" section form: a free-text description and a reference picked
    from a fixed option list, sent as a JSON `PATCH` to `api/clientsDetailsReference/{id}`. */
module DetailsRefForm {
  import opened Wrappers
  import opened Zod
  import opened Validation
  import opened Http

  const DetailsChecks := [MinLength(1, "Details required")]
  const ReferenceChecks := [MinLength(1, "Please Choose the Reference")]

  /** The `<option>` values of the reference select, the placeholder first. */
  const ReferenceOptions := ["", "facebook", "whatsapp", "messenger"]

  datatype DetailsValues = DetailsValues(details: Option<string>, reference: Option<string>)
  datatype DetailsData = DetailsData(details: string, reference: string)

  /** Both inputs are registered: the textarea starts empty and the select on its placeholder. */
  const Mounted := DetailsValues(Some(""), Some(""))

  function DetailsEntries(v: DetailsValues, o: Oracles): seq<(string, Option<string>)> {
    [("details", StringIssue(v.details, DetailsChecks, o)),
     ("reference", StringIssue(v.reference, ReferenceChecks, o))]
  }

  /** Both fields need only be non-empty; neither has an upper bound. */
  predicate DetailsAcceptable(v: DetailsValues) {
    v.details.Some? && |v.details.value| >= 1 && v.reference.Some? && |v.reference.value| >= 1
  }

  lemma DetailsIssuesEmptyIff(v: DetailsValues, o: Oracles)
    ensures Collect(DetailsEntries(v, o)) == [] <==> DetailsAcceptable(v)
  {
    var e := DetailsEntries(v, o);
    if v.details.Some? { assert Holds(DetailsChecks[0], v.details.value, o) <==> |v.details.value| >= 1; }
    if v.reference.Some? { assert Holds(ReferenceChecks[0], v.reference.value, o) <==> |v.reference.value| >= 1; }
    assert (forall i :: 0 <= i < |e| ==> e[i].1.None?) <==> e[0].1.None? && e[1].1.None?;
  }

  function ValidateDetails(v: DetailsValues, o: Oracles): (r: Validated<DetailsData>)
    ensures r.Valid? <==> DetailsAcceptable(v)
    ensures r.Valid? ==> r.data == DetailsData(v.details.value, v.reference.value)
    ensures r.Invalid? ==> r.issues != []
  {
    DetailsIssuesEmptyIff(v, o);
    var issues := Collect(DetailsEntries(v, o));
    if issues == [] then Valid(DetailsData(v.details.value, v.reference.value)) else Invalid(issues)
  }

  /** Of the select's options only the placeholder is refused, and with the reference message. */
  lemma ReferenceOptionsAccepted(details: string, o: Oracles)
    requires |details| >= 1
    ensures forall r :: r in ReferenceOptions ==>
              (ValidateDetails(DetailsValues(Some(details), Some(r)), o).Valid? <==> r != "")
    ensures ValidateDetails(DetailsValues(Some(details), Some("")), o)
            == Invalid([FieldIssue("reference", "Please Choose the Reference")])
  {
    var e := DetailsEntries(DetailsValues(Some(details), Some("")), o);
    assert e[0].1 == None;
    assert e[1].1 == Some("Please Choose the Reference");
    assert Collect(e[1..]) == [FieldIssue("reference", "Please Choose the Reference")] by {
      assert e[1..][1..] == [];
    }
  }

  const DetailsKeys := ["details", "reference"]

  /** `onSubmit`'s request: exactly `{details, reference}`. */
  function DetailsRequest(data: DetailsData, userId: int): (req: Request)
    ensures req.verb == PATCH && req.resource == "api/clientsDetailsReference" && req.id == userId
    ensures req.body.JsonObject? && KeysOf(req.body.members) == DetailsKeys
    ensures Get(req.body.members, "details") == Some(JString(data.details))
    ensures Get(req.body.members, "reference") == Some(JString(data.reference))
  {
    var m := [("details", JString(data.details)), ("reference", JString(data.reference))];
    LookupAt(m, DetailsKeys, 0);
    assert DetailsKeys[0] != DetailsKeys[1] by { assert |DetailsKeys[0]| != |DetailsKeys[1]|; }
    LookupAt(m, DetailsKeys, 1);
    Request(PATCH, "api/clientsDetailsReference", userId, JsonObject(m))
  }

  class DetailsSectionForm {
    var values: DetailsValues

    constructor ()
      ensures values == Mounted
    {
      values := Mounted;
    }

    /** Typing in the textarea (the `register` change handler). */
    method OnDetailsInput(text: string)
      modifies this
      ensures values == old(values).(details := Some(text))
    {
      values := values.(details := Some(text));
    }

    /** Picking a reference option. */
    method OnReferenceSelect(k: nat)
      requires k < |ReferenceOptions|
      modifies this
      ensures values == old(values).(reference := Some(ReferenceOptions[k]))
    {
      values := values.(reference := Some(ReferenceOptions[k]));
    }

    /** `handleSubmit(onSubmit)`: the request goes out only when the schema accepts the values;
        a thrown request is only logged. */
    method Submit(o: Oracles, userId: int, response: Response<()>) returns (req: Option<Request>, toast: Option<Toast>)
      ensures req.Some? <==> DetailsAcceptable(values)
      ensures req.Some? ==> req.value == DetailsRequest(DetailsData(values.details.value, values.reference.value), userId)
      ensures toast.Some? <==> req.Some? && !response.Failed?
      ensures toast.Some? ==> (toast.value.title == "Success!" <==> response.Ok?)
      ensures toast.Some? && response.NotOk? ==> toast.value.description == response.message
    {
      match ValidateDetails(values, o)
      case Invalid(_) =>
        req, toast := None, None;
      case Valid(data) =>
        req := Some(DetailsRequest(data, userId));
        toast := UpdateToast(response, "Client Updated successfully.", None);
    }
  }
}
