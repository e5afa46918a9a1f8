/** The part of zod's string schemas the section forms use: a list of checks run in order,
    where the message a form shows for a field is the message of the first failing check
    (react-hook-form keeps the first issue per field). */
module Zod {
  import opened Wrappers
  import opened Text

  /** `validator.isMobilePhone(value, "any")` and zod's `.email()`, left uninterpreted. */
  datatype Oracles = Oracles(isMobilePhone: string -> bool, isEmail: string -> bool)

  datatype Check =
    | MinLength(n: nat, message: string)
    | MaxLength(n: nat, message: string)
    | DigitsOnly(message: string)
    | MobilePhone(message: string)
    | Email(message: string)

  predicate Holds(c: Check, s: string, o: Oracles) {
    match c
    case MinLength(n, _) => |s| >= n
    case MaxLength(n, _) => |s| <= n
    case DigitsOnly(_) => IsDigitString(s)
    case MobilePhone(_) => o.isMobilePhone(s)
    case Email(_) => o.isEmail(s)
  }

  /** zod's message for a missing (undefined) value. */
  const Required := "Required"
  /** zod's default message for `.max(50)` without a message of its own. */
  const AtMostFifty := "String must contain at most 50 character(s)"

  /** The message of the first check `s` fails, if any. */
  function FirstIssue(checks: seq<Check>, s: string, o: Oracles): (r: Option<string>)
    ensures r.None? <==> forall i :: 0 <= i < |checks| ==> Holds(checks[i], s, o)
    ensures r.Some? ==> exists i :: 0 <= i < |checks| && !Holds(checks[i], s, o) &&
                                    r.value == checks[i].message &&
                                    forall j :: 0 <= j < i ==> Holds(checks[j], s, o)
  {
    if |checks| == 0 then None
    else if !Holds(checks[0], s, o) then Some(checks[0].message)
    else
      var r := FirstIssue(checks[1..], s, o);
      assert forall i :: 1 <= i < |checks| ==> checks[i] == checks[1..][i - 1];
      r
  }

  /** A `z.string()` field: a value that was never set fails with "Required". */
  function StringIssue(v: Option<string>, checks: seq<Check>, o: Oracles): (r: Option<string>)
    ensures r.None? <==> v.Some? && forall i :: 0 <= i < |checks| ==> Holds(checks[i], v.value, o)
  {
    match v
    case None => Some(Required)
    case Some(s) => FirstIssue(checks, s, o)
  }

  /** One entry of the error object a form shows: a field and its message. */
  datatype FieldIssue = FieldIssue(field: string, message: string)

  /** The error object, in schema order, from each field's first issue. */
  function Collect(entries: seq<(string, Option<string>)>): (r: seq<FieldIssue>)
    ensures r == [] <==> forall i :: 0 <= i < |entries| ==> entries[i].1.None?
    ensures |r| <= |entries|
  {
    if |entries| == 0 then []
    else
      var rest := Collect(entries[1..]);
      assert forall i :: 1 <= i < |entries| ==> entries[i] == entries[1..][i - 1];
      match entries[0].1
      case None => rest
      case Some(m) => [FieldIssue(entries[0].0, m)] + rest
  }

  /** Prepending a field reports its issue, if any, ahead of the others' issues. */
  lemma CollectCons(e: (string, Option<string>), rest: seq<(string, Option<string>)>)
    ensures Collect([e] + rest) == if e.1.None? then Collect(rest) else [FieldIssue(e.0, e.1.value)] + Collect(rest)
  {
    assert ([e] + rest)[1..] == rest;
  }
}

/** The outcome of running a schema on a form's values: the parsed data, or the error object. */
module Validation {
  import opened Wrappers
  import opened Zod
  import opened Http

  datatype Validated<T> = Valid(data: T) | Invalid(issues: seq<FieldIssue>)

  /** The notification a form raises after a submit. */
  datatype Toast = Toast(title: string, description: string, duration: nat)

  /** The notification a section form raises once its update request settles: the success
      text, the backend's `message`, or, when the request threw, the form's own error text
      (`None` for the forms that only log the error). */
  function UpdateToast<T>(r: Response<T>, success: string, onThrow: Option<string>): Option<Toast> {
    match r
    case Ok(_) => Some(Toast("Success!", success, 1000))
    case NotOk(m) => Some(Toast("Error!", m, 1000))
    case Failed => if onThrow.Some? then Some(Toast("Error!", onThrow.value, 1000)) else None
  }
}
