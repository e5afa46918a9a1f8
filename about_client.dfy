/** The "About Client" section form: the contact rules of the add dialog plus an optional
    profile picture, sent as multipart data through a POST that carries `_method=PATCH`. */
module AboutClient {
  import opened Wrappers
  import opened Zod
  import opened Validation
  import opened Http
  import opened PhoneFields
  import opened AddClientModal

  const MaxPictureBytes := 5000000
  const PictureTypes := ["image/jpeg", "image/png", "image/jpg"]

  /** The `profile_pic` value: never set, `null`, a file, or the `FileList` that a registered
      file input holds until `handleImageChange` replaces it with the chosen file. */
  datatype PictureValue = PictureUndefined | PictureNull | PictureFile(file: FileInfo) | PictureFileList

  /** zod's message when `z.instanceof(File)` meets something that is not a `File`. */
  const NotAFile := "Input not instance of File"

  /** The picture's first issue: a non-file fails the type test; a file is checked for size
      first, then type; `null` and undefined pass. */
  function PictureIssue(p: PictureValue): Option<string> {
    match p
    case PictureFileList => Some(NotAFile)
    case PictureFile(f) =>
      if !(f.size < MaxPictureBytes) then Some("File can't be bigger than 5MB.")
      else if f.mimeType !in PictureTypes then Some("File format must be either jpg, jpeg, or png.")
      else None
    case _ => None
  }

  /** The picture rule as stated: absent or null passes; anything else must be a file under
      5,000,000 bytes that is a JPEG or PNG. */
  predicate PictureAcceptable(p: PictureValue) {
    && !p.PictureFileList?
    && (p.PictureFile? ==>
          p.file.size < 5000000 &&
          (p.file.mimeType == "image/jpeg" || p.file.mimeType == "image/png" || p.file.mimeType == "image/jpg"))
  }

  lemma PictureIssueIff(p: PictureValue)
    ensures PictureIssue(p).None? <==> PictureAcceptable(p)
  {
  }

  datatype AboutValues = AboutValues(profile_pic: PictureValue, contact: ContactValues)
  datatype AboutData = AboutData(profile_pic: PictureValue, contact: ContactData)

  function AboutIssues(v: AboutValues, o: Oracles): seq<FieldIssue> {
    Collect([("profile_pic", PictureIssue(v.profile_pic))] + ContactEntries(v.contact, o))
  }

  /** `editFormSchema` run on the form's values. */
  function ValidateAbout(v: AboutValues, o: Oracles): (r: Validated<AboutData>)
    ensures r.Valid? <==> PictureAcceptable(v.profile_pic) && ContactAcceptable(v.contact, o)
    ensures r.Valid? ==> r.data.profile_pic == v.profile_pic &&
                         Valid(r.data.contact) == ValidateContact(v.contact, o)
    ensures r.Invalid? ==> r.issues != []
  {
    PictureIssueIff(v.profile_pic);
    ContactIssuesEmptyIff(v.contact, o);
    var picture := ("profile_pic", PictureIssue(v.profile_pic));
    CollectCons(picture, ContactEntries(v.contact, o));
    var issues := Collect([picture] + ContactEntries(v.contact, o));
    if issues == [] then
      Valid(AboutData(v.profile_pic, ValidateContact(v.contact, o).data))
    else Invalid(issues)
  }

  /** `formData.append("profile_pic", data.profile_pic)`: a file is sent as a file; `null`
      and `undefined` are sent as the strings "null" and "undefined". */
  function PicturePart(p: PictureValue): Part {
    match p
    case PictureFile(f) => FilePart(f)
    case PictureNull => TextPart("null")
    case PictureUndefined => TextPart("undefined")
    case PictureFileList => TextPart("[object FileList]")
  }

  const PayloadKeys := ["first_name", "last_name", "email", "phone", "country_code",
                        "company", "position", "profile_pic", "_method"]

  /** Every payload key is appended once, so each lookup finds its own entry. */
  lemma PayloadLookup<V>(parts: seq<(string, V)>)
    requires KeysOf(parts) == PayloadKeys
    ensures Get(parts, "first_name") == Some(parts[0].1) && Get(parts, "last_name") == Some(parts[1].1)
    ensures Get(parts, "email") == Some(parts[2].1) && Get(parts, "phone") == Some(parts[3].1)
    ensures Get(parts, "country_code") == Some(parts[4].1) && Get(parts, "company") == Some(parts[5].1)
    ensures Get(parts, "position") == Some(parts[6].1) && Get(parts, "profile_pic") == Some(parts[7].1)
    ensures Get(parts, "_method") == Some(parts[8].1)
  {
    PayloadAt(parts, 0); PayloadAt(parts, 1); PayloadAt(parts, 2);
    PayloadAt(parts, 3); PayloadAt(parts, 4); PayloadAt(parts, 5);
    PayloadAt(parts, 6); PayloadAt(parts, 7); PayloadAt(parts, 8);
  }

  lemma PayloadAt<V>(parts: seq<(string, V)>, k: nat)
    requires KeysOf(parts) == PayloadKeys && k < |PayloadKeys|
    ensures Get(parts, PayloadKeys[k]) == Some(parts[k].1)
  {
    forall j | 0 <= j < k ensures PayloadKeys[j] != PayloadKeys[k] {
      var a, b := PayloadKeys[j], PayloadKeys[k];
      assert |a| != |b| || a[0] != b[0];
    }
    LookupAt(parts, PayloadKeys, k);
  }

  /** `handleFormSubmit`'s request: the parts in the order of the `append` calls. */
  function UpdateRequest(data: AboutData, userId: int): (req: Request)
    ensures req.verb == POST && req.resource == "api/clients" && req.id == userId
    ensures req.body.FormData? && KeysOf(req.body.parts) == PayloadKeys
    ensures var parts := req.body.parts;
            && Get(parts, "first_name") == Some(TextPart(data.contact.first_name))
            && Get(parts, "last_name") == Some(TextPart(data.contact.last_name))
            && Get(parts, "email") == Some(TextPart(data.contact.email))
            && Get(parts, "phone") == Some(TextPart(data.contact.phone))
            && Get(parts, "country_code") == Some(TextPart(data.contact.country_code))
            && Get(parts, "company") == Some(TextPart(data.contact.company))
            && Get(parts, "position") == Some(TextPart(data.contact.position))
            && Get(parts, "profile_pic") == Some(PicturePart(data.profile_pic))
            && Get(parts, "_method") == Some(TextPart("PATCH"))
  {
    var parts: seq<(string, Part)> := [
      ("first_name", TextPart(data.contact.first_name)),
      ("last_name", TextPart(data.contact.last_name)),
      ("email", TextPart(data.contact.email)),
      ("phone", TextPart(data.contact.phone)),
      ("country_code", TextPart(data.contact.country_code)),
      ("company", TextPart(data.contact.company)),
      ("position", TextPart(data.contact.position)),
      ("profile_pic", PicturePart(data.profile_pic)),
      ("_method", TextPart("PATCH"))];
    PayloadLookup(parts);
    Request(POST, "api/clients", userId, FormData(parts))
  }

  /** The values when the section mounts: the registered text inputs hold their empty DOM
      value and the file input an empty `FileList`. `phone` and `country_code` have no
      registered input, only the PhoneInput's `setValue`, so they start unset. */
  const Mounted := AboutValues(PictureFileList,
    ContactValues(Some(""), Some(""), Some(""), None, None, Some(""), Some("")))

  /** Until the PhoneInput reports a change, both phone fields fail with zod's "Required". */
  lemma MountedPhonePairRequired(o: Oracles)
    ensures StringIssue(Mounted.contact.phone, PhoneChecks, o) == Some(Required)
    ensures StringIssue(Mounted.contact.country_code, CountryCodeChecks, o) == Some(Required)
    ensures ValidateAbout(Mounted, o).Invalid?
  {
  }

  class AboutClientForm {
    var values: AboutValues

    constructor ()
      ensures values == Mounted
    {
      values := Mounted;
    }

    /** `handleImageChange`: `profile_pic` is set only when a file was actually chosen. */
    method OnImageChange(files: Option<seq<FileInfo>>)
      modifies this
      ensures if files.Some? && |files.value| > 0
              then values == old(values).(profile_pic := PictureFile(files.value[0]))
              else values == old(values)
    {
      if files.Some? && |files.value| > 0 {
        values := values.(profile_pic := PictureFile(files.value[0]));
      }
    }

    /** The PhoneInput `onChange`, as in the add dialog. */
    method OnPhoneChange(value: string, dialCode: Option<string>)
      modifies this
      ensures var d := SplitPhone(value, dialCode);
              values == old(values).(contact := old(values).contact.(country_code := Some(d.countryCode), phone := Some(d.phone)))
    {
      var d := SplitPhone(value, dialCode);
      values := values.(contact := values.contact.(country_code := Some(d.countryCode), phone := Some(d.phone)));
    }
  
    /** `handleSubmit(handleFormSubmit)`: the request goes out only when the schema accepts
        the values; a thrown request ends in the form's own error toast. */
    method Submit(o: Oracles, userId: int, response: Response<()>) returns (req: Option<Request>, toast: Option<Toast>)
      ensures req.Some? <==> PictureAcceptable(values.profile_pic) && ContactAcceptable(values.contact, o)
      ensures req.Some? ==> req.value == UpdateRequest(ValidateAbout(values, o).data, userId)
      ensures req.None? ==> toast.None?
      ensures req.Some? ==> toast.Some? && (toast.value.title == "Success!" <==> response.Ok?)
      ensures req.Some? && response.NotOk? ==> toast.value.description == response.message
      ensures req.Some? && response.Failed? ==> toast.value.description == "Something Went wrong updating Client"
    {
      match ValidateAbout(values, o)
      case Invalid(_) =>
        req, toast := None, None;
      case Valid(data) =>
        req := Some(UpdateRequest(data, userId));
        toast := UpdateToast(response, "Client Updated successfully.", Some("Something Went wrong updating Client"));
    }
  }
}
