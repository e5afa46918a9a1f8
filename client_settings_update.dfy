/** The "Settings" section form: the portal-access switch, the password field shared with the
    password store, the 8-character password generator, and the schema. The password store's
    own file is not part of this model; it is taken to hold one string. */
module ClientSettingsUpdate {
  import opened Wrappers
  import opened Zod
  import opened Validation
  import opened Http

  const TooShort := "Password must be at least 2 characters"

  /** What zod may be handed for `password`: `undefined`, `null` or a string. */
  datatype PasswordValue = PasswordUndefined | PasswordNull | PasswordText(text: string)

  /** How one field's schema ends: it passes, fails with its first message, or throws. */
  datatype FieldOutcome = Passes | Fails(message: string) | Throws

  /** `z.string().min(2, …).max(50).optional().nullable().refine(v => v === null || v!.length >= 2, …)`:
      the refine reads `.length` of `undefined`, which throws. */
  function PasswordOutcome(p: PasswordValue): (r: FieldOutcome)
    ensures r == Passes <==> p.PasswordNull? || (p.PasswordText? && 2 <= |p.text| <= 50)
    ensures r == Throws <==> p.PasswordUndefined?
    ensures r.Fails? && p.PasswordText? && |p.text| < 2 ==> r.message == TooShort
  {
    match p
    case PasswordUndefined => Throws
    case PasswordNull => Passes
    case PasswordText(s) =>
      if |s| < 2 then Fails(TooShort)
      else if |s| > 50 then Fails(AtMostFifty)
      else Passes
  }

  /** `z.boolean()`: an unset switch fails with "Required". */
  function PortalOutcome(b: Option<bool>): (r: FieldOutcome)
    ensures r == Passes <==> b.Some?
    ensures r != Throws
  {
    if b.None? then Fails(Required) else Passes
  }

  datatype SettingsValues = SettingsValues(can_access_portal: Option<bool>, password: PasswordValue)

  /** The parsed data: `password` is `None` for `null`. */
  datatype SettingsData = SettingsData(can_access_portal: bool, password: Option<string>)

  /** The schema on the form's values: the data, the error object, or a thrown error (which
      rejects `handleSubmit` before the submit handler runs). */
  datatype SettingsOutcome = SettingsValid(data: SettingsData) | SettingsInvalid(issues: seq<FieldIssue>) | SettingsThrew

  predicate SettingsAcceptable(v: SettingsValues) {
    v.can_access_portal.Some? &&
    (v.password.PasswordNull? || (v.password.PasswordText? && 2 <= |v.password.text| <= 50))
  }

  function ValidateSettings(v: SettingsValues): (r: SettingsOutcome)
    ensures r.SettingsThrew? <==> v.password.PasswordUndefined?
    ensures r.SettingsValid? <==> SettingsAcceptable(v)
    ensures r.SettingsValid? ==> r.data.can_access_portal == v.can_access_portal.value &&
                                 r.data.password == (if v.password.PasswordNull? then None else Some(v.password.text))
    ensures r.SettingsInvalid? ==> r.issues != []
  {
    var portal := PortalOutcome(v.can_access_portal);
    var password := PasswordOutcome(v.password);
    if password == Throws then SettingsThrew
    else
      var e := [("can_access_portal", if portal.Fails? then Some(portal.message) else None),
                ("password", if password.Fails? then Some(password.message) else None)];
      assert (forall i :: 0 <= i < |e| ==> e[i].1.None?) <==> e[0].1.None? && e[1].1.None?;
      var issues := Collect(e);
      if issues == [] then
        SettingsValid(SettingsData(v.can_access_portal.value,
                                   if v.password.PasswordNull? then None else Some(v.password.text)))
      else SettingsInvalid(issues)
  }

  /** `onSubmit`'s request: `JSON.stringify(data)`, a `null` password sent as `null`. */
  function SettingsRequest(data: SettingsData, userId: int): (req: Request)
    ensures req.verb == PATCH && req.resource == "api/clients/updateSettings" && req.id == userId
    ensures req.body.JsonObject? && KeysOf(req.body.members) == ["can_access_portal", "password"]
    ensures Get(req.body.members, "can_access_portal") == Some(JBool(data.can_access_portal))
    ensures Get(req.body.members, "password") ==
            Some(if data.password.Some? then JString(data.password.value) else JNull)
  {
    var keys := ["can_access_portal", "password"];
    var m := [("can_access_portal", JBool(data.can_access_portal)),
              ("password", if data.password.Some? then JString(data.password.value) else JNull)];
    LookupAt(m, keys, 0);
    assert keys[0] != keys[1] by { assert |keys[0]| != |keys[1]|; }
    LookupAt(m, keys, 1);
    Request(PATCH, "api/clients/updateSettings", userId, JsonObject(m))
  }

  // ---------------------------------------------------------------- generator

  const UpperCase := "ABCDEFGHIJKLMNOPQRSTUVWXYZ"
  const LowerCase := "abcdefghijklmnopqrstuvwxyz"
  const DigitChars := "0123456789"
  /** `chars`: the 62-character string of the generator, in its order. */
  const Alphabet := UpperCase + LowerCase + DigitChars
  const PasswordLength := 8

  predicate IsAsciiAlnum(c: char) {
    'A' <= c <= 'Z' || 'a' <= c <= 'z' || '0' <= c <= '9'
  }

  /** The alphabet letter by letter: upper case, lower case, then digits. */
  function AlphabetAt(i: nat): char
    requires i < 62
  {
    if i < 26 then ('A' as int + i) as char
    else if i < 52 then ('a' as int + (i - 26)) as char
    else ('0' as int + (i - 52)) as char
  }

  lemma AlphabetLayout()
    ensures |Alphabet| == 62
    ensures forall i: nat :: i < 62 ==> Alphabet[i] == AlphabetAt(i)
  {
  }

  /** The alphabet holds exactly the 62 ASCII letters and digits, each once. */
  lemma AlphabetIsAsciiAlnum()
    ensures |Alphabet| == 62
    ensures forall i :: 0 <= i < |Alphabet| ==> IsAsciiAlnum(Alphabet[i])
    ensures forall c :: IsAsciiAlnum(c) ==> c in Alphabet
    ensures forall i, j :: 0 <= i < j < |Alphabet| ==> Alphabet[i] != Alphabet[j]
  {
    AlphabetLayout();
    forall c | IsAsciiAlnum(c) ensures c in Alphabet {
      var i: nat := if 'A' <= c <= 'Z' then c as int - 'A' as int
                    else if 'a' <= c <= 'z' then c as int - 'a' as int + 26
                    else c as int - '0' as int + 52;
      assert Alphabet[i] == c;
    }
  }

  /** `Math.floor(r * chars.length)`. */
  function DrawIndex(r: real): (k: int)
    requires 0.0 <= r < 1.0
    ensures 0 <= k < |Alphabet|
  {
    AlphabetLayout();
    (r * 62.0).Floor
  }

  /** Every letter can be drawn: the draw `k / 62` picks the `k`-th letter. */
  lemma EveryLetterReachable(k: nat)
    requires k < 62
    ensures 0.0 <= k as real / 62.0 < 1.0 && DrawIndex(k as real / 62.0) == k
  {
    assert (k as real / 62.0) * 62.0 == k as real;
  }

  predicate ValidDraws(draws: seq<real>) {
    |draws| == PasswordLength && forall i :: 0 <= i < |draws| ==> 0.0 <= draws[i] < 1.0
  }

  /** The password a sequence of eight random draws makes. */
  function PasswordFrom(draws: seq<real>): string
    requires ValidDraws(draws)
  {
    seq(PasswordLength, i requires 0 <= i < PasswordLength => Alphabet[DrawIndex(draws[i])])
  }

  /** A generated password is 8 ASCII letters or digits. */
  lemma GeneratedShape(draws: seq<real>)
    requires ValidDraws(draws)
    ensures |PasswordFrom(draws)| == 8
    ensures forall i :: 0 <= i < 8 ==> IsAsciiAlnum(PasswordFrom(draws)[i])
    ensures PasswordOutcome(PasswordText(PasswordFrom(draws))) == Passes
  {
    AlphabetIsAsciiAlnum();
  }

  /** `Array.from({length: 8}, () => chars[Math.floor(Math.random() * chars.length)]).join("")`,
      the random numbers given as `draws`. */
  method DrawPassword(draws: seq<real>) returns (pw: string)
    requires ValidDraws(draws)
    ensures pw == PasswordFrom(draws)
  {
    pw := "";
    var i := 0;
    while i < PasswordLength
      invariant 0 <= i <= PasswordLength
      invariant |pw| == i
      invariant forall j :: 0 <= j < i ==> pw[j] == Alphabet[DrawIndex(draws[j])]
    {
      pw := pw + [Alphabet[DrawIndex(draws[i])]];
      i := i + 1;
    }
  }

  // ---------------------------------------------------------------- state

  /** The password store: one string, shared by the input's display and the generator. */
  class PasswordStore {
    var password: string

    constructor (initial: string)
      ensures password == initial
    {
      password := initial;
    }

    method SetPassword(p: string)
      modifies this
      ensures password == p
    {
      password := p;
    }
  }

  class SettingsSectionForm {
    var values: SettingsValues

    /** At mount the switch is unset and the registered input's DOM value is the store's password. */
    constructor (store: PasswordStore)
      ensures values == SettingsValues(None, PasswordText(store.password))
    {
      values := SettingsValues(None, PasswordText(store.password));
    }

    /** The Switch's `onCheckedChange`. */
    method OnCheckedChange(checked: bool)
      modifies this
      ensures values == old(values).(can_access_portal := Some(checked))
    {
      values := values.(can_access_portal := Some(checked));
    }

    /** `generatePassword`: the store and the form's `password` receive the same new password. */
    method GeneratePassword(store: PasswordStore, draws: seq<real>)
      requires ValidDraws(draws)
      modifies this, store
      ensures store.password == PasswordFrom(draws)
      ensures values == old(values).(password := PasswordText(store.password))
    {
      var pw := DrawPassword(draws);
      store.SetPassword(pw);
      values := values.(password := PasswordText(pw));
    }

    /** Typing in the password input: its own `onChange` replaces the one from `register`, so
        only the store (and what the input displays) changes; the form's value does not until
        the input loses focus. */
    method OnPasswordInput(store: PasswordStore, typed: string)
      modifies store
      ensures store.password == typed
      ensures values == old(values)
    {
      store.SetPassword(typed);
    }

    /** The password input losing focus: the `onBlur` from `register` is not overridden, and it
        writes the input's displayed value, the store's password, into the form. */
    method OnPasswordBlur(store: PasswordStore)
      modifies this
      ensures values == old(values).(password := PasswordText(store.password))
    {
      values := values.(password := PasswordText(store.password));
    }

    /** Typing a password and leaving the input submits the typed password when it is valid. */
    method TypeThenBlur(store: PasswordStore, typed: string)
      modifies this, store
      ensures store.password == typed
      ensures values == old(values).(password := PasswordText(typed))
    {
      OnPasswordInput(store, typed);
      OnPasswordBlur(store);
    }

    /** `handleSubmit(handleFormSubmit)`: nothing is sent unless the schema accepts the values
        (a throwing schema included); then the toast reports the response. */
    method Submit(userId: int, response: Response<()>) returns (req: Option<Request>, toast: Option<Toast>)
      ensures req.Some? <==> SettingsAcceptable(values)
      ensures req.Some? ==> req.value == SettingsRequest(ValidateSettings(values).data, userId)
      ensures req.None? ==> toast.None?
      ensures req.Some? ==> toast.Some? && (toast.value.title == "Success!" <==> response.Ok?)
      ensures req.Some? && response.NotOk? ==> toast.value.description == response.message
      ensures req.Some? && response.Failed? ==> toast.value.description == "There was an error updating the settings."
    {
      match ValidateSettings(values)
      case SettingsValid(data) =>
        req := Some(SettingsRequest(data, userId));
        toast := UpdateToast(response, "Settings updated successfully.", Some("There was an error updating the settings."));
      case _ =>
        req, toast := None, None;
    }
  }
}
