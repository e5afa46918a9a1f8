/** The "Demographic" section form: the country / state / city cascade over the id store, the
    list store and the form's name values, the language multi-select, and the schema. */
module DemoGraphicForm {
  import opened Wrappers
  import opened Text
  import opened Zod
  import opened Validation
  import opened Http
  import opened ClientAddressIds
  import opened DemoGraphicLists

  // ---------------------------------------------------------------- schema

  const CountryChecks := [MinLength(1, "Country is required")]
  const StateChecks := [MinLength(1, "State is required")]
  const CityChecks := [MinLength(1, "City is required")]
  const AddressChecks := [MinLength(1, "Address is required")]
  const PostalCodeChecks := [
    MinLength(1, "Postal code is required"),
    MaxLength(10, "Postal code cannot exceed 10 characters"),
    DigitsOnly("Postal code must contain only numbers")]
  const TimezoneChecks := [MinLength(1, "Timezone is required")]
  /** The empty-list message. The array's minimum length is one slot, so `.nonempty(…)`
      replaces the minimum and message that `.min(1, "At least one language is required")` set. */
  const NoLanguage := "Languages must be selected"

  /** The form's values; `None` is a field the form never set (or set to `undefined`). */
  datatype DemoValues = DemoValues(
    country: Option<string>, state: Option<string>, city: Option<string>,
    address: Option<string>, postal_code: Option<string>, timezone: Option<string>,
    language: Option<seq<string>>)

  datatype DemoData = DemoData(
    country: string, state: string, city: string, address: string,
    postal_code: string, timezone: string, language: seq<string>)

  /** The values when the section mounts: `address`, `postal_code` and the timezone select are
      registered and hold their empty DOM value (the select's first option is ""); the
      dropdown names and the language list are written only by handlers, so they are unset. */
  const Mounted := DemoValues(None, None, None, Some(""), Some(""), Some(""), None)

  /** `z.array(z.string()).min(1, …).nonempty(…)`: the language list's issue. Only the
      `.nonempty` message can appear, since it overrides the `.min(1, …)` one. */
  function LanguageIssue(v: Option<seq<string>>): (r: Option<string>)
    ensures r.None? <==> v.Some? && |v.value| >= 1
    ensures v.None? ==> r == Some(Required)
    ensures v == Some([]) ==> r == Some("Languages must be selected")
  {
    match v
    case None => Some(Required)
    case Some(xs) => if |xs| < 1 then Some(NoLanguage) else None
  }

  predicate NonEmpty(v: Option<string>) {
    v.Some? && |v.value| >= 1
  }

  /** Every rule of `editGeoFormSchema`, stated field by field. */
  predicate DemoAcceptable(v: DemoValues) {
    && NonEmpty(v.country) && NonEmpty(v.state) && NonEmpty(v.city) && NonEmpty(v.address)
    && v.postal_code.Some? && |v.postal_code.value| <= 10 && IsDigitString(v.postal_code.value)
    && NonEmpty(v.timezone)
    && v.language.Some? && |v.language.value| >= 1
  }

  function DemoEntries(v: DemoValues, o: Oracles): seq<(string, Option<string>)> {
    [
      ("country", StringIssue(v.country, CountryChecks, o)),
      ("state", StringIssue(v.state, StateChecks, o)),
      ("city", StringIssue(v.city, CityChecks, o)),
      ("address", StringIssue(v.address, AddressChecks, o)),
      ("postal_code", StringIssue(v.postal_code, PostalCodeChecks, o)),
      ("timezone", StringIssue(v.timezone, TimezoneChecks, o)),
      ("language", LanguageIssue(v.language))]
  }

  /** A postal code passes exactly when it is one to ten decimal digits. */
  lemma PostalCodeAcceptedIff(s: string, o: Oracles)
    ensures StringIssue(Some(s), PostalCodeChecks, o).None? <==> 1 <= |s| <= 10 && IsDigitString(s)
  {
    assert Holds(PostalCodeChecks[0], s, o) && Holds(PostalCodeChecks[1], s, o) && Holds(PostalCodeChecks[2], s, o)
       <==> 1 <= |s| <= 10 && IsDigitString(s);
  }

  /** A required-text rule passes exactly for a set, non-empty value. */
  lemma RequiredTextAcceptedIff(checks: seq<Check>, v: Option<string>, o: Oracles)
    requires checks in {CountryChecks, StateChecks, CityChecks, AddressChecks, TimezoneChecks}
    ensures StringIssue(v, checks, o).None? <==> NonEmpty(v)
  {
    if v.Some? {
      assert Holds(checks[0], v.value, o) <==> |v.value| >= 1;
    }
  }

  /** The schema reports no issue exactly when every field satisfies its rule. */
  lemma DemoIssuesEmptyIff(v: DemoValues, o: Oracles)
    ensures Collect(DemoEntries(v, o)) == [] <==> DemoAcceptable(v)
  {
    var e := DemoEntries(v, o);
    RequiredTextAcceptedIff(CountryChecks, v.country, o);
    RequiredTextAcceptedIff(StateChecks, v.state, o);
    RequiredTextAcceptedIff(CityChecks, v.city, o);
    RequiredTextAcceptedIff(AddressChecks, v.address, o);
    RequiredTextAcceptedIff(TimezoneChecks, v.timezone, o);
    if v.postal_code.Some? { PostalCodeAcceptedIff(v.postal_code.value, o); }
    assert (forall i :: 0 <= i < |e| ==> e[i].1.None?) <==>
      e[0].1.None? && e[1].1.None? && e[2].1.None? && e[3].1.None? && e[4].1.None? && e[5].1.None? && e[6].1.None?;
  }

  function ValidateDemo(v: DemoValues, o: Oracles): (r: Validated<DemoData>)
    ensures r.Valid? <==> DemoAcceptable(v)
    ensures r.Valid? ==> r.data == DemoData(v.country.value, v.state.value, v.city.value, v.address.value,
                                            v.postal_code.value, v.timezone.value, v.language.value)
    ensures r.Invalid? ==> r.issues != []
  {
    DemoIssuesEmptyIff(v, o);
    var issues := Collect(DemoEntries(v, o));
    if issues == [] then
      Valid(DemoData(v.country.value, v.state.value, v.city.value, v.address.value,
                     v.postal_code.value, v.timezone.value, v.language.value))
    else Invalid(issues)
  }

  const DemoKeys := ["country", "state", "city", "address", "postal_code", "timezone", "language"]

  lemma DemoKeyAt<V>(members: seq<(string, V)>, k: nat)
    requires KeysOf(members) == DemoKeys && k < |DemoKeys|
    ensures Get(members, DemoKeys[k]) == Some(members[k].1)
  {
    forall j | 0 <= j < k ensures DemoKeys[j] != DemoKeys[k] {
      var a, b := DemoKeys[j], DemoKeys[k];
      assert |a| != |b| || a[0] != b[0];
    }
    LookupAt(members, DemoKeys, k);
  }

  /** `onSubmit`'s request: `JSON.stringify(data)` PATCHed to `api/clientsDemographic/{id}`. */
  function DemoRequest(data: DemoData, userId: int): (req: Request)
    ensures req.verb == PATCH && req.resource == "api/clientsDemographic" && req.id == userId
    ensures req.body.JsonObject? && KeysOf(req.body.members) == DemoKeys
    ensures var m := req.body.members;
            && Get(m, "country") == Some(JString(data.country))
            && Get(m, "state") == Some(JString(data.state))
            && Get(m, "city") == Some(JString(data.city))
            && Get(m, "address") == Some(JString(data.address))
            && Get(m, "postal_code") == Some(JString(data.postal_code))
            && Get(m, "timezone") == Some(JString(data.timezone))
            && Get(m, "language") == Some(JStrings(data.language))
  {
    var m := [
      ("country", JString(data.country)),
      ("state", JString(data.state)),
      ("city", JString(data.city)),
      ("address", JString(data.address)),
      ("postal_code", JString(data.postal_code)),
      ("timezone", JString(data.timezone)),
      ("language", JStrings(data.language))];
    DemoKeyAt(m, 0); DemoKeyAt(m, 1); DemoKeyAt(m, 2); DemoKeyAt(m, 3);
    DemoKeyAt(m, 4); DemoKeyAt(m, 5); DemoKeyAt(m, 6);
    Request(PATCH, "api/clientsDemographic", userId, JsonObject(m))
  }

  // ---------------------------------------------------------------- language select

  /** A react-select option: what it shows and the value it stands for. */
  datatype LangOption = LangOption(text: string, value: string)

  /** The options offered: every language, its value the lower-cased name. */
  function Options(languages: seq<Language>): (r: seq<LangOption>)
    ensures |r| == |languages|
    ensures forall i :: 0 <= i < |r| ==> r[i] == LangOption(languages[i].name, Lower(languages[i].name))
  {
    if |languages| == 0 then []
    else [LangOption(languages[0].name, Lower(languages[0].name))] + Options(languages[1..])
  }

  function Values(options: seq<LangOption>): (r: seq<string>)
    ensures |r| == |options| && forall i :: 0 <= i < |r| ==> r[i] == options[i].value
  {
    if |options| == 0 then [] else [options[0].value] + Values(options[1..])
  }

  /** The select's `value`: the options of the languages whose lower-cased name the field holds. */
  function Shown(languages: seq<Language>, field: Option<seq<string>>): (r: seq<LangOption>)
    ensures |r| <= |languages|
    ensures forall x :: x in r ==> x in Options(languages) && field.Some? && x.value in field.value
    ensures forall i :: 0 <= i < |languages| && field.Some? && Lower(languages[i].name) in field.value ==>
              Options(languages)[i] in r
  {
    if |languages| == 0 then []
    else
      var rest := Shown(languages[1..], field);
      var l := languages[0];
      assert forall i :: 1 <= i < |languages| ==> Options(languages)[i] == Options(languages[1..])[i - 1];
      assert forall x :: x in Options(languages[1..]) ==> x in Options(languages) by {
        forall x | x in Options(languages[1..]) ensures x in Options(languages) {
          var i :| 0 <= i < |Options(languages[1..])| && Options(languages[1..])[i] == x;
          assert Options(languages)[i + 1] == x;
        }
      }
      assert Options(languages)[0] == LangOption(l.name, Lower(l.name));
      if field.Some? && Lower(l.name) in field.value then [LangOption(l.name, Lower(l.name))] + rest else rest
  }

  /** The shown options keep the language list's order: showing a concatenation shows each
      part's options, the first part's ahead of the second's. */
  lemma {:induction false} ShownConcat(a: seq<Language>, b: seq<Language>, field: Option<seq<string>>)
    ensures Shown(a + b, field) == Shown(a, field) + Shown(b, field)
    decreases |a|
  {
    if |a| > 0 {
      assert (a + b)[1..] == a[1..] + b;
      ShownConcat(a[1..], b, field);
    } else {
      assert a + b == b;
    }
  }

  /** A single language shows its option exactly when the field holds its lower-cased name. */
  lemma ShownSingle(l: Language, field: Option<seq<string>>)
    ensures Shown([l], field) == if field.Some? && Lower(l.name) in field.value then [LangOption(l.name, Lower(l.name))] else []
  {
    assert [l][1..] == [];
  }

  /** The select's `onChange`: the chosen options' values; a cleared select (`null`) gives []. */
  function OnLanguagesChosen(selected: Option<seq<LangOption>>): (r: seq<string>)
    ensures selected.None? ==> r == []
    ensures selected.Some? ==> r == Values(selected.value)
  {
    Values(selected.GetOr([]))
  }

  /** Every option value is the lower-cased form of its label, and lower-casing it again changes nothing. */
  lemma OptionValuesLowerCase(languages: seq<Language>)
    ensures forall x :: x in Options(languages) ==> x.value == Lower(x.text) && Lower(x.value) == x.value
  {
    forall x | x in Options(languages) ensures x.value == Lower(x.text) && Lower(x.value) == x.value {
      LowerIdempotent(x.text);
    }
  }

  /** Choosing every option makes the select show every option again, in list order. */
  lemma {:induction false} ChooseAllShowsAll(languages: seq<Language>, all: seq<Language>)
    requires forall i :: 0 <= i < |languages| ==> Lower(languages[i].name) in Values(Options(all))
    ensures Shown(languages, Some(OnLanguagesChosen(Some(Options(all))))) == Options(languages)
  {
    if |languages| > 0 {
      ChooseAllShowsAll(languages[1..], all);
      assert Options(languages) == [LangOption(languages[0].name, Lower(languages[0].name))] + Options(languages[1..]);
    }
  }

  /** The premise of `ChooseAllShowsAll` holds for the full list. */
  lemma EveryLanguageOffered(languages: seq<Language>)
    ensures forall i :: 0 <= i < |languages| ==> Lower(languages[i].name) in Values(Options(languages))
  {
    forall i | 0 <= i < |languages| ensures Lower(languages[i].name) in Values(Options(languages)) {
      assert Values(Options(languages))[i] == Lower(languages[i].name);
    }
  }

  /** Clearing the select shows nothing. */
  lemma ClearShowsNothing(languages: seq<Language>)
    ensures Shown(languages, Some(OnLanguagesChosen(None))) == []
  {
    if |languages| > 0 {
      ClearShowsNothing(languages[1..]);
    }
  }

  // ---------------------------------------------------------------- cascade

  /** `list.find(x => x.id === id)`: the first entry with that id. */
  function FindById(xs: seq<GeoEntry>, id: int): (r: Option<GeoEntry>)
    ensures r.None? <==> forall i :: 0 <= i < |xs| ==> xs[i].id != id
    ensures r.Some? ==> exists i :: 0 <= i < |xs| && xs[i] == r.value && r.value.id == id &&
                                    forall j :: 0 <= j < i ==> xs[j].id != id
  {
    if |xs| == 0 then None
    else if xs[0].id == id then Some(xs[0])
    else
      var r := FindById(xs[1..], id);
      assert forall i :: 1 <= i < |xs| ==> xs[i] == xs[1..][i - 1];
      r
  }

  /** The reference-data request a handler starts. */
  datatype Fetch = NoFetch | FetchStates(countryId: int) | FetchCities(countryId: int, stateId: int)

  /** What the cascade reacts to: a dropdown choice (the option's value through `Number`,
      so the placeholder is 0) or the arrival of a reference list. */
  datatype GeoEvent =
    | CountriesArrived(countries: seq<GeoEntry>)
    | LanguagesArrived(languages: seq<Language>)
    | CountryChosen(value: int)
    | StatesArrived(states: seq<GeoEntry>)
    | StateChosen(value: int)
    | CitiesArrived(cities: seq<GeoEntry>)
    | CityChosen(value: int)

  /** The cascade's whole state: the id store, the list store and the form's values. */
  datatype GeoState = GeoState(
    countryId: Option<int>, stateId: Option<int>, cityId: Option<int>,
    countries: seq<GeoEntry>, states: seq<GeoEntry>, cities: seq<GeoEntry>, languages: seq<Language>,
    values: DemoValues)

  const Initial := GeoState(None, None, None, [], [], [], [], Mounted)

  /** One event: the new state and the request it starts. */
  function Step(s: GeoState, e: GeoEvent): (GeoState, Fetch) {
    match e
    case CountriesArrived(xs) => (s.(countries := xs), NoFetch)
    case LanguagesArrived(ls) => (s.(languages := ls), NoFetch)
    case CountryChosen(v) =>
      var found := FindById(s.countries, v);
      if found.None? then (s, NoFetch)
      else
        var c := found.value;
        (s.(countryId := Some(c.id), values := s.values.(country := Some(c.name))), FetchStates(c.id))
    case StatesArrived(xs) => (s.(states := xs, stateId := None, cities := []), NoFetch)
    case StateChosen(v) =>
      var found := FindById(s.states, v);
      var id := if found.Some? then Some(found.value.id) else None;
      var name := if found.Some? then Some(found.value.name) else None;
      var t := s.(stateId := id, values := s.values.(state := name));
      if Truthy(s.countryId) && Truthy(id) then (t, FetchCities(s.countryId.value, id.value)) else (t, NoFetch)
    case CitiesArrived(xs) => (s.(cities := xs), NoFetch)
    case CityChosen(v) =>
      var found := FindById(s.cities, v);
      if found.None? then (s, NoFetch)
      else
        var c := found.value;
        (s.(cityId := Some(c.id), values := s.values.(city := Some(c.name))), NoFetch)
  }

  function Run(s: GeoState, es: seq<GeoEvent>): GeoState
    decreases |es|
  {
    if |es| == 0 then s else Run(Step(s, es[0]).0, es[1..])
  }

  predicate StateDisabled(s: GeoState) { |s.states| == 0 }
  predicate CityDisabled(s: GeoState) { |s.cities| == 0 }

  /** The id names an entry of the list, and the form holds that entry's name. */
  predicate Names(xs: seq<GeoEntry>, id: Option<int>, name: Option<string>) {
    id.Some? ==> exists i :: 0 <= i < |xs| && xs[i].id == id.value && name == Some(xs[i].name)
  }

  /** Choosing a country: with an entry of that id, the id and the form's `country` take the
      first such entry and its states are requested; otherwise nothing happens. */
  lemma CountryChosenEffect(s: GeoState, v: int)
    ensures var (t, f) := Step(s, CountryChosen(v));
            if exists i :: 0 <= i < |s.countries| && s.countries[i].id == v then
              t.countryId == Some(v) && f == FetchStates(v) &&
              Names(s.countries, t.countryId, t.values.country) &&
              t.stateId == s.stateId && t.cityId == s.cityId && t.states == s.states && t.cities == s.cities
            else t == s && f == NoFetch
  {
  }

  /** A state list arriving replaces the states, clears the state id and empties the cities,
      which disables the city dropdown; the city id and the form's state and city stay. */
  lemma StatesArrivedEffect(s: GeoState, xs: seq<GeoEntry>)
    ensures var t := Step(s, StatesArrived(xs)).0;
            t.states == xs && t.stateId == None && t.cities == [] && CityDisabled(t) &&
            (StateDisabled(t) <==> xs == []) &&
            t.cityId == s.cityId && t.values == s.values && t.countryId == s.countryId
  {
  }

  /** Choosing a state always writes the state id and name (both unset when no entry matches);
      cities are requested exactly when the country id and the found id are both truthy. */
  lemma StateChosenEffect(s: GeoState, v: int)
    ensures var (t, f) := Step(s, StateChosen(v));
            (t.stateId.Some? <==> exists i :: 0 <= i < |s.states| && s.states[i].id == v) &&
            (t.stateId.Some? ==> t.stateId == Some(v)) &&
            (t.stateId.None? ==> t.values.state.None?) &&
            Names(s.states, t.stateId, t.values.state) &&
            (f != NoFetch <==> Truthy(s.countryId) && v != 0 && t.stateId.Some?) &&
            (f != NoFetch ==> f == FetchCities(s.countryId.value, v)) &&
            t.cityId == s.cityId && t.cities == s.cities && t.countryId == s.countryId
  {
  }

  /** Choosing a city changes the city id and name only when an entry matches. */
  lemma CityChosenEffect(s: GeoState, v: int)
    ensures var (t, f) := Step(s, CityChosen(v));
            f == NoFetch &&
            if exists i :: 0 <= i < |s.cities| && s.cities[i].id == v then
              t.cityId == Some(v) && Names(s.cities, t.cityId, t.values.city) &&
              t.stateId == s.stateId && t.countryId == s.countryId
            else t == s
  {
  }

  /** The state id always names an entry of the current state list, whose name the form holds. */
  predicate StateConsistent(s: GeoState) {
    Names(s.states, s.stateId, s.values.state)
  }

  lemma StepKeepsStateConsistent(s: GeoState, e: GeoEvent)
    requires StateConsistent(s)
    ensures StateConsistent(Step(s, e).0)
  {
    var t := Step(s, e).0;
    match e
    case StateChosen(v) =>
      StateChosenEffect(s, v);
    case CountryChosen(v) =>
      if t != s {
        assert t.states == s.states && t.stateId == s.stateId && t.values.state == s.values.state;
      }
    case CityChosen(v) =>
      if t != s {
        assert t.states == s.states && t.stateId == s.stateId && t.values.state == s.values.state;
      }
    case _ =>
  }

  /** Whatever the events and their order, the state id never outlives its state list. */
  lemma {:induction false} RunKeepsStateConsistent(s: GeoState, es: seq<GeoEvent>)
    requires StateConsistent(s)
    ensures StateConsistent(Run(s, es))
    decreases |es|
  {
    if |es| > 0 {
      StepKeepsStateConsistent(s, es[0]);
      RunKeepsStateConsistent(Step(s, es[0]).0, es[1..]);
    }
  }

  lemma InitialStateConsistent()
    ensures StateConsistent(Initial) && StateDisabled(Initial) && CityDisabled(Initial)
  {
  }

  /** The city id is not cleared with the cities: after a new state list arrives it names
      no entry of the (now empty) city list. */
  lemma StatesArrivedLeavesStaleCity(s: GeoState, xs: seq<GeoEntry>)
    requires s.cityId.Some?
    ensures var t := Step(s, StatesArrived(xs)).0;
            t.cityId == s.cityId && !Names(t.cities, t.cityId, t.values.city)
  {
  }

  // ---------------------------------------------------------------- the form object

  class DemoGraphicSection {
    var values: DemoValues

    constructor ()
      ensures values == Mounted
    {
      values := Mounted;
    }

    /** The cascade state spread over the two stores and this form. */
    function Snapshot(ids: ClientAddressIdStore, lists: DemoGraphicStore): GeoState
      reads this, ids, lists
    {
      GeoState(ids.selectedCountryId, ids.selectedStateId, ids.selectedCityId,
               lists.countries, lists.states, lists.cities, lists.languages, values)
    }

    /** The mount effect's `GetCountries().then(setCountries)`. */
    method OnCountriesArrived(ids: ClientAddressIdStore, lists: DemoGraphicStore, xs: seq<GeoEntry>)
      modifies lists
      ensures Snapshot(ids, lists) == Step(old(Snapshot(ids, lists)), CountriesArrived(xs)).0
    {
      lists.SetCountries(xs);
    }

    /** The mount effect's `GetLanguages().then(setLanguages)`. */
    method OnLanguagesArrived(ids: ClientAddressIdStore, lists: DemoGraphicStore, ls: seq<Language>)
      modifies lists
      ensures Snapshot(ids, lists) == Step(old(Snapshot(ids, lists)), LanguagesArrived(ls)).0
    {
      lists.SetLanguages(ls);
    }

    /** The country select's `onChange`. */
    method OnCountryChange(ids: ClientAddressIdStore, lists: DemoGraphicStore, v: int) returns (fetch: Fetch)
      modifies this, ids
      ensures (Snapshot(ids, lists), fetch) == Step(old(Snapshot(ids, lists)), CountryChosen(v))
    {
      var selected := FindById(lists.countries, v);
      fetch := NoFetch;
      if selected.Some? {
        ids.SetSelectedCountryId(Some(selected.value.id));
        values := values.(country := Some(selected.value.name));
        fetch := FetchStates(selected.value.id);
      }
    }

    /** The `GetState(…).then(…)` continuation of a country choice. */
    method OnStatesArrived(ids: ClientAddressIdStore, lists: DemoGraphicStore, xs: seq<GeoEntry>)
      modifies ids, lists
      ensures Snapshot(ids, lists) == Step(old(Snapshot(ids, lists)), StatesArrived(xs)).0
    {
      lists.SetStates(xs);
      ids.SetSelectedStateId(None);
      lists.SetCities([]);
    }

    /** The state select's `onChange`. */
    method OnStateChange(ids: ClientAddressIdStore, lists: DemoGraphicStore, v: int) returns (fetch: Fetch)
      modifies this, ids
      ensures (Snapshot(ids, lists), fetch) == Step(old(Snapshot(ids, lists)), StateChosen(v))
    {
      var selected := FindById(lists.states, v);
      ids.SetSelectedStateId(if selected.Some? then Some(selected.value.id) else None);
      values := values.(state := if selected.Some? then Some(selected.value.name) else None);
      fetch := NoFetch;
      if Truthy(ids.selectedCountryId) && selected.Some? && selected.value.id != 0 {
        fetch := FetchCities(ids.selectedCountryId.value, selected.value.id);
      }
    }

    /** The `GetCity(…).then(setCities)` continuation of a state choice. */
    method OnCitiesArrived(ids: ClientAddressIdStore, lists: DemoGraphicStore, xs: seq<GeoEntry>)
      modifies lists
      ensures Snapshot(ids, lists) == Step(old(Snapshot(ids, lists)), CitiesArrived(xs)).0
    {
      lists.SetCities(xs);
    }

    /** The city select's `onChange`. */
    method OnCityChange(ids: ClientAddressIdStore, lists: DemoGraphicStore, v: int)
      modifies this, ids
      ensures Snapshot(ids, lists) == Step(old(Snapshot(ids, lists)), CityChosen(v)).0
    {
      var selected := FindById(lists.cities, v);
      if selected.Some? {
        ids.SetSelectedCityId(Some(selected.value.id));
        values := values.(city := Some(selected.value.name));
      }
    }

    /** The language Controller's `field.onChange`. */
    method OnLanguageChange(selected: Option<seq<LangOption>>)
      modifies this
      ensures values == old(values).(language := Some(OnLanguagesChosen(selected)))
    {
      values := values.(language := Some(OnLanguagesChosen(selected)));
    }

    /** `handleSubmit(onSubmit)`: the request goes out only when the schema accepts the values;
        an ok response raises the success toast and refreshes the route; a thrown request is
        only logged. */
    method Submit(o: Oracles, userId: int, response: Response<()>)
      returns (req: Option<Request>, toast: Option<Toast>, refresh: bool)
      ensures req.Some? <==> DemoAcceptable(values)
      ensures req.Some? ==> req.value == DemoRequest(ValidateDemo(values, o).data, userId)
      ensures toast.Some? <==> req.Some? && !response.Failed?
      ensures toast.Some? ==> (toast.value.title == "Success!" <==> response.Ok?)
      ensures toast.Some? && response.NotOk? ==> toast.value.description == response.message
      ensures refresh <==> req.Some? && response.Ok?
    {
      match ValidateDemo(values, o)
      case Invalid(_) =>
        req, toast, refresh := None, None, false;
      case Valid(data) =>
        req := Some(DemoRequest(data, userId));
        toast := UpdateToast(response, "Client Updated successfully.", None);
        refresh := response.Ok?;
    }
  }
}
