/** The read-only details view of the selected client: each line shows the loaded value or a
    fallback, and the close icon deselects the client. */
module ClientDetailsView {
  import opened Wrappers
  import opened Text
  import opened ClientModel
  import opened ClientDetailsState
  import Panel
  import ActiveComponent

  const NA := "N/A"

  /** The description shown when the client has none. */
  const FinestClient := "This is one of our finest clients. We have been working with them for more than 4+ years."

  /** A string value is truthy when it is present and not empty. */
  predicate Present(v: Option<string>) {
    v.Some? && v.value != ""
  }

  /** `value || "N/A"`: the value when truthy, the fallback otherwise, never a blank line. */
  function OrNA(v: Option<string>): (r: string)
    ensures Present(v) ==> r == v.value
    ensures !Present(v) ==> r == NA
    ensures r != ""
  {
    if Present(v) then v.value else NA
  }

  /** The State/City line: both parts joined by ", " when both are truthy, otherwise "N/A". */
  function StateCity(state: Option<string>, city: Option<string>): string {
    if Present(state) && Present(city) then state.value + ", " + city.value else NA
  }

  /** The State/City line is the fallback exactly when a part is missing or empty, and
      otherwise it is the two-element join. */
  lemma StateCityIff(state: Option<string>, city: Option<string>)
    ensures StateCity(state, city) == NA <==> !(Present(state) && Present(city))
    ensures Present(state) && Present(city) ==>
              StateCity(state, city) == Join([state.value, city.value], ", ")
  {
    if Present(state) && Present(city) {
      var line := state.value + ", " + city.value;
      assert |line| >= 4;
      assert Join([state.value, city.value], ", ") == state.value + ", " + Join([city.value], ", ");
    }
  }

  /** The Languages line: the stored JSON array's elements joined by ", " when the stored
      string is truthy. `decoded` is what `JSON.parse` yields for it. */
  function Languages(raw: Option<string>, decoded: seq<string>): (r: string)
    ensures !Present(raw) ==> r == NA
    ensures Present(raw) ==> r == Join(decoded, ", ")
  {
    if Present(raw) then Join(decoded, ", ") else NA
  }

  /** The joined length: every element plus one separator between neighbours. */
  function TotalLength(xs: seq<string>): nat {
    if |xs| == 0 then 0 else |xs[0]| + TotalLength(xs[1..])
  }

  lemma {:induction false} JoinLength(xs: seq<string>, sep: string)
    requires |xs| >= 1
    ensures |Join(xs, sep)| == TotalLength(xs) + (|xs| - 1) * |sep|
    decreases |xs|
  {
    if |xs| > 1 {
      JoinLength(xs[1..], sep);
    }
  }

  /** A stored `"[]"` shows a blank Languages line rather than "N/A", and a single language
      shows as itself. */
  lemma LanguagesEdgeCases(raw: string, one: string)
    requires raw != ""
    ensures Languages(Some(raw), []) == ""
    ensures Languages(Some(raw), [one]) == one
  {
  }

  /** Two or more non-empty languages never collapse to the fallback. */
  lemma SeveralLanguagesNotNA(raw: string, decoded: seq<string>)
    requires raw != "" && |decoded| >= 2
    requires forall i :: 0 <= i < |decoded| ==> decoded[i] != ""
    ensures |Languages(Some(raw), decoded)| >= |decoded| + (|decoded| - 1) * 2
    ensures Languages(Some(raw), decoded) != NA
  {
    JoinLength(decoded, ", ");
    TotalAtLeast(decoded);
  }

  lemma {:induction false} TotalAtLeast(xs: seq<string>)
    requires forall i :: 0 <= i < |xs| ==> xs[i] != ""
    ensures TotalLength(xs) >= |xs|
    decreases |xs|
  {
    if |xs| > 0 {
      TotalAtLeast(xs[1..]);
    }
  }

  /** The rendered view: `picture` is the image source, `None` for the grey placeholder. */
  datatype DetailsView = DetailsView(
    picture: Option<string>,
    name: string, email: string, phone: string, company: string, position: string,
    timezone: string, country: string, stateCity: string, address: string, languages: string,
    description: string, reference: string)

  /** Every line read through `clientDetails?.…`, so a missing result shows the fallbacks. */
  function View(c: Option<Client>, decoded: seq<string>): (v: DetailsView)
    ensures v.picture.Some? <==> c.Some? && Present(c.value.profile_pic)
    ensures v.picture.Some? ==> v.picture == c.value.profile_pic
    ensures v.description != "" && v.reference != "" && v.name != ""
  {
    match c
    case None =>
      DetailsView(None, NA, NA, NA, NA, NA, NA, NA, NA, NA, NA, FinestClient, NA)
    case Some(d) =>
      DetailsView(
        if Present(d.profile_pic) then d.profile_pic else None,
        OrNA(Some(d.name)), OrNA(Some(d.email)), OrNA(Some(d.phone)),
        OrNA(Some(d.company)), OrNA(Some(d.position)),
        OrNA(d.timezone), OrNA(Some(d.country)), StateCity(d.state, d.city),
        OrNA(d.address), Languages(d.language, decoded),
        if Present(d.details) then d.details.value else FinestClient,
        OrNA(d.reference))
  }

  /** With no details loaded every line shows its fallback: "N/A", or the stock description. */
  lemma NoClientShowsFallbacks(decoded: seq<string>)
    ensures var v := View(None, decoded);
            v.picture.None? && v.description == FinestClient &&
            v.name == NA && v.email == NA && v.phone == NA && v.company == NA &&
            v.position == NA && v.timezone == NA && v.country == NA && v.stateCity == NA &&
            v.address == NA && v.languages == NA && v.reference == NA
  {
  }

  /** A loaded client's truthy values are shown as they are and its empty or missing ones as
      "N/A"; the description falls back to the stock sentence exactly when the client has none. */
  lemma LoadedClientShowsValues(d: Client, decoded: seq<string>)
    ensures var v := View(Some(d), decoded);
            v.name == (if d.name != "" then d.name else NA) &&
            v.email == (if d.email != "" then d.email else NA) &&
            v.phone == (if d.phone != "" then d.phone else NA) &&
            v.company == (if d.company != "" then d.company else NA) &&
            v.position == (if d.position != "" then d.position else NA) &&
            v.country == (if d.country != "" then d.country else NA)
    ensures var v := View(Some(d), decoded);
            (Present(d.timezone) ==> v.timezone == d.timezone.value) && (!Present(d.timezone) ==> v.timezone == NA) &&
            (Present(d.address) ==> v.address == d.address.value) && (!Present(d.address) ==> v.address == NA) &&
            (Present(d.reference) ==> v.reference == d.reference.value) && (!Present(d.reference) ==> v.reference == NA)
    ensures var v := View(Some(d), decoded);
            (Present(d.details) ==> v.description == d.details.value) &&
            (!Present(d.details) ==> v.description == FinestClient)
    ensures var v := View(Some(d), decoded);
            v.stateCity == StateCity(d.state, d.city) && v.languages == Languages(d.language, decoded)
  {
  }

  /** `handleClose`: only the selected id is cleared; the loaded details stay in the store. */
  method HandleClose(details: ClientDetailsStore)
    modifies details
    ensures details.selectedClientId == None
    ensures details.clientDetailsResult == old(details.clientDetailsResult)
  {
    details.SetSelectedClientId(None);
  }

  /** After closing, the clients area shows the table again, whatever the edit flag. */
  lemma CloseShowsTable(showEdit: bool)
    ensures var p := Panel.RenderPanel(ActiveComponent.Clients, None, showEdit);
            p.table && !p.details && !p.edit
  {
  }
}
