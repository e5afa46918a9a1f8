/** The reference lists behind the demographic dropdowns (`useDemoGraphicStore`).
    The store declares `string[]`, but what the form puts there and reads back are
    `{id, name}` entries (and `{name}` for languages); the model uses those shapes. */
module DemoGraphicLists {

  datatype GeoEntry = GeoEntry(id: int, name: string)
  datatype Language = Language(name: string)

  class DemoGraphicStore {
    var countries: seq<GeoEntry>
    var states: seq<GeoEntry>
    var cities: seq<GeoEntry>
    var languages: seq<Language>

    constructor ()
      ensures countries == [] && states == [] && cities == [] && languages == []
    {
      countries, states, cities, languages := [], [], [], [];
    }

    /** Each setter replaces its list wholesale and leaves the other three alone. */
    method SetCountries(xs: seq<GeoEntry>)
      modifies this
      ensures countries == xs
      ensures states == old(states) && cities == old(cities) && languages == old(languages)
    {
      countries := xs;
    }

    method SetStates(xs: seq<GeoEntry>)
      modifies this
      ensures states == xs
      ensures countries == old(countries) && cities == old(cities) && languages == old(languages)
    {
      states := xs;
    }

    method SetCities(xs: seq<GeoEntry>)
      modifies this
      ensures cities == xs
      ensures countries == old(countries) && states == old(states) && languages == old(languages)
    {
      cities := xs;
    }

    method SetLanguages(xs: seq<Language>)
      modifies this
      ensures languages == xs
      ensures countries == old(countries) && states == old(states) && cities == old(cities)
    {
      languages := xs;
    }
  }
}
