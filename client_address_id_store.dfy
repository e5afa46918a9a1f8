/** The ids picked in the country, state and city dropdowns (`useClientAddressIdStore`).
    Each setter writes its own id only: any cascade is up to the caller. */
module ClientAddressIds {
  import opened Wrappers

  class ClientAddressIdStore {
    var selectedCountryId: Option<int>
    var selectedStateId: Option<int>
    var selectedCityId: Option<int>

    constructor ()
      ensures selectedCountryId == None && selectedStateId == None && selectedCityId == None
    {
      selectedCountryId, selectedStateId, selectedCityId := None, None, None;
    }

    /** Does not reset the state or city id. `None` clears the id. */
    method SetSelectedCountryId(id: Option<int>)
      modifies this
      ensures selectedCountryId == id
      ensures selectedStateId == old(selectedStateId) && selectedCityId == old(selectedCityId)
    {
      selectedCountryId := id;
    }

    method SetSelectedStateId(id: Option<int>)
      modifies this
      ensures selectedStateId == id
      ensures selectedCountryId == old(selectedCountryId) && selectedCityId == old(selectedCityId)
    {
      selectedStateId := id;
    }

    method SetSelectedCityId(id: Option<int>)
      modifies this
      ensures selectedCityId == id
      ensures selectedCountryId == old(selectedCountryId) && selectedStateId == old(selectedStateId)
    {
      selectedCityId := id;
    }
  }
}
