/** The selected client id and the last fetched details (`useClientDetailsStore`). */
module ClientDetailsState {
  import opened Wrappers
  import opened ClientModel

  class ClientDetailsStore {
    var selectedClientId: Option<int>
    var clientDetailsResult: Option<Client>

    constructor ()
      ensures selectedClientId == None && clientDetailsResult == None
    {
      selectedClientId, clientDetailsResult := None, None;
    }

    /** Clearing the id to `None` keeps the last details result. */
    method SetSelectedClientId(id: Option<int>)
      modifies this
      ensures selectedClientId == id
      ensures clientDetailsResult == old(clientDetailsResult)
    {
      selectedClientId := id;
    }

    method SetClientDetailsResult(client: Client)
      modifies this
      ensures clientDetailsResult == Some(client)
      ensures selectedClientId == old(selectedClientId)
    {
      clientDetailsResult := Some(client);
    }
  }
}
