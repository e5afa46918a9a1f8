/** The dashboard shell: which of the add button, the clients table, the details view and the
    edit surface it renders, and the handlers that open a client's details or edit surface. */
module Panel {
  import opened Wrappers
  import opened Http
  import opened ClientModel
  import opened ClientDetailsState
  import opened ShowEditProfile
  import opened ActiveComponent

  /** What the main area shows. `strayZeros` counts the `0` text nodes React prints when a
      `cond && selectedClientId && …` chain stops at an id of 0. */
  datatype PanelView = PanelView(addButton: bool, table: bool, details: bool, edit: bool, strayZeros: nat)

  /** The render conditions, where the selected id counts only when truthy. */
  function RenderPanel(active: string, selected: Option<int>, showEdit: bool): PanelView {
    var clients := active == Clients;
    PanelView(
      addButton := clients && !showEdit && !Truthy(selected),
      table := clients && !Truthy(selected),
      details := clients && Truthy(selected) && !showEdit,
      edit := clients && Truthy(selected) && showEdit,
      strayZeros := if clients && selected == Some(0) then 2 else 0)
  }

  /** On the clients area exactly one of table, details and edit is rendered; elsewhere none
      is, and neither is the add button. */
  lemma ExactlyOneSurface(active: string, selected: Option<int>, showEdit: bool)
    ensures var v := RenderPanel(active, selected, showEdit);
            if active == Clients then
              (v.table && !v.details && !v.edit) || (!v.table && v.details && !v.edit) ||
              (!v.table && !v.details && v.edit)
            else !v.table && !v.details && !v.edit && !v.addButton && v.strayZeros == 0
  {
  }

  /** The add button shows exactly with the table and without the edit surface. */
  lemma AddButtonRule(active: string, selected: Option<int>, showEdit: bool)
    ensures var v := RenderPanel(active, selected, showEdit);
            v.addButton <==> active == Clients && (selected.None? || selected.value == 0) && !showEdit
    ensures var v := RenderPanel(active, selected, showEdit);
            v.addButton ==> v.table
  {
  }

  /** An id of 0 renders like no selection (the table, not the details), apart from two
      stray `0` texts. */
  lemma ZeroIdIsNoSelection(active: string, showEdit: bool)
    ensures var z, n := RenderPanel(active, Some(0), showEdit), RenderPanel(active, None, showEdit);
            z.(strayZeros := 0) == n && n.strayZeros == 0 &&
            (z.strayZeros == 2 <==> active == Clients)
  {
  }

  /** The sidebar's "Clients" entry. */
  method ClickClients(store: ActiveComponentStore)
    modifies store
    ensures store.activeComponent == Clients
  {
    store.SetActiveComponent(Clients);
  }

  /** `handleEditProfile`: select the client and open its edit surface. */
  method HandleEditProfile(details: ClientDetailsStore, edit: ShowEditProfileStore, id: int)
    modifies details, edit
    ensures details.selectedClientId == Some(id) && edit.showEditProfile
    ensures details.clientDetailsResult == old(details.clientDetailsResult)
  {
    details.SetSelectedClientId(Some(id));
    edit.SetShowEditProfile(true);
  }

  /** `handleShowClientDetails`: select the client first, then GET its details; only an ok
      response stores them, anything else leaves the previous result in place. */
  method HandleShowClientDetails(details: ClientDetailsStore, id: int, response: Response<Client>)
    returns (req: Request)
    modifies details
    ensures req == Request(GET, "api/clientDetails", id, NoBody)
    ensures details.selectedClientId == Some(id)
    ensures details.clientDetailsResult == if response.Ok? then Some(response.data) else old(details.clientDetailsResult)
  {
    details.SetSelectedClientId(Some(id));
    req := Request(GET, "api/clientDetails", id, NoBody);
    if response.Ok? {
      details.SetClientDetailsResult(response.data);
    }
  }
}
