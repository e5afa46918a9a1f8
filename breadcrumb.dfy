/** The breadcrumb bar: Home, the active area, the client's name, "Edit", the close icon,
    and the effect that fetches a client's details whenever one is selected. */
module Breadcrumb {
  import opened Wrappers
  import opened ClientModel
  import opened ClientDetailsState
  import opened ShowEditProfile
  import opened Http
  import Panel

  datatype BreadcrumbView = BreadcrumbView(
    area: string, nameCrumb: Option<string>, editCrumb: bool, closeIcon: bool)

  /** The crumbs after Home: the area always; the name when details are loaded and the id is
      truthy; "Edit" and the close icon when editing and the id is truthy. */
  function RenderBreadcrumb(active: string, selected: Option<int>, result: Option<Client>, showEdit: bool): BreadcrumbView {
    BreadcrumbView(
      active,
      if result.Some? && Truthy(selected) then Some(result.value.name) else None,
      showEdit && Truthy(selected),
      Truthy(selected) && showEdit)
  }

  /** The effect on `selectedClientId`: whenever it is not `null`, 0 included, it runs
      `handleShowClientDetails` for that id; `null` does nothing. */
  method FetchOnSelection(details: ClientDetailsStore, selectedClientId: Option<int>, response: Response<Client>)
    returns (req: Option<Request>)
    modifies details
    ensures req.Some? <==> selectedClientId.Some?
    ensures req.Some? ==> req.value == Request(GET, "api/clientDetails", selectedClientId.value, NoBody)
    ensures details.selectedClientId == if selectedClientId.Some? then selectedClientId else old(details.selectedClientId)
    ensures details.clientDetailsResult ==
              if selectedClientId.Some? && response.Ok? then Some(response.data) else old(details.clientDetailsResult)
  {
    if selectedClientId.Some? {
      var r := Panel.HandleShowClientDetails(details, selectedClientId.value, response);
      req := Some(r);
    } else {
      req := None;
    }
  }

  /** The close icon and the "Edit" crumb always come together, and the name crumb names the
      loaded client. */
  lemma CrumbRules(active: string, selected: Option<int>, result: Option<Client>, showEdit: bool)
    ensures var v := RenderBreadcrumb(active, selected, result, showEdit);
            (v.closeIcon <==> v.editCrumb) &&
            (v.editCrumb <==> showEdit && selected.Some? && selected.value != 0) &&
            (v.nameCrumb.Some? <==> result.Some? && selected.Some? && selected.value != 0) &&
            (v.nameCrumb.Some? ==> v.nameCrumb.value == result.value.name) &&
            v.area == active
  {
  }

  /** An id of 0 is fetched by the effect, and its details are stored when the response is
      ok, yet the bar shows no name, "Edit" or close icon for it. */
  method ZeroIdFetchedButHidden(details: ClientDetailsStore, active: string, showEdit: bool, response: Response<Client>)
    returns (req: Option<Request>, v: BreadcrumbView)
    modifies details
    ensures req == Some(Request(GET, "api/clientDetails", 0, NoBody))
    ensures details.selectedClientId == Some(0)
    ensures details.clientDetailsResult == if response.Ok? then Some(response.data) else old(details.clientDetailsResult)
    ensures v == RenderBreadcrumb(active, details.selectedClientId, details.clientDetailsResult, showEdit)
    ensures v.nameCrumb.None? && !v.editCrumb && !v.closeIcon
  {
    req := FetchOnSelection(details, Some(0), response);
    v := RenderBreadcrumb(active, details.selectedClientId, details.clientDetailsResult, showEdit);
  }

  /** `handleClose`: deselect and leave the edit surface; the loaded details stay. */
  method HandleClose(details: ClientDetailsStore, edit: ShowEditProfileStore)
    modifies details, edit
    ensures details.selectedClientId == None && !edit.showEditProfile
    ensures details.clientDetailsResult == old(details.clientDetailsResult)
  {
    details.SetSelectedClientId(None);
    edit.SetShowEditProfile(false);
  }

  /** After closing, the effect sees `null` and fetches nothing, and the bar shows only Home
      and the area; the loaded details stay in the store. */
  method AfterCloseOnlyArea(details: ClientDetailsStore, edit: ShowEditProfileStore, active: string, response: Response<Client>)
    returns (req: Option<Request>, v: BreadcrumbView)
    modifies details, edit
    ensures req.None?
    ensures details.clientDetailsResult == old(details.clientDetailsResult)
    ensures v == RenderBreadcrumb(active, details.selectedClientId, details.clientDetailsResult, edit.showEditProfile)
    ensures v == BreadcrumbView(active, None, false, false)
  {
    HandleClose(details, edit);
    req := FetchOnSelection(details, details.selectedClientId, response);
    v := RenderBreadcrumb(active, details.selectedClientId, details.clientDetailsResult, edit.showEditProfile);
  }
}
