/** The edit surface: six nav links that set the active section, the highlighting of the
    active one, and the section-to-form dispatch. */
module EditLayout {
  import opened EditLayoutState

  /** The six section forms. */
  datatype SectionForm = FormAbout | FormDemographic | FormBilling | FormDetailsReference | FormSharedFiles | FormSettings

  /** A rendered form and the `userId` prop it receives. */
  datatype Rendered = Rendered(form: SectionForm, userId: int)

  /** The nav links' sections, in nav order, and the form each one dispatches to. */
  const Sections := ["aboutClient", "demographic", "billing", "details-reference", "shared-files", "settings"]
  const Forms := [FormAbout, FormDemographic, FormBilling, FormDetailsReference, FormSharedFiles, FormSettings]

  /** The six `activeSection === … && <Form userId={userId}/>` lines, in order. */
  function RenderedForms(section: string, userId: int): seq<Rendered> {
    (if section == "aboutClient" then [Rendered(FormAbout, userId)] else []) +
    (if section == "demographic" then [Rendered(FormDemographic, userId)] else []) +
    (if section == "billing" then [Rendered(FormBilling, userId)] else []) +
    (if section == "details-reference" then [Rendered(FormDetailsReference, userId)] else []) +
    (if section == "shared-files" then [Rendered(FormSharedFiles, userId)] else []) +
    (if section == "settings" then [Rendered(FormSettings, userId)] else [])
  }

  lemma SectionsDistinct()
    ensures forall i, j :: 0 <= i < j < |Sections| ==> Sections[i] != Sections[j]
  {
    forall i, j | 0 <= i < j < |Sections| ensures Sections[i] != Sections[j] {
      var a, b := Sections[i], Sections[j];
      assert |a| != |b| || a[0] != b[0];
    }
  }

  /** The `k`-th section renders exactly the `k`-th form, with the given `userId`. */
  lemma SectionRendersItsForm(k: nat, userId: int)
    requires k < |Sections|
    ensures RenderedForms(Sections[k], userId) == [Rendered(Forms[k], userId)]
  {
    SectionsDistinct();
  }

  /** Any other section string renders no form at all. */
  lemma OtherSectionRendersNothing(section: string, userId: int)
    requires section !in Sections
    ensures RenderedForms(section, userId) == []
  {
  }

  /** At most one form is rendered, exactly when the section is one of the six, and whatever
      is rendered receives `userId`. */
  lemma AtMostOneForm(section: string, userId: int)
    ensures |RenderedForms(section, userId)| <= 1
    ensures |RenderedForms(section, userId)| == 1 <==> section in Sections
    ensures forall r :: r in RenderedForms(section, userId) ==> r.userId == userId
  {
    if section in Sections {
      var k :| 0 <= k < |Sections| && Sections[k] == section;
      SectionRendersItsForm(k, userId);
    } else {
      OtherSectionRendersNothing(section, userId);
    }
  }

  /** A nav link is highlighted when the active section is its own. */
  predicate Highlighted(active: string, k: nat)
    requires k < |Sections|
  {
    active == Sections[k]
  }

  /** At most one link is highlighted. */
  lemma OneHighlight(active: string, i: nat, j: nat)
    requires i < |Sections| && j < |Sections|
    requires Highlighted(active, i) && Highlighted(active, j)
    ensures i == j
  {
    SectionsDistinct();
  }

  /** A click on the `k`-th link. */
  method ClickNav(store: EditLayoutStore, k: nat)
    requires k < |Sections|
    modifies store
    ensures store.activeSection == Sections[k]
    ensures Highlighted(store.activeSection, k)
  {
    store.SetActiveSection(Sections[k]);
  }
}
