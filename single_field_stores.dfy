/** `useShowEditProfileStore`: whether the edit surface is showing. */
module ShowEditProfile {
  class ShowEditProfileStore {
    var showEditProfile: bool

    constructor ()
      ensures !showEditProfile
    {
      showEditProfile := false;
    }

    /** The new value does not depend on the old one, so setting twice is setting once. */
    method SetShowEditProfile(value: bool)
      modifies this
      ensures showEditProfile == value
    {
      showEditProfile := value;
    }
  }
}

/** `useActiveComponentStore`: the top-level area, any string, unvalidated. */
module ActiveComponent {
  const Dashboard := "Dashboard"
  const Clients := "Clients"

  class ActiveComponentStore {
    var activeComponent: string

    constructor ()
      ensures activeComponent == Dashboard
    {
      activeComponent := Dashboard;
    }

    /** The last write wins. */
    method SetActiveComponent(component: string)
      modifies this
      ensures activeComponent == component
    {
      activeComponent := component;
    }
  }
}

/** `useEditLayoutStore`: which section of the edit surface is active, any string. */
module EditLayoutState {
  const AboutClientSection := "aboutClient"

  class EditLayoutStore {
    var activeSection: string

    constructor ()
      ensures activeSection == AboutClientSection
    {
      activeSection := AboutClientSection;
    }

    method SetActiveSection(section: string)
      modifies this
      ensures activeSection == section
    {
      activeSection := section;
    }
  }
}

/** `useShowSharedPdfStore`: the shared-file paths of the client being edited. */
module ShowSharedPdf {
  class ShowSharedPdfStore {
    var sharedFiles: seq<string>

    constructor ()
      ensures sharedFiles == []
    {
      sharedFiles := [];
    }

    /** Replaces the list; never appends. */
    method SetSharedFiles(files: seq<string>)
      modifies this
      ensures sharedFiles == files
    {
      sharedFiles := files;
    }
  }
}
