/** The main window's view model as an object whose fields its handlers
    update in place. Its state, read through `State()`, is a
    `Navigation.NavState`. Each method is proved to leave exactly the
    state that the function of the same name in `Navigation` computes
    from the old state, and the lemmas about those functions carry over. */
module MainWindow {

  import opened Wrappers
  import opened Resources
  import opened Navigation

  class MainViewModel {
    var currentPage: Page
    var preSettingsPage: Page
    var nextPageTooltip: Option<string>
    var previousPageTooltip: Option<string>
    /** The ImageIndex of the preview page's view model, which this view
        model resets when it prepares the preview. */
    var imageIndex: Option<int>

    function State(): NavState
      reads this
    {
      NavState(currentPage, preSettingsPage, nextPageTooltip, previousPageTooltip, imageIndex)
    }

    /** Construction. The two file-system facts are passed in, and so is the
        image index that the preview page's view model already holds. */
    constructor (newInstallation: bool, badEpubPath: bool, previewImageIndex: Option<int>)
      ensures State() == Initial(newInstallation, badEpubPath, previewImageIndex)
    {
      currentPage := Scriptures;
      preSettingsPage := Scriptures;
      previousPageTooltip := None;
      imageIndex := previewImageIndex;
      if newInstallation {
        currentPage := Startup;
      } else if badEpubPath {
        currentPage := Settings;
      }
      nextPageTooltip := Some(NEXT_PAGE_PREVIEW);
    }

    method SetCurrentPage(value: Page)
      modifies this
      ensures State() == Navigation.SetCurrentPage(old(State()), value)
    {
      if currentPage != value {
        currentPage := value;
        SetPreviousPageToolTip(
          if currentPage == Preview || currentPage == Settings then Some(PREV_PAGE_SCRIPS) else None);
        SetNextPageToolTip(
          if currentPage == Scriptures || currentPage == Settings then Some(NEXT_PAGE_PREVIEW) else None);
      }
    }

    method SetNextPageToolTip(value: Option<string>)
      modifies this
      ensures State() == Navigation.SetNextPageToolTip(old(State()), value)
      ensures nextPageTooltip == value
    {
      if nextPageTooltip == None || nextPageTooltip != value {
        nextPageTooltip := value;
      }
    }

    method SetPreviousPageToolTip(value: Option<string>)
      modifies this
      ensures State() == Navigation.SetPreviousPageToolTip(old(State()), value)
      ensures previousPageTooltip == value
    {
      if previousPageTooltip == None || previousPageTooltip != value {
        previousPageTooltip := value;
      }
    }

    method OnToggleSettings()
      modifies this
      ensures State() == ToggleSettings(old(State()))
    {
      if currentPage == Settings {
        SetCurrentPage(preSettingsPage);
      } else {
        preSettingsPage := currentPage;
        SetCurrentPage(Settings);
      }
    }

    method OnBack()
      modifies this
      ensures State() == Back(old(State()))
    {
      if currentPage == Preview {
        SetCurrentPage(Scriptures);
      }
    }

    method OnNext()
      modifies this
      ensures State() == Next(old(State()))
    {
      if currentPage == Scriptures {
        PreparePreviewPage();
        SetCurrentPage(Preview);
      }
    }

    /** Initialising the images service between the two writes is a call
        into a service that is not part of this model. */
    method PreparePreviewPage()
      modifies this
      ensures State() == Navigation.PreparePreviewPage(old(State()))
    {
      imageIndex := None;
      imageIndex := Some(0);
    }

    method HandleEpubChangedEvent()
      modifies this
      ensures State() == HandleEpubChanged(old(State()))
    {
      if imageIndex != None {
        PreparePreviewPage();
      }
    }

    method HandleEpubPathChangedEvent()
      modifies this
      ensures State() == HandleEpubPathChanged(old(State()))
    {
      if currentPage == Startup {
        SetCurrentPage(Scriptures);
      }
    }
  }
}
