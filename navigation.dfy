/** The page-navigation state machine of the OnlyV main window, as values.

    The window shows one of four pages. Three guarded commands (Next, Back,
    Settings) and two events move between them: one from the settings page
    and one from the options service. `NavState` is everything those
    handlers read or write: the current page, the page to return to when the
    settings page is closed, the two navigation tooltips and the preview
    page's image index. The index belongs to the preview page's view model,
    and only the writes made here are modelled. The class
    `MainWindow.MainViewModel` keeps these fields and updates them in place. Each of its methods is specified by one of the functions
    below. */
module Navigation {

  import opened Wrappers
  import opened Resources

  datatype Page = Scriptures | Preview | Settings | Startup

  datatype NavState = NavState(
    currentPage: Page,
    preSettingsPage: Page,
    nextPageToolTip: Option<string>,
    previousPageToolTip: Option<string>,
    imageIndex: Option<int>)

  /** The host facts the guards consult.
      `badEpubPath` means that the configured EPUB path is empty or names no file.
      `validScripture` means that the scriptures page holds a usable reference. */
  datatype Inputs = Inputs(badEpubPath: bool, validScripture: bool)

  /** What can happen to the window: a click on one of the three
      command buttons, or one of the two events. */
  datatype Event = NextPage | BackPage | SettingsToggle | EpubChanged | EpubPathChanged

  /** The object invariant: the page remembered for "back from settings"
      is never the settings page itself. */
  predicate Valid(s: NavState) {
    s.preSettingsPage != Settings
  }

  /** The stronger invariant that holds while only enabled commands run:
      the remembered page is one a user can toggle settings from. */
  predicate Guarded(s: NavState) {
    s.preSettingsPage == Scriptures || s.preSettingsPage == Preview
  }

  /** The tooltip each page should show for the "previous page" button. */
  function PreviousToolTipFor(p: Page): Option<string> {
    if p == Preview || p == Settings then Some(PREV_PAGE_SCRIPS) else None
  }

  /** The tooltip each page should show for the "next page" button. */
  function NextToolTipFor(p: Page): Option<string> {
    if p == Scriptures || p == Settings then Some(NEXT_PAGE_PREVIEW) else None
  }

  /** Both tooltips are the ones derived from the current page. */
  predicate ToolTipsFollow(s: NavState) {
    s.previousPageToolTip == PreviousToolTipFor(s.currentPage) &&
    s.nextPageToolTip == NextToolTipFor(s.currentPage)
  }

  // ---------------------------------------------------------------------
  // Construction

  /** The page the window opens on. */
  function InitialPage(newInstallation: bool, badEpubPath: bool): (p: Page)
    ensures p == Startup <==> newInstallation
    ensures p == Settings <==> !newInstallation && badEpubPath
    ensures p == Scriptures <==> !newInstallation && !badEpubPath
    ensures p != Preview
  {
    if newInstallation then Startup
    else if badEpubPath then Settings
    else Scriptures
  }

  /** The state right after construction. The page is written straight
      into its field, not through the page setter, so the tooltips are not
      derived from it: the next-page tooltip is set whatever the page is,
      and the previous-page tooltip keeps its default, null.
      `imageIndex` is whatever the preview page held when it was handed in. */
  function Initial(newInstallation: bool, badEpubPath: bool, imageIndex: Option<int>): (s: NavState)
    ensures s.currentPage == InitialPage(newInstallation, badEpubPath)
    ensures s.preSettingsPage == Scriptures
    ensures s.nextPageToolTip == Some(NEXT_PAGE_PREVIEW)
    ensures s.previousPageToolTip == None
    ensures s.imageIndex == imageIndex
    ensures Valid(s) && Guarded(s)
  {
    NavState(InitialPage(newInstallation, badEpubPath), Scriptures, Some(NEXT_PAGE_PREVIEW), None, imageIndex)
  }

  // ---------------------------------------------------------------------
  // Property setters

  /** The NextPageToolTip setter. It writes only when the old value is
      null or differs, so afterwards the tooltip always equals the value
      assigned. */
  function SetNextPageToolTip(s: NavState, value: Option<string>): (r: NavState)
    ensures r.nextPageToolTip == value
    ensures r.currentPage == s.currentPage && r.preSettingsPage == s.preSettingsPage
    ensures r.previousPageToolTip == s.previousPageToolTip && r.imageIndex == s.imageIndex
  {
    if s.nextPageToolTip == None || s.nextPageToolTip != value then s.(nextPageToolTip := value) else s
  }

  /** The PreviousPageToolTip setter, with the same guard. */
  function SetPreviousPageToolTip(s: NavState, value: Option<string>): (r: NavState)
    ensures r.previousPageToolTip == value
    ensures r.currentPage == s.currentPage && r.preSettingsPage == s.preSettingsPage
    ensures r.nextPageToolTip == s.nextPageToolTip && r.imageIndex == s.imageIndex
  {
    if s.previousPageToolTip == None || s.previousPageToolTip != value then s.(previousPageToolTip := value) else s
  }

  /** The CurrentPage setter. Assigning the page already shown changes
      nothing. Assigning another page moves there and re-derives both
      tooltips from the new page. */
  function SetCurrentPage(s: NavState, value: Page): (r: NavState)
    ensures r.currentPage == value
    ensures r.preSettingsPage == s.preSettingsPage && r.imageIndex == s.imageIndex
    ensures s.currentPage == value ==> r == s
    ensures s.currentPage != value ==>
      (r.previousPageToolTip == Some(PREV_PAGE_SCRIPS) <==> value == Preview || value == Settings) &&
      (r.previousPageToolTip == Some(PREV_PAGE_SCRIPS) || r.previousPageToolTip == None) &&
      (r.nextPageToolTip == Some(NEXT_PAGE_PREVIEW) <==> value == Scriptures || value == Settings) &&
      (r.nextPageToolTip == Some(NEXT_PAGE_PREVIEW) || r.nextPageToolTip == None)
    ensures s.currentPage != value || ToolTipsFollow(s) ==> ToolTipsFollow(r)
    ensures Valid(s) ==> Valid(r)
  {
    if s.currentPage != value then
      var moved := s.(currentPage := value);
      SetNextPageToolTip(SetPreviousPageToolTip(moved, PreviousToolTipFor(value)), NextToolTipFor(value))
    else
      s
  }

  // ---------------------------------------------------------------------
  // Read-only views of the state

  /** The tooltip of the settings button: it becomes a "back" button while
      the settings page is shown. */
  function SettingsButtonToolTip(p: Page): (r: string)
    ensures r == BACK <==> p == Settings
    ensures r == SETTINGS_PAGE <==> p != Settings
  {
    if p == Settings then BACK else SETTINGS_PAGE
  }

  /** The icon of the settings button, following the same rule. */
  function SettingsIconKind(p: Page): (r: string)
    ensures r == BACK_BURGER_ICON <==> p == Settings
    ensures r == SETTINGS_ICON <==> p != Settings
  {
    if p == Settings then BACK_BURGER_ICON else SETTINGS_ICON
  }

  /** The settings button's guard. The settings page can be left only once
      the EPUB path is good, and the startup page cannot open settings. */
  function CanToggleSettings(p: Page, badEpubPath: bool): (r: bool)
    ensures p == Settings ==> (r <==> !badEpubPath)
    ensures p != Settings ==> (r <==> p != Startup)
    ensures r ==> p != Startup
  {
    if p == Settings then !badEpubPath else p != Startup
  }

  /** The back button's guard: only the preview page has a page behind it. */
  function CanDoBack(p: Page): (r: bool)
    ensures r <==> p == Preview
  {
    p == Preview
  }

  /** The next button's guard. Only the scriptures page leads on, and only
      with a valid scripture selected. */
  function CanDoNext(p: Page, validScripture: bool): (r: bool)
    ensures r <==> p == Scriptures && validScripture
  {
    if p == Scriptures then validScripture else false
  }

  // ---------------------------------------------------------------------
  // Handlers

  /** The settings command. From the settings page it returns to the
      remembered page. From any other page it remembers that page and opens
      settings. */
  function ToggleSettings(s: NavState): (r: NavState)
    ensures s.currentPage == Settings ==>
      r.currentPage == s.preSettingsPage && r.preSettingsPage == s.preSettingsPage
    ensures s.currentPage != Settings ==>
      r.currentPage == Settings && r.preSettingsPage == s.currentPage
    ensures r.imageIndex == s.imageIndex
    ensures Valid(s) ==> Valid(r) && (s.currentPage == Settings ==> r.currentPage != Settings)
  {
    if s.currentPage == Settings then
      SetCurrentPage(s, s.preSettingsPage)
    else
      SetCurrentPage(s.(preSettingsPage := s.currentPage), Settings)
  }

  /** The back command: the preview page goes back to the scriptures page,
      and every other page stays where it is. */
  function Back(s: NavState): (r: NavState)
    ensures s.currentPage == Preview ==> r.currentPage == Scriptures
    ensures s.currentPage != Preview ==> r == s
    ensures r.preSettingsPage == s.preSettingsPage && r.imageIndex == s.imageIndex
  {
    if s.currentPage == Preview then SetCurrentPage(s, Scriptures) else s
  }

  /** The part of preparing the preview page that this state sees. The image
      index is cleared while the images service is initialised, then set to
      the first image. */
  function PreparePreviewPage(s: NavState): (r: NavState)
    ensures r.imageIndex == Some(0)
    ensures r.(imageIndex := s.imageIndex) == s
  {
    s.(imageIndex := None).(imageIndex := Some(0))
  }

  /** The next command. From the scriptures page it prepares the preview,
      showing its first image, and moves to the preview page. Every other
      page stays where it is. */
  function Next(s: NavState): (r: NavState)
    ensures s.currentPage == Scriptures ==> r.currentPage == Preview && r.imageIndex == Some(0)
    ensures s.currentPage != Scriptures ==> r == s
    ensures r.preSettingsPage == s.preSettingsPage
  {
    if s.currentPage == Scriptures then SetCurrentPage(PreparePreviewPage(s), Preview) else s
  }

  /** The settings page's "EPUB changed" event. The preview is prepared
      again only when it has already been prepared, that is, when its image
      index is not null. */
  function HandleEpubChanged(s: NavState): (r: NavState)
    ensures s.imageIndex != None ==> r == s.(imageIndex := Some(0))
    ensures s.imageIndex == None ==> r == s
  {
    if s.imageIndex != None then PreparePreviewPage(s) else s
  }

  /** The options service's "EPUB path changed" event. It releases the
      startup page to the scriptures page and leaves every other page alone. */
  function HandleEpubPathChanged(s: NavState): (r: NavState)
    ensures s.currentPage == Startup ==> r.currentPage == Scriptures
    ensures s.currentPage != Startup ==> r == s
    ensures r.preSettingsPage == s.preSettingsPage && r.imageIndex == s.imageIndex
  {
    if s.currentPage == Startup then SetCurrentPage(s, Scriptures) else s
  }

  // ---------------------------------------------------------------------
  // Running the window

  /** One event as the window delivers it. A command runs its handler only
      when its guard holds, because its button is disabled otherwise. The
      two events run unconditionally. */
  function Dispatch(s: NavState, e: Event, inputs: Inputs): (r: NavState)
    ensures Valid(s) ==> Valid(r)
    ensures Guarded(s) ==> Guarded(r)
    ensures Guarded(s) && s.currentPage != Startup ==> r.currentPage != Startup
    ensures s.currentPage == Startup && r.currentPage != Startup ==>
      e == EpubPathChanged && r.currentPage == Scriptures
    ensures ToolTipsFollow(s) || r.currentPage != s.currentPage ==> ToolTipsFollow(r)
  {
    match e
    case NextPage => if CanDoNext(s.currentPage, inputs.validScripture) then Next(s) else s
    case BackPage => if CanDoBack(s.currentPage) then Back(s) else s
    case SettingsToggle => if CanToggleSettings(s.currentPage, inputs.badEpubPath) then ToggleSettings(s) else s
    case EpubChanged => HandleEpubChanged(s)
    case EpubPathChanged => HandleEpubPathChanged(s)
  }

  /** A sequence of events, each with the host facts at the time it happens. */
  function Run(s: NavState, steps: seq<(Event, Inputs)>): (r: NavState)
    decreases |steps|
  {
    if steps == [] then s else Run(Dispatch(s, steps[0].0, steps[0].1), steps[1..])
  }
}
