# OnlyV main-window navigation and title-text theme, in Dafny

OnlyV turns scripture passages into slide images for projection. This
project models two parts of it.

The first is the page navigation of the main window (`MainViewModel`). The
window shows one of four pages: Scriptures, Preview, Settings or Startup. It
also remembers the page it came from when the settings page was opened, and
it keeps two tooltips for the next and previous buttons. It also writes
the image index of the preview page's view model. Three guarded commands
change this state: Next, Back and the settings toggle. Two events change it
too: "EPUB changed", raised by the settings page's view model, and "EPUB path
changed", raised by the options service. The constructor chooses the first
page from two file-system facts.

The second is the title-text theme value (`OnlyVTitleTextSpec`). It is a
record of font, horizontal alignment, position and drop shadow, with
documented defaults.

Layout:

- `navigation.dfy` (module `Navigation`): the state as a value (`NavState`),
  one function per setter, guard and handler, and `Dispatch`/`Run`, which
  deliver a command only when its guard holds, as a disabled button does.
- `main_view_model.dfy` (module `MainWindow`): the class `MainViewModel`,
  whose fields the handlers update in place. Each method is proved to leave
  `State()` equal to the `Navigation` function of the old state.
- `navigation_properties.dfy` (module `NavigationProperties`): lemmas that
  relate several steps, such as two toggles in a row, Next then Back, and
  invariants kept over any sequence of events.
- `title_text_spec.dfy` (module `TitleText`): the theme record, its default
  and its four property setters.
- `resources.dfy`, `wrappers.dfy`: the resource-string keys, and `Option`,
  which stands for C# `null`.

Inputs that come from outside the model:

- "new installation" (no `*.epub` file in the EPUB folder) and "bad EPUB
  path" (empty, or no such file) are booleans. The constructor takes them as
  parameters, and the guards take them through `Navigation.Inputs`.
- "valid scripture" comes from the scriptures page, also through
  `Navigation.Inputs`.
- The preview page's image index at construction time is a constructor
  parameter.
- Resource strings are represented by their resource keys. The window shows
  and compares the translated texts. The model therefore assumes those texts
  are pairwise distinct, in particular the texts of BACK and SETTINGS_PAGE.
  The "exactly when" contracts of `Navigation.SettingsButtonToolTip` depend on
  this.

## Model

| member | source | states |
|---|---|---|
| `Navigation.InitialPage` | OnlyV/ViewModel/MainViewModel.cs:62-72 | Startup exactly for a new installation; otherwise Settings exactly when the EPUB path is bad; otherwise Scriptures; never Preview |
| `Navigation.Initial` | OnlyV/ViewModel/MainViewModel.cs:62-74 | the first page is `InitialPage`; the remembered page is Scriptures; the next tooltip is NEXT_PAGE_PREVIEW whatever the page; the previous tooltip is null; both invariants hold |
| `MainWindow.MainViewModel.constructor` | OnlyV/ViewModel/MainViewModel.cs:35-77 | the constructed object's state is `Navigation.Initial` of the two file-system facts |
| `Navigation.SetNextPageToolTip` | OnlyV/ViewModel/MainViewModel.cs:104-115 | after the guarded write, the tooltip equals the assigned value (null included); nothing else changes |
| `Navigation.SetPreviousPageToolTip` | OnlyV/ViewModel/MainViewModel.cs:117-128 | after the guarded write, the tooltip equals the assigned value (null included); nothing else changes |
| `MainWindow.MainViewModel.SetNextPageToolTip` | OnlyV/ViewModel/MainViewModel.cs:104-115 | the field equals the assigned value; the state is `Navigation.SetNextPageToolTip` of the old one |
| `MainWindow.MainViewModel.SetPreviousPageToolTip` | OnlyV/ViewModel/MainViewModel.cs:117-128 | the field equals the assigned value; the state is `Navigation.SetPreviousPageToolTip` of the old one |
| `Navigation.SetCurrentPage` | OnlyV/ViewModel/MainViewModel.cs:82-99 | assigning the current page changes nothing; assigning another page moves there; then the previous tooltip is PREV_PAGE_SCRIPS exactly on Preview or Settings, else null; the next tooltip is NEXT_PAGE_PREVIEW exactly on Scriptures or Settings, else null; the remembered page and image index are kept |
| `MainWindow.MainViewModel.SetCurrentPage` | OnlyV/ViewModel/MainViewModel.cs:82-99 | the new state is `Navigation.SetCurrentPage` of the old state |
| `Navigation.SettingsButtonToolTip` | OnlyV/ViewModel/MainViewModel.cs:132-135 | BACK exactly on the settings page, SETTINGS_PAGE exactly elsewhere |
| `Navigation.SettingsIconKind` | OnlyV/ViewModel/MainViewModel.cs:137-140 | "BackBurger" exactly on the settings page, "Settings" exactly elsewhere |
| `Navigation.CanToggleSettings` | OnlyV/ViewModel/MainViewModel.cs:160-168 | on Settings, enabled exactly when the EPUB path is good; elsewhere, enabled exactly when the page is not Startup |
| `Navigation.ToggleSettings` | OnlyV/ViewModel/MainViewModel.cs:170-184 | from Settings, moves to the remembered page; from any other page, remembers it and moves to Settings; the image index is kept; with the invariant, toggling from Settings always leaves Settings, and the invariant is kept |
| `MainWindow.MainViewModel.OnToggleSettings` | OnlyV/ViewModel/MainViewModel.cs:170-184 | the new state is `Navigation.ToggleSettings` of the old state |
| `Navigation.CanDoBack` | OnlyV/ViewModel/MainViewModel.cs:186-189 | enabled exactly on the preview page |
| `Navigation.Back` | OnlyV/ViewModel/MainViewModel.cs:191-197 | Preview goes to Scriptures; any other page is left entirely unchanged |
| `MainWindow.MainViewModel.OnBack` | OnlyV/ViewModel/MainViewModel.cs:191-197 | the new state is `Navigation.Back` of the old state |
| `Navigation.CanDoNext` | OnlyV/ViewModel/MainViewModel.cs:199-207 | enabled exactly on the scriptures page with a valid scripture |
| `Navigation.Next` | OnlyV/ViewModel/MainViewModel.cs:209-216 | Scriptures goes to Preview with the image index at 0; any other page is left entirely unchanged |
| `MainWindow.MainViewModel.OnNext` | OnlyV/ViewModel/MainViewModel.cs:209-216 | the new state is `Navigation.Next` of the old state |
| `Navigation.PreparePreviewPage` | OnlyV/ViewModel/MainViewModel.cs:236-245 | the image index ends at 0 and nothing else in the state changes |
| `MainWindow.MainViewModel.PreparePreviewPage` | OnlyV/ViewModel/MainViewModel.cs:236-245 | the new state is `Navigation.PreparePreviewPage` of the old state |
| `Navigation.HandleEpubChanged` | OnlyV/ViewModel/MainViewModel.cs:226-234 | a non-null image index is reset to 0 and nothing else changes; with a null index nothing changes |
| `MainWindow.MainViewModel.HandleEpubChangedEvent` | OnlyV/ViewModel/MainViewModel.cs:226-234 | the new state is `Navigation.HandleEpubChanged` of the old state |
| `Navigation.HandleEpubPathChanged` | OnlyV/ViewModel/MainViewModel.cs:263-269 | Startup goes to Scriptures; any other page is left entirely unchanged |
| `MainWindow.MainViewModel.HandleEpubPathChangedEvent` | OnlyV/ViewModel/MainViewModel.cs:263-269 | the new state is `Navigation.HandleEpubPathChanged` of the old state |
| `Navigation.Dispatch` | OnlyV/ViewModel/MainViewModel.cs:50-158 | the handler wiring is the two event subscriptions at lines 50 and 58 and the three commands at 154-156; a command runs only when its guard allows it; every event keeps both invariants; a guarded window that has left Startup never returns; Startup is left only by the path-changed event, to Scriptures; tooltips matching the page keep matching, and every page change makes them match |
| `NavigationProperties.ToggleSettingsTwice` | OnlyV/ViewModel/MainViewModel.cs:170-184 | two toggles from a page other than Settings return to that page and remember it; with matching tooltips, the remembered page is the only difference |
| `NavigationProperties.NextThenBack` | OnlyV/ViewModel/MainViewModel.cs:191-216 | Next then Back from Scriptures returns to Scriptures with the image index at 0 |
| `NavigationProperties.InitialToolTips` | OnlyV/ViewModel/MainViewModel.cs:62-74 | the constructor's tooltips match its page exactly when it opens on Scriptures |
| `NavigationProperties.RunKeepsGuarded` | OnlyV/ViewModel/MainViewModel.cs:63 | over any sequence of events, the remembered page stays Scriptures or Preview, so it is never Settings; a window that has left Startup never returns to it |
| `NavigationProperties.RunFromInitial` | OnlyV/ViewModel/MainViewModel.cs:62-74 | from construction on, the invariant holds after any events; an existing installation never shows Startup |
| `NavigationProperties.RunKeepsToolTipsFollowing` | OnlyV/ViewModel/MainViewModel.cs:82-99 | once the tooltips match the page, they match after any events |
| `NavigationProperties.StartupHeldUntilPathChanged` | OnlyV/ViewModel/MainViewModel.cs:263-269 | the Startup page is held for as long as no "EPUB path changed" event arrives |
| `NavigationProperties.SettingsHeldWhileBadPath` | OnlyV/ViewModel/MainViewModel.cs:160-168 | the Settings page cannot be left while the EPUB path stays bad |
| `TitleText.Default` | OnlyV.Themes.Common/Specs/OnlyVTitleTextSpec.cs:6-17 | colour "#fbfbff", size 64, Right alignment, Bottom position, drop shadow not shown |
| `TitleText.WithFont` | OnlyV.Themes.Common/Specs/OnlyVTitleTextSpec.cs:19 | the font reads back as set; alignment, position and drop shadow are unchanged |
| `TitleText.WithHorizontalAlignment` | OnlyV.Themes.Common/Specs/OnlyVTitleTextSpec.cs:21 | the alignment reads back as set; the other three are unchanged |
| `TitleText.WithPosition` | OnlyV.Themes.Common/Specs/OnlyVTitleTextSpec.cs:23 | the position reads back as set; the other three are unchanged |
| `TitleText.WithDropShadow` | OnlyV.Themes.Common/Specs/OnlyVTitleTextSpec.cs:25 | the drop shadow reads back as set; the other three are unchanged |
| `TitleText.SettersIdempotent` | OnlyV.Themes.Common/Specs/OnlyVTitleTextSpec.cs:19-25 | setting a property to its current value changes nothing |
| `TitleText.SettersCommute` | OnlyV.Themes.Common/Specs/OnlyVTitleTextSpec.cs:19-25 | setting two different properties gives the same result in either order |
| `TitleText.SettersReachEverySpec` | OnlyV.Themes.Common/Specs/OnlyVTitleTextSpec.cs:6-25 | every spec is the default with its four properties set |

## Left out

- `GetVersionData` and `LaunchReleasePage` (OnlyV/ViewModel/MainViewModel.cs:271-296): a delayed background task, a network version check and a process launch. `ShowNewVersionButton` and the snackbar message go with them.
- `LaunchHelpPage` (OnlyV/ViewModel/MainViewModel.cs:298-301): a process launch.
- `IsBadEpubPath` and `IsNewInstallation` (OnlyV/ViewModel/MainViewModel.cs:252-261): file-system queries. They are modelled only as the boolean inputs they return, and a null path counts the same as an empty one.
- `InitImagesService` and `_imagesService.Init` (OnlyV/ViewModel/MainViewModel.cs:218-224): a call into the images service, whose code is not part of this model. `PreparePreviewPage` keeps only its effect on the image index.
- `PreparePreviewPage`, `Navigation.Next`, `NavigationProperties.NextThenBack`: the images service's `Init` is assumed to return normally. Its failure path is not modelled. If it threw, the image index would stay null. `OnNext` would then stay on Scriptures, and later "EPUB changed" events would skip re-preparing the preview.
- The image index is the `ImageIndex` property of the preview page's view model, another object. Only this view model's writes to it are modelled. Other writers, such as the preview page's own slide navigation (code not part of this model), are not modelled. `Navigation.Run` and `Navigation.HandleEpubChanged` therefore see the index change only through the events listed here.
- `PreparePreviewPage` also copies the scripture text into the preview page's caption (OnlyV/ViewModel/MainViewModel.cs:243). `ScriptureText` belongs to the scriptures page, which is not part of this model, so the caption is not modelled.
- `_scripturesViewModel.HandleEpubChanged()` inside the "EPUB changed" handler: the scriptures page is not part of this model.
- The busy indicator (`GetBusy`), `RaisePropertyChanged` notifications, the `RelayCommand` objects, the snackbar queue and the `AlwaysOnTop` forwarding: these are user-interface plumbing. `Navigation.Dispatch` captures what the commands contribute to navigation: a handler runs only when its guard allows it.
- The event subscriptions themselves (OnlyV/ViewModel/MainViewModel.cs:50, 57-58), and the identity of the page view-model objects: a page is the enumeration value `Navigation.Page`.
- The font and drop-shadow spec types have more fields than the title spec sets. Only colour, size and "show" are modelled, because the other fields' definitions are not part of this model. The font size is a whole number here.
- The alignment and position enumerations are defined outside these files. The model uses Left/Center/Right and Top/Middle/Bottom.
- Text pagination, slide compositing and image caching: OnlyV's slide rendering lives in other parts of the program and is not modelled here.
