/** Properties of the main window's navigation that relate several steps. */
module NavigationProperties {

  import opened Wrappers
  import opened Navigation

  /** Opening and then closing the settings page returns to the page it
      was opened from, and that page is the one remembered. When the
      tooltips matched the page before, the only trace left is the
      remembered page. */
  lemma ToggleSettingsTwice(s: NavState)
    requires s.currentPage != Settings
    ensures ToggleSettings(ToggleSettings(s)).currentPage == s.currentPage
    ensures ToggleSettings(ToggleSettings(s)).preSettingsPage == s.currentPage
    ensures ToolTipsFollow(s) ==> ToggleSettings(ToggleSettings(s)) == s.(preSettingsPage := s.currentPage)
  {
  }

  /** Going to the preview and back lands on the scriptures page with the
      preview left at its first image. */
  lemma NextThenBack(s: NavState)
    requires s.currentPage == Scriptures
    ensures Back(Next(s)).currentPage == Scriptures
    ensures Back(Next(s)).imageIndex == Some(0)
    ensures ToolTipsFollow(s) ==> Back(Next(s)) == s.(imageIndex := Some(0))
  {
  }

  /** The constructor's tooltips match its page only when it opens on the
      scriptures page. On the startup page the next-page tooltip is set
      although that page leads nowhere. On the settings page the
      previous-page tooltip is missing. */
  lemma InitialToolTips(newInstallation: bool, badEpubPath: bool, imageIndex: Option<int>)
    ensures ToolTipsFollow(Initial(newInstallation, badEpubPath, imageIndex))
        <==> InitialPage(newInstallation, badEpubPath) == Scriptures
  {
  }

  /** Whatever events arrive, the remembered page stays a page settings can
      be opened from. Once the window has left the startup page, it never
      returns to it. */
  lemma {:induction false} RunKeepsGuarded(s: NavState, steps: seq<(Event, Inputs)>)
    requires Guarded(s)
    ensures Guarded(Run(s, steps))
    ensures Valid(Run(s, steps))
    ensures s.currentPage != Startup ==> Run(s, steps).currentPage != Startup
    decreases |steps|
  {
    if steps != [] {
      RunKeepsGuarded(Dispatch(s, steps[0].0, steps[0].1), steps[1..]);
    }
  }

  /** From the moment it was built, the window keeps its invariants; an
      existing installation never shows the startup page. */
  lemma RunFromInitial(newInstallation: bool, badEpubPath: bool, imageIndex: Option<int>, steps: seq<(Event, Inputs)>)
    ensures Guarded(Run(Initial(newInstallation, badEpubPath, imageIndex), steps))
    ensures !newInstallation ==> Run(Initial(newInstallation, badEpubPath, imageIndex), steps).currentPage != Startup
  {
    RunKeepsGuarded(Initial(newInstallation, badEpubPath, imageIndex), steps);
  }

  /** Once the tooltips match the page, every later event keeps them
      matching. */
  lemma {:induction false} RunKeepsToolTipsFollowing(s: NavState, steps: seq<(Event, Inputs)>)
    requires ToolTipsFollow(s)
    ensures ToolTipsFollow(Run(s, steps))
    decreases |steps|
  {
    if steps != [] {
      RunKeepsToolTipsFollowing(Dispatch(s, steps[0].0, steps[0].1), steps[1..]);
    }
  }

  /** True when none of the steps is an "EPUB path changed" event. */
  predicate NoPathChange(steps: seq<(Event, Inputs)>) {
    forall i :: 0 <= i < |steps| ==> steps[i].0 != EpubPathChanged
  }

  /** A new installation stays on the startup page until an EPUB path is
      set: no command can leave that page. */
  lemma {:induction false} StartupHeldUntilPathChanged(s: NavState, steps: seq<(Event, Inputs)>)
    requires s.currentPage == Startup
    requires NoPathChange(steps)
    ensures Run(s, steps).currentPage == Startup
    decreases |steps|
  {
    if steps != [] {
      assert steps[0].0 != EpubPathChanged;
      StartupHeldUntilPathChanged(Dispatch(s, steps[0].0, steps[0].1), steps[1..]);
    }
  }

  /** True when the EPUB path is bad at every step. */
  predicate PathStaysBad(steps: seq<(Event, Inputs)>) {
    forall i :: 0 <= i < |steps| ==> steps[i].1.badEpubPath
  }

  /** While the EPUB path stays bad, the settings page cannot be left. */
  lemma {:induction false} SettingsHeldWhileBadPath(s: NavState, steps: seq<(Event, Inputs)>)
    requires s.currentPage == Settings
    requires PathStaysBad(steps)
    ensures Run(s, steps).currentPage == Settings
    decreases |steps|
  {
    if steps != [] {
      assert steps[0].1.badEpubPath;
      SettingsHeldWhileBadPath(Dispatch(s, steps[0].0, steps[0].1), steps[1..]);
    }
  }
}
