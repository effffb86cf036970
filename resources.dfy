/** The localised resource strings the main window uses. Their translated
    texts live in a resource table that is not part of this model, so each
    one is represented by its resource key. The window shows and compares
    the translated texts, so the model assumes those texts are pairwise
    distinct, as the keys are. In particular the texts of BACK and
    SETTINGS_PAGE must differ for the settings button to tell its two roles
    apart. */
module Resources {

  const NEXT_PAGE_PREVIEW: string := "NEXT_PAGE_PREVIEW"
  const PREV_PAGE_SCRIPS: string := "PREV_PAGE_SCRIPS"
  const BACK: string := "BACK"
  const SETTINGS_PAGE: string := "SETTINGS_PAGE"

  /** Material Design icon names shown on the settings button. */
  const BACK_BURGER_ICON: string := "BackBurger"
  const SETTINGS_ICON: string := "Settings"
}
