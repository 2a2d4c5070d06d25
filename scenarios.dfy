/**
 * Callers of the settings operations: the round trips and start-up cases that
 * follow from the operations' contracts alone.
 */
module Scenarios {
  import opened Wrappers
  import opened I18n
  import opened Preferences
  import opened App

  /** saveSettings then loadSettings gives back the same settings, and the page shows them. */
  method SaveThenLoad(p: Page)
    requires p.Valid()
    modifies p
    ensures p.Valid() && p.Reflects()
    ensures p.settings == old(p.settings)
    ensures p.store == old(p.store)[StoreKey := old(p.settings)]
    ensures p.writes == old(p.writes) + [old(p.settings)]
  {
    p.SaveSettings();
    p.LoadSettings();
  }

  /** After resetSettings the record stays absent: loading finds nothing and changes nothing. */
  method ResetThenLoad(p: Page)
    requires p.Valid()
    modifies p
    ensures p.Valid() && p.Reflects()
    ensures p.settings == Defaults() && StoreKey !in p.store
    ensures p.writes == old(p.writes)
  {
    p.ResetSettings();
    p.LoadSettings();
  }

  /** Any theme and then green, on a body without theme classes, restores the body classes. */
  method ThemeThenGreen(p: Page, t: string)
    requires p.Valid() && t in p.themes
    requires ThemeClasses(p.bodyClasses) == {}
    modifies p
    ensures p.Valid()
    ensures p.bodyClasses == old(p.bodyClasses)
    ensures p.settings == old(p.settings).(theme := DefaultTheme)
    ensures p.activeThemes == {DefaultTheme}
    ensures p.writes == old(p.writes) + [old(p.settings).(theme := t), p.settings]
  {
    p.ChangeTheme(t, true);
    p.ChangeTheme(DefaultTheme, true);
    ThemeThenDefault(old(p.bodyClasses), t);
  }

  /** Switching crt off from the defaults changes that one flag and writes the store once. */
  method CrtOffFromDefaults(p: Page)
    requires p.Valid() && p.settings == Defaults() && Crt in p.toggles
    modifies p
    ensures p.Valid()
    ensures p.settings == Settings("es", DefaultTheme, Effects(false, true, true, true))
    ensures p.checked[Crt] == false && Marker(Crt) in p.bodyClasses
    ensures p.writes == old(p.writes) + [p.settings]
    ensures p.store == old(p.store)[StoreKey := p.settings]
  {
    p.ToggleEffect(Crt, Some(false), true);
  }

  /** The four effect checkboxes, all checked as the page is loaded. */
  function AllChecked(): map<Effect, bool>
  {
    map[Crt := true, Scanlines := true, Glitch := true, Grid := true]
  }

  /**
   * Start-up with a stored record: loading applies its language, theme and
   * effects and writes nothing back.
   */
  method StartWithStoredRecord(translations: Table, bodyClasses: set<string>, labels: seq<Label>)
    returns (p: Page)
    ensures p.settings == Settings("en", "amber", Effects(false, true, true, true))
    ensures p.currentLanguage == "en" && p.activeLanguages == {"en"} && p.activeThemes == {"amber"}
    ensures ThemeClasses(p.bodyClasses) == {ThemeClass("amber")}
    ensures Marker(Crt) in p.bodyClasses
    ensures Marker(Scanlines) !in p.bodyClasses && Marker(Glitch) !in p.bodyClasses && Marker(Grid) !in p.bodyClasses
    ensures p.writes == []
  {
    var stored := Settings("en", "amber", Effects(false, true, true, true));
    p := new Page(translations, {"es", "en"}, {DefaultTheme, "amber"}, AllChecked(), bodyClasses,
                  {}, {}, labels, map[StoreKey := stored]);
    p.LoadSettings();
  }

  /** Start-up without a stored record: loadSettings applies nothing, the initial literal stays. */
  method StartWithoutStoredRecord(translations: Table, bodyClasses: set<string>, labels: seq<Label>)
    returns (p: Page)
    ensures p.settings == Defaults() && p.currentLanguage == "es"
    ensures p.bodyClasses == bodyClasses && p.labels == labels && p.renders == []
    ensures StoreKey !in p.store && p.writes == []
  {
    p := new Page(translations, {"es", "en"}, {DefaultTheme, "amber"}, AllChecked(), bodyClasses,
                  {}, {}, labels, map[]);
    p.LoadSettings();
  }
}
