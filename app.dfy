/**
 * The settings lifecycle of app.js: the globals `settings` and
 * `currentLanguage`, the DOM state the settings code updates (body classes,
 * checkboxes, active buttons, translatable texts), the re-render calls and
 * the browser store, with the operations that change them in place.
 */
module App {
  import opened Wrappers
  import opened I18n
  import opened Preferences

  /** The dynamic lists that a language switch re-renders. */
  datatype View = EntryList | PersonnelList | IncidentList

  /** One re-render pass: renderSCPList, renderPersonnel, renderIncidents, in that order. */
  function RenderPass(): seq<View>
  {
    [EntryList, PersonnelList, IncidentList]
  }

  class Page {
    /** `translations`, loaded once before any settings code runs. */
    const translations: Table
    /** The codes that have a `lang-<code>` button. */
    const languages: set<string>
    /** The themes that have a `theme-<name>` button. */
    const themes: set<string>
    /** The effects that have a `toggle-<name>` checkbox. */
    const toggles: set<Effect>

    var settings: Settings
    var currentLanguage: string
    /** The class tokens of the document body. */
    var bodyClasses: set<string>
    /** The checked state of each effect checkbox that exists. */
    var checked: map<Effect, bool>
    /** The codes whose language button carries the 'active' class. */
    var activeLanguages: set<string>
    /** The themes whose theme button carries the 'active' class. */
    var activeThemes: set<string>
    /** The data-i18n elements, in document order. */
    var labels: seq<Label>
    /** The re-render calls made so far. */
    var renders: seq<View>
    /** localStorage; JSON encoding is taken as an exact round trip. */
    var store: map<string, Settings>
    /** Every value written to the store, oldest first. */
    var writes: seq<Settings>

    /** Settings whose language and theme each have a button on the page. */
    predicate Supported(s: Settings)
    {
      s.language in languages && s.theme in themes
    }

    /** What holds at every step, even between loading a record and applying it. */
    ghost predicate Sound()
      reads this
    {
      && Supported(Defaults())
      && Supported(settings)
      && (StoreKey in store ==> Supported(store[StoreKey]))
      && checked.Keys == toggles
    }

    /** Between operations: the current language mirrors `settings.language`. */
    ghost predicate Valid()
      reads this
    {
      Sound() && currentLanguage == settings.language
    }

    /** The page shows exactly what `settings` says. */
    ghost predicate Reflects()
      reads this
    {
      && currentLanguage == settings.language
      && activeLanguages == {settings.language}
      && activeThemes == {settings.theme}
      && ThemeClasses(bodyClasses) == ThemeMarkers(settings.theme)
      && (forall e :: e in checked ==> checked[e] == settings.effects.Get(e))
      && (forall e :: e in toggles ==> (Marker(e) in bodyClasses <==> !settings.effects.Get(e)))
    }

    /** The page as loaded, before loadSettings runs: `settings` holds its initial literal. */
    constructor (translations: Table, languages: set<string>, themes: set<string>,
                 checked: map<Effect, bool>, bodyClasses: set<string>,
                 activeLanguages: set<string>, activeThemes: set<string>,
                 labels: seq<Label>, store: map<string, Settings>)
      requires "es" in languages && DefaultTheme in themes
      requires StoreKey in store ==> store[StoreKey].language in languages && store[StoreKey].theme in themes
      ensures Valid()
      ensures settings == Defaults() && currentLanguage == "es"
      ensures this.translations == translations && this.languages == languages && this.themes == themes
      ensures this.toggles == checked.Keys && this.checked == checked && this.bodyClasses == bodyClasses
      ensures this.activeLanguages == activeLanguages && this.activeThemes == activeThemes
      ensures this.labels == labels && this.store == store
      ensures renders == [] && writes == []
    {
      this.translations := translations;
      this.languages := languages;
      this.themes := themes;
      this.toggles := checked.Keys;
      this.checked := checked;
      this.bodyClasses := bodyClasses;
      this.activeLanguages := activeLanguages;
      this.activeThemes := activeThemes;
      this.labels := labels;
      this.store := store;
      settings := Defaults();
      currentLanguage := "es";
      renders := [];
      writes := [];
    }

    /** saveSettings: the current settings overwrite the stored record. */
    method SaveSettings()
      requires Valid()
      modifies this`store, this`writes
      ensures Valid()
      ensures store == old(store)[StoreKey := settings]
      ensures writes == old(writes) + [settings]
    {
      store := store[StoreKey := settings];
      writes := writes + [settings];
    }

    /** changeLanguage(lang, save). */
    method ChangeLanguage(lang: string, save: bool)
      requires Sound() && lang in languages
      modifies this`currentLanguage, this`settings, this`activeLanguages, this`labels,
               this`renders, this`store, this`writes
      ensures Valid()
      ensures currentLanguage == lang && settings == old(settings).(language := lang)
      ensures activeLanguages == {lang}
      ensures |labels| == |old(labels)|
      ensures forall i :: 0 <= i < |labels| ==> labels[i] == Retranslated(old(labels)[i], translations, lang)
      ensures renders == old(renders) + RenderPass()
      ensures store == if save then old(store)[StoreKey := settings] else old(store)
      ensures writes == old(writes) + if save then [settings] else []
    {
      currentLanguage := lang;
      settings := settings.(language := lang);
      activeLanguages := {lang};
      var ls := labels;
      for i := 0 to |ls|
        modifies {}
        invariant |ls| == |labels|
        invariant forall j :: 0 <= j < i ==> ls[j] == Retranslated(labels[j], translations, lang)
        invariant forall j :: i <= j < |ls| ==> ls[j] == labels[j]
      {
        var t := GetTranslation(translations, currentLanguage, ls[i].key);
        if Truthy(t) {
          ls := ls[i := Label(ls[i].key, Display(t.value))];
        }
      }
      labels := ls;
      renders := renders + RenderPass();
      if save {
        SaveSettings();
      }
    }

    /** changeTheme(theme, save). */
    method ChangeTheme(theme: string, save: bool)
      requires Valid() && theme in themes
      modifies this`settings, this`activeThemes, this`bodyClasses, this`store, this`writes
      ensures Valid()
      ensures settings == old(settings).(theme := theme)
      ensures activeThemes == {theme}
      ensures bodyClasses == ThemeApplied(old(bodyClasses), theme)
      ensures store == if save then old(store)[StoreKey := settings] else old(store)
      ensures writes == old(writes) + if save then [settings] else []
    {
      settings := settings.(theme := theme);
      activeThemes := {theme};
      bodyClasses := set c | c in bodyClasses && !IsThemeClass(c);
      if theme != DefaultTheme {
        bodyClasses := bodyClasses + {ThemeClass(theme)};
      }
      if save {
        SaveSettings();
      }
    }

    /** toggleEffect(effect, state, save); `None` is the default `state = null`. */
    method ToggleEffect(effect: Effect, state: Option<bool>, save: bool)
      requires Valid()
      modifies this`checked, this`settings, this`bodyClasses, this`store, this`writes
      ensures Valid()
      ensures effect in toggles ==>
        && checked == old(checked)[effect := if state.Some? then state.value else old(checked)[effect]]
        && settings == old(settings).(effects := old(settings).effects.With(effect, checked[effect]))
        && bodyClasses == EffectApplied(old(bodyClasses), effect, checked[effect])
      ensures effect !in toggles ==>
        checked == old(checked) && settings == old(settings) && bodyClasses == old(bodyClasses)
      ensures store == if save then old(store)[StoreKey := settings] else old(store)
      ensures writes == old(writes) + if save then [settings] else []
    {
      if effect in checked {
        if state.Some? {
          checked := checked[effect := state.value];
        }
        settings := settings.(effects := settings.effects.With(effect, checked[effect]));
        if checked[effect] {
          bodyClasses := bodyClasses - {Marker(effect)};
        } else {
          bodyClasses := bodyClasses + {Marker(effect)};
        }
      }
      if save {
        SaveSettings();
      }
    }

    /** One line of applySettings: toggleEffect(e, settings.effects[e], false). */
    method ApplyEffect(e: Effect)
      requires Valid()
      modifies this`checked, this`settings, this`bodyClasses, this`store, this`writes
      ensures Valid()
      ensures settings == old(settings) && store == old(store) && writes == old(writes)
      ensures bodyClasses == EffectIfPresent(old(bodyClasses), e, settings.effects, toggles)
      ensures checked == if e in toggles then old(checked)[e := settings.effects.Get(e)] else old(checked)
    {
      ToggleEffect(e, Some(settings.effects.Get(e)), false);
      WithCurrent(old(settings).effects, e);
    }

    /** The last four calls of applySettings: the effects, in their order. */
    method ApplyEffects()
      requires Valid()
      modifies this`checked, this`settings, this`bodyClasses, this`store, this`writes
      ensures Valid()
      ensures settings == old(settings) && store == old(store) && writes == old(writes)
      ensures bodyClasses == EffectsApplied(old(bodyClasses), settings.effects, toggles)
      ensures forall e :: e in checked ==> checked[e] == settings.effects.Get(e)
    {
      ApplyEffect(Crt);
      ApplyEffect(Scanlines);
      ApplyEffect(Glitch);
      ApplyEffect(Grid);
      forall e | e in checked ensures checked[e] == settings.effects.Get(e) {
        match e
        case Crt =>
        case Scanlines =>
        case Glitch =>
        case Grid =>
      }
    }

    /** applySettings: every setter with `save = false`, from the current settings. */
    method ApplySettings()
      requires Sound()
      modifies this`currentLanguage, this`settings, this`activeLanguages, this`labels, this`renders,
               this`activeThemes, this`bodyClasses, this`checked, this`store, this`writes
      ensures Valid() && Reflects()
      ensures settings == old(settings)
      ensures |labels| == |old(labels)|
      ensures forall i :: 0 <= i < |labels| ==> labels[i] == Retranslated(old(labels)[i], translations, settings.language)
      ensures renders == old(renders) + RenderPass()
      ensures forall c :: !IsThemeClass(c) && c !in MarkersOf(toggles) ==> (c in bodyClasses <==> c in old(bodyClasses))
      ensures store == old(store) && writes == old(writes)
    {
      ChangeLanguage(settings.language, false);
      ChangeTheme(settings.theme, false);
      ghost var themed := bodyClasses;
      ApplyEffects();
      EffectsAppliedSpec(themed, settings.effects, toggles);
    }

    /** loadSettings: a stored record replaces `settings` wholesale and is applied. */
    method LoadSettings()
      requires Valid()
      modifies this`currentLanguage, this`settings, this`activeLanguages, this`labels, this`renders,
               this`activeThemes, this`bodyClasses, this`checked, this`store, this`writes
      ensures Valid()
      ensures store == old(store) && writes == old(writes)
      ensures StoreKey !in store ==>
        && settings == old(settings) && currentLanguage == old(currentLanguage)
        && bodyClasses == old(bodyClasses) && checked == old(checked)
        && activeLanguages == old(activeLanguages) && activeThemes == old(activeThemes)
        && labels == old(labels) && renders == old(renders)
      ensures StoreKey in store ==>
        && settings == store[StoreKey] && Reflects()
        && renders == old(renders) + RenderPass()
        && |labels| == |old(labels)|
        && (forall i :: 0 <= i < |labels| ==> labels[i] == Retranslated(old(labels)[i], translations, settings.language))
        && (forall c :: !IsThemeClass(c) && c !in MarkersOf(toggles) ==> (c in bodyClasses <==> c in old(bodyClasses)))
    {
      if StoreKey in store {
        settings := store[StoreKey];
        ApplySettings();
      }
    }

    /** resetSettings: back to the literal defaults, the stored record removed, then applied. */
    method ResetSettings()
      requires Valid()
      modifies this`currentLanguage, this`settings, this`activeLanguages, this`labels, this`renders,
               this`activeThemes, this`bodyClasses, this`checked, this`store, this`writes
      ensures Valid() && Reflects()
      ensures settings == Defaults()
      ensures store == old(store) - {StoreKey} && StoreKey !in store && writes == old(writes)
      ensures currentLanguage == "es" && ThemeClasses(bodyClasses) == {}
      ensures forall e :: e in toggles ==> Marker(e) !in bodyClasses && checked[e]
      ensures forall c :: !IsThemeClass(c) && c !in MarkersOf(toggles) ==> (c in bodyClasses <==> c in old(bodyClasses))
      ensures renders == old(renders) + RenderPass()
      ensures |labels| == |old(labels)|
      ensures forall i :: 0 <= i < |labels| ==> labels[i] == Retranslated(old(labels)[i], translations, "es")
    {
      settings := Defaults();
      store := store - {StoreKey};
      ApplySettings();
    }
  }
}
