# SCP Operative System: localisation and settings lifecycle

This project models the part of `app.js` with real state: how a dotted
translation key is resolved against the nested translation table of the
current language, and how the user preferences (`settings`: language, theme
and four visual effects) are changed, applied to the page, saved to and
loaded from the browser store, and reset.

- `wrappers.dfy`: `Option`, where `None` is JavaScript's `undefined`.
- `i18n.dfy` (module `I18n`): the translation tree, `Split` (the `.`-split of
  a key) and `Join`, the walk of `getTranslation` as a recursive function
  (`Step`, `Walk`, `Resolve`) and as the source's loop (`GetTranslation`), and
  what a translatable element shows after a language switch (`Retranslated`).
- `preferences.dfy` (module `Preferences`): the `Settings` record, its literal
  defaults, the store key, and what a theme or an effect does to the set of
  body classes (`ThemeApplied`, `EffectApplied`).
- `app.dfy` (module `App`): class `Page` holds the globals `settings` and
  `currentLanguage`, the DOM state the settings code updates (body classes,
  checkbox states, active language and theme buttons, translatable texts),
  the re-render calls and the store; its methods are the source's functions,
  and each states the whole new state and keeps the invariant `Valid()`
  (`currentLanguage` mirrors `settings.language`, every stored or current
  language and theme has a button).
- `scenarios.dfy` (module `Scenarios`): callers that derive the round trips
  (save then load, reset then load, a theme then green, crt off from the
  defaults) and the two start-up cases from the contracts alone.

Modelling choices:
- The store is a `map<string, Settings>`. `JSON.stringify`/`JSON.parse` of this
  record shape is taken as an exact round trip (RFC 8259), so the map holds the
  record itself. The field `writes` lists every value written, so "writes the
  store iff `save`" and "applying never writes" can be stated.
- Re-rendering (`renderSCPList`, `renderPersonnel`, `renderIncidents`) is
  recorded as the event sequence `RenderPass()` appended to `renders`.
- The lookup result is an `Option<Tree>`: it can be a leaf string or a whole
  sub-object. A translatable element takes the result only when it is truthy:
  not `undefined` and not the empty string. A sub-object is shown as
  `[object Object]`, as `textContent` would show it.
- Class lists are sets of tokens; a theme class is a token that starts with
  `theme-`; the marker of a disabled effect is `no-<name>`.
- A language or theme without its button makes `getElementById(...)` return
  `null` and the source throws (app.js:105, app.js:142); the model makes this
  a precondition (`lang in languages`, `theme in themes`). The same applies
  to a stored record, which the invariant requires to name existing buttons.

Behaviour of the code worth noting:
- With no stored record, `loadSettings` does not run `applySettings`
  (app.js:54-57): the page keeps what the HTML shows and `settings` keeps its
  initial literal (`Scenarios.StartWithoutStoredRecord`).
- A stored record that is not valid JSON makes `JSON.parse` throw into the
  `catch` of `loadData`; the code does no repair to defaults.
- A missing language or theme button is an exception, not a no-op.

## Model

| member | source | states |
|---|---|---|
| I18n.Split | app.js:128 | `key.split('.')`: at least one segment, no segment contains '.', and joining the segments with '.' gives the key back |
| I18n.SplitJoin | app.js:128 | the converse round trip: a key built from dot-free segments splits back into exactly those segments |
| I18n.SplitDotted | app.js:128 | the segments of "p.q" are those of p followed by those of q |
| I18n.JoinAppend | app.js:128 | joining two segment lists' concatenation puts one '.' between the two joins |
| I18n.SplitSingle | app.js:128 | a key without '.' is a single segment |
| I18n.SplitAtFirstDot | app.js:128 | the part before the first '.' is the first segment and the rest is split on its own |
| I18n.GetTranslation | app.js:127-134 | the loop that reassigns `value` segment by segment returns the recursive walk `Resolve` from `translations[currentLanguage]`; it reads no state and changes none |
| I18n.WalkFromNone | app.js:130-132 | once `value` is undefined, every further `value?.[k]` step keeps it undefined, whatever the segments |
| I18n.WalkAppend | app.js:130-132 | walking the segments a then b equals walking b from the result of walking a |
| I18n.WalkStopsAtMissing | app.js:130-133 | if some prefix of the segments is already undefined, the whole lookup returns undefined (no exception) |
| I18n.WalkBelowLeaf | app.js:131 | a segment applied below a string leaf makes the lookup undefined |
| I18n.ResolveUnknownLanguage | app.js:129-133 | a current language with no entry in the table resolves every key to undefined |
| I18n.ResolveDotted | app.js:127-134 | resolving "p.q" is resolving p and then walking q's segments from that result |
| I18n.ResolveBelowLeaf | app.js:127-134 | when "p" resolves to a string leaf, "p.q" resolves to undefined for every q |
| I18n.Retranslated | app.js:108-114 | an element keeps its key; its text changes only when the lookup is truthy, and then it is the looked-up value |
| I18n.RetranslatedIdempotent | app.js:108-114 | re-translating into the same language a second time shows the same texts |
| I18n.RetranslatedUnknownLanguage | app.js:108-114 | under a language missing from the table every element keeps its text |
| Preferences.Effects.With | app.js:162 | `settings.effects[e] = on` sets that one flag and leaves the other three |
| Preferences.WithCurrent | app.js:159-162 | writing an effect's own current value back leaves the record unchanged |
| Preferences.ThemeApplied | app.js:145-148 | after the class edit of changeTheme the only theme class is `theme-<t>`, or none for green; every other class is kept |
| Preferences.EffectApplied | app.js:165-169 | the effect's `no-<name>` class is present exactly when the effect is off; every other class is kept |
| Preferences.MarkerInjective | app.js:166-168 | two effects with the same `no-<name>` class are the same effect |
| Preferences.MarkerNotTheme | app.js:166-168 | no `no-<name>` class is a theme class |
| Preferences.EffectKeepsTheme | app.js:165-169 | setting an effect leaves the theme classes as they were |
| Preferences.EffectIfPresentKeeps | app.js:157-170 | one toggleEffect step keeps the theme classes and every class but its own marker, and sets its marker when the checkbox exists |
| Preferences.EffectsAppliedSpec | app.js:69-72 | after the four effect calls the theme classes are unchanged, each effect with a checkbox has its marker iff it is off, and all other classes are unchanged |
| Preferences.ThemeEffectCommute | app.js:137-170 | a theme change and an effect change touch disjoint classes, so their order does not matter |
| Preferences.ThemeLastWins | app.js:145-148 | two theme changes leave the body as the second alone would: switching theme is a full replace |
| Preferences.ThemeThenDefault | app.js:145-148 | any theme and then green restore a body that had no theme class |
| App.Page.constructor | app.js:5-18 | the page as loaded: `settings` is the initial literal (es, green, all four effects on), `currentLanguage` is 'es', no store write and no re-render yet |
| App.Page.SaveSettings | app.js:76-77 | the current settings are stored under "scpSettings" and nothing else changes |
| App.Page.ChangeLanguage | app.js:99-124 | `currentLanguage` and `settings.language` become lang, only its button is active, each element is re-translated, one re-render pass is recorded, and the store is written iff save |
| App.Page.ChangeTheme | app.js:137-153 | `settings.theme` becomes theme, only its button is active, the body's theme classes are replaced, language and effects are untouched, and the store is written iff save |
| App.Page.ToggleEffect | app.js:156-175 | with a checkbox: a given state sets it, the flag copies the checkbox, the marker follows the flag; without one: settings and classes unchanged; in both cases the store is written iff save |
| App.Page.ApplyEffect | app.js:69-72 | one effect call of applySettings leaves settings and store unchanged and syncs that effect's checkbox and marker with its flag |
| App.Page.ApplyEffects | app.js:69-72 | the four effect calls leave settings and store unchanged, set every checkbox to its flag, and edit the body as the four effects in order |
| App.Page.ApplySettings | app.js:61-73 | applying keeps `settings`, never writes the store, and leaves a page that shows exactly the settings: language, active buttons, theme class, checkboxes and markers; other classes are kept |
| App.Page.LoadSettings | app.js:52-58 | with a stored record, `settings` becomes it wholesale and is applied; without one nothing changes; the store is never written |
| App.Page.ResetSettings | app.js:82-96 | `settings` becomes the literal defaults, the stored record is removed and stays removed, `currentLanguage` is 'es', no theme class and no effect marker of an existing checkbox remains, and every other body class is kept |
| Scenarios.SaveThenLoad | app.js:52-58 | save then load yields the same settings, shown on the page |
| Scenarios.ResetThenLoad | app.js:82-96 | reset then load yields the defaults and the key stays absent |
| Scenarios.ThemeThenGreen | app.js:137-153 | on a body with no theme class, a theme and then green restore the body classes and write the store twice |
| Scenarios.CrtOffFromDefaults | app.js:156-175 | crt off from the defaults changes only that flag, adds `no-crt`, and writes the store once with the new value |
| Scenarios.StartWithStoredRecord | app.js:52-58 | a stored en/amber/crt-off record is applied on load: language en, class theme-amber, only `no-crt` among the markers, no write |
| Scenarios.StartWithoutStoredRecord | app.js:52-58 | with no stored record loading changes nothing: the initial literal stays and nothing is rendered or written |

## Left out

- `loadData` (app.js:21-49): fetching and parsing the data files is I/O; the translation table is a constructor parameter of `Page`.
- A stored value that is not valid JSON, or JSON of another shape: `JSON.parse` throws into `loadData`'s `catch`, or a missing field reaches the setters as `undefined`; the model stores the record itself.
- The log lines of `saveSettings` (app.js:78) and `resetSettings` (app.js:95): `addLog` writes a timestamped DOM entry. The line at app.js:78 throws when the table has no entry for the current language or that entry has no `settings` object (a missing `settingsSaved` only logs `undefined`); the model assumes it does not throw (the store has been written by then).
- Rendering (`renderSCPList`, `renderPersonnel`, `renderIncidents`, `showSCPDetails`, `closeModal`, app.js:228-326): HTML templating; only the three re-render calls are recorded.
- `addLog`, `startSystemLog` (app.js:329-366): clocks, timers and randomness.
- `login`, `guestAccess`, `logout`, `showSection`, `window.onclick` (app.js:186-225, 369-374): UI glue outside the settings lifecycle.
- `localStorage` being unavailable or over quota.
- App.Page.ToggleEffect: only the four known effect names are modelled; a call with another name finds no checkbox in the page and then only saves.
- I18n.Step: indexing a string leaf with a digit or `length` yields a character or a number in JavaScript, and an inherited property name such as `toString` yields a function; the model treats all of these as absent.
- Preferences.ThemeApplied: the source removes `theme-\w+` matches from the raw class string, which splits a hyphenated theme name and can touch tokens that merely contain `theme-`; the model removes whole tokens that start with `theme-`.
- The initial HTML state (which buttons are active, which boxes are checked, the body classes) is a constructor parameter, not modelled.
