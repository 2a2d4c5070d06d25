/**
 * The preference values of app.js (the `settings` record, its literal
 * defaults, the persisted key) and what applying a theme or an effect does
 * to the set of CSS classes on the document body.
 */
module Preferences {

  /** The four visual effects, each with a `toggle-<name>` checkbox. */
  datatype Effect = Crt | Scanlines | Glitch | Grid

  /** The effect's name as used in element ids, class names and the settings record. */
  function Name(e: Effect): string
  {
    match e
    case Crt => "crt"
    case Scanlines => "scanlines"
    case Glitch => "glitch"
    case Grid => "grid"
  }

  /** The body class that marks an effect as switched off. */
  function Marker(e: Effect): string
  {
    "no-" + Name(e)
  }

  /** The markers of the given effects. */
  function MarkersOf(es: set<Effect>): set<string>
  {
    set e | e in es :: Marker(e)
  }

  /** `settings.effects`: one enabled flag per known effect, and no other entry. */
  datatype Effects = Effects(crt: bool, scanlines: bool, glitch: bool, grid: bool)
  {
    function Get(e: Effect): bool
    {
      match e
      case Crt => crt
      case Scanlines => scanlines
      case Glitch => glitch
      case Grid => grid
    }

    /** `effects[e] = on`. */
    function With(e: Effect, on: bool): (r: Effects)
      ensures r.Get(e) == on
      ensures forall f :: f != e ==> r.Get(f) == Get(f)
    {
      match e
      case Crt => this.(crt := on)
      case Scanlines => this.(scanlines := on)
      case Glitch => this.(glitch := on)
      case Grid => this.(grid := on)
    }
  }

  /** The `settings` record. */
  datatype Settings = Settings(language: string, theme: string, effects: Effects)

  /** The one key of the browser store the application uses. */
  const StoreKey: string := "scpSettings"

  /** The theme that carries no body class. */
  const DefaultTheme: string := "green"

  /** The initial value of `settings`, which resetSettings restores literally. */
  function Defaults(): Settings
  {
    Settings("es", DefaultTheme, Effects(true, true, true, true))
  }

  // ---------------------------------------------------------------------------
  // Body classes
  // ---------------------------------------------------------------------------

  /** A class token naming a theme. */
  predicate IsThemeClass(c: string)
  {
    |c| >= 6 && c[..6] == "theme-"
  }

  /** The body class of theme t. */
  function ThemeClass(t: string): string
  {
    "theme-" + t
  }

  /** The theme classes among cs. */
  function ThemeClasses(cs: set<string>): set<string>
  {
    set c | c in cs && IsThemeClass(c)
  }

  /** The theme classes the body must carry when theme t is active. */
  function ThemeMarkers(t: string): set<string>
  {
    if t == DefaultTheme then {} else {ThemeClass(t)}
  }

  /** The body classes after changeTheme(t): every theme class goes, t's class comes unless t is green. */
  function ThemeApplied(cs: set<string>, t: string): (r: set<string>)
    ensures ThemeClasses(r) == ThemeMarkers(t)
    ensures forall c :: !IsThemeClass(c) ==> (c in r <==> c in cs)
  {
    assert IsThemeClass(ThemeClass(t)) by {
      assert ThemeClass(t)[..6] == "theme-";
    }
    (set c | c in cs && !IsThemeClass(c)) + ThemeMarkers(t)
  }

  /** The body classes after an effect is set: its marker is present exactly when it is off. */
  function EffectApplied(cs: set<string>, e: Effect, on: bool): (r: set<string>)
    ensures Marker(e) in r <==> !on
    ensures forall c :: c != Marker(e) ==> (c in r <==> c in cs)
  {
    if on then cs - {Marker(e)} else cs + {Marker(e)}
  }

  /** toggleEffect(e, fx[e], _) on the body: nothing happens when e has no checkbox. */
  function EffectIfPresent(cs: set<string>, e: Effect, fx: Effects, toggles: set<Effect>): set<string>
  {
    if e in toggles then EffectApplied(cs, e, fx.Get(e)) else cs
  }

  /** The four toggleEffect calls of applySettings, in their order, on the body. */
  function EffectsApplied(cs: set<string>, fx: Effects, toggles: set<Effect>): set<string>
  {
    var a := EffectIfPresent(cs, Crt, fx, toggles);
    var b := EffectIfPresent(a, Scanlines, fx, toggles);
    var c := EffectIfPresent(b, Glitch, fx, toggles);
    EffectIfPresent(c, Grid, fx, toggles)
  }

  /** Distinct effects have distinct markers. */
  lemma MarkerInjective(e: Effect, f: Effect)
    requires Marker(e) == Marker(f)
    ensures e == f
  {
  }

  /** No effect marker is a theme class. */
  lemma MarkerNotTheme(e: Effect)
    ensures !IsThemeClass(Marker(e))
  {
    assert Marker(e)[0] == 'n';
  }

  /** Setting an effect leaves the theme classes alone. */
  lemma EffectKeepsTheme(cs: set<string>, e: Effect, on: bool)
    ensures ThemeClasses(EffectApplied(cs, e, on)) == ThemeClasses(cs)
  {
    MarkerNotTheme(e);
  }

  /** One effect step keeps the theme classes and every class but the effect's own marker. */
  lemma EffectIfPresentKeeps(cs: set<string>, e: Effect, fx: Effects, toggles: set<Effect>)
    ensures ThemeClasses(EffectIfPresent(cs, e, fx, toggles)) == ThemeClasses(cs)
    ensures forall c :: (c != Marker(e) || e !in toggles) ==> (c in EffectIfPresent(cs, e, fx, toggles) <==> c in cs)
    ensures e in toggles ==> (Marker(e) in EffectIfPresent(cs, e, fx, toggles) <==> !fx.Get(e))
  {
    EffectKeepsTheme(cs, e, fx.Get(e));
  }

  /**
   * Applying the effects leaves the theme classes, marks exactly the disabled
   * effects that have a checkbox, and leaves every other class as it was.
   */
  lemma EffectsAppliedSpec(cs: set<string>, fx: Effects, toggles: set<Effect>)
    ensures ThemeClasses(EffectsApplied(cs, fx, toggles)) == ThemeClasses(cs)
    ensures forall e :: e in toggles ==> (Marker(e) in EffectsApplied(cs, fx, toggles) <==> !fx.Get(e))
    ensures forall c :: c !in MarkersOf(toggles) ==> (c in EffectsApplied(cs, fx, toggles) <==> c in cs)
  {
    var a := EffectIfPresent(cs, Crt, fx, toggles);
    var b := EffectIfPresent(a, Scanlines, fx, toggles);
    var c := EffectIfPresent(b, Glitch, fx, toggles);
    var d := EffectIfPresent(c, Grid, fx, toggles);
    EffectIfPresentKeeps(cs, Crt, fx, toggles);
    EffectIfPresentKeeps(a, Scanlines, fx, toggles);
    EffectIfPresentKeeps(b, Glitch, fx, toggles);
    EffectIfPresentKeeps(c, Grid, fx, toggles);
    forall e | e in toggles ensures Marker(e) in d <==> !fx.Get(e) {
      forall f | f != e ensures Marker(e) != Marker(f) {
        if Marker(e) == Marker(f) {
          MarkerInjective(e, f);
        }
      }
    }
    forall x | x !in MarkersOf(toggles) ensures x in d <==> x in cs {
      forall f | f in toggles ensures x != Marker(f) {
        assert Marker(f) in MarkersOf(toggles);
      }
    }
  }

  /** Themes and effects touch disjoint classes, so their order does not matter. */
  lemma ThemeEffectCommute(cs: set<string>, t: string, e: Effect, on: bool)
    ensures ThemeApplied(EffectApplied(cs, e, on), t) == EffectApplied(ThemeApplied(cs, t), e, on)
  {
    MarkerNotTheme(e);
    var l := ThemeApplied(EffectApplied(cs, e, on), t);
    var r := EffectApplied(ThemeApplied(cs, t), e, on);
    forall c ensures c in l <==> c in r {
      if IsThemeClass(c) {
        assert c in l <==> c in ThemeClasses(l);
        assert c in r <==> c in ThemeClasses(r);
        EffectKeepsTheme(ThemeApplied(cs, t), e, on);
      }
    }
  }

  /** Switching theme is a full replace: only the last theme applied is visible. */
  lemma ThemeLastWins(cs: set<string>, a: string, b: string)
    ensures ThemeApplied(ThemeApplied(cs, a), b) == ThemeApplied(cs, b)
  {
  }

  /** Any theme and then green restores a body that had no theme class. */
  lemma ThemeThenDefault(cs: set<string>, a: string)
    requires ThemeClasses(cs) == {}
    ensures ThemeApplied(ThemeApplied(cs, a), DefaultTheme) == cs
  {
  }

  /** Setting an effect that is already in its state changes nothing in the record. */
  lemma WithCurrent(fx: Effects, e: Effect)
    ensures fx.With(e, fx.Get(e)) == fx
  {
  }
}
