/** providers/theme-provider.tsx: the light/dark theme. The mount effect picks the stored theme
    or the default (resolving "system" through the colour-scheme preference), `toggleTheme`
    flips and persists it, and `applyTheme` mirrors it on the document root's "dark" class.
    The media-query answer is a parameter; the persisted storage is a map. */
module ThemeProvider {
  import opened Wrappers

  const ThemeKey: string := "theme"
  const Light: string := "light"
  const Dark: string := "dark"
  const System: string := "system"
  const OutsideProvider: string := "useTheme must be used within ThemeProvider"

  /** Which root attribute carries the theme. */
  datatype Attribute = ClassAttribute | DataThemeAttribute

  /** The `defaultTheme` prop's three values. */
  datatype DefaultTheme = DefaultLight | DefaultDark | DefaultSystem {
    function Name(): (n: string)
      ensures n in {Light, Dark, System}
    {
      match this
      case DefaultLight => Light
      case DefaultDark => Dark
      case DefaultSystem => System
    }
  }

  /** The provider's props. */
  datatype Config = Config(attribute: Attribute, defaultTheme: DefaultTheme, enableSystem: bool)

  /** The props' defaults: class attribute, "system", system resolution on. */
  const Defaults: Config := Config(ClassAttribute, DefaultSystem, true)

  /** `theme` is null until the mount effect sets it; `rootDark` is whether the document root
      carries the "dark" class. */
  datatype ThemeState = ThemeState(mounted: bool, theme: Option<string>, storage: map<string, string>, rootDark: bool)

  /** What consumers read from the context: the theme and whether `toggleTheme` is the
      provider's (false for the default no-op). */
  datatype ContextValue = ContextValue(theme: Option<string>, liveToggle: bool)

  /** The context's default value: no theme and a toggle that does nothing. */
  const DefaultContext: ContextValue := ContextValue(None, false)

  /** The theme the mount effect chooses: the stored value when truthy, else the default, and
      "system" resolved to the preference when system resolution is on. */
  function InitialTheme(cfg: Config, stored: Option<string>, prefersDark: bool): (t: string)
    ensures t != ""
    ensures Truthy(stored) && stored.value != System ==> t == stored.value
    ensures !Truthy(stored) && cfg.defaultTheme != DefaultSystem ==> t == cfg.defaultTheme.Name()
    ensures t == System <==> !cfg.enableSystem && (if Truthy(stored) then stored.value else cfg.defaultTheme.Name()) == System
    ensures cfg.enableSystem && (if Truthy(stored) then stored.value else cfg.defaultTheme.Name()) == System ==>
              t == (if prefersDark then Dark else Light)
  {
    var initial := if Truthy(stored) then stored.value else cfg.defaultTheme.Name();
    if initial == System && cfg.enableSystem then (if prefersDark then Dark else Light) else initial
  }

  /** `applyTheme`: with the class attribute the root is dark exactly for "dark"; with the
      data-theme attribute nothing changes. */
  function ApplyTheme(cfg: Config, rootDark: bool, t: string): (dark: bool)
    ensures cfg.attribute == ClassAttribute ==> (dark <==> t == Dark)
    ensures cfg.attribute == DataThemeAttribute ==> dark == rootDark
  {
    if cfg.attribute == ClassAttribute then t == Dark else rootDark
  }

  /** The theme `toggleTheme` switches to: "dark" becomes "light", anything else "dark". */
  function Toggled(t: string): (n: string)
    ensures n in {Light, Dark}
    ensures n == Light <==> t == Dark
  {
    if t == Dark then Light else Dark
  }

  /** The stored value the mount effect reads (`localStorage.getItem("theme")`). */
  function Stored(storage: map<string, string>): (v: Option<string>)
    ensures v.Some? <==> ThemeKey in storage
    ensures v.Some? ==> v.value == storage[ThemeKey]
  {
    if ThemeKey in storage then Some(storage[ThemeKey]) else None
  }

  /** The mount effect. */
  function MountStep(cfg: Config, s: ThemeState, prefersDark: bool): (r: ThemeState)
    ensures r.mounted && r.storage == s.storage
    ensures r.theme == Some(InitialTheme(cfg, Stored(s.storage), prefersDark))
    ensures r.rootDark == ApplyTheme(cfg, s.rootDark, r.theme.value)
  {
    var t := InitialTheme(cfg, Stored(s.storage), prefersDark);
    ThemeState(true, Some(t), s.storage, ApplyTheme(cfg, s.rootDark, t))
  }

  /** `toggleTheme`: nothing without a theme; otherwise flip, persist and apply. */
  function ToggleStep(cfg: Config, s: ThemeState): (r: ThemeState)
    ensures !Truthy(s.theme) ==> r == s
    ensures Truthy(s.theme) ==>
              && r.theme == Some(Toggled(s.theme.value))
              && r.storage == s.storage[ThemeKey := Toggled(s.theme.value)]
              && r.rootDark == ApplyTheme(cfg, s.rootDark, Toggled(s.theme.value))
              && r.mounted == s.mounted
  {
    if !Truthy(s.theme) then s
    else
      var n := Toggled(s.theme.value);
      s.(theme := Some(n), storage := s.storage[ThemeKey := n], rootDark := ApplyTheme(cfg, s.rootDark, n))
  }

  /** The context value consumers see: before mount no provider is rendered, so they get the
      default. */
  function ContextOf(s: ThemeState): (c: ContextValue)
    ensures !s.mounted ==> c == DefaultContext && c.theme.None? && !c.liveToggle
    ensures s.mounted ==> c.theme == s.theme && c.liveToggle
  {
    if s.mounted then ContextValue(s.theme, true) else DefaultContext
  }

  /** A consumer's call of the toggle it read from the context. */
  function ConsumerToggleStep(cfg: Config, s: ThemeState): (r: ThemeState)
    ensures !ContextOf(s).liveToggle ==> r == s
    ensures ContextOf(s).liveToggle ==> r == ToggleStep(cfg, s)
  {
    if s.mounted then ToggleStep(cfg, s) else s
  }

  /** `React.useContext(ThemeContext)`: the nearest provider's value, else the default. */
  function UseContext(provided: Option<ContextValue>): (c: Option<ContextValue>)
    ensures c.Some?
    ensures provided.Some? ==> c == provided
    ensures provided.None? ==> c == Some(DefaultContext)
  {
    Some(provided.GetOr(DefaultContext))
  }

  /** `useTheme`: the context value, or the throw when there is none. */
  function UseTheme(context: Option<ContextValue>): (r: Outcome<ContextValue>)
    ensures context.None? <==> r == Failed(OutsideProvider)
    ensures context.Some? ==> r == Done(context.value)
  {
    match context
    case None => Failed(OutsideProvider)
    case Some(c) => Done(c)
  }

  /** The throw in `useTheme` cannot happen: inside or outside a provider the context has a
      value. */
  lemma UseThemeNeverThrows(provided: Option<ContextValue>)
    ensures UseTheme(UseContext(provided)).Done?
    ensures provided.None? ==> UseTheme(UseContext(provided)) == Done(DefaultContext)
  {
  }

  /** Toggling a mounted light or dark theme twice restores it, persisted and applied. */
  lemma ToggleTwice(cfg: Config, s: ThemeState)
    requires s.theme == Some(Light) || s.theme == Some(Dark)
    ensures var r := ToggleStep(cfg, ToggleStep(cfg, s));
            && r.theme == s.theme
            && r.storage == s.storage[ThemeKey := s.theme.value]
            && (cfg.attribute == ClassAttribute ==> (r.rootDark <==> s.theme == Some(Dark)))
  {
  }

  /** An unresolved "system" (or any other stored value) toggles to "dark". */
  lemma ToggleFromOther(cfg: Config, s: ThemeState)
    requires Truthy(s.theme) && s.theme.value != Dark && s.theme.value != Light
    ensures ToggleStep(cfg, s).theme == Some(Dark)
  {
  }

  /** A toggled theme survives a restart: the next mount reads it back, whatever the
      colour-scheme preference. */
  lemma ToggleSurvivesRestart(cfg: Config, s: ThemeState, prefersDark: bool)
    requires Truthy(s.theme)
    ensures var r := ToggleStep(cfg, s);
            MountStep(cfg, r.(mounted := false), prefersDark).theme == r.theme
  {
    var n := Toggled(s.theme.value);
    assert Stored(s.storage[ThemeKey := n]) == Some(n);
  }

  /** Without system resolution, a "system" default with nothing stored stays unresolved. */
  lemma UnresolvedSystem(attribute: Attribute, s: ThemeState, prefersDark: bool)
    requires ThemeKey !in s.storage
    ensures MountStep(Config(attribute, DefaultSystem, false), s, prefersDark).theme == Some(System)
    ensures attribute == ClassAttribute ==> !MountStep(Config(attribute, DefaultSystem, false), s, prefersDark).rootDark
  {
  }

  /** The class attribute mirrors the theme after the mount effect and after every toggle. */
  predicate RootMirrors(cfg: Config, s: ThemeState) {
    cfg.attribute == ClassAttribute && s.mounted && s.theme.Some? ==> (s.rootDark <==> s.theme.value == Dark)
  }

  lemma RootMirrorsPreserved(cfg: Config, s: ThemeState, prefersDark: bool)
    requires RootMirrors(cfg, s)
    ensures RootMirrors(cfg, MountStep(cfg, s, prefersDark))
    ensures RootMirrors(cfg, ToggleStep(cfg, s))
    ensures RootMirrors(cfg, ConsumerToggleStep(cfg, s))
  {
  }

  /** The provider component, with its props fixed at construction. */
  class Provider {
    const cfg: Config
    var mounted: bool
    var theme: Option<string>
    var storage: map<string, string>
    var rootDark: bool

    function View(): ThemeState
      reads this
    {
      ThemeState(mounted, theme, storage, rootDark)
    }

    /** Not mounted, no theme; `storage` and `rootDark` are what the browser holds. */
    constructor (cfg: Config, storage: map<string, string>, rootDark: bool)
      ensures this.cfg == cfg
      ensures View() == ThemeState(false, None, storage, rootDark)
    {
      this.cfg := cfg;
      mounted := false;
      theme := None;
      this.storage := storage;
      this.rootDark := rootDark;
    }

    method Mount(prefersDark: bool)
      modifies this
      ensures View() == MountStep(cfg, old(View()), prefersDark)
    {
      mounted := true;
      var stored := if ThemeKey in storage then Some(storage[ThemeKey]) else None;
      var initial := if Truthy(stored) then stored.value else cfg.defaultTheme.Name();
      if initial == System && cfg.enableSystem {
        initial := if prefersDark then Dark else Light;
      }
      theme := Some(initial);
      Apply(initial);
    }

    method Apply(t: string)
      modifies this
      ensures View() == old(View()).(rootDark := ApplyTheme(cfg, old(rootDark), t))
    {
      if cfg.attribute == ClassAttribute {
        rootDark := t == Dark;
      }
    }

    method Toggle()
      modifies this
      ensures View() == ToggleStep(cfg, old(View()))
    {
      if !Truthy(theme) {
        return;
      }
      var n := if theme.value == Dark then Light else Dark;
      theme := Some(n);
      storage := storage[ThemeKey := n];
      Apply(n);
    }

    /** The toggle a consumer reads from the context: the provider's once mounted, the default
        no-op before. */
    method ConsumerToggle()
      modifies this
      ensures View() == ConsumerToggleStep(cfg, old(View()))
    {
      if mounted {
        Toggle();
      }
    }
  }
}
