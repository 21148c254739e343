/** The theme store: the chosen theme (light, dark or following the
    system), the theme actually shown, and whether the page carries the
    `dark` class. The system preference is an input. */
module ThemeStore {
  import opened Wrappers
  import opened ClientTypes
  import Storage

  datatype Mode = LightMode | DarkMode

  /** The system preference; `None` when there is no window to ask, in
      which case it is light. */
  function SystemTheme(prefersDark: Option<bool>): (m: Mode)
    ensures m == DarkMode <==> prefersDark == Some(true)
  {
    if prefersDark == Some(true) then DarkMode else LightMode
  }

  /** The theme shown for a choice: the choice itself, unless it is to
      follow the system. */
  function Effective(t: Theme, system: Mode): (m: Mode)
    ensures t == Light ==> m == LightMode
    ensures t == Dark ==> m == DarkMode
    ensures t == Auto ==> m == system
  {
    match t
    case Light => LightMode
    case Dark => DarkMode
    case Auto => system
  }

  datatype ThemeState = ThemeState(theme: Theme, effectiveTheme: Mode, darkClass: bool)

  /** The store agrees with the system preference and the page agrees with
      the store. */
  predicate Consistent(st: ThemeState, system: Mode) {
    st.effectiveTheme == Effective(st.theme, system) && st.darkClass == (st.effectiveTheme == DarkMode)
  }

  function Showing(t: Theme, system: Mode): ThemeState {
    var m := Effective(t, system);
    ThemeState(t, m, m == DarkMode)
  }

  /** The store starts from the stored settings' theme. */
  function Init(ls: Storage.LocalStore, system: Mode): (st: ThemeState)
    ensures st.theme == Storage.GetSettings(ls).theme
    ensures Consistent(st, system)
  {
    Showing(Storage.GetSettings(ls).theme, system)
  }

  /** Choosing a theme: the store, the page and the stored settings follow;
      the other settings are kept. */
  function SetTheme(ls: Storage.LocalStore, show: Storage.Serializer, t: Theme, system: Mode)
    : (r: (ThemeState, Storage.LocalStore))
    ensures r.0.theme == t && Consistent(r.0, system)
    ensures Storage.GetSettings(r.1) == Storage.GetSettings(ls).(theme := t)
    ensures forall k :: k in ls && k != Storage.SETTINGS_KEY ==> k in r.1 && r.1[k] == ls[k]
  {
    var settings := Storage.GetSettings(ls);
    Storage.SettingsRoundTrip(ls, show, settings.(theme := t), "");
    (Showing(t, system), Storage.SaveSettings(ls, show, settings.(theme := t)))
  }

  /** A change of system preference: only a store following the system
      reacts. */
  function SystemChanged(st: ThemeState, system: Mode): (r: ThemeState)
    ensures st.theme != Auto ==> r == st
    ensures st.theme == Auto ==> r == Showing(Auto, system)
  {
    if st.theme == Auto then Showing(Auto, system) else st
  }

  /** Every transition keeps the store and the page consistent with the
      current system preference. */
  lemma ConsistencyPreserved(st: ThemeState, old_system: Mode, system: Mode)
    requires Consistent(st, old_system)
    ensures Consistent(SystemChanged(st, system), system)
    ensures st.theme != Auto ==> SystemChanged(st, system).effectiveTheme == st.effectiveTheme
  {
  }

  // ----- the header's toggle -----

  /** Light, then dark, then following the system, then light again. */
  function NextTheme(t: Theme): (r: Theme)
    ensures r != t
  {
    match t
    case Light => Dark
    case Dark => Auto
    case Auto => Light
  }

  function ToggleTheme(st: ThemeState, ls: Storage.LocalStore, show: Storage.Serializer, system: Mode)
    : (r: (ThemeState, Storage.LocalStore))
    ensures r.0.theme == NextTheme(st.theme) && Consistent(r.0, system)
  {
    SetTheme(ls, show, NextTheme(st.theme), system)
  }

  /** The toggle visits all three themes and three toggles restore the
      original one. */
  lemma ToggleCycle(t: Theme)
    ensures NextTheme(NextTheme(NextTheme(t))) == t
    ensures {t, NextTheme(t), NextTheme(NextTheme(t))} == {Light, Dark, Auto}
  {
  }
}
