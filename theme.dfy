/** The two-valued colour theme, persisted under its own storage key. */
module Theme {

  datatype Theme = Classic | Autumn

  /** The storage key the theme is kept under. */
  const StorageKey: string := "theme"

  /** The stored spelling of each theme. */
  function Name(t: Theme): (r: string)
    ensures r == "classic" || r == "autumn"
  {
    match t
    case Classic => "classic"
    case Autumn => "autumn"
  }

  predicate IsThemeName(s: string)
  {
    s == "classic" || s == "autumn"
  }

  /** The theme switcher: each theme goes to the other one. */
  function Toggle(t: Theme): (r: Theme)
    ensures r != t
  {
    if t == Classic then Autumn else Classic
  }

  /** Toggling twice is the identity. */
  lemma ToggleInvolution(t: Theme)
    ensures Toggle(Toggle(t)) == t
  {
  }

  /**
   * The initialiser: with a window present, a stored value that is exactly
   * "classic" or "autumn" is kept; anything else, a missing key included, gives Classic.
   */
  function Load(hasWindow: bool, store: map<string, string>): (r: Theme)
    ensures hasWindow && StorageKey in store && IsThemeName(store[StorageKey]) ==> Name(r) == store[StorageKey]
    ensures !(hasWindow && StorageKey in store && IsThemeName(store[StorageKey])) ==> r == Classic
  {
    if hasWindow && StorageKey in store && IsThemeName(store[StorageKey]) then
      (if store[StorageKey] == "classic" then Classic else Autumn)
    else Classic
  }

  /** The persistence effect: the theme's name is written under its key. */
  function Save(store: map<string, string>, t: Theme): (r: map<string, string>)
    ensures StorageKey in r && r[StorageKey] == Name(t)
    ensures forall k | k != StorageKey :: (k in r <==> k in store) && (k in store ==> r[k] == store[k])
  {
    store[StorageKey := Name(t)]
  }

  /** Reloading after a save gives back the saved theme. */
  lemma SaveThenLoad(store: map<string, string>, t: Theme)
    ensures Load(true, Save(store, t)) == t
  {
  }

  /** The `dark` presentation flag is derived from the theme alone. */
  predicate IsDark(t: Theme)
  {
    t == Autumn
  }
}
