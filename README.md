# AI service catalog: filter, favorites, theme and recomputation state

This project models the browsing logic of the AI-services catalog page (the
`App` component). It has four parts:

- **The filter engine** (`filter.dfy`). It derives the visible list from the
  catalog, the search term, the selected category and the favorite ids. The
  function `Visible` follows the component's chain of filters:
  1. drop records whose `active` is explicitly `false`;
  2. apply the category step, with the reserved names `"All"` and `"Favorites"`;
  3. apply a case-insensitive substring search over the name and the
     description, skipped when the term trims to empty.

  `Selected` is a single-record reference predicate. `Visible` is proved equal
  to one filter of the catalog by `Selected`. The other filter properties
  follow from that: order preserved, withdrawn records never shown, the
  reserved categories, the blank term, and favorites counting by membership.
- **The favorites list** (`favorites.dfy`). It is a list of ids. Toggling an
  id removes every occurrence of it or appends it. The list is loaded from the
  `ai_services_favorites` storage key, falling back to `[]`, and written back
  after every change; a failed write is ignored.
- **The theme** (`theme.dfy`). It is `classic` or `autumn`, flipped by the
  switcher. It is loaded from the `theme` key only when the stored value is
  exactly one of the two names, and it is written back after every change.
- **The component state** (`app_state.dfy`). The class `App` holds the shown
  list, the loading flag, the inputs, the favorites, the theme, the `dark`
  flag, the storage map, the help flags, the scroll-button flag and the single
  debounce timer slot. There is one method per event: mount, search change,
  category change, star toggle, theme toggle, timer fired, scroll and help
  click. Its invariant `Valid` has four parts:
  - the `dark` flag and the stored theme follow the theme;
  - the spinner shows exactly while a recomputation is pending;
  - a pending recomputation holds the latest inputs;
  - when nothing is pending, the shown list is `Visible` of the latest inputs.

  The invariant holds from the end of `Mount` on, that is once the mount
  effects have run; the first render before them is not modelled (see
  "## Left out").

`text.dfy` holds the string operations the search uses: `trim` (its
white-space set is that of ECMAScript), lower-casing and `includes`.
`seqs.dfy` holds the generic order-preserving filter (`Keep`, the model of
`Array.prototype.filter`) and its lemmas. `scenarios.dfy` works through
concrete catalogs.

Browser storage is a `map<string, string>`. `JSON.stringify`/`JSON.parse` are
a pair of functions passed in as a `Codec`. Where the save-then-load property
needs a round trip, it is an explicit hypothesis (`Favorites.RoundTrips`). A
failing `localStorage.setItem` for favorites is a `writeOk: bool` argument.
The 300 ms timer is an explicit `TimerFired` event.

The component's `Theme` type (App.tsx:15) names the themes `classic` and
`autumn`.

## Model

| member | source | states |
|---|---|---|
| `Seqs.Keep` | App.tsx:71-84 | the filter result holds exactly the input elements that satisfy the predicate, and is no longer than the input |
| `Seqs.KeepCounts` | App.tsx:71-84 | every occurrence of an element that satisfies the predicate survives the filter, and no occurrence of one that does not |
| `Seqs.KeepIsSubsequence` | App.tsx:71-85 | filtering never reorders: the result is a subsequence of the input |
| `Seqs.KeepKeep` | App.tsx:71-85 | two successive filters equal one filter by the conjunction of the predicates |
| `Text.TrimStartSpec` | App.tsx:79 | trimming the front removes exactly a white-space prefix and stops at the first other character |
| `Text.TrimEndSpec` | App.tsx:79 | trimming the back removes exactly a white-space suffix and stops at the last other character |
| `Text.BlankIffAllWhiteSpace` | App.tsx:79 | a term trims to empty if and only if every character of it is white space |
| `Text.Lower` | App.tsx:80-83 | lower-casing keeps the length and maps each character independently: an ASCII capital becomes its own lower-case letter, every other character is unchanged |
| `Text.LowerIdempotent` | App.tsx:80-83 | lower-casing an already lower-cased string changes nothing |
| `Text.ContainsIff` | App.tsx:82-83 | `includes` holds if and only if the needle occurs at some position of the haystack |
| `Text.ContainsEmpty` | App.tsx:82-83 | every string includes the empty string |
| `Filter.VisibleIsSinglePass` | App.tsx:70-86 | the chain active, then category, then search equals one filter of the catalog by the reference predicate `Selected` (the three steps are ANDed) |
| `Filter.VisibleMembers` | App.tsx:70-86 | a record is visible if and only if it is in the catalog and is active, in the category and matches the term |
| `Filter.VisibleSubsequenceOfActive` | App.tsx:71-85 | the visible list is an order-preserving subsequence of the catalog and never holds a record with `active` false; an absent `active` counts as kept |
| `Filter.AllWithBlankTerm` | App.tsx:71-79 | with "All" and a blank term the visible list is exactly the active records in catalog order |
| `Filter.FavoritesView` | App.tsx:73-74 | "Favorites" keeps exactly the active records whose id is a favorite, ANDed with the search step |
| `Filter.UnknownCategoryIsEmpty` | App.tsx:75-76 | any other category is an exact-match test; one no record carries gives an empty list, not an error |
| `Filter.BlankTermIgnored` | App.tsx:79 | a term that trims to empty filters exactly like the empty term |
| `Filter.FavoritesBySet` | App.tsx:74 | two favorite lists with the same members give the same visible list |
| `Scenarios.ScenarioAll` | App.tsx:70-86 | "All" with an empty term lists both records in catalog order |
| `Scenarios.ScenarioCategory` | App.tsx:75-76 | category "Audio" keeps only the record carrying it |
| `Scenarios.ScenarioSearch` | App.tsx:79-85 | the term "mid" matches "Midjourney" case-insensitively and nothing else |
| `Scenarios.ScenarioUntrimmedTerm` | App.tsx:79-85 | the term " mid" is not blank and is compared untrimmed, so it matches nothing |
| `Scenarios.ScenarioFavoriteOne` | App.tsx:73-74 | with only id 2 favorited, "Favorites" lists only record 2 |
| `Scenarios.ScenarioFavoritesOrder` | App.tsx:73-74 | favorites show in catalog order; starring id 1 after id 2 lists record 1 first |
| `Scenarios.ScenarioWithdrawn` | App.tsx:71 | a withdrawn record is hidden under every term, category and favorites list |
| `Favorites.Toggle` | App.tsx:118-125 | the toggled id's membership flips and every other id's membership is unchanged |
| `Favorites.ToggleOrder` | App.tsx:120-124 | removal keeps the other ids in their order and with every occurrence of each; an absent id is appended once at the end, making the list one longer |
| `Favorites.DoubleToggleMembership` | App.tsx:119-124 | toggling the same id twice restores the membership of every id |
| `Favorites.DoubleToggleFromAbsent` | App.tsx:119-124 | toggling an initially absent id twice restores the exact list |
| `Favorites.DoubleToggleFromPresentLaw` | App.tsx:119-124 | toggling a present id twice gives the list without that id, followed by the id once |
| `Favorites.DoubleToggleFromPresent` | App.tsx:119-124 | an instance where toggling a present id twice does not restore the exact list: `[1, 2]` toggled twice on 1 is `[2, 1]` |
| `Favorites.ToggleKeepsNoDup` | App.tsx:119-124 | a duplicate-free list stays duplicate-free after any toggle |
| `Favorites.Load` | App.tsx:27-35 | a non-empty loaded list is exactly what decoding the stored text gave; a missing key, an empty string or a failed parse give `[]` |
| `Favorites.Save` | App.tsx:60-66 | a successful write puts the encoded list under the favorites key, a failed one leaves storage unchanged, and other keys are untouched |
| `Favorites.SaveThenLoad` | App.tsx:27-66 | if encoding round-trips, loading after a successful save gives back the saved list |
| `Theme.Name` | App.tsx:15 | the stored spelling of a theme is "classic" or "autumn" |
| `Theme.Toggle` | App.tsx:46-48 | the switcher always changes the theme |
| `Theme.ToggleInvolution` | App.tsx:47 | toggling twice is the identity |
| `Theme.Load` | App.tsx:36-44 | a stored value that is exactly a theme name is kept; anything else, or no window, gives `classic` |
| `Theme.Save` | App.tsx:57 | the theme's name is written under the theme key and other keys are untouched |
| `Theme.SaveThenLoad` | App.tsx:36-57 | loading after a save gives back the saved theme |
| `AppState.HelpFor` | App.tsx:108-116 | a name selects a help dialog if and only if the card shows a help button for it, each of the three names selecting its own dialog |
| `AppState.App.Mount` | App.tsx:17-92 | the initial state loads favorites and theme from storage, then the mount effects set `dark`, write both keys and start the first recomputation |
| `AppState.App.Restart` | App.tsx:68-91 | the debounce effect raises the spinner and replaces the one pending slot with the current inputs |
| `AppState.App.SetSearchTerm` | App.tsx:68-92 | a changed term restarts the recomputation, an unchanged one does not, and the invariant is kept |
| `AppState.App.SelectCategory` | App.tsx:68-92 | a changed category restarts the recomputation, an unchanged one does not, and the invariant is kept |
| `AppState.App.ToggleFavorite` | App.tsx:118-126 | the list becomes its toggle whether or not the write succeeds; storage gets the encoded list only on success, and then reloads to the same list; the recomputation restarts |
| `AppState.App.ToggleTheme` | App.tsx:46-58 | the theme flips, `dark` is set if and only if the theme is `autumn`, and the theme is written so that it reloads as itself |
| `AppState.App.TimerFired` | App.tsx:70-89 | the shown list becomes `Visible` of the latest term, category and favorites, and the spinner clears |
| `AppState.App.Scroll` | App.tsx:95-101 | the scroll button is visible if and only if the offset is strictly greater than 300 |
| `AppState.App.HelpClick` | App.tsx:108-116 | "Suno", "ChatGPT" and "Nano Banana" each raise their own flag; any other name changes nothing |
| `AppState.TypeTwiceThenFire` | App.tsx:68-92 | after two quick edits and one timer, the shown list is the filter of the last term only; the category, the favorites and every other field but the term, spinner, slot and shown list are untouched |

## Left out

- Rendering and layout (the JSX of the component and every presentational component) are not modelled: they only display state and forward callbacks.
- The support dialog, its visibility flag and the falling-leaves animation are not modelled: they hold no logic over the catalog.
- The help dialogs' text and their close buttons are not modelled; only the dispatch that raises a flag is.
- The scroll-to-top action, and the adding and removing of the scroll listener, are not modelled; only the visibility rule on each scroll event is.
- Real timers are not modelled. The 300 ms delay becomes the explicit `TimerFired` event, and cancelling a timer becomes overwriting the single `pending` slot.
- Real browser storage, `JSON` and the document's class list are not modelled. They are a string map, a `Codec` of two function values, and the `dark` field.
- Text.Lower: lower-cases ASCII letters only. Unicode case mapping is not modelled.
- Favorites.Load: a stored text that parses to something other than an id list counts as a failed parse here and gives `[]`. The component keeps the parsed value instead. A number, an object or `null` then fails when it is used as a list (`includes` or spreading). A boolean fails the same way. A stored string turns `includes` into a substring test on the id's decimal text (a stored `"12"` makes ids 1, 2 and 12 favorites), and toggling an id whose digits it contains throws, because a string has no `filter`; only toggling an id whose digits it does not contain spreads it into a list. A list of non-numbers is kept silently.
- AppState.App.ToggleTheme: a theme write that throws is not modelled. The component does not catch it; the model's theme write always succeeds.
- AppState.App.Scroll: the scroll offset is an integer here; fractional offsets are not modelled.
- AppState.App.Mount: the model always runs in a browser, so the theme is loaded with a window present. The no-window branch exists only in `Theme.Load`.
- AppState.App.Mount: a storage read that throws is not modelled; the storage is always a map. The component catches such a throw for the favorites (falling back to `[]`) but not for the theme, whose read sits outside any `try`, so there it fails at mount instead of falling back to `classic`.
- AppState.App.Mount: the first render, committed before the mount effects run, is not modelled. In it the shown list is the unfiltered catalog including withdrawn records, the spinner is off and the `dark` class is not yet set even when `autumn` is stored; that state does not satisfy `Valid`. `Mount` runs the initializers and the effects as one step.
- Error logging to the console is not modelled.
- The catalog data and the category list are not part of this model. The catalog is a parameter of the component and of the filter.
