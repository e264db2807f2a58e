/**
 * The catalog page component: its state, the effects that run after each
 * change, and the event handlers. Browser storage is a string map, the
 * debounce timer is a single pending slot, and each handler or fired timer is
 * one event method.
 */
module AppState {
  import opened Wrappers
  import opened Catalog
  import opened Filter
  import Favorites
  import Theme

  /** Scroll offset, in pixels, beyond which the scroll-to-top button shows. */
  const ScrollThreshold: int := 300

  /** The three services that have a help dialog. */
  datatype Help = SunoHelp | ChatGptHelp | NanoBananaHelp

  /** The card's test for showing a help button. */
  predicate ShowsHelpButton(name: string)
  {
    name == "Suno" || name == "ChatGPT" || name == "Nano Banana"
  }

  /** Which help dialog a help click on a service name opens, if any. */
  function HelpFor(name: string): (r: Option<Help>)
    ensures r.Some? <==> ShowsHelpButton(name)
    ensures r == Some(SunoHelp) <==> name == "Suno"
    ensures r == Some(ChatGptHelp) <==> name == "ChatGPT"
    ensures r == Some(NanoBananaHelp) <==> name == "Nano Banana"
  {
    if name == "Suno" then Some(SunoHelp)
    else if name == "ChatGPT" then Some(ChatGptHelp)
    else if name == "Nano Banana" then Some(NanoBananaHelp)
    else None
  }

  /** The inputs a scheduled recomputation closed over. */
  datatype Inputs = Inputs(term: string, category: string, favorites: seq<int>)

  class App {
    /** The static catalog; never changes. */
    const catalog: seq<Service>
    /** The JSON text form used for the favorites key. */
    const codec: Favorites.Codec

    var services: seq<Service>
    var isLoading: bool
    var searchTerm: string
    var selectedCategory: string
    var favoriteIds: seq<int>
    var theme: Theme.Theme
    /** The `dark` class on the document root. */
    var dark: bool
    /** Browser local storage. */
    var store: map<string, string>
    var sunoHelpVisible: bool
    var chatGptHelpVisible: bool
    var nanoBananaHelpVisible: bool
    var scrollButtonVisible: bool
    /** The one debounce timer slot. */
    var pending: Option<Inputs>

    function CurrentInputs(): Inputs
      reads this
    {
      Inputs(searchTerm, selectedCategory, favoriteIds)
    }

    /**
     * The dark flag and the stored theme follow the theme; the spinner shows
     * exactly while a recomputation is pending; a pending recomputation holds
     * the latest inputs; with none pending, the list shown is the filter of
     * the latest inputs.
     */
    ghost predicate Valid()
      reads this
    {
      dark == Theme.IsDark(theme) &&
      Theme.StorageKey in store && store[Theme.StorageKey] == Theme.Name(theme) &&
      (isLoading <==> pending.Some?) &&
      (pending.Some? ==> pending.value == CurrentInputs()) &&
      (pending.None? ==> services == Visible(catalog, searchTerm, selectedCategory, favoriteIds))
    }

    /**
     * First render followed by the mount effects in declaration order: the
     * theme effect, the favorites effect, then the debounce effect.
     */
    constructor Mount(catalog: seq<Service>, store: map<string, string>, codec: Favorites.Codec, favoritesWriteOk: bool)
      ensures Valid()
      ensures this.catalog == catalog && this.codec == codec
      ensures favoriteIds == Favorites.Load(store, codec)
      ensures theme == Theme.Load(true, store)
      ensures searchTerm == "" && selectedCategory == AllCategory
      ensures services == catalog
      ensures isLoading && pending == Some(CurrentInputs())
      ensures this.store == Favorites.Save(Theme.Save(store, theme), codec, favoriteIds, favoritesWriteOk)
      ensures !sunoHelpVisible && !chatGptHelpVisible && !nanoBananaHelpVisible && !scrollButtonVisible
    {
      this.catalog := catalog;
      this.codec := codec;
      services := catalog;
      isLoading := false;
      searchTerm := "";
      selectedCategory := AllCategory;
      sunoHelpVisible, chatGptHelpVisible, nanoBananaHelpVisible := false, false, false;
      scrollButtonVisible := false;
      var favs := Favorites.Load(store, codec);
      var t := Theme.Load(true, store);
      favoriteIds := favs;
      theme := t;
      dark := Theme.IsDark(t);
      this.store := Favorites.Save(Theme.Save(store, t), codec, favs, favoritesWriteOk);
      isLoading := true;
      pending := Some(Inputs("", AllCategory, favs));
    }

    /** The debounce effect: raise the spinner and replace the pending timer with one over the current inputs. */
    method Restart()
      modifies this`isLoading, this`pending
      ensures isLoading && pending == Some(CurrentInputs())
    {
      isLoading := true;
      pending := Some(CurrentInputs());
    }

    /** Typing in the search bar; an unchanged value does not re-run the effect. */
    method SetSearchTerm(term: string)
      requires Valid()
      modifies this`searchTerm, this`isLoading, this`pending
      ensures Valid()
      ensures searchTerm == term
      ensures term != old(searchTerm) ==> isLoading && pending == Some(CurrentInputs())
      ensures term == old(searchTerm) ==> isLoading == old(isLoading) && pending == old(pending)
    {
      if term != searchTerm {
        searchTerm := term;
        Restart();
      }
    }

    /** Picking a category; re-selecting the current one does not re-run the effect. */
    method SelectCategory(category: string)
      requires Valid()
      modifies this`selectedCategory, this`isLoading, this`pending
      ensures Valid()
      ensures selectedCategory == category
      ensures category != old(selectedCategory) ==> isLoading && pending == Some(CurrentInputs())
      ensures category == old(selectedCategory) ==> isLoading == old(isLoading) && pending == old(pending)
    {
      if category != selectedCategory {
        selectedCategory := category;
        Restart();
      }
    }

    /**
     * The star button. The toggle always yields a new list, so both the
     * persistence effect and the debounce effect run; a failed storage write
     * is ignored and the in-memory list stays the toggled one.
     */
    method ToggleFavorite(id: int, writeOk: bool)
      requires Valid()
      modifies this`favoriteIds, this`store, this`isLoading, this`pending
      ensures Valid()
      ensures favoriteIds == Favorites.Toggle(old(favoriteIds), id)
      ensures store == Favorites.Save(old(store), codec, favoriteIds, writeOk)
      ensures isLoading && pending == Some(CurrentInputs())
      ensures writeOk && Favorites.RoundTrips(codec) ==> Favorites.Load(store, codec) == favoriteIds
    {
      favoriteIds := Favorites.Toggle(favoriteIds, id);
      store := Favorites.Save(store, codec, favoriteIds, writeOk);
      if writeOk && Favorites.RoundTrips(codec) {
        Favorites.SaveThenLoad(old(store), codec, favoriteIds);
      }
      Restart();
    }

    /** The theme switcher, followed by the theme effect. */
    method ToggleTheme()
      requires Valid()
      modifies this`theme, this`dark, this`store
      ensures Valid()
      ensures theme == Theme.Toggle(old(theme))
      ensures dark <==> theme == Theme.Autumn
      ensures store == Theme.Save(old(store), theme)
      ensures Theme.Load(true, store) == theme
    {
      theme := Theme.Toggle(theme);
      dark := Theme.IsDark(theme);
      store := Theme.Save(store, theme);
      Theme.SaveThenLoad(old(store), theme);
    }

    /** The debounce timer fires: store the filtered list and drop the spinner. */
    method TimerFired()
      requires Valid()
      modifies this`services, this`isLoading, this`pending
      ensures Valid()
      ensures !isLoading && pending == None
      ensures services == Visible(catalog, searchTerm, selectedCategory, favoriteIds)
      ensures old(pending) == None ==> services == old(services)
    {
      if pending.Some? {
        var inputs := pending.value;
        services := Visible(catalog, inputs.term, inputs.category, inputs.favorites);
        isLoading := false;
        pending := None;
      }
    }

    /** A scroll event with the window's vertical offset. */
    method Scroll(offset: int)
      modifies this`scrollButtonVisible
      ensures scrollButtonVisible <==> offset > ScrollThreshold
    {
      if offset > ScrollThreshold {
        scrollButtonVisible := true;
      } else {
        scrollButtonVisible := false;
      }
    }

    /** A help click: raise the one dialog the name selects; any other name changes nothing. */
    method HelpClick(name: string)
      modifies this`sunoHelpVisible, this`chatGptHelpVisible, this`nanoBananaHelpVisible
      ensures sunoHelpVisible == (old(sunoHelpVisible) || name == "Suno")
      ensures chatGptHelpVisible == (old(chatGptHelpVisible) || name == "ChatGPT")
      ensures nanoBananaHelpVisible == (old(nanoBananaHelpVisible) || name == "Nano Banana")
      ensures !ShowsHelpButton(name) ==>
        sunoHelpVisible == old(sunoHelpVisible) && chatGptHelpVisible == old(chatGptHelpVisible) &&
        nanoBananaHelpVisible == old(nanoBananaHelpVisible)
    {
      match HelpFor(name)
      case Some(SunoHelp) => sunoHelpVisible := true;
      case Some(ChatGptHelp) => chatGptHelpVisible := true;
      case Some(NanoBananaHelp) => nanoBananaHelpVisible := true;
      case None =>
    }
  }

  /**
   * Rapid typing: only the last term counts. However many changes arrive
   * before the timer fires, the list shown afterwards is the filter of the
   * latest inputs.
   */
  method TypeTwiceThenFire(app: App, first: string, second: string)
    requires app.Valid()
    modifies app`searchTerm, app`isLoading, app`pending, app`services
    ensures app.Valid()
    ensures !app.isLoading
    ensures app.searchTerm == second
    ensures app.services == Visible(app.catalog, second, app.selectedCategory, app.favoriteIds)
  {
    app.SetSearchTerm(first);
    app.SetSearchTerm(second);
    app.TimerFired();
  }
}
