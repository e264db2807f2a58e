/**
 * The filter engine: the body of the recomputation timer, a pure function of
 * the catalog, the search term, the selected category and the favorite ids.
 * `Visible` is written as the chain of filters the component runs; `Selected`
 * is the single-record reference it is proved against.
 */
module Filter {
  import opened Wrappers
  import opened Seqs
  import opened Text
  import opened Catalog

  /** Reserved pseudo-category that applies no category filter. */
  const AllCategory: string := "All"
  /** Reserved pseudo-category that keeps the favorited records. */
  const FavoritesCategory: string := "Favorites"

  /** Only an explicit `active: false` withdraws a record. */
  predicate IsActive(s: Service)
  {
    s.active != Some(false)
  }

  predicate IsFavorite(favorites: seq<int>, s: Service)
  {
    s.id in favorites
  }

  predicate HasCategory(category: string, s: Service)
  {
    category in s.categories
  }

  /** Case-insensitive match of the (untrimmed) term against the name or the description. */
  predicate MatchesTerm(term: string, s: Service)
  {
    Contains(Lower(s.name), Lower(term)) || Contains(Lower(s.description), Lower(term))
  }

  function FavoriteTest(favorites: seq<int>): Service -> bool
  {
    s => IsFavorite(favorites, s)
  }

  function CategoryTest(category: string): Service -> bool
  {
    s => HasCategory(category, s)
  }

  function SearchTest(term: string): Service -> bool
  {
    s => MatchesTerm(term, s)
  }

  /** Step 1: drop withdrawn records. */
  function ActiveServices(catalog: seq<Service>): seq<Service>
  {
    Keep(catalog, IsActive)
  }

  /** Step 2: the category step, with its two reserved names. */
  function ByCategory(xs: seq<Service>, category: string, favorites: seq<int>): seq<Service>
  {
    if category == FavoritesCategory then Keep(xs, FavoriteTest(favorites))
    else if category != AllCategory then Keep(xs, CategoryTest(category))
    else xs
  }

  /** Step 3: the search step, skipped when the term trims to empty. */
  function BySearch(xs: seq<Service>, term: string): seq<Service>
  {
    if !IsBlank(term) then Keep(xs, SearchTest(term)) else xs
  }

  /** The visible list the timer stores. */
  function Visible(catalog: seq<Service>, term: string, category: string, favorites: seq<int>): seq<Service>
  {
    BySearch(ByCategory(ActiveServices(catalog), category, favorites), term)
  }

  /** Reference: whether the category step admits a record. */
  predicate InCategory(s: Service, category: string, favorites: seq<int>)
  {
    if category == FavoritesCategory then IsFavorite(favorites, s)
    else category == AllCategory || HasCategory(category, s)
  }

  /** Reference: whether one record belongs to the visible list. */
  predicate Selected(s: Service, term: string, category: string, favorites: seq<int>)
  {
    IsActive(s) && InCategory(s, category, favorites) && (IsBlank(term) || MatchesTerm(term, s))
  }

  function ActiveInCategory(category: string, favorites: seq<int>): Service -> bool
  {
    s => IsActive(s) && InCategory(s, category, favorites)
  }

  function SelectedBy(term: string, category: string, favorites: seq<int>): Service -> bool
  {
    s => Selected(s, term, category, favorites)
  }

  /** The chain of filters equals one filter by the reference predicate. */
  lemma VisibleIsSinglePass(catalog: seq<Service>, term: string, category: string, favorites: seq<int>)
    ensures Visible(catalog, term, category, favorites) == Keep(catalog, SelectedBy(term, category, favorites))
  {
    var active := ActiveServices(catalog);
    var stepped := ByCategory(active, category, favorites);
    var inCat := ActiveInCategory(category, favorites);
    if category == FavoritesCategory {
      KeepKeep(catalog, IsActive, FavoriteTest(favorites), inCat);
    } else if category != AllCategory {
      KeepKeep(catalog, IsActive, CategoryTest(category), inCat);
    } else {
      KeepCongruent(catalog, IsActive, inCat);
    }
    assert stepped == Keep(catalog, inCat);
    if !IsBlank(term) {
      KeepKeep(catalog, inCat, SearchTest(term), SelectedBy(term, category, favorites));
    } else {
      KeepCongruent(catalog, inCat, SelectedBy(term, category, favorites));
    }
  }

  /** A record is visible iff it is in the catalog and the reference predicate holds of it. */
  lemma VisibleMembers(catalog: seq<Service>, term: string, category: string, favorites: seq<int>, s: Service)
    ensures s in Visible(catalog, term, category, favorites) <==> s in catalog && Selected(s, term, category, favorites)
  {
    VisibleIsSinglePass(catalog, term, category, favorites);
  }

  /** The visible list is an order-preserving subsequence of the catalog and holds no withdrawn record. */
  lemma VisibleSubsequenceOfActive(catalog: seq<Service>, term: string, category: string, favorites: seq<int>)
    ensures IsSubsequence(Visible(catalog, term, category, favorites), catalog)
    ensures forall s | s in Visible(catalog, term, category, favorites) :: s.active != Some(false)
  {
    VisibleIsSinglePass(catalog, term, category, favorites);
    KeepIsSubsequence(catalog, SelectedBy(term, category, favorites));
  }

  /** "All" with a blank term shows exactly the active records, in catalog order. */
  lemma AllWithBlankTerm(catalog: seq<Service>, term: string, favorites: seq<int>)
    requires IsBlank(term)
    ensures Visible(catalog, term, AllCategory, favorites) == ActiveServices(catalog)
  {
    VisibleIsSinglePass(catalog, term, AllCategory, favorites);
    KeepCongruent(catalog, SelectedBy(term, AllCategory, favorites), IsActive);
  }

  /** "Favorites" keeps exactly the active, favorited records that pass the search step. */
  lemma FavoritesView(catalog: seq<Service>, term: string, favorites: seq<int>, s: Service)
    ensures s in Visible(catalog, term, FavoritesCategory, favorites)
        <==> s in catalog && IsActive(s) && s.id in favorites && (IsBlank(term) || MatchesTerm(term, s))
  {
    VisibleMembers(catalog, term, FavoritesCategory, favorites, s);
  }

  /** Any other category name is an exact-match test; one that no record carries gives an empty list. */
  lemma UnknownCategoryIsEmpty(catalog: seq<Service>, term: string, category: string, favorites: seq<int>)
    requires category != AllCategory && category != FavoritesCategory
    requires forall s | s in catalog :: category !in s.categories
    ensures Visible(catalog, term, category, favorites) == []
  {
    var v := Visible(catalog, term, category, favorites);
    if v != [] {
      VisibleMembers(catalog, term, category, favorites, v[0]);
    }
  }

  /** A term that trims to empty filters exactly like the empty term. */
  lemma BlankTermIgnored(catalog: seq<Service>, term: string, category: string, favorites: seq<int>)
    requires IsBlank(term)
    ensures Visible(catalog, term, category, favorites) == Visible(catalog, "", category, favorites)
  {
    VisibleIsSinglePass(catalog, term, category, favorites);
    VisibleIsSinglePass(catalog, "", category, favorites);
    assert IsBlank("");
    KeepCongruent(catalog, SelectedBy(term, category, favorites), SelectedBy("", category, favorites));
  }

  /** Only membership of the favorite ids matters: order and duplicates do not change the view. */
  lemma FavoritesBySet(catalog: seq<Service>, term: string, category: string, f1: seq<int>, f2: seq<int>)
    requires forall i :: i in f1 <==> i in f2
    ensures Visible(catalog, term, category, f1) == Visible(catalog, term, category, f2)
  {
    VisibleIsSinglePass(catalog, term, category, f1);
    VisibleIsSinglePass(catalog, term, category, f2);
    KeepCongruent(catalog, SelectedBy(term, category, f1), SelectedBy(term, category, f2));
  }
}
