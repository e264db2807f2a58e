/** Worked examples of the filter engine on a two-record catalog. */
module Scenarios {
  import opened Wrappers
  import opened Seqs
  import opened Text
  import opened Catalog
  import opened Filter
  import Favorites

  const Suno: Service := Service(1, "Suno", "Songs", "https://suno.com", ["Audio"], Some(true), "")
  const Midjourney: Service := Service(2, "Midjourney", "Pictures", "https://midjourney.com", ["Image"], Some(true), "")
  const Retired: Service := Service(3, "Retired", "Gone", "https://example.com", ["Image"], Some(false), "")

  /** Filtering a two-element catalog, unfolded. */
  lemma KeepPair(a: Service, b: Service, p: Service -> bool)
    ensures Keep([a, b], p) == (if p(a) then [a] else []) + (if p(b) then [b] else [])
  {
    assert [a, b][1..] == [b];
    assert [b][1..] == [];
  }

  /** "All" with an empty term lists both records, in catalog order. */
  lemma ScenarioAll()
    ensures Visible([Suno, Midjourney], "", AllCategory, []) == [Suno, Midjourney]
  {
    assert IsBlank("");
    AllWithBlankTerm([Suno, Midjourney], "", []);
    KeepPair(Suno, Midjourney, IsActive);
  }

  /** A concrete category keeps the records that carry it. */
  lemma ScenarioCategory()
    ensures Visible([Suno, Midjourney], "", "Audio", []) == [Suno]
  {
    var c := [Suno, Midjourney];
    KeepPair(Suno, Midjourney, IsActive);
    KeepPair(Suno, Midjourney, CategoryTest("Audio"));
    assert IsBlank("");
  }

  lemma TermsNotBlank()
    ensures !IsBlank("mid") && !IsBlank(" mid")
  {
    assert !IsWhiteSpace('m') && !IsWhiteSpace('d');
    assert " mid"[1..] == "mid";
    assert TrimStart(" mid") == "mid" && TrimStart("mid") == "mid";
    assert TrimEnd("mid") == "mid";
  }

  lemma MidjourneyContainsMid()
    ensures Contains(Lower("Midjourney"), Lower("mid"))
  {
    assert Lower("Midjourney") == "midjourney";
    assert Lower("mid") == "mid";
    OccursAtContains("midjourney", "mid", 0);
  }

  lemma SunoLacksMid()
    ensures !Contains(Lower("Suno"), Lower("mid")) && !Contains(Lower("Songs"), Lower("mid"))
  {
    assert Lower("Suno") == "suno";
    assert Lower("Songs") == "songs";
    assert Lower("mid") == "mid";
    FirstCharAbsent("suno", "mid");
    FirstCharAbsent("songs", "mid");
  }

  /** The term " mid" starts with a space, which none of the names or descriptions holds. */
  lemma SpacedMidMisses(s: Service)
    requires ' ' !in s.name && ' ' !in s.description
    ensures !MatchesTerm(" mid", s)
  {
    LowerAbsent(s.name, ' ');
    LowerAbsent(s.description, ' ');
    FirstCharAbsent(Lower(s.name), Lower(" mid"));
    FirstCharAbsent(Lower(s.description), Lower(" mid"));
  }

  /** The term "mid" matches Midjourney by name and does not match Suno. */
  lemma MidMatches()
    ensures MatchesTerm("mid", Midjourney) && !MatchesTerm("mid", Suno)
  {
    MidjourneyContainsMid();
    SunoLacksMid();
  }

  lemma SpacedMidMissesSuno()
    ensures !MatchesTerm(" mid", Suno)
  {
    assert ' ' !in "Suno" && ' ' !in "Songs";
    SpacedMidMisses(Suno);
  }

  lemma SpacedMidMissesMidjourney()
    ensures !MatchesTerm(" mid", Midjourney)
  {
    assert ' ' !in "Midjourney" && ' ' !in "Pictures";
    SpacedMidMisses(Midjourney);
  }

  /** The term " mid", leading space included, matches neither record. */
  lemma SpacedMidMatchesNothing()
    ensures !MatchesTerm(" mid", Midjourney) && !MatchesTerm(" mid", Suno)
  {
    SpacedMidMissesSuno();
    SpacedMidMissesMidjourney();
  }

  /** The search is case-insensitive over the name. */
  lemma ScenarioSearch()
    ensures Visible([Suno, Midjourney], "mid", AllCategory, []) == [Midjourney]
  {
    KeepPair(Suno, Midjourney, IsActive);
    TermsNotBlank();
    MidMatches();
    KeepPair(Suno, Midjourney, SearchTest("mid"));
  }

  /** The term is not trimmed for the comparison: a leading space must match too. */
  lemma ScenarioUntrimmedTerm()
    ensures Visible([Suno, Midjourney], " mid", AllCategory, []) == []
  {
    KeepPair(Suno, Midjourney, IsActive);
    TermsNotBlank();
    SpacedMidMatchesNothing();
    KeepPair(Suno, Midjourney, SearchTest(" mid"));
  }

  /** With only Midjourney favorited, "Favorites" lists just Midjourney. */
  lemma ScenarioFavoriteOne()
    ensures Visible([Suno, Midjourney], "", FavoritesCategory, [2]) == [Midjourney]
  {
    KeepPair(Suno, Midjourney, IsActive);
    KeepPair(Suno, Midjourney, FavoriteTest([2]));
    assert IsBlank("");
  }

  /**
   * Favorites are shown in catalog order, not in the order they were
   * favorited: starring Suno after Midjourney lists Suno first.
   */
  lemma ScenarioFavoritesOrder()
    ensures Favorites.Toggle([2], 1) == [2, 1]
    ensures Visible([Suno, Midjourney], "", FavoritesCategory, Favorites.Toggle([2], 1)) == [Suno, Midjourney]
  {
    assert Favorites.Toggle([2], 1) == [2] + [1];
    KeepPair(Suno, Midjourney, IsActive);
    KeepPair(Suno, Midjourney, FavoriteTest([2, 1]));
    assert IsBlank("");
  }

  /** A withdrawn record is hidden under every term, category and favorites list, its own id favorited included. */
  lemma ScenarioWithdrawn(term: string, category: string, favorites: seq<int>)
    ensures Retired !in Visible([Suno, Retired], term, category, favorites)
  {
    VisibleSubsequenceOfActive([Suno, Retired], term, category, favorites);
  }
}
