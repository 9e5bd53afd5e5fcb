/**
 * The search-and-category test both wiki pages apply to each species:
 * the lower-cased search term must occur in the lower-cased common or
 * scientific name, and the category must be the selected one unless the
 * selection is "all".
 */
module SpeciesSearch {
  import opened Text

  predicate MatchesSearch(name: string, scientificName: string, term: string) {
    Contains(Lower(name), Lower(term)) || Contains(Lower(scientificName), Lower(term))
  }

  predicate MatchesCategory(category: string, selected: string) {
    selected == "all" || category == selected
  }

  /** The empty search term matches every species. */
  lemma EmptyTermMatches(name: string, scientificName: string)
    ensures MatchesSearch(name, scientificName, "")
  {
    assert Lower("") == [];
  }

  /** The search ignores ASCII case in the term. */
  lemma SearchIgnoresTermCase(name: string, scientificName: string, term: string)
    ensures MatchesSearch(name, scientificName, Lower(term)) == MatchesSearch(name, scientificName, term)
  {
    LowerIdempotent(term);
  }
}
