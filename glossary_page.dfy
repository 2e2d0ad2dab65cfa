/**
 * The public glossary page (`GlossaryPage.tsx`): the legal terms narrowed by a search
 * text and a category button. The term list itself is the site's glossary data, given
 * here as a parameter.
 */
module GlossaryPage {
  import opened Seqs
  import opened Text
  import opened Types

  /** The category buttons: `All`, or one of the term categories. */
  datatype CategoryFilter = AllCategories | OnlyCategory(category: TermCategory)

  /** The search text occurs, ignoring case, in the term's word or in its definition. */
  predicate MatchesSearch(t: GlossaryTerm, search: string) {
    Contains(Lower(t.word), Lower(search)) || Contains(Lower(t.definition), Lower(search))
  }

  predicate MatchesCategory(t: GlossaryTerm, filter: CategoryFilter) {
    filter.AllCategories? || t.category == filter.category
  }

  function Kept(search: string, filter: CategoryFilter): GlossaryTerm -> bool {
    (t: GlossaryTerm) => MatchesSearch(t, search) && MatchesCategory(t, filter)
  }

  /**
   * `filteredTerms`: a term is shown exactly when it matches both the search and the
   * category, and the shown terms keep the order of the glossary.
   */
  function FilteredTerms(terms: seq<GlossaryTerm>, search: string, filter: CategoryFilter): (r: seq<GlossaryTerm>)
    ensures forall t :: t in r <==> t in terms && MatchesSearch(t, search) && MatchesCategory(t, filter)
    ensures forall t :: multiset(r)[t] == if MatchesSearch(t, search) && MatchesCategory(t, filter) then multiset(terms)[t] else 0
    ensures IsSubsequence(r, terms)
  {
    FilterIsSubsequence(terms, Kept(search, filter));
    forall t ensures t in Filter(terms, Kept(search, filter)) <==> t in terms && Kept(search, filter)(t) {
      FilterMembers(terms, Kept(search, filter), t);
    }
    forall t ensures multiset(Filter(terms, Kept(search, filter)))[t] == if Kept(search, filter)(t) then multiset(terms)[t] else 0 {
      FilterCount(terms, Kept(search, filter), t);
    }
    Filter(terms, Kept(search, filter))
  }

  /** The page as it opens, with no search text and `All` selected, shows every term. */
  lemma EmptySearchShowsAll(terms: seq<GlossaryTerm>)
    ensures FilteredTerms(terms, "", AllCategories) == terms
  {
    forall i | 0 <= i < |terms| ensures Kept("", AllCategories)(terms[i]) {
      assert OccursAt(Lower(terms[i].word), 0, Lower(""));
    }
    FilterKeepsAll(terms, Kept("", AllCategories));
  }

  /** One category shows a subsequence of what `All` shows for the same search text. */
  lemma CategoryNarrowsAll(terms: seq<GlossaryTerm>, search: string, c: TermCategory)
    ensures IsSubsequence(FilteredTerms(terms, search, OnlyCategory(c)), FilteredTerms(terms, search, AllCategories))
  {
    FilterMonotone(terms, Kept(search, OnlyCategory(c)), Kept(search, AllCategories));
  }

  /** The search ignores case: typing it in lower case shows the same terms. */
  lemma SearchIgnoresCase(terms: seq<GlossaryTerm>, search: string, filter: CategoryFilter)
    ensures FilteredTerms(terms, Lower(search), filter) == FilteredTerms(terms, search, filter)
  {
    LowerIdempotent(search);
    FilterExtensional(terms, Kept(Lower(search), filter), Kept(search, filter));
  }
}
