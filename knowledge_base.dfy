/**
 * The knowledge-base page (frontend/src/app/knowledge-base/page.tsx): notebook cards narrowed
 * by a search term and by a set of active tag filters, and the toggling and clearing of
 * those filters.
 */
module KnowledgeBase {
  import opened Text
  import opened Lists

  datatype NotebookCard = NotebookCard(
    id: int, title: string, className: string, section: string, tags: seq<string>,
    lastModified: string, noteCount: int, color: string)

  /** The page state that decides what is shown: the search box and the active tag filters. */
  datatype View = View(searchTerm: string, activeFilters: seq<string>)

  /** Some tag contains the term, ignoring case. */
  predicate SomeTagMatches(tags: seq<string>, term: string) {
    exists i :: 0 <= i < |tags| && ContainsIgnoringCase(tags[i], term)
  }

  /** The search matches when it is empty or found in the title, class, section or a tag. */
  predicate MatchesSearch(nb: NotebookCard, term: string) {
    || term == ""
    || ContainsIgnoringCase(nb.title, term)
    || ContainsIgnoringCase(nb.className, term)
    || ContainsIgnoringCase(nb.section, term)
    || SomeTagMatches(nb.tags, term)
  }

  /** No active filters, or every active filter is one of the notebook's tags (exact match). */
  predicate MatchesFilters(nb: NotebookCard, filters: seq<string>) {
    |filters| == 0 || forall f :: f in filters ==> f in nb.tags
  }

  function Shown(view: View): NotebookCard -> bool {
    (nb: NotebookCard) => MatchesSearch(nb, view.searchTerm) && MatchesFilters(nb, view.activeFilters)
  }

  /** `filteredNotebooks`: the cards that match both the search and the filters, in their order. */
  function FilteredNotebooks(notebooks: seq<NotebookCard>, view: View): seq<NotebookCard> {
    Filter(notebooks, Shown(view))
  }

  /**
   * A card is shown exactly when it is one of the notebooks, matches the search and carries
   * every active filter tag; the shown cards are drawn from the notebooks.
   */
  lemma FilteredNotebooksSpec(notebooks: seq<NotebookCard>, view: View)
    ensures forall nb :: nb in FilteredNotebooks(notebooks, view) <==>
      nb in notebooks && MatchesSearch(nb, view.searchTerm) && MatchesFilters(nb, view.activeFilters)
    ensures multiset(FilteredNotebooks(notebooks, view)) <= multiset(notebooks)
  {
    FilterKeeps(notebooks, Shown(view));
    FilterSubMultiset(notebooks, Shown(view));
  }

  /** Each shown card carries every active filter tag, and a non-empty search term occurs in one of its fields. */
  lemma ShownCardsMatch(notebooks: seq<NotebookCard>, view: View)
    ensures forall i, f :: 0 <= i < |FilteredNotebooks(notebooks, view)| && f in view.activeFilters ==>
      f in FilteredNotebooks(notebooks, view)[i].tags
    ensures view.searchTerm != "" ==> forall i :: 0 <= i < |FilteredNotebooks(notebooks, view)| ==>
      var nb := FilteredNotebooks(notebooks, view)[i];
      ContainsIgnoringCase(nb.title, view.searchTerm) || ContainsIgnoringCase(nb.className, view.searchTerm)
        || ContainsIgnoringCase(nb.section, view.searchTerm) || SomeTagMatches(nb.tags, view.searchTerm)
  {
    FilterSatisfies(notebooks, Shown(view));
  }

  /** With an empty search and no active filters every notebook is shown, in order. */
  lemma EmptyViewShowsAll(notebooks: seq<NotebookCard>)
    ensures FilteredNotebooks(notebooks, View("", [])) == notebooks
  {
    FilterAll(notebooks, Shown(View("", [])));
  }

  /** `toggleFilter`: drop every occurrence of an active tag, or append an inactive one. */
  function ToggleFilter(active: seq<string>, tag: string): seq<string> {
    if tag in active then Filter(active, (f: string) => f != tag) else active + [tag]
  }

  /** Toggling flips whether the tag is active and leaves every other tag as it was. */
  lemma ToggleFilterSpec(active: seq<string>, tag: string)
    ensures tag in ToggleFilter(active, tag) <==> tag !in active
    ensures forall t :: t != tag ==> (t in ToggleFilter(active, tag) <==> t in active)
  {
    FilterKeeps(active, (f: string) => f != tag);
  }

  /** Toggling an inactive tag twice gives back the same list. */
  lemma ToggleTwiceRestores(active: seq<string>, tag: string)
    requires tag !in active
    ensures ToggleFilter(ToggleFilter(active, tag), tag) == active
  {
    var p := (f: string) => f != tag;
    FilterAppend(active, [tag], p);
    FilterAll(active, p);
    assert Filter([tag], p) == [];
  }

  /** `clearFilters`: no active filters and an empty search. */
  function ClearFilters(view: View): (v: View)
    ensures v.activeFilters == [] && v.searchTerm == ""
  {
    View("", [])
  }

  /** After clearing, every notebook is shown again. */
  lemma ClearShowsAll(notebooks: seq<NotebookCard>, view: View)
    ensures FilteredNotebooks(notebooks, ClearFilters(view)) == notebooks
  {
    EmptyViewShowsAll(notebooks);
  }
}
