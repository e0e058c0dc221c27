/**
 * The discover dialog of a notebook (frontend/src/components/notebook/DiscoverModal.tsx):
 * the state it resets on opening, the search it sends to the backend, the set of selected
 * resource ids, select-all, and the import of the selected results.
 */
module DiscoverModal {
  import opened Wrappers
  import opened Text
  import opened Lists
  import ExpressApi

  type Resource = ExpressApi.Resource

  /** The component state that the handlers read and replace. */
  datatype ModalState = ModalState(
    searchQuery: string, typeFilter: string, results: seq<Resource>, selected: set<string>,
    loading: bool, error: Option<string>, hasSearched: bool)

  /** The effect on `isOpen`: opening the dialog clears the query, filter, results, selection, error and search flag. */
  function OnOpenChange(s: ModalState, isOpen: bool): (t: ModalState)
    ensures isOpen ==>
      && t.searchQuery == "" && t.typeFilter == "all" && t.results == []
      && t.selected == {} && t.error.None? && !t.hasSearched && t.loading == s.loading
    ensures !isOpen ==> t == s
  {
    if isOpen then
      s.(searchQuery := "", typeFilter := "all", results := [], selected := {}, error := None, hasSearched := false)
    else s
  }

  const BlankQueryError := "Please enter a search query"

  /**
   * A freshly opened dialog keeps nothing from its last use: a search before anything is typed
   * only reports the blank query, an import passes nothing, and the first successful search
   * shows its results with none of them selected, so nothing is imported until the user selects.
   */
  lemma OpenedDialogStartsFresh(s: ModalState, query: string, outcome: Result<seq<Resource>>)
    requires !IsBlank(query, JavaScript) && outcome.Ok?
    ensures var t := OnOpenChange(s, true);
      && HandleSearch(t, outcome) == t.(error := Some(BlankQueryError))
      && Imported(t) == []
      && var u := HandleSearch(t.(searchQuery := query), outcome);
         u.results == outcome.value && u.selected == {} && Imported(u) == []
  {
    var t := OnOpenChange(s, true);
    var u := HandleSearch(t.(searchQuery := query), outcome);
    FilterNone(u.results, (r: Resource) => r.id in u.selected);
  }

  /** The query string `searchResources` sends: the trimmed query, limit 20, and the type unless it is 'all'. */
  datatype DiscoverRequest = DiscoverRequest(q: string, kind: Option<string>, limit: string)

  function RequestOf(s: ModalState): DiscoverRequest {
    DiscoverRequest(Strip(s.searchQuery, JavaScript), if s.typeFilter != "" && s.typeFilter != "all" then Some(s.typeFilter) else None, "20")
  }

  /**
   * `handleSearch`, given what the request to the backend produced (`outcome`: the resources,
   * or the error message). A blank query only sets the error. Otherwise the results are
   * replaced on success and kept on failure, the error is cleared or set, the dialog records
   * that a search happened, and loading ends.
   */
  function HandleSearch(s: ModalState, outcome: Result<seq<Resource>>): ModalState {
    if IsBlank(s.searchQuery, JavaScript) then s.(error := Some(BlankQueryError))
    else match outcome
      case Ok(resources) => s.(results := resources, error := None, hasSearched := true, loading := false)
      case Err(message) => s.(error := Some(message), hasSearched := true, loading := false)
  }

  /** A blank query issues no search: only the error message changes. */
  lemma BlankSearchChangesOnlyError(s: ModalState, outcome: Result<seq<Resource>>)
    requires IsBlank(s.searchQuery, JavaScript)
    ensures HandleSearch(s, outcome) == s.(error := Some(BlankQueryError))
  {
  }

  /** A search never touches the selection, and a successful one shows exactly the returned resources. */
  lemma SearchKeepsSelection(s: ModalState, outcome: Result<seq<Resource>>)
    ensures HandleSearch(s, outcome).selected == s.selected
    ensures !IsBlank(s.searchQuery, JavaScript) && outcome.Ok? ==>
      HandleSearch(s, outcome).results == outcome.value && HandleSearch(s, outcome).error.None?
    ensures outcome.Err? ==> HandleSearch(s, outcome).results == s.results
  {
  }

  /** The request of a non-blank query is one the backend accepts: its query is not blank. */
  lemma RequestAccepted(s: ModalState)
    requires !IsBlank(s.searchQuery, JavaScript)
    ensures !IsBlank(RequestOf(s).q, JavaScript)
  {
    StripEmptyIffBlank(s.searchQuery, JavaScript);
    TrimEndSpec(TrimStart(s.searchQuery, JavaScript), JavaScript);
  }

  /**
   * `toggleResourceSelection`: a copy of the selection with the id added when it was absent
   * and removed when it was present; no other id changes.
   */
  method ToggleResourceSelection(selected: set<string>, resourceId: string) returns (newSelected: set<string>)
    ensures resourceId in newSelected <==> resourceId !in selected
    ensures forall id :: id != resourceId ==> (id in newSelected <==> id in selected)
  {
    newSelected := selected;
    if resourceId in newSelected {
      newSelected := newSelected - {resourceId};
    } else {
      newSelected := newSelected + {resourceId};
    }
  }

  /** The ids of the shown results. */
  function ResultIds(results: seq<Resource>): set<string> {
    set i | 0 <= i < |results| :: results[i].id
  }

  /**
   * `selectAllResources` as written: the selection is cleared when its size equals the number
   * of results, and otherwise becomes the ids of the results.
   */
  function SelectAllAsWritten(selected: set<string>, results: seq<Resource>): set<string> {
    if |selected| == |results| then {} else ResultIds(results)
  }

  /**
   * The size test misfires when the selection holds ids from an earlier search (a new search
   * keeps the selection): two stale ids and two new results make the click clear the selection
   * although none of the shown results was selected.
   */
  lemma SelectAllAsWrittenMisfires()
    ensures var a := ExpressApi.Resource("c", "", "pdf", "", "", "", "");
      var b := ExpressApi.Resource("d", "", "pdf", "", "", "", "");
      && ResultIds([a, b]) !! {"a", "b"}
      && SelectAllAsWritten({"a", "b"}, [a, b]) == {}
  {
    var a := ExpressApi.Resource("c", "", "pdf", "", "", "", "");
    var b := ExpressApi.Resource("d", "", "pdf", "", "", "", "");
    assert [a, b][0].id == "c" && [a, b][1].id == "d";
    assert ResultIds([a, b]) == {"c", "d"};
    assert |{"a", "b"}| == 2 by {
      assert "a" != "b";
    }
  }

  /** Select-all as intended: clear when every shown result is already selected, otherwise select exactly the shown results. */
  function SelectAll(selected: set<string>, results: seq<Resource>): (r: set<string>)
    ensures ResultIds(results) <= selected ==> r == {}
    ensures !(ResultIds(results) <= selected) ==> r == ResultIds(results)
  {
    if ResultIds(results) <= selected then {} else ResultIds(results)
  }

  /**
   * Without stale ids the two agree: when every selected id is a shown result and the shown
   * results have distinct ids, the size test is the same as "every shown result is selected".
   */
  lemma SelectAllAgreesWithoutStaleIds(selected: set<string>, results: seq<Resource>)
    requires selected <= ResultIds(results)
    requires |ResultIds(results)| == |results|
    ensures SelectAllAsWritten(selected, results) == SelectAll(selected, results)
  {
    var ids := ResultIds(results);
    if |selected| == |results| {
      var missing := ids - selected;
      assert ids == selected + missing;
      assert |ids| == |selected| + |missing|;
      assert missing == {};
    } else {
      assert ids != selected;
      assert !(ids <= selected);
    }
  }

  /** `handleImport`: the shown results whose id is selected, in result order. */
  function Imported(s: ModalState): seq<Resource> {
    Filter(s.results, (r: Resource) => r.id in s.selected)
  }

  /** A result is imported exactly when it is shown and its id is selected; ids selected in an earlier search but not shown are not imported. */
  lemma ImportedSpec(s: ModalState)
    ensures forall r :: r in Imported(s) <==> r in s.results && r.id in s.selected
    ensures |Imported(s)| <= |s.results|
  {
    FilterKeeps(s.results, (r: Resource) => r.id in s.selected);
  }

  /** After a select-all that selects, importing takes every shown result, in order. */
  lemma SelectAllThenImport(s: ModalState)
    requires !(ResultIds(s.results) <= s.selected)
    ensures Imported(s.(selected := SelectAll(s.selected, s.results))) == s.results
  {
    var t := s.(selected := SelectAll(s.selected, s.results));
    forall i | 0 <= i < |s.results| ensures s.results[i].id in t.selected {
    }
    FilterAll(s.results, (r: Resource) => r.id in t.selected);
  }

  /** Select-all toggles: a second click right after one that selected every result clears the selection. */
  lemma SelectAllTwiceClears(selected: set<string>, results: seq<Resource>)
    requires !(ResultIds(results) <= selected)
    ensures SelectAll(SelectAll(selected, results), results) == {}
  {
  }
}
