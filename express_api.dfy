/**
 * The mock Express backend of backend/index.js: the notebook listing, the lookup by id, the
 * replacement of a notebook's sources, and the discover search over a fixed catalogue of
 * resources. Request parameters arrive as optional strings, as Express hands them over.
 */
module ExpressApi {
  import opened Wrappers
  import opened Text
  import opened Lists
  import opened Ranking

  // ---------------------------------------------------------------- JavaScript's parseInt

  /** The value of an ASCII digit or letter as `parseInt` reads it: 0-9, then a/A = 10 up to z/Z = 35. */
  function DigitValue(c: char): nat {
    if '0' <= c <= '9' then c as int - '0' as int
    else if 'a' <= c <= 'z' then c as int - 'a' as int + 10
    else if 'A' <= c <= 'Z' then c as int - 'A' as int + 10
    else 36
  }

  predicate IsRadixDigit(c: char, radix: nat) {
    DigitValue(c) < radix
  }

  /** The length of the longest prefix of `s` made of digits in `radix`. */
  function LeadingDigits(s: string, radix: nat): (n: nat)
    ensures n <= |s|
    ensures forall i :: 0 <= i < n ==> IsRadixDigit(s[i], radix)
    ensures n < |s| ==> !IsRadixDigit(s[n], radix)
  {
    if s != [] && IsRadixDigit(s[0], radix) then 1 + LeadingDigits(s[1..], radix) else 0
  }

  /** The value of a string of digits in `radix`, most significant first. */
  function RadixValue(s: string, radix: nat): nat {
    if s == [] then 0 else RadixValue(s[..|s| - 1], radix) * radix + DigitValue(s[|s| - 1])
  }

  /**
   * `parseInt(s)` without a radix: leading whitespace is skipped, one sign is read, a "0x" or
   * "0X" prefix switches to base 16, and the longest run of digits that follows is the value.
   * `None` stands for NaN, the result when that run is empty.
   */
  function JsParseInt(s: string): Option<int> {
    var t := TrimStart(s, JavaScript);
    var negative := t != [] && t[0] == '-';
    var u := if t != [] && (t[0] == '-' || t[0] == '+') then t[1..] else t;
    var hex := |u| >= 2 && u[0] == '0' && (u[1] == 'x' || u[1] == 'X');
    var radix := if hex then 16 else 10;
    var body := if hex then u[2..] else u;
    var n := LeadingDigits(body, radix);
    if n == 0 then None
    else
      var v: int := RadixValue(body[..n], radix);
      Some(if negative then -v else v)
  }

  /** On decimal digits the radix-10 reading is the decimal value. */
  lemma {:induction false} RadixValueDecimal(s: string)
    requires AllDigits(s)
    ensures RadixValue(s, 10) == DigitsValue(s)
  {
    if s != [] {
      RadixValueDecimal(s[..|s| - 1]);
    }
  }

  /**
   * A rendered number followed by anything that is not a letter or digit (such as ".5",
   * "px" excluded) parses back to the number: `parseInt` stops at the first non-digit.
   */
  lemma JsParseIntOfDecimal(n: nat, rest: string)
    requires rest == [] || !IsAsciiAlnum(rest[0])
    ensures JsParseInt(NatToString(n) + rest) == Some(n)
  {
    var d := NatToString(n);
    var s := d + rest;
    assert s[0] == d[0];
    assert TrimStart(s, JavaScript) == s;
    assert |s| >= 2 && s[1] == 'x' ==> |d| >= 2 by {
      if |d| < 2 && |s| >= 2 {
        assert s[1] == rest[0];
      }
    }
    LeadingDigitsOfDigits(d, rest);
    assert s[..|d|] == d;
    RadixValueDecimal(d);
    DigitsValueOfNatToString(n);
  }

  /** The digit run of `d + rest` is exactly `d` when `rest` does not start with a digit. */
  lemma {:induction false} LeadingDigitsOfDigits(d: string, rest: string)
    requires AllDigits(d)
    requires rest == [] || !IsAsciiAlnum(rest[0])
    ensures LeadingDigits(d + rest, 10) == |d|
  {
    if d != [] {
      assert (d + rest)[1..] == d[1..] + rest;
      LeadingDigitsOfDigits(d[1..], rest);
    } else {
      assert d + rest == rest;
    }
  }

  /** A string without any decimal digit is NaN to `parseInt`. */
  lemma JsParseIntWithoutDigits(s: string)
    requires forall i :: 0 <= i < |s| ==> !IsDigit(s[i])
    ensures JsParseInt(s) == None
  {
    var t := TrimStart(s, JavaScript);
    TrimStartSpec(s, JavaScript);
    assert forall i :: 0 <= i < |t| ==> t[i] == s[|s| - |t| + i];
  }

  // ---------------------------------------------------------------- notebooks

  datatype Source = Source(id: string, title: string, kind: string, selected: bool, dateAdded: string)

  datatype Notebook = Notebook(
    id: int, title: string, className: string, section: string, tags: seq<string>,
    lastModified: string, noteCount: int, color: string, description: string,
    createdDate: string, sources: seq<Source>)

  /** A notebook as the listing shows it: everything but its sources and creation date. */
  datatype NotebookSummary = NotebookSummary(
    id: int, title: string, className: string, section: string, tags: seq<string>,
    lastModified: string, noteCount: int, color: string, description: string)

  /** GET /api/notebooks: one summary per notebook, in order, with the listed fields copied. */
  function Listing(nbs: seq<Notebook>): (r: seq<NotebookSummary>)
    ensures |r| == |nbs|
    ensures forall i :: 0 <= i < |nbs| ==>
      && r[i].id == nbs[i].id && r[i].title == nbs[i].title && r[i].className == nbs[i].className
      && r[i].section == nbs[i].section && r[i].tags == nbs[i].tags
      && r[i].lastModified == nbs[i].lastModified && r[i].noteCount == nbs[i].noteCount
      && r[i].color == nbs[i].color && r[i].description == nbs[i].description
  {
    seq(|nbs|, i requires 0 <= i < |nbs| =>
      var nb := nbs[i];
      NotebookSummary(nb.id, nb.title, nb.className, nb.section, nb.tags, nb.lastModified,
        nb.noteCount, nb.color, nb.description))
  }

  /** `findIndex(nb => nb.id === id)`: the first notebook with that id; NaN matches none. */
  function FindIndex(nbs: seq<Notebook>, id: Option<int>): (r: Option<nat>)
    ensures r.Some? ==>
      && r.value < |nbs| && id.Some? && nbs[r.value].id == id.value
      && forall j :: 0 <= j < r.value ==> nbs[j].id != id.value
    ensures r.None? ==> id.None? || forall j :: 0 <= j < |nbs| ==> nbs[j].id != id.value
  {
    if id.None? || nbs == [] then None
    else if nbs[0].id == id.value then Some(0)
    else match FindIndex(nbs[1..], id)
      case None => None
      case Some(k) => Some(k + 1)
  }

  datatype GetResponse = NotebookFound(notebook: Notebook) | NotebookNotFound

  /** GET /api/notebooks/:id: the id parameter goes through `parseInt`, then the first match is returned. */
  function GetNotebook(nbs: seq<Notebook>, idParam: string): (r: GetResponse)
    ensures r.NotebookNotFound? <==> FindIndex(nbs, JsParseInt(idParam)).None?
    ensures r.NotebookFound? ==> r.notebook in nbs && Some(r.notebook.id) == JsParseInt(idParam)
  {
    match FindIndex(nbs, JsParseInt(idParam))
    case None => NotebookNotFound
    case Some(i) => NotebookFound(nbs[i])
  }

  /** Whether some source in `sources` has the id `id` (`some(prev => prev.id === id)`). */
  predicate HasId(sources: seq<Source>, id: string) {
    exists j :: 0 <= j < |sources| && sources[j].id == id
  }

  /** The sources of a PUT that count as newly imported: an "imported_" id absent from the previous sources. */
  function NewImported(sources: seq<Source>, previous: seq<Source>): seq<Source> {
    Filter(sources, (s: Source) => StartsWith(s.id, "imported_") && !HasId(previous, s.id))
  }

  /** A source is newly imported exactly when it is sent, carries an "imported_" id and no previous source has its id. */
  lemma NewImportedSpec(sources: seq<Source>, previous: seq<Source>)
    ensures forall s :: s in NewImported(sources, previous) <==>
      s in sources && StartsWith(s.id, "imported_") && forall q :: q in previous ==> q.id != s.id
  {
    FilterKeeps(sources, (s: Source) => StartsWith(s.id, "imported_") && !HasId(previous, s.id));
  }

  /** Sending the current sources again imports nothing. */
  lemma ResendImportsNothing(sources: seq<Source>)
    ensures NewImported(sources, sources) == []
  {
    forall x | x in sources ensures HasId(sources, x.id) {
      var j :| 0 <= j < |sources| && sources[j] == x;
    }
    FilterNone(sources, (s: Source) => StartsWith(s.id, "imported_") && !HasId(sources, s.id));
  }

  datatype PutResponse =
    | PutNotFound
    | PutBadRequest
    | SourcesUpdated(notebook: Notebook, importedCount: nat, totalSources: nat)

  /** The notebook after a successful PUT: the sources replaced and the modification label reset. */
  function WithSources(nb: Notebook, sources: seq<Source>): Notebook {
    nb.(sources := sources, lastModified := "Just now")
  }

  /** A PUT changes the listing only in the modification label of the notebook it updates. */
  lemma ListingAfterUpdate(nbs: seq<Notebook>, i: nat, sources: seq<Source>)
    requires i < |nbs|
    ensures Listing(nbs[i := WithSources(nbs[i], sources)])
      == Listing(nbs)[i := Listing(nbs)[i].(lastModified := "Just now")]
  {
  }

  /** The first-match lookup only looks at ids: sequences with the same ids give the same index. */
  lemma FindIndexByIds(a: seq<Notebook>, b: seq<Notebook>, id: Option<int>)
    requires |a| == |b| && forall j :: 0 <= j < |a| ==> a[j].id == b[j].id
    ensures FindIndex(a, id) == FindIndex(b, id)
  {
    var ra, rb := FindIndex(a, id), FindIndex(b, id);
    if ra.Some? {
      assert b[ra.value].id == id.value;
    }
    if rb.Some? {
      assert a[rb.value].id == id.value;
    }
  }

  /** After a successful PUT, looking the notebook up by the same id finds the updated notebook. */
  lemma GetAfterUpdate(nbs: seq<Notebook>, idParam: string, sources: seq<Source>)
    requires FindIndex(nbs, JsParseInt(idParam)).Some?
    ensures var i := FindIndex(nbs, JsParseInt(idParam)).value;
      GetNotebook(nbs[i := WithSources(nbs[i], sources)], idParam) == NotebookFound(WithSources(nbs[i], sources))
  {
    var i := FindIndex(nbs, JsParseInt(idParam)).value;
    FindIndexByIds(nbs, nbs[i := WithSources(nbs[i], sources)], JsParseInt(idParam));
  }

  // ---------------------------------------------------------------- discover

  datatype Resource = Resource(
    id: string, title: string, kind: string, url: string, description: string,
    subject: string, level: string)

  /** `query.toLowerCase().trim()`. */
  function SearchTerm(query: string): string {
    Strip(Lower(query), JavaScript)
  }

  /** The term occurs in the lower-cased title, description or subject. */
  predicate MatchesTerm(r: Resource, term: string) {
    Contains(Lower(r.title), term) || Contains(Lower(r.description), term) || Contains(Lower(r.subject), term)
  }

  function TermMatcher(term: string): Resource -> bool {
    (r: Resource) => MatchesTerm(r, term)
  }

  /** `type && type !== 'all'`: a type filter is in force. */
  predicate TypeFiltered(kind: Option<string>) {
    kind.Some? && kind.value != "" && kind.value != "all"
  }

  predicate MatchesType(r: Resource, kind: Option<string>) {
    !TypeFiltered(kind) || r.kind == kind.value
  }

  function KindIs(kind: string): Resource -> bool {
    (r: Resource) => r.kind == kind
  }

  /** The relevance the sort uses: 2 for the term in the title plus 1 for the term in the description. */
  function Relevance(r: Resource, term: string): (score: real)
    ensures score == 0.0 || score == 1.0 || score == 2.0 || score == 3.0
    ensures score >= 2.0 <==> Contains(Lower(r.title), term)
  {
    (if Contains(Lower(r.title), term) then 2.0 else 0.0)
      + (if Contains(Lower(r.description), term) then 1.0 else 0.0)
  }

  function RelevanceKey(term: string): Resource -> real {
    (r: Resource) => Relevance(r, term)
  }

  /** The catalogue entries that pass the term filter and then the type filter, in catalogue order. */
  function Matching(catalog: seq<Resource>, term: string, kind: Option<string>): seq<Resource> {
    var byTerm := Filter(catalog, TermMatcher(term));
    if TypeFiltered(kind) then Filter(byTerm, KindIs(kind.value)) else byTerm
  }

  /** Exactly the catalogue entries that match the term and the type are matching. */
  lemma MatchingSpec(catalog: seq<Resource>, term: string, kind: Option<string>)
    ensures forall r :: r in Matching(catalog, term, kind) <==>
      r in catalog && MatchesTerm(r, term) && MatchesType(r, kind)
    ensures multiset(Matching(catalog, term, kind)) <= multiset(catalog)
  {
    var byTerm := Filter(catalog, TermMatcher(term));
    FilterKeeps(catalog, TermMatcher(term));
    FilterSubMultiset(catalog, TermMatcher(term));
    if TypeFiltered(kind) {
      FilterKeeps(byTerm, KindIs(kind.value));
      FilterSubMultiset(byTerm, KindIs(kind.value));
    }
  }

  /** The limit parameter: 20 when absent, otherwise `parseInt` of it (NaN as `None`). */
  function LimitValue(limit: Option<string>): Option<int> {
    if limit.None? then Some(20) else JsParseInt(limit.value)
  }

  /** `limitNum > 0 && limitNum < count`: the only case in which results are cut. */
  predicate Cuts(n: Option<int>, count: nat) {
    n.Some? && 0 < n.value < count
  }

  /** The resources a discover search returns for a non-blank query. */
  function DiscoverResults(catalog: seq<Resource>, term: string, kind: Option<string>, n: Option<int>): seq<Resource> {
    var sorted := SortDesc(Matching(catalog, term, kind), RelevanceKey(term));
    if Cuts(n, |sorted|) then sorted[..n.value] else sorted
  }

  /**
   * Every returned resource matches the term and the type and comes from the catalogue; the
   * results are ordered by non-increasing relevance; there are `n` of them when the limit cuts
   * and all matching ones otherwise.
   */
  lemma DiscoverResultsMatch(catalog: seq<Resource>, term: string, kind: Option<string>, n: Option<int>)
    ensures var m, rs := Matching(catalog, term, kind), DiscoverResults(catalog, term, kind, n);
      && (forall i :: 0 <= i < |rs| ==> MatchesTerm(rs[i], term) && MatchesType(rs[i], kind))
      && multiset(rs) <= multiset(catalog)
      && SortedDesc(rs, RelevanceKey(term))
      && |rs| == (if Cuts(n, |m|) then n.value else |m|)
  {
    var m := Matching(catalog, term, kind);
    var sorted := SortDesc(m, RelevanceKey(term));
    var rs := DiscoverResults(catalog, term, kind, n);
    SortDescSpec(m, RelevanceKey(term));
    MatchingSpec(catalog, term, kind);
    assert |sorted| == |m| by {
      assert |multiset(sorted)| == |multiset(m)|;
    }
    if Cuts(n, |sorted|) {
      PrefixFacts(sorted, n.value, RelevanceKey(term));
    }
    forall i | 0 <= i < |rs| ensures MatchesTerm(rs[i], term) && MatchesType(rs[i], kind) {
      assert rs[i] in multiset(m);
    }
  }

  /**
   * When the limit does not cut, the search is complete and stable: every catalogue entry
   * matching the term and the type is returned, and resources of equal relevance keep their
   * catalogue order.
   */
  lemma DiscoverResultsComplete(catalog: seq<Resource>, term: string, kind: Option<string>, n: Option<int>)
    requires !Cuts(n, |Matching(catalog, term, kind)|)
    ensures var m, rs := Matching(catalog, term, kind), DiscoverResults(catalog, term, kind, n);
      && (forall x :: x in catalog && MatchesTerm(x, term) && MatchesType(x, kind) ==> x in rs)
      && forall k :: WithKey(rs, RelevanceKey(term), k) == WithKey(m, RelevanceKey(term), k)
  {
    var m := Matching(catalog, term, kind);
    var sorted := SortDesc(m, RelevanceKey(term));
    SortDescSpec(m, RelevanceKey(term));
    MatchingSpec(catalog, term, kind);
    assert |sorted| == |m| by {
      assert |multiset(sorted)| == |multiset(m)|;
    }
    forall x | x in catalog && MatchesTerm(x, term) && MatchesType(x, kind) ensures x in sorted {
      assert x in multiset(m);
    }
  }

  /** A prefix of a sorted sequence is sorted and holds part of its elements. */
  lemma PrefixFacts<T>(s: seq<T>, n: nat, key: T -> real)
    requires n <= |s| && SortedDesc(s, key)
    ensures SortedDesc(s[..n], key)
    ensures multiset(s[..n]) <= multiset(s)
  {
    assert s == s[..n] + s[n..];
  }

  /** `filters.type` of the response: the type parameter, or 'all' when it is absent or empty. */
  function TypeLabel(kind: Option<string>): string {
    if kind.Some? && kind.value != "" then kind.value else "all"
  }

  datatype DiscoverResponse =
    | DiscoverBadRequest(error: string)
    | Discovered(resources: seq<Resource>, query: string, total: nat, typeLabel: string)

  /** The notebooks and the discover catalogue the server holds in memory. */
  class MockBackend {
    var notebooks: seq<Notebook>
    const catalog: seq<Resource>

    constructor(notebooks: seq<Notebook>, catalog: seq<Resource>)
      ensures this.notebooks == notebooks && this.catalog == catalog
    {
      this.notebooks := notebooks;
      this.catalog := catalog;
    }

    /**
     * PUT /api/notebooks/:id/sources. An unknown id is rejected before the body is looked
     * at; a body whose `sources` is not an array (`None`) is rejected next; otherwise the
     * notebook's sources are replaced in place, its label becomes "Just now", and the
     * response counts the newly imported sources and all sources sent.
     */
    method UpdateSources(idParam: string, sources: Option<seq<Source>>) returns (r: PutResponse)
      modifies this
      ensures var i := FindIndex(old(notebooks), JsParseInt(idParam));
        && (r.PutNotFound? <==> i.None?)
        && (r.PutBadRequest? <==> i.Some? && sources.None?)
        && (!r.SourcesUpdated? ==> notebooks == old(notebooks))
        && (r.SourcesUpdated? ==>
          && notebooks == old(notebooks)[i.value := WithSources(old(notebooks)[i.value], sources.value)]
          && r.notebook == notebooks[i.value]
          && r.importedCount == |NewImported(sources.value, old(notebooks)[i.value].sources)|
          && r.totalSources == |sources.value|)
    {
      var notebookIndex := FindIndex(notebooks, JsParseInt(idParam));
      if notebookIndex.None? {
        return PutNotFound;
      }
      if sources.None? {
        return PutBadRequest;
      }
      var i := notebookIndex.value;
      var previousSources := notebooks[i].sources;
      var newImportedSources := NewImported(sources.value, previousSources);
      notebooks := notebooks[i := notebooks[i].(sources := sources.value)];
      notebooks := notebooks[i := notebooks[i].(lastModified := "Just now")];
      r := SourcesUpdated(notebooks[i], |newImportedSources|, |sources.value|);
    }

    /**
     * GET /api/discover. A missing or blank query is a 400. Otherwise the catalogue entries
     * whose title, description or subject contains the lower-cased, trimmed query, narrowed to
     * the requested type, are ordered by relevance and cut to the limit (DiscoverResults,
     * whose properties DiscoverResultsMatch and DiscoverResultsComplete state). The method
     * has no `modifies` clause: the catalogue and the notebooks stay as they are.
     */
    method Discover(query: Option<string>, kind: Option<string>, limit: Option<string>) returns (r: DiscoverResponse)
      ensures r.DiscoverBadRequest? <==> query.None? || IsBlank(query.value, JavaScript)
      ensures r.Discovered? ==>
        && r.resources == DiscoverResults(catalog, SearchTerm(query.value), kind, LimitValue(limit))
        && r.query == query.value && r.total == |r.resources| && r.typeLabel == TypeLabel(kind)
    {
      if query.None? || IsBlank(query.value, JavaScript) {
        return DiscoverBadRequest("Search query is required");
      }
      var filteredResources := catalog;
      var searchTerm := SearchTerm(query.value);
      filteredResources := Filter(filteredResources, TermMatcher(searchTerm));
      if TypeFiltered(kind) {
        filteredResources := Filter(filteredResources, KindIs(kind.value));
      }
      filteredResources := SortDesc(filteredResources, RelevanceKey(searchTerm));
      var limitNum := LimitValue(limit);
      if limitNum.Some? && limitNum.value > 0 && limitNum.value < |filteredResources| {
        filteredResources := filteredResources[..limitNum.value];
      }
      r := Discovered(filteredResources, query.value, |filteredResources|, TypeLabel(kind));
    }
  }
}
