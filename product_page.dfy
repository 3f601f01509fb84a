/**
 * The catalog page (`ProductPage`): the list loaded from the catalog
 * endpoint and the search filter that is recomputed whenever the list or the
 * search term changes.  Everything here is a value: the page state is the
 * loaded list and the term, and the shown list is a function of both.
 */
module ProductPage {
  import opened Common
  import opened Text

  // ---------------------------------------------------------------------------
  // The search filter

  /** `mango.name.toLowerCase().includes(term.toLowerCase()) ||
      mango.description.toLowerCase().includes(term.toLowerCase())`. */
  predicate Matches(p: Product, term: string) {
    Includes(ToLower(p.name), ToLower(term)) || Includes(ToLower(p.description), ToLower(term))
  }

  /** `mangoes.filter(mango => Matches(mango, term))`. */
  function Filter(ms: seq<Product>, term: string): (r: seq<Product>)
    ensures |r| <= |ms|
  {
    if ms == [] then []
    else if Matches(ms[0], term) then [ms[0]] + Filter(ms[1..], term)
    else Filter(ms[1..], term)
  }

  /** `a` is `b` with some elements left out, the rest in their order. */
  predicate IsSublist<T(==)>(a: seq<T>, b: seq<T>)
    decreases |b|
  {
    if a == [] then true
    else if b == [] then false
    else (a[0] == b[0] && IsSublist(a[1..], b[1..])) || IsSublist(a, b[1..])
  }

  /** A product is shown exactly when it is in the list and matches the term. */
  lemma {:induction false} FilterMembers(ms: seq<Product>, term: string, p: Product)
    ensures p in Filter(ms, term) <==> p in ms && Matches(p, term)
  {
    if ms != [] {
      FilterMembers(ms[1..], term, p);
      assert ms == [ms[0]] + ms[1..];
    }
  }

  /** The shown list keeps the order of the loaded list. */
  lemma {:induction false} FilterIsSublist(ms: seq<Product>, term: string)
    ensures IsSublist(Filter(ms, term), ms)
  {
    if ms != [] {
      FilterIsSublist(ms[1..], term);
      var r := Filter(ms, term);
      if Matches(ms[0], term) {
        assert r[0] == ms[0] && r[1..] == Filter(ms[1..], term);
      } else if r != [] {
        assert IsSublist(r, ms[1..]);
      }
    }
  }

  /** A list is kept whole exactly when every product in it matches. */
  lemma {:induction false} FilterKeepsAllIff(ms: seq<Product>, term: string)
    ensures Filter(ms, term) == ms <==> forall i :: 0 <= i < |ms| ==> Matches(ms[i], term)
  {
    if ms != [] {
      FilterKeepsAllIff(ms[1..], term);
      if !Matches(ms[0], term) {
        assert |Filter(ms, term)| < |ms|;
      } else {
        assert forall i :: 1 <= i < |ms| ==> ms[i] == ms[1..][i - 1];
      }
    }
  }

  /** The empty term matches every product, so it shows the whole list. */
  lemma EmptyTermShowsAll(ms: seq<Product>)
    ensures Filter(ms, "") == ms
  {
    assert ToLower("") == "";
    forall i | 0 <= i < |ms| ensures Matches(ms[i], "") {
      IncludesEmpty(ToLower(ms[i].name));
    }
    FilterKeepsAllIff(ms, "");
  }

  /** The search ignores ASCII case: an upper-cased term shows the same list. */
  lemma {:induction false} SearchIgnoresCase(ms: seq<Product>, term: string)
    ensures Filter(ms, ToUpper(term)) == Filter(ms, term)
  {
    assert ToLower(ToUpper(term)) == ToLower(term);
    if ms != [] {
      SearchIgnoresCase(ms[1..], term);
    }
  }

  // ---------------------------------------------------------------------------
  // Loading and the page state

  /** What the catalog request can end in: a body whose `allData` may be
      absent, or a thrown error. */
  datatype CatalogReply = Fetched(allData: Option<seq<Product>>) | FetchFailed

  /** The loaded list and the search term; the shown list is derived. */
  datatype PageState = PageState(mangoes: seq<Product>, searchTerm: string)

  const InitialState: PageState := PageState([], "")

  /** `filteredMangoes`, as the filter effect leaves it after every change. */
  function Shown(s: PageState): seq<Product> {
    Filter(s.mangoes, s.searchTerm)
  }

  /** `fetchAllMangoes`: a body replaces the list with `allData || []` and the
      page reports success even when `allData` is missing; a thrown error keeps
      the list and reports the failure. */
  function Load(s: PageState, reply: CatalogReply): (r: (PageState, Toast))
    ensures r.0.searchTerm == s.searchTerm
    ensures reply.FetchFailed? ==> r.0 == s && r.1 == Error("Failed to load products")
    ensures reply.Fetched? ==> r.1 == Success("Products loaded successfully! \U{1F96D}")
    ensures reply.Fetched? && reply.allData.Some? ==> r.0.mangoes == reply.allData.value
    ensures reply.Fetched? && reply.allData.None? ==> r.0.mangoes == []
  {
    match reply
    case Fetched(allData) =>
      (s.(mangoes := allData.GetOr([])), Success("Products loaded successfully! \U{1F96D}"))
    case FetchFailed => (s, Error("Failed to load products"))
  }

  /** A body without `allData` leaves both the full and the shown list empty. */
  lemma MissingDataShowsNothing(s: PageState)
    ensures Load(s, Fetched(None)).0.mangoes == []
    ensures Shown(Load(s, Fetched(None)).0) == []
  {
  }

  /** Typing into the search box replaces the term. */
  function Search(s: PageState, term: string): PageState {
    s.(searchTerm := term)
  }

  /** The "clear search" button (`setSearchTerm("")`) shows the whole list again. */
  lemma ClearSearchShowsAll(s: PageState)
    ensures Shown(Search(s, "")) == s.mangoes
  {
    EmptyTermShowsAll(s.mangoes);
  }

  /** `{filteredMangoes.length} of {mangoes.length} mangoes found`. */
  function CountLabel(s: PageState): string {
    DecimalString(|Shown(s)|) + " of " + DecimalString(|s.mangoes|) + " mangoes found"
  }

  /** The first number of the label never exceeds the second, and they are equal
      when the term is empty. */
  lemma CountLabelBounds(s: PageState)
    ensures |Shown(s)| <= |s.mangoes|
    ensures s.searchTerm == "" ==> |Shown(s)| == |s.mangoes|
  {
    if s.searchTerm == "" {
      EmptyTermShowsAll(s.mangoes);
    }
  }
}
