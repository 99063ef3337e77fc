/**
 * The project picker (src/components/ProjectSelector.jsx): facet options
 * drawn from the dataset, the AND-combined search and facet filter, and
 * pagination by 20 with its page-reset and prev/next clamps.
 */
module ProjectSelector {
  import opened Text
  import opened Seqs
  import opened Sumbong

  /** The six facets of the filter panel. */
  datatype Facet = Year | Region | Province | TypeOfWork | Deo | LegislativeDistrict

  /** The project field a facet selects on. */
  function Field(p: Project, k: Facet): string {
    match k
    case Year => p.infraYear
    case Region => p.region
    case Province => p.province
    case TypeOfWork => p.typeOfWork
    case Deo => p.deo
    case LegislativeDistrict => p.legislativeDistrict
  }

  function FieldOf(k: Facet): Project -> string {
    p => Field(p, k)
  }

  predicate NonEmpty(s: string) {
    s != ""
  }

  /**
   * `[...new Set(values.filter(Boolean))].sort()`: the distinct non-empty
   * values, in ascending order.
   */
  function Options(values: seq<string>): (r: seq<string>)
    ensures forall x :: x in r <==> x != "" && x in values
    ensures forall i, j :: 0 <= i < j < |r| ==> StrLess(r[i], r[j])
  {
    var d := Distinct(Filter(values, NonEmpty));
    var r := SortStrings(d);
    assert forall x :: x in r <==> x in d by {
      forall x ensures x in r <==> x in d {
        assert x in r <==> x in multiset(r);
      }
    }
    assert NoDup(r) by {
      forall i, j | 0 <= i < j < |r| ensures r[i] != r[j] {
        if r[i] == r[j] {
          DuplicateCount(r, i, j);
          NoDupCount(d, r[i]);
        }
      }
    }
    forall i, j | 0 <= i < j < |r| ensures StrLess(r[i], r[j]) {
      StrLessTotal(r[i], r[j]);
    }
    r
  }

  lemma DuplicateCount(s: seq<string>, i: int, j: int)
    requires 0 <= i < j < |s| && s[i] == s[j]
    ensures multiset(s)[s[i]] >= 2
  {
    assert s == s[..i] + [s[i]] + s[i + 1..j] + [s[j]] + s[j + 1..];
  }

  lemma {:induction false} NoDupCount(s: seq<string>, x: string)
    requires NoDup(s)
    ensures multiset(s)[x] <= 1
  {
    if s != [] {
      var init := s[..|s| - 1];
      assert s == init + [s[|s| - 1]];
      assert NoDup(init);
      NoDupCount(init, x);
      if x == s[|s| - 1] {
        assert x !in init;
      }
    }
  }

  /** `extract(key)`: the options offered for one facet. */
  function Extract(projects: seq<Project>, k: Facet): (r: seq<string>)
    ensures forall x :: x in r <==> x != "" && exists p :: p in projects && Field(p, k) == x
    ensures forall i, j :: 0 <= i < j < |r| ==> StrLess(r[i], r[j])
  {
    var values := Map(projects, FieldOf(k));
    assert forall x :: x in values <==> exists p :: p in projects && Field(p, k) == x by {
      forall x ensures x in values <==> exists p :: p in projects && Field(p, k) == x {
        if x in values {
          var i :| 0 <= i < |values| && values[i] == x;
          assert projects[i] in projects;
        }
        if exists p :: p in projects && Field(p, k) == x {
          var p :| p in projects && Field(p, k) == x;
          var i :| 0 <= i < |projects| && projects[i] == p;
          assert values[i] == x;
        }
      }
    }
    Options(values)
  }

  /** The selected facet values; '' means "any". */
  datatype Filters = Filters(year: string, region: string, province: string,
                             typeOfWork: string, deo: string, legislativeDistrict: string)
  {
    function Get(k: Facet): string {
      match k
      case Year => year
      case Region => region
      case Province => province
      case TypeOfWork => typeOfWork
      case Deo => deo
      case LegislativeDistrict => legislativeDistrict
    }

    /** `{ ...prev, [key]: value }`. */
    function Set(k: Facet, value: string): (f: Filters)
      ensures f.Get(k) == value
      ensures forall j :: j != k ==> f.Get(j) == Get(j)
    {
      match k
      case Year => this.(year := value)
      case Region => this.(region := value)
      case Province => this.(province := value)
      case TypeOfWork => this.(typeOfWork := value)
      case Deo => this.(deo := value)
      case LegislativeDistrict => this.(legislativeDistrict := value)
    }
  }

  const NoFilters := Filters("", "", "", "", "", "")

  /** The term, lower-cased, occurs in the lower-cased description, contractor or location. */
  predicate MatchesSearch(p: Project, term: string) {
    || term == ""
    || Includes(Lower(p.desc), Lower(term))
    || Includes(Lower(p.contractor), Lower(term))
    || Includes(Lower(p.location), Lower(term))
  }

  /** An empty selection accepts everything; otherwise the field must be equal. */
  predicate MatchesFacet(p: Project, f: Filters, k: Facet) {
    f.Get(k) == "" || Field(p, k) == f.Get(k)
  }

  /** The filter callback: search and all six facets, AND-combined. */
  predicate Matches(p: Project, term: string, f: Filters) {
    && MatchesSearch(p, term)
    && MatchesFacet(p, f, Year)
    && MatchesFacet(p, f, Region)
    && MatchesFacet(p, f, Province)
    && MatchesFacet(p, f, TypeOfWork)
    && MatchesFacet(p, f, Deo)
    && MatchesFacet(p, f, LegislativeDistrict)
  }

  function MatchesFn(term: string, f: Filters): Project -> bool {
    p => Matches(p, term, f)
  }

  /** `filteredProjects`. */
  function FilterProjects(projects: seq<Project>, term: string, f: Filters): (r: seq<Project>)
    ensures SubseqOf(r, projects)
    ensures forall p :: p in r <==> p in projects && Matches(p, term, f)
  {
    Filter(projects, MatchesFn(term, f))
  }

  /** Every shown project equals each non-empty facet selection exactly. */
  lemma FilteredMeetEveryFacet(projects: seq<Project>, term: string, f: Filters)
    ensures forall p, k :: p in FilterProjects(projects, term, f) ==> f.Get(k) == "" || Field(p, k) == f.Get(k)
  {
    forall p, k | p in FilterProjects(projects, term, f) ensures f.Get(k) == "" || Field(p, k) == f.Get(k) {
      assert Matches(p, term, f);
      match k
      case Year =>
      case Region =>
      case Province =>
      case TypeOfWork =>
      case Deo =>
      case LegislativeDistrict =>
    }
  }

  /** With no search term and no facet selected, the whole list is shown in its order. */
  lemma NoFilterShowsAll(projects: seq<Project>)
    ensures FilterProjects(projects, "", NoFilters) == projects
  {
    FilterKeepsAll(projects, MatchesFn("", NoFilters));
  }

  /** Search ignores letter case in the term. */
  lemma SearchIgnoresCase(p: Project, term: string)
    ensures MatchesSearch(p, term) == MatchesSearch(p, Lower(term))
  {
    LowerIdempotent(term);
  }

  /** Search reads the description, contractor and location and no other field. */
  lemma SearchReadsThreeFields(p: Project, q: Project, term: string)
    requires p.desc == q.desc && p.contractor == q.contractor && p.location == q.location
    ensures MatchesSearch(p, term) == MatchesSearch(q, term)
  {
  }

  // ---------------------------------------------------------------------------
  // Pagination.

  const ItemsPerPage: nat := 20

  /** `Math.ceil(n / 20)`. */
  function TotalPages(n: nat): (t: nat)
    ensures t * ItemsPerPage >= n
    ensures n > 0 ==> (t - 1) * ItemsPerPage < n
    ensures n == 0 <==> t == 0
  {
    (n + ItemsPerPage - 1) / ItemsPerPage
  }

  /** An index of `Array.prototype.slice`: negative counts from the end, then clamped to `[0, n]`. */
  function SliceIndex(i: int, n: nat): (k: nat)
    ensures k <= n
    ensures 0 <= i <= n ==> k == i
  {
    if i < 0 then (if n + i < 0 then 0 else n + i) else if i > n then n else i
  }

  /** `s.slice(start, end)`. */
  function JsSlice<T>(s: seq<T>, start: int, end: int): (r: seq<T>)
    ensures |r| <= |s|
  {
    var a := SliceIndex(start, |s|);
    var b := SliceIndex(end, |s|);
    if a < b then s[a..b] else []
  }

  /** `paginatedProjects`: the slice `[(page - 1) * 20, page * 20)`. */
  function PageSlice<T>(s: seq<T>, page: int): (r: seq<T>)
    ensures |r| <= ItemsPerPage
  {
    JsSlice(s, (page - 1) * ItemsPerPage, page * ItemsPerPage)
  }

  /** Page `p` of a list holds the items whose index `i` has `i / 20 == p - 1`, in order. */
  lemma PageContents<T>(s: seq<T>, page: int)
    requires 1 <= page
    ensures var lo := (page - 1) * ItemsPerPage;
            PageSlice(s, page) == if lo < |s| then s[lo..if page * ItemsPerPage < |s| then page * ItemsPerPage else |s|] else []
  {
  }

  /** Every item is on exactly page `i / 20 + 1`, at position `i % 20`, and that page exists. */
  lemma ItemOnItsPage<T>(s: seq<T>, i: int)
    requires 0 <= i < |s|
    ensures 1 <= i / ItemsPerPage + 1 <= TotalPages(|s|)
    ensures var pg := PageSlice(s, i / ItemsPerPage + 1);
            i % ItemsPerPage < |pg| && pg[i % ItemsPerPage] == s[i]
  {
    var page := i / ItemsPerPage + 1;
    PageContents(s, page);
  }

  /** Pages past the last are empty. */
  lemma PagePastEndEmpty<T>(s: seq<T>, page: int)
    requires page > TotalPages(|s|)
    ensures PageSlice(s, page) == []
  {
  }

  /** "Previous": `Math.max(1, p - 1)`. */
  function PrevPage(page: int): (r: int)
    ensures r >= 1
    ensures page > 1 ==> r == page - 1
  {
    if page - 1 > 1 then page - 1 else 1
  }

  /** "Next" and "Load Next Page": `Math.min(totalPages, p + 1)`. */
  function NextPage(page: int, totalPages: int): (r: int)
    ensures r <= totalPages
    ensures page < totalPages ==> r == page + 1
    ensures 1 <= page <= totalPages ==> 1 <= r
  {
    if totalPages < page + 1 then totalPages else page + 1
  }

  /**
   * The picker's state: the loaded projects, the search box and its settled
   * (debounced) value, the facet selection and the current page.
   */
  class Selector {
    var projects: seq<Project>
    var loading: bool
    var searchInput: string
    var debouncedSearch: string
    var filters: Filters
    var page: int

    /** `useState` initial values: nothing loaded, nothing selected, page 1. */
    constructor()
      ensures projects == [] && loading
      ensures searchInput == "" && debouncedSearch == "" && filters == NoFilters && page == 1
    {
      projects := [];
      loading := true;
      searchInput := "";
      debouncedSearch := "";
      filters := NoFilters;
      page := 1;
    }

    function Filtered(): seq<Project>
      reads this
    {
      FilterProjects(projects, debouncedSearch, filters)
    }

    function Pages(): nat
      reads this
    {
      TotalPages(|Filtered()|)
    }

    function Shown(): seq<Project>
      reads this
    {
      PageSlice(Filtered(), page)
    }

    /** The load effect's outcome: a non-empty download replaces the list; loading ends either way. */
    method Loaded(csv: seq<Project>)
      modifies this
      ensures projects == (if csv != [] then csv else old(projects))
      ensures !loading
      ensures searchInput == old(searchInput) && debouncedSearch == old(debouncedSearch)
      ensures filters == old(filters) && page == old(page)
    {
      if csv != [] {
        projects := csv;
      }
      loading := false;
    }

    /** Typing in the search box changes only the box. */
    method TypeSearch(text: string)
      modifies this
      ensures searchInput == text
      ensures projects == old(projects) && loading == old(loading) && debouncedSearch == old(debouncedSearch)
      ensures filters == old(filters) && page == old(page)
    {
      searchInput := text;
    }

    /** The debounce timer fires: the typed term takes effect and the page resets to 1. */
    method SettleSearch()
      modifies this
      ensures debouncedSearch == old(searchInput) && page == 1
      ensures projects == old(projects) && loading == old(loading) && searchInput == old(searchInput)
      ensures filters == old(filters)
    {
      debouncedSearch := searchInput;
      page := 1;
    }

    /** `handleFilterChange`: one facet changes, the others stay, the page resets to 1. */
    method HandleFilterChange(k: Facet, value: string)
      modifies this
      ensures filters.Get(k) == value
      ensures forall j :: j != k ==> filters.Get(j) == old(filters).Get(j)
      ensures page == 1
      ensures projects == old(projects) && loading == old(loading)
      ensures searchInput == old(searchInput) && debouncedSearch == old(debouncedSearch)
    {
      filters := filters.Set(k, value);
      page := 1;
    }

    method Previous()
      modifies this
      ensures page == PrevPage(old(page)) && page >= 1
      ensures projects == old(projects) && loading == old(loading) && searchInput == old(searchInput)
      ensures debouncedSearch == old(debouncedSearch) && filters == old(filters)
    {
      page := PrevPage(page);
    }

    method Next()
      modifies this
      ensures page == NextPage(old(page), Pages()) && page <= Pages()
      ensures projects == old(projects) && loading == old(loading) && searchInput == old(searchInput)
      ensures debouncedSearch == old(debouncedSearch) && filters == old(filters)
    {
      page := NextPage(page, Pages());
    }
  }
}
