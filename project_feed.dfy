/** The project feed (src/components/ProjectFeed.tsx): the pure
    filter-then-sort pipeline over the project list, the page window over its
    result, and the feed's state machine (displayed list, page, loading flag,
    hasMore flag). */
module ProjectFeed {
  import opened Types
  import opened Text

  const ProjectsPerPage: nat := 6

  // ---------------------------------------------------------------------------
  // Category filter
  // ---------------------------------------------------------------------------

  /** The empty category and the sentinel "All" select every project. */
  predicate Unrestricted(category: string)
  {
    category == "" || category == "All"
  }

  /** Some tag of `p` equals `category` ignoring case. */
  predicate HasTag(p: Project, category: string)
  {
    exists i :: 0 <= i < |p.tags| && SameIgnoringCase(p.tags[i], category)
  }

  /** `Array.prototype.filter` with the tag test: keeps the projects that carry
      the category, in their original order. */
  function Keep(ps: seq<Project>, category: string): (r: seq<Project>)
    ensures |r| <= |ps|
    ensures forall p :: p in r ==> p in ps && HasTag(p, category)
  {
    if ps == [] then []
    else if HasTag(ps[0], category) then [ps[0]] + Keep(ps[1..], category)
    else Keep(ps[1..], category)
  }

  /** The filter of lines 32-36: unrestricted keeps everything; otherwise it keeps
      exactly the projects with a matching tag (in order, by `KeepAppend`). */
  function FilterByCategory(ps: seq<Project>, category: string): (r: seq<Project>)
    ensures Unrestricted(category) ==> r == ps
    ensures !Unrestricted(category) ==> forall p :: p in r <==> p in ps && HasTag(p, category)
  {
    if Unrestricted(category) then ps
    else
      KeepMembershipAll(ps, category);
      Keep(ps, category)
  }

  /** No project that carries the category is dropped. */
  lemma {:induction false} KeepMembership(ps: seq<Project>, category: string, p: Project)
    ensures p in Keep(ps, category) <==> p in ps && HasTag(p, category)
  {
    if ps != [] {
      KeepMembership(ps[1..], category, p);
      assert ps == [ps[0]] + ps[1..];
    }
  }

  lemma KeepMembershipAll(ps: seq<Project>, category: string)
    ensures forall p :: p in Keep(ps, category) <==> p in ps && HasTag(p, category)
  {
    forall p ensures p in Keep(ps, category) <==> p in ps && HasTag(p, category) {
      KeepMembership(ps, category, p);
    }
  }

  /** Filtering distributes over concatenation, so the projects kept appear in
      the same relative order as in the input. */
  lemma {:induction false} KeepAppend(a: seq<Project>, b: seq<Project>, category: string)
    ensures Keep(a + b, category) == Keep(a, category) + Keep(b, category)
  {
    if a != [] {
      assert (a + b)[1..] == a[1..] + b;
      KeepAppend(a[1..], b, category);
    } else {
      assert a + b == b;
    }
  }

  /** When every project carries the category, the filter keeps all of them. */
  lemma {:induction false} KeepAllMatching(ps: seq<Project>, category: string)
    requires forall i :: 0 <= i < |ps| ==> HasTag(ps[i], category)
    ensures Keep(ps, category) == ps
  {
    if ps != [] {
      KeepAllMatching(ps[1..], category);
    }
  }

  /** Case is ignored: a category that differs only in letter case selects the
      same projects. */
  lemma {:induction false} KeepIgnoresCase(ps: seq<Project>, c1: string, c2: string)
    requires SameIgnoringCase(c1, c2)
    ensures Keep(ps, c1) == Keep(ps, c2)
  {
    if ps != [] {
      KeepIgnoresCase(ps[1..], c1, c2);
      assert HasTag(ps[0], c1) <==> HasTag(ps[0], c2);
    }
  }

  // ---------------------------------------------------------------------------
  // Stable descending sort
  // ---------------------------------------------------------------------------

  /** The quantity a sort option orders by. */
  datatype Metric = Visits | Upvotes | Comments | Shares | Created

  function KeyOf(p: Project, m: Metric): nat
  {
    match m
    case Visits => p.metrics.visits
    case Upvotes => p.metrics.upvotes
    case Comments => p.metrics.comments
    case Shares => p.metrics.shares
    case Created => p.createdAt
  }

  /** The switch of lines 39-57: five options sort by a metric; `most_liked`,
      `most_remixed` fall into the default branch and do not sort. */
  function MetricFor(o: SortOption): (r: Option<Metric>)
    ensures r.None? <==> o == MostLiked || o == MostRemixed
  {
    match o
    case MostVisited => Some(Visits)
    case MostUpvoted => Some(Upvotes)
    case MostCommented => Some(Comments)
    case MostShared => Some(Shares)
    case Newest => Some(Created)
    case MostLiked => None
    case MostRemixed => None
  }

  ghost predicate NonIncreasing(s: seq<Project>, m: Metric)
  {
    forall i, j :: 0 <= i < j < |s| ==> KeyOf(s[j], m) <= KeyOf(s[i], m)
  }

  /** The projects of `s` whose key is `k`, in their order in `s`. */
  function WithKey(s: seq<Project>, m: Metric, k: nat): seq<Project>
  {
    if s == [] then []
    else if KeyOf(s[0], m) == k then [s[0]] + WithKey(s[1..], m, k)
    else WithKey(s[1..], m, k)
  }

  /** `r` keeps the relative order of every group of equal-key projects of `s`:
      what section 22.1.3.27 of ECMA-262 (10th edition) requires of
      `Array.prototype.sort`. */
  ghost predicate SameOrderPerKey(r: seq<Project>, s: seq<Project>, m: Metric)
  {
    forall k: nat :: WithKey(r, m, k) == WithKey(s, m, k)
  }

  /** Every project of `s` has key at most `bound`. */
  ghost predicate AllAtMost(s: seq<Project>, m: Metric, bound: nat)
  {
    forall i :: 0 <= i < |s| ==> KeyOf(s[i], m) <= bound
  }

  /** Inserts `x` in front of the first element whose key is not larger. */
  function Insert(x: Project, s: seq<Project>, m: Metric): (r: seq<Project>)
    ensures multiset(r) == multiset(s) + multiset{x}
  {
    if s == [] || KeyOf(s[0], m) <= KeyOf(x, m) then [x] + s
    else
      assert s == [s[0]] + s[1..];
      [s[0]] + Insert(x, s[1..], m)
  }

  lemma {:induction false} InsertBounded(x: Project, s: seq<Project>, m: Metric, bound: nat)
    requires AllAtMost(s, m, bound) && KeyOf(x, m) <= bound
    ensures AllAtMost(Insert(x, s, m), m, bound)
  {
    if !(s == [] || KeyOf(s[0], m) <= KeyOf(x, m)) {
      InsertBounded(x, s[1..], m, bound);
    }
  }

  lemma {:induction false} InsertSorted(x: Project, s: seq<Project>, m: Metric)
    requires NonIncreasing(s, m)
    ensures NonIncreasing(Insert(x, s, m), m)
  {
    if !(s == [] || KeyOf(s[0], m) <= KeyOf(x, m)) {
      InsertSorted(x, s[1..], m);
      InsertBounded(x, s[1..], m, KeyOf(s[0], m));
    }
  }

  /** Comparator `(a, b) => b.key - a.key` under a stable sort. */
  function SortBy(s: seq<Project>, m: Metric): (r: seq<Project>)
    ensures NonIncreasing(r, m)
    ensures multiset(r) == multiset(s)
  {
    if s == [] then []
    else
      assert s == [s[0]] + s[1..];
      InsertSorted(s[0], SortBy(s[1..], m), m);
      Insert(s[0], SortBy(s[1..], m), m)
  }

  /** Inserting `x` puts it ahead of every other project with its key and
      leaves every other key group as it was. */
  lemma {:induction false} WithKeyInsert(x: Project, s: seq<Project>, m: Metric, k: nat)
    ensures WithKey(Insert(x, s, m), m, k) ==
      (if KeyOf(x, m) == k then [x] + WithKey(s, m, k) else WithKey(s, m, k))
  {
    if s == [] || KeyOf(s[0], m) <= KeyOf(x, m) {
      assert ([x] + s)[1..] == s;
    } else {
      var t := Insert(x, s[1..], m);
      assert ([s[0]] + t)[1..] == t;
      WithKeyInsert(x, s[1..], m, k);
    }
  }

  /** The sort is stable. */
  lemma {:induction false} SortByStable(s: seq<Project>, m: Metric)
    ensures SameOrderPerKey(SortBy(s, m), s, m)
  {
    if s != [] {
      SortByStable(s[1..], m);
      forall k: nat ensures WithKey(SortBy(s, m), m, k) == WithKey(s, m, k) {
        WithKeyInsert(s[0], SortBy(s[1..], m), m, k);
      }
    }
  }

  lemma {:induction false} WithKeyNonEmpty(s: seq<Project>, m: Metric, k: nat)
    requires WithKey(s, m, k) != []
    ensures exists i :: 0 <= i < |s| && KeyOf(s[i], m) == k
  {
    if KeyOf(s[0], m) != k {
      WithKeyNonEmpty(s[1..], m, k);
      var i :| 0 <= i < |s[1..]| && KeyOf(s[1..][i], m) == k;
      assert KeyOf(s[i + 1], m) == k;
    }
  }

  lemma WithKeyOfHead(s: seq<Project>, m: Metric)
    ensures s != [] ==> WithKey(s, m, KeyOf(s[0], m)) != []
  {
  }

  /** A stable descending sort has exactly one possible result: two arrangements
      that are both non-increasing and both keep the order of every key group
      are the same list. Hence any engine's stable sort yields `SortBy`. */
  lemma {:induction false} StableSortUnique(r1: seq<Project>, r2: seq<Project>, m: Metric)
    requires NonIncreasing(r1, m) && NonIncreasing(r2, m)
    requires forall k: nat :: WithKey(r1, m, k) == WithKey(r2, m, k)
    ensures r1 == r2
    decreases |r1| + |r2|
  {
    if r1 == [] || r2 == [] {
      WithKeyOfHead(r1, m);
      WithKeyOfHead(r2, m);
    } else {
      var k1, k2 := KeyOf(r1[0], m), KeyOf(r2[0], m);
      assert WithKey(r1, m, k1) != [];
      WithKeyNonEmpty(r2, m, k1);
      assert WithKey(r2, m, k2) != [];
      WithKeyNonEmpty(r1, m, k2);
      assert k1 == k2;
      assert r1[0] == WithKey(r1, m, k1)[0] == WithKey(r2, m, k1)[0] == r2[0];
      forall k: nat ensures WithKey(r1[1..], m, k) == WithKey(r2[1..], m, k) {
        if k == k1 {
          assert WithKey(r1[1..], m, k) == WithKey(r1, m, k)[1..];
          assert WithKey(r2[1..], m, k) == WithKey(r2, m, k)[1..];
        } else {
          assert WithKey(r1[1..], m, k) == WithKey(r1, m, k);
          assert WithKey(r2[1..], m, k) == WithKey(r2, m, k);
        }
      }
      StableSortUnique(r1[1..], r2[1..], m);
      assert r1 == [r1[0]] + r1[1..] && r2 == [r2[0]] + r2[1..];
    }
  }

  /** The sort step of the pipeline. For the five metric options the result is
      a permutation, non-increasing in the key and stable; for the other two it
      is the input unchanged. */
  function SortProjects(s: seq<Project>, o: SortOption): (r: seq<Project>)
    ensures multiset(r) == multiset(s)
    ensures MetricFor(o).Some? ==>
      NonIncreasing(r, MetricFor(o).value) && SameOrderPerKey(r, s, MetricFor(o).value)
    ensures MetricFor(o).None? ==> r == s
  {
    match MetricFor(o)
    case None => s
    case Some(m) =>
      SortByStable(s, m);
      SortBy(s, m)
  }

  /** Any list a stable engine sort could return is `SortProjects`'s result. */
  lemma SortProjectsIsTheStableSort(s: seq<Project>, o: SortOption, r: seq<Project>)
    requires MetricFor(o).Some?
    requires NonIncreasing(r, MetricFor(o).value)
    requires SameOrderPerKey(r, s, MetricFor(o).value)
    ensures r == SortProjects(s, o)
  {
    StableSortUnique(r, SortProjects(s, o), MetricFor(o).value);
  }

  // ---------------------------------------------------------------------------
  // The pipeline: getFilteredAndSortedProjects
  // ---------------------------------------------------------------------------

  /** The project source: an array of projects, or a value that is not one. */
  datatype Source = ProjectArray(items: seq<Project>) | NotAnArray

  function FilteredAndSorted(src: Source, category: string, o: SortOption): (r: seq<Project>)
    ensures src.NotAnArray? ==> r == []
    ensures src.ProjectArray? ==>
      multiset(r) == multiset(FilterByCategory(src.items, category))
  {
    match src
    case NotAnArray => []
    case ProjectArray(items) => SortProjects(FilterByCategory(items, category), o)
  }

  // ---------------------------------------------------------------------------
  // Page window
  // ---------------------------------------------------------------------------

  function Min(a: nat, b: nat): nat { if a <= b then a else b }

  /** `filteredProjects.slice(0, page * 6)`: slice clamps the end to the length. */
  function Window(items: seq<Project>, page: nat): (r: seq<Project>)
    ensures |r| == Min(page * ProjectsPerPage, |items|)
    ensures r <= items
  {
    items[..Min(page * ProjectsPerPage, |items|)]
  }

  /** `endIndex < filteredProjects.length`: `hasMore` is false exactly when the
      window shows the whole list. */
  predicate MoreAfter(items: seq<Project>, page: nat)
    ensures !MoreAfter(items, page) <==> Window(items, page) == items
  {
    page * ProjectsPerPage < |items|
  }

  /** Growing the page only appends to the window. */
  lemma WindowGrows(items: seq<Project>, p: nat, q: nat)
    requires p <= q
    ensures Window(items, p) <= Window(items, q)
    ensures MoreAfter(items, q) ==> MoreAfter(items, p)
  {
  }

  /** The feed runs out after ceil(n / 6) pages. */
  lemma PagesNeeded(items: seq<Project>, page: nat)
    ensures MoreAfter(items, page) <==> page < (|items| + ProjectsPerPage - 1) / ProjectsPerPage
  {
  }

  // ---------------------------------------------------------------------------
  // The feed's state machine
  // ---------------------------------------------------------------------------

  class Feed {
    /** `mockProjects`, the module-level source the pipeline reads. */
    const source: Source
    /** The query props. */
    var category: string
    var sort: SortOption
    /** The component's state. */
    var displayed: seq<Project>
    var page: nat
    var loading: bool
    var hasMore: bool

    function Results(): seq<Project>
      reads this
    {
      FilteredAndSorted(source, category, sort)
    }

    /** What the feed shows is always the start of the current results, never
        more than `page` pages of it, and all of it once `hasMore` is false. */
    ghost predicate Valid()
      reads this
    {
      && page >= 1
      && displayed <= Results()
      && |displayed| <= page * ProjectsPerPage
      && (!hasMore ==> displayed == Results())
    }

    constructor(source: Source, category: string, sort: SortOption)
      ensures Valid()
      ensures this.source == source && this.category == category && this.sort == sort
      ensures displayed == [] && page == 1 && !loading && hasMore
    {
      this.source := source;
      this.category := category;
      this.sort := sort;
      displayed := [];
      page := 1;
      loading := false;
      hasMore := true;
    }

    /** New query props; the reset effect fires only when one of them changed. */
    method ChangeQuery(newCategory: string, newSort: SortOption)
      requires Valid()
      modifies this
      ensures Valid()
      ensures category == newCategory && sort == newSort && loading == old(loading)
      ensures old(category) != newCategory || old(sort) != newSort ==>
        displayed == [] && page == 1 && hasMore
      ensures old(category) == newCategory && old(sort) == newSort ==>
        displayed == old(displayed) && page == old(page) && hasMore == old(hasMore)
    {
      if category != newCategory || sort != newSort {
        category, sort := newCategory, newSort;
        displayed := [];
        page := 1;
        hasMore := true;
      }
    }

    /** The load effect starts: `setLoading(true)`. */
    method BeginLoad()
      requires Valid()
      modifies this`loading
      ensures Valid() && loading
    {
      loading := true;
    }

    /** The load effect finishes (after the simulated delay): the window for the
        current page replaces the displayed list and `hasMore` is recomputed. */
    method CompleteLoad()
      requires Valid()
      modifies this`displayed, this`hasMore, this`loading
      ensures Valid() && !loading
      ensures displayed == Window(Results(), page)
      ensures |displayed| == Min(page * ProjectsPerPage, |Results()|)
      ensures hasMore <==> page * ProjectsPerPage < |Results()|
      ensures old(displayed) <= displayed
    {
      var results := FilteredAndSorted(source, category, sort);
      displayed := Window(results, page);
      hasMore := MoreAfter(results, page);
      loading := false;
    }

    /** The last card became visible: advance one page unless a load is running
        or nothing is left. */
    method Advance() returns (advanced: bool)
      requires Valid()
      modifies this`page
      ensures Valid()
      ensures advanced <==> !loading && hasMore
      ensures page == if advanced then old(page) + 1 else old(page)
    {
      advanced := !loading && hasMore;
      if advanced {
        page := page + 1;
      }
    }
  }

  /** With the query unchanged, an advance followed by its load only appends:
      what was shown before is a prefix of what is shown after. */
  method AdvanceAndLoad(f: Feed) returns (advanced: bool)
    requires f.Valid() && !f.loading
    modifies f
    ensures f.Valid() && !f.loading
    ensures f.category == old(f.category) && f.sort == old(f.sort)
    ensures advanced <==> old(f.hasMore)
    ensures old(f.displayed) <= f.displayed
    ensures !f.hasMore ==> f.displayed == f.Results()
  {
    advanced := f.Advance();
    f.BeginLoad();
    f.CompleteLoad();
  }

  /** The malformed source fails soft: after any load the feed is empty and
      reports nothing more to load. */
  method LoadFromMalformed(category: string, sort: SortOption) returns (f: Feed)
    ensures f.displayed == [] && !f.hasMore && !f.loading
  {
    f := new Feed(NotAnArray, category, sort);
    f.BeginLoad();
    f.CompleteLoad();
  }
}
