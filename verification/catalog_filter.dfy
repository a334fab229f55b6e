/**
 * The project list page: search and category filtering of the catalog,
 * the reset button and the per-category statistics.
 */
module CatalogFilter {
  import opened Wrappers
  import opened Text
  import opened Seqs
  import opened Localization
  import opened ProjectsData

  /** The page's filter inputs: the search box and the selected category. */
  datatype FilterState = FilterState(searchTerm: string, category: string)

  /** The category selector value that matches every record. */
  const AllCategories := "all"

  /** The state the page starts in: empty search, every category. */
  const InitialFilter := FilterState("", AllCategories)

  /** The "clear filters" button: back to an empty search over every category. */
  function ClearFilters(s: FilterState): (r: FilterState)
    ensures r.searchTerm == "" && r.category == AllCategories
    ensures r == InitialFilter
  {
    FilterState("", AllCategories)
  }

  /** `selectedCategory === 'all' || project.category === selectedCategory`. */
  predicate CategoryMatches(p: Project, category: string) {
    category == AllCategories || p.category == category
  }

  /** Case-insensitive substring test: both sides are lower-cased before `includes`. */
  predicate TextMatches(text: string, term: string) {
    Includes(ToLower(text), ToLower(term))
  }

  /** `project.technologies.some(tech => ...)`: some single tag contains the term. */
  predicate SomeTagMatches(tags: seq<string>, term: string) {
    exists t :: t in tags && TextMatches(t, term)
  }

  /**
   * The search predicate as the page evaluates it: title, then description,
   * then the tags, stopping at the first match. Lower-casing an `undefined`
   * localized text throws.
   */
  function SearchMatches(p: Project, term: string, lang: string): (r: Eval<bool>)
    ensures Localize(p.title, lang).None? ==> r.Throws?
    ensures r == Returns(true) ==>
      (TextMatches(Localize(p.title, lang).value, term)
       || (Localize(p.description, lang).Some? && TextMatches(Localize(p.description, lang).value, term))
       || SomeTagMatches(p.technologies, term))
  {
    match Localize(p.title, lang)
    case None => Throws
    case Some(title) =>
      if TextMatches(title, term) then Returns(true)
      else match Localize(p.description, lang)
        case None => Throws
        case Some(description) =>
          Returns(TextMatches(description, term) || SomeTagMatches(p.technologies, term))
  }

  /** The filter callback: search match and category match, with the search evaluated first. */
  function Keep(p: Project, f: FilterState, lang: string): (r: Eval<bool>)
    ensures r.Throws? <==> SearchMatches(p, f.searchTerm, lang).Throws?
    ensures r == Returns(true) <==> SearchMatches(p, f.searchTerm, lang) == Returns(true) && CategoryMatches(p, f.category)
  {
    match SearchMatches(p, f.searchTerm, lang)
    case Throws => Throws
    case Returns(m) => Returns(m && CategoryMatches(p, f.category))
  }

  /**
   * `projects.filter(...)`: the kept records in catalog order, or a throw
   * when the callback throws on some record.
   */
  function Filter(ps: seq<Project>, f: FilterState, lang: string): (r: Eval<seq<Project>>)
    ensures r.Throws? <==> exists i :: 0 <= i < |ps| && Keep(ps[i], f, lang).Throws?
    ensures r.Returns? ==> IsSubsequence(r.value, ps)
    ensures r.Returns? ==> forall p :: p in r.value <==> p in ps && Keep(p, f, lang) == Returns(true)
    ensures r.Returns? ==> forall p :: multiset(r.value)[p] == (if Keep(p, f, lang) == Returns(true) then multiset(ps)[p] else 0)
    decreases |ps|
  {
    if ps == [] then Returns([])
    else
      match Keep(ps[0], f, lang)
      case Throws => Throws
      case Returns(k) =>
        match Filter(ps[1..], f, lang)
        case Throws => Throws
        case Returns(rest) =>
          SubsequenceSkip(ps[0], rest, ps[1..]);
          SubsequenceCons(ps[0], rest, ps[1..]);
          assert [ps[0]] + ps[1..] == ps;
          FilterStepCounts(ps, rest, k, f, lang);
          Returns(if k then [ps[0]] + rest else rest)
  }

  /** One step of the filter keeps the head's copies exactly when the callback keeps it. */
  lemma FilterStepCounts(ps: seq<Project>, rest: seq<Project>, k: bool, f: FilterState, lang: string)
    requires ps != [] && Keep(ps[0], f, lang) == Returns(k)
    requires forall p :: multiset(rest)[p] == (if Keep(p, f, lang) == Returns(true) then multiset(ps[1..])[p] else 0)
    ensures forall p :: multiset(if k then [ps[0]] + rest else rest)[p] == (if Keep(p, f, lang) == Returns(true) then multiset(ps)[p] else 0)
  {
    assert ps == [ps[0]] + ps[1..];
    assert multiset(ps) == multiset{ps[0]} + multiset(ps[1..]);
    assert multiset([ps[0]] + rest) == multiset{ps[0]} + multiset(rest);
  }

  /** The text fields the search reads all resolve in `lang`, so the search never throws. */
  predicate Searchable(p: Project, lang: string) {
    Localize(p.title, lang).Some? && Localize(p.description, lang).Some?
  }

  /**
   * Reference definition of the search: the lower-cased term occurs in the
   * localized title, the localized description, or any single tag.
   */
  predicate SearchSpec(p: Project, term: string, lang: string)
    requires Searchable(p, lang)
  {
    var fields := [Localize(p.title, lang).value, Localize(p.description, lang).value] + p.technologies;
    exists k :: 0 <= k < |fields| && Includes(ToLower(fields[k]), ToLower(term))
  }

  /** On a searchable record the page's search agrees with the reference definition. */
  lemma SearchMatchesSpec(p: Project, term: string, lang: string)
    requires Searchable(p, lang)
    ensures SearchMatches(p, term, lang) == Returns(SearchSpec(p, term, lang))
  {
    var title, description := Localize(p.title, lang).value, Localize(p.description, lang).value;
    var fields := [title, description] + p.technologies;
    assert fields[0] == title && fields[1] == description;
    if SomeTagMatches(p.technologies, term) {
      var t :| t in p.technologies && TextMatches(t, term);
      var j :| 0 <= j < |p.technologies| && p.technologies[j] == t;
      assert fields[j + 2] == t;
    }
    if SearchSpec(p, term, lang) {
      var k :| 0 <= k < |fields| && Includes(ToLower(fields[k]), ToLower(term));
      if k >= 2 {
        assert fields[k] == p.technologies[k - 2];
        assert TextMatches(p.technologies[k - 2], term);
        assert SomeTagMatches(p.technologies, term);
      }
    }
  }

  /** A match in any single technology tag is enough to keep a searchable record of the selected category. */
  lemma TagMatchSuffices(p: Project, f: FilterState, lang: string, tag: string)
    requires Searchable(p, lang)
    requires tag in p.technologies && TextMatches(tag, f.searchTerm)
    requires CategoryMatches(p, f.category)
    ensures Keep(p, f, lang) == Returns(true)
  {
  }

  /** A record with a resolvable title passes the empty search. */
  lemma EmptySearchMatches(p: Project, lang: string)
    requires Localize(p.title, lang).Some?
    ensures SearchMatches(p, "", lang) == Returns(true)
  {
    IncludesEmpty(ToLower(Localize(p.title, lang).value));
  }

  /**
   * The initial state, which "clear filters" restores, shows the whole
   * catalog in its original order.
   */
  lemma {:induction false} ClearedFilterShowsAll(ps: seq<Project>, s: FilterState, lang: string)
    requires forall i :: 0 <= i < |ps| ==> Localize(ps[i].title, lang).Some?
    ensures Filter(ps, ClearFilters(s), lang) == Returns(ps)
    ensures Filter(ps, InitialFilter, lang) == Returns(ps)
    decreases |ps|
  {
    if ps != [] {
      EmptySearchMatches(ps[0], lang);
      ClearedFilterShowsAll(ps[1..], s, lang);
      assert [ps[0]] + ps[1..] == ps;
    }
  }

  /** Search terms that lower-case to the same string keep the same records. */
  lemma {:induction false} FilterCaseInsensitive(ps: seq<Project>, q1: string, q2: string, category: string, lang: string)
    requires ToLower(q1) == ToLower(q2)
    ensures Filter(ps, FilterState(q1, category), lang) == Filter(ps, FilterState(q2, category), lang)
    decreases |ps|
  {
    if ps != [] {
      assert SearchMatches(ps[0], q1, lang) == SearchMatches(ps[0], q2, lang);
      FilterCaseInsensitive(ps[1..], q1, q2, category, lang);
    }
  }

  /** A category other than `all` that no record carries gives an empty list, not an error. */
  lemma {:induction false} UnknownCategoryIsEmpty(ps: seq<Project>, f: FilterState, lang: string)
    requires f.category != AllCategories
    requires forall i :: 0 <= i < |ps| ==> ps[i].category != f.category && Searchable(ps[i], lang)
    ensures Filter(ps, f, lang) == Returns([])
    decreases |ps|
  {
    if ps != [] {
      UnknownCategoryIsEmpty(ps[1..], f, lang);
    }
  }

  /** Filtering the result again with the same inputs returns it unchanged. */
  lemma {:induction false} FilterIdempotent(ps: seq<Project>, f: FilterState, lang: string)
    requires Filter(ps, f, lang).Returns?
    ensures Filter(Filter(ps, f, lang).value, f, lang) == Filter(ps, f, lang)
    decreases |ps|
  {
    if ps != [] {
      FilterIdempotent(ps[1..], f, lang);
    }
  }

  /** With an empty search, the records of one category are exactly as many as that category's statistic. */
  lemma {:induction false} CategoryFilterMatchesCount(ps: seq<Project>, c: string, lang: string)
    requires c != AllCategories
    requires forall i :: 0 <= i < |ps| ==> Localize(ps[i].title, lang).Some?
    ensures Filter(ps, FilterState("", c), lang).Returns?
    ensures |Filter(ps, FilterState("", c), lang).value| == CountCategory(ps, c)
    decreases |ps|
  {
    if ps != [] {
      var f := FilterState("", c);
      EmptySearchMatches(ps[0], lang);
      CategoryFilterMatchesCount(ps[1..], c, lang);
      var rest := Filter(ps[1..], f, lang).value;
      assert Keep(ps[0], f, lang) == Returns(ps[0].category == c);
      assert Filter(ps, f, lang) == Returns(if ps[0].category == c then [ps[0]] + rest else rest);
    }
  }

  /** The four numbers of the statistics panel. */
  datatype Statistics = Statistics(total: nat, frontend: nat, fullstack: nat, dataScience: nat)

  /** The statistics panel: the catalog size and one count per category. */
  function ComputeStatistics(ps: seq<Project>): (r: Statistics)
    ensures r.total == |ps|
    ensures r.frontend <= r.total && r.fullstack <= r.total && r.dataScience <= r.total
    ensures r.frontend == CountCategory(ps, Frontend) && r.fullstack == CountCategory(ps, Fullstack)
    ensures r.dataScience == CountCategory(ps, DataScience)
  {
    Statistics(|ps|, CountCategory(ps, Frontend), CountCategory(ps, Fullstack), CountCategory(ps, DataScience))
  }

  /** When every record carries one of the three categories, the three counts add up to the total. */
  lemma StatisticsAddUp(ps: seq<Project>)
    requires forall i :: 0 <= i < |ps| ==> KnownCategory(ps[i].category)
    ensures var r := ComputeStatistics(ps); r.frontend + r.fullstack + r.dataScience == r.total
  {
    CategoryCountsPartition(ps);
  }

  /** The shipped catalog's statistics are 7 projects: 4 frontend, 2 full-stack, 1 data science. */
  lemma CatalogStatistics()
    ensures ComputeStatistics(Catalog) == Statistics(7, 4, 2, 1)
  {
    CatalogIds();
    CatalogCategoryCounts();
  }

  /** Every shipped record resolves both texts in every language, so filtering the catalog never throws. */
  lemma CatalogNeverThrows(f: FilterState, lang: string)
    ensures forall i :: 0 <= i < |Catalog| ==> Searchable(Catalog[i], lang)
    ensures Filter(Catalog, f, lang).Returns?
  {
    CatalogBilingual();
    forall i | 0 <= i < |Catalog|
      ensures Searchable(Catalog[i], lang)
    {
      LocalizeWithEnglishIsDefined(Catalog[i].title, lang);
      LocalizeWithEnglishIsDefined(Catalog[i].description, lang);
    }
  }

  /** Searching "vue" over every category keeps the Weather Dashboard (project 3) in either language, through its Vue.js tag. */
  lemma VueKeepsWeatherDashboard(lang: string)
    requires lang == English || lang == Chinese
    ensures Catalog[2].id == 3
    ensures Keep(Catalog[2], FilterState("vue", AllCategories), lang) == Returns(true)
    ensures Filter(Catalog, FilterState("vue", AllCategories), lang).Returns?
    ensures Catalog[2] in Filter(Catalog, FilterState("vue", AllCategories), lang).value
  {
    var p := Catalog[2];
    assert p.technologies[0] == "Vue.js";
    assert ToLower("Vue.js")[..3] == "vue";
    assert ToLower("vue") == "vue";
    IncludesPrefix(ToLower("Vue.js"), "vue");
    CatalogNeverThrows(FilterState("vue", AllCategories), lang);
    TagMatchSuffices(p, FilterState("vue", AllCategories), lang, "Vue.js");
  }
}
