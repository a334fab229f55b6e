/** The project detail page: route lookup, not-found view and the page's derived content. */
module ProjectDetail {
  import opened Wrappers
  import opened Text
  import opened Decimal
  import opened Localization
  import opened ProjectsData
  import ProjectCard

  /** No record before position `i` carries `id`. */
  predicate FirstWithId(ps: seq<Project>, i: int, id: int)
    requires 0 <= i <= |ps|
  {
    forall j :: 0 <= j < i ==> ps[j].id != id
  }

  /** `projects.find(p => p.id === key)`: the first record with that id; `NaN` equals no id. */
  function FindById(ps: seq<Project>, key: Option<int>): (r: Option<Project>)
    ensures r.Some? ==> key.Some? && r.value in ps && r.value.id == key.value
    ensures r.Some? ==> exists i :: 0 <= i < |ps| && ps[i] == r.value && FirstWithId(ps, i, key.value)
    ensures r.None? <==> key.None? || forall i :: 0 <= i < |ps| ==> ps[i].id != key.value
    decreases |ps|
  {
    if key.None? || ps == [] then None
    else if ps[0].id == key.value then Some(ps[0])
    else FindById(ps[1..], key)
  }

  /** With unique ids, a found record is the only record carrying the requested id. */
  lemma FoundIsUnique(ps: seq<Project>, key: Option<int>)
    requires UniqueIds(ps)
    requires FindById(ps, key).Some?
    ensures forall i :: 0 <= i < |ps| && ps[i].id == key.value ==> ps[i] == FindById(ps, key).value
  {
  }

  /** What the page renders for a route parameter: the detail view or the not-found view. */
  datatype Page = NotFound | Detail(project: Project)

  /** The page for the `:id` route parameter: `parseInt(id)`, then the lookup. */
  function PageFor(ps: seq<Project>, idParam: string): (r: Page)
    ensures r.Detail? ==> r.project in ps && Some(r.project.id) == ParseInt(idParam)
    ensures r.NotFound? <==> FindById(ps, ParseInt(idParam)).None?
  {
    match FindById(ps, ParseInt(idParam))
    case None => NotFound
    case Some(p) => Detail(p)
  }

  /** A parameter that does not start with a decimal digit parses to `NaN` and shows the not-found view. */
  lemma NonNumericIdNotFound(ps: seq<Project>, idParam: string)
    requires idParam == [] || !IsDigit(idParam[0])
    ensures PageFor(ps, idParam) == NotFound
  {
  }

  /** The route parameter of a path under `/projects/`: the text after the prefix. */
  function RouteParam(path: string): (r: Option<string>)
    ensures r.Some? ==> path == ProjectCard.DetailPrefix + r.value
  {
    var prefix := ProjectCard.DetailPrefix;
    if |path| > |prefix| && path[..|prefix|] == prefix then Some(path[|prefix|..]) else None
  }

  /**
   * Route round trip: following a card's detail link to this page shows the
   * same project, whenever ids are unique and non-negative.
   */
  lemma DetailLinkRoundTrip(ps: seq<Project>, p: Project)
    requires UniqueIds(ps) && p in ps && p.id >= 0
    ensures RouteParam(ProjectCard.DetailPath(p.id)) == Some(NatToDecimal(p.id))
    ensures PageFor(ps, NatToDecimal(p.id)) == Detail(p)
  {
    var path := ProjectCard.DetailPath(p.id);
    assert path == ProjectCard.DetailPrefix + NatToDecimal(p.id);
    ParseDecimalRoundTrip(p.id);
  }

  /** Every shipped project is reachable from its card's link. */
  lemma CatalogRoutesRoundTrip()
    ensures forall i :: 0 <= i < |Catalog| ==>
      PageFor(Catalog, NatToDecimal(Catalog[i].id)) == Detail(Catalog[i])
  {
    CatalogIds();
    forall i | 0 <= i < |Catalog|
      ensures PageFor(Catalog, NatToDecimal(Catalog[i].id)) == Detail(Catalog[i])
    {
      DetailLinkRoundTrip(Catalog, Catalog[i]);
    }
  }

  /** `"3abc"` parses as 3, so a path with trailing text still opens project 3. */
  lemma TrailingTextStillFound(ps: seq<Project>, p: Project, rest: string)
    requires UniqueIds(ps) && p in ps && p.id >= 0
    requires rest == [] || !IsDigit(rest[0])
    ensures PageFor(ps, NatToDecimal(p.id) + rest) == Detail(p)
  {
    ParseIgnoresTrailingText(p.id, rest);
  }

  /** The tech-stack count label: `technology` for exactly one entry, `technologiesCount` otherwise. */
  datatype TechLabel = Singular | Plural

  /** What the detail page shows, for a given image-error flag. */
  datatype DetailContent = DetailContent(
    title: Option<string>,
    description: Option<string>,
    showLiveDemo: bool,
    showSourceCode: bool,
    techCount: nat,
    techLabel: TechLabel,
    tags: seq<string>,
    image: ImageSource)

  /** The image the page loads: the record's own image, or a placeholder captioned with the localized title. */
  datatype ImageSource = Original(image: Image) | TitlePlaceholder(title: Option<string>)

  /** The content of the detail view of `p` in `lang`. */
  function Content(p: Project, lang: string, imageError: bool): (r: DetailContent)
    ensures r.title == Localize(p.title, lang) && r.description == Localize(p.description, lang)
    ensures r.showLiveDemo <==> ProjectCard.Truthy(p.liveUrl)
    ensures r.showSourceCode <==> ProjectCard.Truthy(p.githubUrl)
    ensures r.techCount == |p.technologies|
    ensures r.techLabel == Singular <==> |p.technologies| == 1
    ensures r.tags == p.technologies
    ensures r.image.TitlePlaceholder? <==> imageError
    ensures !imageError ==> r.image == Original(p.image)
  {
    DetailContent(
      Localize(p.title, lang),
      Localize(p.description, lang),
      ProjectCard.Truthy(p.liveUrl),
      ProjectCard.Truthy(p.githubUrl),
      |p.technologies|,
      if |p.technologies| == 1 then Singular else Plural,
      p.technologies,
      if imageError then TitlePlaceholder(Localize(p.title, lang)) else Original(p.image))
  }

  /** Events the image can report: `onError` sets the flag, a successful load leaves it. */
  datatype ImageEvent = LoadFailed | Loaded

  /** The page's `imageError` state after one event. */
  function ImageStep(flag: bool, e: ImageEvent): (r: bool)
    ensures e == LoadFailed ==> r
    ensures flag ==> r
  {
    match e
    case LoadFailed => true
    case Loaded => flag
  }

  /** The flag after a run of events, starting from `useState(false)`'s value or any other. */
  function ImageFlag(flag: bool, events: seq<ImageEvent>): bool
    decreases |events|
  {
    if events == [] then flag else ImageFlag(ImageStep(flag, events[0]), events[1..])
  }

  /** The flag starts false and only ever moves to true: it is set exactly when some load failed. */
  lemma {:induction false} ImageFlagMonotone(flag: bool, events: seq<ImageEvent>)
    ensures ImageFlag(flag, events) <==> flag || LoadFailed in events
    decreases |events|
  {
    if events != [] {
      ImageFlagMonotone(ImageStep(flag, events[0]), events[1..]);
      assert events == [events[0]] + events[1..];
    }
  }

  /** The placeholder is shown exactly when some load of the image failed. */
  lemma PlaceholderIffFailure(p: Project, lang: string, events: seq<ImageEvent>)
    ensures Content(p, lang, ImageFlag(false, events)).image.TitlePlaceholder? <==> LoadFailed in events
  {
    ImageFlagMonotone(false, events);
  }
}
