/** One card of the project grid: its texts, tags, links and the route to the detail page. */
module ProjectCard {
  import opened Wrappers
  import opened Decimal
  import opened Localization
  import opened ProjectsData

  const DetailPrefix := "/projects/"

  /** `/projects/${project.id}`, the target of both "view details" links. */
  function DetailPath(id: int): (r: string)
    ensures |r| > |DetailPrefix| && r[..|DetailPrefix|] == DetailPrefix
    ensures id >= 0 ==> r[|DetailPrefix|..] == NatToDecimal(id)
  {
    DetailPrefix + IntToDecimal(id)
  }

  /** JavaScript truthiness of an optional URL: present and not the empty string. */
  predicate Truthy(url: Option<string>) {
    url.Some? && url.value != ""
  }

  /** One rendered technology tag; React's `key` is its position. */
  datatype Tag = Tag(key: nat, text: string)

  /** `project.technologies.map((tech, index) => <span key={index}>{tech}</span>)`. */
  function Tags(technologies: seq<string>): (r: seq<Tag>)
    ensures |r| == |technologies|
    ensures forall i :: 0 <= i < |r| ==> r[i].text == technologies[i] && r[i].key == i
  {
    seq(|technologies|, i requires 0 <= i < |technologies| => Tag(i, technologies[i]))
  }

  /** The tag keys are pairwise distinct, as React requires of sibling keys. */
  lemma TagKeysDistinct(technologies: seq<string>)
    ensures forall i, j :: 0 <= i < j < |Tags(technologies)| ==> Tags(technologies)[i].key != Tags(technologies)[j].key
  {
  }

  /** What a card shows: localized texts, raw category, tags, the detail route and the optional links. */
  datatype CardView = CardView(
    title: Option<string>,
    description: Option<string>,
    category: string,
    tags: seq<Tag>,
    detailLink: string,
    liveLink: Option<string>,
    githubLink: Option<string>)

  /** The card for `p` in language `lang`. */
  function RenderCard(p: Project, lang: string): (r: CardView)
    ensures r.title == Localize(p.title, lang) && r.description == Localize(p.description, lang)
    ensures |r.tags| == |p.technologies|
    ensures r.tags == Tags(p.technologies)
    ensures r.category == p.category
    ensures r.detailLink == DetailPath(p.id)
    ensures r.liveLink.Some? <==> Truthy(p.liveUrl)
    ensures r.liveLink.Some? ==> r.liveLink == p.liveUrl
    ensures r.githubLink.Some? <==> Truthy(p.githubUrl)
    ensures r.githubLink.Some? ==> r.githubLink == p.githubUrl
  {
    CardView(
      Localize(p.title, lang),
      Localize(p.description, lang),
      p.category,
      Tags(p.technologies),
      DetailPath(p.id),
      if Truthy(p.liveUrl) then p.liveUrl else None,
      if Truthy(p.githubUrl) then p.githubUrl else None)
  }

  /** Every shipped card shows the live and source links except project 1's, which shows neither. */
  lemma CatalogCardLinks(lang: string)
    ensures RenderCard(Catalog[0], lang).liveLink.None? && RenderCard(Catalog[0], lang).githubLink.None?
    ensures forall i :: 1 <= i < |Catalog| ==>
      RenderCard(Catalog[i], lang).liveLink.Some? && RenderCard(Catalog[i], lang).githubLink.Some?
  {
    CatalogLinks();
  }
}
