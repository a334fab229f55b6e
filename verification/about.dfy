/** The About page's skill stars, their colours, the level legend and the social links. */
module About {
  import opened Wrappers
  import opened SkillsData
  import opened PersonalInfo

  const Orange := "text-orange-500"
  const Blue := "text-blue-500"

  /** `stars >= 4 ? orange : blue`: four and five stars are orange, fewer are blue. */
  function SimplifiedColor(stars: int): (r: string)
    ensures r == Orange <==> stars >= 4
    ensures r == Blue <==> stars < 4
  {
    if stars >= 4 then Orange else Blue
  }

  /** One star icon: filled in a colour, or the grey outline. */
  datatype Star = Filled(color: string) | Grey

  function FilledCount(row: seq<Star>): (n: nat)
    ensures n <= |row|
    decreases |row|
  {
    if row == [] then 0 else (if row[0].Filled? then 1 else 0) + FilledCount(row[1..])
  }

  /**
   * `renderStars(level)`: five stars; star `i` (counting from 1) is filled in
   * the level's simplified colour when `i` is at most the level's star count.
   */
  method RenderStars(level: string) returns (stars: seq<Star>)
    ensures |stars| == 5
    ensures forall i :: 0 <= i < 5 ==>
      stars[i] == (if i + 1 <= GetSkillLevel(level).stars then Filled(SimplifiedColor(GetSkillLevel(level).stars)) else Grey)
    ensures stars == StarRow(GetSkillLevel(level).stars, SimplifiedColor(GetSkillLevel(level).stars))
  {
    var config := GetSkillLevel(level);
    var color := SimplifiedColor(config.stars);
    stars := [];
    var i := 1;
    while i <= 5
      invariant 1 <= i <= 6
      invariant |stars| == i - 1
      invariant forall k :: 0 <= k < i - 1 ==> stars[k] == (if k + 1 <= config.stars then Filled(color) else Grey)
    {
      stars := stars + [if i <= config.stars then Filled(color) else Grey];
      i := i + 1;
    }
  }

  /** The row `renderStars` draws for a given star count, as a value. */
  function StarRow(count: int, color: string): (r: seq<Star>)
    ensures |r| == 5
  {
    seq(5, i requires 0 <= i < 5 => if i + 1 <= count then Filled(color) else Grey)
  }

  /** `Array.from({ length })` clamps a negative length to zero. */
  function ArrayLength(n: int): nat {
    if n < 0 then 0 else n
  }

  /** A legend row: `stars` coloured stars followed by `5 - stars` grey ones. */
  function LegendRow(stars: int): (r: seq<Star>)
    ensures 0 <= stars <= 5 ==> |r| == 5
    ensures forall i :: 0 <= i < |r| ==> (r[i].Filled? <==> i < stars)
    ensures forall i :: 0 <= i < |r| && r[i].Filled? ==> r[i].color == SimplifiedColor(stars)
  {
    seq(ArrayLength(stars), _ => Filled(SimplifiedColor(stars))) + seq(ArrayLength(5 - stars), _ => Grey)
  }

  /** The filled stars of a row counted one by one. */
  lemma {:induction false} FilledCountOfPrefix(row: seq<Star>, k: nat)
    requires k <= |row|
    requires forall i :: 0 <= i < |row| ==> (row[i].Filled? <==> i < k)
    ensures FilledCount(row) == k
    decreases |row|
  {
    if row != [] {
      if k > 0 {
        FilledCountOfPrefix(row[1..], k - 1);
      } else {
        FilledCountOfPrefix(row[1..], 0);
      }
    }
  }

  /** For any star count in [0, 5], a legend row's filled and grey stars add up to five. */
  lemma LegendAddsUpToFive(stars: int)
    requires 0 <= stars <= 5
    ensures FilledCount(LegendRow(stars)) == stars
    ensures |LegendRow(stars)| - FilledCount(LegendRow(stars)) == 5 - stars
  {
    FilledCountOfPrefix(LegendRow(stars), stars);
  }

  /** The legend row and the skill row agree on every configured level. */
  lemma LegendMatchesSkillRow(level: string)
    requires level in SkillLevels
    ensures LegendRow(SkillLevels[level].stars) == StarRow(SkillLevels[level].stars, SimplifiedColor(SkillLevels[level].stars))
  {
    StarsInRange();
  }

  /** A skill row fills exactly as many stars as the level has. */
  lemma SkillRowFilledCount(level: string)
    ensures FilledCount(StarRow(GetSkillLevel(level).stars, SimplifiedColor(GetSkillLevel(level).stars))) == GetSkillLevel(level).stars
  {
    var s := GetSkillLevel(level).stars;
    FilledCountOfPrefix(StarRow(s, SimplifiedColor(s)), s);
  }

  datatype Network = GitHub | LinkedIn | Twitter

  datatype SocialLink = SocialLink(network: Network, url: string)

  /** The position of a network in the list: GitHub, then LinkedIn, then Twitter. */
  function Rank(n: Network): nat {
    match n
    case GitHub => 0
    case LinkedIn => 1
    case Twitter => 2
  }

  function Url(s: Social, n: Network): Option<string> {
    match n
    case GitHub => s.github
    case LinkedIn => s.linkedin
    case Twitter => s.twitter
  }

  function LinkOf(s: Social, n: Network): seq<SocialLink> {
    if Url(s, n).Some? then [SocialLink(n, Url(s, n).value)] else []
  }

  /** `[github && {...}, linkedin && {...}, twitter && {...}].filter(Boolean)`: a missing network is falsy and dropped. */
  function SocialLinks(s: Social): (r: seq<SocialLink>)
    ensures forall n :: Url(s, n).Some? ==> SocialLink(n, Url(s, n).value) in r
    ensures forall l :: l in r ==> Url(s, l.network) == Some(l.url)
    ensures forall i, j :: 0 <= i < j < |r| ==> Rank(r[i].network) < Rank(r[j].network)
  {
    LinkOf(s, GitHub) + LinkOf(s, LinkedIn) + LinkOf(s, Twitter)
  }
}
