/**
 * The technology timeline carousel: a current index and an autoplay flag,
 * moved by the arrow buttons, the year buttons, the keyboard and the
 * autoplay timer; plus the badge lookups with their fallbacks.
 */
module TechTimeline {
  import opened Wrappers
  import opened Localization
  import opened SkillsData
  import opened TimelineData

  /** The component's two pieces of state. */
  datatype Carousel = Carousel(index: int, autoPlaying: bool)

  /** `useState(0)` and `useState(false)`. */
  const InitialCarousel := Carousel(0, false)

  /** `prev < n - 1 ? prev + 1 : 0`. */
  function NextIndex(i: int, n: int): (r: int)
    ensures n >= 1 && 0 <= i < n ==> 0 <= r < n
    ensures n >= 1 && 0 <= i < n ==> r == (i + 1) % n
  {
    if i < n - 1 then i + 1 else 0
  }

  /** `prev > 0 ? prev - 1 : n - 1`. */
  function PrevIndex(i: int, n: int): (r: int)
    ensures n >= 1 && 0 <= i < n ==> 0 <= r < n
    ensures n >= 1 && 0 <= i < n ==> r == (i - 1) % n
  {
    if i > 0 then i - 1 else n - 1
  }

  /** Previous undoes next, and next undoes previous, on every in-range index. */
  lemma NextPrevInverse(i: int, n: int)
    requires n >= 1 && 0 <= i < n
    ensures PrevIndex(NextIndex(i, n), n) == i
    ensures NextIndex(PrevIndex(i, n), n) == i
  {
  }

  /** The index after `k` presses of next. */
  function NextTimes(i: int, n: int, k: nat): int
    decreases k
  {
    if k == 0 then i else NextIndex(NextTimes(i, n, k - 1), n)
  }

  /** Pressing next `a + b` times is pressing it `a` times and then `b` times. */
  lemma {:induction false} NextTimesAdd(i: int, n: int, a: nat, b: nat)
    ensures NextTimes(i, n, a + b) == NextTimes(NextTimes(i, n, a), n, b)
    decreases b
  {
    if b > 0 {
      NextTimesAdd(i, n, a, b - 1);
    }
  }

  /** Below the last entry, `k` presses of next advance the index by exactly `k`. */
  lemma {:induction false} NextTimesAdvance(i: int, n: int, k: nat)
    requires 0 <= i && i + k < n
    ensures NextTimes(i, n, k) == i + k
    decreases k
  {
    if k > 0 {
      NextTimesAdvance(i, n, k - 1);
    }
  }

  /** Pressing next once per entry comes back to the starting entry. */
  lemma NextCycle(i: int, n: int)
    requires n >= 1 && 0 <= i < n
    ensures NextTimes(i, n, n) == i
  {
    var toLast := n - 1 - i;
    NextTimesAdvance(i, n, toLast);
    NextTimesAdd(i, n, toLast, 1);
    NextTimesAdd(i, n, toLast + 1, i);
    NextTimesAdvance(0, n, i);
  }

  /** `goToNextTimeline`: the index moves one entry forward, wrapping to the first; the autoplay flag is untouched. */
  function GoNext(s: Carousel, n: int): (r: Carousel)
    ensures r.autoPlaying == s.autoPlaying
    ensures n >= 1 && 0 <= s.index < n ==> 0 <= r.index < n
    ensures n >= 1 && 0 <= s.index < n ==> r.index == (s.index + 1) % n
  {
    s.(index := NextIndex(s.index, n))
  }

  /** `goToPrevTimeline`: the index moves one entry back, wrapping to the last; the autoplay flag is untouched. */
  function GoPrev(s: Carousel, n: int): (r: Carousel)
    ensures r.autoPlaying == s.autoPlaying
    ensures n >= 1 && 0 <= s.index < n ==> 0 <= r.index < n
    ensures n >= 1 && 0 <= s.index < n ==> r.index == (s.index - 1) % n
  {
    s.(index := PrevIndex(s.index, n))
  }

  /** `goToTimelineIndex(index)`: the index is set exactly, the autoplay flag kept. */
  function GoTo(s: Carousel, index: int): (r: Carousel)
    ensures r.index == index
    ensures r.autoPlaying == s.autoPlaying
  {
    s.(index := index)
  }

  /** One year button: the year it shows, the index its click jumps to, and whether it is highlighted. */
  datatype YearButton = YearButton(year: int, target: nat, active: bool)

  /**
   * The year indicator: one button per entry, in order, keyed and labelled
   * by its year; a click jumps to the button's own position, and the button
   * at the current index is highlighted.
   */
  function YearButtons(entries: seq<TimelineEntry>, current: int): (r: seq<YearButton>)
    ensures |r| == |entries|
    ensures forall i :: 0 <= i < |r| ==> r[i].year == entries[i].year && r[i].target == i
    ensures forall i :: 0 <= i < |r| ==> (r[i].active <==> i == current)
  {
    seq(|entries|, i requires 0 <= i < |entries| => YearButton(entries[i].year, i, i == current))
  }

  /**
   * Every jump a year button makes lands inside the timeline, the clicked
   * button is the one highlighted afterwards, and only the last of several
   * jumps counts.
   */
  lemma YearButtonsStayInRange(entries: seq<TimelineEntry>, s: Carousel)
    ensures forall b :: b in YearButtons(entries, s.index) ==> 0 <= GoTo(s, b.target).index < |entries|
    ensures forall i :: 0 <= i < |entries| ==>
      YearButtons(entries, GoTo(s, YearButtons(entries, s.index)[i].target).index)[i].active
    ensures forall a, b :: GoTo(GoTo(s, b), a) == GoTo(s, a)
  {
    var buttons := YearButtons(entries, s.index);
    forall b | b in buttons
      ensures 0 <= GoTo(s, b.target).index < |entries|
    {
      var i :| 0 <= i < |buttons| && buttons[i] == b;
    }
  }

  /** On the shipped timeline every year button jumps to one of its five entries. */
  lemma ShippedYearButtonsStayInRange(s: Carousel)
    ensures forall b :: b in YearButtons(TechTimelineData, s.index) ==> 0 <= GoTo(s, b.target).index < EntryCount()
  {
    YearButtonsStayInRange(TechTimelineData, s);
  }

  /** The play/pause button and the space key: flip autoplay, keep the index. */
  function ToggleAutoplay(s: Carousel): (r: Carousel)
    ensures r.index == s.index && r.autoPlaying != s.autoPlaying
  {
    s.(autoPlaying := !s.autoPlaying)
  }

  /** Toggling autoplay twice restores it. */
  lemma ToggleTwice(s: Carousel)
    ensures ToggleAutoplay(ToggleAutoplay(s)) == s
  {
  }

  /** One autoplay interval tick: it advances only while autoplay is on. */
  function AutoplayTick(s: Carousel, n: int): (r: Carousel)
    ensures !s.autoPlaying ==> r == s
    ensures s.autoPlaying ==> r == GoNext(s, n)
  {
    if s.autoPlaying then GoNext(s, n) else s
  }

  /**
   * The window `keydown` handler: ArrowLeft goes back, ArrowRight forward,
   * space toggles autoplay; other keys, or navigation disabled, change nothing.
   */
  function HandleKey(s: Carousel, key: string, keyboardEnabled: bool, n: int): (r: Carousel)
    ensures !keyboardEnabled ==> r == s
    ensures keyboardEnabled && key == "ArrowLeft" ==> r == GoPrev(s, n)
    ensures keyboardEnabled && key == "ArrowRight" ==> r == GoNext(s, n)
    ensures keyboardEnabled && key == " " ==> r.index == s.index && r.autoPlaying == !s.autoPlaying
    ensures key !in {"ArrowLeft", "ArrowRight", " "} ==> r == s
  {
    if !keyboardEnabled then s
    else if key == "ArrowLeft" then GoPrev(s, n)
    else if key == "ArrowRight" then GoNext(s, n)
    else if key == " " then ToggleAutoplay(s)
    else s
  }

  /** Every reachable state keeps the index in range: a key press preserves it for `n >= 1`. */
  lemma HandleKeyKeepsRange(s: Carousel, key: string, keyboardEnabled: bool, n: int)
    requires n >= 1 && 0 <= s.index < n
    ensures 0 <= HandleKey(s, key, keyboardEnabled, n).index < n
  {
  }

  /** ArrowRight then ArrowLeft, or the reverse, returns to the same state. */
  lemma ArrowKeysInverse(s: Carousel, n: int)
    requires n >= 1 && 0 <= s.index < n
    ensures HandleKey(HandleKey(s, "ArrowRight", true, n), "ArrowLeft", true, n) == s
    ensures HandleKey(HandleKey(s, "ArrowLeft", true, n), "ArrowRight", true, n) == s
  {
    NextPrevInverse(s.index, n);
  }

  /** The lucide icon names `iconMap` holds. */
  const IconNames: set<string> := {
    "Code", "Palette", "Zap", "GitBranch", "Atom", "Triangle", "Paintbrush", "Package",
    "Server", "Database", "FileType", "Container", "Cloud", "Flame", "Share2",
    "ArrowRight", "FileCode", "Figma", "Brain"}

  /** `iconMap[iconName] || Code`. */
  function GetIcon(name: string): (r: string)
    ensures r in IconNames
    ensures name in IconNames ==> r == name
    ensures name !in IconNames ==> r == "Code"
  {
    if name in IconNames then name else "Code"
  }

  /** `techCategoryColors[category] || techCategoryColors.tools`. */
  function CategoryColor(category: string): (r: string)
    ensures r in TechCategoryColors.Values
    ensures category in TechCategoryColors ==> r == TechCategoryColors[category]
    ensures category !in TechCategoryColors ==> r == TechCategoryColors["tools"]
  {
    if category in TechCategoryColors then TechCategoryColors[category] else TechCategoryColors["tools"]
  }

  /** The entry count the carousel steps through. */
  function EntryCount(): (n: nat)
    ensures n == 5 && n >= 1
  {
    TimelineYears();
    |TechTimelineData|
  }

  /** Every badge's icon is in `iconMap` and its level is configured, so neither fallback fires. */
  lemma TimelineLookupsNeverFallBack()
    ensures forall i, k :: 0 <= i < |TechTimelineData| && 0 <= k < |TechTimelineData[i].technologies| ==>
      TechTimelineData[i].technologies[k].icon in IconNames
      && TechTimelineData[i].technologies[k].level in SkillLevels
      && TechTimelineData[i].technologies[k].category in TechCategoryColors
  {
    TimelineCategoriesColored();
  }

  /** The modules whose exports the timeline's import can reach. */
  datatype DataModule = ProjectsModule | SkillsModule | TimelineModule

  /** The named exports of each data module. */
  function Exports(m: DataModule): set<string> {
    match m
    case ProjectsModule => {"projects"}
    case SkillsModule => {"skillLevels", "skillsData"}
    case TimelineModule => {"techTimelineData", "techCategoryColors"}
  }

  /** An import statement: the module it names and the bindings it asks for. */
  datatype Import = Import(from: DataModule, names: set<string>)

  /** An import links only when the module exports every requested name. */
  predicate Resolves(imp: Import) {
    imp.names <= Exports(imp.from)
  }

  /** The component's data import as written: all three names from the projects module. */
  const ImportAsWritten := [Import(ProjectsModule, {"techTimelineData", "techCategoryColors", "skillLevels"})]

  /** The import as evidently intended: each name from the module that defines it. */
  const ImportCorrected := [
    Import(TimelineModule, {"techTimelineData", "techCategoryColors"}),
    Import(SkillsModule, {"skillLevels"})]

  /** The bound value of `techTimelineData` under a list of imports, or `None` when it does not link. */
  function TimelineBinding(imports: seq<Import>): (r: Option<seq<TimelineEntry>>)
    ensures r.Some? ==> r.value == TechTimelineData
    ensures r.Some? <==> forall k :: 0 <= k < |imports| ==> Resolves(imports[k])
  {
    if forall k :: 0 <= k < |imports| ==> Resolves(imports[k]) then Some(TechTimelineData) else None
  }

  /** As written, none of the three names is exported by the projects module, so the import does not link. */
  lemma ImportAsWrittenUnresolved()
    ensures forall name :: name in ImportAsWritten[0].names ==> name !in Exports(ProjectsModule)
    ensures TimelineBinding(ImportAsWritten).None?
  {
    assert "techTimelineData" !in Exports(ProjectsModule);
  }

  /** Corrected, the import links and binds the five-entry timeline, so the carousel's `n >= 1` holds. */
  lemma ImportCorrectedResolves()
    ensures TimelineBinding(ImportCorrected) == Some(TechTimelineData)
    ensures |TimelineBinding(ImportCorrected).value| == EntryCount() && EntryCount() >= 1
  {
  }
}
