/**
 * The card component's style selectors. Each maps a prop value to a class
 * string and sends every unrecognised value to its default branch.
 */
module CardStyles {
  import opened Wrappers

  const VariantGradient := "bg-gradient-to-br from-blue-100 to-indigo-200 dark:from-gray-800 dark:via-gray-700 dark:to-gray-600 border-blue-200 dark:border-gray-600 shadow-lg"
  const VariantGlass := "bg-white/60 backdrop-blur-md dark:bg-gray-800/60 border border-white/30 dark:border-white/20 shadow-xl ring-1 ring-white/10"
  const VariantOutline := "bg-transparent border-2 border-gray-400 dark:border-gray-500 hover:border-gray-500 dark:hover:border-gray-400"
  const VariantFresh := "bg-gradient-to-br from-pink-50 via-sky-50 to-indigo-50 dark:from-slate-800 dark:via-slate-700/30 dark:to-indigo-900/20 border-sky-200 dark:border-slate-600 shadow-xl"
  const VariantDefault := "bg-gray-20 dark:bg-gray-700 border-gray-300 dark:border-gray-600 shadow-sm"

  const ShadowNone := "shadow-none"
  const ShadowSm := "shadow-sm hover:shadow-md"
  const ShadowMd := "shadow-md hover:shadow-lg"
  const ShadowLg := "shadow-lg hover:shadow-xl"
  const ShadowXl := "shadow-xl hover:shadow-2xl"

  const HoverLift := "hover:-translate-y-2 hover:shadow-2xl transition-all duration-300"
  const HoverScale := "hover:scale-[1.02] hover:shadow-lg transition-all duration-300"
  const HoverGlow := "hover:shadow-blue-500/30 hover:border-blue-400 dark:hover:border-blue-400 hover:shadow-xl transition-all duration-300"

  const PaddingSm := "p-4"
  const PaddingMd := "p-6"
  const PaddingLg := "p-8"
  const PaddingXl := "p-10"

  /** The named cases of each selector, and the class string each names. */
  const VariantCases: map<string, string> := map["gradient" := VariantGradient, "glass" := VariantGlass, "outline" := VariantOutline, "fresh" := VariantFresh]
  const ShadowCases: map<string, string> := map["none" := ShadowNone, "sm" := ShadowSm, "md" := ShadowMd, "lg" := ShadowLg, "xl" := ShadowXl]
  const HoverCases: map<string, string> := map["none" := "", "lift" := HoverLift, "scale" := HoverScale, "glow" := HoverGlow]
  const PaddingCases: map<string, string> := map["none" := "", "sm" := PaddingSm, "md" := PaddingMd, "lg" := PaddingLg, "xl" := PaddingXl]

  /** `getVariantStyles`. */
  function VariantStyles(variant: string): (r: string)
    ensures variant in VariantCases ==> r == VariantCases[variant]
    ensures variant !in VariantCases ==> r == VariantDefault
  {
    if variant == "gradient" then VariantGradient
    else if variant == "glass" then VariantGlass
    else if variant == "outline" then VariantOutline
    else if variant == "fresh" then VariantFresh
    else VariantDefault
  }

  /** `getShadowStyles`. */
  function ShadowStyles(shadow: string): (r: string)
    ensures shadow in ShadowCases ==> r == ShadowCases[shadow]
    ensures shadow !in ShadowCases ==> r == ShadowMd
  {
    if shadow == "none" then ShadowNone
    else if shadow == "sm" then ShadowSm
    else if shadow == "md" then ShadowMd
    else if shadow == "lg" then ShadowLg
    else if shadow == "xl" then ShadowXl
    else ShadowMd
  }

  /** `getHoverStyles`. */
  function HoverStyles(hover: string): (r: string)
    ensures hover in HoverCases ==> r == HoverCases[hover]
    ensures hover !in HoverCases ==> r == HoverLift
  {
    if hover == "none" then ""
    else if hover == "lift" then HoverLift
    else if hover == "scale" then HoverScale
    else if hover == "glow" then HoverGlow
    else HoverLift
  }

  /** `getPaddingStyles`. */
  function PaddingStyles(padding: string): (r: string)
    ensures padding in PaddingCases ==> r == PaddingCases[padding]
    ensures padding !in PaddingCases ==> r == PaddingMd
  {
    if padding == "none" then ""
    else if padding == "sm" then PaddingSm
    else if padding == "md" then PaddingMd
    else if padding == "lg" then PaddingLg
    else if padding == "xl" then PaddingXl
    else PaddingMd
  }

  /** Any unrecognised shadow, hover or padding value styles the card as its `md`, `lift` and `md` case. */
  lemma DefaultsEqualNamedCases(key: string)
    ensures key !in ShadowCases ==> ShadowStyles(key) == ShadowStyles("md")
    ensures key !in HoverCases ==> HoverStyles(key) == HoverStyles("lift")
    ensures key !in PaddingCases ==> PaddingStyles(key) == PaddingStyles("md")
  {
  }

  /** `'none'` removes hover and padding classes and sets `shadow-none`. */
  lemma NoneCases()
    ensures ShadowStyles("none") == "shadow-none"
    ensures HoverStyles("none") == ""
    ensures PaddingStyles("none") == ""
  {
  }

  /** The props a caller passes; `None` is a prop left undefined. */
  datatype CardProps = CardProps(
    className: Option<string>,
    variant: Option<string>,
    shadow: Option<string>,
    hover: Option<string>,
    padding: Option<string>)

  const NoProps := CardProps(None, None, None, None, None)

  const BaseClasses := "rounded-xl border transition-all duration-200"

  /**
   * The class list in the order the component writes it: base, variant,
   * shadow, hover, padding, then the caller's class. Undefined props take
   * the defaults `""`, `default`, `md`, `lift` and `md`.
   */
  function ClassParts(p: CardProps): (r: seq<string>)
    ensures |r| == 6 && r[0] == BaseClasses
    ensures p.variant.None? ==> r[1] == VariantDefault
    ensures p.shadow.None? ==> r[2] == ShadowMd
    ensures p.hover.None? ==> r[3] == HoverLift
    ensures p.padding.None? ==> r[4] == PaddingMd
    ensures p.className.None? ==> r[5] == ""
  {
    [
      BaseClasses,
      VariantStyles(p.variant.GetOr("default")),
      ShadowStyles(p.shadow.GetOr("md")),
      HoverStyles(p.hover.GetOr("lift")),
      PaddingStyles(p.padding.GetOr("md")),
      p.className.GetOr("")
    ]
  }

  /** Where part `k` starts once the parts before it and one space after each are written out. */
  function Offset(parts: seq<string>, k: nat): nat
    requires k <= |parts|
    decreases k
  {
    if k == 0 then 0 else |parts[0]| + 1 + Offset(parts[1..], k - 1)
  }

  /** The template literal's joining, one part at a time from the front. */
  function Join(parts: seq<string>): string
    decreases |parts|
  {
    if parts == [] then ""
    else if |parts| == 1 then parts[0]
    else parts[0] + " " + Join(parts[1..])
  }

  /** Part `k` of the joined string sits at its offset, a space follows every part but the last, and the last part ends it. */
  predicate LaidOut(parts: seq<string>, r: string)
    requires parts != []
  {
    && |r| == Offset(parts, |parts| - 1) + |parts[|parts| - 1]|
    && (forall k, j :: 0 <= k < |parts| && 0 <= j < |parts[k]| ==>
          Offset(parts, k) + j < |r| && r[Offset(parts, k) + j] == parts[k][j])
    && (forall k :: 0 <= k < |parts| - 1 ==>
          Offset(parts, k) + |parts[k]| < |r| && r[Offset(parts, k) + |parts[k]|] == ' ')
  }

  /** The joined string is the parts' lengths plus one space between each, and the last part ends it. */
  lemma {:induction false} JoinLength(parts: seq<string>)
    requires parts != []
    ensures |Join(parts)| == SumLengths(parts) + |parts| - 1
    ensures |Join(parts)| == Offset(parts, |parts| - 1) + |parts[|parts| - 1]|
    decreases |parts|
  {
    if |parts| > 1 {
      JoinLength(parts[1..]);
    }
  }

  /** Character `j` of part `k` is at the part's offset plus `j`. */
  lemma {:induction false} JoinPartAt(parts: seq<string>, k: nat, j: nat)
    requires k < |parts| && j < |parts[k]|
    ensures Offset(parts, k) + j < |Join(parts)| && Join(parts)[Offset(parts, k) + j] == parts[k][j]
    decreases k
  {
    JoinLength(parts);
    if k > 0 {
      JoinPartAt(parts[1..], k - 1, j);
    }
  }

  /** The character right after every part but the last is a space. */
  lemma {:induction false} JoinSpaceAt(parts: seq<string>, k: nat)
    requires k < |parts| - 1
    ensures Offset(parts, k) + |parts[k]| < |Join(parts)| && Join(parts)[Offset(parts, k) + |parts[k]|] == ' '
    decreases k
  {
    JoinLength(parts);
    if k > 0 {
      JoinSpaceAt(parts[1..], k - 1);
    }
  }

  /** The joined string is laid out part by part. */
  lemma JoinLaidOut(parts: seq<string>)
    requires parts != []
    ensures |Join(parts)| == SumLengths(parts) + |parts| - 1
    ensures LaidOut(parts, Join(parts))
  {
    JoinLength(parts);
    forall k, j | 0 <= k < |parts| && 0 <= j < |parts[k]|
      ensures Offset(parts, k) + j < |Join(parts)| && Join(parts)[Offset(parts, k) + j] == parts[k][j]
    {
      JoinPartAt(parts, k, j);
    }
    forall k | 0 <= k < |parts| - 1
      ensures Offset(parts, k) + |parts[k]| < |Join(parts)| && Join(parts)[Offset(parts, k) + |parts[k]|] == ' '
    {
      JoinSpaceAt(parts, k);
    }
  }

  /**
   * The parts joined with single spaces, as the template literal writes them:
   * part `k` sits at its offset, a space follows every part but the last,
   * and the last part ends the string.
   */
  function JoinWithSpaces(parts: seq<string>): (r: string)
    ensures parts == [] ==> r == ""
    ensures parts != [] ==> |r| == SumLengths(parts) + |parts| - 1
    ensures parts != [] ==> LaidOut(parts, r)
  {
    if parts == [] then "" else JoinLaidOut(parts); Join(parts)
  }

  function SumLengths(parts: seq<string>): nat
    decreases |parts|
  {
    if parts == [] then 0 else |parts[0]| + SumLengths(parts[1..])
  }

  /** The `className` the card renders: the six parts, space-separated. */
  function ClassName(p: CardProps): (r: string)
    ensures |r| >= |BaseClasses| && r[..|BaseClasses|] == BaseClasses
  {
    JoinStartsWithFirst(ClassParts(p));
    JoinWithSpaces(ClassParts(p))
  }

  /** The joined string starts with the first part. */
  lemma JoinStartsWithFirst(parts: seq<string>)
    requires parts != []
    ensures |JoinWithSpaces(parts)| >= |parts[0]| && JoinWithSpaces(parts)[..|parts[0]|] == parts[0]
  {
    var r := JoinWithSpaces(parts);
    assert Offset(parts, 0) == 0;
    assert forall j :: 0 <= j < |parts[0]| ==> r[j] == parts[0][j];
  }

  /** Passing the default values explicitly renders the same card as passing nothing. */
  lemma ExplicitDefaultsAreDefaults()
    ensures ClassParts(CardProps(Some(""), Some("default"), Some("md"), Some("lift"), Some("md"))) == ClassParts(NoProps)
  {
  }

  /** A card with no props renders the `default` variant, the `md` shadow, the `lift` hover and the `md` padding. */
  lemma PlainCard()
    ensures ClassParts(NoProps) == [BaseClasses, VariantDefault, ShadowMd, HoverLift, PaddingMd, ""]
  {
  }

  /**
   * The class name for any props is the template literal: the base classes,
   * then each selector's class for the prop or its default, then the
   * caller's class, with one space between each.
   */
  lemma ClassNameTemplate(p: CardProps)
    ensures ClassName(p) == BaseClasses + " " + (VariantStyles(p.variant.GetOr("default")) + " "
      + (ShadowStyles(p.shadow.GetOr("md")) + " " + (HoverStyles(p.hover.GetOr("lift")) + " "
      + (PaddingStyles(p.padding.GetOr("md")) + " " + p.className.GetOr("")))))
  {
    JoinSix(ClassParts(p));
  }

  /** Six parts join as the template literal writes them. */
  lemma JoinSix(parts: seq<string>)
    requires |parts| == 6
    ensures Join(parts) == parts[0] + " " + (parts[1] + " " + (parts[2] + " " + (parts[3] + " " + (parts[4] + " " + parts[5]))))
  {
    var p1 := parts[1..];
    var p2 := p1[1..];
    var p3 := p2[1..];
    var p4 := p3[1..];
    assert Join(p4) == parts[4] + " " + parts[5];
    assert Join(p3) == parts[3] + " " + Join(p4);
    assert Join(p2) == parts[2] + " " + Join(p3);
    assert Join(p1) == parts[1] + " " + Join(p2);
  }

  /**
   * The class name of a card with no props. The caller's empty class still
   * gets its separating space, so the string ends in a space.
   */
  lemma PlainCardClassName()
    ensures ClassName(NoProps) == BaseClasses + " " + (VariantDefault + " " + (ShadowMd + " " + (HoverLift + " " + (PaddingMd + " "))))
  {
    ClassNameTemplate(NoProps);
    assert VariantStyles("default") == VariantDefault;
    assert ShadowStyles("md") == ShadowMd && HoverStyles("lift") == HoverLift && PaddingStyles("md") == PaddingMd;
    assert PaddingMd + " " + "" == PaddingMd + " ";
  }
}
