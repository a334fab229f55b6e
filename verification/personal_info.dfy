/**
 * The personal-information hook: the resolver for config text values, the
 * shallow merge of updates, and the formatting of the raw configuration into
 * the object the pages read.
 */
module PersonalInfo {
  import opened Wrappers
  import Localization

  /** A config text value: a plain string, or an object of per-language strings. */
  datatype TextValue = Plain(s: string) | Localized(entries: map<string, string>)

  /**
   * The hook's `getLocalizedText`: a string is returned as is; an object
   * yields its truthy active-language entry, else its truthy `en` entry,
   * else the object itself.
   */
  function ResolveText(v: TextValue, lang: string): (r: TextValue)
    ensures v.Plain? ==> r == v
    ensures v.Localized? && Localization.HasEntry(v.entries, lang) ==> r == Plain(v.entries[lang])
    ensures v.Localized? && !Localization.HasEntry(v.entries, lang) && Localization.HasEntry(v.entries, Localization.English) ==>
      r == Plain(v.entries[Localization.English])
    ensures r.Localized? <==> v.Localized? && !Localization.HasEntry(v.entries, lang) && !Localization.HasEntry(v.entries, Localization.English)
    ensures r.Localized? ==> r == v
  {
    match v
    case Plain(_) => v
    case Localized(e) =>
      if Localization.HasEntry(e, lang) then Plain(e[lang])
      else if Localization.HasEntry(e, Localization.English) then Plain(e[Localization.English])
      else v
  }

  /** Resolving an already resolved value changes nothing. */
  lemma ResolveIdempotent(v: TextValue, lang: string)
    ensures ResolveText(ResolveText(v, lang), lang) == ResolveText(v, lang)
  {
  }

  /**
   * Where the object has a non-empty `en` entry, the hook's resolver and the
   * pages' `textObj[lang] || textObj.en` lookup agree.
   */
  lemma ResolveAgreesWithLocalize(e: map<string, string>, lang: string)
    requires Localization.HasEntry(e, Localization.English)
    ensures ResolveText(Localized(e), lang) == Plain(Localization.Localize(e, lang).value)
  {
  }

  /**
   * The pages' lookup differs only on an empty `en` entry: there it yields the
   * empty string where the hook gives back the object.
   */
  lemma ResolveDiffersOnEmptyEnglish(e: map<string, string>, lang: string)
    requires !Localization.HasEntry(e, lang) && Localization.English in e && e[Localization.English] == ""
    ensures ResolveText(Localized(e), lang) == Localized(e)
    ensures Localization.Localize(e, lang) == Some("")
  {
  }

  /** The contact block of the configuration. */
  datatype ContactDetails = ContactDetails(email: string, phone: string, location: string, experience: string)

  /** The configured social networks; an absent network is `None`, present ones carry their `url`. */
  datatype Social = Social(github: Option<string>, linkedin: Option<string>, twitter: Option<string>)

  datatype Personal = Personal(name: string, title: TextValue, avatar: string, description: TextValue, contact: ContactDetails)

  datatype Experience = Experience(title: TextValue, company: TextValue, period: TextValue, description: TextValue)

  datatype Education = Education(degree: TextValue, school: TextValue, period: TextValue, description: TextValue)

  /** The weekday opening hours the contact page lists. */
  datatype WorkingHours = WorkingHours(monday: string, tuesday: string, wednesday: string, thursday: string, friday: string)

  /** The raw configuration: its top-level keys, each possibly absent from an update. */
  datatype RawInfo = RawInfo(
    personal: Personal,
    social: Social,
    experience: seq<Experience>,
    education: seq<Education>,
    resume: string,
    workingHours: Option<WorkingHours>)

  /** An `updates` object: the top-level keys it sets. */
  datatype Update = Update(
    personal: Option<Personal>,
    social: Option<Social>,
    experience: Option<seq<Experience>>,
    education: Option<seq<Education>>,
    resume: Option<string>,
    workingHours: Option<Option<WorkingHours>>)

  const NoUpdate := Update(None, None, None, None, None, None)

  /** `{ ...prev, ...updates }`: every key set in `updates` overrides, every other key stays. */
  function Merge(prev: RawInfo, u: Update): (r: RawInfo)
    ensures u.personal.Some? ==> r.personal == u.personal.value
    ensures u.personal.None? ==> r.personal == prev.personal
    ensures u.social.Some? ==> r.social == u.social.value
    ensures u.social.None? ==> r.social == prev.social
    ensures u.experience.Some? ==> r.experience == u.experience.value
    ensures u.experience.None? ==> r.experience == prev.experience
    ensures u.education.Some? ==> r.education == u.education.value
    ensures u.education.None? ==> r.education == prev.education
    ensures u.resume.Some? ==> r.resume == u.resume.value
    ensures u.resume.None? ==> r.resume == prev.resume
    ensures u.workingHours.Some? ==> r.workingHours == u.workingHours.value
    ensures u.workingHours.None? ==> r.workingHours == prev.workingHours
  {
    RawInfo(
      u.personal.GetOr(prev.personal),
      u.social.GetOr(prev.social),
      u.experience.GetOr(prev.experience),
      u.education.GetOr(prev.education),
      u.resume.GetOr(prev.resume),
      u.workingHours.GetOr(prev.workingHours))
  }

  /** Two updates in a row, as one object spread: the later one wins key by key. */
  function Combine(first: Update, second: Update): Update {
    Update(
      if second.personal.Some? then second.personal else first.personal,
      if second.social.Some? then second.social else first.social,
      if second.experience.Some? then second.experience else first.experience,
      if second.education.Some? then second.education else first.education,
      if second.resume.Some? then second.resume else first.resume,
      if second.workingHours.Some? then second.workingHours else first.workingHours)
  }

  /** An empty update leaves the information as it was. */
  lemma MergeNothing(prev: RawInfo)
    ensures Merge(prev, NoUpdate) == prev
  {
  }

  /** Applying the same update twice is the same as applying it once. */
  lemma MergeIdempotent(prev: RawInfo, u: Update)
    ensures Merge(Merge(prev, u), u) == Merge(prev, u)
  {
  }

  /** Two successive updates equal one update holding both, the later winning. */
  lemma MergeCompose(prev: RawInfo, first: Update, second: Update)
    ensures Merge(Merge(prev, first), second) == Merge(prev, Combine(first, second))
  {
  }

  /** A job entry with every text resolved. */
  datatype ExperienceView = ExperienceView(title: TextValue, company: TextValue, period: TextValue, description: TextValue)

  datatype EducationView = EducationView(degree: TextValue, school: TextValue, period: TextValue, description: TextValue)

  function ViewExperience(e: Experience, lang: string): ExperienceView {
    ExperienceView(ResolveText(e.title, lang), ResolveText(e.company, lang), ResolveText(e.period, lang), ResolveText(e.description, lang))
  }

  function ViewEducation(e: Education, lang: string): EducationView {
    EducationView(ResolveText(e.degree, lang), ResolveText(e.school, lang), ResolveText(e.period, lang), ResolveText(e.description, lang))
  }

  /** `experience.map(...)`: one resolved entry per job, in the same order. */
  function LocalizeExperience(xs: seq<Experience>, lang: string): (r: seq<ExperienceView>)
    ensures |r| == |xs|
    ensures forall i :: 0 <= i < |xs| ==> r[i] == ViewExperience(xs[i], lang)
  {
    if xs == [] then [] else [ViewExperience(xs[0], lang)] + LocalizeExperience(xs[1..], lang)
  }

  /** `education.map(...)`: one resolved entry per school, in the same order. */
  function LocalizeEducation(xs: seq<Education>, lang: string): (r: seq<EducationView>)
    ensures |r| == |xs|
    ensures forall i :: 0 <= i < |xs| ==> r[i] == ViewEducation(xs[i], lang)
  {
    if xs == [] then [] else [ViewEducation(xs[0], lang)] + LocalizeEducation(xs[1..], lang)
  }

  /** Localizing a list joined from two parts localizes each part in place. */
  lemma {:induction false} LocalizeExperienceAppend(xs: seq<Experience>, ys: seq<Experience>, lang: string)
    ensures LocalizeExperience(xs + ys, lang) == LocalizeExperience(xs, lang) + LocalizeExperience(ys, lang)
  {
    assert |LocalizeExperience(xs + ys, lang)| == |xs + ys|;
    forall i | 0 <= i < |xs| + |ys|
      ensures LocalizeExperience(xs + ys, lang)[i] == (LocalizeExperience(xs, lang) + LocalizeExperience(ys, lang))[i]
    {
      if i < |xs| {
        assert (xs + ys)[i] == xs[i];
      } else {
        assert (xs + ys)[i] == ys[i - |xs|];
      }
    }
  }

  /** The object the pages read as `personalInfo`. */
  datatype Formatted = Formatted(
    name: string,
    title: TextValue,
    avatar: string,
    description: TextValue,
    contact: ContactDetails,
    social: Social,
    experience: seq<ExperienceView>,
    education: seq<EducationView>,
    resume: string,
    workingHours: Option<WorkingHours>)

  /**
   * `formattedInfo` as the hook builds it. It has no `workingHours` key, so
   * the field is always absent whatever the configuration holds.
   */
  function Format(info: RawInfo, lang: string): (r: Formatted)
    ensures r.workingHours.None?
    ensures r.name == info.personal.name && r.contact == info.personal.contact && r.social == info.social
    ensures r.title == ResolveText(info.personal.title, lang) && r.description == ResolveText(info.personal.description, lang)
    ensures r.avatar == info.personal.avatar && r.resume == info.resume
    ensures |r.experience| == |info.experience| && |r.education| == |info.education|
    ensures forall i :: 0 <= i < |info.experience| ==> r.experience[i] == ViewExperience(info.experience[i], lang)
    ensures forall i :: 0 <= i < |info.education| ==> r.education[i] == ViewEducation(info.education[i], lang)
  {
    Formatted(
      info.personal.name,
      ResolveText(info.personal.title, lang),
      info.personal.avatar,
      ResolveText(info.personal.description, lang),
      info.personal.contact,
      info.social,
      LocalizeExperience(info.experience, lang),
      LocalizeEducation(info.education, lang),
      info.resume,
      None)
  }

  /** The formatted object with the configuration's `workingHours` passed through, as the contact page expects. */
  function FormatCorrected(info: RawInfo, lang: string): (r: Formatted)
    ensures r.workingHours == info.workingHours
    ensures r.(workingHours := None) == Format(info, lang)
  {
    Format(info, lang).(workingHours := info.workingHours)
  }

  /** Formatting is the identity on everything but resolution: a fully plain configuration keeps its texts. */
  lemma FormatKeepsPlainTexts(info: RawInfo, lang: string)
    requires info.personal.title.Plain? && info.personal.description.Plain?
    ensures Format(info, lang).title == info.personal.title
    ensures Format(info, lang).description == info.personal.description
  {
  }
}
