# Portfolio showcase: a Dafny model of its behavioural core

The portfolio site is a React application. Its pages are mostly
presentation, but the following pieces of logic can be pulled out of the
components as pure functions over immutable records:

- The project list page filters the static project catalog by a
  case-insensitive search and a category, and counts the catalog per
  category.
- Bilingual texts (`{ en, zh }` objects) are resolved against the active
  language by three different fallback chains:
  - active language, then `en`, on the project pages, the card and the timeline;
  - a plain string as is, then active language, then `en`, then the object itself, in the personal-information hook;
  - translation, then a built-in English default, then the key itself, on the home page.
- A project card links to `/projects/<id>`. The detail page parses the id back with `parseInt`, finds the project, or shows a not-found view.
- The technology timeline is a carousel over `(index, autoPlaying)`:
  - next and previous wrap around;
  - the year buttons jump to an entry;
  - the arrow keys and space drive it from the keyboard;
  - the icon, level and colour lookups fall back to defaults.
- Small total mappings:
  - the About page's skill stars, their colour threshold, its legend and its social links;
  - the card component's style selectors;
  - the contact page's `tel:` and `mailto:` links and working-hours rows.

The three data modules (`projects.js`, `skills.js`, `timeline.js`) are
Dafny constants. Lemmas over them show that no fallback above ever fires on
the shipped data and that the carousel always has an entry.

Where JavaScript would throw (lower-casing an `undefined` text, reading a
field of an absent object), the model returns `Eval.Throws` instead of
excluding the input by a precondition. Absent values (`undefined`, `NaN`)
are `Option.None`.

Modules, one per file:

| module | file | models |
|---|---|---|
| `Wrappers` | wrappers.dfy | `Option`, `Eval` |
| `Text` | text.dfy | ASCII `toLowerCase`, `includes` |
| `Seqs` | seqs.dfy | the subsequence relation |
| `Decimal` | decimal.dfy | `String(n)` and `parseInt` |
| `Localization` | localization.dfy | `textObj[lang] \|\| textObj.en`, i18next `t` |
| `ProjectsData`, `SkillsData`, `TimelineData` | projects_data.dfy, skills_data.dfy, timeline_data.dfy | the data modules |
| `CatalogFilter` | catalog_filter.dfy | `src/pages/Projects.jsx` |
| `ProjectCard` | project_card.dfy | `src/components/ProjectCard.jsx` |
| `ProjectDetail` | project_detail.dfy | `src/pages/ProjectDetail.jsx` |
| `TechTimeline` | tech_timeline.dfy | `src/components/TechTimeline.jsx` |
| `About` | about.dfy | `src/pages/About.jsx` |
| `Home` | home.dfy | `src/pages/Home.jsx` |
| `Contact` | contact.dfy | `src/pages/Contact.jsx` |
| `CardStyles` | card_styles.dfy | `src/components/ui/Card.jsx` |
| `PersonalInfo` | personal_info.dfy | `src/hooks/usePersonalInfo.js` |

## Model

| member | source | states |
|---|---|---|
| Text.ToLower | src/pages/Projects.jsx:29-31 | Lower-casing keeps the length and maps each character on its own: ASCII capitals move down by 32 and every other character is unchanged. |
| Text.ToLowerIdempotent | src/pages/Projects.jsx:29-31 | Lower-casing an already lower-cased string changes nothing. |
| Localization.Localize | src/pages/Projects.jsx:22-24 | The result is the active-language entry when it is non-empty. Otherwise it is the `en` entry, whatever that holds. It is `undefined` exactly when there is neither a non-empty active entry nor an `en` key. |
| Localization.LocalizeWithEnglishIsDefined | src/pages/ProjectDetail.jsx:17-19 | A text object with an `en` key never resolves to `undefined`, and the result is one of its own entries. |
| Localization.LocalizeBilingualNonEmpty | src/components/ProjectCard.jsx:23-25 | A text object with non-empty `en` and `zh` resolves to a non-empty string in every language. For `en`/`zh` that is its own entry; for any other language without an entry it is the English text. |
| Localization.Translate | src/pages/Home.jsx:23 | i18next `t`: the table's translation when the key is present, otherwise the key itself. |
| CatalogFilter.ClearFilters | src/pages/Projects.jsx:39-42 | Clearing gives an empty search over every category, which is exactly the state the page starts in. |
| CatalogFilter.SearchMatches | src/pages/Projects.jsx:28-31 | A title that does not resolve makes the search throw. A successful match means the lower-cased term occurs in the title, the description or some tag. |
| CatalogFilter.Keep | src/pages/Projects.jsx:28-35 | The callback throws exactly when the search throws. It keeps a record exactly when the search matches and the category is `all` or equal to the record's. |
| CatalogFilter.Filter | src/pages/Projects.jsx:26-37 | The filter throws exactly when the callback throws on some record. Otherwise the result is a subsequence of the input in its original order, and a record is in it exactly when the callback keeps it. Each kept record appears as many times as in the input, and a dropped one not at all. |
| CatalogFilter.SearchMatchesSpec | src/pages/Projects.jsx:28-31 | On records whose texts resolve, the page's short-circuit search equals the reference definition: the term occurs in the title, the description or any single tag. |
| CatalogFilter.TagMatchSuffices | src/pages/Projects.jsx:28-35 | A match in one technology tag alone keeps a record of the selected category. |
| CatalogFilter.EmptySearchMatches | src/pages/Projects.jsx:29 | The empty search term matches every record whose title resolves. |
| CatalogFilter.ClearedFilterShowsAll | src/pages/Projects.jsx:11-42 | The initial state, and the state after clearing, show the whole list in its original order. |
| CatalogFilter.FilterCaseInsensitive | src/pages/Projects.jsx:29-31 | Two search terms that lower-case to the same string give the same result. |
| CatalogFilter.UnknownCategoryIsEmpty | src/pages/Projects.jsx:33 | A category other than `all` that no record carries gives an empty list, not an error. |
| CatalogFilter.FilterIdempotent | src/pages/Projects.jsx:27-35 | Filtering the result again with the same inputs returns it unchanged. |
| CatalogFilter.CategoryFilterMatchesCount | src/pages/Projects.jsx:33-65 | With an empty search, the filtered list of one category is exactly as long as that category's statistic. |
| CatalogFilter.ComputeStatistics | src/pages/Projects.jsx:44-69 | The total is the list length. Each category count is the number of records carrying that category, and so at most the total. |
| CatalogFilter.StatisticsAddUp | src/pages/Projects.jsx:44-69 | When every record carries one of the three categories, the three counts sum to the total. |
| CatalogFilter.CatalogStatistics | src/pages/Projects.jsx:44-69 | On the shipped catalog the panel shows 7 projects: 4 frontend, 2 full-stack and 1 data science. |
| CatalogFilter.CatalogNeverThrows | src/pages/Projects.jsx:26-37 | Every shipped record resolves its title and description in every language, so filtering the catalog never throws. |
| CatalogFilter.VueKeepsWeatherDashboard | src/data/projects.js:85 | Searching "vue" over all categories keeps project 3 (Weather Dashboard) in either language, through its `Vue.js` tag. |
| ProjectsData.CountCategory | src/pages/Projects.jsx:53-65 | The count is at most the list length. It is 0 exactly when no record has the category, and equals the length exactly when all do. |
| ProjectsData.CategoryCountsPartition | src/pages/Projects.jsx:44-69 | When every category is one of the three, the three counts add up to the list length. |
| ProjectsData.CatalogIds | src/data/projects.js:41-154 | The catalog has 7 records with ids 1 to 7 in order: strictly ascending and unique. |
| ProjectsData.CatalogBilingual | src/data/projects.js:44-147 | Every title and description has non-empty `en` and `zh` entries. |
| ProjectsData.CatalogShape | src/data/projects.js:53-152 | Every technologies list is non-empty, and every category is one of `frontend`, `fullstack`, `dataScience`. |
| ProjectsData.CatalogLinks | src/data/projects.js:54-71 | Project 1 has neither link; every other project has both. Every link present is a non-empty string. |
| ProjectsData.CatalogCategoryCounts | src/data/projects.js:56-152 | The catalog holds 4 frontend, 2 full-stack and 1 data-science project. |
| ProjectCard.DetailPath | src/components/ProjectCard.jsx:51-95 | The link starts with `/projects/`. For a non-negative id the rest is the id's shortest decimal text. |
| ProjectCard.Tags | src/components/ProjectCard.jsx:81-88 | There is one tag per technology, in list order, carrying the technology's text and its position as key. |
| ProjectCard.TagKeysDistinct | src/components/ProjectCard.jsx:83 | The tag keys are pairwise distinct. |
| ProjectCard.RenderCard | src/components/ProjectCard.jsx:23-112 | The card's texts are localized with the `en` fallback, its category is the record's, and its tags are exactly `Tags` of the technologies: one per technology, in order. The live link appears exactly when `liveUrl` is truthy, and the GitHub link exactly when `githubUrl` is. |
| ProjectCard.CatalogCardLinks | src/components/ProjectCard.jsx:101-112 | Every shipped card shows both links, except project 1's, which shows neither. |
| Decimal.NatToDecimal | src/components/ProjectCard.jsx:51 | `${n}` is a non-empty string of digits, with a leading zero only for zero itself. |
| Decimal.LeadingDigits | src/pages/ProjectDetail.jsx:15 | The result is the longest prefix made of decimal digits. |
| Decimal.ParseInt | src/pages/ProjectDetail.jsx:15 | `parseInt` is `NaN` exactly when the text does not start with a digit; otherwise the value is non-negative. |
| Decimal.ParseDecimalRoundTrip | src/pages/ProjectDetail.jsx:15 | Parsing the decimal text of `n` gives back `n`. |
| Decimal.ParseIgnoresTrailingText | src/pages/ProjectDetail.jsx:15 | Text after the digits that does not start with a digit is ignored, so `"3abc"` parses as 3. |
| ProjectDetail.FindById | src/pages/ProjectDetail.jsx:15 | A found record is in the list, carries the requested id and has no earlier record with that id. `NaN`, or an id no record carries, finds nothing. |
| ProjectDetail.FoundIsUnique | src/pages/ProjectDetail.jsx:15 | With unique ids, the found record is the only one with the requested id. |
| ProjectDetail.PageFor | src/pages/ProjectDetail.jsx:15-41 | The page shows a catalog record whose id is the parsed parameter. It shows the not-found view exactly when the lookup finds nothing. |
| ProjectDetail.NonNumericIdNotFound | src/pages/ProjectDetail.jsx:15-41 | A parameter that does not start with a digit parses to `NaN` and shows the not-found view. |
| ProjectDetail.RouteParam | src/components/ProjectCard.jsx:51 | A recovered parameter, put back behind `/projects/`, rebuilds the path. |
| ProjectDetail.DetailLinkRoundTrip | src/components/ProjectCard.jsx:51 | Following a card's link to the detail page shows the same project, when ids are unique and non-negative. |
| ProjectDetail.CatalogRoutesRoundTrip | src/pages/ProjectDetail.jsx:15 | Every shipped project is reached from its own card's link. |
| ProjectDetail.TrailingTextStillFound | src/pages/ProjectDetail.jsx:15 | An id followed by non-digit text still opens that project. |
| ProjectDetail.Content | src/pages/ProjectDetail.jsx:17-280 | The detail view shows localized texts with the `en` fallback. The live-demo and source buttons appear exactly when the respective URL is truthy. The tech label is singular exactly when there is one technology. The placeholder image is used exactly when the error flag is set. |
| ProjectDetail.ImageStep | src/pages/ProjectDetail.jsx:25-27 | A load failure sets the flag, and nothing clears a set flag. |
| ProjectDetail.ImageFlagMonotone | src/pages/ProjectDetail.jsx:13-27 | After any run of image events, the flag is set exactly when it started set or some load failed. |
| ProjectDetail.PlaceholderIffFailure | src/pages/ProjectDetail.jsx:13-156 | Starting from `false`, the placeholder is shown exactly when some load failed. |
| TechTimeline.NextIndex | src/components/TechTimeline.jsx:63-67 | For `n >= 1` an in-range index stays in range and advances to `(i + 1) mod n`. |
| TechTimeline.PrevIndex | src/components/TechTimeline.jsx:69-73 | For `n >= 1` an in-range index stays in range and moves to `(i - 1) mod n`. |
| TechTimeline.NextPrevInverse | src/components/TechTimeline.jsx:63-73 | Previous undoes next, and next undoes previous, on every in-range index. |
| TechTimeline.NextTimesAdd | src/components/TechTimeline.jsx:63-67 | Pressing next `a + b` times is pressing it `a` times and then `b` times. |
| TechTimeline.NextTimesAdvance | src/components/TechTimeline.jsx:63-67 | Below the last entry, `k` presses of next advance the index by `k`. |
| TechTimeline.NextCycle | src/components/TechTimeline.jsx:63-67 | Pressing next `n` times returns to the starting entry. |
| TechTimeline.GoNext | src/components/TechTimeline.jsx:63-67 | Next keeps the autoplay flag and moves an in-range index to `(i + 1) mod n`: one entry forward, from the last entry back to the first. |
| TechTimeline.GoPrev | src/components/TechTimeline.jsx:69-73 | Previous keeps the autoplay flag and moves an in-range index to `(i - 1) mod n`: one entry back, from the first entry to the last. |
| TechTimeline.GoTo | src/components/TechTimeline.jsx:75-77 | A jump sets the index exactly and keeps the autoplay flag. |
| TechTimeline.YearButtons | src/components/TechTimeline.jsx:161-172 | One button per entry in order, labelled with its year. Its click jumps to its own position, and exactly the button at the current index is highlighted. |
| TechTimeline.YearButtonsStayInRange | src/components/TechTimeline.jsx:161-164 | For any timeline, every button's jump lands inside the timeline, and after the jump the clicked button is the highlighted one. Only the last of two jumps counts. |
| TechTimeline.ShippedYearButtonsStayInRange | src/components/TechTimeline.jsx:161-164 | On the shipped timeline every year button's jump lands inside the five entries. |
| TechTimeline.ToggleAutoplay | src/components/TechTimeline.jsx:100-120 | The toggle flips autoplay and keeps the index. |
| TechTimeline.ToggleTwice | src/components/TechTimeline.jsx:100-120 | Toggling autoplay twice restores the state. |
| TechTimeline.AutoplayTick | src/components/TechTimeline.jsx:80-87 | An interval tick advances like next while autoplay is on, and changes nothing otherwise. |
| TechTimeline.HandleKey | src/components/TechTimeline.jsx:90-102 | ArrowLeft is previous and ArrowRight is next. Space flips autoplay without moving the index. Any other key, or disabled keyboard navigation, changes nothing. |
| TechTimeline.HandleKeyKeepsRange | src/components/TechTimeline.jsx:90-102 | No key press moves an in-range index out of range. |
| TechTimeline.ArrowKeysInverse | src/components/TechTimeline.jsx:94-97 | ArrowRight then ArrowLeft, or the reverse, returns to the same state. |
| TechTimeline.GetIcon | src/components/TechTimeline.jsx:41-55 | The result is always an icon of `iconMap`. A known name maps to itself; an unknown one falls back to `Code`. |
| TechTimeline.CategoryColor | src/components/TechTimeline.jsx:232 | The result is always a configured colour. A known category gets its own, an unknown one the `tools` colour. |
| TechTimeline.EntryCount | src/data/timeline.js:18-87 | The carousel steps through five entries, so `n >= 1`. |
| TechTimeline.TimelineLookupsNeverFallBack | src/data/timeline.js:24-82 | Every shipped badge has an icon in `iconMap`, a configured level and a coloured category, so no fallback fires. |
| TechTimeline.TimelineBinding | src/components/TechTimeline.jsx:4 | The timeline data is bound exactly when every import links, and is then the five-entry timeline. |
| TechTimeline.ImportAsWrittenUnresolved | src/components/TechTimeline.jsx:4 | None of the three imported names is exported by the projects module, so the import as written does not bind the timeline. |
| TechTimeline.ImportCorrectedResolves | src/data/timeline.js:18-94 | Importing from the timeline and skills modules binds the five-entry timeline. |
| SkillsData.GetSkillLevel | src/pages/About.jsx:79-81 | A configured level gives its own configuration and any other name gives `beginner`'s. The star count is always between 2 and 5. |
| SkillsData.StarsIncrease | src/data/skills.js:18-55 | The four levels have 2, 3, 4 and 5 stars, strictly increasing from beginner to expert. |
| SkillsData.StarsInRange | src/data/skills.js:20-47 | Every star count lies in [2, 5], so the legend's `5 - stars` is never negative. |
| SkillsData.SkillLevelsKnown | src/data/skills.js:57-97 | Every level named in the skill list is configured, so the beginner fallback never fires on it. |
| SkillsData.SkillsBilingual | src/data/skills.js:21-88 | Every level text, level description and category name has non-empty `en` and `zh` entries. |
| SkillsData.SkillsShape | src/data/skills.js:57-97 | There are three categories of exactly five skills each. |
| TimelineData.TimelineYears | src/data/timeline.js:18-87 | There are five entries for 2020 to 2024, in strictly increasing order. |
| TimelineData.TimelineMilestones | src/data/timeline.js:29-84 | Exactly the 2020, 2022 and 2024 entries are milestones. |
| TimelineData.TimelineBilingual | src/data/timeline.js:21-76 | Every title and description has non-empty `en` and `zh` entries. |
| TimelineData.TimelineCategoriesColored | src/data/timeline.js:24-102 | Every technology category has a colour in `techCategoryColors`, which includes `tools`. |
| About.SimplifiedColor | src/pages/About.jsx:89-91 | The colour is orange exactly when there are at least 4 stars, and blue exactly when there are fewer. |
| About.RenderStars | src/pages/About.jsx:104-116 | Exactly five stars. Star `i` (from 1) is filled in the level's simplified colour exactly when `i` is at most the level's star count; the others are grey. The row is the same value the legend comparison uses. |
| About.LegendRow | src/pages/About.jsx:235-240 | A legend row's stars are filled exactly at positions below the star count, in the simplified colour. For counts in [0, 5] it has five stars. |
| About.LegendAddsUpToFive | src/pages/About.jsx:235-240 | For any star count in [0, 5], the filled stars number `stars` and the grey ones `5 - stars`. |
| About.LegendMatchesSkillRow | src/pages/About.jsx:104-240 | For every configured level, the legend row is the same row `renderStars` draws. |
| About.SkillRowFilledCount | src/pages/About.jsx:109-113 | A skill's row has exactly as many filled stars as its level's star count. |
| About.SocialLinks | src/pages/About.jsx:60-76 | Every configured network appears with its URL, and nothing else appears. The links come in the order GitHub, LinkedIn, Twitter. |
| Home.HomeText | src/pages/Home.jsx:22-45 | A translation that differs from its key is returned. A missing one gives the non-empty built-in default, and failing that the key. The result is empty only for an empty key or an empty translation. |
| Home.TranslationEqualToKeyIsMissing | src/pages/Home.jsx:24 | A translation equal to its own key behaves exactly as if it were absent. |
| Home.DefaultsNonEmpty | src/pages/Home.jsx:26-40 | None of the built-in default texts is empty. |
| Home.DefaultsShowWithoutTranslations | src/pages/Home.jsx:24-42 | With no translations loaded, every built-in key shows its default text. |
| Home.UnknownKeyEchoes | src/pages/Home.jsx:42 | A key with neither a translation nor a default comes back as itself, never `undefined`. |
| Contact.StripNonDigits | src/pages/Contact.jsx:39 | The result contains only ASCII digits. It is a subsequence of the input, so digits stay in their original order, and every digit occurs exactly as often as in the input. |
| Contact.StripDigitsOnly | src/pages/Contact.jsx:39 | A digits-only string is unchanged. |
| Contact.StripIdempotent | src/pages/Contact.jsx:39 | Stripping twice is stripping once. |
| Contact.StripAppend | src/pages/Contact.jsx:39 | Stripping a concatenation strips each part. |
| Contact.StripShortens | src/pages/Contact.jsx:39 | The stripped phone is never longer than the phone as written. |
| Contact.TelHref | src/pages/Contact.jsx:39 | The phone link is `tel:` followed by the phone with every non-digit removed. The tail is all digits and a subsequence of the phone, and every digit is kept. |
| Contact.TelHrefIgnoresPunctuation | src/pages/Contact.jsx:39 | Phones that differ only in non-digit characters get the same link. |
| Contact.TelHrefOfDigits | src/pages/Contact.jsx:39 | A phone written as bare digits is dialled as written. |
| Contact.MailtoHref | src/pages/Contact.jsx:33 | The e-mail link starts with `mailto:` and is exactly that much longer than the address. |
| Contact.MailtoAddress | src/pages/Contact.jsx:33 | An address is recovered exactly from links with the `mailto:` scheme, and putting the scheme back rebuilds the link. |
| Contact.MailtoRoundTrip | src/pages/Contact.jsx:33 | The e-mail link opens exactly the configured address. |
| Contact.ContactItems | src/pages/Contact.jsx:28-47 | Three cards, e-mail, phone and location in that order, showing the configured values. The e-mail link opens the address. The phone link is the `tel:` link: `tel:` followed by the phone's digits. The location links to the maps site. |
| Contact.SocialHrefs | src/pages/Contact.jsx:49-53 | The contact page's social links throw exactly when some network is unconfigured. Otherwise there are three of them. |
| Contact.SocialHrefsMatchAbout | src/pages/Contact.jsx:49-53 | With every network configured, the contact page lists the same links, in the same order, as the About page. |
| Contact.WorkingHoursRows | src/pages/Contact.jsx:55-62 | The rows throw exactly when `workingHours` is absent. Otherwise there are six rows: Monday to Friday with the configured hours, then the weekend with the translated "flexible" label. |
| Contact.WorkingHoursAsWrittenThrows | src/pages/Contact.jsx:56-60 | Reading the hours from the hook's formatted object throws for every configuration. |
| Contact.WorkingHoursCorrectedRenders | src/pages/Contact.jsx:55-62 | With the hours passed through, a configuration that sets them renders six rows, Monday's hours first. |
| CardStyles.VariantStyles | src/components/ui/Card.jsx:4-17 | A named variant gets its class string; any other value gets the default branch. |
| CardStyles.ShadowStyles | src/components/ui/Card.jsx:20-35 | A named shadow gets its class string; any other value gets the `md` string. |
| CardStyles.HoverStyles | src/components/ui/Card.jsx:38-51 | A named hover gets its class string; any other value gets the `lift` string. |
| CardStyles.PaddingStyles | src/components/ui/Card.jsx:54-69 | A named padding gets its class string; any other value gets `p-6`. |
| CardStyles.DefaultsEqualNamedCases | src/components/ui/Card.jsx:27-67 | An unrecognised shadow, hover or padding value renders exactly like `md`, `lift` and `md` respectively. |
| CardStyles.NoneCases | src/components/ui/Card.jsx:22-57 | `'none'` gives `shadow-none` for the shadow and the empty string for hover and padding. |
| CardStyles.ClassParts | src/components/ui/Card.jsx:71-87 | The class list has six parts: base, variant, shadow, hover, padding, then the caller's class. Undefined props take the defaults `default`, `md`, `lift`, `md` and `""`. |
| CardStyles.JoinWithSpaces | src/components/ui/Card.jsx:87 | Each part sits at its offset in the joined string, a single space follows every part but the last, and the last part ends the string. The length is the parts' lengths plus one per gap. |
| CardStyles.ClassName | src/components/ui/Card.jsx:87 | The rendered class name starts with the base classes. |
| CardStyles.ClassNameTemplate | src/components/ui/Card.jsx:71-87 | For any props the class name is the template literal: base classes, then the variant, shadow, hover and padding classes of the prop or its default, then the caller's class, each separated by one space. |
| CardStyles.ExplicitDefaultsAreDefaults | src/components/ui/Card.jsx:71-76 | Passing the default values explicitly renders the same classes as passing nothing. |
| CardStyles.PlainCard | src/components/ui/Card.jsx:71-87 | A card with no props uses the base, default-variant, `md` shadow, `lift` hover and `md` padding classes. |
| CardStyles.PlainCardClassName | src/components/ui/Card.jsx:87 | With no props the class name is the base, default-variant, `md` shadow, `lift` hover and `md` padding classes, space-separated. The empty caller class leaves a trailing space. |
| PersonalInfo.ResolveText | src/hooks/usePersonalInfo.js:14-19 | A plain string is returned unchanged. Otherwise the result is the non-empty active-language entry, else the non-empty `en` entry, else the object itself. |
| PersonalInfo.ResolveIdempotent | src/hooks/usePersonalInfo.js:14-19 | Resolving an already resolved value changes nothing. |
| PersonalInfo.ResolveAgreesWithLocalize | src/hooks/usePersonalInfo.js:18 | When `en` is non-empty, the hook's resolver and the pages' active-then-`en` lookup agree. |
| PersonalInfo.ResolveDiffersOnEmptyEnglish | src/hooks/usePersonalInfo.js:18 | With no active entry and an empty `en`, the hook returns the object while the pages' lookup returns the empty string. |
| PersonalInfo.Merge | src/hooks/usePersonalInfo.js:22-27 | Every top-level key present in the update is overwritten with the update's value, and every other key keeps its previous value. |
| PersonalInfo.MergeNothing | src/hooks/usePersonalInfo.js:22-27 | An empty update leaves the information unchanged. |
| PersonalInfo.MergeIdempotent | src/hooks/usePersonalInfo.js:22-27 | Applying the same update twice is the same as applying it once. |
| PersonalInfo.MergeCompose | src/hooks/usePersonalInfo.js:22-27 | Two successive updates equal one update holding both, the later winning key by key. |
| PersonalInfo.LocalizeExperience | src/hooks/usePersonalInfo.js:44-49 | One resolved entry per job, same length and same order, each field resolved. |
| PersonalInfo.LocalizeEducation | src/hooks/usePersonalInfo.js:52-57 | One resolved entry per school, same length and same order, each field resolved. |
| PersonalInfo.LocalizeExperienceAppend | src/hooks/usePersonalInfo.js:44-49 | Localizing a joined list localizes each part in place. |
| PersonalInfo.Format | src/hooks/usePersonalInfo.js:30-61 | The formatted object resolves title and description, passes name, avatar, contact, social and resume through, and never carries `workingHours`. Each experience and education entry is the resolved view of the entry at the same position. |
| PersonalInfo.FormatCorrected | src/hooks/usePersonalInfo.js:30-61 | The corrected object carries the configuration's `workingHours` and otherwise agrees with the formatted object. |
| PersonalInfo.FormatKeepsPlainTexts | src/hooks/usePersonalInfo.js:33-35 | A configuration whose title and description are plain strings shows them unchanged. |

## Left out

- JSX rendering, framer-motion animation and Tailwind classes used only for styling are presentation, not behaviour. Card.jsx's class strings are the exception: they are its whole output.
- The autoplay `setInterval`/`clearInterval` timing and the `keydown` listener registration (src/components/TechTimeline.jsx:80-106) are left out. `AutoplayTick` and `HandleKey` model the step each timer tick or key press performs.
- The SVG placeholder builders that call the browser's `btoa` (src/components/ProjectCard.jsx:8-18, src/pages/ProjectDetail.jsx:29-39, src/data/projects.js:29-39) are foreign calls. An image is kept symbolic: `Placeholder(caption, color)`, or `TitlePlaceholder(title)` on the detail page. `btoa` rejects characters outside Latin-1, so the detail page's placeholder for a `zh` title would throw; that is not modelled. The card's `onError` handler, which only swaps the image source, is left out for the same reason.
- react-i18next `t` is a map parameter: a present key gives its translation, a missing key the key itself. Interpolation, plurals and `changeLanguage` are not modelled.
- react-router's `useParams`/`navigate` are not modelled: the route parameter is an input string. The detail page's `t('projects.categories.' + category)` label is a plain lookup and is not modelled.
- `src/config/personal-info.json` is not part of this model. `PersonalInfo.RawInfo` is a typed record of the top-level keys the hook and the pages read.
- PersonalInfo.Merge: only the six known top-level keys are modelled. Extra keys in an update, which the spread would also copy, are not represented.
- PersonalInfo.ResolveText: a missing text value (`undefined`), which the hook would throw on, is not representable. The configuration's shape is not known here.
- Lower-casing is ASCII only: Chinese and other non-ASCII characters pass through unchanged, as they do under `toLowerCase`. Non-ASCII capitals (e.g. accented Latin letters) are not lowered, unlike the real method.
- `parseInt` is modelled as "leading ASCII decimal digits, else `NaN`". Leading whitespace, signs and radix prefixes are not. Ids of 10^21 and above, which `String` prints in exponent form, are not modelled.
- ParseInt: returns the exact integer of the leading digits, while JavaScript's `parseInt` returns an IEEE-754 double. Digit runs above 2^53 round there: `"9007199254740993"` gives 9007199254740992. Project ids (`Project.id`) are likewise unbounded integers rather than doubles. So `FindById`, `PageFor`, `DetailLinkRoundTrip` and `TrailingTextStillFound` agree with the page only for ids and parameters up to 2^53. A route parameter above that may find a different record in the page than in the model. The shipped ids are 1 to 7, far below the limit. Floating point is not modelled.
- Lookups like `skillLevels[level]` and `iconMap[name]` treat inherited prototype keys (`"constructor"`, `"toString"`) as unknown. In JavaScript those yield truthy functions and skip the fallback.
- CatalogFilter.VueKeepsWeatherDashboard: proves that searching "vue" keeps project 3 in either language, not that the other six projects are dropped. Deciding that "vue" occurs nowhere in the other projects' long literal descriptions exceeds the verifier's resource budget.
- The contact page's static `skills` and `services` lists, and the home page's static `skills` cards, hold no logic.
- Navbar, Footer, ImageViewer, TechTimelineExample, Resume and the Button/Input/Select/Switch/Textarea wrappers are layout, DOM measurement or third-party UI glue.
- The resume download and preview (`document.createElement('a').click()`, `window.open`) are browser side effects.

## Findings

| source | as written | input that shows it | evidently intended | confidence | as-written member | corrected member |
|---|---|---|---|---|---|---|
| src/components/TechTimeline.jsx:4 | imports `techTimelineData`, `techCategoryColors` and `skillLevels` from `../data/projects`, which exports only `projects` (src/data/projects.js:41) | any render of the timeline: the named imports do not resolve. Under ES modules the About page's timeline module fails to link, so none of its code runs. A lenient bundler binds `undefined`, and the first render throws at line 161 on `techTimelineData.map` | import the first two from `../data/timeline` (src/data/timeline.js:18,94) and `skillLevels` from `../data/skills` (src/data/skills.js:18) | not executed; high | TechTimeline.ImportAsWrittenUnresolved | TechTimeline.ImportCorrectedResolves |
| src/pages/Contact.jsx:56-60 | reads `personalInfo.workingHours.monday` … `.friday`, but the hook's formatted object (src/hooks/usePersonalInfo.js:30-61) has no `workingHours` key | any configuration, including one that sets `workingHours`: the first row reads a field of `undefined` and throws | the hook passes `workingHours` through, like `resume` | not executed; high | Contact.WorkingHoursAsWrittenThrows | Contact.WorkingHoursCorrectedRenders |
