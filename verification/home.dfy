/** The home page's text lookup: translation, then a built-in English default, then the key. */
module Home {
  import opened Localization

  /** The built-in English texts used when a key has no translation. */
  const DefaultTexts: map<string, string> := map[
    "home.welcome" := "Welcome to My Portfolio",
    "home.skills.fullstack" := "Full Stack Development",
    "home.skills.fullstack.desc" := "End-to-end web development with modern technologies",
    "home.skills.design" := "UI/UX Design",
    "home.skills.design.desc" := "Creating beautiful and intuitive user experiences",
    "home.skills.performance" := "Performance Optimization",
    "home.skills.performance.desc" := "Building fast and efficient web applications",
    "home.cta.title" := "Let's Work Together",
    "home.cta.subtitle" := "Ready to bring your ideas to life? Let's discuss your next project.",
    "home.cta.contact" := "Get in Touch",
    "home.cta.projects" := "View My Work",
    "home.whatIDo" := "What I Do",
    "home.whatIDoDesc" := "I specialize in creating comprehensive digital solutions that combine functionality with exceptional user experience.",
    "home.downloadResume" := "Download Resume"
  ]

  /** `defaultTexts[key]` is truthy. */
  predicate HasDefault(key: string) {
    key in DefaultTexts && DefaultTexts[key] != ""
  }

  /**
   * The home page's `getLocalizedText`: `t(key)` unless it came back as the
   * key itself, in which case the default text, or failing that the key.
   */
  function HomeText(table: map<string, string>, key: string): (r: string)
    ensures key in table && table[key] != key ==> r == table[key]
    ensures (key !in table || table[key] == key) && HasDefault(key) ==> r == DefaultTexts[key]
    ensures (key !in table || table[key] == key) && !HasDefault(key) ==> r == key
    ensures r == "" ==> key == "" || (key in table && table[key] == "")
  {
    var text := Translate(table, key);
    if text != key then text
    else if HasDefault(key) then DefaultTexts[key]
    else key
  }

  /** A translation that happens to equal its own key counts as no translation at all. */
  lemma TranslationEqualToKeyIsMissing(table: map<string, string>, key: string)
    requires key in table && table[key] == key
    ensures HomeText(table, key) == HomeText(table - {key}, key)
  {
  }

  /** None of the built-in texts is empty. */
  lemma DefaultsNonEmpty()
    ensures forall k :: k in DefaultTexts ==> HasDefault(k)
  {
  }

  /** Without any translations loaded, every home-page key shows its built-in text. */
  lemma DefaultsShowWithoutTranslations(key: string)
    requires key in DefaultTexts
    ensures HomeText(map[], key) == DefaultTexts[key]
  {
    DefaultsNonEmpty();
  }

  /** A key with neither a translation nor a default comes back as itself. */
  lemma UnknownKeyEchoes(table: map<string, string>, key: string)
    requires key !in table && key !in DefaultTexts
    ensures HomeText(table, key) == key
  {
  }
}
