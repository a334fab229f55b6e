/**
 * Bilingual text and translation lookup. A text object such as
 * `{ en: "Blog", zh: "博客" }` is a map from language code to string.
 */
module Localization {
  import opened Wrappers

  type LangText = map<string, string>

  const English := "en"
  const Chinese := "zh"

  /** The text object has a non-empty entry for `lang`, i.e. `textObj[lang]` is truthy. */
  predicate HasEntry(text: LangText, lang: string) {
    lang in text && text[lang] != ""
  }

  /** Both site languages are present and non-empty. */
  predicate Bilingual(text: LangText) {
    HasEntry(text, English) && HasEntry(text, Chinese)
  }

  /**
   * `textObj[i18n.language] || textObj.en`, the lookup the project pages,
   * the project card and the timeline each define: the active-language entry
   * when truthy, otherwise whatever `en` holds (`None` is `undefined`).
   */
  function Localize(text: LangText, lang: string): (r: Option<string>)
    ensures HasEntry(text, lang) ==> r == Some(text[lang])
    ensures !HasEntry(text, lang) && English in text ==> r == Some(text[English])
    ensures r.None? <==> !HasEntry(text, lang) && English !in text
  {
    if HasEntry(text, lang) then Some(text[lang])
    else if English in text then Some(text[English])
    else None
  }

  /** A text object with an `en` entry never localizes to `undefined`. */
  lemma LocalizeWithEnglishIsDefined(text: LangText, lang: string)
    requires English in text
    ensures Localize(text, lang).Some?
    ensures Localize(text, lang).value in text.Values
  {
  }

  /** A bilingual text object localizes to a non-empty entry of its own, in every language. */
  lemma LocalizeBilingualNonEmpty(text: LangText, lang: string)
    requires Bilingual(text)
    ensures Localize(text, lang).Some? && Localize(text, lang).value != ""
    ensures lang == English || lang == Chinese ==> Localize(text, lang) == Some(text[lang])
    ensures lang != English && lang != Chinese && !HasEntry(text, lang) ==> Localize(text, lang) == Some(text[English])
  {
  }

  /**
   * i18next's `t(key)` with a resource table: the translation when the key
   * exists, otherwise the key itself.
   */
  function Translate(table: map<string, string>, key: string): (r: string)
    ensures key in table ==> r == table[key]
    ensures key !in table ==> r == key
  {
    if key in table then table[key] else key
  }
}
