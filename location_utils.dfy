/**
 * `LocationUtils`: the display name and description of a location in the
 * user's language, falling back to English where the translation is empty.
 */
module LocationUtils {
  import opened Domain

  /** The six language codes the entity stores a translation for. */
  predicate Translated(lang: string) {
    lang == "ka" || lang == "ru" || lang == "tr" || lang == "hy" || lang == "iw" || lang == "ar"
  }

  /** `ifEmpty { fallback }`. */
  function IfEmpty(s: string, fallback: string): (r: string)
    ensures s != "" ==> r == s
    ensures s == "" ==> r == fallback
  {
    if s == "" then fallback else s
  }

  /** The translation a `when` branch reads: one of seven texts picked by the language code. */
  function Pick(lang: string, en: string, ka: string, ru: string, tr: string, hy: string, iw: string, ar: string): string {
    if lang == "ka" then IfEmpty(ka, en)
    else if lang == "ru" then IfEmpty(ru, en)
    else if lang == "tr" then IfEmpty(tr, en)
    else if lang == "hy" then IfEmpty(hy, en)
    else if lang == "iw" then IfEmpty(iw, en)
    else if lang == "ar" then IfEmpty(ar, en)
    else en
  }

  /** The name field for a translated language. */
  function NameField(e: LocationEntity, lang: string): string
    requires Translated(lang)
  {
    if lang == "ka" then e.nameKa else if lang == "ru" then e.nameRu else if lang == "tr" then e.nameTr
    else if lang == "hy" then e.nameHy else if lang == "iw" then e.nameIw else e.nameAr
  }

  /** The description field for a translated language. */
  function DescField(e: LocationEntity, lang: string): string
    requires Translated(lang)
  {
    if lang == "ka" then e.descKa else if lang == "ru" then e.descRu else if lang == "tr" then e.descTr
    else if lang == "hy" then e.descHy else if lang == "iw" then e.descIw else e.descAr
  }

  /** `getDisplayName`. */
  function DisplayName(e: LocationEntity, lang: string): (r: string)
    ensures Translated(lang) && NameField(e, lang) != "" ==> r == NameField(e, lang)
    ensures !(Translated(lang) && NameField(e, lang) != "") ==> r == e.nameEn
  {
    Pick(lang, e.nameEn, e.nameKa, e.nameRu, e.nameTr, e.nameHy, e.nameIw, e.nameAr)
  }

  /** `getDisplayDesc`. */
  function DisplayDesc(e: LocationEntity, lang: string): (r: string)
    ensures Translated(lang) && DescField(e, lang) != "" ==> r == DescField(e, lang)
    ensures !(Translated(lang) && DescField(e, lang) != "") ==> r == e.descEn
  {
    Pick(lang, e.descEn, e.descKa, e.descRu, e.descTr, e.descHy, e.descIw, e.descAr)
  }

  /** The entity with its descriptions moved into its name fields. */
  function DescsAsNames(e: LocationEntity): LocationEntity {
    e.(nameEn := e.descEn, nameKa := e.descKa, nameRu := e.descRu, nameTr := e.descTr,
       nameHy := e.descHy, nameIw := e.descIw, nameAr := e.descAr)
  }

  /** `getDisplayDesc` is `getDisplayName`'s fallback applied to the descriptions. */
  lemma DescFollowsNameRule(e: LocationEntity, lang: string)
    ensures DisplayDesc(e, lang) == DisplayName(DescsAsNames(e), lang)
  {
  }

  /** English, the empty code and every unknown code show `nameEn`. */
  lemma UntranslatedShowsEnglish(e: LocationEntity, lang: string)
    requires !Translated(lang)
    ensures DisplayName(e, lang) == e.nameEn && DisplayDesc(e, lang) == e.descEn
  {
  }

  /** The shown name is never empty while the English one is set: a fallback only replaces an empty text. */
  lemma DisplayNameNonEmpty(e: LocationEntity, lang: string)
    requires e.nameEn != ""
    ensures DisplayName(e, lang) != ""
    ensures DisplayName(e, lang) == e.nameEn || (Translated(lang) && DisplayName(e, lang) == NameField(e, lang))
  {
  }

  /** A location with no translations shows its English name in every language. */
  lemma NewLocationShowsEnglish(id: int, kind: string, region: string, latitude: real, longitude: real,
                                imageUrl: string, nameEn: string, descEn: string, lang: string)
    ensures var e := NewLocation(id, kind, region, latitude, longitude, imageUrl, nameEn, descEn);
      DisplayName(e, lang) == nameEn && DisplayDesc(e, lang) == descEn
  {
  }
}
