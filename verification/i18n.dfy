/**
 * Translation lookup of lib/i18n.ts: the table of supported languages, the
 * per-language string files and the fallback chains of `t`, `getItemLabel`
 * and `getCategoryName`. The contents of the JSON string files are not part
 * of this model; the functions take them as a parameter.
 */
module I18n {
  import opened Types

  datatype LanguageMeta = LanguageMeta(
    code: LanguageCode,
    name: string,
    nativeName: string,
    rtl: bool,
    ttsCode: string,
    isFree: bool)

  const SupportedLanguages: seq<LanguageMeta> := [
    LanguageMeta("en", "English", "English", false, "en-US", true),
    LanguageMeta("es", "Spanish", "Espanol", false, "es-ES", false),
    LanguageMeta("zh", "Mandarin Chinese", "\U{4E2D}\U{6587}", false, "zh-CN", false),
    LanguageMeta("hi", "Hindi", "\U{0939}\U{093F}\U{0928}\U{094D}\U{0926}\U{0940}", false, "hi-IN", false),
    LanguageMeta("ar", "Arabic", "\U{0627}\U{0644}\U{0639}\U{0631}\U{0628}\U{064A}\U{0629}", true, "ar-SA", false),
    LanguageMeta("fr", "French", "Francais", false, "fr-FR", false),
    LanguageMeta("pt", "Portuguese", "Portugues", false, "pt-BR", false),
    LanguageMeta("bn", "Bengali", "\U{09AC}\U{09BE}\U{0982}\U{09B2}\U{09BE}", false, "bn-IN", false),
    LanguageMeta("ru", "Russian", "\U{0420}\U{0443}\U{0441}\U{0441}\U{043A}\U{0438}\U{0439}", false, "ru-RU", false),
    LanguageMeta("ja", "Japanese", "\U{65E5}\U{672C}\U{8A9E}", false, "ja-JP", false),
    LanguageMeta("de", "German", "Deutsch", false, "de-DE", false),
    LanguageMeta("ko", "Korean", "\U{D55C}\U{AD6D}\U{C5B4}", false, "ko-KR", false),
    LanguageMeta("it", "Italian", "Italiano", false, "it-IT", false),
    LanguageMeta("tr", "Turkish", "Turkce", false, "tr-TR", false),
    LanguageMeta("vi", "Vietnamese", "Tieng Viet", false, "vi-VN", false)
  ]

  /** The table holds fifteen distinct codes, English first and the only free one. */
  lemma SupportedLanguagesFacts()
    ensures |SupportedLanguages| == 15 && SupportedLanguages[0].code == "en"
    ensures forall i, j :: 0 <= i < j < |SupportedLanguages| ==>
      SupportedLanguages[i].code != SupportedLanguages[j].code
    ensures forall i :: 0 <= i < |SupportedLanguages| ==>
      (SupportedLanguages[i].isFree <==> SupportedLanguages[i].code == "en")
  {
  }

  /** `langs.find(l => l.code === code)`. */
  function FindLanguageIn(langs: seq<LanguageMeta>, code: LanguageCode): (r: Option<LanguageMeta>)
    ensures r.Some? ==> exists i :: 0 <= i < |langs| && langs[i] == r.value
    ensures r.Some? ==> r.value.code == code
    ensures r.None? <==> forall i :: 0 <= i < |langs| ==> langs[i].code != code
  {
    if langs == [] then None
    else if langs[0].code == code then Some(langs[0])
    else
      FindLanguageIn(langs[1..], code)
  }

  function FindLanguage(code: LanguageCode): (r: Option<LanguageMeta>)
    ensures r.Some? ==> r.value in SupportedLanguages && r.value.code == code
    ensures r.None? <==> forall i :: 0 <= i < |SupportedLanguages| ==> SupportedLanguages[i].code != code
  {
    FindLanguageIn(SupportedLanguages, code)
  }

  /** `getLanguageMeta`: the entry for `code`, or English when there is none. */
  function GetLanguageMeta(code: LanguageCode): (m: LanguageMeta)
    ensures m in SupportedLanguages
    ensures (exists i :: 0 <= i < |SupportedLanguages| && SupportedLanguages[i].code == code) ==> m.code == code
    ensures (forall i :: 0 <= i < |SupportedLanguages| ==> SupportedLanguages[i].code != code) ==>
      m == SupportedLanguages[0] && m.code == "en"
  {
    match FindLanguage(code)
    case Some(l) => l
    case None => SupportedLanguages[0]
  }

  /** The contents of one language's JSON file; `meta` is its table entry. */
  datatype LanguageStrings = LanguageStrings(
    meta: LanguageMeta,
    ui: map<string, string>,
    categories: map<string, string>,
    items: map<string, string>)

  /** The bundled string files by code; the English file is always bundled. */
  type LanguageFiles = files: map<LanguageCode, LanguageStrings> | "en" in files
    witness map["en" := LanguageStrings(SupportedLanguages[0], map[], map[], map[])]

  /** `getLanguageStrings`: the file for `code`, or the English one. */
  function GetLanguageStrings(files: LanguageFiles, code: LanguageCode): LanguageStrings
  {
    if code in files then files[code] else files["en"]
  }

  /** `m[k]`, undefined when absent. */
  function Lookup(m: map<string, string>, k: string): Option<string> {
    if k in m then Some(m[k]) else None
  }

  /** A string that JavaScript's `||` keeps: present and not empty. */
  predicate Truthy(o: Option<string>) {
    o.Some? && o.value != ""
  }

  /** `o || fallback`. */
  function Or(o: Option<string>, fallback: string): (r: string)
    ensures Truthy(o) ==> r == o.value
    ensures !Truthy(o) ==> r == fallback
  {
    if Truthy(o) then o.value else fallback
  }

  /** `strings[section]?.[id]` for the three string tables. */
  function SectionEntry(strings: LanguageStrings, section: string, id: string): Option<string> {
    if section == "ui" then Lookup(strings.ui, id)
    else if section == "categories" then Lookup(strings.categories, id)
    else if section == "items" then Lookup(strings.items, id)
    else None
  }

  function Count(s: string, c: char): nat {
    if s == [] then 0 else (if s[0] == c then 1 else 0) + Count(s[1..], c)
  }

  /** `s.split(sep)`: the pieces between separators, empty ones kept. */
  function Split(s: string, sep: char): (parts: seq<string>)
    ensures |parts| == Count(s, sep) + 1
    ensures forall k :: 0 <= k < |parts| ==> sep !in parts[k]
  {
    if s == [] then [""]
    else
      var rest := Split(s[1..], sep);
      if s[0] == sep then [""] + rest
      else [[s[0]] + rest[0]] + rest[1..]
  }

  /** `parts.join(sep)`. */
  function Join(parts: seq<string>, sep: char): string
    requires |parts| >= 1
  {
    if |parts| == 1 then parts[0] else parts[0] + [sep] + Join(parts[1..], sep)
  }

  /** Splitting loses nothing: joining the pieces gives the key back. */
  lemma {:induction false} SplitThenJoin(s: string, sep: char)
    ensures Join(Split(s, sep), sep) == s
  {
    if s != [] {
      var rest := Split(s[1..], sep);
      SplitThenJoin(s[1..], sep);
      if s[0] == sep {
        assert Split(s, sep)[1..] == rest;
      } else if |rest| == 1 {
        assert Join(Split(s, sep), sep) == [s[0]] + rest[0];
      } else {
        var parts := Split(s, sep);
        assert parts[1..] == rest[1..];
        assert Join(rest, sep) == rest[0] + [sep] + Join(rest[1..], sep);
        assert s == [s[0]] + s[1..];
      }
    }
  }

  /**
   * `t(strings, key)`. A key with exactly one dot names a table and an
   * entry; any other key is looked up whole in `ui`. Each lookup tries the
   * current language, then English, then gives back the key itself.
   */
  function T(files: LanguageFiles, strings: LanguageStrings, key: string): (r: string)
    ensures key != "" ==> r != ""
    ensures Count(key, '.') == 1 ==>
      var parts := Split(key, '.');
      var mine := SectionEntry(strings, parts[0], parts[1]);
      var english := SectionEntry(files["en"], parts[0], parts[1]);
      && (Truthy(mine) ==> r == mine.value)
      && (!Truthy(mine) && Truthy(english) ==> r == english.value)
      && (!Truthy(mine) && !Truthy(english) ==> r == key)
    ensures Count(key, '.') != 1 ==>
      var mine := Lookup(strings.ui, key);
      var english := Lookup(files["en"].ui, key);
      && (Truthy(mine) ==> r == mine.value)
      && (!Truthy(mine) && Truthy(english) ==> r == english.value)
      && (!Truthy(mine) && !Truthy(english) ==> r == key)
  {
    var parts := Split(key, '.');
    var en := GetLanguageStrings(files, "en");
    if |parts| == 2 then
      var section, id := parts[0], parts[1];
      Or(SectionEntry(strings, section, id), Or(SectionEntry(en, section, id), key))
    else
      Or(Lookup(strings.ui, key), Or(Lookup(en.ui, key), key))
  }

  /** Under a language code with no table, every key translates exactly as in English. */
  lemma UnknownLanguageIsEnglish(files: LanguageFiles, code: LanguageCode, key: string)
    requires code !in files
    ensures T(files, GetLanguageStrings(files, code), key) == T(files, GetLanguageStrings(files, "en"), key)
  {
  }

  /** `getItemLabel`: the translated label when present and non-empty. */
  function GetItemLabel(strings: LanguageStrings, itemId: string, fallback: string): (r: string)
    ensures itemId in strings.items && strings.items[itemId] != "" ==> r == strings.items[itemId]
    ensures !(itemId in strings.items && strings.items[itemId] != "") ==> r == fallback
  {
    Or(Lookup(strings.items, itemId), fallback)
  }

  /** `getCategoryName`: the translated name when present and non-empty. */
  function GetCategoryName(strings: LanguageStrings, categoryId: string, fallback: string): (r: string)
    ensures categoryId in strings.categories && strings.categories[categoryId] != "" ==>
      r == strings.categories[categoryId]
    ensures !(categoryId in strings.categories && strings.categories[categoryId] != "") ==> r == fallback
  {
    Or(Lookup(strings.categories, categoryId), fallback)
  }
}
