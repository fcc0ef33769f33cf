/**
  The two-language state of the portfolio and the two lookups every renderer
  goes through: resolving a content field against the current language
  (`getLocalizedData`, js/script.js:294-301) and looking up a fixed label in
  the built-in translation table (`translateText`, js/script.js:290-292).
*/
module Localization {
  import opened Json

  /** The value of `currentLang`: always `'fr'` or `'en'`. */
  datatype Lang = Fr | En

  function Code(lang: Lang): string {
    match lang
    case Fr => "fr"
    case En => "en"
  }

  /** The language a fresh page starts in. */
  const InitialLang: Lang := Fr

  /** The default `fallbackKey` of `getLocalizedData`. */
  const FallbackKey: string := "fr"

  /** `currentLang === 'fr' ? 'en' : 'fr'`: the toggle always moves to the other language. */
  function Toggled(lang: Lang): (r: Lang)
    ensures r != lang
    ensures Code(r) != Code(lang)
  {
    if Code(lang) == "fr" then En else Fr
  }

  /** Toggling twice restores the language. */
  lemma ToggleInvolution(lang: Lang)
    ensures Toggled(Toggled(lang)) == lang
  {
  }

  /** `toUpperCase` on the ASCII letters a language code is made of. */
  function AsciiUpper(s: string): string {
    seq(|s|, i requires 0 <= i < |s| =>
      if 'a' <= s[i] <= 'z' then (s[i] as int - 32) as char else s[i])
  }

  /** The label the two language-toggle buttons show: `currentLang.toUpperCase()`. */
  function ButtonLabel(lang: Lang): (caption: string)
    ensures caption == (if lang == Fr then "FR" else "EN")
  {
    var code := Code(lang);
    assert |code| == 2;
    AsciiUpper(code)
  }

  /**
    `getLocalizedData(data, fallbackKey)`: a falsy field gives `''`, a string or
    an array is returned as it is, and anything else is read as a language map:
    its entry for the current language if truthy, else its entry for the
    fallback key if truthy, else `''`.
  */
  function GetLocalizedData(data: Value, lang: Lang, fallbackKey: string): (r: Value)
    ensures !Nullish(r)
    ensures Truthy(r) || r == Str("")
    ensures !Truthy(data) ==> r == Str("")
    ensures data.Str? || data.Arr? ==> r == data
    ensures data.Num? || data.Bool? ==> r == Str("")
    ensures data.Obj? && Code(lang) in data.fields && Truthy(data.fields[Code(lang)]) ==>
              r == data.fields[Code(lang)]
    ensures data.Obj? && !(Code(lang) in data.fields && Truthy(data.fields[Code(lang)])) ==>
              r == (if fallbackKey in data.fields && Truthy(data.fields[fallbackKey])
                    then data.fields[fallbackKey] else Str(""))
  {
    if !Truthy(data) then Str("")
    else if data.Str? then data
    else if data.Arr? then data
    else Or(Or(Member(data, Code(lang)), Member(data, fallbackKey)), Str(""))
  }

  /** The resolver as every renderer calls it: with the default fallback key `'fr'`. */
  function Localize(data: Value, lang: Lang): Value {
    GetLocalizedData(data, lang, FallbackKey)
  }

  /**
    The fallback law: when the current language has no usable entry, the
    field resolves exactly as it does in French.
  */
  lemma FallbackLaw(data: Value, lang: Lang)
    requires !Truthy(Member(data, Code(lang)))
    ensures Localize(data, lang) == Localize(data, Fr)
  {
  }

  /**
    A field that resolves to something truthy in French does so in every
    language: the current language's entry is tried first and French second.
  */
  lemma {:induction false} FrenchTruthyImpliesTruthy(data: Value, lang: Lang)
    requires Truthy(Localize(data, Fr))
    ensures Truthy(Localize(data, lang))
  {
    if data.Obj? && lang == En {
      assert Truthy(Member(data, "fr"));
    }
  }

  /**
    The converse fails: a field with only an English entry resolves to `''` in
    French, so a renderer that skips empty text keeps the English text there.
  */
  lemma EnglishOnlyFieldIsEmptyInFrench()
    ensures Localize(Obj(map["en" := Str("Hello")]), En) == Str("Hello")
    ensures Localize(Obj(map["en" := Str("Hello")]), Fr) == Str("")
  {
  }

  /** One entry of the label table: its French and its English text. */
  datatype Label = Label(fr: string, en: string)

  /** `label[lang]`. */
  function LabelText(entry: Label, lang: Lang): string {
    match lang
    case Fr => entry.fr
    case En => entry.en
  }

  /** The built-in label table (js/script.js:18-71). */
  const Translations: map<string, Label> := map[
    "experience" := Label("Expérience Professionnelle", "Professional Experience"),
    "responsibilities" := Label("Responsabilités", "Responsibilities"),
    "results" := Label("Résultats", "Results"),
    "technologies" := Label("Technologies", "Technologies"),
    "skills" := Label("Compétences", "Skills"),
    "technicalSkills" := Label("Compétences Techniques", "Technical Skills"),
    "frameworks" := Label("Frameworks", "Frameworks"),
    "languages" := Label("Langages", "Languages"),
    "databases" := Label("Bases de données", "Databases"),
    "tools" := Label("Outils", "Tools"),
    "methodologies" := Label("Méthodologies", "Methodologies"),
    "contact" := Label("Me Contacter", "Contact Me"),
    "learnMore" := Label("En Savoir Plus", "Learn More")
  ]

  /** Every label of the table has a non-empty text in both languages. */
  predicate TableComplete(table: map<string, Label>) {
    forall key :: key in table ==> table[key].fr != "" && table[key].en != ""
  }

  lemma TranslationsComplete()
    ensures TableComplete(Translations)
  {
  }

  /**
    `translations[key]?.[currentLang] || key`: the table's text for the
    current language, or the key itself when the label or its entry is missing
    or empty.
  */
  function TranslateText(key: string, lang: Lang): (r: string)
    ensures key !in Translations ==> r == key
    ensures key in Translations ==> r == LabelText(Translations[key], lang)
    ensures r != "" || key == ""
  {
    TranslationsComplete();
    if key in Translations && LabelText(Translations[key], lang) != ""
    then LabelText(Translations[key], lang)
    else key
  }
}
