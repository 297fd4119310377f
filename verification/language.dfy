/**
 * Language handling around synthesis: the `mr`/`ur` to `hi` substitution of
 * `generateAudioBuffer` (bot.js:54-56) and the display-name table of
 * `getLanguageName` (bot.js:178-198). A campaign's language may be missing
 * (`supported_languages[0]` of an empty list is `undefined`), hence `Option`.
 */
module Language {
  import opened Common

  /** Languages the synthesizer lacks; each is spoken as Hindi instead. */
  predicate Unsupported(lang: Option<string>) {
    lang == Some("mr") || lang == Some("ur")
  }

  /** The language actually handed to the synthesizer. */
  function SynthesisLanguage(lang: Option<string>): (spoken: Option<string>)
    ensures !Unsupported(spoken)
    ensures Unsupported(lang) ==> spoken == Some("hi")
    ensures !Unsupported(lang) ==> spoken == lang
  {
    if Unsupported(lang) then Some("hi") else lang
  }

  const LanguageNames: map<string, string> := map[
    "en" := "English", "mr" := "Marathi", "ur" := "Urdu", "ar" := "Arabic",
    "zh" := "Mandarin Chinese", "id" := "Indonesian", "vi" := "Vietnamese", "tr" := "Turkish",
    "ru" := "Russian", "pt" := "Portuguese", "de" := "German", "fr" := "French",
    "es" := "Spanish", "ko" := "Korean", "ja" := "Japanese", "hi" := "Hindi"
  ]

  /** `languages[code] || code`: the table's name, or the code itself. */
  function LanguageName(code: string): (name: string)
    ensures code in LanguageNames ==> name == LanguageNames[code]
    ensures code !in LanguageNames ==> name == code
  {
    if code in LanguageNames then LanguageNames[code] else code
  }

  // ---------------------------------------------------------------------------
  // Properties

  /** The substitution is settled after one step: remapping twice is remapping once. */
  lemma SynthesisLanguageIdempotent(lang: Option<string>)
    ensures SynthesisLanguage(SynthesisLanguage(lang)) == SynthesisLanguage(lang)
  {
  }

  /** A code is displayed as itself exactly when the table does not know it: no
      table entry maps a code to itself. */
  lemma NameIsCodeOnlyWhenUnknown(code: string)
    ensures LanguageName(code) == code <==> code !in LanguageNames
  {
    if code in LanguageNames {
      assert |LanguageNames[code]| > 2;
    }
  }
}
