/**
 * The persisted plugin settings: the chosen language code, defaulting to "en",
 * and the fixed table of languages the bundled data is shipped in.
 */
module SettingsState {

  /** The language every lookup falls back to, and the default setting. */
  const DEFAULT_LANGUAGE: string := "en"

  /** `SUPPORTED_LANGUAGES`: (code, display name) pairs, in the order the settings page lists them. */
  const SUPPORTED_LANGUAGES: seq<(string, string)> := [
    ("ch", "Simplified Chinese"),
    ("cz", "Czech"),
    ("en", "English"),
    ("es-mx", "Mexican Spanish"),
    ("es", "Spanish"),
    ("fr", "French"),
    ("ge", "German"),
    ("hu", "Hungarian"),
    ("it", "Italian"),
    ("jp", "Japanese"),
    ("kr", "Korean"),
    ("pl", "Polish"),
    ("po", "Portuguese"),
    ("ro", "Romanian"),
    ("ru", "Russian"),
    ("sk", "Slovak"),
    ("tu", "Turkish")
  ]

  /** Index of the first entry of `table` at or after `from` whose code is `code`, or -1. */
  function FirstIndexFrom(table: seq<(string, string)>, code: string, from: nat): (r: int)
    requires from <= |table|
    ensures -1 <= r < |table|
    ensures r >= 0 ==> from <= r && table[r].0 == code
    ensures r >= 0 ==> forall k :: from <= k < r ==> table[k].0 != code
    ensures r < 0 ==> forall k :: from <= k < |table| ==> table[k].0 != code
    decreases |table| - from
  {
    if from == |table| then -1
    else if table[from].0 == code then from
    else FirstIndexFrom(table, code, from + 1)
  }

  /** `SUPPORTED_LANGUAGES.indexOfFirst { it.first == code }`. */
  function IndexOfCode(code: string): (r: int)
    ensures -1 <= r < |SUPPORTED_LANGUAGES|
    ensures r >= 0 ==> SUPPORTED_LANGUAGES[r].0 == code
    ensures r >= 0 ==> forall k :: 0 <= k < r ==> SUPPORTED_LANGUAGES[k].0 != code
    ensures r < 0 <==> forall k :: 0 <= k < |SUPPORTED_LANGUAGES| ==> SUPPORTED_LANGUAGES[k].0 != code
  {
    FirstIndexFrom(SUPPORTED_LANGUAGES, code, 0)
  }

  /** The code is one of the supported languages. */
  predicate IsSupported(code: string) {
    exists k :: 0 <= k < |SUPPORTED_LANGUAGES| && SUPPORTED_LANGUAGES[k].0 == code
  }

  /** The table has seventeen entries, "en" (English) third, and no code is listed twice. */
  lemma SupportedLanguagesShape()
    ensures |SUPPORTED_LANGUAGES| == 17
    ensures SUPPORTED_LANGUAGES[2] == (DEFAULT_LANGUAGE, "English")
    ensures forall i, j :: 0 <= i < j < |SUPPORTED_LANGUAGES| ==> SUPPORTED_LANGUAGES[i].0 != SUPPORTED_LANGUAGES[j].0
  {
  }

  /** The default language is a supported one, found at the third position. */
  lemma DefaultSupported()
    ensures IsSupported(DEFAULT_LANGUAGE)
    ensures IndexOfCode(DEFAULT_LANGUAGE) == 2
  {
    assert SUPPORTED_LANGUAGES[2].0 == DEFAULT_LANGUAGE;
    assert FirstIndexFrom(SUPPORTED_LANGUAGES, DEFAULT_LANGUAGE, 2) == 2;
    assert FirstIndexFrom(SUPPORTED_LANGUAGES, DEFAULT_LANGUAGE, 1) == 2;
  }

  /** `SptIdSettingsState`: the application-wide settings bean. */
  class SptIdSettingsState {
    var language: string

    /** A fresh bean holds the default language. */
    constructor()
      ensures language == DEFAULT_LANGUAGE
    {
      language := DEFAULT_LANGUAGE;
    }

    /** `getState`: the bean itself is what gets persisted. */
    method GetState() returns (s: SptIdSettingsState)
      ensures s == this
    {
      s := this;
    }

    /** `loadState`: copy the persisted bean's one property into this one. */
    method LoadState(state: SptIdSettingsState)
      modifies this
      ensures language == old(state.language)
    {
      language := state.language;
    }
  }
}
