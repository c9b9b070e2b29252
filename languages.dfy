/** The table from the labels shown in the language selector to text-to-speech language codes. */
module Languages {

  /** `LANGUAGES`: UI label to language code. */
  const Table: map<string, string> := map[
    "English (American)" := "EN",
    "Spanish" := "ES",
    "French" := "FR",
    "Chinese" := "ZH",
    "Japanese" := "JP",
    "Korean" := "KR"
  ]

  /** The code used for any label that is not in the table. */
  const DefaultCode: string := "EN"

  /** The language codes the text-to-speech model supports. */
  const SupportedCodes: set<string> := {"EN", "ES", "FR", "ZH", "JP", "KR"}

  /** `LANGUAGES.get(language_label, "EN")`. */
  function LanguageCode(uiLabel: string): (code: string)
    ensures code in SupportedCodes
    ensures uiLabel in Table ==> code == Table[uiLabel]
    ensures code != DefaultCode ==> uiLabel in Table
  {
    if uiLabel in Table then Table[uiLabel] else DefaultCode
  }

  /** Every supported code is reachable from exactly one label of the table. */
  lemma TableIsBijective()
    ensures Table.Values == SupportedCodes
    ensures forall a, b :: a in Table && b in Table && Table[a] == Table[b] ==> a == b
  {
    assert Table["English (American)"] == "EN";
    assert Table["Spanish"] == "ES";
    assert Table["French"] == "FR";
    assert Table["Chinese"] == "ZH";
    assert Table["Japanese"] == "JP";
    assert Table["Korean"] == "KR";
  }

  /** The lookups a user makes: a listed label and an unlisted one. */
  lemma LanguageCodeExamples()
    ensures LanguageCode("Spanish") == "ES"
    ensures LanguageCode("English (American)") == "EN"
    ensures LanguageCode("German") == "EN"
  {
  }
}
