/**
 * `getLanguageFlag` of FriendCard.jsx: the flag image for a language name.
 * The language-to-country-code table is a parameter (`languageToFlag`);
 * it lives in the application's constants file.
 */
module FriendCard {
  import opened Wrappers
  import opened Text

  const FlagCdn: string := "https://flagcdn.com/24x18/"
  const FlagSuffix: string := ".png"
  const AltSuffix: string := " flag"

  /** The attributes of the `<img>` the function returns. */
  datatype FlagImage = FlagImage(src: string, alt: string)

  /**
   * No flag for a missing or empty language or for one the table has no
   * (non-empty) code for; otherwise the CDN image of that code, looked up by
   * the lower-cased name.
   */
  function LanguageFlag(language: Option<string>, languageToFlag: map<string, string>): (r: Option<FlagImage>)
    ensures !Truthy(language) ==> r.None?
    ensures Truthy(language) ==>
      (r.Some? <==> Lower(language.value) in languageToFlag && languageToFlag[Lower(language.value)] != "")
    ensures r.Some? ==>
      var code := languageToFlag[Lower(language.value)];
      r.value.src == FlagCdn + code + FlagSuffix && r.value.alt == Lower(language.value) + AltSuffix
  {
    if !Truthy(language) then None
    else
      var langLower := Lower(language.value);
      if langLower in languageToFlag && languageToFlag[langLower] != "" then
        var countryCode := languageToFlag[langLower];
        Some(FlagImage(FlagCdn + countryCode + FlagSuffix, langLower + AltSuffix))
      else None
  }

  /** The lookup ignores ASCII case: names equal up to case get the same flag. */
  lemma CaseInsensitive(a: string, b: string, languageToFlag: map<string, string>)
    requires Lower(a) == Lower(b)
    ensures LanguageFlag(Some(a), languageToFlag) == LanguageFlag(Some(b), languageToFlag)
  {
  }

  /** The country code a flag URL was built from. */
  function CodeFromSrc(src: string): Option<string>
  {
    if |src| >= |FlagCdn| + |FlagSuffix| && src[..|FlagCdn|] == FlagCdn && src[|src| - |FlagSuffix|..] == FlagSuffix
    then Some(src[|FlagCdn|..|src| - |FlagSuffix|])
    else None
  }

  /**
   * The image names the table's code for the language, recoverable from its
   * URL, and its alt text names the language in lower case.
   */
  lemma FlagNamesItsCode(language: string, languageToFlag: map<string, string>)
    requires LanguageFlag(Some(language), languageToFlag).Some?
    ensures var img := LanguageFlag(Some(language), languageToFlag).value;
      CodeFromSrc(img.src) == Some(languageToFlag[Lower(language)]) &&
      IsLower(img.alt[..|img.alt| - |AltSuffix|])
  {
  }
}
