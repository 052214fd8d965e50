/** The language switcher in the site header
    (src/components/language-switcher.tsx): the table of languages, the lookup
    of the current one and the guard in front of the router call. */
module LanguageSwitcher {
  import opened Common
  import opened Sequences

  datatype Language = Language(code: string, name: string, flag: string)

  /** The languages offered, in menu order. */
  const Languages: seq<Language> := [
    Language("pl", "Polski", "\U{1F1F5}\U{1F1F1}"),
    Language("en", "English", "\U{1F1EC}\U{1F1E7}"),
    Language("ua", "\U{423}\U{43A}\U{440}\U{430}\U{457}\U{43D}\U{441}\U{44C}\U{43A}\U{430}", "\U{1F1FA}\U{1F1E6}")
  ]

  /** The locale the routing configuration falls back to (src/i18n/routing.ts). */
  const DefaultLocale := "pl"

  predicate HasCode(locale: string) {
    exists i :: 0 <= i < |Languages| && Languages[i].code == locale
  }

  /** `languages.find(lang => lang.code === locale) || languages[0]`. */
  function CurrentLang(locale: string): (r: Language)
    ensures r in Languages
    ensures HasCode(locale) ==> r.code == locale
    ensures !HasCode(locale) ==> r == Languages[0]
  {
    match FirstIndex(Languages, (l: Language) => l.code == locale)
    case Some(i) => Languages[i]
    case None => Languages[0]
  }

  /** No two entries share a code, so the lookup cannot be ambiguous. */
  lemma CodesDistinct()
    ensures forall i, j :: 0 <= i < j < |Languages| ==> Languages[i].code != Languages[j].code
  {
  }

  /** The selected language is always Polish, English or Ukrainian, and an
      unknown locale selects the routing default. */
  lemma CurrentLangCodes(locale: string)
    ensures CurrentLang(locale).code in {"pl", "en", "ua"}
    ensures CurrentLang(locale).code == locale <==> locale in {"pl", "en", "ua"}
    ensures !(locale in {"pl", "en", "ua"}) ==> CurrentLang(locale).code == DefaultLocale
  {
    if locale == "pl" {
      assert Languages[0].code == locale;
    } else if locale == "en" {
      assert Languages[1].code == locale;
    } else if locale == "ua" {
      assert Languages[2].code == locale;
    }
  }

  /** `router.replace(pathname, { locale })`: stay on the page, change the locale. */
  datatype Navigation = Replace(pathname: string, locale: string)

  /** `handleLanguageChange`: nothing when the current locale is chosen again,
      otherwise a navigation to the same path under the new locale. */
  function HandleLanguageChange(locale: string, pathname: string, newLocale: string): (r: Option<Navigation>)
    ensures r.None? <==> newLocale == locale
    ensures r.Some? ==> r.value.pathname == pathname && r.value.locale == newLocale
  {
    if newLocale == locale then None else Some(Replace(pathname, newLocale))
  }

  /** Choosing an entry of the menu and landing on its locale shows that entry. */
  lemma ChoosingShowsChoice(locale: string, pathname: string, i: nat)
    requires i < |Languages|
    ensures var nav := HandleLanguageChange(locale, pathname, Languages[i].code);
      CurrentLang(if nav.Some? then nav.value.locale else locale) == Languages[i]
  {
    CodesDistinct();
  }
}
