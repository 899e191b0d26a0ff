/**
 * The i18n context of src/contexts/LanguageContext.tsx: the current UI
 * language (a state cell, `'fr'` at first) and `t`, a lookup in the current
 * language's table that falls back to the key itself.
 */
module LanguageContext {
  import opened Wrappers

  datatype Language = Fr | Nl | En

  /** One string table per language. */
  datatype Translations = Translations(fr: map<string, string>, nl: map<string, string>, en: map<string, string>) {
    function Table(l: Language): map<string, string> {
      match l
      case Fr => fr
      case Nl => nl
      case En => en
    }
  }

  /** `translations[language][key] || key`. */
  function Translate(translations: Translations, language: Language, key: string): (r: string)
    ensures key in translations.Table(language) && translations.Table(language)[key] != "" ==>
      r == translations.Table(language)[key]
    ensures !(key in translations.Table(language) && translations.Table(language)[key] != "") ==> r == key
  {
    var table := translations.Table(language);
    if key in table && table[key] != "" then table[key] else key
  }

  /** `t` is total and never blank for a non-empty key. */
  lemma TranslateNeverBlank(translations: Translations, language: Language, key: string)
    requires key != ""
    ensures Translate(translations, language, key) != ""
  {
  }

  /** `t` reads the current language's table only: the other tables cannot change its answer. */
  lemma TranslateReadsCurrentTable(a: Translations, b: Translations, language: Language, key: string)
    requires a.Table(language) == b.Table(language)
    ensures Translate(a, language, key) == Translate(b, language, key)
  {
  }

  /** A few entries of the tables, for the examples below. */
  function SampleTranslations(): (tr: Translations)
    ensures forall l :: "nav.home" in tr.Table(l) && "contact.title" in tr.Table(l)
  {
    Translations(
      map["nav.home" := "Accueil", "nav.audit" := "Audit gratuit", "contact.title" := "Contactez-nous"],
      map["nav.home" := "Home", "nav.audit" := "Gratis audit", "contact.title" := "Contacteer ons"],
      map["nav.home" := "Home", "nav.audit" := "Free audit", "contact.title" := "Contact us"])
  }

  /** A key the tables lack, such as the contact page's success toast title, is shown as the key. */
  lemma MissingKeyIsShownAsKey(l: Language)
    ensures Translate(SampleTranslations(), l, "contact.toast.success.title") == "contact.toast.success.title"
    ensures Translate(SampleTranslations(), Nl, "contact.title") == "Contacteer ons"
  {
  }

  /** The provider's state: the tables and the current language. */
  class LanguageProvider {
    const translations: Translations
    var language: Language

    /** `useState<Language>('fr')`. */
    constructor (translations: Translations)
      ensures this.translations == translations && language == Fr
    {
      this.translations := translations;
      language := Fr;
    }

    /** `t(key)`: the current language's non-empty entry, else the key. */
    function T(key: string): (r: string)
      reads this
      ensures key in translations.Table(language) && translations.Table(language)[key] != "" ==>
        r == translations.Table(language)[key]
      ensures !(key in translations.Table(language) && translations.Table(language)[key] != "") ==> r == key
    {
      Translate(translations, language, key)
    }

    /** `setLanguage(l)`: from now on `t` reads table `l`. */
    method SetLanguage(l: Language)
      modifies this
      ensures language == l
      ensures forall key :: T(key) == Translate(translations, l, key)
    {
      language := l;
    }
  }

  const OutsideProviderMessage: string := "useLanguage must be used within a LanguageProvider"

  /** `useLanguage()`: the provider's value, or an error when no provider is above the caller. */
  function UseLanguage(context: Option<LanguageProvider>): (r: Result<LanguageProvider, string>)
    ensures r.Err? <==> context.None?
    ensures r.Err? ==> r.error == OutsideProviderMessage
    ensures context.Some? ==> r == Ok(context.value)
  {
    match context
    case None => Err(OutsideProviderMessage)
    case Some(p) => Ok(p)
  }
}
