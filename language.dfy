/**
 * The language context: the current language, its text direction, the
 * translation lookup `t` with its fallback chain, the persisted preference and
 * the guard that the context is only used inside its provider.
 */
module Language {
  import opened Wrappers
  import Translations

  datatype Lang = En | He | Ar

  datatype Direction = Ltr | Rtl

  /** The code the source stores and compares for each language. */
  function Code(l: Lang): string {
    match l
    case En => "en"
    case He => "he"
    case Ar => "ar"
  }

  /**
   * The restore effect's test on the saved preference: the stored item must be
   * present and one of "en", "he" and "ar"; anything else is ignored.
   */
  function ParseSaved(saved: Option<string>): (r: Option<Lang>)
    ensures r.Some? <==> saved.Some? && saved.value in {"en", "he", "ar"}
    ensures r.Some? ==> Code(r.value) == saved.value
  {
    match saved
    case None => None
    case Some(s) =>
      if s == "en" then Some(En)
      else if s == "he" then Some(He)
      else if s == "ar" then Some(Ar)
      else None
  }

  /** Storing a language's code and reading it back yields that language. */
  lemma SavedCodeRoundTrip(l: Lang, saved: Option<string>)
    ensures ParseSaved(Some(Code(l))) == Some(l)
    ensures ParseSaved(saved) == Some(l) ==> saved == Some(Code(l))
  {
  }

  /** English is written left to right, Hebrew and Arabic right to left. */
  function DirectionOf(l: Lang): (d: Direction)
    ensures d == Ltr <==> l == En
  {
    if l == En then Ltr else Rtl
  }

  /** The table of language l in the `translations` record. */
  function Table(tables: Translations.Tables, l: Lang): map<string, string> {
    match l
    case En => tables.en
    case He => tables.he
    case Ar => tables.ar
  }

  /** `table[key]` read as a JavaScript condition: present and not the empty string. */
  function Entry(table: map<string, string>, key: string): (r: Option<string>)
    ensures r.Some? <==> key in table && table[key] != ""
    ensures r.Some? ==> r.value == table[key]
  {
    if key in table && table[key] != "" then Some(table[key]) else None
  }

  /** `t(key)`: `translations[language][key] || translations['en'][key] || key`. */
  function Translate(tables: Translations.Tables, l: Lang, key: string): string {
    match Entry(Table(tables, l), key)
    case Some(v) => v
    case None =>
      match Entry(tables.en, key)
      case Some(v) => v
      case None => key
  }

  /** A usable entry of the current language wins. */
  lemma TranslateCurrent(tables: Translations.Tables, l: Lang, key: string)
    requires key in Table(tables, l) && Table(tables, l)[key] != ""
    ensures Translate(tables, l, key) == Table(tables, l)[key]
  {
  }

  /** Without a usable entry of its own, the current language falls back to English. */
  lemma TranslateEnglishFallback(tables: Translations.Tables, l: Lang, key: string)
    requires !(key in Table(tables, l) && Table(tables, l)[key] != "")
    requires key in tables.en && tables.en[key] != ""
    ensures Translate(tables, l, key) == tables.en[key]
  {
  }

  /** With no usable entry in either table the key itself is shown. */
  lemma TranslateKeyFallback(tables: Translations.Tables, l: Lang, key: string)
    requires !(key in Table(tables, l) && Table(tables, l)[key] != "")
    requires !(key in tables.en && tables.en[key] != "")
    ensures Translate(tables, l, key) == key
  {
  }

  /** `t` is total: it yields a table value or the key, and "" only for the empty key. */
  lemma TranslateTotal(tables: Translations.Tables, l: Lang, key: string)
    ensures var r := Translate(tables, l, key);
            (key in Table(tables, l) && r == Table(tables, l)[key]) || (key in tables.en && r == tables.en[key]) || r == key
    ensures Translate(tables, l, key) == "" ==> key == ""
  {
  }

  /** In well-formed tables every key some table defines has an English entry. */
  lemma EnglishCoversAllKeys(tables: Translations.Tables, l: Lang, key: string)
    requires Translations.WellFormed(tables)
    requires key in Table(tables, l)
    ensures key in tables.en
  {
  }

  /**
   * In well-formed tables a key of the English table never falls through to
   * the key itself: it shows the current language's usable entry, or else the
   * English one.
   */
  lemma TranslateKnownKey(tables: Translations.Tables, l: Lang, key: string)
    requires Translations.WellFormed(tables)
    requires key in tables.en
    ensures Translate(tables, l, key) == if key in Table(tables, l) && Table(tables, l)[key] != "" then Table(tables, l)[key] else tables.en[key]
    ensures Translate(tables, l, key) != ""
  {
  }

  /** In well-formed tables a key English lacks is shown as itself, in every language. */
  lemma TranslateUnknownKey(tables: Translations.Tables, l: Lang, key: string)
    requires Translations.WellFormed(tables)
    requires key !in tables.en
    ensures Translate(tables, l, key) == key
  {
    if key in Table(tables, l) {
      EnglishCoversAllKeys(tables, l, key);
    }
  }

  /**
   * The provider's state: the `language` state and the browser's stored
   * "preferred-language" item, which outlives the provider.
   */
  class LanguageProvider {
    const translations: Translations.Tables
    var language: Lang
    var stored: Option<string>

    /**
     * A fresh provider starts in English. `translations` is the record it looks
     * keys up in (the source's is Translations.All); `stored` is whatever the
     * browser holds.
     */
    constructor (translations: Translations.Tables, stored: Option<string>)
      ensures this.translations == translations
      ensures language == En && this.stored == stored
    {
      this.translations := translations;
      language := En;
      this.stored := stored;
    }

    /** The mount effect: adopt a stored language only if it is a supported one. */
    method RestoreSaved()
      modifies this
      ensures ParseSaved(old(stored)).Some? ==> language == ParseSaved(old(stored)).value
      ensures ParseSaved(old(stored)).None? ==> language == old(language)
      ensures stored == old(stored)
    {
      var saved := ParseSaved(stored);
      if saved.Some? {
        language := saved.value;
      }
    }

    /** Change the language and persist the same choice. */
    method SetLanguage(l: Lang)
      modifies this
      ensures language == l && stored == Some(Code(l))
    {
      language := l;
      stored := Some(Code(l));
    }

    function CurrentDirection(): (d: Direction)
      reads this
      ensures d == Ltr <==> language == En
    {
      DirectionOf(language)
    }

    function T(key: string): string
      reads this
    {
      Translate(translations, language, key)
    }
  }

  /**
   * A language chosen before a reload is the language after it: set l in one
   * provider, then mount a new provider over the same storage.
   */
  method ReloadAfterSetLanguage(tables: Translations.Tables, l: Lang, stored: Option<string>) returns (restored: Lang)
    ensures restored == l
  {
    var before := new LanguageProvider(tables, stored);
    before.SetLanguage(l);
    var after := new LanguageProvider(tables, before.stored);
    after.RestoreSaved();
    restored := after.language;
  }

  /**
   * After switching a provider to l, `t` shows a key of the English table as
   * l's usable entry or else the English text, never as "", and any other key
   * as itself.
   */
  method TextAfterSwitch(tables: Translations.Tables, stored: Option<string>, l: Lang, key: string) returns (text: string)
    requires Translations.WellFormed(tables)
    ensures key in tables.en ==>
      text == (if key in Table(tables, l) && Table(tables, l)[key] != "" then Table(tables, l)[key] else tables.en[key])
    ensures key in tables.en ==> text != ""
    ensures key !in tables.en ==> text == key
  {
    var provider := new LanguageProvider(tables, stored);
    provider.SetLanguage(l);
    text := provider.T(key);
    if key in tables.en {
      TranslateKnownKey(tables, l, key);
    } else {
      TranslateUnknownKey(tables, l, key);
    }
  }

  /** With the shipped tables, every English key shows a non-empty text in every language. */
  lemma ShippedEnglishKey(l: Lang, key: string)
    requires key in Translations.En
    ensures Translate(Translations.All, l, key) != ""
  {
    Translations.AllWellFormed();
    TranslateKnownKey(Translations.All, l, key);
  }

  /** With the shipped tables, a key English lacks is shown as itself in every language. */
  lemma ShippedUnknownKey(l: Lang, key: string)
    requires key !in Translations.En
    ensures Translate(Translations.All, l, key) == key
  {
    Translations.AllWellFormed();
    TranslateUnknownKey(Translations.All, l, key);
  }

  const OutsideProviderError: string := "useLanguage must be used within a LanguageProvider"

  /** `useLanguage`: the provided context, or the error it throws outside a provider. */
  function UseLanguage<C>(context: Option<C>): (r: Result<C, string>)
    ensures r.Failure? <==> context.None?
    ensures r.Failure? ==> r.error == OutsideProviderError
    ensures r.Success? ==> r.value == context.value
  {
    match context
    case None => Failure(OutsideProviderError)
    case Some(c) => Success(c)
  }
}
