/**
 * The `I18n` helper object of js/i18n.js and toku-trip/src/js/i18n.js:
 * choosing the page language, loading its dictionary, looking keys up with
 * placeholder substitution, and rewriting the text of marked elements.
 *
 * The browser is abstracted: `localStorage` is the `stored` field,
 * `navigator.language(s)` are parameters, a locale file fetch succeeds
 * exactly when the language is a key of `locales`, and the page is a `Page`
 * object holding the `[data-i18n]` elements in an array.
 */
module I18n {
  import opened Wrappers
  import opened Text

  /** A locale file: translation key to template text. */
  type Dictionary = map<string, string>

  const SupportedLangs: seq<string> := ["zh-TW", "en", "ja", "ko"]
  const DefaultLang: string := "zh-TW"

  predicate IsSupported(lang: string) {
    lang in SupportedLangs
  }

  /** `lang.split('-')[0]`, the base language of a tag such as `en-US`. */
  function BaseLang(lang: string): string {
    SplitFirst(lang, '-')
  }

  // ----- Choosing the language -----

  /** What one entry of `navigator.languages` yields: itself when supported, else its base language when that is. */
  function EntryMatch(lang: string): (r: Option<string>)
    ensures r.Some? ==> IsSupported(r.value)
  {
    if IsSupported(lang) then Some(lang)
    else if IsSupported(BaseLang(lang)) then Some(BaseLang(lang))
    else None
  }

  /** The outcome of the loop over `navigator.languages`: the yield of the first entry that yields anything. */
  function ListMatch(langs: seq<string>): (r: Option<string>)
    ensures r.Some? ==> IsSupported(r.value)
  {
    if langs == [] then None
    else if EntryMatch(langs[0]).Some? then EntryMatch(langs[0])
    else ListMatch(langs[1..])
  }

  /** `getLanguage()` as a value: stored choice, browser language, language list, default, in that priority. */
  function ResolveLanguage(stored: Option<string>, primary: string, langs: seq<string>): (r: string)
    ensures IsSupported(r)
    ensures stored.Some? && IsSupported(stored.value) ==> r == stored.value
  {
    if stored.Some? && stored.value != "" && IsSupported(stored.value) then stored.value
    else if IsSupported(primary) then primary
    else if ListMatch(langs).Some? then ListMatch(langs).value
    else DefaultLang
  }

  /** The entry that decides the list loop is the first one yielding a match; earlier entries yield nothing. */
  lemma {:induction false} ListMatchIsFirstMatch(langs: seq<string>, i: nat)
    requires i < |langs| && EntryMatch(langs[i]).Some?
    requires forall j :: 0 <= j < i ==> EntryMatch(langs[j]).None?
    ensures ListMatch(langs) == EntryMatch(langs[i])
  {
    if i > 0 {
      assert EntryMatch(langs[0]).None?;
      forall j | 0 <= j < i - 1
        ensures EntryMatch(langs[1..][j]).None?
      {
        assert langs[1..][j] == langs[j + 1];
      }
      ListMatchIsFirstMatch(langs[1..], i - 1);
    }
  }

  /** The list loop finds nothing exactly when no entry matches exactly or by base language. */
  lemma {:induction false} ListMatchNone(langs: seq<string>)
    ensures ListMatch(langs).None? <==> forall j :: 0 <= j < |langs| ==> EntryMatch(langs[j]).None?
  {
    if langs != [] {
      ListMatchNone(langs[1..]);
      assert forall j :: 1 <= j < |langs| ==> langs[j] == langs[1..][j - 1];
    }
  }

  /** An unsupported stored value is ignored; then a supported browser language wins. */
  lemma ResolveIgnoresUnsupportedStored(s: string, primary: string, langs: seq<string>)
    requires !IsSupported(s)
    ensures ResolveLanguage(Some(s), primary, langs) == ResolveLanguage(None, primary, langs)
    ensures IsSupported(primary) ==> ResolveLanguage(Some(s), primary, langs) == primary
  {
  }

  /**
   * Without a usable stored choice or browser language, the first list entry
   * that matches decides, exactly before base: `en-US` gives `en` unless an
   * earlier entry matched.
   */
  lemma ResolveFromLanguageList(stored: Option<string>, primary: string, langs: seq<string>, i: nat)
    requires stored.None? || !IsSupported(stored.value)
    requires !IsSupported(primary)
    requires i < |langs| && EntryMatch(langs[i]).Some?
    requires forall j :: 0 <= j < i ==> EntryMatch(langs[j]).None?
    ensures ResolveLanguage(stored, primary, langs) == (if IsSupported(langs[i]) then langs[i] else BaseLang(langs[i]))
  {
    ListMatchIsFirstMatch(langs, i);
  }

  /** When nothing the browser offers is supported, the default `zh-TW` is chosen. */
  lemma ResolveDefault(stored: Option<string>, primary: string, langs: seq<string>)
    requires stored.None? || !IsSupported(stored.value)
    requires !IsSupported(primary)
    requires forall j :: 0 <= j < |langs| ==> !IsSupported(langs[j]) && !IsSupported(BaseLang(langs[j]))
    ensures ResolveLanguage(stored, primary, langs) == DefaultLang
  {
    ListMatchNone(langs);
  }

  /** `getLanguage()`: a search with early returns over the stored choice and the browser's languages. */
  method GetLanguage(stored: Option<string>, primary: string, langs: seq<string>) returns (r: string)
    ensures IsSupported(r)
    ensures r == ResolveLanguage(stored, primary, langs)
  {
    if stored.Some? && stored.value != "" && IsSupported(stored.value) {
      return stored.value;
    }
    if IsSupported(primary) {
      return primary;
    }
    for i := 0 to |langs|
      invariant ListMatch(langs) == ListMatch(langs[i..])
    {
      assert langs[i..][1..] == langs[i + 1..];
      if IsSupported(langs[i]) {
        return langs[i];
      }
      var base := BaseLang(langs[i]);
      if IsSupported(base) {
        return base;
      }
    }
    return DefaultLang;
  }

  // ----- Looking keys up -----

  /** `{name}`, the placeholder token for `name`. */
  function Placeholder(name: string): string {
    "{" + name + "}"
  }

  /** The loop of `t` over `replacements`, in their order: each placeholder replaced at its first occurrence only. */
  function Substitute(text: string, replacements: seq<(string, string)>): string
    decreases |replacements|
  {
    if replacements == [] then text
    else Substitute(ReplaceFirst(text, Placeholder(replacements[0].0), replacements[0].1), replacements[1..])
  }

  /** `t(key, replacements)` against the dictionary `dict`. */
  function Translation(dict: Dictionary, key: string, replacements: seq<(string, string)>): (r: string)
    ensures key !in dict ==> r == key
    ensures key in dict && replacements == [] ==> r == dict[key]
  {
    if key !in dict then key else Substitute(dict[key], replacements)
  }

  /** Replacements none of whose placeholders occur in the text leave it as it is. */
  lemma {:induction false} SubstituteWithoutPlaceholders(text: string, replacements: seq<(string, string)>)
    requires forall k: nat, j: nat :: k < |replacements| ==> !OccursAt(text, Placeholder(replacements[k].0), j)
    ensures Substitute(text, replacements) == text
  {
    if replacements != [] {
      assert ReplaceFirst(text, Placeholder(replacements[0].0), replacements[0].1) == text;
      assert forall k: nat :: k < |replacements| - 1 ==> replacements[1..][k] == replacements[k + 1];
      SubstituteWithoutPlaceholders(text, replacements[1..]);
    }
  }

  /**
   * A single replacement puts its value in place of the first `{name}` of
   * the entry, and any other token outside that slot, a second `{name}`
   * included, is left as it was.
   */
  lemma TranslationReplacesFirstOnly(dict: Dictionary, key: string, name: string, value: string, i: nat, q: string, p: nat)
    requires key in dict && FirstOccurrence(dict[key], Placeholder(name), i)
    requires OccursAt(dict[key], q, p) && i + |Placeholder(name)| <= p
    ensures Translation(dict, key, [(name, value)])
         == dict[key][..i] + value + dict[key][i + |Placeholder(name)|..]
    ensures OccursAt(Translation(dict, key, [(name, value)]), q, p - |Placeholder(name)| + |value|)
  {
    var t, ph := dict[key], Placeholder(name);
    assert Substitute(t, [(name, value)]) == Substitute(ReplaceFirst(t, ph, value), []);
    assert Translation(dict, key, [(name, value)]) == ReplaceFirst(t, ph, value);
    ReplaceFirstIsSplice(t, ph, value, i);
    ReplaceFirstKeepsOccurrence(t, ph, value, i, q, p);
  }

  // ----- Loading dictionaries -----

  /** The two copies: the site root's dispatches `language-changed` after a switch; toku-trip's refreshes the language label in `translatePage`. */
  datatype Variant = SiteRoot | TokuTrip

  /** What the helper does outside its own fields, in order. */
  datatype Effect = Fetch(lang: string) | Persist(lang: string) | LanguageChanged

  /** The fetches `loadTranslations(lang)` makes: `lang`, then the default once more when `lang` fails and is not the default. */
  function LoadAttempts(lang: string, locales: map<string, Dictionary>): (r: seq<Effect>)
    ensures 1 <= |r| <= 2 && r[0] == Fetch(lang)
    ensures |r| == 2 <==> lang !in locales && lang != DefaultLang
    ensures |r| == 2 ==> r[1] == Fetch(DefaultLang)
  {
    [Fetch(lang)] + if lang !in locales && lang != DefaultLang then [Fetch(DefaultLang)] else []
  }

  /** The dictionary after `loadTranslations(lang)`, starting from `previous`: the first file that loads, or `previous` when none does. */
  function LoadedDictionary(lang: string, locales: map<string, Dictionary>, previous: Dictionary): (d: Dictionary)
    ensures lang in locales ==> d == locales[lang]
    ensures lang !in locales && DefaultLang in locales ==> d == locales[DefaultLang]
    ensures lang !in locales && DefaultLang !in locales ==> d == previous
  {
    if lang in locales then locales[lang]
    else if lang != DefaultLang && DefaultLang in locales then locales[DefaultLang]
    else previous
  }

  /** `lang` when supported, otherwise the default, as `setLanguage` coerces it. */
  function Coerce(lang: string): (r: string)
    ensures IsSupported(r)
    ensures IsSupported(lang) ==> r == lang
    ensures !IsSupported(lang) ==> r == DefaultLang
  {
    if IsSupported(lang) then lang else DefaultLang
  }

  /** The key of the current-language label: `lang_` and the tag with its first `-` turned into `_`. */
  function LangLabelKey(lang: string): (r: string)
    ensures |r| == |lang| + 5 && r[..5] == "lang_"
    ensures '-' !in lang ==> r == "lang_" + lang
    ensures forall i: nat :: FirstOccurrence(lang, "-", i) ==> r == "lang_" + lang[..i] + "_" + lang[i + 1..]
  {
    NoDashNoOccurrence(lang);
    "lang_" + ReplaceFirst(lang, "-", "_")
  }

  lemma NoDashNoOccurrence(s: string)
    ensures '-' !in s ==> forall j: nat :: !OccursAt(s, "-", j)
    ensures forall i: nat :: FirstOccurrence(s, "-", i) ==> i < |s|
  {
    if '-' !in s {
      forall j: nat | j + 1 <= |s|
        ensures !OccursAt(s, "-", j)
      {
        assert s[j..j + 1][0] == s[j];
      }
    }
  }

  /** The four label keys are `lang_zh_TW`, `lang_en`, `lang_ja` and `lang_ko`. */
  lemma SupportedLabelKeys()
    ensures LangLabelKey("zh-TW") == "lang_zh_TW"
    ensures LangLabelKey("en") == "lang_en" && LangLabelKey("ja") == "lang_ja" && LangLabelKey("ko") == "lang_ko"
  {
    ZhTwLabelKey();
    assert '-' !in "en" && '-' !in "ja" && '-' !in "ko";
  }

  lemma ZhTwLabelKey()
    ensures LangLabelKey("zh-TW") == "lang_zh_TW"
  {
    var tag := "zh-TW";
    assert OccursAt(tag, "-", 2) by {
      assert tag[2..3] == "-";
    }
    assert !OccursAt(tag, "-", 0) by {
      assert tag[0..1][0] == 'z';
    }
    assert !OccursAt(tag, "-", 1) by {
      assert tag[1..2][0] == 'h';
    }
    assert FirstOccurrence(tag, "-", 2);
    assert tag[..2] == "zh" && tag[3..] == "TW";
  }

  // ----- The page -----

  /** An element carrying `data-i18n`: its key and its current text. */
  datatype Element = Element(key: string, text: string)

  /** The parts of the page the helper writes. */
  class Page {
    /** The `[data-i18n]` elements, in document order. */
    const elements: array<Element>
    /** `document.documentElement.lang`. */
    var htmlLang: string
    /** Text of the current-language label; `None` when the page has no label. */
    var langLabel: Option<string>

    constructor (elements: array<Element>, htmlLang: string, langLabel: Option<string>)
      ensures this.elements == elements && this.htmlLang == htmlLang && this.langLabel == langLabel
    {
      this.elements := elements;
      this.htmlLang := htmlLang;
      this.langLabel := langLabel;
    }
  }

  /** The elements after `translatePage`: each keeps its key and shows `t(key)`. */
  function Translated(elements: seq<Element>, dict: Dictionary): (r: seq<Element>)
    ensures |r| == |elements|
  {
    if elements == [] then []
    else [Element(elements[0].key, Translation(dict, elements[0].key, []))] + Translated(elements[1..], dict)
  }

  lemma {:induction false} TranslatedAt(elements: seq<Element>, dict: Dictionary, k: nat)
    requires k < |elements|
    ensures Translated(elements, dict)[k] == Element(elements[k].key, Translation(dict, elements[k].key, []))
  {
    if k > 0 {
      TranslatedAt(elements[1..], dict, k - 1);
    }
  }

  /** Translating the page a second time with the same dictionary changes nothing. */
  lemma {:induction false} TranslatedIdempotent(elements: seq<Element>, dict: Dictionary)
    ensures Translated(Translated(elements, dict), dict) == Translated(elements, dict)
  {
    if elements != [] {
      var once := Translated(elements, dict);
      assert once[1..] == Translated(elements[1..], dict);
      TranslatedIdempotent(elements[1..], dict);
    }
  }

  // ----- The helper object -----

  class Translator {
    const variant: Variant
    var currentLang: string
    var translations: Dictionary
    /** `localStorage.getItem('tuku_go_lang')`. */
    var stored: Option<string>
    var effects: seq<Effect>

    /** The object as the script defines it: no language chosen and an empty dictionary. */
    constructor (variant: Variant, stored: Option<string>)
      ensures this.variant == variant && this.stored == stored
      ensures currentLang == "" && translations == map[] && effects == []
    {
      this.variant := variant;
      this.stored := stored;
      currentLang := "";
      translations := map[];
      effects := [];
    }

    /** `t(key, replacements)`. */
    method Translate(key: string, replacements: seq<(string, string)>) returns (text: string)
      ensures text == Translation(translations, key, replacements)
    {
      if key !in translations {
        return key;
      }
      text := translations[key];
      for k := 0 to |replacements|
        invariant Substitute(text, replacements[k..]) == Translation(translations, key, replacements)
      {
        assert replacements[k..][1..] == replacements[k + 1..];
        text := ReplaceFirst(text, Placeholder(replacements[k].0), replacements[k].1);
      }
    }

    /** `loadTranslations(lang)`: the requested file, then once the default file; the dictionary changes only on a successful load. */
    method LoadTranslations(lang: string, locales: map<string, Dictionary>)
      modifies this`translations, this`effects
      ensures effects == old(effects) + LoadAttempts(lang, locales)
      ensures translations == LoadedDictionary(lang, locales, old(translations))
      decreases if lang == DefaultLang then 0 else 1
    {
      effects := effects + [Fetch(lang)];
      if lang in locales {
        translations := locales[lang];
      } else if lang != DefaultLang {
        LoadTranslations(DefaultLang, locales);
      }
    }

    /** `setLanguage(lang)`: coerce, assign, persist the same value, load, and (site root) notify after the load. */
    method SetLanguage(lang: string, locales: map<string, Dictionary>)
      modifies this`currentLang, this`stored, this`translations, this`effects
      ensures currentLang == Coerce(lang) && stored == Some(currentLang) && IsSupported(currentLang)
      ensures translations == LoadedDictionary(currentLang, locales, old(translations))
      ensures effects == old(effects) + [Persist(currentLang)] + LoadAttempts(currentLang, locales)
                         + if variant == SiteRoot then [LanguageChanged] else []
    {
      var chosen := lang;
      if !IsSupported(chosen) {
        chosen := DefaultLang;
      }
      currentLang := chosen;
      stored := Some(chosen);
      effects := effects + [Persist(chosen)];
      LoadTranslations(chosen, locales);
      if variant == SiteRoot {
        effects := effects + [LanguageChanged];
      }
    }

    /** `init()` up to the label of `initLangSelector`: choose the language, load it, label the selector. */
    method Init(primary: string, langs: seq<string>, locales: map<string, Dictionary>, page: Page)
      modifies this`currentLang, this`translations, this`effects, page`langLabel
      ensures currentLang == ResolveLanguage(stored, primary, langs) && IsSupported(currentLang)
      ensures translations == LoadedDictionary(currentLang, locales, old(translations))
      ensures effects == old(effects) + LoadAttempts(currentLang, locales)
      ensures page.langLabel == if old(page.langLabel).Some?
                                then Some(Translation(translations, LangLabelKey(currentLang), []))
                                else None
    {
      currentLang := GetLanguage(stored, primary, langs);
      LoadTranslations(currentLang, locales);
      if page.langLabel.Some? {
        var labelText := Translate(LangLabelKey(currentLang), []);
        page.langLabel := Some(labelText);
      }
    }

    /** `translatePage()`: every marked element shows `t(key)`; `<html lang>` gets the base language. */
    method TranslatePage(page: Page)
      modifies page.elements, page`htmlLang, page`langLabel
      ensures page.elements[..] == Translated(old(page.elements[..]), translations)
      ensures page.htmlLang == BaseLang(currentLang)
      ensures page.langLabel == if variant == TokuTrip && old(page.langLabel).Some?
                                then Some(Translation(translations, LangLabelKey(currentLang), []))
                                else old(page.langLabel)
    {
      var elements := page.elements;
      for i := 0 to elements.Length
        modifies elements
        invariant forall k :: 0 <= k < i ==>
          elements[k] == Element(old(elements[k]).key, Translation(translations, old(elements[k]).key, []))
        invariant forall k :: i <= k < elements.Length ==> elements[k] == old(elements[k])
      {
        var text := Translate(elements[i].key, []);
        elements[i] := Element(elements[i].key, text);
      }
      forall k | 0 <= k < elements.Length
        ensures elements[..][k] == Translated(old(elements[..]), translations)[k]
      {
        TranslatedAt(old(elements[..]), translations, k);
      }
      page.htmlLang := BaseLang(currentLang);
      if variant == TokuTrip && page.langLabel.Some? {
        var labelText := Translate(LangLabelKey(currentLang), []);
        page.langLabel := Some(labelText);
      }
    }
  }
}
