/**
  Language selection and string lookup of contexts/LanguageContext.tsx: the
  table of six languages, the start-up resolution of the stored language,
  the right-to-left flag, the translation lookup `t` with its fallbacks, and
  the provider's `lang` / `isReady` state.
*/
module LanguageContext {
  import opened Wrappers

  /** The six supported languages (`LangKey`). */
  datatype LangKey = En | Si | Ar | Ta | Hi | Ur

  /** The string a language key is stored and compared as. */
  function KeyName(k: LangKey): string {
    match k
    case En => "en"
    case Si => "si"
    case Ar => "ar"
    case Ta => "ta"
    case Hi => "hi"
    case Ur => "ur"
  }

  /** An entry of the language table; `rtl` is absent for left-to-right scripts. */
  datatype LangOption = LangOption(key: LangKey, name: string, rtl: Option<bool>)

  /** `LANG_OPTIONS`, in its order. */
  const LangOptions: seq<LangOption> := [
    LangOption(En, "English", None),
    LangOption(Si, "සිංහල", None),
    LangOption(Ar, "العربية", Some(true)),
    LangOption(Ta, "தமிழ்", None),
    LangOption(Hi, "हिन्दी", None),
    LangOption(Ur, "اردو", Some(true))
  ]

  /** The storage key the chosen language is kept under. */
  const StorageKey: string := "@smart-shopping-language"

  /** `options.find(l => l.key === key)`: the first option whose key spells `key`. */
  function FindOption(options: seq<LangOption>, key: string): (r: Option<LangOption>)
    ensures r.Some? ==> r.value in options && KeyName(r.value.key) == key
    ensures r.None? ==> forall o :: o in options ==> KeyName(o.key) != key
    ensures r.Some? ==>
      exists i :: 0 <= i < |options| && options[i] == r.value &&
        forall j :: 0 <= j < i ==> KeyName(options[j].key) != key
  {
    if options == [] then None
    else if KeyName(options[0].key) == key then Some(options[0])
    else FindOption(options[1..], key)
  }

  /** The position of `k` in the table: every key has an entry. */
  function KeyIndex(k: LangKey): (i: nat)
    ensures i < |LangOptions| && LangOptions[i].key == k
  {
    match k
    case En => 0
    case Si => 1
    case Ar => 2
    case Ta => 3
    case Hi => 4
    case Ur => 5
  }

  /**
    The language chosen at start-up from the stored value `saved`: the stored
    value when it spells one of the table's keys, otherwise English.
  */
  function ResolveStored(saved: Option<string>): (r: LangKey)
    ensures forall k :: saved == Some(KeyName(k)) ==> r == k
    ensures (forall k :: saved != Some(KeyName(k))) ==> r == En
  {
    match saved
    case None => En
    case Some(s) =>
      if s == "" then En
      else
        match FindOption(LangOptions, s)
        case Some(o) => o.key
        case None =>
          assert forall k :: KeyName(k) != s by {
            forall k ensures KeyName(k) != s {
              assert LangOptions[KeyIndex(k)] in LangOptions;
            }
          }
          En
  }

  /** `!!LANG_OPTIONS.find(l => l.key === lang)?.rtl`. */
  function IsRtl(lang: LangKey): bool {
    match FindOption(LangOptions, KeyName(lang))
    case Some(o) => o.rtl.GetOr(false)
    case None => false
  }

  /** Right-to-left holds exactly for Arabic and Urdu, the two entries marked `rtl: true`. */
  lemma IsRtlExactly(lang: LangKey)
    ensures IsRtl(lang) <==> lang == Ar || lang == Ur
  {
    var o := FindOption(LangOptions, KeyName(lang));
    assert LangOptions[KeyIndex(lang)] in LangOptions;
    assert o.Some? && o.value.key == lang;
    assert o.value == LangOptions[KeyIndex(lang)];
  }

  /** One language's string table. */
  type Dict = map<string, string>

  /** `dictionaries[lang] || dictionaries.en`: the current language's table, or English's. */
  function ActiveDict(dicts: map<LangKey, Dict>, lang: LangKey): Dict
    requires En in dicts
  {
    if lang in dicts then dicts[lang] else dicts[En]
  }

  /** `t(key)`: the current table's entry, else the English entry, else the key itself. */
  function Translate(dicts: map<LangKey, Dict>, lang: LangKey, key: string): (r: string)
    requires En in dicts
    ensures r == key || r in ActiveDict(dicts, lang).Values || r in dicts[En].Values
  {
    var dict := ActiveDict(dicts, lang);
    if key in dict then dict[key]
    else if key in dicts[En] then dicts[En][key]
    else key
  }

  /** A language with its own entry for `key` shows that entry. */
  lemma TranslateOwnEntry(dicts: map<LangKey, Dict>, lang: LangKey, key: string)
    requires En in dicts && lang in dicts && key in dicts[lang]
    ensures Translate(dicts, lang, key) == dicts[lang][key]
  {
  }

  /** A language whose table lacks `key` shows the English entry. */
  lemma TranslateEnglishFallback(dicts: map<LangKey, Dict>, lang: LangKey, key: string)
    requires En in dicts && key in dicts[En]
    requires lang in dicts ==> key !in dicts[lang]
    ensures Translate(dicts, lang, key) == dicts[En][key]
  {
  }

  /** A key no relevant table knows is shown as itself. */
  lemma TranslateKeyFallback(dicts: map<LangKey, Dict>, lang: LangKey, key: string)
    requires En in dicts && key !in dicts[En]
    requires lang in dicts ==> key !in dicts[lang]
    ensures Translate(dicts, lang, key) == key
  {
  }

  /** A language without a table of its own is translated exactly as English is. */
  lemma TranslateMissingDict(dicts: map<LangKey, Dict>, lang: LangKey, key: string)
    requires En in dicts && lang !in dicts
    ensures Translate(dicts, lang, key) == Translate(dicts, En, key)
  {
  }

  /** What the start-up read of the stored language produced. */
  datatype StoredRead = ReadOk(saved: Option<string>) | ReadFailed

  /** The provider's state: the current language and whether the stored one has been loaded. */
  class LanguageProvider {
    var lang: LangKey
    var isReady: bool

    constructor ()
      ensures lang == En && !isReady
    {
      lang := En;
      isReady := false;
    }

    /**
      The initial load. On a successful read the resolved language becomes current and
      its RTL flag is returned (the value given to the platform's RTL switch); on a failed
      read the language is kept and the switch is not touched. Either way the provider
      is ready afterwards.
    */
    method LoadStored(read: StoredRead) returns (rtl: Option<bool>)
      modifies this
      ensures isReady
      ensures read.ReadOk? ==> lang == ResolveStored(read.saved) && rtl == Some(IsRtl(lang))
      ensures read.ReadFailed? ==> lang == old(lang) && rtl == None
    {
      rtl := None;
      if read.ReadOk? {
        var next := ResolveStored(read.saved);
        lang := next;
        rtl := Some(IsRtl(next));
      }
      isReady := true;
    }

    /**
      `changeLanguage`: the language changes at once; `written` is the value handed to the
      storage write under the key `slotKey`, and the RTL flag is applied only when that write succeeds.
    */
    method ChangeLanguage(next: LangKey, writeSucceeded: bool) returns (slotKey: string, written: string, rtl: Option<bool>)
      modifies this
      ensures lang == next && isReady == old(isReady)
      ensures slotKey == StorageKey && written == KeyName(next)
      ensures rtl == if writeSucceeded then Some(IsRtl(next)) else None
    {
      lang := next;
      slotKey := StorageKey;
      written := KeyName(next);
      rtl := None;
      if writeSucceeded {
        rtl := Some(IsRtl(next));
      }
    }

    /** The context's `isRTL`: true exactly while Arabic or Urdu is current. */
    function IsRTL(): (r: bool)
      reads this
      ensures r <==> lang == Ar || lang == Ur
    {
      IsRtlExactly(lang);
      IsRtl(lang)
    }

    /** The context's `t`, over the string tables `dicts`. */
    function T(dicts: map<LangKey, Dict>, key: string): string
      reads this
      requires En in dicts
    {
      Translate(dicts, lang, key)
    }
  }
}
