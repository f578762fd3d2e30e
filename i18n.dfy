/**
 * The translation manager: the current language, the translation tree read
 * from locales/<language>.json, and the lookup of dotted keys in that tree.
 * A Python None and a JSON null are the same value to the lookup, so JNull
 * stands for both.
 */
module I18n {
  import opened Json
  import opened Text

  /** What reading locales/<language>.json gave. */
  datatype LocaleFile = Missing | Unreadable | Parsed(data: Json)

  /** What template.format(**kwargs) did: the text, a KeyError, or another exception. */
  datatype FormatOutcome = Formatted(text: string) | MissingName | FormatError(error: string)

  /** What t hands back: a value, or an exception it lets through. */
  datatype Translation = Returned(value: Json) | Raised(error: string)

  const DefaultLanguage: string := "zh_CN"

  /** The placeholder t returns for a key it cannot find. */
  function MissingText(key: string): string {
    "[" + key + "]"
  }

  /**
   * The walk of t over the key parts: each step looks the part up in a
   * dictionary; a missing part, a null, or a step from a non-dictionary gives
   * JNull, which every later step keeps.
   */
  function Descend(value: Json, keys: seq<string>): Json
    decreases |keys|
  {
    if |keys| == 0 then value
    else if value.JObj? then Descend(Get(value.fields, keys[0], JNull), keys[1..])
    else JNull
  }

  /** Once the walk has failed it stays failed. */
  lemma {:induction false} DescendNull(keys: seq<string>)
    ensures Descend(JNull, keys) == JNull
  {
  }

  /** Walking a + b is walking a, then b from where a ended. */
  lemma {:induction false} DescendAppend(value: Json, a: seq<string>, b: seq<string>)
    ensures Descend(value, a + b) == Descend(Descend(value, a), b)
    decreases |a|
  {
    if |a| == 0 {
      assert a + b == b;
    } else if value.JObj? {
      assert (a + b)[1..] == a[1..] + b;
      DescendAppend(Get(value.fields, a[0], JNull), a[1..], b);
    } else {
      DescendNull(b);
    }
  }

  /** The tree holding leaf at the path keys and nothing else. */
  function Nest(keys: seq<string>, leaf: Json): Json
    decreases |keys|
  {
    if |keys| == 0 then leaf else JObj(map[keys[0] := Nest(keys[1..], leaf)])
  }

  /** A dotted key names the nested entry its parts lead to. */
  lemma {:induction false} DescendNest(keys: seq<string>, leaf: Json)
    ensures Descend(Nest(keys, leaf), keys) == leaf
    decreases |keys|
  {
    if |keys| > 0 {
      DescendNest(keys[1..], leaf);
    }
  }

  /** The dotted key made of dot-free parts walks exactly those parts. */
  lemma DottedKey(parts: seq<string>, tree: Json)
    requires |parts| >= 1
    requires forall i :: 0 <= i < |parts| ==> '.' !in parts[i]
    ensures Descend(tree, Split(Join(parts, '.'), '.')) == Descend(tree, parts)
  {
    SplitJoin(parts, '.');
  }

  /** With an empty translation tree, no key is found. */
  lemma EmptyTreeFindsNothing(key: string)
    ensures Descend(JObj(map[]), Split(key, '.')) == JNull
  {
    var keys := Split(key, '.');
    DescendNull(keys[1..]);
  }

  /** _load_translations: a missing or unreadable file leaves an empty tree. */
  function Loaded(file: LocaleFile): (tree: Json)
    ensures !file.Parsed? ==> tree == JObj(map[])
    ensures file.Parsed? ==> tree == file.data
  {
    match file
    case Parsed(data) => data
    case _ => JObj(map[])
  }

  /** I18nManager: the current language and its translation tree. */
  class I18nManager {
    var currentLanguage: string
    var translations: Json

    /** Starts in zh_CN and loads its file. */
    constructor (file: LocaleFile)
      ensures currentLanguage == DefaultLanguage && translations == Loaded(file)
    {
      currentLanguage := DefaultLanguage;
      translations := Loaded(file);
    }

    /** _load_translations, given what reading the current language's file gave. */
    method LoadTranslations(file: LocaleFile)
      modifies this
      ensures currentLanguage == old(currentLanguage) && translations == Loaded(file)
    {
      match file
      case Parsed(data) =>
        translations := data;
      case _ =>
        translations := JObj(map[]);
    }

    /** set_language, given what reading the new language's file gave. */
    method SetLanguage(language: string, file: LocaleFile)
      modifies this
      ensures currentLanguage == language && translations == Loaded(file)
    {
      currentLanguage := language;
      LoadTranslations(file);
    }

    /**
     * t: walks the dotted key through the tree. A key that leads nowhere gives
     * "[key]"; without arguments the value found is returned as it is; with
     * arguments a string value is formatted, a KeyError falls back to the
     * unformatted value, and any other failure propagates.
     */
    method T(key: string, kwargs: map<string, string>, format: (string, map<string, string>) -> FormatOutcome)
      returns (r: Translation)
      ensures var v := Descend(translations, Split(key, '.'));
        && (v.JNull? ==> r == Returned(JStr(MissingText(key))))
        && (!v.JNull? && |kwargs| == 0 ==> r == Returned(v))
        && (!v.JNull? && |kwargs| > 0 && v.JStr? ==>
              match format(v.s, kwargs)
              case Formatted(text) => r == Returned(JStr(text))
              case MissingName => r == Returned(v)
              case FormatError(e) => r == Raised(e))
        && (!v.JNull? && |kwargs| > 0 && !v.JStr? ==> r == Raised("AttributeError"))
    {
      var keys := Split(key, '.');
      var value := translations;
      for i := 0 to |keys|
        invariant value == Descend(translations, keys[..i])
      {
        DescendAppend(translations, keys[..i], [keys[i]]);
        assert keys[..i + 1] == keys[..i] + [keys[i]];
        if value.JObj? {
          value := Get(value.fields, keys[i], JNull);
        } else {
          DescendAppend(translations, keys[..i], keys[i..]);
          assert keys[..i] + keys[i..] == keys;
          value := JNull;
          break;
        }
      }
      assert keys[..|keys|] == keys;
      if value.JNull? {
        return Returned(JStr(MissingText(key)));
      }
      if |kwargs| > 0 {
        if !value.JStr? {
          return Raised("AttributeError");
        }
        match format(value.s, kwargs)
        case Formatted(text) =>
          return Returned(JStr(text));
        case MissingName =>
          return Returned(value);
        case FormatError(e) =>
          return Raised(e);
      }
      return Returned(value);
    }
  }
}
