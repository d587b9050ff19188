/** Translation lookup (js/services/i18n.js): dotted keys resolved in nested
    tables, the pt-BR fallback, `{name}` parameters, and the choice of locale. */
module I18n {
  import opened Wrappers

  /** A value of a translation table: a text or a nested table. */
  datatype Node = Text(s: string) | Table(entries: map<string, Node>)

  /** JavaScript truthiness of a table value: only the empty text is falsy. */
  predicate Truthy(n: Node) {
    !(n.Text? && n.s == "")
  }

  /** `value && value[k]`: the entry `k` of a table, when it is truthy. */
  function Lookup(v: Option<Node>, k: string): (r: Option<Node>)
    ensures r.Some? <==> v.Some? && v.value.Table? && k in v.value.entries && Truthy(v.value.entries[k])
    ensures r.Some? ==> r.value == v.value.entries[k] && Truthy(r.value)
  {
    if v.Some? && v.value.Table? && k in v.value.entries && Truthy(v.value.entries[k]) then
      Some(v.value.entries[k])
    else None
  }

  /** The value at a path of keys; None as soon as a segment is missing or falsy. */
  function Resolve(root: Option<Node>, keys: seq<string>): Option<Node> {
    if keys == [] then root else Lookup(Resolve(root, keys[..|keys| - 1]), keys[|keys| - 1])
  }

  /** A missing segment cannot be recovered by the segments after it. */
  lemma {:induction false} MissingStays(root: Option<Node>, keys: seq<string>, i: int)
    requires 0 <= i <= |keys|
    requires Resolve(root, keys[..i]).None?
    ensures Resolve(root, keys).None?
    decreases |keys| - i
  {
    if i < |keys| {
      assert keys[..i + 1][..i] == keys[..i];
      MissingStays(root, keys, i + 1);
    } else {
      assert keys[..i] == keys;
    }
  }

  /** Resolving a path in two steps is resolving it at once. */
  lemma {:induction false} ResolveAppend(root: Option<Node>, a: seq<string>, b: seq<string>)
    ensures Resolve(root, a + b) == Resolve(Resolve(root, a), b)
  {
    if b == [] {
      assert a + b == a;
    } else {
      assert (a + b)[..|a + b| - 1] == a + b[..|b| - 1];
      ResolveAppend(root, a, b[..|b| - 1]);
    }
  }

  // ---------------------------------------------------------------------
  // Splitting the key
  // ---------------------------------------------------------------------

  /** `key.split('.')`: the segments between the dots, empty ones included. */
  function Split(s: string): (parts: seq<string>)
    ensures |parts| >= 1
    ensures forall i :: 0 <= i < |parts| ==> '.' !in parts[i]
  {
    if s == [] then [""]
    else
      var rest := Split(s[1..]);
      if s[0] == '.' then [""] + rest else [[s[0]] + rest[0]] + rest[1..]
  }

  /** The segments joined back with dots. */
  function Join(parts: seq<string>): string
    requires |parts| >= 1
  {
    if |parts| == 1 then parts[0] else parts[0] + "." + Join(parts[1..])
  }

  /** Splitting loses nothing: joining the segments gives the key back. */
  lemma {:induction false} JoinSplit(s: string)
    ensures Join(Split(s)) == s
  {
    if s != [] {
      var rest := Split(s[1..]);
      JoinSplit(s[1..]);
      if s[0] == '.' {
        assert Split(s)[1..] == rest;
        assert s == "." + s[1..];
      } else {
        var parts := Split(s);
        if |rest| == 1 {
          assert parts == [[s[0]] + rest[0]];
        } else {
          assert parts[1..] == rest[1..];
          assert Join(rest) == rest[0] + "." + Join(rest[1..]);
        }
        assert s == [s[0]] + s[1..];
      }
    }
  }

  // ---------------------------------------------------------------------
  // Parameters
  // ---------------------------------------------------------------------

  predicate OccursAt(s: string, pat: string, j: int) {
    0 <= j && j + |pat| <= |s| && s[j..j + |pat|] == pat
  }

  /** The first position at or after `from` where `pat` occurs. */
  function FindFrom(s: string, pat: string, from: nat): (r: Option<nat>)
    ensures r.Some? ==> from <= r.value && OccursAt(s, pat, r.value)
    ensures r.Some? ==> forall j :: from <= j < r.value ==> !OccursAt(s, pat, j)
    ensures r.None? ==> forall j :: from <= j ==> !OccursAt(s, pat, j)
    decreases |s| - from
  {
    if from + |pat| > |s| then None
    else if s[from..from + |pat|] == pat then Some(from)
    else FindFrom(s, pat, from + 1)
  }

  /** `s.replace(pat, rep)` with a text pattern: the first occurrence
      replaced, everything after it kept as it was. */
  function ReplaceFirst(s: string, pat: string, rep: string): (r: string)
    ensures FindFrom(s, pat, 0).None? ==> r == s
    ensures FindFrom(s, pat, 0).Some? ==>
              var j := FindFrom(s, pat, 0).value;
              |r| == |s| - |pat| + |rep| &&
              r[..j] == s[..j] && r[j..j + |rep|] == rep && r[j + |rep|..] == s[j + |pat|..]
  {
    match FindFrom(s, pat, 0)
    case None => s
    case Some(j) => s[..j] + rep + s[j + |pat|..]
  }

  /** The placeholder of a parameter name. */
  function Placeholder(name: string): string {
    "{" + name + "}"
  }

  /** The parameters applied in order, each to the first `{name}` left. */
  function Substitute(s: string, params: seq<(string, string)>): string {
    if params == [] then s
    else
      var last := params[|params| - 1];
      ReplaceFirst(Substitute(s, params[..|params| - 1]), Placeholder(last.0), last.1)
  }

  /** A text with no `{` holds no placeholder. */
  lemma NoBraceNoPlaceholder(s: string, name: string)
    requires '{' !in s
    ensures FindFrom(s, Placeholder(name), 0).None?
  {
    var pat := Placeholder(name);
    assert forall j :: OccursAt(s, pat, j) ==> s[j] == '{';
  }

  /** A text with no `{` is returned as it is, whatever the parameters. */
  lemma {:induction false} SubstituteNoBrace(s: string, params: seq<(string, string)>)
    requires '{' !in s
    ensures Substitute(s, params) == s
  {
    if params != [] {
      SubstituteNoBrace(s, params[..|params| - 1]);
      NoBraceNoPlaceholder(s, params[|params| - 1].0);
    }
  }

  // ---------------------------------------------------------------------
  // Translation
  // ---------------------------------------------------------------------

  /** `I18n.translations[locale]`: the two shipped tables. */
  function TableOf(locale: string, ptBR: Node, enUS: Node): (r: Option<Node>)
    ensures r.Some? <==> locale == "pt-BR" || locale == "en-US"
  {
    if locale == "pt-BR" then Some(ptBR) else if locale == "en-US" then Some(enUS) else None
  }

  /** The value `t` settles on: the path in the current locale; when a
      segment is missing there and the locale is not pt-BR, the path in pt-BR. */
  function Chosen(locale: string, ptBR: Node, enUS: Node, keys: seq<string>): Option<Node> {
    var primary := Resolve(TableOf(locale, ptBR, enUS), keys);
    if primary.Some? then primary
    else if locale != "pt-BR" then Resolve(Some(ptBR), keys)
    else None
  }

  /** `t(key, params)`: the translation with its parameters filled in, or the
      key itself when no text is found. */
  function Translate(locale: string, ptBR: Node, enUS: Node, key: string, params: seq<(string, string)>): string {
    var v := Chosen(locale, ptBR, enUS, Split(key));
    if v.Some? && v.value.Text? then Substitute(v.value.s, params) else key
  }

  /** In pt-BR a missing segment gives the key back. */
  lemma PtBRMissingGivesKey(ptBR: Node, enUS: Node, key: string, params: seq<(string, string)>)
    requires Resolve(Some(ptBR), Split(key)).None?
    ensures Translate("pt-BR", ptBR, enUS, key, params) == key
  {
  }

  /** When the path is missing in the current locale, `t` answers as pt-BR
      would, whether the pt-BR path exists or not. */
  lemma MissingFallsBack(locale: string, ptBR: Node, enUS: Node, key: string, params: seq<(string, string)>)
    requires Resolve(TableOf(locale, ptBR, enUS), Split(key)).None?
    ensures Translate(locale, ptBR, enUS, key, params) == Translate("pt-BR", ptBR, enUS, key, params)
  {
  }

  /** A locale with no table (one stored by hand) reads everything from pt-BR. */
  lemma {:induction false} UnsupportedIsPtBR(locale: string, ptBR: Node, enUS: Node, key: string, params: seq<(string, string)>)
    requires locale != "pt-BR" && locale != "en-US"
    ensures Translate(locale, ptBR, enUS, key, params) == Translate("pt-BR", ptBR, enUS, key, params)
  {
    MissingStays(None, Split(key), 0);
  }

  /** A path found in the current locale is final: if it names a sub-table
      the key comes back, even when pt-BR has a text there. */
  lemma FoundTableGivesKey(locale: string, ptBR: Node, enUS: Node, key: string, params: seq<(string, string)>)
    requires var v := Resolve(TableOf(locale, ptBR, enUS), Split(key)); v.Some? && v.value.Table?
    ensures Translate(locale, ptBR, enUS, key, params) == key
  {
  }

  /** A text found in the current locale wins over pt-BR. */
  lemma FoundTextWins(locale: string, ptBR: Node, enUS: Node, key: string, params: seq<(string, string)>)
    requires var v := Resolve(TableOf(locale, ptBR, enUS), Split(key)); v.Some? && v.value.Text?
    ensures Translate(locale, ptBR, enUS, key, params) ==
            Substitute(Resolve(TableOf(locale, ptBR, enUS), Split(key)).value.s, params)
  {
  }

  /** The locale `init` picks: a non-empty stored preference as it is,
      otherwise en-US for a browser language starting with "en", otherwise pt-BR. */
  function InitLocale(stored: Option<string>, navLang: string): (l: string)
    ensures stored.Some? && stored.value != "" ==> l == stored.value
    ensures (stored.None? || stored.value == "") ==> (l == "en-US" <==> |navLang| >= 2 && navLang[..2] == "en")
    ensures (stored.None? || stored.value == "") ==> (l == "en-US" || l == "pt-BR")
  {
    if stored.Some? && stored.value != "" then stored.value
    else if |navLang| >= 2 && navLang[..2] == "en" then "en-US"
    else "pt-BR"
  }

  /** The `I18n` object: the current locale, the two tables, and the
      `quantix_lang` preference kept in local storage. */
  class I18nService {
    var locale: string
    var storedLang: Option<string>
    const ptBR: Node
    const enUS: Node

    constructor(pt: Node, en: Node, stored: Option<string>)
      ensures locale == "pt-BR" && storedLang == stored && ptBR == pt && enUS == en
    {
      locale := "pt-BR";
      storedLang := stored;
      ptBR := pt;
      enUS := en;
    }

    /** `init` with the browser's language `navLang`. */
    method Init(navLang: string)
      modifies this`locale
      ensures locale == InitLocale(storedLang, navLang)
    {
      var stored := storedLang;
      if stored.Some? && stored.value != "" {
        locale := stored.value;
      } else if |navLang| >= 2 && navLang[..2] == "en" {
        locale := "en-US";
      } else {
        locale := "pt-BR";
      }
    }

    /** `setLocale(lang)`: a locale without a table changes nothing; a
        supported one becomes current and is stored as the preference. */
    method SetLocale(lang: string)
      modifies this`locale, this`storedLang
      ensures TableOf(lang, ptBR, enUS).None? ==> locale == old(locale) && storedLang == old(storedLang)
      ensures TableOf(lang, ptBR, enUS).Some? ==> locale == lang && storedLang == Some(lang)
    {
      if TableOf(lang, ptBR, enUS).None? {
        return;
      }
      locale := lang;
      storedLang := Some(lang);
    }

    /** The walk over the pt-BR table after a miss in another locale. */
    method FallbackLoop(keys: seq<string>) returns (v: Option<Node>)
      ensures v == Resolve(Some(ptBR), keys)
    {
      var fallback := Some(ptBR);
      var i := 0;
      while i < |keys|
        invariant 0 <= i <= |keys|
        invariant fallback == Resolve(Some(ptBR), keys[..i]) && fallback.Some?
      {
        assert keys[..i + 1][..i] == keys[..i];
        var next := Lookup(fallback, keys[i]);
        if next.None? {
          MissingStays(Some(ptBR), keys, i + 1);
          return None;
        }
        fallback := next;
        i := i + 1;
      }
      assert keys[..|keys|] == keys;
      v := fallback;
    }

    /** The parameter loop: each `{name}` replaced once, in order. */
    static method FillParams(text: string, params: seq<(string, string)>) returns (r: string)
      ensures r == Substitute(text, params)
    {
      r := text;
      var i := 0;
      while i < |params|
        invariant 0 <= i <= |params|
        invariant r == Substitute(text, params[..i])
      {
        assert params[..i + 1][..i] == params[..i];
        r := ReplaceFirst(r, "{" + params[i].0 + "}", params[i].1);
        i := i + 1;
      }
      assert params[..|params|] == params;
    }

    /** `t(key, params)` in the current locale. */
    method T(key: string, params: seq<(string, string)>) returns (r: string)
      ensures r == Translate(locale, ptBR, enUS, key, params)
    {
      var keys := Split(key);
      ghost var root := TableOf(locale, ptBR, enUS);
      var value := TableOf(locale, ptBR, enUS);
      var i := 0;
      while i < |keys|
        invariant 0 <= i <= |keys|
        invariant value == Resolve(root, keys[..i])
        invariant i > 0 ==> value.Some?
      {
        assert keys[..i + 1][..i] == keys[..i];
        var next := Lookup(value, keys[i]);
        if next.Some? {
          value := next;
          i := i + 1;
        } else {
          MissingStays(root, keys, i + 1);
          if locale != "pt-BR" {
            value := FallbackLoop(keys);
            if value.None? {
              return key;
            }
            break;
          } else {
            return key;
          }
        }
      }
      assert keys[..|keys|] == keys;
      assert value == Chosen(locale, ptBR, enUS, keys);
      if !(value.Some? && value.value.Text?) {
        return key;
      }
      r := FillParams(value.value.s, params);
    }
  }
}
