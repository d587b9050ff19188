/** The storage engine under the ledger (js/data/database.js, app.js): every
    record lives under the app's key prefix as an encoded string; reads fall
    back to a default, a failed write keeps the old value, and importing a
    backup copies only the app's own keys. */
module Store {
  import opened Wrappers

  /** `CONFIG.dbPrefix`. */
  const Prefix: string := "quantix_ultimate_v2_"

  predicate HasPrefix(k: string) {
    |k| >= |Prefix| && k[..|Prefix|] == Prefix
  }

  /** Distinct keys stay distinct under the prefix. */
  lemma PrefixInjective(k1: string, k2: string)
    requires Prefix + k1 == Prefix + k2
    ensures k1 == k2
  {
    assert k1 == (Prefix + k1)[|Prefix|..];
    assert k2 == (Prefix + k2)[|Prefix|..];
  }

  /** `DB.get(key, defaultVal)` on the stored strings: an absent key or an
      empty string gives the default, and so does text the decoder rejects
      (the caught parse error). */
  function Read<T>(items: map<string, string>, key: string, defaultVal: T, parse: string -> Option<T>): (r: T)
    ensures Prefix + key !in items ==> r == defaultVal
    ensures Prefix + key in items && items[Prefix + key] == "" ==> r == defaultVal
    ensures Prefix + key in items && items[Prefix + key] != "" && parse(items[Prefix + key]).Some? ==>
              r == parse(items[Prefix + key]).value
    ensures Prefix + key in items && parse(items[Prefix + key]).None? ==> r == defaultVal
  {
    var full := Prefix + key;
    if full in items && items[full] != "" then parse(items[full]).GetOr(defaultVal) else defaultVal
  }

  /** The stored strings after `DB.set(key, val)` with `text` the encoded
      value; `fits` is false when the store refuses the write (the caught
      quota error), which leaves everything as it was. */
  function Written(items: map<string, string>, key: string, text: string, fits: bool): (r: map<string, string>)
    ensures fits ==> Prefix + key in r && r[Prefix + key] == text
    ensures !fits ==> r == items
    ensures forall k :: k != Prefix + key ==> (k in r <==> k in items)
    ensures forall k :: k in items && k != Prefix + key ==> r[k] == items[k]
  {
    if fits then items[Prefix + key := text] else items
  }

  /** Writing a value and reading it back under the same key gives the value,
      for any encoder whose text is never empty and that the decoder undoes
      (as `JSON.stringify` and `JSON.parse` are for plain records). */
  lemma ReadAfterWrite<T>(items: map<string, string>, key: string, v: T, defaultVal: T,
                          encode: T -> string, parse: string -> Option<T>)
    requires encode(v) != "" && parse(encode(v)) == Some(v)
    ensures Read(Written(items, key, encode(v), true), key, defaultVal, parse) == v
  {
  }

  /** A write under one key leaves what every other key reads. */
  lemma WriteFrame<T>(items: map<string, string>, key: string, other: string, text: string, fits: bool,
                      defaultVal: T, parse: string -> Option<T>)
    requires other != key
    ensures Read(Written(items, key, text, fits), other, defaultVal, parse) == Read(items, other, defaultVal, parse)
  {
    if Prefix + other == Prefix + key {
      PrefixInjective(other, key);
    }
  }

  /** A refused write reads as before. */
  lemma FailedWriteKeepsValue<T>(items: map<string, string>, key: string, text: string,
                                 defaultVal: T, parse: string -> Option<T>)
    ensures Read(Written(items, key, text, false), key, defaultVal, parse) == Read(items, key, defaultVal, parse)
  {
  }

  /** The backing store: the raw strings under their full keys. */
  class KeyValueStore {
    var items: map<string, string>

    constructor (items: map<string, string>)
      ensures this.items == items
    {
      this.items := items;
    }

    /** `DB.get(key, defaultVal)`. */
    method Get<T>(key: string, defaultVal: T, parse: string -> Option<T>) returns (r: T)
      ensures r == Read(items, key, defaultVal, parse)
    {
      var full := Prefix + key;
      if full in items && items[full] != "" {
        var parsed := parse(items[full]);
        if parsed.Some? {
          return parsed.value;
        }
      }
      return defaultVal;
    }

    /** `DB.set(key, val)` with `text` the encoded value. */
    method Set(key: string, text: string, fits: bool)
      modifies this`items
      ensures items == Written(old(items), key, text, fits)
    {
      if fits {
        items := items[Prefix + key := text];
      }
    }

    /** The store after `importData`: with a backup that parsed, each of its
        pairs, in order, whose key carries the prefix is copied; a backup that
        did not parse changes nothing. */
    method Import(backup: Option<seq<(string, string)>>)
      modifies this`items
      ensures backup.None? ==> items == old(items)
      ensures backup.Some? ==> items == Imported(old(items), backup.value)
    {
      if backup.None? {
        return;
      }
      var d := backup.value;
      var i := 0;
      while i < |d|
        invariant 0 <= i <= |d|
        invariant items == Imported(old(items), d[..i])
      {
        assert d[..i + 1][..i] == d[..i];
        var (k, v) := d[i];
        if |k| >= |Prefix| && k[..|Prefix|] == Prefix {
          items := items[k := v];
        }
        i := i + 1;
      }
      assert d[..|d|] == d;
    }
  }

  /** The stored strings after copying the prefixed pairs of `pairs` in order. */
  function Imported(items: map<string, string>, pairs: seq<(string, string)>): map<string, string> {
    if pairs == [] then items
    else
      var before := Imported(items, pairs[..|pairs| - 1]);
      var (k, v) := pairs[|pairs| - 1];
      if HasPrefix(k) then before[k := v] else before
  }

  /** Whether `pairs` has a pair with key `k`. */
  predicate Mentions(pairs: seq<(string, string)>, k: string) {
    exists j :: 0 <= j < |pairs| && pairs[j].0 == k
  }

  /** The value of the last pair with key `k`. */
  function LastValue(pairs: seq<(string, string)>, k: string): string
    requires Mentions(pairs, k)
  {
    if pairs[|pairs| - 1].0 == k then pairs[|pairs| - 1].1
    else
      assert Mentions(pairs[..|pairs| - 1], k) by {
        var j :| 0 <= j < |pairs| && pairs[j].0 == k;
        assert pairs[..|pairs| - 1][j].0 == k;
      }
      LastValue(pairs[..|pairs| - 1], k)
  }

  /** After an import, a key without the prefix, or one the backup does not
      mention, holds what it held before; a prefixed key the backup mentions
      holds the backup's last value for it. */
  lemma {:induction false} ImportedSpec(items: map<string, string>, pairs: seq<(string, string)>, k: string)
    ensures !HasPrefix(k) || !Mentions(pairs, k) ==>
              (k in Imported(items, pairs) <==> k in items) &&
              (k in items ==> Imported(items, pairs)[k] == items[k])
    ensures HasPrefix(k) && Mentions(pairs, k) ==>
              k in Imported(items, pairs) && Imported(items, pairs)[k] == LastValue(pairs, k)
  {
    if pairs != [] {
      var init := pairs[..|pairs| - 1];
      ImportedSpec(items, init, k);
      if Mentions(init, k) {
        assert Mentions(pairs, k) by {
          var j :| 0 <= j < |init| && init[j].0 == k;
          assert pairs[j].0 == k;
        }
      }
      if pairs[|pairs| - 1].0 != k && Mentions(pairs, k) {
        var j :| 0 <= j < |pairs| && pairs[j].0 == k;
        assert init[j].0 == k;
      }
    }
  }

  /** A backup entry written for a ledger key is what that key reads after
      the import, when no later entry replaces it. */
  lemma ImportThenRead<T>(items: map<string, string>, pairs: seq<(string, string)>, key: string,
                          defaultVal: T, parse: string -> Option<T>)
    requires Mentions(pairs, Prefix + key)
    ensures Read(Imported(items, pairs), key, defaultVal, parse) ==
            (if LastValue(pairs, Prefix + key) == "" then defaultVal
             else parse(LastValue(pairs, Prefix + key)).GetOr(defaultVal))
  {
    assert (Prefix + key)[..|Prefix|] == Prefix;
    ImportedSpec(items, pairs, Prefix + key);
  }
}
