/**
  The request's localization table: language code to (key to value), both
  levels compared with OrdinalIgnoreCase. A dictionary with that comparer
  keeps the spelling of the key it was first given and maps every spelling
  that folds to the same upper-case text onto that one entry.
 */
module Localizations {
  import opened Wrappers
  import opened Text

  /** One entry of an ignore-case dictionary: the key as first spelled, and its value. */
  datatype Entry<V> = Entry(spelling: string, value: V)

  /** An ignore-case dictionary, indexed by the folded key. */
  type Caseless<V> = map<string, Entry<V>>

  type Table = Caseless<Caseless<string>>

  /** TryGetValue / the indexer getter: the entry whose key folds to the same text. */
  function Find<V>(d: Caseless<V>, key: string): Option<V> {
    var k := FoldCase(key);
    if k in d then Some(d[k].value) else None
  }

  /** The indexer setter `d[key] = value`: replaces the value of an existing entry and keeps its spelling. */
  function Put<V>(d: Caseless<V>, key: string, value: V): Caseless<V> {
    var k := FoldCase(key);
    d[k := Entry(if k in d then d[k].spelling else key, value)]
  }

  /** The value stored for `key` in language `languageCode`, if any. */
  function Lookup(t: Table, languageCode: string, key: string): Option<string> {
    match Find(t, languageCode)
    case None => None
    case Some(values) => Find(values, key)
  }

  /** AddLocalization: creates the language's table on first use, then sets the key. */
  function AddLocalization(t: Table, languageCode: string, key: string, value: string): Table {
    var values := match Find(t, languageCode) case Some(v) => v case None => map[];
    Put(t, languageCode, Put(values, key, value))
  }

  /** The spellings of the stored language codes, as Localizations.Keys lists them (in no particular order). */
  function Languages(t: Table): set<string> {
    set k | k in t :: t[k].spelling
  }

  // ---------------------------------------------------------------------
  // Properties

  /** Two spellings address the same entry exactly when they agree ignoring ASCII case. */
  lemma FoldCaseEqual(a: string, b: string)
    ensures FoldCase(a) == FoldCase(b) <==> |a| == |b| && forall i :: 0 <= i < |a| ==> ToUpperAscii(a[i]) == ToUpperAscii(b[i])
  {
    var fa, fb := FoldCase(a), FoldCase(b);
    if fa == fb {
      forall i | 0 <= i < |a|
        ensures ToUpperAscii(a[i]) == ToUpperAscii(b[i])
      {
        assert fa[i] == fb[i];
      }
    }
    if |a| == |b| && forall i :: 0 <= i < |a| ==> ToUpperAscii(a[i]) == ToUpperAscii(b[i]) {
      assert |fa| == |fb|;
      forall i | 0 <= i < |fa|
        ensures fa[i] == fb[i]
      {
      }
    }
  }

  /**
    After AddLocalization, looking up the same key in the same language, in
    any spelling, gives the new value; every other lookup is unchanged.
   */
  lemma LookupAfterAdd(t: Table, languageCode: string, key: string, value: string, languageCode': string, key': string)
    ensures Lookup(AddLocalization(t, languageCode, key, value), languageCode', key') ==
      if FoldCase(languageCode') == FoldCase(languageCode) && FoldCase(key') == FoldCase(key) then Some(value)
      else Lookup(t, languageCode', key')
  {
  }

  /** A later value for the same key replaces the earlier one rather than adding an entry. */
  lemma AddTwiceKeepsLast(t: Table, languageCode: string, key: string, v1: string, v2: string)
    ensures AddLocalization(AddLocalization(t, languageCode, key, v1), languageCode, key, v2)
         == AddLocalization(t, languageCode, key, v2)
  {
    var values := match Find(t, languageCode) case Some(v) => v case None => map[];
    var once := AddLocalization(t, languageCode, key, v1);
    assert Find(once, languageCode) == Some(Put(values, key, v1));
    assert Put(Put(values, key, v1), key, v2) == Put(values, key, v2);
    assert Put(once, languageCode, Put(values, key, v2)) == Put(t, languageCode, Put(values, key, v2));
  }

  /**
    The first spelling of a language code is the one kept: adding under "EN"
    after "en" leaves the stored language spelled "en" and one table for both.
   */
  lemma FirstSpellingKept(t: Table, languageCode: string, other: string, key: string, value: string)
    requires FoldCase(other) == FoldCase(languageCode)
    requires FoldCase(languageCode) in t
    ensures FoldCase(other) in AddLocalization(t, other, key, value)
    ensures AddLocalization(t, other, key, value)[FoldCase(other)].spelling == t[FoldCase(languageCode)].spelling
    ensures |AddLocalization(t, other, key, value)| == |t|
  {
  }

  /** A language seen for the first time gets a table of its own holding only the new key, under the spelling given. */
  lemma NewLanguage(t: Table, languageCode: string, key: string, value: string)
    requires Find(t, languageCode).None?
    ensures languageCode in Languages(AddLocalization(t, languageCode, key, value))
    ensures AddLocalization(t, languageCode, key, value)[FoldCase(languageCode)].value == map[FoldCase(key) := Entry(key, value)]
    ensures |AddLocalization(t, languageCode, key, value)| == |t| + 1
  {
    var t' := AddLocalization(t, languageCode, key, value);
    assert t'[FoldCase(languageCode)].spelling == languageCode;
  }
}
