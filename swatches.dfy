/**
 * The swatch metadata the export writes into `json` and `swatchesAttributes`: terms, term
 * objects and attribute swatches as values, `JSON.stringify` as the constructor `Serialized`
 * (so it is injective) and `JSON.parse` as its partial inverse.
 */
module Swatches {
  import opened Wrappers
  import opened Seqs

  /** A term's `image`: a link text, or the `false` index.ts writes when no variation has an image. */
  datatype TermImage = ImageText(url: string) | NoImage

  /** `{ name, color, image, show_tooltip, tooltip_text, tooltip_image, image_size }` */
  datatype Term = Term(name: string, color: string, image: TermImage, showTooltip: string,
                       tooltipText: string, tooltipImage: string, imageSize: string)

  /** The term both files build for an option label: no colour, no tooltip, image size "38448". */
  function NewTerm(name: string, image: TermImage): Term {
    Term(name, "", image, "", "", "", "38448")
  }

  /** An object of terms keyed by option label; keys in insertion order. */
  type Entries = seq<(string, Term)>

  /** `{ name, type, terms }` for one attribute. */
  datatype Swatch = Swatch(name: string, kind: string, terms: Entries)

  /** The three shapes the handlers serialise. */
  datatype JsonValue =
    | TermObject(terms: Entries)             // `{ [label]: term }`
    | SwatchObject(swatch: Swatch)           // `{ name, type, terms }`
    | KeyedSwatch(key: string, swatch: Swatch) // `{ [attribute]: { name, type, terms } }`

  /** A text field: plain text, or what `JSON.stringify` made of a value. */
  datatype Text = Str(s: string) | Serialized(value: JsonValue)

  /** JavaScript truthiness of a text field; serialised JSON is never empty. */
  predicate TruthyText(t: Text) {
    t.Serialized? || t.s != ""
  }

  /** `JSON.parse`: only serialised values parse. */
  function Parse(t: Text): (r: Option<JsonValue>)
    ensures r.Some? <==> t.Serialized?
    ensures t.Serialized? ==> r == Some(t.value)
  {
    match t
    case Serialized(v) => Some(v)
    case Str(_) => None
  }

  /** `JSON.parse(t)` used as an object of terms: `None` when it does not parse to one. */
  function TermsOf(t: Text): Option<Entries> {
    match Parse(t)
    case Some(TermObject(e)) => Some(e)
    case _ => None
  }

  predicate UniqueKeys(e: Entries) {
    forall i, j :: 0 <= i < j < |e| ==> e[i].0 != e[j].0
  }

  function AsEntry(kv: (string, Term)): Option<(string, Term)> {
    Some(kv)
  }

  /** The object's contents as a map; of two entries with one key, the later counts. */
  function AsMap(e: Entries): map<string, Term> {
    Lookup(e, AsEntry)
  }

  /** The position of key `k`, if the object has it. */
  function IndexOfKey(e: Entries, k: string): (r: Option<nat>)
    ensures r.Some? ==> r.value < |e| && e[r.value].0 == k
    ensures r.None? ==> forall i :: 0 <= i < |e| ==> e[i].0 != k
  {
    if e == [] then None
    else if e[0].0 == k then Some(0)
    else match IndexOfKey(e[1..], k)
      case Some(i) => Some(i + 1)
      case None => None
  }

  /** `obj[k] = v`: an existing key keeps its position, a new key goes last. */
  function Put(e: Entries, k: string, v: Term): Entries {
    match IndexOfKey(e, k)
    case Some(i) => e[i := (k, v)]
    case None => e + [(k, v)]
  }

  /** `{ ...a, ...b }` */
  function Spread(a: Entries, b: Entries): Entries
    decreases |b|
  {
    if b == [] then a else Spread(Put(a, b[0].0, b[0].1), b[1..])
  }

  /** In an object with unique keys, every entry is what the map gives for its key. */
  lemma AsMapOfUnique(e: Entries)
    requires UniqueKeys(e)
    ensures forall k :: k in AsMap(e) <==> exists i :: 0 <= i < |e| && e[i].0 == k
    ensures forall i :: 0 <= i < |e| ==> e[i].0 in AsMap(e) && AsMap(e)[e[i].0] == e[i].1
  {
    forall k ensures k in AsMap(e) <==> exists i :: 0 <= i < |e| && e[i].0 == k {
      LastRowWins(e, AsEntry, k);
      if exists i :: 0 <= i < |e| && e[i].0 == k {
        var i :| 0 <= i < |e| && e[i].0 == k;
        assert KeyedBy(AsEntry, e[i], k);
      }
    }
    forall i | 0 <= i < |e| ensures e[i].0 in AsMap(e) && AsMap(e)[e[i].0] == e[i].1 {
      var k := e[i].0;
      LastRowWins(e, AsEntry, k);
      assert KeyedBy(AsEntry, e[i], k);
      var j :| 0 <= j < |e| && AsEntry(e[j]) == Some((k, AsMap(e)[k]));
      assert e[j].0 == e[i].0;
    }
  }

  /** Setting a key keeps the keys unique and the existing keys where they were. */
  lemma PutKeys(e: Entries, k: string, v: Term)
    requires UniqueKeys(e)
    ensures UniqueKeys(Put(e, k, v))
    ensures |Put(e, k, v)| >= |e| && forall i :: 0 <= i < |e| ==> Put(e, k, v)[i].0 == e[i].0
  {
  }

  /** Setting a key of an object with unique keys updates the map at that key and nowhere else. */
  lemma PutAsMap(e: Entries, k: string, v: Term)
    requires UniqueKeys(e)
    ensures AsMap(Put(e, k, v)) == AsMap(e)[k := v]
  {
    match IndexOfKey(e, k)
    case None =>
      LookupSnoc(e, (k, v), AsEntry);
    case Some(i) =>
      ReplaceAsMap(e, k, v, i);
  }

  /** Replacing the entry of an existing key `k` updates the map at `k`. */
  lemma ReplaceAsMap(e: Entries, k: string, v: Term, i: nat)
    requires UniqueKeys(e) && i < |e| && e[i].0 == k
    ensures AsMap(e[i := (k, v)]) == AsMap(e)[k := v]
  {
    var m, m' := AsMap(e[i := (k, v)]), AsMap(e)[k := v];
    AsMapOfUnique(e);
    forall x ensures x in m <==> x in m' {
      ReplaceKeys(e, k, v, i, x);
    }
    forall x | x in m ensures m[x] == m'[x] {
      ReplaceValue(e, k, v, i, x);
    }
  }

  lemma ReplaceKeys(e: Entries, k: string, v: Term, i: nat, x: string)
    requires UniqueKeys(e) && i < |e| && e[i].0 == k
    ensures x in AsMap(e[i := (k, v)]) <==> x in AsMap(e)
  {
    var r := e[i := (k, v)];
    assert forall j :: 0 <= j < |r| ==> r[j].0 == e[j].0;
    AsMapOfUnique(e);
    AsMapOfUnique(r);
    if x in AsMap(e) {
      var j :| 0 <= j < |e| && e[j].0 == x;
      assert r[j].0 == x;
    }
    if x in AsMap(r) {
      var j :| 0 <= j < |r| && r[j].0 == x;
      assert e[j].0 == x;
    }
  }

  lemma ReplaceValue(e: Entries, k: string, v: Term, i: nat, x: string)
    requires UniqueKeys(e) && i < |e| && e[i].0 == k
    requires x in AsMap(e[i := (k, v)])
    ensures x in AsMap(e) && AsMap(e[i := (k, v)])[x] == if x == k then v else AsMap(e)[x]
  {
    var r := e[i := (k, v)];
    assert forall j :: 0 <= j < |r| ==> r[j].0 == e[j].0;
    AsMapOfUnique(e);
    AsMapOfUnique(r);
    var j :| 0 <= j < |r| && r[j].0 == x;
    assert AsMap(r)[r[j].0] == r[j].1;
    if j != i {
      assert r[j] == e[j];
      assert AsMap(e)[e[j].0] == e[j].1;
    }
  }

  lemma AsMapAppend(a: Entries, b: Entries)
    ensures AsMap(a + b) == AsMap(a) + AsMap(b)
    decreases |b|
  {
    if b != [] {
      var p, x := b[..|b| - 1], b[|b| - 1];
      assert a + b == (a + p) + [x];
      assert b == p + [x];
      LookupSnoc(a + p, x, AsEntry);
      LookupSnoc(p, x, AsEntry);
      AsMapAppend(a, p);
    } else {
      assert a + b == a;
    }
  }

  /** `{ ...a, ...b }` keeps keys unique and the keys of `a` in their positions. */
  lemma {:induction false} SpreadKeys(a: Entries, b: Entries)
    requires UniqueKeys(a)
    ensures UniqueKeys(Spread(a, b))
    ensures |Spread(a, b)| >= |a| && forall i :: 0 <= i < |a| ==> Spread(a, b)[i].0 == a[i].0
    decreases |b|
  {
    if b != [] {
      PutKeys(a, b[0].0, b[0].1);
      SpreadKeys(Put(a, b[0].0, b[0].1), b[1..]);
    }
  }

  lemma AsMapSingleton(kv: (string, Term))
    ensures AsMap([kv]) == map[kv.0 := kv.1]
  {
    LookupSnoc([], kv, AsEntry);
    assert [] + [kv] == [kv];
  }

  lemma MergeAfterUpdate<K, V>(m: map<K, V>, k: K, v: V, n: map<K, V>)
    ensures m[k := v] + n == m + (map[k := v] + n)
  {
  }

  /**
   * `{ ...a, ...b }` over an object with unique keys holds what `a` followed by `b` holds when a
   * later entry overwrites an earlier one with the same key: `a`'s map updated by `b`'s.
   */
  lemma {:induction false} SpreadAsMap(a: Entries, b: Entries)
    requires UniqueKeys(a)
    ensures AsMap(Spread(a, b)) == AsMap(a) + AsMap(b)
    decreases |b|
  {
    if b != [] {
      var kv, rest := b[0], b[1..];
      var a' := Put(a, kv.0, kv.1);
      PutKeys(a, kv.0, kv.1);
      SpreadAsMap(a', rest);
      PutAsMap(a, kv.0, kv.1);
      assert b == [kv] + rest;
      AsMapAppend([kv], rest);
      AsMapSingleton(kv);
      MergeAfterUpdate(AsMap(a), kv.0, kv.1, AsMap(rest));
    }
  }

  /** The same, against the entries of both objects read one after the other. */
  lemma SpreadAsConcat(a: Entries, b: Entries)
    requires UniqueKeys(a)
    ensures AsMap(Spread(a, b)) == AsMap(a + b)
  {
    SpreadAsMap(a, b);
    AsMapAppend(a, b);
  }
}
