/** Sequence operations behind the handlers' `Set`s, `Map`s, `reverse` and `flat`. */
module Seqs {
  import opened Wrappers

  predicate NoDup<T(==)>(s: seq<T>) {
    forall i, j :: 0 <= i < j < |s| ==> s[i] != s[j]
  }

  /** Dropping the last element of a duplicate-free sequence leaves one without that element. */
  lemma NoDupInit<T>(s: seq<T>)
    requires NoDup(s) && s != []
    ensures NoDup(s[..|s| - 1]) && s[|s| - 1] !in s[..|s| - 1]
  {
    var p := s[..|s| - 1];
    forall k | 0 <= k < |p| ensures p[k] != s[|s| - 1] {
      assert s[k] == p[k];
    }
  }

  /** Position of the first occurrence of `x` in `s`. */
  function FirstIndex<T(==)>(s: seq<T>, x: T): (i: nat)
    requires x in s
    ensures i < |s| && s[i] == x && x !in s[..i]
  {
    if s[0] == x then 0
    else
      var i := 1 + FirstIndex(s[1..], x);
      assert s[..i] == [s[0]] + s[1..][..i - 1];
      i
  }

  lemma {:induction false} FirstIndexUnique<T>(s: seq<T>, x: T, i: nat)
    requires i < |s| && s[i] == x
    requires forall k :: 0 <= k < i ==> s[k] != x
    ensures x in s && FirstIndex(s, x) == i
  {
    if s[0] != x {
      FirstIndexUnique(s[1..], x, i - 1);
    }
  }

  lemma FirstIndexOfPrefix<T>(s: seq<T>, t: seq<T>, x: T)
    requires x in s
    ensures x in s + t && FirstIndex(s + t, x) == FirstIndex(s, x)
  {
    var i := FirstIndex(s, x);
    forall k | 0 <= k < i ensures (s + t)[k] != x {
      assert s[..i][k] == s[k];
    }
    FirstIndexUnique(s + t, x, i);
  }

  /** `[...new Set(s)]`: the elements of `s` without repeats, each where it was first seen. */
  function Distinct<T(==)>(s: seq<T>): seq<T>
  {
    if s == [] then []
    else
      var d := Distinct(s[..|s| - 1]);
      if s[|s| - 1] in d then d else d + [s[|s| - 1]]
  }

  lemma DistinctSnoc<T>(s: seq<T>, x: T)
    ensures Distinct(s + [x]) == if x in Distinct(s) then Distinct(s) else Distinct(s) + [x]
  {
    assert (s + [x])[..|s|] == s;
  }

  /** `Distinct` keeps exactly the elements of `s`, once each, in order of first appearance. */
  lemma {:induction false} DistinctSpec<T>(s: seq<T>)
    ensures NoDup(Distinct(s))
    ensures forall x :: x in Distinct(s) <==> x in s
    ensures forall i, j :: 0 <= i < j < |Distinct(s)| ==>
      FirstIndex(s, Distinct(s)[i]) < FirstIndex(s, Distinct(s)[j])
  {
    if s != [] {
      var p, x := s[..|s| - 1], s[|s| - 1];
      assert s == p + [x];
      DistinctSpec(p);
      var d := Distinct(p);
      forall y | y in p ensures FirstIndex(s, y) == FirstIndex(p, y) {
        FirstIndexOfPrefix(p, [x], y);
      }
      if x !in d {
        assert FirstIndex(s, x) == |p| by {
          assert s[|p|] == x;
          assert s[..|p|] == p;
        }
      }
    }
  }

  lemma DistinctMember<T>(s: seq<T>, x: T)
    ensures x in Distinct(s) <==> x in s
  {
    DistinctSpec(s);
  }

  /** The keys that `key` gives the elements of `xs`, in order, repeats included. */
  function KeysOf<X>(xs: seq<X>, key: X -> Option<string>): seq<string>
  {
    if xs == [] then []
    else
      var ks := KeysOf(xs[..|xs| - 1], key);
      match key(xs[|xs| - 1])
      case Some(k) => ks + [k]
      case None => ks
  }

  /** The elements of `xs` whose key is `k`, in order. */
  function Members<X>(xs: seq<X>, key: X -> Option<string>, k: string): seq<X>
  {
    if xs == [] then []
    else
      var ms := Members(xs[..|xs| - 1], key, k);
      if key(xs[|xs| - 1]) == Some(k) then ms + [xs[|xs| - 1]] else ms
  }

  lemma GroupSnoc<X>(xs: seq<X>, x: X, key: X -> Option<string>)
    ensures KeysOf(xs + [x], key) == KeysOf(xs, key) + (if key(x).Some? then [key(x).value] else [])
    ensures forall k :: Members(xs + [x], key, k) == Members(xs, key, k) + (if key(x) == Some(k) then [x] else [])
  {
    assert (xs + [x])[..|xs|] == xs;
  }

  /** Every element with a key is among the members of its key. */
  lemma {:induction false} MemberInGroup<X>(xs: seq<X>, key: X -> Option<string>, j: nat)
    requires j < |xs| && key(xs[j]).Some?
    ensures xs[j] in Members(xs, key, key(xs[j]).value)
  {
    var p := xs[..|xs| - 1];
    if j < |xs| - 1 {
      assert xs[j] == p[j];
      MemberInGroup(p, key, j);
    }
  }

  /** A key occurs exactly when some element carries it. */
  lemma {:induction false} KeyIffMembers<X>(xs: seq<X>, key: X -> Option<string>, k: string)
    ensures k in KeysOf(xs, key) <==> Members(xs, key, k) != []
  {
    if xs != [] {
      KeyIffMembers(xs[..|xs| - 1], key, k);
    }
  }

  /** A key occurs exactly when some element gives it. */
  lemma {:induction false} KeysOfMember<X>(xs: seq<X>, key: X -> Option<string>, k: string)
    ensures k in KeysOf(xs, key) <==> exists j :: 0 <= j < |xs| && key(xs[j]) == Some(k)
  {
    if xs != [] {
      var p := xs[..|xs| - 1];
      KeysOfMember(p, key, k);
      if exists j :: 0 <= j < |p| && key(p[j]) == Some(k) {
        var j :| 0 <= j < |p| && key(p[j]) == Some(k);
        assert xs[j] == p[j];
      }
      if exists j :: 0 <= j < |xs| && key(xs[j]) == Some(k) {
        var j :| 0 <= j < |xs| && key(xs[j]) == Some(k);
        if j < |p| {
          assert p[j] == xs[j];
        }
      }
    }
  }

  /** Every member carries the key it was collected under. */
  lemma {:induction false} MembersHaveKey<X>(xs: seq<X>, key: X -> Option<string>, k: string)
    ensures forall i :: 0 <= i < |Members(xs, key, k)| ==> key(Members(xs, key, k)[i]) == Some(k)
  {
    if xs != [] {
      MembersHaveKey(xs[..|xs| - 1], key, k);
    }
  }

  lemma {:induction false} KeysOfAppend<X>(xs: seq<X>, ys: seq<X>, key: X -> Option<string>)
    ensures KeysOf(xs + ys, key) == KeysOf(xs, key) + KeysOf(ys, key)
  {
    if ys == [] {
      assert xs + ys == xs;
    } else {
      var p, y := ys[..|ys| - 1], ys[|ys| - 1];
      assert ys == p + [y];
      assert xs + ys == (xs + p) + [y];
      KeysOfAppend(xs, p, key);
      GroupSnoc(xs + p, y, key);
      GroupSnoc(p, y, key);
    }
  }

  /** The present results of `f` over `xs`, in order: a map followed by a filter. */
  function Collect<X, Y>(xs: seq<X>, f: X -> Option<Y>): seq<Y>
  {
    if xs == [] then []
    else
      var last := f(xs[|xs| - 1]);
      Collect(xs[..|xs| - 1], f) + (if last.Some? then [last.value] else [])
  }

  lemma {:induction false} CollectAppend<X, Y>(xs: seq<X>, ys: seq<X>, f: X -> Option<Y>)
    ensures Collect(xs + ys, f) == Collect(xs, f) + Collect(ys, f)
  {
    if ys != [] {
      var p := ys[..|ys| - 1];
      assert (xs + ys)[..|xs + ys| - 1] == xs + p;
      CollectAppend(xs, p, f);
    } else {
      assert xs + ys == xs;
    }
  }

  lemma {:induction false} CollectMember<X, Y>(xs: seq<X>, f: X -> Option<Y>, y: Y)
    ensures y in Collect(xs, f) <==> exists j :: 0 <= j < |xs| && f(xs[j]) == Some(y)
  {
    if xs != [] {
      var p := xs[..|xs| - 1];
      CollectMember(p, f, y);
      if exists j :: 0 <= j < |xs| && f(xs[j]) == Some(y) {
        var j :| 0 <= j < |xs| && f(xs[j]) == Some(y);
        if j < |p| {
          assert f(p[j]) == Some(y);
        }
      }
      if exists j :: 0 <= j < |p| && f(p[j]) == Some(y) {
        var j :| 0 <= j < |p| && f(p[j]) == Some(y);
        assert f(xs[j]) == Some(y);
      }
    }
  }

  /** Appending a block whose elements all carry key `owner` adds the block to `owner`'s members only. */
  lemma MembersOfBlock<X>(xs: seq<X>, block: seq<X>, key: X -> Option<string>, owner: string, k: string)
    requires forall x :: x in block ==> key(x) == Some(owner)
    ensures Members(xs + block, key, k) == Members(xs, key, k) + (if owner == k then block else [])
  {
    MembersAppend(xs, block, key, k);
    if owner == k {
      MembersAll(block, key, k);
    } else {
      MembersNone(block, key, k);
    }
  }

  lemma {:induction false} MembersAppend<X>(xs: seq<X>, ys: seq<X>, key: X -> Option<string>, k: string)
    ensures Members(xs + ys, key, k) == Members(xs, key, k) + Members(ys, key, k)
  {
    if ys == [] {
      assert xs + ys == xs;
    } else {
      var p, y := ys[..|ys| - 1], ys[|ys| - 1];
      assert ys == p + [y];
      assert xs + ys == (xs + p) + [y];
      MembersAppend(xs, p, key, k);
      GroupSnoc(xs + p, y, key);
      GroupSnoc(p, y, key);
    }
  }

  /** Selecting a key that every element carries keeps them all. */
  /** The members of a group are drawn from the list. */
  lemma {:induction false} MembersFrom<X>(xs: seq<X>, key: X -> Option<string>, k: string)
    ensures forall x :: x in Members(xs, key, k) ==> x in xs
  {
    if xs != [] {
      var p := xs[..|xs| - 1];
      MembersFrom(p, key, k);
      assert forall x :: x in p ==> x in xs;
    }
  }

  lemma {:induction false} MembersAll<X>(xs: seq<X>, key: X -> Option<string>, k: string)
    requires forall i :: 0 <= i < |xs| ==> key(xs[i]) == Some(k)
    ensures Members(xs, key, k) == xs
  {
    if xs != [] {
      var p := xs[..|xs| - 1];
      MembersAll(p, key, k);
      assert xs == p + [xs[|xs| - 1]];
    }
  }

  /** Selecting a key that no element carries gives nothing. */
  lemma {:induction false} MembersNone<X>(xs: seq<X>, key: X -> Option<string>, k: string)
    requires forall i :: 0 <= i < |xs| ==> key(xs[i]) != Some(k)
    ensures Members(xs, key, k) == []
  {
    if xs != [] {
      MembersNone(xs[..|xs| - 1], key, k);
    }
  }

  /** The position of the first element whose key is `k`, if any. */
  function FirstWith<X>(xs: seq<X>, key: X -> Option<string>, k: string): (r: Option<nat>)
    ensures r.None? <==> forall j :: 0 <= j < |xs| ==> key(xs[j]) != Some(k)
    ensures r.Some? ==>
      r.value < |xs| && key(xs[r.value]) == Some(k) &&
      forall j :: 0 <= j < r.value ==> key(xs[j]) != Some(k)
  {
    if xs == [] then None
    else
      var f := FirstWith(xs[..|xs| - 1], key, k);
      if f.Some? then f
      else if key(xs[|xs| - 1]) == Some(k) then Some(|xs| - 1)
      else None
  }

  /** The first element keyed `a` stands before the first element keyed `b`. */
  predicate FirstBefore<X>(xs: seq<X>, key: X -> Option<string>, a: string, b: string) {
    && FirstWith(xs, key, a).Some?
    && FirstWith(xs, key, b).Some?
    && FirstWith(xs, key, a).value < FirstWith(xs, key, b).value
  }

  lemma FirstWithSnoc<X>(p: seq<X>, x: X, key: X -> Option<string>, k: string)
    ensures FirstWith(p + [x], key, k) ==
      if FirstWith(p, key, k).Some? then FirstWith(p, key, k)
      else if key(x) == Some(k) then Some(|p|)
      else None
  {
    assert (p + [x])[..|p|] == p;
  }

  /** A key among the keys has a first element. */
  lemma KeyHasFirst<X>(xs: seq<X>, key: X -> Option<string>, k: string)
    requires k in Distinct(KeysOf(xs, key))
    ensures FirstWith(xs, key, k).Some?
  {
    DistinctMember(KeysOf(xs, key), k);
    KeysOfMember(xs, key, k);
  }

  /** The keys `d` are listed in the order in which their first elements stand in `xs`. */
  predicate InFirstOrder<X>(xs: seq<X>, key: X -> Option<string>, d: seq<string>) {
    forall i, j :: 0 <= i < j < |d| ==> FirstBefore(xs, key, d[i], d[j])
  }

  /** The distinct keys come in the order in which their first elements stand. */
  lemma {:induction false} DistinctKeysInOrder<X>(xs: seq<X>, key: X -> Option<string>)
    ensures InFirstOrder(xs, key, Distinct(KeysOf(xs, key)))
  {
    if xs == [] {
      assert KeysOf(xs, key) == [];
      assert Distinct(KeysOf(xs, key)) == [];
    } else {
      var p, x := xs[..|xs| - 1], xs[|xs| - 1];
      assert xs == p + [x];
      DistinctKeysInOrder(p, key);
      GroupSnoc(p, x, key);
      var dp := Distinct(KeysOf(p, key));
      forall k | k in dp ensures FirstWith(p, key, k).Some? && FirstWith(xs, key, k) == FirstWith(p, key, k) {
        KeyHasFirst(p, key, k);
        FirstWithSnoc(p, x, key, k);
      }
      InOrderKept(p, xs, key, dp);
      if key(x).Some? && key(x).value !in dp {
        var k := key(x).value;
        DistinctSnoc(KeysOf(p, key), k);
        DistinctMember(KeysOf(p, key), k);
        KeysOfMember(p, key, k);
        FirstWithSnoc(p, x, key, k);
        InOrderExtended(xs, key, dp, k, |p|);
      } else if key(x).Some? {
        DistinctSnoc(KeysOf(p, key), key(x).value);
      } else {
        assert KeysOf(xs, key) == KeysOf(p, key);
      }
    }
  }

  /** Keys whose first elements stay where they were keep their order. */
  lemma InOrderKept<X>(p: seq<X>, xs: seq<X>, key: X -> Option<string>, d: seq<string>)
    requires InFirstOrder(p, key, d)
    requires forall k :: k in d ==> FirstWith(xs, key, k) == FirstWith(p, key, k)
    ensures InFirstOrder(xs, key, d)
  {
    forall i, j | 0 <= i < j < |d| ensures FirstBefore(xs, key, d[i], d[j]) {
      assert d[i] in d && d[j] in d;
      assert FirstBefore(p, key, d[i], d[j]);
    }
  }

  /** A key whose first element comes after those of all listed keys may be listed last. */
  lemma InOrderExtended<X>(xs: seq<X>, key: X -> Option<string>, d: seq<string>, k: string, n: nat)
    requires InFirstOrder(xs, key, d)
    requires forall k' :: k' in d ==> FirstWith(xs, key, k').Some? && FirstWith(xs, key, k').value < n
    requires FirstWith(xs, key, k) == Some(n)
    ensures InFirstOrder(xs, key, d + [k])
  {
    var d' := d + [k];
    forall i, j | 0 <= i < j < |d'| ensures FirstBefore(xs, key, d'[i], d'[j]) {
      assert d'[i] == d[i] && d[i] in d;
      if j < |d| {
        assert d'[j] == d[j];
        assert FirstBefore(xs, key, d[i], d[j]);
      }
    }
  }

  /** Of two distinct keys, the one listed first has the earlier first element. */
  lemma DistinctKeyBefore<X>(xs: seq<X>, key: X -> Option<string>, i: nat, j: nat)
    requires i < j < |Distinct(KeysOf(xs, key))|
    ensures FirstBefore(xs, key, Distinct(KeysOf(xs, key))[i], Distinct(KeysOf(xs, key))[j])
  {
    DistinctKeysInOrder(xs, key);
  }

  /**
   * A `Map<string, X[]>` filled by the loop `if (!m.has(k)) m.set(k, []); m.get(k)!.push(x)`:
   * the keys in insertion order and, under each, the elements carrying it.
   */
  method GroupBy<X>(xs: seq<X>, key: X -> Option<string>) returns (order: seq<string>, groups: map<string, seq<X>>)
    ensures order == Distinct(KeysOf(xs, key))
    ensures forall k :: k in groups <==> k in order
    ensures forall k :: k in groups ==> groups[k] == Members(xs, key, k)
  {
    order, groups := [], map[];
    for i := 0 to |xs|
      invariant order == Distinct(KeysOf(xs[..i], key))
      invariant forall k :: k in groups <==> k in order
      invariant forall k :: k in groups ==> groups[k] == Members(xs[..i], key, k)
    {
      order, groups := AddToGroup(xs[..i], xs[i], key, order, groups);
      assert xs[..i + 1] == xs[..i] + [xs[i]];
    }
    assert xs[..|xs|] == xs;
  }

  /** One step of `GroupBy`: file `x` under its key, opening the group when the key is new. */
  method AddToGroup<X>(xs: seq<X>, x: X, key: X -> Option<string>, order: seq<string>, groups: map<string, seq<X>>)
    returns (order': seq<string>, groups': map<string, seq<X>>)
    requires order == Distinct(KeysOf(xs, key))
    requires forall k :: k in groups <==> k in order
    requires forall k :: k in groups ==> groups[k] == Members(xs, key, k)
    ensures order' == Distinct(KeysOf(xs + [x], key))
    ensures forall k :: k in groups' <==> k in order'
    ensures forall k :: k in groups' ==> groups'[k] == Members(xs + [x], key, k)
  {
    GroupSnoc(xs, x, key);
    order', groups' := order, groups;
    match key(x)
    case Some(k) =>
      DistinctSnoc(KeysOf(xs, key), k);
      DistinctMember(KeysOf(xs, key), k);
      if k !in groups {
        KeyIffMembers(xs, key, k);
        order' := order + [k];
        groups' := groups[k := []];
      }
      groups' := groups'[k := groups'[k] + [x]];
    case None =>
  }

  /**
   * The `Map` a loop of `if (k) m.set(k, v)` leaves behind, where `entry` gives each element's
   * key and value (or nothing): a later element overwrites an earlier one with the same key.
   */
  function Lookup<X, V>(xs: seq<X>, entry: X -> Option<(string, V)>): map<string, V>
  {
    if xs == [] then map[]
    else
      var m := Lookup(xs[..|xs| - 1], entry);
      match entry(xs[|xs| - 1])
      case Some(kv) => m[kv.0 := kv.1]
      case None => m
  }

  lemma LookupSnoc<X, V>(xs: seq<X>, x: X, entry: X -> Option<(string, V)>)
    ensures Lookup(xs + [x], entry) == match entry(x) case Some(kv) => Lookup(xs, entry)[kv.0 := kv.1] case None => Lookup(xs, entry)
  {
    assert (xs + [x])[..|xs|] == xs;
  }

  predicate KeyedBy<X, V>(entry: X -> Option<(string, V)>, x: X, k: string) {
    entry(x).Some? && entry(x).value.0 == k
  }

  /**
   * Last row wins: a key is present exactly when some element gives it, and its value is the one
   * given by the last element with that key.
   */
  lemma {:induction false} LastRowWins<X, V>(xs: seq<X>, entry: X -> Option<(string, V)>, k: string)
    ensures k in Lookup(xs, entry) <==> exists j :: 0 <= j < |xs| && KeyedBy(entry, xs[j], k)
    ensures k in Lookup(xs, entry) ==>
      exists j :: 0 <= j < |xs| && entry(xs[j]) == Some((k, Lookup(xs, entry)[k])) &&
        forall j' :: j < j' < |xs| ==> !KeyedBy(entry, xs[j'], k)
  {
    if xs != [] {
      var p, x := xs[..|xs| - 1], xs[|xs| - 1];
      assert xs == p + [x];
      LastRowWins(p, entry, k);
      if KeyedBy(entry, x, k) {
        assert entry(xs[|xs| - 1]) == Some((k, Lookup(xs, entry)[k]));
      } else {
        assert Lookup(xs, entry) == Lookup(p, entry) || entry(x).value.0 != k;
        if exists j :: 0 <= j < |xs| && KeyedBy(entry, xs[j], k) {
          var j :| 0 <= j < |xs| && KeyedBy(entry, xs[j], k);
          assert KeyedBy(entry, p[j], k);
        }
        if k in Lookup(p, entry) {
          var j :| 0 <= j < |p| && entry(p[j]) == Some((k, Lookup(p, entry)[k]))
            && forall j' :: j < j' < |p| ==> !KeyedBy(entry, p[j'], k);
          assert entry(xs[j]) == Some((k, Lookup(xs, entry)[k]));
        }
      }
    }
  }

  /** No element gives the key `k`. */
  ghost predicate NoneKeyed<X, V>(xs: seq<X>, entry: X -> Option<(string, V)>, k: string) {
    forall j :: 0 <= j < |xs| ==> !KeyedBy(entry, xs[j], k)
  }

  /** The last element that gives the key `k` gives it the value `v`. */
  ghost predicate LastKeyed<X, V>(xs: seq<X>, entry: X -> Option<(string, V)>, k: string, v: V) {
    exists j :: 0 <= j < |xs| && entry(xs[j]) == Some((k, v)) &&
      forall j' :: j < j' < |xs| ==> !KeyedBy(entry, xs[j'], k)
  }

  /** `LastRowWins` in the two cases a reader of `m.get(k)` sees. */
  lemma GetFromLookup<X, V>(xs: seq<X>, entry: X -> Option<(string, V)>, k: string)
    ensures k !in Lookup(xs, entry) <==> NoneKeyed(xs, entry, k)
    ensures k in Lookup(xs, entry) ==> LastKeyed(xs, entry, k, Lookup(xs, entry)[k])
  {
    LastRowWins(xs, entry, k);
  }

  /** Reading two sequences one after the other: the second one's keys win. */
  lemma {:induction false} LookupAppend<X, V>(xs: seq<X>, ys: seq<X>, entry: X -> Option<(string, V)>)
    ensures Lookup(xs + ys, entry) == Lookup(xs, entry) + Lookup(ys, entry)
  {
    if ys == [] {
      assert xs + ys == xs;
    } else {
      var p, y := ys[..|ys| - 1], ys[|ys| - 1];
      assert ys == p + [y];
      assert xs + ys == (xs + p) + [y];
      LookupAppend(xs, p, entry);
      LookupSnoc(xs + p, y, entry);
      LookupSnoc(p, y, entry);
    }
  }

  /** `s.findIndex(p)`: the position of the first element satisfying `p`, if any. */
  function IndexWhere<T>(s: seq<T>, p: T -> bool): (r: Option<nat>)
    ensures r.None? <==> forall i :: 0 <= i < |s| ==> !p(s[i])
    ensures r.Some? ==> r.value < |s| && p(s[r.value]) && forall i :: 0 <= i < r.value ==> !p(s[i])
  {
    if s == [] then None
    else if p(s[0]) then Some(0)
    else match IndexWhere(s[1..], p)
      case Some(i) => Some(i + 1)
      case None => None
  }

  /** `s.reverse()` */
  function Reverse<T>(s: seq<T>): (r: seq<T>)
    ensures |r| == |s|
    ensures forall i :: 0 <= i < |s| ==> r[i] == s[|s| - 1 - i]
  {
    if s == [] then [] else Reverse(s[1..]) + [s[0]]
  }

  /** `ss.flat()` */
  function Flatten<T>(ss: seq<seq<T>>): seq<T>
  {
    if ss == [] then [] else ss[0] + Flatten(ss[1..])
  }

  /** A sequence is its part before `j`, its element at `j` and its part after `j`. */
  lemma SplitAround<T>(s: seq<T>, j: nat)
    requires j < |s|
    ensures s == s[..j] + [s[j]] + s[j + 1..]
    ensures (s[..j] + [s[j]])[..j] == s[..j]
  {
  }

  /** `reverse()` keeps the elements. */
  lemma ReverseMember<T>(s: seq<T>, x: T)
    ensures x in Reverse(s) <==> x in s
  {
    if x in s {
      var i :| 0 <= i < |s| && s[i] == x;
      assert Reverse(s)[|s| - 1 - i] == x;
    }
  }

  lemma {:induction false} ReverseSnoc<T>(s: seq<T>, x: T)
    ensures Reverse(s + [x]) == [x] + Reverse(s)
  {
    if s != [] {
      assert (s + [x])[1..] == s[1..] + [x];
      ReverseSnoc(s[1..], x);
    }
  }

  lemma {:induction false} FlattenAppend<T>(a: seq<seq<T>>, b: seq<seq<T>>)
    ensures Flatten(a + b) == Flatten(a) + Flatten(b)
  {
    if a == [] {
      assert a + b == b;
    } else {
      assert (a + b)[1..] == a[1..] + b;
      FlattenAppend(a[1..], b);
    }
  }

  /** An element of one block is an element of the flattened blocks. */
  lemma {:induction false} FlattenMember<T>(bs: seq<seq<T>>, m: nat, x: T)
    requires m < |bs| && x in bs[m]
    ensures x in Flatten(bs)
  {
    if m > 0 {
      FlattenMember(bs[1..], m - 1, x);
    }
  }

  /** Every element of the flattened blocks, in either order, comes from one of the blocks. */
  lemma {:induction false} FlattenReverseFrom<T>(bs: seq<seq<T>>, x: T) returns (m: nat)
    requires x in Flatten(Reverse(bs))
    ensures m < |bs| && x in bs[m]
  {
    var b := FlattenFrom(Reverse(bs), x);
    m := |bs| - 1 - b;
  }

  /** Every element of the flattened blocks comes from one of the blocks. */
  lemma {:induction false} FlattenFrom<T>(bs: seq<seq<T>>, x: T) returns (m: nat)
    requires x in Flatten(bs)
    ensures m < |bs| && x in bs[m]
  {
    if x in bs[0] {
      m := 0;
    } else {
      var k := FlattenFrom(bs[1..], x);
      m := k + 1;
    }
  }

  /** An element of one block is an element of the reversed, flattened blocks. */
  lemma FlattenReverseMember<T>(bs: seq<seq<T>>, m: nat, x: T)
    requires m < |bs| && x in bs[m]
    ensures x in Flatten(Reverse(bs))
  {
    assert Reverse(bs)[|bs| - 1 - m] == bs[m];
    FlattenMember(Reverse(bs), |bs| - 1 - m, x);
  }

  /** `[...blocks, b].reverse().flat()`: a block added last is emitted before all earlier ones. */
  lemma FlattenReverseSnoc<T>(bs: seq<seq<T>>, b: seq<T>)
    ensures Flatten(Reverse(bs + [b])) == b + Flatten(Reverse(bs))
  {
    ReverseSnoc(bs, b);
    FlattenAppend([b], Reverse(bs));
    assert Flatten([b]) == b + Flatten([]);
  }
}
