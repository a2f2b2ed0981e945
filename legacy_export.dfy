/**
 * `/wc-product-export` in src/index.ts, the older handler file. Each record gets an attribute
 * name from the reference table (untrimmed, possibly undefined) or, for a variable record
 * without a matching row, a random "65smart" name; a record whose `parent` is "id:X" then takes
 * the attribute of the record with ID X. Every variation with an option label contributes a
 * one-term object (`jsonType`); each record's `json` is the first such object for its label.
 * `combinedJson` merges, for each attribute, the `json` objects of the children of every record
 * with that attribute and an ID, a later term overwriting an earlier one with the same key.
 * Records keep their order and are projected onto the 47 export columns.
 */
module LegacyExport {
  import opened Wrappers
  import opened Strings
  import opened Seqs
  import opened Sheet
  import opened Swatches
  import opened Records
  import opened Export

  // ----- attribute choice and parent inheritance

  /**
   * The attribute a record gets: the "Attribute 1 name" cell of the first reference row with the
   * record's `Name`, as it is and undefined when the row has no such cell; without such a row,
   * "65smart" and six random digits for a variable record and "" for any other.
   */
  function LegacyAttribute(ref: RefTable, r: Record, draw: nat): (a: Option<string>)
    ensures IndexWhere(ref, NameMatches(r.name)).Some? ==>
      a == Field(ref[IndexWhere(ref, NameMatches(r.name)).value], "Attribute 1 name")
    ensures IndexWhere(ref, NameMatches(r.name)).None? && r.kind == Variable ==>
      a.Some? && |a.value| == 13 && StartsWith(a.value, "65smart") && AllDigits(a.value[7..])
    ensures IndexWhere(ref, NameMatches(r.name)).None? && r.kind != Variable ==> a == Some("")
  {
    match IndexWhere(ref, NameMatches(r.name))
    case Some(m) => Field(ref[m], "Attribute 1 name")
    case None =>
      if r.kind == Variable then
        var a := "65smart" + RandomSuffix(draw);
        assert a[..7] == "65smart" && a[7..] == RandomSuffix(draw);
        Some(a)
      else Some("")
  }

  /** The first `skuimgResult.map`, the i-th record using the i-th draw. */
  function WithLegacyAttributes(rs: seq<Record>, ref: RefTable, draws: nat -> nat): (out: seq<Record>)
    ensures |out| == |rs|
    ensures forall i :: 0 <= i < |rs| ==> out[i] == rs[i].(attribute := LegacyAttribute(ref, rs[i], draws(i)))
  {
    seq(|rs|, i requires 0 <= i < |rs| => rs[i].(attribute := LegacyAttribute(ref, rs[i], draws(i))))
  }

  /** `item.parent.replace("id:", "").trim()` for a parent that starts with "id:". */
  function ParentId(r: Record): Option<string> {
    if r.parent.Some? && StartsWith(r.parent.value, "id:") then Some(Trim(RemoveFirst(r.parent.value, "id:")))
    else None
  }

  function HasId(id: string): Record -> bool {
    (r: Record) => r.id == id
  }

  /** A record takes the attribute of the first record whose ID its parent names, if there is one. */
  function Inherit(r: Record, all: seq<Record>): (m: Record)
    ensures m == r.(attribute := m.attribute)
    ensures ParentId(r).None? ==> m == r
    ensures m.attribute != r.attribute ==>
      exists j :: 0 <= j < |all| && ParentId(r) == Some(all[j].id) && m.attribute == all[j].attribute
  {
    match ParentId(r)
    case None => r
    case Some(pid) =>
      match IndexWhere(all, HasId(pid))
      case Some(j) => r.(attribute := all[j].attribute)
      case None => r
  }

  /** The second `attributeResult.map`, which looks parents up in the first one's result. */
  function Inherited(rs: seq<Record>): (out: seq<Record>)
    ensures |out| == |rs|
    ensures forall i :: 0 <= i < |rs| ==> out[i] == Inherit(rs[i], rs)
  {
    seq(|rs|, i requires 0 <= i < |rs| => Inherit(rs[i], rs))
  }

  /** A parent "id:" followed by x names the ID `x` trimmed. */
  lemma ParentIdOf(r: Record, x: string)
    requires r.parent == Some("id:" + x)
    ensures ParentId(r) == Some(Trim(x))
  {
    var p := "id:" + x;
    assert p[..3] == "id:";
    RemoveFirstOfPrefix(p, "id:");
    assert p[3..] == x;
  }

  /**
   * A record whose parent is "id:" followed by x takes the attribute of the first record with
   * the ID `x` trimmed, and stays as it is when no record has that ID.
   */
  lemma InheritFromParent(rs: seq<Record>, i: nat, x: string)
    requires i < |rs| && rs[i].parent == Some("id:" + x)
    ensures (exists j :: 0 <= j < |rs| && rs[j].id == Trim(x)) ==>
      IndexWhere(rs, HasId(Trim(x))).Some? &&
      Inherited(rs)[i].attribute == rs[IndexWhere(rs, HasId(Trim(x))).value].attribute &&
      Inherited(rs)[i] == rs[i].(attribute := Inherited(rs)[i].attribute)
    ensures (forall j :: 0 <= j < |rs| ==> rs[j].id != Trim(x)) ==> Inherited(rs)[i] == rs[i]
  {
    ParentIdOf(rs[i], x);
    IdFound(rs, Trim(x));
    InheritWith(rs[i], rs, Trim(x));
  }

  lemma InheritWith(r: Record, all: seq<Record>, pid: string)
    requires ParentId(r) == Some(pid)
    ensures var j := IndexWhere(all, HasId(pid));
      Inherit(r, all) == if j.Some? then r.(attribute := all[j.value].attribute) else r
  {
  }

  /** `findIndex` by ID finds a record exactly when one has that ID. */
  lemma IdFound(rs: seq<Record>, id: string)
    ensures IndexWhere(rs, HasId(id)).Some? <==> exists j :: 0 <= j < |rs| && rs[j].id == id
  {
    if exists j :: 0 <= j < |rs| && rs[j].id == id {
      var j :| 0 <= j < |rs| && rs[j].id == id;
      assert HasId(id)(rs[j]);
    }
  }

  /** A record without an "id:" parent keeps the attribute it was given. */
  lemma NoParentNoInheritance(rs: seq<Record>, i: nat)
    requires i < |rs| && (rs[i].parent.None? || !StartsWith(rs[i].parent.value, "id:"))
    ensures Inherited(rs)[i] == rs[i]
  {
  }

  // ----- jsonType and json

  /** The records that contribute to `jsonType`: variations with an option label. */
  predicate IsTermSource(r: Record) {
    r.kind == Variation && r.attributeValue.Some? && r.attributeValue.value != ""
  }

  /** `{ [attributeValue]: { name: attributeValue, image: image || "", ... } }` as its one entry. */
  function TermOf(r: Record): (kv: (string, Term))
    requires IsTermSource(r)
    ensures kv.0 == r.attributeValue.value && kv.0 != "" && kv.1.name == kv.0
    ensures kv.1.image == ImageText(if r.image.Some? then r.image.value else "")
    ensures kv.1 == NewTerm(kv.0, kv.1.image)
  {
    var image := if r.image.Some? && r.image.value != "" then r.image.value else "";
    (r.attributeValue.value, NewTerm(r.attributeValue.value, ImageText(image)))
  }

  /** `jsonType`: one entry per contributing record, in order. */
  function JsonType(rs: seq<Record>): (e: Entries)
    ensures |e| <= |rs|
  {
    if rs == [] then []
    else
      var last := rs[|rs| - 1];
      JsonType(rs[..|rs| - 1]) + (if IsTermSource(last) then [TermOf(last)] else [])
  }

  /** `jsonType` keeps record order: the terms of a concatenation are those of each part, in turn. */
  lemma {:induction false} JsonTypeAppend(a: seq<Record>, b: seq<Record>)
    ensures JsonType(a + b) == JsonType(a) + JsonType(b)
  {
    if b != [] {
      var p := b[..|b| - 1];
      assert (a + b)[..|a + b| - 1] == a + p;
      assert (a + b)[|a + b| - 1] == b[|b| - 1];
      JsonTypeAppend(a, p);
    } else {
      assert a + b == a;
    }
  }

  /** `jsonType` holds exactly the terms of the contributing records. */
  lemma {:induction false} JsonTypeMember(rs: seq<Record>, kv: (string, Term))
    ensures kv in JsonType(rs) <==> exists i :: 0 <= i < |rs| && IsTermSource(rs[i]) && TermOf(rs[i]) == kv
  {
    if rs != [] {
      var p := rs[..|rs| - 1];
      JsonTypeMember(p, kv);
      assert forall i :: 0 <= i < |p| ==> p[i] == rs[i];
      if exists i :: 0 <= i < |rs| && IsTermSource(rs[i]) && TermOf(rs[i]) == kv {
        var i :| 0 <= i < |rs| && IsTermSource(rs[i]) && TermOf(rs[i]) == kv;
        if i < |p| {
          assert IsTermSource(p[i]) && TermOf(p[i]) == kv;
        }
      }
    }
  }

  function KeyIs(k: string): ((string, Term)) -> bool {
    (kv: (string, Term)) => kv.0 == k
  }

  /** `item.attributeValue || ""` */
  function LabelOf(r: Record): string {
    if r.attributeValue.Some? then r.attributeValue.value else ""
  }

  /** A variation that contributes a term under `key`. */
  function SourceFor(key: string): Record -> bool {
    (r: Record) => IsTermSource(r) && r.attributeValue == Some(key)
  }

  /** Around a contributing record, `jsonType` is the prefix's terms, its term, then the suffix's. */
  lemma JsonTypeAround(rs: seq<Record>, j: nat)
    requires j < |rs| && IsTermSource(rs[j])
    ensures JsonType(rs) == JsonType(rs[..j]) + [TermOf(rs[j])] + JsonType(rs[j + 1..])
  {
    SplitAround(rs, j);
    JsonTypeAppend(rs[..j] + [rs[j]], rs[j + 1..]);
  }

  /** Records none of which contributes under `key` give a `jsonType` with no entry for it. */
  lemma JsonTypeWithoutKey(rs: seq<Record>, key: string)
    requires forall k :: 0 <= k < |rs| ==> !SourceFor(key)(rs[k])
    ensures forall q :: 0 <= q < |JsonType(rs)| ==> !KeyIs(key)(JsonType(rs)[q])
  {
    forall q | 0 <= q < |JsonType(rs)|
      ensures !KeyIs(key)(JsonType(rs)[q])
    {
      JsonTypeMember(rs, JsonType(rs)[q]);
      var i :| 0 <= i < |rs| && IsTermSource(rs[i]) && TermOf(rs[i]) == JsonType(rs)[q];
      assert !SourceFor(key)(rs[i]);
    }
  }

  /** `rs[j]` is the first record that contributes a term under `key`. */
  predicate FirstSourceFor(rs: seq<Record>, j: nat, key: string) {
    && j < |rs| && IsTermSource(rs[j]) && rs[j].attributeValue == Some(key)
    && forall k :: 0 <= k < j ==> !(IsTermSource(rs[k]) && rs[k].attributeValue == Some(key))
  }

  /**
   * `jsonType.find` for a label reaches the term of the FIRST variation carrying that label:
   * `j` is that variation, and no earlier record contributes under the same label.
   */
  lemma JsonTypeFirst(rs: seq<Record>, key: string) returns (j: nat)
    requires exists j :: 0 <= j < |rs| && IsTermSource(rs[j]) && rs[j].attributeValue == Some(key)
    ensures FirstSourceFor(rs, j, key)
    ensures IndexWhere(JsonType(rs), KeyIs(key)).Some?
    ensures JsonType(rs)[IndexWhere(JsonType(rs), KeyIs(key)).value] == TermOf(rs[j])
  {
    var w :| 0 <= w < |rs| && IsTermSource(rs[w]) && rs[w].attributeValue == Some(key);
    assert SourceFor(key)(rs[w]);
    j := IndexWhere(rs, SourceFor(key)).value;
    assert SourceFor(key)(rs[j]);
    forall k | 0 <= k < j
      ensures !(IsTermSource(rs[k]) && rs[k].attributeValue == Some(key))
    {
      assert !SourceFor(key)(rs[k]);
    }
    var pre := rs[..j];
    JsonTypeWithoutKey(pre, key);
    JsonTypeAround(rs, j);
    FirstKeyAfter(JsonType(pre), TermOf(rs[j]), JsonType(rs[j + 1..]), KeyIs(key));
  }

  /** `find` over `a + [x] + b` stops at `x` when `x` matches and nothing in `a` does. */
  lemma FirstKeyAfter(a: Entries, x: (string, Term), b: Entries, p: ((string, Term)) -> bool)
    requires forall q :: 0 <= q < |a| ==> !p(a[q])
    requires p(x)
    ensures IndexWhere(a + [x] + b, p) == Some(|a|)
  {
    assert (a + [x] + b)[|a|] == x;
    assert forall q :: 0 <= q < |a| ==> (a + [x] + b)[q] == a[q];
  }

  /** `json`: the first `jsonType` object for the record's label, serialised, or "". */
  function WithJson(r: Record, jsonType: Entries): (m: Record)
    ensures m == r.(json := m.json) && m.json.Some?
    ensures m.json.value.Serialized? <==> exists k :: 0 <= k < |jsonType| && jsonType[k].0 == LabelOf(r)
    ensures !m.json.value.Serialized? ==> m.json == Some(Str(""))
    ensures m.json.value.Serialized? ==>
      exists k :: 0 <= k < |jsonType| && jsonType[k].0 == LabelOf(r) &&
        m.json.value == Serialized(TermObject([jsonType[k]])) && forall q :: 0 <= q < k ==> jsonType[q].0 != LabelOf(r)
  {
    match IndexWhere(jsonType, KeyIs(LabelOf(r)))
    case Some(m) => r.(json := Some(Serialized(TermObject([jsonType[m]]))))
    case None => r.(json := Some(Str("")))
  }

  /** `jsonResult = attributeResult.map(...)` */
  function JsonResult(rs: seq<Record>): (out: seq<Record>)
    ensures |out| == |rs|
    ensures forall i :: 0 <= i < |rs| ==> out[i] == WithJson(rs[i], JsonType(rs))
  {
    seq(|rs|, i requires 0 <= i < |rs| => WithJson(rs[i], JsonType(rs)))
  }

  /**
   * A record's `json` is a serialised one-term object exactly when some variation carries its
   * label; the term is then keyed by that label and comes from the first variation with it.
   */
  lemma JsonOfRecord(rs: seq<Record>, i: nat)
    requires i < |rs|
    ensures JsonResult(rs)[i].json.Some?
    ensures JsonResult(rs)[i].json.value.Serialized? <==>
      exists j :: 0 <= j < |rs| && IsTermSource(rs[j]) && rs[j].attributeValue == Some(LabelOf(rs[i]))
    ensures JsonResult(rs)[i].json.value.Serialized? ==>
      exists j: nat :: FirstSourceFor(rs, j, LabelOf(rs[i])) &&
        JsonResult(rs)[i].json.value == Serialized(TermObject([TermOf(rs[j])])) && TermOf(rs[j]).0 == LabelOf(rs[i])
  {
    var jt := JsonType(rs);
    var k := LabelOf(rs[i]);
    assert JsonResult(rs)[i] == WithJson(rs[i], jt);
    if exists j :: 0 <= j < |rs| && IsTermSource(rs[j]) && rs[j].attributeValue == Some(k) {
      var j := JsonTypeFirst(rs, k);
      assert JsonResult(rs)[i].json.value == Serialized(TermObject([TermOf(rs[j])]));
    } else {
      forall q | 0 <= q < |rs|
        ensures !SourceFor(k)(rs[q])
      {
      }
      JsonTypeWithoutKey(rs, k);
      assert IndexWhere(jt, KeyIs(k)).None?;
    }
  }

  // ----- combinedJson

  /** `combinedJson`: swatches keyed by attribute name, in insertion order. */
  type Combined = seq<(string, Swatch)>

  function SwatchIndex(c: Combined, attr: string): (r: Option<nat>)
    ensures r.Some? ==> r.value < |c| && c[r.value].0 == attr
    ensures r.None? ==> forall i :: 0 <= i < |c| ==> c[i].0 != attr
  {
    if c == [] then None
    else if c[|c| - 1].0 == attr then Some(|c| - 1)
    else SwatchIndex(c[..|c| - 1], attr)
  }

  /** The filter of `childItems`: a parent that, with "id:" removed and trimmed, is the ID. */
  predicate IsChildOf(child: Record, id: string) {
    child.parent.Some? && child.parent.value != "" && Trim(RemoveFirst(child.parent.value, "id:")) == id
  }

  /** `childItems` */
  function Children(all: seq<Record>, id: string): (cs: seq<Record>)
    ensures forall c :: c in cs <==> c in all && IsChildOf(c, id)
  {
    if all == [] then []
    else
      var last := all[|all| - 1];
      Children(all[..|all| - 1], id) + (if IsChildOf(last, id) then [last] else [])
  }

  /** `filter` keeps order and multiplicity: the children among a concatenation are each part's, in turn. */
  lemma {:induction false} ChildrenAppend(a: seq<Record>, b: seq<Record>, id: string)
    ensures Children(a + b, id) == Children(a, id) + Children(b, id)
  {
    if b != [] {
      var p := b[..|b| - 1];
      assert (a + b)[..|a + b| - 1] == a + p;
      assert (a + b)[|a + b| - 1] == b[|b| - 1];
      ChildrenAppend(a, p, id);
    } else {
      assert a + b == a;
    }
  }

  /** On one record, `filter` keeps it exactly when it is a child of the ID. */
  lemma ChildrenSingle(x: Record, id: string)
    ensures Children([x], id) == if IsChildOf(x, id) then [x] else []
  {
    assert [x][..0] == [];
  }

  /** The terms a child's `json` parses to, when it is set, not empty and parses to an object. */
  function ParsedTerms(child: Record): Option<Entries> {
    if child.json.Some? && TruthyText(child.json.value) then TermsOf(child.json.value) else None
  }

  /** One child of `childItems.forEach`: `terms = { ...terms, ...JSON.parse(child.json) }`, skipped when it does not parse. */
  function MergeChild(terms: Entries, child: Record): Entries {
    match ParsedTerms(child)
    case Some(e) => Spread(terms, e)
    case None => terms
  }

  function MergeChildren(terms: Entries, children: seq<Record>): Entries {
    if children == [] then terms
    else MergeChild(MergeChildren(terms, children[..|children| - 1]), children[|children| - 1])
  }

  /** Whether `jsonResult.forEach` does anything for a record: it has an attribute and an ID. */
  predicate IsParent(p: Record) {
    p.attribute.Some? && p.attribute.value != "" && p.id != ""
  }

  /** The body of `jsonResult.forEach` for one record `p`. */
  function AddParent(c: Combined, p: Record, all: seq<Record>): Combined {
    if IsParent(p) then
      var attr := p.attribute.value;
      var c1 := if SwatchIndex(c, attr).None? then c + [(attr, Swatch(attr, "image", []))] else c;
      var i := if SwatchIndex(c, attr).None? then |c| else SwatchIndex(c, attr).value;
      c1[i := (attr, c1[i].1.(terms := MergeChildren(c1[i].1.terms, Children(all, p.id))))]
    else c
  }

  /** Every swatch is keyed by the attribute of one of the records that has a truthy attribute and ID. */
  predicate KeyedByParents(c: Combined, parents: seq<Record>) {
    forall i :: 0 <= i < |c| ==> IsParentAttribute(parents, c[i].0)
  }

  /** Some record of `parents` has a truthy ID and the truthy attribute `attr`. */
  predicate IsParentAttribute(parents: seq<Record>, attr: string) {
    exists j :: 0 <= j < |parents| && IsParent(parents[j]) && parents[j].attribute == Some(attr)
  }

  /** One more record keeps every swatch keyed by a record that has a truthy attribute and ID. */
  lemma AddParentKeyed(c: Combined, parents: seq<Record>, p: Record, all: seq<Record>)
    requires KeyedByParents(c, parents)
    ensures |AddParent(c, p, all)| <= |c| + 1
    ensures KeyedByParents(AddParent(c, p, all), parents + [p])
  {
    var c' := AddParent(c, p, all);
    var ps := parents + [p];
    forall i | 0 <= i < |c'|
      ensures IsParentAttribute(ps, c'[i].0)
    {
      if IsParent(p) && c'[i].0 == p.attribute.value {
        assert ps[|parents|] == p;
      } else {
        assert i < |c| && c'[i].0 == c[i].0;
        var j :| 0 <= j < |parents| && IsParent(parents[j]) && parents[j].attribute == Some(c[i].0);
        assert ps[j] == parents[j];
      }
    }
  }

  /** `combinedJson` after the records `parents`, children being looked up in `all`. */
  function CombinedJson(parents: seq<Record>, all: seq<Record>): (c: Combined)
    ensures |c| <= |parents|
    ensures KeyedByParents(c, parents)
  {
    if parents == [] then []
    else
      var init := parents[..|parents| - 1];
      var p := parents[|parents| - 1];
      AddParentKeyed(CombinedJson(init, all), init, p, all);
      assert parents == init + [p];
      AddParent(CombinedJson(init, all), p, all)
  }

  // ----- reference definitions of what combinedJson holds

  /** The terms of the children, as a map in which a later child overwrites an earlier one. */
  function ChildrenMap(children: seq<Record>): map<string, Term> {
    if children == [] then map[]
    else
      var last := children[|children| - 1];
      ChildrenMap(children[..|children| - 1]) + (if ParsedTerms(last).Some? then AsMap(ParsedTerms(last).value) else map[])
  }

  /** The terms attribute `attr` collects from the records `parents`, a later one overwriting. */
  function TermsMapFor(parents: seq<Record>, all: seq<Record>, attr: string): map<string, Term> {
    if parents == [] then map[]
    else
      var p := parents[|parents| - 1];
      TermsMapFor(parents[..|parents| - 1], all, attr) +
        (if IsParent(p) && p.attribute.value == attr then ChildrenMap(Children(all, p.id)) else map[])
  }

  /** Merging children's terms into an object keeps its keys unique and overwrites as `ChildrenMap` says. */
  lemma {:induction false} MergeChildrenAsMap(terms: Entries, children: seq<Record>)
    requires UniqueKeys(terms)
    ensures UniqueKeys(MergeChildren(terms, children))
    ensures AsMap(MergeChildren(terms, children)) == AsMap(terms) + ChildrenMap(children)
  {
    if children != [] {
      var p := children[..|children| - 1];
      var last := children[|children| - 1];
      MergeChildrenAsMap(terms, p);
      var before := MergeChildren(terms, p);
      MergeChildAsMap(before, last);
      var added := if ParsedTerms(last).Some? then AsMap(ParsedTerms(last).value) else map[];
      MapUnionAssoc(AsMap(terms), ChildrenMap(p), added);
    }
  }

  /** One child's terms spread over the object, as a map update. */
  lemma MergeChildAsMap(terms: Entries, child: Record)
    requires UniqueKeys(terms)
    ensures UniqueKeys(MergeChild(terms, child))
    ensures AsMap(MergeChild(terms, child)) ==
      AsMap(terms) + (if ParsedTerms(child).Some? then AsMap(ParsedTerms(child).value) else map[])
  {
    match ParsedTerms(child)
    case Some(e) =>
      SpreadKeys(terms, e);
      SpreadAsMap(terms, e);
    case None =>
      assert AsMap(terms) + map[] == AsMap(terms);
  }

  lemma MapUnionAssoc<K, V>(a: map<K, V>, b: map<K, V>, c: map<K, V>)
    ensures (a + b) + c == a + (b + c)
  {
  }

  /** Every swatch in `combinedJson` is named after its key, has type "image" and unique term keys. */
  predicate WellFormed(c: Combined) {
    (forall i, j :: 0 <= i < j < |c| ==> c[i].0 != c[j].0) &&
    (forall i :: 0 <= i < |c| ==> c[i].1.name == c[i].0 && c[i].1.kind == "image" && UniqueKeys(c[i].1.terms))
  }

  /** Only the swatch of the record's own attribute may change, and a new one goes last. */
  lemma AddParentFrame(c: Combined, p: Record, all: seq<Record>)
    ensures |c| <= |AddParent(c, p, all)|
    ensures forall k :: 0 <= k < |c| ==> AddParent(c, p, all)[k].0 == c[k].0
    ensures forall k :: |c| <= k < |AddParent(c, p, all)| ==> IsParent(p) && AddParent(c, p, all)[k].0 == p.attribute.value
    ensures forall k :: 0 <= k < |c| && !(IsParent(p) && c[k].0 == p.attribute.value) ==> AddParent(c, p, all)[k] == c[k]
  {
  }

  lemma AddParentWellFormed(c: Combined, p: Record, all: seq<Record>)
    requires WellFormed(c)
    ensures WellFormed(AddParent(c, p, all))
  {
    if IsParent(p) {
      var attr := p.attribute.value;
      var c1 := if SwatchIndex(c, attr).None? then c + [(attr, Swatch(attr, "image", []))] else c;
      var i := if SwatchIndex(c, attr).None? then |c| else SwatchIndex(c, attr).value;
      assert UniqueKeys(c1[i].1.terms);
      MergeChildrenAsMap(c1[i].1.terms, Children(all, p.id));
    }
  }

  /** In a combined object with unique keys, the position of a key is the one holding it. */
  lemma SwatchIndexUnique(c: Combined, attr: string, i: nat)
    requires WellFormed(c) && i < |c| && c[i].0 == attr
    ensures SwatchIndex(c, attr) == Some(i)
  {
  }

  /** A record that adds nothing for `attr` leaves its swatch as it was. */
  lemma SwatchOtherKey(c: Combined, p: Record, all: seq<Record>, attr: string)
    requires WellFormed(c)
    requires !(IsParent(p) && p.attribute.value == attr)
    ensures SwatchIndex(AddParent(c, p, all), attr).Some? <==> SwatchIndex(c, attr).Some?
    ensures SwatchIndex(c, attr).Some? ==>
      AddParent(c, p, all)[SwatchIndex(AddParent(c, p, all), attr).value] == c[SwatchIndex(c, attr).value]
  {
    AddParentWellFormed(c, p, all);
    AddParentFrame(c, p, all);
    var c' := AddParent(c, p, all);
    if SwatchIndex(c, attr).Some? {
      var i := SwatchIndex(c, attr).value;
      SwatchIndexUnique(c', attr, i);
    } else {
      assert forall k :: 0 <= k < |c'| ==> c'[k].0 != attr;
    }
  }

  /** A record with attribute `attr` merges its children's terms into the swatch of `attr`. */
  lemma SwatchSameKey(c: Combined, p: Record, all: seq<Record>)
    requires WellFormed(c) && IsParent(p)
    ensures SwatchIndex(AddParent(c, p, all), p.attribute.value).Some?
    ensures AsMap(AddParent(c, p, all)[SwatchIndex(AddParent(c, p, all), p.attribute.value).value].1.terms) ==
      (if SwatchIndex(c, p.attribute.value).Some? then AsMap(c[SwatchIndex(c, p.attribute.value).value].1.terms) else map[])
        + ChildrenMap(Children(all, p.id))
  {
    var attr := p.attribute.value;
    var c1 := if SwatchIndex(c, attr).None? then c + [(attr, Swatch(attr, "image", []))] else c;
    var i := if SwatchIndex(c, attr).None? then |c| else SwatchIndex(c, attr).value;
    if SwatchIndex(c, attr).None? {
      AsMapEmpty();
    }
    MergeChildrenAsMap(c1[i].1.terms, Children(all, p.id));
    AddParentWellFormed(c, p, all);
    SwatchIndexUnique(AddParent(c, p, all), attr, i);
  }

  /** Without a record of attribute `attr` there are no terms for it. */
  lemma {:induction false} NoParentNoTerms(parents: seq<Record>, all: seq<Record>, attr: string)
    requires forall i :: 0 <= i < |parents| ==> !(IsParent(parents[i]) && parents[i].attribute.value == attr)
    ensures TermsMapFor(parents, all, attr) == map[]
  {
    if parents != [] {
      var ps := parents[..|parents| - 1];
      assert forall i :: 0 <= i < |ps| ==> ps[i] == parents[i];
      NoParentNoTerms(ps, all, attr);
    }
  }

  lemma AsMapEmpty()
    ensures AsMap([]) == map[]
  {
  }

  /** `combinedJson` keeps one well-formed swatch per attribute. */
  lemma {:induction false} CombinedJsonWellFormed(parents: seq<Record>, all: seq<Record>)
    ensures WellFormed(CombinedJson(parents, all))
  {
    if parents != [] {
      CombinedJsonWellFormed(parents[..|parents| - 1], all);
      AddParentWellFormed(CombinedJson(parents[..|parents| - 1], all), parents[|parents| - 1], all);
    }
  }

  /** Some record of `parents` has an ID and attribute `attr`. */
  predicate HasParentFor(parents: seq<Record>, attr: string) {
    exists i :: 0 <= i < |parents| && IsParent(parents[i]) && parents[i].attribute.value == attr
  }

  lemma HasParentForSnoc(parents: seq<Record>, attr: string)
    requires parents != []
    ensures var p := parents[|parents| - 1];
      HasParentFor(parents, attr) <==>
        HasParentFor(parents[..|parents| - 1], attr) || (IsParent(p) && p.attribute.value == attr)
  {
    var ps := parents[..|parents| - 1];
    if HasParentFor(parents, attr) {
      var i :| 0 <= i < |parents| && IsParent(parents[i]) && parents[i].attribute.value == attr;
      if i < |ps| {
        assert ps[i] == parents[i];
      }
    }
    if HasParentFor(ps, attr) {
      var i :| 0 <= i < |ps| && IsParent(ps[i]) && ps[i].attribute.value == attr;
      assert ps[i] == parents[i];
    }
  }

  /**
   * `combinedJson` has one swatch per attribute of a record with an ID, named after it, of type
   * "image", and its terms are those of the children of every such record with that attribute,
   * a later term overwriting an earlier one with the same key.
   */
  lemma {:induction false} CombinedJsonHolds(parents: seq<Record>, all: seq<Record>, attr: string)
    ensures WellFormed(CombinedJson(parents, all))
    ensures SwatchIndex(CombinedJson(parents, all), attr).Some? <==> HasParentFor(parents, attr)
    ensures SwatchIndex(CombinedJson(parents, all), attr).Some? ==>
      AsMap(CombinedJson(parents, all)[SwatchIndex(CombinedJson(parents, all), attr).value].1.terms)
        == TermsMapFor(parents, all, attr)
  {
    CombinedJsonWellFormed(parents, all);
    if parents != [] {
      var ps := parents[..|parents| - 1];
      CombinedJsonHolds(ps, all, attr);
      HasParentForSnoc(parents, attr);
      CombinedJsonStep(parents, all, attr);
    }
  }

  /** One record more in `jsonResult.forEach`, given what `combinedJson` held before it. */
  lemma CombinedJsonStep(parents: seq<Record>, all: seq<Record>, attr: string)
    requires parents != []
    requires var c := CombinedJson(parents[..|parents| - 1], all);
      && WellFormed(c)
      && (SwatchIndex(c, attr).Some? <==> HasParentFor(parents[..|parents| - 1], attr))
      && (SwatchIndex(c, attr).Some? ==> AsMap(c[SwatchIndex(c, attr).value].1.terms) == TermsMapFor(parents[..|parents| - 1], all, attr))
    ensures var c' := CombinedJson(parents, all);
      && (SwatchIndex(c', attr).Some? <==>
            HasParentFor(parents[..|parents| - 1], attr) || (IsParent(parents[|parents| - 1]) && parents[|parents| - 1].attribute.value == attr))
      && (SwatchIndex(c', attr).Some? ==> AsMap(c'[SwatchIndex(c', attr).value].1.terms) == TermsMapFor(parents, all, attr))
  {
    var ps, p := parents[..|parents| - 1], parents[|parents| - 1];
    var c := CombinedJson(ps, all);
    if IsParent(p) && p.attribute.value == attr {
      if SwatchIndex(c, attr).None? {
        NoParentNoTerms(ps, all, attr);
      }
      TermsForSameKey(c, ps, p, all);
    } else {
      SwatchOtherKey(c, p, all, attr);
      TermsForOtherKey(parents, all, attr);
    }
  }

  /** A record without ID or with another attribute adds no terms for `attr`. */
  lemma TermsForOtherKey(parents: seq<Record>, all: seq<Record>, attr: string)
    requires parents != []
    requires !(IsParent(parents[|parents| - 1]) && parents[|parents| - 1].attribute.value == attr)
    ensures TermsMapFor(parents, all, attr) == TermsMapFor(parents[..|parents| - 1], all, attr)
  {
    var m := TermsMapFor(parents[..|parents| - 1], all, attr);
    assert m + map[] == m;
  }

  /** A record with an ID and attribute `attr` merges its children's terms into the swatch of `attr`. */
  lemma TermsForSameKey(c: Combined, ps: seq<Record>, p: Record, all: seq<Record>)
    requires WellFormed(c) && IsParent(p)
    requires var attr := p.attribute.value;
      AsMap(if SwatchIndex(c, attr).Some? then c[SwatchIndex(c, attr).value].1.terms else []) == TermsMapFor(ps, all, attr)
    ensures var attr, c' := p.attribute.value, AddParent(c, p, all);
      SwatchIndex(c', attr).Some? && AsMap(c'[SwatchIndex(c', attr).value].1.terms) == TermsMapFor(ps + [p], all, attr)
  {
    SwatchSameKey(c, p, all);
    AsMapEmpty();
    assert (ps + [p])[..|ps|] == ps;
  }

  // ----- swatchesAttributes

  /** `item.attribute as string` used as a key: an undefined attribute reads the key "undefined". */
  function AttrKey(a: Option<string>): string {
    if a.Some? then a.value else "undefined"
  }

  /** `swatchesAttributes`: "" for a variation, otherwise the serialised swatch of its attribute or "". */
  function WithSwatches(r: Record, c: Combined): (m: Record)
    ensures m == r.(swatchesAttributes := m.swatchesAttributes) && m.swatchesAttributes.Some?
    ensures r.kind == Variation ==> m.swatchesAttributes == Some(Str(""))
    ensures r.kind != Variation ==>
      (m.swatchesAttributes.value.Serialized? <==> exists i :: 0 <= i < |c| && c[i].0 == AttrKey(r.attribute))
    ensures m.swatchesAttributes.value.Serialized? ==>
      exists i :: 0 <= i < |c| && c[i].0 == AttrKey(r.attribute) && m.swatchesAttributes.value == Serialized(SwatchObject(c[i].1))
    ensures !m.swatchesAttributes.value.Serialized? ==> m.swatchesAttributes == Some(Str(""))
  {
    var s :=
      if r.kind == Variation then Str("")
      else match SwatchIndex(c, AttrKey(r.attribute))
        case Some(i) => Serialized(SwatchObject(c[i].1))
        case None => Str("");
    r.(swatchesAttributes := Some(s))
  }

  /**
   * `jsonResult` before its swatches are set: attributes chosen and inherited, then `json`.
   * The contract gives only the length; what each record holds is stated by
   * `LegacyExportShape` (only attribute and `json` change) and `JsonOfRecord`.
   */
  function LegacyJsonResult(rs: seq<Record>, ref: RefTable, draws: nat -> nat): (out: seq<Record>)
    ensures |out| == |rs|
  {
    JsonResult(Inherited(WithLegacyAttributes(rs, ref, draws)))
  }

  /**
   * The records of the export, in the order of the accumulated list. The contract gives only the
   * length; what each record holds is stated by `LegacyExportShape` (the changed fields) and
   * `LegacySwatchOfRecord` (its swatches).
   */
  function LegacyExportRecords(rs: seq<Record>, ref: RefTable, draws: nat -> nat): (out: seq<Record>)
    ensures |out| == |rs|
  {
    SwatchesPass(LegacyJsonResult(rs, ref, draws))
  }

  /** `jsonResult.map(swatchesAttributes)` against the `combinedJson` of the same records. */
  function SwatchesPass(withJson: seq<Record>): (out: seq<Record>)
    ensures |out| == |withJson|
  {
    var combined := CombinedJson(withJson, withJson);
    seq(|withJson|, i requires 0 <= i < |withJson| => WithSwatches(withJson[i], combined))
  }

  /**
   * A record other than a variation gets, as its swatches, the serialised swatch of its
   * attribute exactly when some record with an ID has that attribute: named after it, of type
   * "image", holding the terms `TermsMapFor` collects for it; otherwise "".
   */
  lemma LegacySwatchOfRecord(rs: seq<Record>, ref: RefTable, draws: nat -> nat, i: nat)
    requires i < |rs| && rs[i].kind != Variation
    ensures var jr := LegacyJsonResult(rs, ref, draws);
      var key := AttrKey(jr[i].attribute);
      var s := LegacyExportRecords(rs, ref, draws)[i].swatchesAttributes;
      && s.Some?
      && (s.value.Serialized? <==> exists j :: 0 <= j < |jr| && IsParent(jr[j]) && jr[j].attribute.value == key)
      && (!s.value.Serialized? ==> s.value == Str(""))
      && (s.value.Serialized? ==>
            && s.value.value.SwatchObject?
            && s.value.value.swatch.name == key
            && s.value.value.swatch.kind == "image"
            && UniqueKeys(s.value.value.swatch.terms)
            && AsMap(s.value.value.swatch.terms) == TermsMapFor(jr, jr, key))
  {
    var jr := LegacyJsonResult(rs, ref, draws);
    CombinedJsonHolds(jr, jr, AttrKey(jr[i].attribute));
  }

  /**
   * The export keeps every record in place: only `attribute`, `json` and `swatchesAttributes`
   * change; a variation's swatches are "", and any other record's are the serialised swatch of
   * its attribute when `combinedJson` has one.
   */
  lemma LegacyExportShape(rs: seq<Record>, ref: RefTable, draws: nat -> nat, i: nat)
    requires i < |rs|
    ensures LegacyExportRecords(rs, ref, draws)[i].(attribute := rs[i].attribute, json := rs[i].json,
      swatchesAttributes := rs[i].swatchesAttributes) == rs[i]
    ensures rs[i].kind == Variation ==> LegacyExportRecords(rs, ref, draws)[i].swatchesAttributes == Some(Str(""))
    ensures LegacyExportRecords(rs, ref, draws)[i].swatchesAttributes.Some?
    ensures LegacyExportRecords(rs, ref, draws)[i].json.Some?
  {
  }

  // ----- projection

  /** The cells of one exported row of src/index.ts that come from the record, by column. */
  datatype LegacyRow = LegacyRow(
    id: Value,                  // ID
    kind: Value,                // Type
    sku: Value,                 // SKU
    name: Value,                // Name
    shortDescription: Value,    // Short description
    description: Value,         // Description
    stock: Value,               // Stock
    weight: Value,              // Weight (kg)
    length: Value,              // Length (cm)
    width: Value,               // Width (cm)
    height: Value,              // Height (cm)
    salePrice: Value,           // Sale price
    regularPrice: Value,        // Regular price
    categories: Value,          // Categories
    tags: Value,                // Tags
    images: Value,              // Images
    parent: Value,              // Parent
    swatchesAttributes: Value,  // Swatches Attributes
    brand: Value,               // Brand
    attributeName: Value,       // Attribute 1 name
    attributeValues: Value,     // Attribute 1 value(s)
    installmentVariable: Value, // Meta: is_installment_variable_attributes
    rtwpvgImages: Value)        // Meta: rtwpvg_images

  /**
   * The projection of one record, which carries every field of it except `json` and
   * `lazada_product_id`; the constant columns are those of `FixedColumns` but "Tags".
   */
  function LegacyProject(r: Record): (row: LegacyRow)
    ensures FromLegacyRow(row) == r.(json := None, lazadaProductId := None)
  {
    LegacyRow(Plain(r.id), Plain(KindName(r.kind)), Plain(r.sku), Plain(r.name),
      OptStr(r.shortDescription), OptStr(r.description), OptNum(r.stock),
      OptNum(r.weight), OptNum(r.length), OptNum(r.width), OptNum(r.height),
      OptNum(r.salePrice), OptNum(r.regularPrice), OptStr(r.categories), OptStr(r.tags), OptStr(r.image),
      OptStr(r.parent), OptJson(r.swatchesAttributes), OptStr(r.brand), OptStr(r.attribute),
      OptStr(r.attributeValue), OptStr(r.installmentVariable), OptStr(r.rtwpvgImages))
  }

  /** Reading a record back from its row; `json` and `lazada_product_id` are not exported. */
  function FromLegacyRow(row: LegacyRow): Record {
    Record(StrOf(row.id).GetOr(""), KindOf(row.kind), StrOf(row.sku).GetOr(""), StrOf(row.name).GetOr(""),
      StrOf(row.shortDescription), StrOf(row.description), NumOf(row.stock), NumOf(row.salePrice),
      NumOf(row.regularPrice), NumOf(row.weight), NumOf(row.length), NumOf(row.width), NumOf(row.height),
      StrOf(row.categories), StrOf(row.tags), StrOf(row.images), StrOf(row.parent), JsonOf(row.swatchesAttributes),
      StrOf(row.brand), StrOf(row.attributeName), StrOf(row.attributeValues), StrOf(row.installmentVariable),
      StrOf(row.rtwpvgImages), None, None)
  }

  /** The export of src/index.ts: the same two checks, then every record's row in order. */
  function LegacyExportStage(acc: seq<Record>, upload: Option<RefTable>, draws: nat -> nat): (r: Result<seq<LegacyRow>, Error>)
    ensures r == Err(NoData) <==> acc == []
    ensures r == Err(NoFileUploaded) <==> acc != [] && upload.None?
    ensures r.Ok? ==> |r.value| == |acc|
    ensures r.Ok? ==>
      forall i :: 0 <= i < |acc| ==> r.value[i] == LegacyProject(LegacyExportRecords(acc, upload.value, draws)[i])
  {
    if |acc| == 0 then Err(NoData)
    else if upload.None? then Err(NoFileUploaded)
    else
      Ok(LegacyRows(LegacyExportRecords(acc, upload.value, draws)))
  }

  /** With records and a reference table, the export is the rows of the records' passes in turn. */
  lemma LegacyExportStageOk(acc: seq<Record>, ref: RefTable, draws: nat -> nat)
    requires acc != []
    ensures LegacyExportStage(acc, Some(ref), draws) ==
      Ok(LegacyRows(SwatchesPass(JsonResult(Inherited(WithLegacyAttributes(acc, ref, draws))))))
  {
  }

  /** `jsonResult.map(...)` into the rows of the export. */
  function LegacyRows(out: seq<Record>): (rows: seq<LegacyRow>)
    ensures |rows| == |out|
    ensures forall i :: 0 <= i < |out| ==> rows[i] == LegacyProject(out[i])
  {
    seq(|out|, i requires 0 <= i < |out| => LegacyProject(out[i]))
  }

  // ----- the handler's loops

  /** `childItems.forEach(...)`: merges the children's terms one by one. */
  method MergeChildTerms(terms: Entries, children: seq<Record>) returns (merged: Entries)
    ensures merged == MergeChildren(terms, children)
  {
    merged := terms;
    for k := 0 to |children|
      invariant merged == MergeChildren(terms, children[..k])
    {
      assert children[..k + 1][..k] == children[..k];
      var child := children[k];
      if child.json.Some? && TruthyText(child.json.value) {
        match TermsOf(child.json.value)
        case Some(e) =>
          merged := Spread(merged, e);
        case None =>
      }
    }
    assert children[..|children|] == children;
  }

  /** `jsonResult.forEach(...)`: builds `combinedJson` record by record. */
  method BuildCombinedJson(jsonResult: seq<Record>) returns (combined: Combined)
    ensures combined == CombinedJson(jsonResult, jsonResult)
  {
    combined := [];
    for k := 0 to |jsonResult|
      invariant combined == CombinedJson(jsonResult[..k], jsonResult)
    {
      assert jsonResult[..k + 1][..k] == jsonResult[..k];
      var parentItem := jsonResult[k];
      if IsParent(parentItem) {
        var attr := parentItem.attribute.value;
        var i: nat;
        match SwatchIndex(combined, attr) {
          case None =>
            i := |combined|;
            combined := combined + [(attr, Swatch(attr, "image", []))];
          case Some(j) =>
            i := j;
        }
        var childItems := Children(jsonResult, parentItem.id);
        var terms := MergeChildTerms(combined[i].1.terms, childItems);
        combined := combined[i := (attr, combined[i].1.(terms := terms))];
      }
    }
    assert jsonResult[..|jsonResult|] == jsonResult;
  }

  /** `jsonResult.map(swatchesAttributes)` after `combinedJson` is built from the same records. */
  method ApplySwatches(jsonResult: seq<Record>) returns (out: seq<Record>)
    ensures out == SwatchesPass(jsonResult)
  {
    var combinedJson := BuildCombinedJson(jsonResult);
    out := seq(|jsonResult|, i requires 0 <= i < |jsonResult| => WithSwatches(jsonResult[i], combinedJson));
  }
}
