/**
 * `/wc-product-export` in index.ts. Each record gets an attribute name, from the reference
 * table row with the same `Name` or, for a variable record without one, a random "65smart"
 * name. Records are grouped by `lazada_product_id`. A group with variations becomes its variable
 * row (SKU from the reference table, or "65smarttools-" and the first variation's SKU), the
 * variations linked to it by `parent`, then its simple records; a group without variations
 * keeps only its simple records. The groups are emitted last-discovered first and each record
 * is projected onto the fixed WooCommerce column list.
 */
module Export {
  import opened Wrappers
  import opened Strings
  import opened Seqs
  import opened Sheet
  import opened Swatches
  import opened Records

  /** A row of the reference table, keyed by its header cells; an empty cell has no key. */
  type RefRow = map<string, string>
  type RefTable = seq<RefRow>

  /** `row[key]` */
  function Field(row: RefRow, key: string): Option<string> {
    if key in row then Some(row[key]) else None
  }

  // ----- attribute choice

  /** `Math.floor(100000 + Math.random() * 900000)` for a draw `d`, as decimal text. */
  function RandomSuffix(d: nat): (s: string)
    ensures |s| == 6 && AllDigits(s)
  {
    DecimalLength(100000 + d % 900000, 5);
    DecimalText(100000 + d % 900000)
  }

  function NameMatches(name: string): RefRow -> bool {
    row => Field(row, "Name") == Some(name)
  }

  /** `matchedRow["Attribute 1 name"]` for the first reference row with the given `Name`. */
  function NamedAttribute(ref: RefTable, name: string): Option<string> {
    match IndexWhere(ref, NameMatches(name))
    case Some(m) => Field(ref[m], "Attribute 1 name")
    case None => None
  }

  /**
   * `attribute` for one record: a variable record always gets a non-empty one, any other record
   * gets "" or the trimmed name from the reference table, and a non-empty attribute never
   * starts or ends with white space.
   */
  function ChooseAttribute(ref: RefTable, r: Record, draw: nat): (a: string)
    ensures r.kind == Variable ==> a != ""
    ensures r.kind != Variable && a != "" ==> NamedAttribute(ref, r.name).Some? && a == Trim(NamedAttribute(ref, r.name).value)
    ensures Unpadded(a)
  {
    var named := NamedAttribute(ref, r.name);
    if named.Some? && Trim(named.value) != "" then Trim(named.value)
    else if r.kind == Variable then "65smart" + RandomSuffix(draw)
    else ""
  }

  /**
   * The attribute a record gets: the trimmed "Attribute 1 name" of the first reference row with
   * the record's `Name`, when that is not blank; otherwise "65smart" and six random digits for a
   * variable record, and "" for any other.
   */
  lemma ChooseAttributeCases(ref: RefTable, r: Record, draw: nat)
    ensures NamedAttribute(ref, r.name).Some? && Trim(NamedAttribute(ref, r.name).value) != "" ==>
      ChooseAttribute(ref, r, draw) == Trim(NamedAttribute(ref, r.name).value)
    ensures !(NamedAttribute(ref, r.name).Some? && Trim(NamedAttribute(ref, r.name).value) != "") ==>
      && (r.kind == Variable ==>
            |ChooseAttribute(ref, r, draw)| == 13 && StartsWith(ChooseAttribute(ref, r, draw), "65smart")
            && AllDigits(ChooseAttribute(ref, r, draw)[7..]))
      && (r.kind != Variable ==> ChooseAttribute(ref, r, draw) == "")
  {
    var a := "65smart" + RandomSuffix(draw);
    assert a[..7] == "65smart" && a[7..] == RandomSuffix(draw);
  }

  /** `skuimgResult.map((item) => ({ ...item, attribute }))`, the i-th record using the i-th draw. */
  function WithAttributes(rs: seq<Record>, ref: RefTable, draws: nat -> nat): (out: seq<Record>)
    ensures |out| == |rs|
    ensures forall i :: 0 <= i < |rs| ==> out[i] == rs[i].(attribute := Some(ChooseAttribute(ref, rs[i], draws(i))))
  {
    seq(|rs|, i requires 0 <= i < |rs| => rs[i].(attribute := Some(ChooseAttribute(ref, rs[i], draws(i)))))
  }

  // ----- grouping

  /** `item.lazada_product_id ?? "__ungrouped__" + item.SKU` */
  function GroupKey(r: Record): string {
    if r.lazadaProductId.Some? then r.lazadaProductId.value else "__ungrouped__" + r.sku
  }

  function GroupKeyOf(r: Record): Option<string> {
    Some(GroupKey(r))
  }

  /** `items.filter((i) => i.type === kind)` */
  function OfKind(items: seq<Record>, kind: Kind): (out: seq<Record>)
    ensures |out| <= |items|
    ensures forall i :: 0 <= i < |out| ==> out[i].kind == kind
    ensures forall x :: x in out <==> x in items && x.kind == kind
  {
    if items == [] then []
    else
      var f := OfKind(items[..|items| - 1], kind);
      if items[|items| - 1].kind == kind then f + [items[|items| - 1]] else f
  }

  /** `filter` keeps order and multiplicity: filtering a concatenation filters each part, in turn. */
  lemma {:induction false} OfKindAppend(a: seq<Record>, b: seq<Record>, kind: Kind)
    ensures OfKind(a + b, kind) == OfKind(a, kind) + OfKind(b, kind)
  {
    if b != [] {
      var p := b[..|b| - 1];
      assert (a + b)[..|a + b| - 1] == a + p;
      assert (a + b)[|a + b| - 1] == b[|b| - 1];
      OfKindAppend(a, p, kind);
    } else {
      assert a + b == a;
    }
  }

  /** On one record, `filter` keeps it exactly when it has the type. */
  lemma OfKindSingle(x: Record, kind: Kind)
    ensures OfKind([x], kind) == if x.kind == kind then [x] else []
  {
    assert [x][..0] == [];
  }

  function IsVariableRowFor(key: string): RefRow -> bool {
    row => Field(row, "Meta: lazada_product_id") == Some(key) && Field(row, "Type") == Some("variable")
  }

  /**
   * The SKU of a group's variable row: that of the first reference row of type "variable" for
   * the group's key, or "65smarttools-" and the first variation's SKU when there is none.
   */
  function VariableSku(ref: RefTable, key: string, variations: seq<Record>): (sku: string)
    requires variations != []
    ensures IndexWhere(ref, IsVariableRowFor(key)).None? ==> sku == "65smarttools-" + variations[0].sku
    ensures IndexWhere(ref, IsVariableRowFor(key)).Some? ==>
      sku == Field(ref[IndexWhere(ref, IsVariableRowFor(key)).value], "SKU").GetOr("")
  {
    match IndexWhere(ref, IsVariableRowFor(key))
    case Some(i) => Field(ref[i], "SKU").GetOr("")
    case None => "65smarttools-" + variations[0].sku
  }

  /** `v.attributeValue?.trim()` */
  function TrimmedValue(v: Record): Option<string> {
    if v.attributeValue.Some? then Some(Trim(v.attributeValue.value)) else None
  }

  /** `[...new Set(variations.map((v) => v.attributeValue?.trim()).filter(Boolean))]` */
  function UniqueValues(variations: seq<Record>): seq<string> {
    Distinct(Compact(seq(|variations|, i requires 0 <= i < |variations| => TrimmedValue(variations[i]))))
  }

  function HasValue(value: string): Record -> bool {
    v => TrimmedValue(v) == Some(value)
  }

  /** `matchedVariation?.image || false`, for the first variation with the value. */
  function TermImageFor(variations: seq<Record>, value: string): TermImage {
    match IndexWhere(variations, HasValue(value))
    case Some(i) =>
      if variations[i].image.Some? && variations[i].image.value != "" then ImageText(variations[i].image.value) else NoImage
    case None => NoImage
  }

  /** `Object.fromEntries(uniqueValues.map(...))` */
  function TermsFor(variations: seq<Record>): Entries {
    var values := UniqueValues(variations);
    seq(|values|, i requires 0 <= i < |values| => (values[i], NewTerm(values[i], TermImageFor(variations, values[i]))))
  }

  /** `{ [attrName]: { name: attrName, type, terms } }` */
  function SwatchFor(attrName: string, variations: seq<Record>): JsonValue {
    KeyedSwatch(attrName, Swatch(attrName, if attrName == "select" then "select" else "image", TermsFor(variations)))
  }

  /** `x` is `own ?? fallback ?? ""`: the record's own value when it has one, else the fallback's, else "". */
  predicate FilledFrom(x: Option<string>, own: Option<string>, fallback: Option<string>) {
    && (own.Some? ==> x == own)
    && (own.None? && fallback.Some? ==> x == fallback)
    && (own.None? && fallback.None? ==> x == Some(""))
  }

  /** The texts and the attribute of `v` are those of `base`, each falling back to `fallback`'s, then "". */
  predicate DefaultsFrom(v: Record, base: Record, fallback: Record) {
    && FilledFrom(v.shortDescription, base.shortDescription, fallback.shortDescription)
    && FilledFrom(v.description, base.description, fallback.description)
    && FilledFrom(v.categories, base.categories, fallback.categories)
    && FilledFrom(v.image, base.image, fallback.image)
    && FilledFrom(v.attribute, base.attribute, fallback.attribute)
  }

  /**
   * `fillDefaultFields({ ...variables[0], type: "variable", SKU, attribute, attributeValue: "" }, variations[0])`
   * followed by the assignments of `attributeValue`, `json` and `swatchesAttributes`. Without a
   * variable record the row starts empty and takes its name and texts from the first variation.
   */
  function VariableRow(variables: seq<Record>, variations: seq<Record>, sku: string): (v: Record)
    requires variations != []
    ensures v.kind == Variable && v.sku == sku && v.attribute.Some?
    ensures v.json.Some? && v.json == v.swatchesAttributes
    ensures v.attributeValue == Some(Join(UniqueValues(variations), ","))
    ensures v.shortDescription.Some? && v.description.Some? && v.categories.Some? && v.image.Some?
    ensures variables != [] ==> v.id == variables[0].id && v.name == variables[0].name && v.parent == variables[0].parent
    ensures variables == [] ==> v.id == "" && v.name == variations[0].name
    ensures DefaultsFrom(v, if variables != [] then variables[0] else Blank(Variable), variations[0])
  {
    var fallback := variations[0];
    var base := if variables != [] then variables[0] else Blank(Variable).(name := fallback.name);
    var attribute := if variables != [] && variables[0].attribute.Some? then variables[0].attribute.value
                     else fallback.attribute.GetOr("");
    var swatch := Serialized(SwatchFor(Trim(attribute), variations));
    var filled := FillDefaultFields(base.(kind := Variable, sku := sku, attribute := Some(attribute)), fallback);
    filled.(attributeValue := Some(Join(UniqueValues(variations), ",")), json := Some(swatch), swatchesAttributes := Some(swatch))
  }

  /** `fillDefaultFields(base, fallback)`: each of the four texts is `base ?? fallback ?? ""`, the rest is `base`. */
  function FillDefaultFields(base: Record, fallback: Record): (r: Record)
    ensures r == base.(shortDescription := r.shortDescription, description := r.description,
                       categories := r.categories, image := r.image)
    ensures FilledFrom(r.shortDescription, base.shortDescription, fallback.shortDescription)
    ensures FilledFrom(r.description, base.description, fallback.description)
    ensures FilledFrom(r.categories, base.categories, fallback.categories)
    ensures FilledFrom(r.image, base.image, fallback.image)
  {
    base.(shortDescription := Some(Coalesce(base.shortDescription, fallback.shortDescription)),
      description := Some(Coalesce(base.description, fallback.description)),
      categories := Some(Coalesce(base.categories, fallback.categories)),
      image := Some(Coalesce(base.image, fallback.image)))
  }

  /** `{ ...v, parent: variableSku, attribute: variable.attribute, image: v.image }` */
  function Linked(variations: seq<Record>, sku: string, attribute: Option<string>): (out: seq<Record>)
    ensures |out| == |variations|
    ensures forall i :: 0 <= i < |out| ==> out[i] == variations[i].(parent := Some(sku), attribute := attribute)
  {
    seq(|variations|, i requires 0 <= i < |variations| => variations[i].(parent := Some(sku), attribute := attribute))
  }

  /** Every record carries an attribute name. */
  predicate AllAttributed(xs: seq<Record>) {
    forall x :: x in xs ==> x.attribute.Some?
  }

  /** Every simple record of `rows` is one of `items`, unchanged. */
  predicate SimplesFrom(rows: seq<Record>, items: seq<Record>) {
    forall x :: x in rows && x.kind == Simple ==> x in items
  }

  /** `groupRows` for one group. */
  function GroupRows(items: seq<Record>, key: string, ref: RefTable): (rows: seq<Record>)
    ensures SimplesFrom(rows, items)
    ensures AllAttributed(items) ==> AllAttributed(rows)
  {
    var variations := OfKind(items, Variation);
    var simples := OfKind(items, Simple);
    if variations == [] then simples
    else
      var sku := VariableSku(ref, key, variations);
      var variable := VariableRow(OfKind(items, Variable), variations, sku);
      GroupRowsKeep(variable, variations, sku, simples, items);
      [variable] + Linked(variations, sku, variable.attribute) + simples
  }

  /** Rows made of a variable row, the variations linked to it and the group's simple records. */
  lemma GroupRowsKeep(variable: Record, variations: seq<Record>, sku: string, simples: seq<Record>, items: seq<Record>)
    requires variable.kind == Variable && variable.attribute.Some?
    requires forall i :: 0 <= i < |variations| ==> variations[i].kind == Variation
    requires forall x :: x in simples <==> x in items && x.kind == Simple
    ensures SimplesFrom([variable] + Linked(variations, sku, variable.attribute) + simples, items)
    ensures AllAttributed(items) ==> AllAttributed([variable] + Linked(variations, sku, variable.attribute) + simples)
  {
    var linked := Linked(variations, sku, variable.attribute);
    assert forall i :: 0 <= i < |linked| ==> linked[i].kind == Variation && linked[i].attribute == variable.attribute;
  }

  /** The groups' rows, in order of discovery of their keys. */
  function Blocks(keys: seq<string>, items: seq<Record>, ref: RefTable): seq<seq<Record>> {
    seq(|keys|, i requires 0 <= i < |keys| => GroupRows(Members(items, GroupKeyOf, keys[i]), keys[i], ref))
  }

  /** `groupedArray.reverse().flat()` over the attributed records. */
  function ExportRecords(rs: seq<Record>, ref: RefTable, draws: nat -> nat): (out: seq<Record>)
    ensures AllAttributed(out)
    ensures SimplesFrom(out, WithAttributes(rs, ref, draws))
  {
    var attributed := WithAttributes(rs, ref, draws);
    var keys := Distinct(KeysOf(attributed, GroupKeyOf));
    BlockRowsFrom(keys, attributed, ref);
    Flatten(Reverse(Blocks(keys, attributed, ref)))
  }

  /** Every exported row has an attribute, and every simple one is one of the attributed records. */
  lemma BlockRowsFrom(keys: seq<string>, items: seq<Record>, ref: RefTable)
    requires AllAttributed(items)
    ensures AllAttributed(Flatten(Reverse(Blocks(keys, items, ref))))
    ensures SimplesFrom(Flatten(Reverse(Blocks(keys, items, ref))), items)
  {
    var bs := Blocks(keys, items, ref);
    forall x | x in Flatten(Reverse(bs))
      ensures x.attribute.Some? && (x.kind == Simple ==> x in items)
    {
      var m := FlattenReverseFrom(bs, x);
      MembersFrom(items, GroupKeyOf, keys[m]);
    }
  }

  // ----- the handler's loops

  /** `variations.forEach((v) => groupRows.push({ ...v, parent: variableSku, attribute }))` */
  method LinkVariations(variations: seq<Record>, sku: string, attribute: Option<string>) returns (out: seq<Record>)
    ensures out == Linked(variations, sku, attribute)
  {
    out := [];
    var i := 0;
    while i < |variations|
      invariant 0 <= i <= |variations|
      invariant out == Linked(variations[..i], sku, attribute)
    {
      assert variations[..i + 1] == variations[..i] + [variations[i]];
      out := out + [variations[i].(parent := Some(sku), attribute := attribute)];
      i := i + 1;
    }
    assert variations[..i] == variations;
  }

  /** `xs.forEach((x) => rows.push(x))` */
  method PushAll(rows: seq<Record>, xs: seq<Record>) returns (out: seq<Record>)
    ensures out == rows + xs
  {
    out := rows;
    var j := 0;
    while j < |xs|
      invariant 0 <= j <= |xs|
      invariant out == rows + xs[..j]
    {
      assert xs[..j + 1] == xs[..j] + [xs[j]];
      out := out + [xs[j]];
      j := j + 1;
    }
    assert xs[..j] == xs;
  }

  /** The body of `grouped.forEach`: builds one group's rows push by push. */
  method BuildGroupRows(items: seq<Record>, key: string, ref: RefTable) returns (rows: seq<Record>)
    ensures rows == GroupRows(items, key, ref)
  {
    var variations := OfKind(items, Variation);
    var variables := OfKind(items, Variable);
    var simples := OfKind(items, Simple);
    rows := [];
    if |variations| > 0 {
      var sku := VariableSku(ref, key, variations);
      var variable := VariableRow(variables, variations, sku);
      var linked := LinkVariations(variations, sku, variable.attribute);
      rows := [variable] + linked;
    }
    rows := PushAll(rows, simples);
  }

  /** `groupedArray`: the groups' rows in order of discovery of their keys. */
  method BuildGroupedArray(attributed: seq<Record>, ref: RefTable) returns (blocks: seq<seq<Record>>)
    ensures blocks == Blocks(Distinct(KeysOf(attributed, GroupKeyOf)), attributed, ref)
  {
    var order, groups := GroupBy(attributed, GroupKeyOf);
    blocks := VisitGroups(attributed, order, groups, ref);
  }

  /** `grouped.forEach(...)`: one block of rows per key, in the map's insertion order. */
  method VisitGroups(attributed: seq<Record>, order: seq<string>, groups: map<string, seq<Record>>, ref: RefTable)
    returns (blocks: seq<seq<Record>>)
    requires forall k :: k in order ==> k in groups && groups[k] == Members(attributed, GroupKeyOf, k)
    ensures blocks == Blocks(order, attributed, ref)
  {
    blocks := [];
    for i := 0 to |order|
      invariant blocks == Blocks(order[..i], attributed, ref)
    {
      var key := order[i];
      assert key in order;
      var rows := BuildGroupRows(groups[key], key, ref);
      BlocksOfSnoc(order[..i], key, attributed, ref);
      assert order[..i + 1] == order[..i] + [key];
      blocks := blocks + [rows];
    }
    assert order[..|order|] == order;
  }

  lemma BlocksOfSnoc(keys: seq<string>, key: string, items: seq<Record>, ref: RefTable)
    ensures Blocks(keys + [key], items, ref) == Blocks(keys, items, ref) + [GroupRows(Members(items, GroupKeyOf, key), key, ref)]
  {
  }

  /** Blocks over two record lists that agree on the members of every key. */
  lemma BlocksSameMembers(keys: seq<string>, a: seq<Record>, b: seq<Record>, ref: RefTable)
    requires forall i :: 0 <= i < |keys| ==> Members(a, GroupKeyOf, keys[i]) == Members(b, GroupKeyOf, keys[i])
    ensures Blocks(keys, a, ref) == Blocks(keys, b, ref)
  {
  }

  // ----- properties of the grouping

  /** Every record `WithAttributes` returns carries an attribute name. */
  lemma AttributeAlwaysSet(rs: seq<Record>, ref: RefTable, draws: nat -> nat, i: nat)
    requires i < |rs|
    ensures WithAttributes(rs, ref, draws)[i].attribute.Some?
    ensures rs[i].kind == Variable ==> WithAttributes(rs, ref, draws)[i].attribute.value != ""
  {
    ChooseAttributeCases(ref, rs[i], draws(i));
  }

  /** A group with variations as its three parts: the variable row, the linked variations, the simple records. */
  lemma GroupRowsParts(items: seq<Record>, key: string, ref: RefTable)
    requires OfKind(items, Variation) != []
    ensures GroupRows(items, key, ref) ==
      [GroupRows(items, key, ref)[0]]
        + Linked(OfKind(items, Variation), GroupRows(items, key, ref)[0].sku, GroupRows(items, key, ref)[0].attribute)
        + OfKind(items, Simple)
    ensures GroupRows(items, key, ref)[0].kind == Variable
    ensures GroupRows(items, key, ref)[0].sku == VariableSku(ref, key, OfKind(items, Variation))
  {
  }

  /**
   * A group without variations yields exactly its simple records. A group with variations
   * yields one variable row carrying the group's variable SKU, then each variation in order
   * with that SKU as `parent` and the variable row's attribute, then the simple records; the
   * group's own variable records appear only through the first of them.
   */
  lemma GroupShape(items: seq<Record>, key: string, ref: RefTable)
    ensures OfKind(items, Variation) == [] ==> GroupRows(items, key, ref) == OfKind(items, Simple)
    ensures OfKind(items, Variation) != [] ==>
      && |GroupRows(items, key, ref)| == 1 + |OfKind(items, Variation)| + |OfKind(items, Simple)|
      && GroupRows(items, key, ref)[0].kind == Variable
      && GroupRows(items, key, ref)[0].sku == VariableSku(ref, key, OfKind(items, Variation))
      && GroupRows(items, key, ref)[1 + |OfKind(items, Variation)|..] == OfKind(items, Simple)
    ensures forall i :: 0 < i <= |OfKind(items, Variation)| ==>
      GroupRows(items, key, ref)[i] ==
        OfKind(items, Variation)[i - 1].(parent := Some(GroupRows(items, key, ref)[0].sku),
                                         attribute := GroupRows(items, key, ref)[0].attribute)
    ensures forall i :: 0 < i < |GroupRows(items, key, ref)| ==> GroupRows(items, key, ref)[i].kind != Variable
  {
    if OfKind(items, Variation) != [] {
      GroupRowsParts(items, key, ref);
      LinkedRows(GroupRows(items, key, ref), OfKind(items, Variation), OfKind(items, Simple));
    }
  }

  /** The rows of a group with variations, split into the variable row, the linked variations and the simples. */
  lemma LinkedRows(rows: seq<Record>, variations: seq<Record>, simples: seq<Record>)
    requires rows != [] && rows[0].kind == Variable
    requires rows == [rows[0]] + Linked(variations, rows[0].sku, rows[0].attribute) + simples
    requires forall i :: 0 <= i < |variations| ==> variations[i].kind == Variation
    requires forall i :: 0 <= i < |simples| ==> simples[i].kind == Simple
    ensures |rows| == 1 + |variations| + |simples| && rows[1 + |variations|..] == simples
    ensures forall i :: 0 < i <= |variations| ==>
      rows[i] == variations[i - 1].(parent := Some(rows[0].sku), attribute := rows[0].attribute)
    ensures forall i :: 0 < i < |rows| ==> rows[i].kind != Variable
  {
    var linked := Linked(variations, rows[0].sku, rows[0].attribute);
    assert rows[1 + |variations|..] == simples;
    forall i | 0 < i <= |variations|
      ensures rows[i] == variations[i - 1].(parent := Some(rows[0].sku), attribute := rows[0].attribute)
    {
      assert rows[i] == linked[i - 1];
    }
    forall i | 0 < i < |rows| ensures rows[i].kind != Variable {
      if i <= |variations| {
        assert rows[i] == linked[i - 1];
      } else {
        assert rows[i] == simples[i - 1 - |variations|];
      }
    }
  }

  /** Every variation row comes after a variable row whose SKU is its `Parent`. */
  predicate ParentsBefore(rows: seq<Record>) {
    forall j :: 0 <= j < |rows| && rows[j].kind == Variation ==>
      exists i :: 0 <= i < j && rows[i].kind == Variable && rows[j].parent == Some(rows[i].sku)
  }

  lemma ParentsBeforeConcat(a: seq<Record>, b: seq<Record>)
    requires ParentsBefore(a) && ParentsBefore(b)
    ensures ParentsBefore(a + b)
  {
    var ab := a + b;
    forall j | 0 <= j < |ab| && ab[j].kind == Variation
      ensures exists i :: 0 <= i < j && ab[i].kind == Variable && ab[j].parent == Some(ab[i].sku)
    {
      if j < |a| {
        assert ab[j] == a[j];
        var i :| 0 <= i < j && a[i].kind == Variable && a[j].parent == Some(a[i].sku);
        assert ab[i] == a[i];
      } else {
        assert ab[j] == b[j - |a|];
        var i :| 0 <= i < j - |a| && b[i].kind == Variable && b[j - |a|].parent == Some(b[i].sku);
        assert ab[i + |a|] == b[i];
      }
    }
  }

  lemma {:induction false} ParentsBeforeFlatten(bs: seq<seq<Record>>)
    requires forall b :: b in bs ==> ParentsBefore(b)
    ensures ParentsBefore(Flatten(bs))
  {
    if bs != [] {
      assert forall b :: b in bs[1..] ==> b in bs;
      ParentsBeforeFlatten(bs[1..]);
      ParentsBeforeConcat(bs[0], Flatten(bs[1..]));
    }
  }

  /** A variable row followed by variations linked to its SKU. */
  lemma LinkedParentsBefore(v: Record, variations: seq<Record>, attribute: Option<string>)
    requires v.kind == Variable
    ensures ParentsBefore([v] + Linked(variations, v.sku, attribute))
  {
    var linked := Linked(variations, v.sku, attribute);
    var head := [v] + linked;
    forall j | 0 <= j < |head| && head[j].kind == Variation
      ensures exists i :: 0 <= i < j && head[i].kind == Variable && head[j].parent == Some(head[i].sku)
    {
      assert head[0] == v;
      assert head[j] == linked[j - 1];
    }
  }

  lemma GroupParentsBefore(items: seq<Record>, key: string, ref: RefTable)
    ensures ParentsBefore(GroupRows(items, key, ref))
  {
    var rows := GroupRows(items, key, ref);
    var variations := OfKind(items, Variation);
    var simples := OfKind(items, Simple);
    assert ParentsBefore(simples);
    if variations != [] {
      GroupRowsParts(items, key, ref);
      LinkedParentsBefore(rows[0], variations, rows[0].attribute);
      ParentsBeforeConcat([rows[0]] + Linked(variations, rows[0].sku, rows[0].attribute), simples);
    }
  }

  /** In the export every variation is preceded by a variable row whose SKU is its `Parent`. */
  lemma ParentPrecedes(rs: seq<Record>, ref: RefTable, draws: nat -> nat)
    ensures ParentsBefore(ExportRecords(rs, ref, draws))
  {
    var attributed := WithAttributes(rs, ref, draws);
    var keys := Distinct(KeysOf(attributed, GroupKeyOf));
    var bs := Blocks(keys, attributed, ref);
    forall b | b in Reverse(bs) ensures ParentsBefore(b) {
      ReverseMember(bs, b);
      var m :| 0 <= m < |bs| && bs[m] == b;
      GroupParentsBefore(Members(attributed, GroupKeyOf, keys[m]), keys[m], ref);
    }
    ParentsBeforeFlatten(Reverse(bs));
  }

  /**
   * The terms of a group's swatch: one per distinct non-empty trimmed option label of its
   * variations, keyed and named by that label, with the image of the first variation that has
   * it, or `false` when that variation has no image.
   */
  lemma SwatchTerms(variations: seq<Record>)
    ensures NoDup(UniqueValues(variations)) && UniqueKeys(TermsFor(variations))
    ensures forall v :: v in UniqueValues(variations) <==>
      v != "" && exists i :: 0 <= i < |variations| && TrimmedValue(variations[i]) == Some(v)
    ensures |TermsFor(variations)| == |UniqueValues(variations)|
    ensures forall k :: 0 <= k < |TermsFor(variations)| ==>
      && TermsFor(variations)[k].0 == UniqueValues(variations)[k]
      && TermsFor(variations)[k].1.name == UniqueValues(variations)[k]
      && IndexWhere(variations, HasValue(UniqueValues(variations)[k])).Some?
      && TermsFor(variations)[k].1.image ==
           (var f := variations[IndexWhere(variations, HasValue(UniqueValues(variations)[k])).value];
            if f.image.Some? && f.image.value != "" then ImageText(f.image.value) else NoImage)
  {
    var cells := seq(|variations|, i requires 0 <= i < |variations| => TrimmedValue(variations[i]));
    var values := UniqueValues(variations);
    DistinctSpec(Compact(cells));
    forall v ensures v in values <==> v != "" && exists i :: 0 <= i < |variations| && TrimmedValue(variations[i]) == Some(v) {
      CompactMember(cells, v);
      if v != "" && exists i :: 0 <= i < |variations| && TrimmedValue(variations[i]) == Some(v) {
        var i :| 0 <= i < |variations| && TrimmedValue(variations[i]) == Some(v);
        assert cells[i] == Some(v);
      }
    }
    forall k | 0 <= k < |values|
      ensures IndexWhere(variations, HasValue(values[k])).Some?
    {
      assert values[k] in values;
      var i :| 0 <= i < |variations| && TrimmedValue(variations[i]) == Some(values[k]);
      assert HasValue(values[k])(variations[i]);
    }
  }

  /**
   * The variable row of a group with variations: its option labels are the distinct labels
   * joined by commas, and `json` and `Swatches Attributes` hold the same serialised swatch,
   * which parses back to the swatch for the row's trimmed attribute name, of type "select" for
   * the name "select" and "image" otherwise, with the terms of `SwatchTerms`.
   */
  lemma VariableRowSwatch(items: seq<Record>, key: string, ref: RefTable)
    requires OfKind(items, Variation) != []
    ensures GroupRows(items, key, ref)[0].attributeValue == Some(Join(UniqueValues(OfKind(items, Variation)), ","))
    ensures GroupRows(items, key, ref)[0].attribute.Some?
    ensures GroupRows(items, key, ref)[0].json.Some?
    ensures GroupRows(items, key, ref)[0].json == GroupRows(items, key, ref)[0].swatchesAttributes
    ensures Parse(GroupRows(items, key, ref)[0].json.value) ==
      Some(KeyedSwatch(Trim(GroupRows(items, key, ref)[0].attribute.value),
        Swatch(Trim(GroupRows(items, key, ref)[0].attribute.value),
          if Trim(GroupRows(items, key, ref)[0].attribute.value) == "select" then "select" else "image",
          TermsFor(OfKind(items, Variation)))))
  {
  }

  lemma WithAttributesSnoc(rs: seq<Record>, r: Record, ref: RefTable, draws: nat -> nat)
    ensures WithAttributes(rs + [r], ref, draws) ==
      WithAttributes(rs, ref, draws) + [r.(attribute := Some(ChooseAttribute(ref, r, draws(|rs|))))]
  {
  }

  /** Adding a record with a key of its own adds its group's block after the others. */
  lemma BlocksSnoc(a: seq<Record>, x: Record, ref: RefTable)
    requires GroupKey(x) !in KeysOf(a, GroupKeyOf)
    ensures Distinct(KeysOf(a + [x], GroupKeyOf)) == Distinct(KeysOf(a, GroupKeyOf)) + [GroupKey(x)]
    ensures Blocks(Distinct(KeysOf(a + [x], GroupKeyOf)), a + [x], ref) ==
      Blocks(Distinct(KeysOf(a, GroupKeyOf)), a, ref) + [GroupRows([x], GroupKey(x), ref)]
  {
    var g := GroupKey(x);
    GroupSnoc(a, x, GroupKeyOf);
    DistinctMember(KeysOf(a, GroupKeyOf), g);
    DistinctSnoc(KeysOf(a, GroupKeyOf), g);
    var d := Distinct(KeysOf(a, GroupKeyOf));
    KeyIffMembers(a, GroupKeyOf, g);
    assert Members(a + [x], GroupKeyOf, g) == [x];
    forall i | 0 <= i < |d| ensures Members(a + [x], GroupKeyOf, d[i]) == Members(a, GroupKeyOf, d[i]) {
      assert d[i] in d;
      DistinctMember(KeysOf(a, GroupKeyOf), d[i]);
    }
    BlocksSameMembers(d, a + [x], a, ref);
    BlocksOfSnoc(d, g, a + [x], ref);
  }

  /** The rows of a new group are emitted before those of all groups discovered earlier. */
  lemma NewGroupGoesFirst(rs: seq<Record>, r: Record, ref: RefTable, draws: nat -> nat)
    requires forall i :: 0 <= i < |rs| ==> GroupKey(rs[i]) != GroupKey(r)
    ensures ExportRecords(rs + [r], ref, draws) ==
      GroupRows([r.(attribute := Some(ChooseAttribute(ref, r, draws(|rs|))))], GroupKey(r), ref)
        + ExportRecords(rs, ref, draws)
  {
    var a := WithAttributes(rs, ref, draws);
    var x := r.(attribute := Some(ChooseAttribute(ref, r, draws(|rs|))));
    WithAttributesSnoc(rs, r, ref, draws);
    KeysOfMember(a, GroupKeyOf, GroupKey(x));
    BlocksSnoc(a, x, ref);
    FlattenReverseSnoc(Blocks(Distinct(KeysOf(a, GroupKeyOf)), a, ref), GroupRows([x], GroupKey(x), ref));
  }

  /** A simple record of a group is among its rows; a variation is, with `parent` and `attribute` replaced. */
  lemma GroupKeeps(items: seq<Record>, key: string, ref: RefTable, x: Record)
    requires x in items
    ensures x.kind == Simple ==> x in GroupRows(items, key, ref)
    ensures x.kind == Variation ==>
      exists y :: y in GroupRows(items, key, ref) && y.kind == Variation && y.(parent := x.parent, attribute := x.attribute) == x
  {
    var variations := OfKind(items, Variation);
    if variations != [] {
      var rows := GroupRows(items, key, ref);
      GroupRowsParts(items, key, ref);
      var linked := Linked(variations, rows[0].sku, rows[0].attribute);
      assert rows == [rows[0]] + linked + OfKind(items, Simple);
      if x.kind == Variation {
        var y := LinkedKeeps(variations, rows[0].sku, rows[0].attribute, x);
        assert y in rows;
      }
    }
  }

  /** A linked variation is the variation with `parent` and `attribute` replaced. */
  lemma LinkedKeeps(variations: seq<Record>, sku: string, attribute: Option<string>, x: Record) returns (y: Record)
    requires x in variations
    ensures y in Linked(variations, sku, attribute) && y.kind == x.kind
    ensures y.(parent := x.parent, attribute := x.attribute) == x
  {
    var v :| 0 <= v < |variations| && variations[v] == x;
    y := Linked(variations, sku, attribute)[v];
  }

  /** Every row of the group of an attributed record is exported. */
  lemma GroupExported(rs: seq<Record>, ref: RefTable, draws: nat -> nat, j: nat)
    requires j < |rs|
    ensures WithAttributes(rs, ref, draws)[j] in
      Members(WithAttributes(rs, ref, draws), GroupKeyOf, GroupKey(WithAttributes(rs, ref, draws)[j]))
    ensures forall y :: y in GroupRows(Members(WithAttributes(rs, ref, draws), GroupKeyOf, GroupKey(WithAttributes(rs, ref, draws)[j])),
                                       GroupKey(WithAttributes(rs, ref, draws)[j]), ref) ==>
      y in ExportRecords(rs, ref, draws)
  {
    var a := WithAttributes(rs, ref, draws);
    GroupInBlocks(a, ref, j);
  }

  /** The group of `a[j]` holds it, and its rows are among the flattened blocks. */
  lemma GroupInBlocks(a: seq<Record>, ref: RefTable, j: nat)
    requires j < |a|
    ensures a[j] in Members(a, GroupKeyOf, GroupKey(a[j]))
    ensures forall y :: y in GroupRows(Members(a, GroupKeyOf, GroupKey(a[j])), GroupKey(a[j]), ref) ==>
      y in Flatten(Reverse(Blocks(Distinct(KeysOf(a, GroupKeyOf)), a, ref)))
  {
    var k := GroupKey(a[j]);
    var keys := Distinct(KeysOf(a, GroupKeyOf));
    MemberInGroup(a, GroupKeyOf, j);
    KeyIffMembers(a, GroupKeyOf, k);
    DistinctMember(KeysOf(a, GroupKeyOf), k);
    var m :| 0 <= m < |keys| && keys[m] == k;
    forall y | y in GroupRows(Members(a, GroupKeyOf, k), k, ref)
      ensures y in Flatten(Reverse(Blocks(keys, a, ref)))
    {
      BlockRowExported(keys, a, ref, m, y);
    }
  }

  /** A row of the `m`-th block is among the flattened, reversed blocks. */
  lemma BlockRowExported(keys: seq<string>, a: seq<Record>, ref: RefTable, m: nat, y: Record)
    requires m < |keys|
    requires y in GroupRows(Members(a, GroupKeyOf, keys[m]), keys[m], ref)
    ensures y in Flatten(Reverse(Blocks(keys, a, ref)))
  {
    var bs := Blocks(keys, a, ref);
    assert y in bs[m];
    FlattenReverseMember(bs, m, y);
  }

  /**
   * Nothing but variable records is lost: every simple record is exported as it is once its
   * attribute is set, and every variation is exported with only its `parent` and `attribute`
   * changed.
   */
  lemma RecordKept(rs: seq<Record>, ref: RefTable, draws: nat -> nat, j: nat)
    requires j < |rs|
    ensures rs[j].kind == Simple ==> WithAttributes(rs, ref, draws)[j] in ExportRecords(rs, ref, draws)
    ensures rs[j].kind == Variation ==>
      exists y :: y in ExportRecords(rs, ref, draws) && y.kind == Variation &&
        y.(parent := rs[j].parent, attribute := WithAttributes(rs, ref, draws)[j].attribute) == WithAttributes(rs, ref, draws)[j]
  {
    var a := WithAttributes(rs, ref, draws);
    GroupExported(rs, ref, draws, j);
    GroupKeeps(Members(a, GroupKeyOf, GroupKey(a[j])), GroupKey(a[j]), ref, a[j]);
  }

  // ----- projection

  /** A cell of the exported sheet. */
  datatype Value = Undefined | Plain(s: string) | Number(n: Num) | Constant(k: int) | Json(t: Text)

  function OptStr(v: Option<string>): Value {
    if v.Some? then Plain(v.value) else Undefined
  }

  function OptNum(v: Option<Num>): Value {
    if v.Some? then Number(v.value) else Undefined
  }

  function OptJson(v: Option<Text>): Value {
    if v.Some? then Json(v.value) else Undefined
  }

  function KindName(k: Kind): string {
    match k
    case Simple => "simple"
    case Variable => "variable"
    case Variation => "variation"
  }

  /**
   * The columns of `exportRows` whose cells hold a constant, with that constant; every other
   * column is a field of `ExportRow`.
   */
  const FixedColumns: seq<(string, Value)> := [
    ("GTIN, UPC, EAN, or ISBN", Plain("")), ("Published", Constant(1)), ("Is featured?", Constant(1)),
    ("Visibility in catalog", Plain("visible")), ("Date sale price starts", Plain("")),
    ("Date sale price ends", Plain("")), ("Tax status", Plain("taxable")), ("Tax class", Plain("")),
    ("In stock?", Plain("")), ("Low stock amount", Plain("")), ("Backorders allowed?", Constant(0)),
    ("Sold individually?", Constant(0)), ("Allow customer reviews?", Constant(0)),
    ("Purchase note", Plain("")), ("Tags", Plain("")), ("Shipping class", Plain("")),
    ("Download limit", Plain("")), ("Download expiry days", Plain("")), ("Grouped products", Plain("")),
    ("Upsells", Plain("")), ("Cross-sells", Plain("")), ("External URL", Plain("")),
    ("Button text", Plain("")), ("Position", Plain("")), ("Attribute 1 global", Constant(1))]

  /** The cells of one exported row that come from the record, by column. */
  datatype ExportRow = ExportRow(
    id: Value,                  // ID
    kind: Value,                // Type
    sku: Value,                 // SKU
    name: Value,                // Name
    shortDescription: Value,    // Short description
    description: Value,         // Description
    stock: Value,               // Stock
    weight: Value,              // Weight (kg)
    length: Value,              // Length (cm)
    width: Value,               // Width (cm)
    height: Value,              // Height (cm)
    salePrice: Value,           // Sale price
    regularPrice: Value,        // Regular price
    categories: Value,          // Categories
    images: Value,              // Images
    parent: Value,              // Parent
    swatchesAttributes: Value,  // Swatches Attributes
    brand: Value,               // Brand
    attributeName: Value,       // Attribute 1 name
    attributeValues: Value,     // Attribute 1 value(s)
    installmentVariable: Value, // Meta: is_installment_variable_attributes
    rtwpvgImages: Value,        // Meta: rtwpvg_images
    lazadaProductId: Value)     // Meta: lazada_product_id

  /** `exportRows`: one record's row, which carries every field of it except `json` and `tags`. */
  function Project(r: Record): (row: ExportRow)
    ensures FromRow(row) == r.(json := None, tags := None)
  {
    ExportRow(Plain(r.id), Plain(KindName(r.kind)), Plain(r.sku), Plain(r.name),
      OptStr(r.shortDescription), OptStr(r.description), OptNum(r.stock),
      OptNum(r.weight), OptNum(r.length), OptNum(r.width), OptNum(r.height),
      OptNum(r.salePrice), OptNum(r.regularPrice), OptStr(r.categories), OptStr(r.image),
      OptStr(r.parent), OptJson(r.swatchesAttributes), OptStr(r.brand), OptStr(r.attribute),
      OptStr(r.attributeValue), OptStr(r.installmentVariable), OptStr(r.rtwpvgImages),
      OptStr(r.lazadaProductId))
  }

  function StrOf(v: Value): Option<string> {
    if v.Plain? then Some(v.s) else None
  }

  function NumOf(v: Value): Option<Num> {
    if v.Number? then Some(v.n) else None
  }

  function JsonOf(v: Value): Option<Text> {
    if v.Json? then Some(v.t) else None
  }

  function KindOf(v: Value): Kind {
    if v == Plain("variable") then Variable else if v == Plain("variation") then Variation else Simple
  }

  /** Reading a record back from its exported row; `json` and `tags` are not exported. */
  function FromRow(row: ExportRow): Record {
    Record(StrOf(row.id).GetOr(""), KindOf(row.kind), StrOf(row.sku).GetOr(""), StrOf(row.name).GetOr(""),
      StrOf(row.shortDescription), StrOf(row.description), NumOf(row.stock), NumOf(row.salePrice),
      NumOf(row.regularPrice), NumOf(row.weight), NumOf(row.length), NumOf(row.width), NumOf(row.height),
      StrOf(row.categories), None, StrOf(row.images), StrOf(row.parent), JsonOf(row.swatchesAttributes),
      StrOf(row.brand), StrOf(row.attributeName), StrOf(row.attributeValues), StrOf(row.installmentVariable),
      StrOf(row.rtwpvgImages), None, StrOf(row.lazadaProductId))
  }

  /** Two records give the same row exactly when they agree on every field but `json` and `tags`. */
  lemma ProjectKeepsFields(a: Record, b: Record)
    ensures Project(a) == Project(b) <==> a.(json := None, tags := None) == b.(json := None, tags := None)
  {
  }

  /** The export upload decoded as the reference table, or nothing when no file came. */
  function ExportStage(acc: seq<Record>, upload: Option<RefTable>, draws: nat -> nat): (r: Result<seq<ExportRow>, Error>)
    ensures r == Err(NoData) <==> acc == []
    ensures r == Err(NoFileUploaded) <==> acc != [] && upload.None?
    ensures r.Ok? ==> |r.value| == |ExportRecords(acc, upload.value, draws)|
    ensures r.Ok? ==>
      forall i :: 0 <= i < |r.value| ==> r.value[i] == Project(ExportRecords(acc, upload.value, draws)[i])
  {
    if |acc| == 0 then Err(NoData)
    else if upload.None? then Err(NoFileUploaded)
    else
      var out := ExportRecords(acc, upload.value, draws);
      Ok(seq(|out|, i requires 0 <= i < |out| => Project(out[i])))
  }
}
