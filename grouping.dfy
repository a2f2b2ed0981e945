/**
 * `/skuimg` in index.ts: the rows of the first worksheet grouped by product id (column 0). A
 * product with one row becomes one `simple` record; a product with several rows becomes one
 * `variable` record and one `variation` per row. All simple and variable records come first, in
 * order of first appearance of their product id, then the variation blocks in the same order.
 */
module Grouping {
  import opened Wrappers
  import opened Strings
  import opened Seqs
  import opened Sheet
  import opened Records
  import opened Enrichment

  /** The label of a row that names no option ("no option" in Thai). */
  const NoOption: string := "ไม่มีตัวเลือก"

  function ProductIdOf(row: Row): Option<string> {
    KeyAt(row, 0)
  }

  /** `r[16] || NoOption` */
  function OptionLabel(row: Row): (l: string)
    ensures l != ""
    ensures Truthy(At(row, 16)) ==> l == At(row, 16).value
    ensures !Truthy(At(row, 16)) ==> l == NoOption
  {
    if Truthy(At(row, 16)) then At(row, 16).value else NoOption
  }

  /** `rows.map((r) => r[16] || NoOption)` */
  function Labels(rows: Grid): seq<string> {
    seq(|rows|, i requires 0 <= i < |rows| => OptionLabel(rows[i]))
  }

  /** The keys of `productMap`, in insertion order. */
  function ProductIds(grid: Grid): seq<string> {
    Distinct(KeysOf(grid, ProductIdOf))
  }

  /** `productMap.get(id)`: the rows carrying the product id, in row order. */
  function RowsOf(grid: Grid, id: string): Grid {
    Members(grid, ProductIdOf, id)
  }

  function FirstRow(rows: Grid): Row {
    if rows == [] then [] else rows[0]
  }

  /** The record `seen` holds for a product. */
  function ParentRecord(id: string, rows: Grid): (r: Record)
    ensures r.lazadaProductId == Some(id)
    ensures r.kind == Variable <==> |rows| > 1
    ensures r.kind != Variable ==> r.kind == Simple
    ensures r.name == Text(At(FirstRow(rows), 2)) && r.image == Some(ImageList(FirstRow(rows), 7, 15))
    ensures r.kind == Simple ==> r.sku == Text(At(FirstRow(rows), 15)) && r.attributeValue == Some(Text(At(FirstRow(rows), 16)))
    ensures r.kind == Variable ==> r.sku == "" && r.attributeValue.Some?
  {
    var first := FirstRow(rows);
    var name := Text(At(first, 2));
    var image := ImageList(first, 7, 15);
    if |rows| > 1 then
      Blank(Variable).(name := name, image := Some(image),
        attributeValue := Some(Join(Distinct(Labels(rows)), ",")), lazadaProductId := Some(id))
    else
      Blank(Simple).(sku := Text(At(first, 15)), name := name, image := Some(image),
        attributeValue := Some(Text(At(first, 16))), lazadaProductId := Some(id))
  }

  /** The record pushed onto `variations` for one row of a product named `name`. */
  function VariationRecord(id: string, name: string, row: Row): (r: Record)
    ensures IsVariationOf(r, name, row)
    ensures r.lazadaProductId == Some(id) && r.attributeValue.value != ""
    ensures r.image == Some(Text(At(row, 7))) && r.rtwpvgImages == Some(ImageList(row, 7, 15))
    ensures r.installmentVariable == Some("yes")
  {
    var option := OptionLabel(row);
    Blank(Variation).(sku := Text(At(row, 15)), name := name + " - " + option,
      image := Some(Text(At(row, 7))), attributeValue := Some(option),
      installmentVariable := Some("yes"), rtwpvgImages := Some(ImageList(row, 7, 15)),
      lazadaProductId := Some(id))
  }

  /** The variations of one product: one per row when it has several rows, none otherwise. */
  function VariationsOf(id: string, rows: Grid): seq<Record> {
    if |rows| > 1 then
      var name := Text(At(rows[0], 2));
      seq(|rows|, i requires 0 <= i < |rows| => VariationRecord(id, name, rows[i]))
    else []
  }

  function Parents(ids: seq<string>, grid: Grid): seq<Record> {
    seq(|ids|, i requires 0 <= i < |ids| => ParentRecord(ids[i], RowsOf(grid, ids[i])))
  }

  function VariationBlocks(ids: seq<string>, grid: Grid): seq<Record> {
    if ids == [] then []
    else
      var id := ids[|ids| - 1];
      VariationBlocks(ids[..|ids| - 1], grid) + VariationsOf(id, RowsOf(grid, id))
  }

  /** `[...seen.values(), ...variations]` */
  function Grouped(grid: Grid): (out: seq<Record>)
    ensures |ProductIds(grid)| <= |out|
    ensures forall i :: 0 <= i < |ProductIds(grid)| ==>
      out[i] == ParentRecord(ProductIds(grid)[i], RowsOf(grid, ProductIds(grid)[i]))
    ensures out[|ProductIds(grid)|..] == VariationBlocks(ProductIds(grid), grid)
  {
    var ids := ProductIds(grid);
    Parents(ids, grid) + VariationBlocks(ids, grid)
  }

  /**
   * The two `forEach` loops of `/skuimg`: `productMap` is filled row by row, then each product
   * adds its record to `seen` and, when it has several rows, pushes its variations. `seen` is
   * kept as the sequence of its values, since every product id is set once.
   */
  method GroupProducts(grid: Grid) returns (records: seq<Record>)
    ensures records == Grouped(grid)
  {
    var order, productMap := GroupBy(grid, ProductIdOf);
    var seen, variations := VisitProducts(grid, order, productMap);
    records := seen + variations;
  }

  /** `productMap.forEach(...)`: every product in insertion order, starting from empty `seen` and `variations`. */
  method VisitProducts(grid: Grid, order: seq<string>, productMap: map<string, Grid>)
    returns (seen: seq<Record>, variations: seq<Record>)
    requires forall id :: id in order ==> id in productMap && productMap[id] == RowsOf(grid, id)
    ensures seen == Parents(order, grid)
    ensures variations == VariationBlocks(order, grid)
  {
    seen, variations := [], [];
    for i := 0 to |order|
      invariant seen == Parents(order[..i], grid)
      invariant variations == VariationBlocks(order[..i], grid)
    {
      var productId := order[i];
      assert productId in order;
      var rows := productMap[productId];
      seen, variations := VisitProduct(grid, order[..i], productId, rows, seen, variations);
      assert order[..i + 1] == order[..i] + [productId];
    }
    assert order[..|order|] == order;
  }

  /** The callback of `productMap.forEach` for one product and its rows. */
  method VisitProduct(grid: Grid, ids: seq<string>, productId: string, rows: Grid, seen: seq<Record>, variations: seq<Record>)
    returns (seen': seq<Record>, variations': seq<Record>)
    requires rows == RowsOf(grid, productId)
    requires seen == Parents(ids, grid) && variations == VariationBlocks(ids, grid)
    ensures seen' == Parents(ids + [productId], grid)
    ensures variations' == VariationBlocks(ids + [productId], grid)
  {
    ParentsSnoc(ids, productId, grid);
    BlocksSnoc(ids, productId, grid);
    seen' := seen + [ParentRecord(productId, rows)];
    if |rows| > 1 {
      var block := PushVariations(productId, rows);
      variations' := variations + block;
    } else {
      assert VariationsOf(productId, rows) == [];
      assert variations + [] == variations;
      variations' := variations;
    }
  }

  /** `rows.forEach((r) => variations.push(...))` for a product with several rows. */
  method PushVariations(productId: string, rows: Grid) returns (block: seq<Record>)
    requires |rows| > 1
    ensures block == VariationsOf(productId, rows)
  {
    var nameProduct := Text(At(rows[0], 2));
    block := [];
    for j := 0 to |rows|
      invariant block == seq(j, k requires 0 <= k < j => VariationRecord(productId, nameProduct, rows[k]))
    {
      block := block + [VariationRecord(productId, nameProduct, rows[j])];
    }
  }

  lemma ParentsSnoc(ids: seq<string>, id: string, grid: Grid)
    ensures Parents(ids + [id], grid) == Parents(ids, grid) + [ParentRecord(id, RowsOf(grid, id))]
  {
  }

  lemma BlocksSnoc(ids: seq<string>, id: string, grid: Grid)
    ensures VariationBlocks(ids + [id], grid) == VariationBlocks(ids, grid) + VariationsOf(id, RowsOf(grid, id))
  {
    assert (ids + [id])[..|ids|] == ids;
  }

  // ----- properties

  /** The product a record belongs to. */
  function ProductOf(r: Record): Option<string> {
    r.lazadaProductId
  }

  /** The records of `rs` that belong to product `id`, in order. */
  function ForProduct(rs: seq<Record>, id: string): seq<Record> {
    Members(rs, ProductOf, id)
  }

  /** Among the records `seen` holds, a product's own record is the only one that belongs to it. */
  lemma {:induction false} ParentsForProduct(ids: seq<string>, grid: Grid, id: string)
    requires NoDup(ids)
    ensures ForProduct(Parents(ids, grid), id) == if id in ids then [ParentRecord(id, RowsOf(grid, id))] else []
  {
    if ids != [] {
      var p, last := ids[..|ids| - 1], ids[|ids| - 1];
      var parent := ParentRecord(last, RowsOf(grid, last));
      ParentsSnoc(p, last, grid);
      assert ids == p + [last];
      MembersAppend(Parents(p, grid), [parent], ProductOf, id);
      NoDupInit(ids);
      ParentsForProduct(p, grid, id);
      assert [parent][..0] == [];
    }
  }

  /** Every variation of a product belongs to it. */
  lemma VariationsBelong(id: string, rows: Grid)
    ensures forall r :: r in VariationsOf(id, rows) ==> ProductOf(r) == Some(id)
  {
  }

  /** Among the variation blocks, only the product's own block belongs to it. */
  lemma {:induction false} BlocksForProduct(ids: seq<string>, grid: Grid, id: string)
    requires NoDup(ids)
    ensures ForProduct(VariationBlocks(ids, grid), id) == if id in ids then VariationsOf(id, RowsOf(grid, id)) else []
  {
    if ids != [] {
      var p, last := ids[..|ids| - 1], ids[|ids| - 1];
      var block := VariationsOf(last, RowsOf(grid, last));
      NoDupInit(ids);
      BlocksForProduct(p, grid, id);
      VariationsBelong(last, RowsOf(grid, last));
      MembersOfBlock(VariationBlocks(p, grid), block, ProductOf, last, id);
      if id == last {
        assert id !in p;
      } else {
        assert id in ids <==> id in p;
      }
    }
  }

  /** The records stage 1 emits for one product: its own record, then its variations. */
  lemma GroupedForProduct(grid: Grid, id: string)
    ensures ForProduct(Grouped(grid), id) ==
      if id in ProductIds(grid) then [ParentRecord(id, RowsOf(grid, id))] + VariationsOf(id, RowsOf(grid, id)) else []
  {
    var ids := ProductIds(grid);
    DistinctSpec(KeysOf(grid, ProductIdOf));
    MembersAppend(Parents(ids, grid), VariationBlocks(ids, grid), ProductOf, id);
    ParentsForProduct(ids, grid, id);
    BlocksForProduct(ids, grid, id);
  }

  /** A product's rows are the rows carrying its id; a product is listed exactly when it has one. */
  lemma RowsOfProduct(grid: Grid, id: string)
    ensures var rows := RowsOf(grid, id);
      && (forall j :: 0 <= j < |rows| ==> Truthy(At(rows[j], 0)) && At(rows[j], 0).value == id)
      && (id in ProductIds(grid) <==> rows != [])
      && (id in ProductIds(grid) <==> exists j :: 0 <= j < |grid| && ProductIdOf(grid[j]) == Some(id))
  {
    MembersHaveKey(grid, ProductIdOf, id);
    DistinctMember(KeysOf(grid, ProductIdOf), id);
    KeyIffMembers(grid, ProductIdOf, id);
    KeysOfMember(grid, ProductIdOf, id);
  }

  /**
   * Grouping by product id. A product no row carries yields nothing. A product with one row
   * yields one `simple` record with the SKU and option of that row and no variation. A product
   * with n > 1 rows yields one `variable` record with an empty SKU whose attribute value is its
   * distinct option labels in first-seen order, joined by ",", followed by exactly n variations,
   * the j-th named after the product and the option of its j-th row.
   */
  lemma RecordsOfProduct(grid: Grid, id: string)
    ensures (forall j :: 0 <= j < |grid| ==> ProductIdOf(grid[j]) != Some(id)) <==> ForProduct(Grouped(grid), id) == []
    ensures var rows := RowsOf(grid, id);
      |rows| == 1 ==>
        && ForProduct(Grouped(grid), id) == [ParentRecord(id, rows)]
        && ParentRecord(id, rows).kind == Simple
        && ParentRecord(id, rows).sku == Text(At(rows[0], 15))
        && ParentRecord(id, rows).attributeValue == Some(Text(At(rows[0], 16)))
    ensures var rows := RowsOf(grid, id);
      |rows| > 1 ==>
        && ForProduct(Grouped(grid), id) == [ParentRecord(id, rows)] + VariationsOf(id, rows)
        && ParentRecord(id, rows).kind == Variable
        && ParentRecord(id, rows).sku == ""
        && ParentRecord(id, rows).attributeValue == Some(Join(Distinct(Labels(rows)), ","))
        && |VariationsOf(id, rows)| == |rows|
        && (forall j :: 0 <= j < |rows| ==> IsVariationOf(VariationsOf(id, rows)[j], Text(At(rows[0], 2)), rows[j]))
  {
    var rows := RowsOf(grid, id);
    GroupedForProduct(grid, id);
    RowsOfProduct(grid, id);
    if |rows| > 1 {
      VariationsFields(id, rows);
    }
  }

  /** `r` is the variation for `row` of a product named `name`. */
  predicate IsVariationOf(r: Record, name: string, row: Row) {
    && r.kind == Variation
    && r.sku == Text(At(row, 15))
    && r.name == name + " - " + OptionLabel(row)
    && r.attributeValue == Some(OptionLabel(row))
  }

  /** The variations of a product with several rows: one per row, in row order. */
  lemma VariationsFields(id: string, rows: Grid)
    requires 1 < |rows|
    ensures |VariationsOf(id, rows)| == |rows|
    ensures forall j :: 0 <= j < |rows| ==> IsVariationOf(VariationsOf(id, rows)[j], Text(At(rows[0], 2)), rows[j])
  {
  }

  /** The distinct option labels of a variable product: each label of its rows, once, first seen first. */
  lemma VariableLabels(rows: Grid)
    ensures var d := Distinct(Labels(rows));
      && NoDup(d)
      && (forall l :: l in d <==> exists j :: 0 <= j < |rows| && OptionLabel(rows[j]) == l)
      && (forall i :: 0 <= i < |d| ==> d[i] != "" && d[i] in Labels(rows))
      && (forall i, j :: 0 <= i < j < |d| ==> FirstIndex(Labels(rows), d[i]) < FirstIndex(Labels(rows), d[j]))
  {
    DistinctSpec(Labels(rows));
    forall l ensures l in Labels(rows) <==> exists j :: 0 <= j < |rows| && OptionLabel(rows[j]) == l {
      if exists j :: 0 <= j < |rows| && OptionLabel(rows[j]) == l {
        var j :| 0 <= j < |rows| && OptionLabel(rows[j]) == l;
        assert Labels(rows)[j] == l;
      }
    }
    forall l | l in Labels(rows) ensures l != "" {
      var j :| 0 <= j < |rows| && Labels(rows)[j] == l;
    }
    var d := Distinct(Labels(rows));
    forall i | 0 <= i < |d| ensures d[i] != "" && d[i] in Labels(rows) {
      assert d[i] in d;
    }
  }

  /**
   * Stage-1 order: the first records are the simple and variable ones, one per product id, in
   * order of the id's first row; every record after them is a variation.
   */
  lemma GroupedOrder(grid: Grid)
    ensures NoDup(ProductIds(grid))
    ensures forall i, j :: 0 <= i < j < |ProductIds(grid)| ==> FirstBefore(grid, ProductIdOf, ProductIds(grid)[i], ProductIds(grid)[j])
    ensures |ProductIds(grid)| <= |Grouped(grid)|
    ensures forall i :: 0 <= i < |ProductIds(grid)| ==>
      Grouped(grid)[i].kind != Variation && Grouped(grid)[i].lazadaProductId == Some(ProductIds(grid)[i])
    ensures forall i :: |ProductIds(grid)| <= i < |Grouped(grid)| ==> Grouped(grid)[i].kind == Variation
  {
    var ids := ProductIds(grid);
    DistinctSpec(KeysOf(grid, ProductIdOf));
    ProductIdsInOrder(grid);
    ParentsAreParents(ids, grid);
    BlocksAreVariations(ids, grid);
  }

  /** Product ids are listed in the order of their first rows. */
  lemma ProductIdsInOrder(grid: Grid)
    ensures forall i, j :: 0 <= i < j < |ProductIds(grid)| ==> FirstBefore(grid, ProductIdOf, ProductIds(grid)[i], ProductIds(grid)[j])
  {
    var ids := ProductIds(grid);
    forall i, j | 0 <= i < j < |ids|
      ensures FirstBefore(grid, ProductIdOf, ids[i], ids[j])
    {
      DistinctKeyBefore(grid, ProductIdOf, i, j);
    }
  }

  lemma ParentsAreParents(ids: seq<string>, grid: Grid)
    ensures forall i :: 0 <= i < |ids| ==>
      Parents(ids, grid)[i].kind != Variation && Parents(ids, grid)[i].lazadaProductId == Some(ids[i])
  {
  }

  lemma {:induction false} BlocksAreVariations(ids: seq<string>, grid: Grid)
    ensures forall i :: 0 <= i < |VariationBlocks(ids, grid)| ==> VariationBlocks(ids, grid)[i].kind == Variation
  {
    if ids != [] {
      BlocksAreVariations(ids[..|ids| - 1], grid);
    }
  }

  /** A row without a product id changes nothing, wherever it stands. */
  lemma RowWithoutIdIgnored(a: Grid, row: Row, b: Grid)
    requires !Truthy(At(row, 0))
    ensures Grouped(a + [row] + b) == Grouped(a + b)
  {
    var g1, g2 := a + [row] + b, a + b;
    IdsWithoutRow(a, row, b);
    forall id ensures RowsOf(g1, id) == RowsOf(g2, id) {
      RowsWithoutRow(a, row, b, id);
    }
    SameRowsSameBlocks(ProductIds(g1), g1, g2);
    SameRowsSameParents(ProductIds(g1), g1, g2);
  }

  lemma IdsWithoutRow(a: Grid, row: Row, b: Grid)
    requires !Truthy(At(row, 0))
    ensures ProductIds(a + [row] + b) == ProductIds(a + b)
  {
    KeysOfAppend(a + [row], b, ProductIdOf);
    KeysOfAppend(a, [row], ProductIdOf);
    KeysOfAppend(a, b, ProductIdOf);
    assert KeysOf([row], ProductIdOf) == [] by {
      assert [row][..0] == [];
    }
  }

  lemma RowsWithoutRow(a: Grid, row: Row, b: Grid, id: string)
    requires !Truthy(At(row, 0))
    ensures RowsOf(a + [row] + b, id) == RowsOf(a + b, id)
  {
    MembersAppend(a + [row], b, ProductIdOf, id);
    MembersAppend(a, [row], ProductIdOf, id);
    MembersAppend(a, b, ProductIdOf, id);
    assert Members([row], ProductIdOf, id) == [] by {
      assert [row][..0] == [];
    }
  }

  lemma SameRowsSameParents(ids: seq<string>, g1: Grid, g2: Grid)
    requires forall id :: RowsOf(g1, id) == RowsOf(g2, id)
    ensures Parents(ids, g1) == Parents(ids, g2)
  {
  }

  lemma {:induction false} SameRowsSameBlocks(ids: seq<string>, g1: Grid, g2: Grid)
    requires forall id :: RowsOf(g1, id) == RowsOf(g2, id)
    ensures VariationBlocks(ids, g1) == VariationBlocks(ids, g2)
  {
    if ids != [] {
      SameRowsSameBlocks(ids[..|ids| - 1], g1, g2);
    }
  }
}
