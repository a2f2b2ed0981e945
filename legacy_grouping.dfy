/**
 * `/skuimg` in src/index.ts, the older handler file. The rows are read once, in order: a row
 * with a product id creates or updates that product's entry in `seen` (a simple record on the
 * first row, a variable record from the second on), and every row with an option in column 16
 * pushes a variation that points to its product by `parent: "id:<product id>"`. The result is
 * `seen`'s values in order of first appearance, then the variations in row order.
 */
module LegacyGrouping {
  import opened Wrappers
  import opened Strings
  import opened Seqs
  import opened Sheet
  import opened Records
  import opened Grouping

  /** The tag every record in `seen` carries. */
  const SuggestionTag: string := "suggestion_item"

  /** A cell in a template literal: an undefined cell renders as "undefined". */
  function IdText(c: Cell): string {
    if c.Some? then c.value else "undefined"
  }

  /**
   * The record `seen` holds for `productId` after reading `row`, given what it held before
   * (`None` on the product's first row).
   */
  function SeenStep(prev: Option<Record>, productId: string, row: Row): (r: Record)
    ensures r.id == productId && r.tags == Some(SuggestionTag) && r.name == Text(At(row, 2))
    ensures prev.None? ==> r.kind == Simple && r.sku == Text(At(row, 15)) && r.attributeValue == Some("")
    ensures prev.None? ==> r.image == Some(ImageList(row, 7, 15))
    ensures prev.Some? ==> r.kind == Variable && r.sku == "" && r.attributeValue.Some?
    ensures prev.Some? && prev.value.image.Some? ==> r.image == prev.value.image
  {
    var name := Text(At(row, 2));
    var imageData := ImageList(row, 7, 15);
    match prev
    case None =>
      Blank(Simple).(id := productId, sku := Text(At(row, 15)), name := name,
        tags := Some(SuggestionTag), image := Some(imageData), attributeValue := Some(""))
    case Some(existing) =>
      var existingAttribute := if existing.attributeValue.Some? then existing.attributeValue.value else "";
      Blank(Variable).(id := productId, sku := "", name := name, tags := Some(SuggestionTag),
        image := if existing.image.Some? then existing.image else Some(imageData),
        attributeValue := Some(Join(Compact([Some(existingAttribute), At(row, 16)]), ",")))
  }

  /** The option cells (column 16) of the rows. */
  function OptionCells(rows: Grid): (cells: seq<Cell>)
    ensures |cells| == |rows|
    ensures forall i :: 0 <= i < |rows| ==> cells[i] == At(rows[i], 16)
  {
    if rows == [] then [] else OptionCells(rows[..|rows| - 1]) + [At(rows[|rows| - 1], 16)]
  }

  /**
   * What `seen` holds for a product id with the given rows: a simple record made from its only
   * row, or a variable record named after its last row, with its first row's images and the
   * options of every row but the first, joined with ",".
   */
  function SeenRecord(id: string, rows: Grid): (r: Record)
    ensures r.id == id && r.tags == Some(SuggestionTag) && r.image == Some(ImageList(FirstRow(rows), 7, 15))
    ensures r.kind == Variable <==> |rows| > 1
    ensures r.kind != Variable ==> r.kind == Simple
    ensures |rows| > 1 ==> r.sku == "" && r.name == Text(At(rows[|rows| - 1], 2)) && r.attributeValue.Some?
    ensures |rows| <= 1 ==> r.sku == Text(At(FirstRow(rows), 15)) && r.name == Text(At(FirstRow(rows), 2)) && r.attributeValue == Some("")
  {
    var first := FirstRow(rows);
    var image := Some(ImageList(first, 7, 15));
    if |rows| > 1 then
      Blank(Variable).(id := id, sku := "", name := Text(At(rows[|rows| - 1], 2)), tags := Some(SuggestionTag),
        image := image, attributeValue := Some(Join(Compact(OptionCells(rows[1..])), ",")))
    else
      Blank(Simple).(id := id, sku := Text(At(first, 15)), name := Text(At(first, 2)), tags := Some(SuggestionTag),
        image := image, attributeValue := Some(""))
  }

  /** The variation a row with an option pushes. */
  function LegacyVariation(row: Row): (v: Record)
    requires Truthy(At(row, 16))
    ensures v.kind == Variation && v.id == "" && v.parent == Some("id:" + IdText(At(row, 0)))
    ensures v.attributeValue == At(row, 16) && v.name == Text(At(row, 2)) + " - " + At(row, 16).value
    ensures v.sku == Text(At(row, 15)) && v.installmentVariable == Some("yes")
  {
    var combo := At(row, 16).value;
    Blank(Variation).(sku := Text(At(row, 15)), name := Text(At(row, 2)) + " - " + combo,
      image := Some(Text(At(row, 7))), parent := Some("id:" + IdText(At(row, 0))),
      attributeValue := Some(combo), installmentVariable := Some("yes"),
      rtwpvgImages := Some(ImageList(row, 7, 15)))
  }

  /** The variation a row pushes, if it has an option. */
  function VariationOf(row: Row): Option<Record>
  {
    if Truthy(At(row, 16)) then Some(LegacyVariation(row)) else None
  }

  /** `variations`: one per row with an option, in row order. */
  function Variations(grid: Grid): seq<Record> {
    Collect(grid, VariationOf)
  }

  function SeenValues(ids: seq<string>, grid: Grid): seq<Record> {
    seq(|ids|, i requires 0 <= i < |ids| => SeenRecord(ids[i], RowsOf(grid, ids[i])))
  }

  /** `[...Array.from(seen.values()), ...variations]` */
  function LegacyGrouped(grid: Grid): (out: seq<Record>)
    ensures |out| == |ProductIds(grid)| + |Variations(grid)|
    ensures forall i :: 0 <= i < |ProductIds(grid)| ==>
      out[i] == SeenRecord(ProductIds(grid)[i], RowsOf(grid, ProductIds(grid)[i]))
    ensures out[|ProductIds(grid)|..] == Variations(grid)
  {
    SeenValues(ProductIds(grid), grid) + Variations(grid)
  }

  /** `[existing, combo].filter(Boolean)`: the non-empty ones of the two. */
  lemma CompactPair(j: string, c: Cell)
    ensures Compact([Some(j), c]) == (if j != "" then [j] else []) + (if Truthy(c) then [c.value] else [])
  {
    CompactSnoc([], Some(j));
    assert [] + [Some(j)] == [Some(j)];
    CompactSnoc([Some(j)], c);
    assert [Some(j)] + [c] == [Some(j), c];
  }

  lemma AppendToList(before: seq<string>, c: Cell)
    requires forall i :: 0 <= i < |before| ==> before[i] != ""
    requires Truthy(c) && before != []
    ensures Join(Compact([Some(Join(before, ",")), c]), ",") == Join(before + [c.value], ",")
  {
    var j := Join(before, ",");
    NonEmptyJoined(before, c);
    JoinPair(j, c.value, ",");
    JoinSnoc(before, c.value, ",");
  }

  lemma NonEmptyJoined(before: seq<string>, c: Cell)
    requires forall i :: 0 <= i < |before| ==> before[i] != ""
    requires Truthy(c) && before != []
    ensures Compact([Some(Join(before, ",")), c]) == [Join(before, ","), c.value]
  {
    JoinEmptyIff(before, ",");
    CompactBoth(Join(before, ","), c);
  }

  lemma CompactBoth(a: string, c: Cell)
    requires a != "" && Truthy(c)
    ensures Compact([Some(a), c]) == [a, c.value]
  {
    CompactPair(a, c);
    assert [a] + [c.value] == [a, c.value];
  }

  lemma JoinPair(a: string, b: string, sep: string)
    ensures Join([a, b], sep) == a + sep + b
  {
    assert [a, b][..1] == [a];
  }

  lemma AppendToEmpty(c: Cell)
    requires Truthy(c)
    ensures Join(Compact([Some(Join([], ",")), c]), ",") == Join([c.value], ",")
  {
    CompactPair(Join([], ","), c);
  }

  lemma AppendNothing(before: seq<string>, c: Cell)
    requires forall i :: 0 <= i < |before| ==> before[i] != ""
    requires !Truthy(c)
    ensures Join(Compact([Some(Join(before, ",")), c]), ",") == Join(before, ",")
  {
    JoinEmptyIff(before, ",");
    CompactPair(Join(before, ","), c);
  }

  /** `[existing, combo].filter(Boolean).join(",")` appends a non-empty option to the joined list. */
  lemma AppendOption(before: seq<string>, c: Cell)
    requires forall i :: 0 <= i < |before| ==> before[i] != ""
    ensures Join(Compact([Some(Join(before, ",")), c]), ",") ==
      Join(before + (if Truthy(c) then [c.value] else []), ",")
  {
    if !Truthy(c) {
      AppendNothing(before, c);
      assert before + [] == before;
    } else if before == [] {
      AppendToEmpty(c);
      assert before + [c.value] == [c.value];
    } else {
      AppendToList(before, c);
    }
  }

  lemma CompactSnoc(cells: seq<Cell>, c: Cell)
    ensures Compact(cells + [c]) == Compact(cells) + (if Truthy(c) then [c.value] else [])
  {
    assert (cells + [c])[..|cells|] == cells;
  }

  /** The options a variable record lists after one more row. */
  lemma OptionsSnoc(rows: Grid, row: Row)
    requires rows != []
    ensures Compact(OptionCells((rows + [row])[1..])) ==
      Compact(OptionCells(rows[1..])) + (if Truthy(At(row, 16)) then [At(row, 16).value] else [])
  {
    assert (rows + [row])[1..] == rows[1..] + [row];
    assert OptionCells(rows[1..] + [row]) == OptionCells(rows[1..]) + [At(row, 16)];
    CompactSnoc(OptionCells(rows[1..]), At(row, 16));
  }

  /** The step `seen` takes on each row agrees with the closed form of what it holds. */
  lemma SeenStepCloses(id: string, rows: Grid, row: Row)
    ensures SeenStep(None, id, row) == SeenRecord(id, [row])
    ensures rows != [] ==> SeenStep(Some(SeenRecord(id, rows)), id, row) == SeenRecord(id, rows + [row])
  {
    if rows != [] {
      var all := rows + [row];
      assert FirstRow(all) == FirstRow(rows);
      assert all[|all| - 1] == row;
      var before := Compact(OptionCells(rows[1..]));
      OptionsSnoc(rows, row);
      if |rows| == 1 {
        assert rows[1..] == [];
        assert OptionCells(rows[1..]) == [];
        assert Join(before, ",") == "";
      }
      AppendOption(before, At(row, 16));
      assert SeenStep(Some(SeenRecord(id, rows)), id, row).attributeValue == SeenRecord(id, all).attributeValue;
    }
  }

  /** Each row contributes its own variation, whatever rows come before or after it. */
  lemma VariationsAppend(a: Grid, b: Grid)
    ensures Variations(a + b) == Variations(a) + Variations(b)
  {
    CollectAppend(a, b, VariationOf);
  }

  /** A row yields a variation exactly when it has an option, with or without a product id. */
  lemma VariationOfRow(row: Row)
    ensures Truthy(At(row, 16)) ==> Variations([row]) == [LegacyVariation(row)]
    ensures !Truthy(At(row, 16)) ==> Variations([row]) == []
    ensures Truthy(At(row, 16)) ==> LegacyVariation(row).parent == Some("id:" + IdText(At(row, 0)))
  {
    assert [row][..0] == [];
    assert Variations([row]) == Collect([], VariationOf) + (if VariationOf(row).Some? then [VariationOf(row).value] else []);
  }

  /**
   * The record a product id ends with: for a single row, a simple record with that row's SKU,
   * name and an empty option list; for several rows, a variable record without SKU, named after
   * the last row, with the first row's images and the non-empty options of every row but the
   * first, in row order, joined with ",".
   */
  lemma LegacyRecordOfProduct(grid: Grid, i: nat)
    requires i < |ProductIds(grid)|
    ensures var rows := RowsOf(grid, ProductIds(grid)[i]);
      var r := LegacyGrouped(grid)[i];
      && r.tags == Some(SuggestionTag)
      && (|rows| == 1 ==>
            r.sku == Text(At(rows[0], 15)) && r.name == Text(At(rows[0], 2)) && r.attributeValue == Some(""))
      && (|rows| > 1 ==>
            && r.sku == "" && r.name == Text(At(rows[|rows| - 1], 2))
            && r.image == Some(ImageList(rows[0], 7, 15))
            && r.attributeValue == Some(Join(Compact(seq(|rows| - 1, k requires 0 <= k < |rows| - 1 => At(rows[k + 1], 16))), ",")))
  {
    LegacyGroupedShape(grid);
    var id := ProductIds(grid)[i];
    var rows := RowsOf(grid, id);
    assert LegacyGrouped(grid)[i] == SeenRecord(id, rows);
    assert FirstRow(rows) == rows[0];
    if |rows| > 1 {
      assert SeenRecord(id, rows).attributeValue == Some(Join(Compact(OptionCells(rows[1..])), ","));
      assert OptionCells(rows[1..]) == seq(|rows| - 1, k requires 0 <= k < |rows| - 1 => At(rows[k + 1], 16));
    }
  }

  /** `variations` holds exactly the rows with an option, each as its variation. */
  lemma VariationsMember(grid: Grid, v: Record)
    ensures v in Variations(grid) <==> exists j :: 0 <= j < |grid| && VariationOf(grid[j]) == Some(v)
  {
    CollectMember(grid, VariationOf, v);
  }

  /**
   * The records `seen` yields: one per distinct product id, in order of first appearance, each
   * with that id and made from the rows carrying it; the variations follow.
   */
  lemma LegacyGroupedShape(grid: Grid)
    ensures |LegacyGrouped(grid)| == |ProductIds(grid)| + |Variations(grid)|
    ensures NoDup(ProductIds(grid))
    ensures forall i :: 0 <= i < |ProductIds(grid)| ==>
      && RowsOf(grid, ProductIds(grid)[i]) != []
      && LegacyGrouped(grid)[i].id == ProductIds(grid)[i]
      && LegacyGrouped(grid)[i].kind == (if |RowsOf(grid, ProductIds(grid)[i])| > 1 then Variable else Simple)
    ensures LegacyGrouped(grid)[|ProductIds(grid)|..] == Variations(grid)
  {
    var ids := ProductIds(grid);
    DistinctSpec(KeysOf(grid, ProductIdOf));
    forall i | 0 <= i < |ids| ensures RowsOf(grid, ids[i]) != [] {
      assert ids[i] in ids;
      KeyIffMembers(grid, ProductIdOf, ids[i]);
    }
  }

  /** `seen` after the row loop has read the rows `g`. */
  function SeenFold(g: Grid): map<string, Record> {
    if g == [] then map[]
    else
      var prev := SeenFold(g[..|g| - 1]);
      var row := g[|g| - 1];
      if Truthy(At(row, 0)) then
        var k := At(row, 0).value;
        prev[k := SeenStep(if k in prev then Some(prev[k]) else None, k, row)]
      else prev
  }

  /**
   * After any prefix of rows, `seen` holds an entry for exactly the product ids that occur,
   * and the entry is the closed form `SeenRecord` of the rows carrying that id.
   */
  lemma {:induction false} SeenFoldAt(g: Grid, k: string)
    ensures k in SeenFold(g) <==> RowsOf(g, k) != []
    ensures k in SeenFold(g) ==> SeenFold(g)[k] == SeenRecord(k, RowsOf(g, k))
  {
    if g != [] {
      var p := g[..|g| - 1];
      var row := g[|g| - 1];
      SeenFoldAt(p, k);
      assert g == p + [row];
      GroupSnoc(p, row, ProductIdOf);
      if Truthy(At(row, 0)) && At(row, 0).value == k {
        SeenStepCloses(k, RowsOf(p, k), row);
      }
    }
  }

  lemma SeenFoldSnoc(g: Grid, row: Row)
    ensures SeenFold(g + [row]) ==
      if Truthy(At(row, 0)) then
        SeenFold(g)[At(row, 0).value := SeenStep(if At(row, 0).value in SeenFold(g) then Some(SeenFold(g)[At(row, 0).value]) else None, At(row, 0).value, row)]
      else SeenFold(g)
  {
    assert (g + [row])[..|g|] == g;
  }

  /** `seen.has(id)` exactly when the id is among the product ids read so far. */
  lemma SeenHas(g: Grid, k: string)
    ensures k in SeenFold(g) <==> k in ProductIds(g)
  {
    SeenFoldKeys(g, k);
    KeyIffMembers(g, ProductIdOf, k);
    DistinctMember(KeysOf(g, ProductIdOf), k);
  }

  lemma {:induction false} SeenFoldKeys(g: Grid, k: string)
    ensures k in SeenFold(g) <==> RowsOf(g, k) != []
  {
    if g != [] {
      var p := g[..|g| - 1];
      SeenFoldKeys(p, k);
      assert g == p + [g[|g| - 1]];
      GroupSnoc(p, g[|g| - 1], ProductIdOf);
    }
  }

  /**
   * The row loop of `/skuimg`: `seen` is a map from product id to record plus the order in
   * which its keys were first set, and `variations` grows by one record per row with an option.
   */
  method ReadRows(grid: Grid) returns (seen: map<string, Record>, order: seq<string>, variations: seq<Record>)
    ensures seen == SeenFold(grid)
    ensures order == ProductIds(grid)
    ensures variations == Variations(grid)
  {
    order := [];
    seen := map[];
    variations := [];
    for i := 0 to |grid|
      invariant seen == SeenFold(grid[..i])
      invariant order == ProductIds(grid[..i])
      invariant variations == Variations(grid[..i])
    {
      var row := grid[i];
      assert grid[..i + 1] == grid[..i] + [row];
      GroupSnoc(grid[..i], row, ProductIdOf);
      SeenFoldSnoc(grid[..i], row);
      if Truthy(At(row, 0)) {
        var productId := At(row, 0).value;
        SeenHas(grid[..i], productId);
        DistinctSnoc(KeysOf(grid[..i], ProductIdOf), productId);
        if productId in seen {
          seen := seen[productId := SeenStep(Some(seen[productId]), productId, row)];
        } else {
          seen := seen[productId := SeenStep(None, productId, row)];
          order := order + [productId];
        }
      }
      VariationsAppend(grid[..i], [row]);
      VariationOfRow(row);
      if Truthy(At(row, 16)) {
        variations := variations + [LegacyVariation(row)];
      }
    }
    assert grid[..|grid|] == grid;
  }

  /** `skuimgResult = [...Array.from(seen.values()), ...variations]` */
  method LegacyGroupProducts(grid: Grid) returns (records: seq<Record>)
    ensures records == LegacyGrouped(grid)
  {
    var seen, order, variations := ReadRows(grid);
    var values: seq<Record> := [];
    for j := 0 to |order|
      invariant values == SeenValues(order[..j], grid)
    {
      var productId := order[j];
      assert productId in order;
      SeenValueAt(grid, productId);
      SeenValuesSnoc(order[..j], productId, grid);
      assert order[..j + 1] == order[..j] + [productId];
      values := values + [seen[productId]];
    }
    assert order[..|order|] == order;
    records := values + variations;
  }

  /** `seen.get(id)` for a product id read from the sheet. */
  lemma SeenValueAt(grid: Grid, id: string)
    requires id in ProductIds(grid)
    ensures id in SeenFold(grid) && SeenFold(grid)[id] == SeenRecord(id, RowsOf(grid, id))
  {
    DistinctMember(KeysOf(grid, ProductIdOf), id);
    KeyIffMembers(grid, ProductIdOf, id);
    SeenFoldAt(grid, id);
  }

  lemma SeenValuesSnoc(ids: seq<string>, id: string, grid: Grid)
    ensures SeenValues(ids + [id], grid) == SeenValues(ids, grid) + [SeenRecord(id, RowsOf(grid, id))]
  {
  }
}
