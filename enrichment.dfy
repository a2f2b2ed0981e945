/**
 * What the enrichment stages of both handler files share: the last-row-wins lookup maps each
 * stage fills from its upload (`/basic`, `/attribute`, `/pricestock`, `/freight`), and the
 * SKU-keyed merges of `/pricestock` and `/freight`, which the two files write identically.
 */
module Enrichment {
  import opened Wrappers
  import opened Seqs
  import opened Sheet
  import opened Records

  /** `m.get(k)` */
  function Get<V>(m: map<string, V>, k: string): Option<V> {
    if k in m then Some(m[k]) else None
  }

  /** A row's text in column `col` as a map key, when it is truthy. */
  function KeyAt(row: Row, col: nat): Option<string> {
    if Truthy(At(row, col)) then Some(At(row, col).value) else None
  }

  // ----- /basic: description (column 19), short description (20), images (5..12), keyed by product id

  function DescriptionEntry(row: Row): Option<(string, string)> {
    if Truthy(At(row, 0)) && Truthy(At(row, 19)) then Some((At(row, 0).value, At(row, 19).value)) else None
  }

  function ShortDescriptionEntry(row: Row): Option<(string, string)> {
    if Truthy(At(row, 0)) && Truthy(At(row, 20)) then Some((At(row, 0).value, At(row, 20).value)) else None
  }

  function ImageEntry(row: Row): Option<(string, string)> {
    var images := ImageList(row, 5, 13);
    if Truthy(At(row, 0)) && images != "" then Some((At(row, 0).value, images)) else None
  }

  datatype BasicLookups = BasicLookups(
    descriptions: map<string, string>,
    shortDescriptions: map<string, string>,
    images: map<string, string>)

  function BasicLookupsOf(grid: Grid): BasicLookups {
    BasicLookups(Lookup(grid, DescriptionEntry), Lookup(grid, ShortDescriptionEntry), Lookup(grid, ImageEntry))
  }

  /** The row loop of `/basic` that fills `descriptionMap`, `shortDescriptionMap` and `imageMap`. */
  method BuildBasicLookups(grid: Grid) returns (l: BasicLookups)
    ensures l == BasicLookupsOf(grid)
  {
    var descriptions: map<string, string> := map[];
    var shortDescriptions: map<string, string> := map[];
    var images: map<string, string> := map[];
    for i := 0 to |grid|
      invariant descriptions == Lookup(grid[..i], DescriptionEntry)
      invariant shortDescriptions == Lookup(grid[..i], ShortDescriptionEntry)
      invariant images == Lookup(grid[..i], ImageEntry)
    {
      var row := grid[i];
      var productId, shortDescription, description := At(row, 0), At(row, 20), At(row, 19);
      var imageList := ImageList(row, 5, 13);
      assert grid[..i + 1] == grid[..i] + [row];
      LookupSnoc(grid[..i], row, DescriptionEntry);
      LookupSnoc(grid[..i], row, ShortDescriptionEntry);
      LookupSnoc(grid[..i], row, ImageEntry);
      if Truthy(productId) && Truthy(description) {
        descriptions := descriptions[productId.value := description.value];
      }
      if Truthy(productId) && Truthy(shortDescription) {
        shortDescriptions := shortDescriptions[productId.value := shortDescription.value];
      }
      if Truthy(productId) && imageList != "" {
        images := images[productId.value := imageList];
      }
    }
    assert grid[..|grid|] == grid;
    l := BasicLookups(descriptions, shortDescriptions, images);
  }

  // ----- /attribute: every worksheet; the sheet name is the category, column 3 the brand

  /** The rows of one worksheet, each tagged with the sheet's name. */
  function TagRows(name: string, rows: Grid): seq<(string, Row)> {
    seq(|rows|, i requires 0 <= i < |rows| => (name, rows[i]))
  }

  /** The rows of all worksheets in workbook order, each tagged with its sheet's name. */
  function Tagged(sheets: seq<Worksheet>): seq<(string, Row)> {
    if sheets == [] then []
    else Tagged(sheets[..|sheets| - 1]) + TagRows(sheets[|sheets| - 1].name, sheets[|sheets| - 1].rows)
  }

  function CategoryEntry(t: (string, Row)): Option<(string, string)> {
    if Truthy(At(t.1, 0)) then Some((At(t.1, 0).value, t.0)) else None
  }

  function BrandEntry(t: (string, Row)): Option<(string, string)> {
    if Truthy(At(t.1, 0)) && Truthy(At(t.1, 3)) then Some((At(t.1, 0).value, At(t.1, 3).value)) else None
  }

  datatype AttributeLookups = AttributeLookups(categories: map<string, string>, brands: map<string, string>)

  function AttributeLookupsOf(sheets: seq<Worksheet>): AttributeLookups {
    AttributeLookups(Lookup(Tagged(sheets), CategoryEntry), Lookup(Tagged(sheets), BrandEntry))
  }

  /** The sheet-by-sheet, row-by-row loop of `/attribute` that fills `tabNameMap` and `brandMap`. */
  method BuildAttributeLookups(sheets: seq<Worksheet>) returns (l: AttributeLookups)
    ensures l == AttributeLookupsOf(sheets)
  {
    var categories: map<string, string> := map[];
    var brands: map<string, string> := map[];
    for s := 0 to |sheets|
      invariant categories == Lookup(Tagged(sheets[..s]), CategoryEntry)
      invariant brands == Lookup(Tagged(sheets[..s]), BrandEntry)
    {
      categories, brands := ReadSheet(Tagged(sheets[..s]), sheets[s], categories, brands);
      assert sheets[..s + 1][..s] == sheets[..s];
    }
    assert sheets[..|sheets|] == sheets;
    l := AttributeLookups(categories, brands);
  }

  /** The row loop of `/attribute` over one worksheet, after the rows `done` of the earlier ones. */
  method ReadSheet(ghost done: seq<(string, Row)>, sheet: Worksheet, categories: map<string, string>, brands: map<string, string>)
    returns (categories': map<string, string>, brands': map<string, string>)
    requires categories == Lookup(done, CategoryEntry) && brands == Lookup(done, BrandEntry)
    ensures categories' == Lookup(done + TagRows(sheet.name, sheet.rows), CategoryEntry)
    ensures brands' == Lookup(done + TagRows(sheet.name, sheet.rows), BrandEntry)
  {
    categories', brands' := categories, brands;
    assert done + TagRows(sheet.name, sheet.rows[..0]) == done;
    for i := 0 to |sheet.rows|
      invariant categories' == Lookup(done + TagRows(sheet.name, sheet.rows[..i]), CategoryEntry)
      invariant brands' == Lookup(done + TagRows(sheet.name, sheet.rows[..i]), BrandEntry)
    {
      var row := sheet.rows[i];
      var productId, brand := At(row, 0), At(row, 3);
      ghost var before := done + TagRows(sheet.name, sheet.rows[..i]);
      assert done + TagRows(sheet.name, sheet.rows[..i + 1]) == before + [(sheet.name, row)];
      LookupSnoc(before, (sheet.name, row), CategoryEntry);
      LookupSnoc(before, (sheet.name, row), BrandEntry);
      if Truthy(productId) {
        categories' := categories'[productId.value := sheet.name];
        if Truthy(brand) {
          brands' := brands'[productId.value := brand.value];
        }
      }
    }
    assert sheet.rows[..|sheet.rows|] == sheet.rows;
  }

  // ----- /pricestock: SKU in column 11, stock columns 12..16, price 10, sale price 7

  /** A row's stock: the guarded sum in index.ts, the plain `Number` sum in src/index.ts. */
  function StockOf(row: Row, guardNaN: bool): (s: Num)
    ensures guardNaN ==> s.Int?
    ensures !guardNaN ==> (s == NaN <==> exists i :: 0 <= i < |StockCells(row)| && NumberOf(StockCells(row)[i]) == NaN)
    ensures s.Int? ==> s == Int(GuardedSum(StockCells(row)))
  {
    RawSumAgrees(StockCells(row));
    if guardNaN then Int(GuardedSum(StockCells(row))) else RawSum(StockCells(row))
  }

  function GuardedStockEntry(row: Row): Option<(string, Num)> {
    if KeyAt(row, 11).Some? then Some((KeyAt(row, 11).value, StockOf(row, true))) else None
  }

  function RawStockEntry(row: Row): Option<(string, Num)> {
    if KeyAt(row, 11).Some? then Some((KeyAt(row, 11).value, StockOf(row, false))) else None
  }

  function StockEntry(guardNaN: bool): Row -> Option<(string, Num)> {
    if guardNaN then GuardedStockEntry else RawStockEntry
  }

  function PriceEntry(row: Row): Option<(string, Num)> {
    if KeyAt(row, 11).Some? then Some((KeyAt(row, 11).value, NumberOf(At(row, 10)))) else None
  }

  function SalePriceEntry(row: Row): Option<(string, Num)> {
    if KeyAt(row, 11).Some? then Some((KeyAt(row, 11).value, NumberOf(At(row, 7)))) else None
  }

  datatype PriceStockLookups = PriceStockLookups(
    stock: map<string, Num>,
    prices: map<string, Num>,
    salePrices: map<string, Num>)

  function PriceStockLookupsOf(grid: Grid, guardNaN: bool): PriceStockLookups {
    PriceStockLookups(Lookup(grid, StockEntry(guardNaN)), Lookup(grid, PriceEntry), Lookup(grid, SalePriceEntry))
  }

  /** The row loop of `/pricestock` that fills `stockMap`, `priceMap` and `salePriceMap`. */
  method BuildPriceStockLookups(grid: Grid, guardNaN: bool) returns (l: PriceStockLookups)
    ensures l == PriceStockLookupsOf(grid, guardNaN)
  {
    var stock: map<string, Num> := map[];
    var prices: map<string, Num> := map[];
    var salePrices: map<string, Num> := map[];
    for i := 0 to |grid|
      invariant stock == Lookup(grid[..i], StockEntry(guardNaN))
      invariant prices == Lookup(grid[..i], PriceEntry)
      invariant salePrices == Lookup(grid[..i], SalePriceEntry)
    {
      var row := grid[i];
      var sku := At(row, 11);
      var rowStock := StockOf(row, guardNaN);
      var price, salePrice := NumberOf(At(row, 10)), NumberOf(At(row, 7));
      assert grid[..i + 1] == grid[..i] + [row];
      LookupSnoc(grid[..i], row, StockEntry(guardNaN));
      LookupSnoc(grid[..i], row, PriceEntry);
      LookupSnoc(grid[..i], row, SalePriceEntry);
      if Truthy(sku) {
        stock := stock[sku.value := rowStock];
        prices := prices[sku.value := price];
        salePrices := salePrices[sku.value := salePrice];
      }
    }
    assert grid[..|grid|] == grid;
    l := PriceStockLookups(stock, prices, salePrices);
  }

  // ----- /freight: SKU in column 7, weight 6, length 8, width 9, height 10

  function WeightEntry(row: Row): Option<(string, Num)> {
    if KeyAt(row, 7).Some? then Some((KeyAt(row, 7).value, NumberOf(At(row, 6)))) else None
  }

  function LengthEntry(row: Row): Option<(string, Num)> {
    if KeyAt(row, 7).Some? then Some((KeyAt(row, 7).value, NumberOf(At(row, 8)))) else None
  }

  function WidthEntry(row: Row): Option<(string, Num)> {
    if KeyAt(row, 7).Some? then Some((KeyAt(row, 7).value, NumberOf(At(row, 9)))) else None
  }

  function HeightEntry(row: Row): Option<(string, Num)> {
    if KeyAt(row, 7).Some? then Some((KeyAt(row, 7).value, NumberOf(At(row, 10)))) else None
  }

  datatype FreightLookups = FreightLookups(
    weights: map<string, Num>,
    lengths: map<string, Num>,
    widths: map<string, Num>,
    heights: map<string, Num>)

  function FreightLookupsOf(grid: Grid): FreightLookups {
    FreightLookups(Lookup(grid, WeightEntry), Lookup(grid, LengthEntry), Lookup(grid, WidthEntry), Lookup(grid, HeightEntry))
  }

  /** The row loop of `/freight` that fills `weightMap`, `lengthMap`, `widthMap` and `heightMap`. */
  method BuildFreightLookups(grid: Grid) returns (l: FreightLookups)
    ensures l == FreightLookupsOf(grid)
  {
    var weights: map<string, Num> := map[];
    var lengths: map<string, Num> := map[];
    var widths: map<string, Num> := map[];
    var heights: map<string, Num> := map[];
    for i := 0 to |grid|
      invariant weights == Lookup(grid[..i], WeightEntry)
      invariant lengths == Lookup(grid[..i], LengthEntry)
      invariant widths == Lookup(grid[..i], WidthEntry)
      invariant heights == Lookup(grid[..i], HeightEntry)
    {
      var row := grid[i];
      var sku := At(row, 7);
      assert grid[..i + 1] == grid[..i] + [row];
      LookupSnoc(grid[..i], row, WeightEntry);
      LookupSnoc(grid[..i], row, LengthEntry);
      LookupSnoc(grid[..i], row, WidthEntry);
      LookupSnoc(grid[..i], row, HeightEntry);
      if Truthy(sku) {
        weights := weights[sku.value := NumberOf(At(row, 6))];
        lengths := lengths[sku.value := NumberOf(At(row, 8))];
        widths := widths[sku.value := NumberOf(At(row, 9))];
        heights := heights[sku.value := NumberOf(At(row, 10))];
      }
    }
    assert grid[..|grid|] == grid;
    l := FreightLookups(weights, lengths, widths, heights);
  }

  // ----- the SKU-keyed merges, identical in both files

  /** The index of the last row whose column `col` holds the key `k`, if any row does. */
  function LastRowWith(grid: Grid, col: nat, k: string): (r: Option<nat>)
    ensures r.None? <==> forall j :: 0 <= j < |grid| ==> KeyAt(grid[j], col) != Some(k)
    ensures r.Some? ==>
      r.value < |grid| && KeyAt(grid[r.value], col) == Some(k) &&
      forall j :: r.value < j < |grid| ==> KeyAt(grid[j], col) != Some(k)
  {
    if grid == [] then None
    else if KeyAt(grid[|grid| - 1], col) == Some(k) then Some(|grid| - 1)
    else LastRowWith(grid[..|grid| - 1], col, k)
  }

  /**
   * For a lookup keyed by column `col`, the value found for `k` is the one computed from the last
   * row holding `k` in that column, and nothing when no row does.
   */
  lemma {:induction false} GetFromLastRow(grid: Grid, entry: Row -> Option<(string, Num)>, col: nat, value: Row -> Num, k: string)
    requires forall row :: entry(row) == if KeyAt(row, col).Some? then Some((KeyAt(row, col).value, value(row))) else None
    ensures Get(Lookup(grid, entry), k) == match LastRowWith(grid, col, k) case None => None case Some(j) => Some(value(grid[j]))
  {
    if grid != [] {
      var p, row := grid[..|grid| - 1], grid[|grid| - 1];
      assert grid == p + [row];
      LookupSnoc(p, row, entry);
      GetFromLastRow(p, entry, col, value, k);
    }
  }

  /** Only stock, sale price and regular price may differ between the two records. */
  predicate OnlyPriceStockDiffers(before: Record, after: Record) {
    after.(stock := before.stock, salePrice := before.salePrice, regularPrice := before.regularPrice) == before
  }

  /** `{ ...item, stock: stockMap.get(item.SKU), salePrice: salePriceMap.get(item.SKU), regularPrice: priceMap.get(item.SKU) }` */
  function WithPriceStock(r: Record, l: PriceStockLookups): (m: Record)
    ensures OnlyPriceStockDiffers(r, m)
    ensures m.stock.Some? <==> r.sku in l.stock
    ensures m.salePrice.Some? <==> r.sku in l.salePrices
    ensures m.regularPrice.Some? <==> r.sku in l.prices
  {
    r.(stock := Get(l.stock, r.sku), salePrice := Get(l.salePrices, r.sku), regularPrice := Get(l.prices, r.sku))
  }

  function MergePriceStock(rs: seq<Record>, l: PriceStockLookups): seq<Record> {
    seq(|rs|, i requires 0 <= i < |rs| => WithPriceStock(rs[i], l))
  }

  /**
   * `/pricestock` on the accumulated records: refused when there are none, otherwise the same
   * records in the same order with only their stock and prices rewritten.
   */
  function PriceStockStage(acc: seq<Record>, upload: Option<Upload>, guardNaN: bool): (r: Result<seq<Record>, Error>)
    ensures r == Err(NoData) <==> acc == []
    ensures acc != [] && upload.None? ==> r == Err(NoFileUploaded)
    ensures r.Ok? ==> |r.value| == |acc| && forall i :: 0 <= i < |acc| ==> OnlyPriceStockDiffers(acc[i], r.value[i])
  {
    if |acc| == 0 then Err(NoData)
    else if upload.None? then Err(NoFileUploaded)
    else match FirstSheet(upload.value)
      case None => Err(Unreadable)
      case Some(grid) => Ok(MergePriceStock(acc, PriceStockLookupsOf(grid, guardNaN)))
  }

  /**
   * A record's stock and prices come from the last row that lists its SKU; when no row does,
   * all three become `undefined`, whatever they held before.
   */
  lemma PriceStockFromLastRow(r: Record, grid: Grid, guardNaN: bool)
    ensures var m := WithPriceStock(r, PriceStockLookupsOf(grid, guardNaN));
      match LastRowWith(grid, 11, r.sku)
      case None => m.stock.None? && m.regularPrice.None? && m.salePrice.None?
      case Some(j) =>
        && m.stock == Some(StockOf(grid[j], guardNaN))
        && m.regularPrice == Some(NumberOf(At(grid[j], 10)))
        && m.salePrice == Some(NumberOf(At(grid[j], 7)))
  {
    GetFromLastRow(grid, StockEntry(guardNaN), 11, row => StockOf(row, guardNaN), r.sku);
    GetFromLastRow(grid, PriceEntry, 11, row => NumberOf(At(row, 10)), r.sku);
    GetFromLastRow(grid, SalePriceEntry, 11, row => NumberOf(At(row, 7)), r.sku);
  }

  /** Running `/pricestock` twice with the same upload changes nothing the first run did not. */
  lemma PriceStockIdempotent(rs: seq<Record>, l: PriceStockLookups)
    ensures MergePriceStock(MergePriceStock(rs, l), l) == MergePriceStock(rs, l)
  {
  }

  /** Only the four dimensions may differ between the two records. */
  predicate OnlyFreightDiffers(before: Record, after: Record) {
    after.(weight := before.weight, length := before.length, width := before.width, height := before.height) == before
  }

  /** `{ ...item, weight: weightMap.get(item.SKU), length: ..., width: ..., height: ... }` */
  function WithFreight(r: Record, l: FreightLookups): (m: Record)
    ensures OnlyFreightDiffers(r, m)
    ensures m.weight.Some? <==> r.sku in l.weights
    ensures m.length.Some? <==> r.sku in l.lengths
    ensures m.width.Some? <==> r.sku in l.widths
    ensures m.height.Some? <==> r.sku in l.heights
  {
    r.(weight := Get(l.weights, r.sku), length := Get(l.lengths, r.sku),
       width := Get(l.widths, r.sku), height := Get(l.heights, r.sku))
  }

  function MergeFreight(rs: seq<Record>, l: FreightLookups): seq<Record> {
    seq(|rs|, i requires 0 <= i < |rs| => WithFreight(rs[i], l))
  }

  /**
   * `/freight` on the accumulated records: refused when there are none, otherwise the same
   * records in the same order with only their dimensions rewritten.
   */
  function FreightStage(acc: seq<Record>, upload: Option<Upload>): (r: Result<seq<Record>, Error>)
    ensures r == Err(NoData) <==> acc == []
    ensures acc != [] && upload.None? ==> r == Err(NoFileUploaded)
    ensures r.Ok? ==> |r.value| == |acc| && forall i :: 0 <= i < |acc| ==> OnlyFreightDiffers(acc[i], r.value[i])
  {
    if |acc| == 0 then Err(NoData)
    else if upload.None? then Err(NoFileUploaded)
    else match FirstSheet(upload.value)
      case None => Err(Unreadable)
      case Some(grid) => Ok(MergeFreight(acc, FreightLookupsOf(grid)))
  }

  /**
   * A record's dimensions come from the last row that lists its SKU; when no row does, all four
   * become `undefined`.
   */
  lemma FreightFromLastRow(r: Record, grid: Grid)
    ensures var m := WithFreight(r, FreightLookupsOf(grid));
      match LastRowWith(grid, 7, r.sku)
      case None => m.weight.None? && m.length.None? && m.width.None? && m.height.None?
      case Some(j) =>
        && m.weight == Some(NumberOf(At(grid[j], 6)))
        && m.length == Some(NumberOf(At(grid[j], 8)))
        && m.width == Some(NumberOf(At(grid[j], 9)))
        && m.height == Some(NumberOf(At(grid[j], 10)))
  {
    GetFromLastRow(grid, WeightEntry, 7, row => NumberOf(At(row, 6)), r.sku);
    GetFromLastRow(grid, LengthEntry, 7, row => NumberOf(At(row, 8)), r.sku);
    GetFromLastRow(grid, WidthEntry, 7, row => NumberOf(At(row, 9)), r.sku);
    GetFromLastRow(grid, HeightEntry, 7, row => NumberOf(At(row, 10)), r.sku);
  }

  /** Running `/freight` twice with the same upload changes nothing the first run did not. */
  lemma FreightIdempotent(rs: seq<Record>, l: FreightLookups)
    ensures MergeFreight(MergeFreight(rs, l), l) == MergeFreight(rs, l)
  {
  }
}
