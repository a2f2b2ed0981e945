/**
 * The `/basic` and `/attribute` stages of both handler files. index.ts joins them on
 * `lazada_product_id` and blanks the descriptions of variations; src/index.ts joins them on
 * `ID`. Either way a miss writes "" (descriptions, category, brand) and only the image falls
 * back to what the record held.
 */
module Stages {
  import opened Wrappers
  import opened Seqs
  import opened Sheet
  import opened Records
  import opened Enrichment

  /** The checks every later stage makes before it reads its upload, in the order it makes them. */
  function Guard(acc: seq<Record>, upload: Option<Upload>): (r: Option<Error>)
    ensures r == Some(NoData) <==> acc == []
    ensures r == Some(NoFileUploaded) <==> acc != [] && upload.None?
    ensures r.None? <==> acc != [] && upload.Some?
  {
    if |acc| == 0 then Some(NoData)
    else if upload.None? then Some(NoFileUploaded)
    else None
  }

  /** `map.get(key as string)`: a key that is `undefined` finds nothing. */
  function GetBy<V>(m: map<string, V>, key: Option<string>): Option<V> {
    if key.Some? then Get(m, key.value) else None
  }

  /** `map.get(key) || ""` */
  function TextOr(v: Option<string>): string {
    if v.Some? && v.value != "" then v.value else ""
  }

  /** `map.get(key) || fallback` */
  function ImageOr(v: Option<string>, fallback: Option<string>): Option<string> {
    if v.Some? && v.value != "" then v else fallback
  }

  // ----- /basic

  /** Only the two descriptions and the image may differ between the two records. */
  predicate OnlyBasicDiffers(before: Record, after: Record) {
    after.(shortDescription := before.shortDescription, description := before.description, image := before.image) == before
  }

  /** index.ts: a variation gets empty descriptions and keeps its image; others join on `lazada_product_id`. */
  function WithBasic(r: Record, l: BasicLookups): (m: Record)
    ensures OnlyBasicDiffers(r, m)
    ensures m.description.Some? && m.shortDescription.Some?
    ensures r.kind == Variation ==> m.description == Some("") && m.shortDescription == Some("") && m.image == r.image
    ensures r.kind != Variation && r.lazadaProductId.None? ==> m.description == Some("") && m.shortDescription == Some("") && m.image == r.image
    ensures m.image == r.image || (m.image.Some? && m.image.value != "")
  {
    if r.kind == Variation then r.(shortDescription := Some(""), description := Some(""))
    else
      var id := r.lazadaProductId;
      r.(shortDescription := Some(TextOr(GetBy(l.shortDescriptions, id))),
         description := Some(TextOr(GetBy(l.descriptions, id))),
         image := ImageOr(GetBy(l.images, id), r.image))
  }

  /** src/index.ts: every record joins on its `ID`. */
  function WithBasicById(r: Record, l: BasicLookups): (m: Record)
    ensures OnlyBasicDiffers(r, m)
    ensures m.description.Some? && m.shortDescription.Some?
    ensures r.id !in l.descriptions ==> m.description == Some("")
    ensures r.id !in l.shortDescriptions ==> m.shortDescription == Some("")
    ensures r.id !in l.images ==> m.image == r.image
    ensures m.image == r.image || (m.image.Some? && m.image.value != "")
  {
    r.(shortDescription := Some(TextOr(Get(l.shortDescriptions, r.id))),
       description := Some(TextOr(Get(l.descriptions, r.id))),
       image := ImageOr(Get(l.images, r.id), r.image))
  }

  /** `/basic` on the accumulated records; `byId` selects the src/index.ts join. */
  function BasicStage(acc: seq<Record>, upload: Option<Upload>, byId: bool): (r: Result<seq<Record>, Error>)
    ensures r == Err(NoData) <==> acc == []
    ensures acc != [] && upload.None? ==> r == Err(NoFileUploaded)
    ensures r.Ok? ==> |r.value| == |acc| && forall i :: 0 <= i < |acc| ==> OnlyBasicDiffers(acc[i], r.value[i])
  {
    match Guard(acc, upload)
    case Some(e) => Err(e)
    case None =>
      match FirstSheet(upload.value)
      case None => Err(Unreadable)
      case Some(grid) =>
        var l := BasicLookupsOf(grid);
        Ok(seq(|acc|, i requires 0 <= i < |acc| => if byId then WithBasicById(acc[i], l) else WithBasic(acc[i], l)))
  }

  /**
   * index.ts `/basic` for one record. A variation gets empty descriptions and keeps its image.
   * Any other record gets the description of the last row listing its product id with one, or ""
   * when no row does; the same for the short description; and the image list of the last row
   * listing its id with images, or its own image when no row does.
   */
  lemma BasicOfRecord(r: Record, grid: Grid)
    ensures var m := WithBasic(r, BasicLookupsOf(grid));
      && (r.kind == Variation ==> m.description == Some("") && m.shortDescription == Some("") && m.image == r.image)
      && (r.kind != Variation && r.lazadaProductId.Some? ==>
            var k := r.lazadaProductId.value;
            && (m.description == Some("") <==> NoneKeyed(grid, DescriptionEntry, k))
            && (m.description != Some("") ==> LastKeyed(grid, DescriptionEntry, k, m.description.value))
            && (m.shortDescription == Some("") <==> NoneKeyed(grid, ShortDescriptionEntry, k))
            && (m.shortDescription != Some("") ==> LastKeyed(grid, ShortDescriptionEntry, k, m.shortDescription.value))
            && (NoneKeyed(grid, ImageEntry, k) ==> m.image == r.image)
            && (!NoneKeyed(grid, ImageEntry, k) ==> m.image.Some? && LastKeyed(grid, ImageEntry, k, m.image.value)))
  {
    if r.kind != Variation && r.lazadaProductId.Some? {
      var k := r.lazadaProductId.value;
      BasicLookupValues(grid, k);
    }
  }

  /** Every value the `/basic` lookups hold is non-empty, and a hit is the last row's value. */
  lemma BasicLookupValues(grid: Grid, k: string)
    ensures var l := BasicLookupsOf(grid);
      && (k !in l.descriptions <==> NoneKeyed(grid, DescriptionEntry, k))
      && (k in l.descriptions ==> l.descriptions[k] != "" && LastKeyed(grid, DescriptionEntry, k, l.descriptions[k]))
      && (k !in l.shortDescriptions <==> NoneKeyed(grid, ShortDescriptionEntry, k))
      && (k in l.shortDescriptions ==> l.shortDescriptions[k] != "" && LastKeyed(grid, ShortDescriptionEntry, k, l.shortDescriptions[k]))
      && (k !in l.images <==> NoneKeyed(grid, ImageEntry, k))
      && (k in l.images ==> l.images[k] != "" && LastKeyed(grid, ImageEntry, k, l.images[k]))
  {
    var l := BasicLookupsOf(grid);
    GetFromLookup(grid, DescriptionEntry, k);
    GetFromLookup(grid, ShortDescriptionEntry, k);
    GetFromLookup(grid, ImageEntry, k);
  }

  /**
   * src/index.ts `/basic` for one record: the descriptions and image of the last rows listing its
   * `ID`. A variation, whose `ID` is "", matches no row: its descriptions become "" and it keeps
   * its image.
   */
  lemma BasicByIdOfRecord(r: Record, grid: Grid)
    ensures var m := WithBasicById(r, BasicLookupsOf(grid));
      && (m.description == Some("") <==> NoneKeyed(grid, DescriptionEntry, r.id))
      && (m.description != Some("") ==> LastKeyed(grid, DescriptionEntry, r.id, m.description.value))
      && (m.shortDescription == Some("") <==> NoneKeyed(grid, ShortDescriptionEntry, r.id))
      && (m.shortDescription != Some("") ==> LastKeyed(grid, ShortDescriptionEntry, r.id, m.shortDescription.value))
      && (NoneKeyed(grid, ImageEntry, r.id) ==> m.image == r.image)
      && (!NoneKeyed(grid, ImageEntry, r.id) ==> m.image.Some? && LastKeyed(grid, ImageEntry, r.id, m.image.value))
      && (r.id == "" ==> m.description == Some("") && m.shortDescription == Some("") && m.image == r.image)
  {
    BasicLookupValues(grid, r.id);
  }

  /** Running index.ts `/basic` twice with the same upload changes nothing the first run did not. */
  lemma BasicIdempotent(r: Record, l: BasicLookups)
    ensures WithBasic(WithBasic(r, l), l) == WithBasic(r, l)
  {
  }

  // ----- /attribute

  /** Only the category and the brand may differ between the two records. */
  predicate OnlyAttributeDiffers(before: Record, after: Record) {
    after.(categories := before.categories, brand := before.brand) == before
  }

  /** `{ ...item, categories: tabNameMap.get(key) || "", brand: brandMap.get(key) || "" }` */
  function WithCategory(r: Record, l: AttributeLookups, key: Option<string>): (m: Record)
    ensures OnlyAttributeDiffers(r, m)
    ensures m.categories.Some? && m.brand.Some?
    ensures key.None? ==> m.categories == Some("") && m.brand == Some("")
    ensures key.Some? && key.value !in l.categories ==> m.categories == Some("")
    ensures key.Some? && key.value !in l.brands ==> m.brand == Some("")
  {
    r.(categories := Some(TextOr(GetBy(l.categories, key))), brand := Some(TextOr(GetBy(l.brands, key))))
  }

  /** The join key of `/basic` and `/attribute`: `lazada_product_id` in index.ts, `ID` in src/index.ts. */
  function JoinKey(r: Record, byId: bool): Option<string> {
    if byId then Some(r.id) else r.lazadaProductId
  }

  /** `/attribute` on the accumulated records, reading every worksheet of the upload. */
  function AttributeStage(acc: seq<Record>, upload: Option<Upload>, byId: bool): (r: Result<seq<Record>, Error>)
    ensures r == Err(NoData) <==> acc == []
    ensures acc != [] && upload.None? ==> r == Err(NoFileUploaded)
    ensures r.Ok? <==> acc != [] && upload.Some?
    ensures r.Ok? ==> |r.value| == |acc| && forall i :: 0 <= i < |acc| ==> OnlyAttributeDiffers(acc[i], r.value[i])
  {
    match Guard(acc, upload)
    case Some(e) => Err(e)
    case None =>
      var l := AttributeLookupsOf(upload.value.sheets);
      Ok(seq(|acc|, i requires 0 <= i < |acc| => WithCategory(acc[i], l, JoinKey(acc[i], byId))))
  }

  /** The worksheet has a row whose product id is `k`. */
  predicate Lists(sheet: Worksheet, k: string) {
    exists i :: 0 <= i < |sheet.rows| && KeyAt(sheet.rows[i], 0) == Some(k)
  }

  /** The index of the last worksheet that lists `k`, if any does. */
  function LastSheetListing(sheets: seq<Worksheet>, k: string): (r: Option<nat>)
    ensures r.None? <==> forall s :: 0 <= s < |sheets| ==> !Lists(sheets[s], k)
    ensures r.Some? ==>
      r.value < |sheets| && Lists(sheets[r.value], k) &&
      forall s :: r.value < s < |sheets| ==> !Lists(sheets[s], k)
  {
    if sheets == [] then None
    else if Lists(sheets[|sheets| - 1], k) then Some(|sheets| - 1)
    else LastSheetListing(sheets[..|sheets| - 1], k)
  }

  /** Within one worksheet, an id's category is the sheet's name exactly when the sheet lists it. */
  lemma {:induction false} SheetCategories(name: string, rows: Grid, k: string)
    ensures k in Lookup(TagRows(name, rows), CategoryEntry) <==> Lists(Worksheet(name, rows), k)
    ensures k in Lookup(TagRows(name, rows), CategoryEntry) ==> Lookup(TagRows(name, rows), CategoryEntry)[k] == name
  {
    if rows != [] {
      var p, row := rows[..|rows| - 1], rows[|rows| - 1];
      assert TagRows(name, rows) == TagRows(name, p) + [(name, row)];
      LookupSnoc(TagRows(name, p), (name, row), CategoryEntry);
      SheetCategories(name, p, k);
      if Lists(Worksheet(name, p), k) {
        var i :| 0 <= i < |p| && KeyAt(p[i], 0) == Some(k);
        assert rows[i] == p[i];
      }
      if Lists(Worksheet(name, rows), k) && KeyAt(row, 0) != Some(k) {
        var i :| 0 <= i < |rows| && KeyAt(rows[i], 0) == Some(k);
        assert p[i] == rows[i];
      }
    }
  }

  /** The category of a product id is the name of the last worksheet listing it. */
  lemma {:induction false} CategoryIsLastSheet(sheets: seq<Worksheet>, k: string)
    ensures Get(AttributeLookupsOf(sheets).categories, k) ==
      match LastSheetListing(sheets, k) case None => None case Some(s) => Some(sheets[s].name)
  {
    if sheets != [] {
      var p, last := sheets[..|sheets| - 1], sheets[|sheets| - 1];
      LookupAppend(Tagged(p), TagRows(last.name, last.rows), CategoryEntry);
      SheetCategories(last.name, last.rows, k);
      CategoryIsLastSheet(p, k);
      assert Worksheet(last.name, last.rows) == last;
    }
  }

  /**
   * `/attribute` for one record joined on `key`: the category is the name of the last worksheet
   * listing the key, or "" when none does; the brand is the one on the last row, over all
   * worksheets in order, that lists the key with a brand, or "" when none does.
   */
  lemma AttributeOfRecord(r: Record, sheets: seq<Worksheet>, key: Option<string>)
    ensures var m := WithCategory(r, AttributeLookupsOf(sheets), key);
      && (key.None? ==> m.categories == Some("") && m.brand == Some(""))
      && (key.Some? ==>
            && m.categories == Some(match LastSheetListing(sheets, key.value) case None => "" case Some(s) => TextOr(Some(sheets[s].name)))
            && (m.brand == Some("") <==> NoneKeyed(Tagged(sheets), BrandEntry, key.value))
            && (m.brand != Some("") ==> LastKeyed(Tagged(sheets), BrandEntry, key.value, m.brand.value)))
  {
    if key.Some? {
      CategoryIsLastSheet(sheets, key.value);
      GetFromLookup(Tagged(sheets), BrandEntry, key.value);
    }
  }
}
