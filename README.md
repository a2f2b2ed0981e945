# Product-catalogue migration pipeline, modelled in Dafny

The server turns a Lazada product export into a WooCommerce product import. It does this in
steps, each one an HTTP request carrying a spreadsheet:

- `/skuimg` groups the rows of the product sheet by product id into `simple`, `variable` and
  `variation` records. These are the accumulated records, `skuimgResult`.
- `/basic`, `/attribute`, `/pricestock` and `/freight` each build last-row-wins lookup maps
  from their own sheet and rewrite some fields of every accumulated record.
- `/wc-product-export` picks an attribute name per record, links variations to their variable
  parent, builds the swatch term maps and projects each record onto the columns of the
  WooCommerce CSV.

There are two versions of the handlers: `index.ts` and the older `src/index.ts`. They differ in
the grouping, in the join keys of `/basic` and `/attribute`, in the stock sum and in the whole
export. Both are modelled.

## How it is modelled

- **Cells and uploads.** A worksheet is a grid of cells, `seq<seq<Option<string>>>`, as read
  from its fifth row on. `None` is JavaScript's `undefined`, and a cell is truthy when it is
  present and not "". An upload is its file name, its size and its decoded worksheets. The
  export's reference table is a sequence of header-keyed maps.
- **Records.** The product record is a datatype with one field per property the handlers set.
- **Maps and sets.** A JavaScript `Map` filled in a loop is `Lookup`, a last-write-wins fold.
  A `Map` of lists keyed in insertion order is `KeysOf`/`Members`. `new Set` is `Distinct`,
  which keeps first-seen order.
- **JSON.** Objects are ordered entry lists; `{...a, ...b}` is `Spread`, and `obj[k] = v` is
  `Put`. `JSON.stringify` is the constructor `Serialized`, so it is injective by construction.
  `JSON.parse` is `Parse`, which fails on anything that was not serialised.
- **Numbers.** `Number(cell)` is `NumberOf`, giving `NaN` or an integer.
- **Randomness.** `Math.random()` is a parameter `draws: nat -> nat`; the i-th record uses
  draw `i`.
- **Loops and state.** Each handler's loops are methods proved equal to the function that
  specifies them. The module-level state of each file is a class: `Pipeline.Pipeline` for
  `index.ts` and `LegacyPipeline.LegacyPipeline` for `src/index.ts`. Each request is a method
  that either refuses and changes nothing, or replaces the state with what the stage function
  gives.

The modules are:

- `Wrappers`, `Strings`, `Seqs` and `Swatches`: JavaScript semantics.
- `Sheet`: cells, the upload checks and number coercion.
- `Records`: the product record.
- `Enrichment`: the lookup builders and the `/pricestock` and `/freight` stages.
- `Stages`: `/basic` and `/attribute`.
- `Grouping` and `Export`: `index.ts`.
- `LegacyGrouping` and `LegacyExport`: `src/index.ts`.
- `Pipeline` and `LegacyPipeline`: the two handler objects.

## Model

| member | source | states |
|---|---|---|
| Sheet.ValidateUpload | index.ts:63-74 | The upload is refused, in this order, when missing, when its name does not end in ".xlsx", when it exceeds 25·1024·1024 bytes, or when its name does not start with "skuimg"; each error occurs exactly under its condition, and acceptance holds exactly when all checks pass |
| Pipeline.SkuImgStage | index.ts:62-140 | `/skuimg` fails with the validation error, or with an unreadable-workbook error when there is no sheet, and succeeds exactly when the upload is valid and has a sheet |
| LegacyPipeline.LegacySkuImgStage | src/index.ts:266-336 | The same acceptance and errors for the older `/skuimg` (src/index.ts:267-278) |
| Grouping.OptionLabel | index.ts:101 | The option label is never empty: column 16 when truthy, "ไม่มีตัวเลือก" otherwise |
| Grouping.ParentRecord | index.ts:96-137 | A product's `seen` record carries its id as `lazada_product_id` and the first row's name and image list; it is variable exactly when the product has more than one row (then SKU "" and a label list), and otherwise simple with the first row's SKU (column 15) and column 16 as attributeValue |
| Grouping.VariationRecord | index.ts:112-126 | A pushed variation carries the row's SKU, the product name with " - " and the never-empty option label, that label as attributeValue, column 7 as image, the row's image list, "yes" for installment and the product id |
| Grouping.Grouped | index.ts:95-140 | `skuimgResult` starts with one `seen` record per product id, in the order the ids are first met, and continues with the variation blocks in the same order |
| Grouping.GroupProducts | index.ts:86-140 | The two loops (filling `productMap`, then `seen` and `variations`) compute `Grouped`: parent records in product order followed by the variation blocks |
| Grouping.VisitProducts | index.ts:95-139 | `productMap.forEach` over the product ids in insertion order leaves `seen` equal to their parent records and `variations` equal to their variation blocks, given that `productMap` holds each id's rows |
| Grouping.VisitProduct | index.ts:95-138 | The callback for one product appends its parent record to `seen` and its variation block (empty for a single row) to `variations` |
| Grouping.PushVariations | index.ts:112-126 | The inner loop pushes exactly the variation records of one product |
| Grouping.ParentsSnoc | index.ts:95-137 | Handling one more product appends its record to `seen` |
| Grouping.BlocksSnoc | index.ts:112-126 | Handling one more product appends its variation block to `variations` |
| Grouping.RowsOfProduct | index.ts:86-94 | Every row grouped under an id carries that id in column 0; an id is a key of `productMap` exactly when some row carries it |
| Grouping.RecordsOfProduct | index.ts:95-139 | An id no row carries yields no record. An id with one row yields one simple record (SKU column 15, attributeValue column 16) and no variation. An id with n>1 rows yields a variable record with SKU "" and the distinct labels joined by ",", then n variations, each with its row's SKU, the name "<first row name> - <label>" and the label as attributeValue |
| Grouping.VariableLabels | index.ts:101-102 | The variable's label list is duplicate-free, non-empty entries, holds exactly the rows' labels, and lists them in order of first appearance |
| Grouping.GroupedOrder | index.ts:95-140 | Product ids are distinct and in order of first row; the first records are the non-variation records of those ids in that order; every later record is a variation |
| Grouping.ProductIdsInOrder | index.ts:86-95 | Of two product ids, the one `productMap` lists first has the earlier first row |
| Grouping.BlocksAreVariations | index.ts:112-126 | Every record in the variation blocks is a variation |
| Grouping.RowWithoutIdIgnored | index.ts:88 | Inserting a row without a product id anywhere leaves the grouped records unchanged |
| Grouping.RowsWithoutRow | index.ts:88-92 | A row without a product id adds no row to any product |
| Grouping.IdsWithoutRow | index.ts:88-92 | A row without a product id adds no key to `productMap` |
| Grouping.SameRowsSameBlocks | index.ts:95-139 | The variation blocks depend only on the rows grouped under each id |
| Grouping.GroupedForProduct | index.ts:95-140 | A product's records in the output are exactly its parent record followed by its variations |
| Grouping.ParentsForProduct | index.ts:103-137 | Among the parent records, a product has exactly its own record when listed and none otherwise |
| Grouping.BlocksForProduct | index.ts:112-126 | Among the variation blocks, a product has exactly its own variations |
| Grouping.VariationsBelong | index.ts:113-125 | Every variation of a product carries that product's id as `lazada_product_id` |
| LegacyGrouping.ReadRows | src/index.ts:289-335 | The row loop leaves `seen` equal to the fold `SeenFold`, its insertion order equal to the product ids in order of first row, and `variations` equal to `Variations` |
| LegacyGrouping.LegacyGroupProducts | src/index.ts:289-336 | The handler returns `[...seen.values(), ...variations]` as specified by `LegacyGrouped` |
| LegacyGrouping.SeenStepCloses | src/index.ts:295-320 | One more row of a product turns its record into the closed form for the longer row list: a first row creates the simple record, and a later row the variable record |
| LegacyGrouping.SeenFoldAt | src/index.ts:295-320 | `seen` has a key exactly when rows carry that id, and its value is the closed-form record of those rows |
| LegacyGrouping.SeenFoldKeys | src/index.ts:295-320 | `seen` has a key exactly when some row carries it |
| LegacyGrouping.SeenFoldSnoc | src/index.ts:295-320 | Reading one more row updates only the entry of its product id |
| LegacyGrouping.SeenHas | src/index.ts:296 | `seen.has(id)` holds exactly for the product ids met so far |
| LegacyGrouping.LegacyRecordOfProduct | src/index.ts:295-320 | A single-row id gives a simple record with that row's SKU and name and attributeValue ""; a multi-row id gives a variable record with SKU "", the last row's name, the first row's images and the non-empty options of every row but the first, in row order, joined by ",", with no deduplication; all carry the tag "suggestion_item" |
| LegacyGrouping.LegacyGroupedShape | src/index.ts:336 | The output has one record per product id (distinct, each with rows, ID equal to the id, variable exactly when it has more than one row) followed by the variations |
| LegacyGrouping.VariationOfRow | src/index.ts:322-334 | A row yields a variation exactly when its option is truthy, with parent "id:" + product id |
| LegacyGrouping.VariationsMember | src/index.ts:322-334 | `variations` holds exactly the variation records of the rows with an option |
| LegacyGrouping.VariationsAppend | src/index.ts:322-334 | Variations of concatenated row lists are concatenated, so they follow row order |
| LegacyGrouping.AppendOption | src/index.ts:297-300 | `[existing, combo].filter(Boolean).join(",")` appends a truthy option to the joined list and leaves the list alone otherwise |
| LegacyGrouping.AppendToList | src/index.ts:297-300 | A truthy option is appended after a comma to a non-empty list |
| LegacyGrouping.AppendToEmpty | src/index.ts:297-300 | A truthy option appended to the empty list is the option itself |
| LegacyGrouping.AppendNothing | src/index.ts:297-300 | An empty or missing option leaves the joined list unchanged |
| LegacyGrouping.CompactPair | src/index.ts:298-299 | Filtering the pair keeps exactly its non-empty members |
| LegacyGrouping.OptionCells | src/index.ts:293 | The option cells are column 16 of each row |
| LegacyGrouping.SeenStep | src/index.ts:295-320 | A row of a product sets its `seen` record to the product id as ID, tag "suggestion_item" and the row's name; a first row makes it simple with the row's SKU, attributeValue "" and image list; a later row makes it variable with SKU "" and keeps an existing image |
| LegacyGrouping.SeenRecord | src/index.ts:295-320 | What `seen` holds for a product: its ID, the tag and the first row's image list; variable exactly with more than one row, then with SKU "" and the last row's name; otherwise the only row's SKU and name with attributeValue "" |
| LegacyGrouping.LegacyVariation | src/index.ts:322-334 | A row with an option gives a variation with ID "", parent "id:" and the product id cell ("undefined" when missing), the option as attributeValue and in its name, the row's SKU and installment "yes" |
| LegacyGrouping.LegacyGrouped | src/index.ts:336 | The output is one `seen` record per product id, in order of first row, then the variations |
| Enrichment.BuildBasicLookups | index.ts:168-185 | The row loop fills the description, short-description and image maps as the last-row-wins lookups specify |
| Enrichment.BuildAttributeLookups | index.ts:211-229 | The loop over every worksheet and row fills the category and brand maps as specified |
| Enrichment.ReadSheet | index.ts:214-228 | The row loop of one worksheet continues the category and brand lookups over that sheet's rows, each tagged with the sheet's name |
| Enrichment.BuildPriceStockLookups | index.ts:258-277 | The row loop fills the stock, price and sale-price maps as specified |
| Enrichment.BuildFreightLookups | index.ts:305-321 | The row loop fills the four dimension maps as specified |
| Enrichment.LastRowWith | index.ts:309-321 | The last row keyed `k` in a column: none exactly when no row is, otherwise a row keyed `k` with no later one |
| Enrichment.GetFromLastRow | index.ts:272-276 | A SKU-keyed map holds the value of the last row with that SKU, and nothing when no row has it |
| Enrichment.PriceStockStage | index.ts:249-283 | `/pricestock` fails exactly when there are no records, and for a missing upload; otherwise it keeps length and order and changes only stock and prices |
| Enrichment.StockOf | index.ts:263-268 | The guarded stock sum of index.ts is always a number; the unguarded sum of src/index.ts is NaN exactly when some stock cell is not a number; any numeric result equals the guarded sum |
| Enrichment.WithPriceStock | index.ts:278-283 | Only stock and prices change, each present exactly when its map has the record's SKU |
| Enrichment.PriceStockFromLastRow | index.ts:261-283 | Stock, sale price and regular price come from the last row with the record's SKU; with no such row all three become undefined, whatever they held |
| Enrichment.PriceStockIdempotent | index.ts:278-283 | Running `/pricestock` twice with the same upload equals running it once |
| Enrichment.FreightStage | index.ts:296-328 | `/freight` fails exactly when there are no records, and for a missing upload; otherwise it keeps length and order and changes only the dimensions |
| Enrichment.WithFreight | index.ts:322-328 | Only the four dimensions change, each present exactly when its map has the record's SKU |
| Enrichment.FreightFromLastRow | index.ts:309-328 | The four dimensions come from the last row with the record's SKU, and become undefined without one |
| Enrichment.FreightIdempotent | index.ts:322-328 | Running `/freight` twice with the same upload equals running it once |
| Sheet.RawSumAgrees | src/index.ts:421-423 | The unguarded stock sum is NaN exactly when some cell is not a number, and otherwise equals the guarded sum of index.ts:263-268 |
| Sheet.NumberOf | index.ts:263-271 | `Number()` of an undefined cell is NaN and of "" is 0; a digit string gives a non-negative number; a negative number comes only from "-" and digits; any other text is NaN |
| Sheet.Compact | index.ts:98 | `filter(Boolean)` keeps only non-empty strings |
| Sheet.CompactMember | index.ts:98 | A string survives `filter(Boolean)` exactly when it is non-empty and some cell holds it |
| Sheet.ImageListEmpty | index.ts:98 | The joined image list is empty exactly when no image cell is truthy |
| Sheet.DecimalRoundTrip | index.ts:369 | The decimal text of a number reads back as that number |
| Sheet.DecimalLength | index.ts:369 | A number between 10^k and 10^(k+1) has k+1 digits |
| Stages.Guard | index.ts:157-160 | A later stage refuses "no data" exactly when there are no records, then "no file" exactly when the upload is missing |
| Stages.BasicStage | index.ts:155-194 | `/basic` fails exactly when there are no records, and for a missing upload; otherwise it keeps length and order and changes only the descriptions and the image |
| Stages.WithBasic | index.ts:186-194 | Only the descriptions and the image change, and both descriptions are set; a variation, or a record without `lazada_product_id`, gets "" descriptions and keeps its image; the image is either kept or a non-empty joined list |
| Stages.WithBasicById | src/index.ts:384-392 | Only the descriptions and the image change; an ID missing from a map gives "" for that description, and an ID without images keeps the image |
| Stages.BasicOfRecord | index.ts:186-194 | A variation gets "" descriptions and keeps its image. Any other record gets each description from the last row with its `lazada_product_id` that has one, or "" when none does; its image list likewise, or it keeps its image |
| Stages.BasicByIdOfRecord | src/index.ts:384-392 | The same join on `ID` for every record: the description and the short description are each that of the last row listing the ID with one, or "" exactly when no row does; the image list is the last such row's, or the record's own when there is none; so a variation (ID "") gets "" descriptions and keeps its image |
| Stages.BasicLookupValues | index.ts:171-185 | The `/basic` maps hold a key exactly when a row with that id has a non-empty value, and the value is that of the last such row |
| Stages.BasicIdempotent | index.ts:186-194 | Running `/basic` twice with the same upload equals running it once |
| Stages.AttributeStage | index.ts:205-236 | `/attribute` fails exactly when there are no records, and for a missing upload; it succeeds otherwise, keeping length and order and changing only category and brand |
| Stages.WithCategory | index.ts:230-236 | Only category and brand change, both are set, and a missing key or a miss gives "" |
| Stages.LastSheetListing | index.ts:213-229 | The last worksheet listing an id: none exactly when no sheet lists it |
| Stages.SheetCategories | index.ts:219-228 | Within one sheet, every listed id maps to the sheet's name |
| Stages.CategoryIsLastSheet | index.ts:213-233 | A record's category is the name of the last worksheet that lists its id |
| Stages.AttributeOfRecord | index.ts:230-236 | Category and brand come from the lookups, and become "" on a miss |
| Export.RandomSuffix | index.ts:369 | `Math.floor(100000 + Math.random() * 900000)` renders as exactly six digits |
| Export.ChooseAttribute | index.ts:362-373 | A variable record always gets a non-empty attribute; any other record gets "" or the trimmed "Attribute 1 name" of the first reference row with its name; a non-empty attribute never starts or ends with white space |
| Export.ChooseAttributeCases | index.ts:362-373 | The attribute is the trimmed "Attribute 1 name" of the first reference row with the record's name when that is not blank; otherwise "65smart" plus six digits (13 characters) for a variable record, and "" for any other |
| Export.WithAttributes | index.ts:362-373 | Every record keeps its place and gets its chosen attribute |
| Export.AttributeAlwaysSet | index.ts:362-373 | Every record gets an attribute, and a variable record a non-empty one |
| Export.OfKind | index.ts:384-386 | Filtering by type gives no more records than it is given, all of that type, and keeps a record exactly when it has the type; order and multiplicity are stated by `OfKindAppend` and `OfKindSingle` |
| Export.OfKindAppend | index.ts:384-386 | `filter` keeps order and multiplicity: filtering a concatenation filters each part, concatenated |
| Export.OfKindSingle | index.ts:384-386 | One record is kept exactly when it has the type |
| Export.VariableSku | index.ts:388-393 | The variable SKU is that of the reference row whose "Meta: lazada_product_id" is the group key and whose Type is "variable"; without one it is "65smarttools-" + the first variation's SKU |
| Export.VariableRow | index.ts:394-428 | The variable row has type "variable", the chosen SKU and an attribute; `json` equals `swatchesAttributes`; attributeValue is the distinct trimmed values joined by ","; the short description, description, category and image are each the first variable record's value when it has one, else the first variation's, else ""; the attribute is chosen the same way; ID, name and parent come from the first variable record, and without one the ID is "" and the name that of the first variation |
| Export.FillDefaultFields | index.ts:341-350 | Each of the short description, description, category and image is the record's own value when it has one, else the fallback's, else ""; every other field is the record's own |
| Export.Linked | index.ts:436-443 | Each variation is pushed with its parent set to the variable SKU and the variable's attribute, and nothing else changed |
| Export.LinkVariations | index.ts:436-443 | The push loop computes `Linked` |
| Export.PushAll | index.ts:445 | The push loop appends the simple records in order |
| Export.BuildGroupRows | index.ts:383-446 | The per-group loop body computes `GroupRows` |
| Export.GroupRows | index.ts:383-446 | Every simple row of a group is one of its records unchanged, and when every record has an attribute so does every row |
| Export.ExportRecords | index.ts:362-448 | Every exported record has an attribute, and every simple one is one of the attributed input records |
| Export.BlockRowsFrom | index.ts:375-448 | The reversed and flattened groups hold only rows with an attribute, and only simple rows drawn from the records |
| Export.BuildGroupedArray | index.ts:375-447 | The two loops build one group per key, in the order keys are first met |
| Export.VisitGroups | index.ts:382-447 | `grouped.forEach` over the keys in insertion order builds one block per key, each `GroupRows` of that key's records, given that `grouped` holds each key's records |
| Export.GroupRowsParts | index.ts:387-445 | A group with variations is its variable row, then its linked variations, then its simples; the variable row has the chosen SKU |
| Export.GroupShape | index.ts:383-446 | A group without variations is exactly its simples; with variations the variable row is first and no later row is variable |
| Export.ParentsBeforeConcat | index.ts:448 | Concatenating two lists where every variation follows a variable row keeps that property |
| Export.ParentsBeforeFlatten | index.ts:448 | Flattening groups with that property keeps it |
| Export.GroupParentsBefore | index.ts:383-446 | In every group a variable row precedes every variation |
| Export.ParentPrecedes | index.ts:375-448 | In the exported order every variation has a variable row somewhere before it |
| Export.SwatchTerms | index.ts:401-432 | The term keys are the distinct trimmed non-empty variation values in first-seen order; each term is named after its key, and its image is the first matching variation's image, or `false` without one |
| Export.VariableRowSwatch | index.ts:394-434 | The variable row's attributeValue is the distinct values joined by ","; `json` and `swatchesAttributes` are identical and parse to a swatch keyed by the trimmed attribute, of type "select" when the name is "select" and "image" otherwise, whose terms are `TermsFor` |
| Export.WithAttributesSnoc | index.ts:362-373 | Choosing attributes distributes over appending one record |
| Export.BlocksSnoc | index.ts:377-447 | A record with a new group key adds one group at the end |
| Export.NewGroupGoesFirst | index.ts:448 | Groups come out in reverse discovery order: a record with a new key puts its group before all earlier ones |
| Export.GroupKeeps | index.ts:384-445 | Every simple record of a group is emitted, and every variation is emitted linked to the group's variable SKU |
| Export.LinkedKeeps | index.ts:436-443 | Each variation has a pushed copy of the same type that differs from it only in `parent` and `attribute` |
| Export.GroupExported | index.ts:375-448 | Every attributed record lies in the group of its key, and that group's rows are all exported |
| Export.RecordKept | index.ts:362-448 | A simple record is exported unchanged apart from its attribute; a variation is exported with only parent and attribute changed |
| Export.Project | index.ts:449-498 | The export row carries every field of the record except `json` and `tags` |
| Export.ProjectKeepsFields | index.ts:449-498 | Two records have the same export row exactly when they agree on every field but `json` and `tags` |
| Export.ExportStage | index.ts:351-498 | The export fails with "no data" exactly when there are no records, and with "no file" exactly for a missing upload; otherwise it gives one row per exported record, projected in order |
| LegacyExport.LegacyAttribute | src/index.ts:71-84 | The attribute is the untrimmed, possibly undefined, "Attribute 1 name" of the first reference row with the record's name; without one, "65smart" plus six digits for a variable record and "" otherwise |
| LegacyExport.Inherit | src/index.ts:86-100 | Only the attribute may change; without an "id:" parent the record is unchanged; a changed attribute is that of a record whose ID the parent names |
| LegacyExport.WithLegacyAttributes | src/index.ts:71-84 | Every record keeps its place and gets its chosen attribute |
| LegacyExport.Inherited | src/index.ts:86-100 | Every record keeps its place, with the inheritance applied |
| LegacyExport.ParentIdOf | src/index.ts:87-88 | A parent "id:"+x names the ID `x` trimmed |
| LegacyExport.InheritFromParent | src/index.ts:86-100 | A record whose parent is "id:"+x takes the attribute of the first record whose ID is `x` trimmed, with nothing else changed, and stays as it is when no record has that ID |
| LegacyExport.InheritWith | src/index.ts:86-100 | A record whose parent names ID p takes the attribute of the first record with ID p, and stays as it is when there is none |
| LegacyExport.IdFound | src/index.ts:89-91 | Looking up a parent ID finds a record exactly when some record has that ID |
| LegacyExport.NoParentNoInheritance | src/index.ts:86-100 | A record without an "id:" parent is unchanged |
| LegacyExport.JsonType | src/index.ts:102-115 | `jsonType` has at most one term per record; its order is given by `JsonTypeAppend` |
| LegacyExport.TermOf | src/index.ts:102-115 | A contributing variation's term is keyed by its non-empty attributeValue, named after it, has its image or "", and the fixed empty colour and tooltips and size "38448" |
| LegacyExport.JsonTypeAppend | src/index.ts:102-115 | `jsonType` keeps record order: the terms of concatenated records are each part's terms, concatenated |
| LegacyExport.JsonTypeAround | src/index.ts:102-115 | Around a contributing record, `jsonType` is the earlier records' terms, its own term, then the later records' terms |
| LegacyExport.JsonTypeWithoutKey | src/index.ts:102-117 | Records none of which contributes under a label give a `jsonType` with no term for that label |
| LegacyExport.JsonTypeFirst | src/index.ts:102-117 | `jsonType.find` for a label that some variation carries reaches the term of the first variation carrying it |
| LegacyExport.FirstKeyAfter | src/index.ts:117 | `find` stops at a matching element when no earlier one matches |
| LegacyExport.JsonTypeMember | src/index.ts:102-115 | `jsonType` holds exactly the terms of the variations with a truthy attributeValue |
| LegacyExport.JsonResult | src/index.ts:117-123 | Every record keeps its place and gets its `json` |
| LegacyExport.WithJson | src/index.ts:117-123 | Only `json` changes; it is the serialised first term keyed by the record's label when `jsonType` has one, and "" otherwise |
| LegacyExport.JsonOfRecord | src/index.ts:117-123 | A record's `json` is a serialised one-term object exactly when some variation has its attributeValue as label; that term is keyed by the label and is the term of the first such variation, no earlier record carrying the label |
| LegacyExport.SwatchIndex | src/index.ts:128 | Looking an attribute up in `combinedJson` finds an entry with that key, or there is none |
| LegacyExport.Children | src/index.ts:136-145 | `childItems` holds exactly the records whose truthy parent, with "id:" removed and trimmed, equals the parent's ID; order and multiplicity are stated by `ChildrenAppend` and `ChildrenSingle` |
| LegacyExport.ChildrenAppend | src/index.ts:136-145 | `filter` keeps order and multiplicity: the children among concatenated records are each part's children, concatenated |
| LegacyExport.ChildrenSingle | src/index.ts:136-145 | One record is a child exactly when its parent names the ID |
| LegacyExport.MergeChildrenAsMap | src/index.ts:146-156 | Merging the children's terms keeps keys unique, and the result as a map is the old one overwritten by each child's parsed terms in turn; unparsable `json` is skipped |
| LegacyExport.MergeChildAsMap | src/index.ts:146-156 | One child with parsable `json` overwrites the terms map with its own terms; one without leaves it as it was; keys stay unique |
| LegacyExport.AddParentFrame | src/index.ts:126-157 | One parent changes only the swatch of its own attribute, and a new swatch goes last |
| LegacyExport.AddParentWellFormed | src/index.ts:126-157 | One parent keeps every swatch keyed once, named after its key, of type "image", with unique term keys |
| LegacyExport.SwatchIndexUnique | src/index.ts:128 | In a well-formed `combinedJson` the lookup finds the one entry with that key |
| LegacyExport.SwatchOtherKey | src/index.ts:126-157 | A record that is not a parent of attribute A leaves A's swatch as it was |
| LegacyExport.SwatchSameKey | src/index.ts:126-157 | A parent of attribute A creates A's swatch if needed and merges its children's terms into it |
| LegacyExport.NoParentNoTerms | src/index.ts:126-157 | Without a parent of attribute A, no terms are collected for A |
| LegacyExport.CombinedJsonWellFormed | src/index.ts:125-158 | `combinedJson` is well formed after any prefix of records |
| LegacyExport.CombinedJson | src/index.ts:125-158 | `combinedJson` has at most one swatch per record, each keyed by the attribute of a record with a truthy attribute and ID |
| LegacyExport.AddParentKeyed | src/index.ts:125-158 | One pass of `jsonResult.forEach` adds at most one swatch, and every swatch stays keyed by the attribute of a record with a truthy attribute and ID |
| LegacyExport.CombinedJsonHolds | src/index.ts:125-158 | `combinedJson` has a swatch for A exactly when some record with an ID has attribute A; it is named A, of type "image", and its terms as a map are the children's terms of every such record, a later term overwriting an earlier one with the same key |
| LegacyExport.CombinedJsonStep | src/index.ts:125-158 | One more record in `jsonResult.forEach` keeps `CombinedJsonHolds` true: the swatch of A exists after it exactly when it existed before or the record is a parent of A, and its terms gain the record's children's terms only in that case |
| LegacyExport.TermsForSameKey | src/index.ts:126-157 | A parent of attribute A leaves A's swatch holding the terms collected so far overwritten by its children's |
| LegacyExport.TermsForOtherKey | src/index.ts:126-157 | A record that is not a parent of A adds no terms for A |
| LegacyExport.HasParentForSnoc | src/index.ts:126-127 | Some record among one more is a parent of A exactly when one was before or the new one is |
| LegacyExport.MergeChildTerms | src/index.ts:146-156 | The child loop computes `MergeChildren` |
| LegacyExport.BuildCombinedJson | src/index.ts:125-158 | The nested loops compute `CombinedJson` |
| LegacyExport.ApplySwatches | src/index.ts:125-171 | Building `combinedJson` from `jsonResult` and then mapping `jsonResult` gives `SwatchesPass` of it |
| LegacyExport.LegacyRows | src/index.ts:172-248 | One export row per record, each the record's projection, in order |
| LegacyExport.WithSwatches | src/index.ts:160-171 | Only `swatchesAttributes` changes; a variation gets ""; another record gets the serialised swatch of its attribute key when `combinedJson` has one, and "" otherwise |
| LegacyExport.LegacyJsonResult | src/index.ts:71-123 | The attributed, inherited and `json`-tagged records have the input's length; their contents are stated by `LegacyExportShape` and `JsonOfRecord` |
| LegacyExport.LegacyExportRecords | src/index.ts:160-171 | The export keeps the number of records; their contents are stated by `LegacyExportShape` and `LegacySwatchOfRecord` |
| LegacyExport.LegacySwatchOfRecord | src/index.ts:160-171 | A non-variation record gets the serialised swatch of its attribute (an undefined attribute reads the key "undefined") exactly when a record with an ID has that attribute, with the merged terms `CombinedJsonHolds` describes; otherwise "" |
| LegacyExport.LegacyExportShape | src/index.ts:70-171 | Every record stays in place with only attribute, `json` and `swatchesAttributes` changed; a variation's `swatchesAttributes` is "" |
| LegacyExport.LegacyProject | src/index.ts:172-248 | The 47-column row carries every field of the record except `json` and `lazada_product_id` |
| LegacyExport.LegacyExportStage | src/index.ts:61-248 | Fails with "no data" exactly when there are no records, and with "no file" exactly for a missing upload; otherwise one projected row per record, in input order, with no reversal |
| LegacyExport.LegacyExportStageOk | src/index.ts:61-248 | With records and a reference table, the export is the rows of the attribute, inheritance, `json` and swatch passes applied in that order |
| Seqs.DistinctSpec | index.ts:102 | `[...new Set(xs)]` is duplicate-free, has the members of `xs`, and keeps first-appearance order |
| Seqs.GroupBy | index.ts:375-381 | The grouping loop gives the keys in first-seen order and, for each, its members in order |
| Seqs.AddToGroup | index.ts:377-380 | One element adds its key at the end of the key order when the key is new, and appends the element to its key's list, leaving every other list as it was |
| Seqs.DistinctKeysInOrder | index.ts:377-380 | The keys of a grouping map are listed in the order of their first elements |
| Seqs.CollectMember | src/index.ts:322-334 | The present results of a mapping hold exactly the results of some element |
| Seqs.CollectAppend | src/index.ts:322-334 | Collecting over concatenated lists concatenates the results |
| Seqs.MembersAppend | index.ts:88-92 | A key's members over concatenated lists are the members of each part, concatenated |
| Seqs.KeysOfMember | index.ts:88-92 | A key is grouped exactly when some element carries it |
| Seqs.LastRowWins | index.ts:171-185 | A lookup map holds a key exactly when some row sets it, and its value is the last such row's |
| Seqs.GetFromLookup | index.ts:171-185 | A miss means no row sets the key, and a hit is the last row's value |
| Seqs.LookupAppend | src/index.ts:500-522 | Looking up over concatenated rows overlays the later rows' map on the earlier one's |
| Seqs.IndexWhere | index.ts:363 | `find` gives the first element satisfying the predicate, or none when no element does |
| Seqs.Reverse | index.ts:448 | `reverse()` puts the i-th element from the end at position i |
| Seqs.FlattenReverseSnoc | index.ts:448 | `reverse().flat()` of groups with one more at the end starts with that group |
| Seqs.FlattenMember | index.ts:448 | Every element of a group is in the flattened list |
| Seqs.FlattenFrom | index.ts:448 | Every element of the flattened list comes from one of the groups |
| Seqs.FlattenReverseFrom | index.ts:448 | Every element of `reverse().flat()` comes from one of the groups |
| Seqs.MembersFrom | index.ts:375-381 | Every member of a key's list is one of the grouped elements |
| Strings.TrimSpec | index.ts:366-367 | `trim()` gives a slice of the text with only white space cut away on either side |
| Strings.Trim | index.ts:366-367 | `trim()` is no longer than the text and neither starts nor ends with white space |
| Strings.TrimIdempotent | index.ts:366-367 | Trimming twice equals trimming once |
| Strings.RemoveFirstOfPrefix | src/index.ts:88 | `replace("id:", "")` on a text starting with "id:" drops exactly that prefix |
| Strings.JoinEmptyIff | index.ts:406 | Joining non-empty strings gives "" exactly for the empty list |
| Swatches.Parse | src/index.ts:146-156 | `JSON.parse` succeeds exactly on serialised text and gives back what was serialised |
| Swatches.SpreadAsMap | src/index.ts:148-151 | `{ ...a, ...b }` over an object with unique keys is `a`'s map overwritten by `b`'s |
| Swatches.SpreadKeys | src/index.ts:148-151 | `{ ...a, ...b }` keeps keys unique and `a`'s keys in their positions |
| Swatches.PutAsMap | src/index.ts:148-151 | Setting a key updates the map at that key |
| Swatches.ReplaceAsMap | src/index.ts:148-151 | Setting an existing key of an object with unique keys replaces its value in place, and the map changes at that key only |
| Pipeline.Pipeline.constructor | index.ts:43-44 | Both module-level lists start empty |
| Pipeline.Pipeline.SkuImg | index.ts:62-140 | A valid upload replaces the records with `Grouped` of its first sheet; a refused one changes nothing |
| Pipeline.Pipeline.Basic | index.ts:155-194 | Replaces the records with the `/basic` result (join on `lazada_product_id`), or refuses and changes nothing |
| Pipeline.Pipeline.Attribute | index.ts:205-236 | Replaces the records with the `/attribute` result, or refuses and changes nothing |
| Pipeline.Pipeline.PriceStock | index.ts:247-283 | Replaces the records with the `/pricestock` result (non-numbers counted as 0), or refuses and changes nothing |
| Pipeline.Pipeline.Freight | index.ts:294-328 | Replaces the records with the `/freight` result, or refuses and changes nothing |
| Pipeline.Pipeline.ExportProducts | index.ts:339-508 | Answers with `ExportStage` of the records, leaves them unchanged and sets `attributeResult` to the attributed records |
| LegacyPipeline.LegacyPipeline.constructor | src/index.ts:43-49 | All module-level lists start empty |
| LegacyPipeline.LegacyPipeline.SkuImg | src/index.ts:264-350 | A valid upload replaces the records with `LegacyGrouped` of its first sheet; a refused one changes nothing |
| LegacyPipeline.LegacyPipeline.Basic | src/index.ts:352-402 | Replaces the records with the `/basic` result joined on `ID`, or refuses and changes nothing |
| LegacyPipeline.LegacyPipeline.Attribute | src/index.ts:496-537 | Replaces the records with the `/attribute` result joined on `ID`, or refuses and changes nothing |
| LegacyPipeline.LegacyPipeline.PriceStock | src/index.ts:404-447 | Replaces the records with the `/pricestock` result whose stock sum becomes NaN on any non-number, or refuses and changes nothing |
| LegacyPipeline.LegacyPipeline.Freight | src/index.ts:449-494 | Replaces the records with the `/freight` result, or refuses and changes nothing |
| LegacyPipeline.LegacyPipeline.ExportProducts | src/index.ts:58-262 | Answers with `LegacyExportStage`, leaves the records unchanged, and sets `attributeResult`, `jsonType` and `jsonResult` as the handler does |

## Left out

- The HTTP server, CORS headers, `listen`, environment loading and the `Response` objects are
  transport only.
- Reading workbooks and writing sheets or CSV (`read`, `sheet_to_json`, `json_to_sheet`,
  `book_new`, `sheet_to_csv`, `TextDecoder`) are library calls. Worksheets come in already
  decoded as grids from their fifth row. The export's reference table comes in already decoded
  as header-keyed maps. The CSV text is not modelled; handlers return the records or rows.
- Cell types: every cell is modelled as its text. The spreadsheet reader gives a numeric cell
  as a number by default, and the model does not capture that. The consequence shows in
  src/index.ts: the parent lookup when attributes are inherited (lines 88-90) compares a
  record's `ID` with `===` against the text taken from its "id:" parent. With numeric product
  IDs that comparison never holds, so in the program no record inherits its parent's
  attribute. `LegacyExport.InheritFromParent` states the inheritance for IDs read as text. The
  child filter (lines 136-140) converts both sides with `String(...)` and is not affected.
  Wherever else either file compares a cell, uses it as a `Map` key or trims it, the model
  treats the cell as text; the program would be working with a number there.
- A workbook whose first sheet cannot be read makes `/skuimg`, `/basic`, `/pricestock` and
  `/freight` fail. This is modelled as one "unreadable" error, standing for the exception the
  library throws.
- `Number()` is modelled on integers: the empty text reads 0, an optional "-" and digits read
  as that integer, and anything else is NaN. JavaScript reads more forms as numbers, and
  `Sheet.NumberOf` reads each of them as NaN: a leading "+" ("+5" is 5), surrounding white
  space, decimals and exponents ("1.5", ".5", "1e3"), "Infinity" with either sign, and
  hexadecimal, binary and octal literals ("0x1F", "0b101", "0o7"). A stock cell in one of these
  forms therefore adds 0 to the guarded sum of index.ts instead of its value, makes the
  unguarded sum of src/index.ts NaN, and a price cell in one of them becomes NaN. Floating-point
  rounding of the stock sum is not modelled either.
- `JSON.stringify` is a constructor and `JSON.parse` its inverse on serialised text. Parsing any
  other text counts as failure, and character-level JSON is not modelled.
- JavaScript objects are ordered entry lists. The engine's rule that integer-like keys come
  first, and keys inherited from `Object.prototype` (such as "constructor"), are not modelled.
- Export.ExportStage: a SKU or ID that is `undefined` (for instance from a reference row
  without a "SKU" column) is the empty string, since both print as an empty CSV cell.
- Pipeline.Pipeline.ExportProducts: `Math.random()` is a parameter `draws`, one draw per record
  position.
- Concurrent requests that interleave on the shared module-level lists are not modelled; every
  request runs to completion before the next.
- The unused declarations (`AttributeData`, the `JsonType` type, and the `jsonResult`,
  `jsonType` and `finalResult` globals that index.ts never reads) are not modelled.
- Export.Project and LegacyExport.LegacyProject: the export columns whose cells
  are constants ("Published", "Tax status" and the like) are the list `Export.FixedColumns`,
  kept apart from the row datatypes. The two round trips therefore speak only of the columns
  taken from the record. The column order of the CSV is not modelled.
