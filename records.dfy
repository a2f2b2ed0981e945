/**
 * The product record (`RowData`) both handler files accumulate. A field the source leaves
 * `undefined` is `None`; `ID`, `type`, `SKU` and `Name` are always present.
 */
module Records {
  import opened Wrappers
  import opened Sheet
  import opened Swatches

  /** `type`: "simple", "variable" or "variation". */
  datatype Kind = Simple | Variable | Variation

  datatype Record = Record(
    id: string,                       // ID
    kind: Kind,                       // type
    sku: string,                      // SKU
    name: string,                     // Name
    shortDescription: Option<string>,
    description: Option<string>,
    stock: Option<Num>,
    salePrice: Option<Num>,
    regularPrice: Option<Num>,
    weight: Option<Num>,
    length: Option<Num>,
    width: Option<Num>,
    height: Option<Num>,
    categories: Option<string>,
    tags: Option<string>,             // src/index.ts only
    image: Option<string>,
    parent: Option<string>,
    swatchesAttributes: Option<Text>,
    brand: Option<string>,
    attribute: Option<string>,
    attributeValue: Option<string>,
    installmentVariable: Option<string>, // installment_variable
    rtwpvgImages: Option<string>,        // rtwpvg_images
    json: Option<Text>,
    lazadaProductId: Option<string>)     // lazada_product_id, index.ts only

  /** A record of the given kind with every optional field `undefined` and empty texts. */
  function Blank(kind: Kind): Record {
    Record("", kind, "", "", None, None, None, None, None, None, None, None, None,
           None, None, None, None, None, None, None, None, None, None, None, None)
  }

  /** `a ?? b ?? ""` */
  function Coalesce(a: Option<string>, b: Option<string>): string {
    if a.Some? then a.value else b.GetOr("")
  }
}
