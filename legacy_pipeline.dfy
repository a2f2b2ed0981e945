/**
 * The handlers of src/index.ts as one sequential object. Against index.ts it groups with the
 * incremental `seen` map, joins `/basic` and `/attribute` on `ID`, sums stock without a guard
 * against non-numeric cells, and its export keeps `attributeResult`, `jsonType` and
 * `jsonResult` as state of their own.
 */
module LegacyPipeline {
  import opened Wrappers
  import opened Sheet
  import opened Records
  import opened Swatches
  import opened Enrichment
  import opened Stages
  import opened Export
  import opened LegacyGrouping
  import opened LegacyExport

  /** `/skuimg` of src/index.ts: the same upload checks, then the incremental grouping. */
  function LegacySkuImgStage(upload: Option<Upload>): (r: Result<seq<Record>, Error>)
    ensures ValidateUpload(upload).Some? ==> r == Err(ValidateUpload(upload).value)
    ensures r.Ok? <==> ValidateUpload(upload).None? && |upload.value.sheets| > 0
    ensures ValidateUpload(upload).None? && |upload.value.sheets| == 0 ==> r == Err(Unreadable)
  {
    match ValidateUpload(upload)
    case Some(e) => Err(e)
    case None =>
      match FirstSheet(upload.value)
      case None => Err(Unreadable)
      case Some(grid) => Ok(LegacyGrouped(grid))
  }

  /** The state src/index.ts keeps between requests. */
  class LegacyPipeline {
    var skuimgResult: seq<Record>
    var attributeResult: seq<Record>
    var jsonType: Entries
    var jsonResult: seq<Record>

    constructor ()
      ensures skuimgResult == [] && attributeResult == [] && jsonType == [] && jsonResult == []
    {
      skuimgResult := [];
      attributeResult := [];
      jsonType := [];
      jsonResult := [];
    }

    /** `/skuimg`: a valid upload replaces the accumulated records with its grouped rows. */
    method SkuImg(upload: Option<Upload>) returns (err: Option<Error>)
      modifies this
      ensures attributeResult == old(attributeResult) && jsonType == old(jsonType) && jsonResult == old(jsonResult)
      ensures match LegacySkuImgStage(upload)
        case Ok(rs) => err.None? && skuimgResult == rs
        case Err(e) => err == Some(e) && skuimgResult == old(skuimgResult)
    {
      err := ValidateUpload(upload);
      if err.Some? {
        return;
      }
      var u := upload.value;
      if |u.sheets| == 0 {
        err := Some(Unreadable);
        return;
      }
      skuimgResult := LegacyGroupProducts(u.sheets[0].rows);
    }

    /** `/basic`, joined on `ID`. */
    method Basic(upload: Option<Upload>) returns (err: Option<Error>)
      modifies this
      ensures attributeResult == old(attributeResult) && jsonType == old(jsonType) && jsonResult == old(jsonResult)
      ensures match BasicStage(old(skuimgResult), upload, true)
        case Ok(rs) => err.None? && skuimgResult == rs
        case Err(e) => err == Some(e) && skuimgResult == old(skuimgResult)
    {
      err := Guard(skuimgResult, upload);
      if err.Some? {
        return;
      }
      var u := upload.value;
      if |u.sheets| == 0 {
        err := Some(Unreadable);
        return;
      }
      var l := BuildBasicLookups(u.sheets[0].rows);
      var acc := skuimgResult;
      skuimgResult := seq(|acc|, i requires 0 <= i < |acc| => WithBasicById(acc[i], l));
    }

    /** `/attribute`, reading every worksheet and joining on `ID`. */
    method Attribute(upload: Option<Upload>) returns (err: Option<Error>)
      modifies this
      ensures attributeResult == old(attributeResult) && jsonType == old(jsonType) && jsonResult == old(jsonResult)
      ensures match AttributeStage(old(skuimgResult), upload, true)
        case Ok(rs) => err.None? && skuimgResult == rs
        case Err(e) => err == Some(e) && skuimgResult == old(skuimgResult)
    {
      err := Guard(skuimgResult, upload);
      if err.Some? {
        return;
      }
      var l := BuildAttributeLookups(upload.value.sheets);
      var acc := skuimgResult;
      skuimgResult := seq(|acc|, i requires 0 <= i < |acc| => WithCategory(acc[i], l, JoinKey(acc[i], true)));
    }

    /** `/pricestock`, whose stock sum lets a non-numeric cell make the stock NaN. */
    method PriceStock(upload: Option<Upload>) returns (err: Option<Error>)
      modifies this
      ensures attributeResult == old(attributeResult) && jsonType == old(jsonType) && jsonResult == old(jsonResult)
      ensures match PriceStockStage(old(skuimgResult), upload, false)
        case Ok(rs) => err.None? && skuimgResult == rs
        case Err(e) => err == Some(e) && skuimgResult == old(skuimgResult)
    {
      err := Guard(skuimgResult, upload);
      if err.Some? {
        return;
      }
      var u := upload.value;
      if |u.sheets| == 0 {
        err := Some(Unreadable);
        return;
      }
      var l := BuildPriceStockLookups(u.sheets[0].rows, false);
      skuimgResult := MergePriceStock(skuimgResult, l);
    }

    /** `/freight` */
    method Freight(upload: Option<Upload>) returns (err: Option<Error>)
      modifies this
      ensures attributeResult == old(attributeResult) && jsonType == old(jsonType) && jsonResult == old(jsonResult)
      ensures match FreightStage(old(skuimgResult), upload)
        case Ok(rs) => err.None? && skuimgResult == rs
        case Err(e) => err == Some(e) && skuimgResult == old(skuimgResult)
    {
      err := Guard(skuimgResult, upload);
      if err.Some? {
        return;
      }
      var u := upload.value;
      if |u.sheets| == 0 {
        err := Some(Unreadable);
        return;
      }
      var l := BuildFreightLookups(u.sheets[0].rows);
      skuimgResult := MergeFreight(skuimgResult, l);
    }

    /**
     * `/wc-product-export` with the reference table already decoded: the accumulated records
     * stay as they are; `attributeResult`, `jsonType` and `jsonResult` are set in turn, and the
     * rows are those of `LegacyExportStage`.
     */
    method ExportProducts(upload: Option<RefTable>, draws: nat -> nat) returns (r: Result<seq<LegacyRow>, Error>)
      modifies this
      ensures skuimgResult == old(skuimgResult)
      ensures r == LegacyExportStage(old(skuimgResult), upload, draws)
      ensures r.Ok? ==>
        && attributeResult == Inherited(WithLegacyAttributes(skuimgResult, upload.value, draws))
        && jsonType == JsonType(attributeResult)
        && jsonResult == LegacyExportRecords(skuimgResult, upload.value, draws)
      ensures r.Err? ==> attributeResult == old(attributeResult) && jsonType == old(jsonType) && jsonResult == old(jsonResult)
    {
      if |skuimgResult| == 0 {
        return Err(NoData);
      }
      if upload.None? {
        return Err(NoFileUploaded);
      }
      var ref := upload.value;
      var attributes := WithLegacyAttributes(skuimgResult, ref, draws);
      attributes := Inherited(attributes);
      var types := JsonType(attributes);
      var results := JsonResult(attributes);
      results := ApplySwatches(results);
      LegacyExportStageOk(skuimgResult, ref, draws);
      attributeResult, jsonType, jsonResult := attributes, types, results;
      r := Ok(LegacyRows(results));
    }
  }
}
