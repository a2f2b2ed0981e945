/**
 * The handlers of index.ts as one sequential object. `/skuimg` sets the accumulated records;
 * `/basic`, `/attribute`, `/pricestock` and `/freight` each replace them with the records
 * rewritten from their upload; `/wc-product-export` leaves them as they are, sets the
 * attributed records and answers with the exported rows. A refused request changes nothing.
 */
module Pipeline {
  import opened Wrappers
  import opened Sheet
  import opened Records
  import opened Enrichment
  import opened Grouping
  import opened Stages
  import opened Seqs
  import opened Export

  /** `/skuimg`: the upload checks, then the records grouped from its first worksheet. */
  function SkuImgStage(upload: Option<Upload>): (r: Result<seq<Record>, Error>)
    ensures ValidateUpload(upload).Some? ==> r == Err(ValidateUpload(upload).value)
    ensures r.Ok? <==> ValidateUpload(upload).None? && |upload.value.sheets| > 0
    ensures ValidateUpload(upload).None? && |upload.value.sheets| == 0 ==> r == Err(Unreadable)
  {
    match ValidateUpload(upload)
    case Some(e) => Err(e)
    case None =>
      match FirstSheet(upload.value)
      case None => Err(Unreadable)
      case Some(grid) => Ok(Grouped(grid))
  }

  /** The state index.ts keeps between requests: `skuimgResult` and `attributeResult`. */
  class Pipeline {
    var skuimgResult: seq<Record>
    var attributeResult: seq<Record>

    constructor ()
      ensures skuimgResult == [] && attributeResult == []
    {
      skuimgResult := [];
      attributeResult := [];
    }

    /** `/skuimg`: a valid upload replaces the accumulated records with its grouped rows. */
    method SkuImg(upload: Option<Upload>) returns (err: Option<Error>)
      modifies this
      ensures attributeResult == old(attributeResult)
      ensures match SkuImgStage(upload)
        case Ok(rs) => err.None? && skuimgResult == rs
        case Err(e) => err == Some(e) && skuimgResult == old(skuimgResult)
    {
      err := ValidateUpload(upload);
      if err.Some? {
        return;
      }
      var u := upload.value;
      if |u.sheets| == 0 {
        err := Some(Unreadable);
        return;
      }
      skuimgResult := GroupProducts(u.sheets[0].rows);
    }

    /** `/basic`, joined on `lazada_product_id`. */
    method Basic(upload: Option<Upload>) returns (err: Option<Error>)
      modifies this
      ensures attributeResult == old(attributeResult)
      ensures match BasicStage(old(skuimgResult), upload, false)
        case Ok(rs) => err.None? && skuimgResult == rs
        case Err(e) => err == Some(e) && skuimgResult == old(skuimgResult)
    {
      err := Guard(skuimgResult, upload);
      if err.Some? {
        return;
      }
      var u := upload.value;
      if |u.sheets| == 0 {
        err := Some(Unreadable);
        return;
      }
      var l := BuildBasicLookups(u.sheets[0].rows);
      var acc := skuimgResult;
      skuimgResult := seq(|acc|, i requires 0 <= i < |acc| => WithBasic(acc[i], l));
    }

    /** `/attribute`, reading every worksheet and joining on `lazada_product_id`. */
    method Attribute(upload: Option<Upload>) returns (err: Option<Error>)
      modifies this
      ensures attributeResult == old(attributeResult)
      ensures match AttributeStage(old(skuimgResult), upload, false)
        case Ok(rs) => err.None? && skuimgResult == rs
        case Err(e) => err == Some(e) && skuimgResult == old(skuimgResult)
    {
      err := Guard(skuimgResult, upload);
      if err.Some? {
        return;
      }
      var l := BuildAttributeLookups(upload.value.sheets);
      var acc := skuimgResult;
      skuimgResult := seq(|acc|, i requires 0 <= i < |acc| => WithCategory(acc[i], l, JoinKey(acc[i], false)));
    }

    /** `/pricestock`, whose stock sum counts a non-numeric cell as 0. */
    method PriceStock(upload: Option<Upload>) returns (err: Option<Error>)
      modifies this
      ensures attributeResult == old(attributeResult)
      ensures match PriceStockStage(old(skuimgResult), upload, true)
        case Ok(rs) => err.None? && skuimgResult == rs
        case Err(e) => err == Some(e) && skuimgResult == old(skuimgResult)
    {
      err := Guard(skuimgResult, upload);
      if err.Some? {
        return;
      }
      var u := upload.value;
      if |u.sheets| == 0 {
        err := Some(Unreadable);
        return;
      }
      var l := BuildPriceStockLookups(u.sheets[0].rows, true);
      skuimgResult := MergePriceStock(skuimgResult, l);
    }

    /** `/freight` */
    method Freight(upload: Option<Upload>) returns (err: Option<Error>)
      modifies this
      ensures attributeResult == old(attributeResult)
      ensures match FreightStage(old(skuimgResult), upload)
        case Ok(rs) => err.None? && skuimgResult == rs
        case Err(e) => err == Some(e) && skuimgResult == old(skuimgResult)
    {
      err := Guard(skuimgResult, upload);
      if err.Some? {
        return;
      }
      var u := upload.value;
      if |u.sheets| == 0 {
        err := Some(Unreadable);
        return;
      }
      var l := BuildFreightLookups(u.sheets[0].rows);
      skuimgResult := MergeFreight(skuimgResult, l);
    }

    /**
     * `/wc-product-export` with the reference table already decoded: the accumulated records
     * stay as they are, `attributeResult` gets their attributes, and the rows are those of
     * `ExportStage`.
     */
    method ExportProducts(upload: Option<RefTable>, draws: nat -> nat) returns (r: Result<seq<ExportRow>, Error>)
      modifies this
      ensures skuimgResult == old(skuimgResult)
      ensures r == ExportStage(old(skuimgResult), upload, draws)
      ensures r.Ok? ==> attributeResult == WithAttributes(skuimgResult, upload.value, draws)
      ensures r.Err? ==> attributeResult == old(attributeResult)
    {
      if |skuimgResult| == 0 {
        return Err(NoData);
      }
      if upload.None? {
        return Err(NoFileUploaded);
      }
      var ref := upload.value;
      attributeResult := WithAttributes(skuimgResult, ref, draws);
      var groupedArray := BuildGroupedArray(attributeResult, ref);
      var records := Flatten(Reverse(groupedArray));
      assert records == ExportRecords(skuimgResult, ref, draws);
      r := Ok(seq(|records|, i requires 0 <= i < |records| => Project(records[i])));
    }
  }
}
