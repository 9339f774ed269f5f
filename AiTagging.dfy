/** The automated tagging of backend/internal/services/ai_tagging.go: the simulated
    product detection, the tags generated from confident detections, and the result
    ProcessContent stores. Confidences are exact reals; times are nanoseconds. */
module AiTagging {
  import opened Wrappers
  import opened Strings

  const Threshold: real := 0.7

  datatype BoundingBox = BoundingBox(x: int, y: int, width: int, height: int)

  datatype ProductDetection = ProductDetection(productID: string, productName: string, brandID: string,
                                               confidence: real, box: BoundingBox)

  datatype AiTaggingResult = AiTaggingResult(contentID: string, products: seq<ProductDetection>, tags: seq<string>,
                                             processedAt: int)

  /** The two tags a confident detection contributes, in order. */
  function ProductTags(p: ProductDetection): seq<string> {
    [ToLower(p.productName), "brand_" + p.brandID]
  }

  /** The tags of the products, in product order. */
  function Tags(products: seq<ProductDetection>): seq<string> {
    if products == [] then []
    else
      var last := products[|products| - 1];
      Tags(products[..|products| - 1]) + (if last.confidence > Threshold then ProductTags(last) else [])
  }

  /** The number of detections above the threshold. */
  function Confident(products: seq<ProductDetection>): nat {
    if products == [] then 0
    else Confident(products[..|products| - 1]) + (if products[|products| - 1].confidence > Threshold then 1 else 0)
  }

  /** detectProducts: the fixed simulated detection, whatever the media. */
  function DetectProducts(mediaURL: string): (products: seq<ProductDetection>)
    ensures |products| == 1 && products[0].confidence > Threshold
  {
    [ProductDetection("prod_1", "Sample Product", "brand_1", 0.85, BoundingBox(100, 150, 200, 250))]
  }

  /** generateTags: a loop appending two tags per confident product. */
  method GenerateTags(products: seq<ProductDetection>) returns (tags: seq<string>)
    ensures tags == Tags(products)
  {
    tags := [];
    var i := 0;
    while i < |products|
      invariant 0 <= i <= |products|
      invariant tags == Tags(products[..i])
    {
      assert products[..i + 1][..i] == products[..i];
      var product := products[i];
      if product.confidence > Threshold {
        tags := tags + [ToLower(product.productName)];
        tags := tags + ["brand_" + product.brandID];
      }
      i := i + 1;
    }
    assert products[..i] == products;
  }

  /** Two tags per confident product, so none without one. */
  lemma {:induction false} TagsCount(products: seq<ProductDetection>)
    ensures |Tags(products)| == 2 * Confident(products)
    ensures Confident(products) == 0 ==> Tags(products) == []
  {
    if products != [] {
      TagsCount(products[..|products| - 1]);
    }
  }

  /** Tags follow product order: the tags of a concatenation are the concatenated tags. */
  lemma {:induction false} TagsConcat(a: seq<ProductDetection>, b: seq<ProductDetection>)
    ensures Tags(a + b) == Tags(a) + Tags(b)
  {
    if b == [] {
      assert a + b == a;
    } else {
      var init := b[..|b| - 1];
      var last := b[|b| - 1];
      var extra := if last.confidence > Threshold then ProductTags(last) else [];
      TagsConcat(a, init);
      assert (a + b)[..|a + b| - 1] == a + init && (a + b)[|a + b| - 1] == last;
      assert Tags(a + b) == Tags(a + init) + extra;
      assert Tags(b) == Tags(init) + extra;
    }
  }

  /** A product at or below the threshold contributes nothing; one above it contributes its
      lower-cased name and then its brand tag. */
  lemma SingleProductTags(p: ProductDetection)
    ensures p.confidence <= Threshold ==> Tags([p]) == []
    ensures p.confidence > Threshold ==> Tags([p]) == [ToLower(p.productName), "brand_" + p.brandID]
  {
    assert [p][..0] == [];
    assert Tags([p]) == [] + (if p.confidence > Threshold then ProductTags(p) else []);
  }

  /** The simulated detection tags every content item with these two tags. */
  lemma SampleTags(mediaURL: string)
    ensures Tags(DetectProducts(mediaURL)) == ["sample product", "brand_brand_1"]
  {
    var p := DetectProducts(mediaURL)[0];
    assert DetectProducts(mediaURL) == [p] && p.productName == "Sample Product" && p.brandID == "brand_1";
    SingleProductTags(p);
    var lowered := ToLower("Sample Product");
    assert lowered[0] == 's' && lowered[1] == 'a' && lowered[2] == 'm' && lowered[3] == 'p' && lowered[4] == 'l'
      && lowered[5] == 'e' && lowered[6] == ' ' && lowered[7] == 'p' && lowered[8] == 'r' && lowered[9] == 'o'
      && lowered[10] == 'd' && lowered[11] == 'u' && lowered[12] == 'c' && lowered[13] == 't';
    assert lowered == "sample product";
    assert "brand_" + p.brandID == "brand_brand_1";
  }

  class AiTaggingService {
    var results: seq<AiTaggingResult>

    constructor ()
      ensures results == []
    {
      results := [];
    }

    /** ProcessContent at `now`: the detection and its tags, stored, or the store's error. */
    method ProcessContent(contentID: string, mediaURL: string, now: int, storeError: Option<string>)
      returns (r: Result<AiTaggingResult>)
      modifies this
      ensures storeError.Some? ==> r == Err("failed to store AI tagging results: " + storeError.value) && results == old(results)
      ensures storeError.None? ==> (r.Ok? && r.value.contentID == contentID && r.value.processedAt == now
        && r.value.products == DetectProducts(mediaURL) && r.value.tags == Tags(r.value.products)
        && results == old(results) + [r.value])
    {
      var products := DetectProducts(mediaURL);
      var tags := GenerateTags(products);
      var result := AiTaggingResult(contentID, products, tags, now);
      if storeError.Some? {
        return Err("failed to store AI tagging results: " + storeError.value);
      }
      results := results + [result];
      return Ok(result);
    }
  }
}
