/**
  Reading Amazon search results out of a result page's HTML. Fetching the page is not
  modelled; the parser works on the page text. The page is cut into blocks at every
  `data-asin=`, and each block after the first may yield one product.
 */
module Amazon {
  import opened Wrappers
  import opened Text
  import opened Transactions
  import opened AmountInput

  /** A product found in the search results, with its price history. */
  datatype AmazonProduct = AmazonProduct(
    title: string,
    price: Amount,
    imageUrl: string,
    productUrl: string,
    currentPrice: Amount,
    priceHistory: seq<Amount>,
    lastUpdated: Date)

  const BlockSeparator := "data-asin="
  const ProductUrlPrefix := "https://www.amazon.com/dp/"

  function Title(block: string): Option<string> { ExtractValue(block, "alt=\"", "\"") }

  function PriceText(block: string): Option<string> { ExtractValue(block, "a-price-whole\">", "<") }

  function Asin(block: string): Option<string> { ExtractValue(block, "\"", "\"") }

  function ImageUrl(block: string): string { ExtractValue(block, "src=\"", "\"").GetOr("") }

  /** The price of a block: its price text, read as a number (without comma conversion). */
  function Price(parse: Parser, block: string): Option<Amount> {
    match PriceText(block)
    case None => None
    case Some(text) => parse(text)
  }

  /** The product one block describes, if it has a title, a readable price and an ASIN.
      The product is stamped with `now`, its current price is its price, and its price
      history holds that one price. */
  function ProductOf(parse: Parser, block: string, now: Date): (r: Option<AmazonProduct>)
    ensures r.Some? <==> Title(block).Some? && Price(parse, block).Some? && Asin(block).Some?
    ensures r.Some? ==> r.value.currentPrice == r.value.price && r.value.priceHistory == [r.value.price]
    ensures r.Some? ==> r.value.lastUpdated == now
  {
    match (Title(block), Price(parse, block), Asin(block))
    case (Some(title), Some(price), Some(asin)) =>
      Some(AmazonProduct(title, price, ImageUrl(block), ProductUrlPrefix + asin, price, [price], now))
    case _ => None
  }

  /** A product's fields come from its block: the title, the price as read, the product page
      of the ASIN and the image, or "" without one. The title never holds a quote. */
  lemma ProductOfFields(parse: Parser, block: string, now: Date)
    requires ProductOf(parse, block, now).Some?
    ensures var p := ProductOf(parse, block, now).value;
      && p.title == Title(block).value
      && p.price == Price(parse, block).value
      && p.productUrl == ProductUrlPrefix + Asin(block).value
      && p.imageUrl == (if ExtractValue(block, "src=\"", "\"").Some?
                        then ExtractValue(block, "src=\"", "\"").value else "")
      && !Occurs(p.title, "\"")
  {
  }

  /** A block without a title marker, or whose price text is missing or unreadable, yields
      nothing. */
  lemma ProductOfNeedsMarkers(parse: Parser, block: string, now: Date)
    ensures !Occurs(block, "alt=\"") ==> ProductOf(parse, block, now).None?
    ensures !Occurs(block, "a-price-whole\">") ==> ProductOf(parse, block, now).None?
  {
  }

  /** The products of the blocks, in block order. */
  function ProductsOf(parse: Parser, blocks: seq<string>, now: Date): (r: seq<AmazonProduct>)
    ensures |r| <= |blocks|
  {
    if blocks == [] then []
    else
      var front := ProductsOf(parse, blocks[..|blocks| - 1], now);
      var last := blocks[|blocks| - 1];
      match ProductOf(parse, last, now)
      case None => front
      case Some(p) => front + [p]
  }

  /** Every product found is the product of one of the blocks. */
  lemma {:induction false} ProductsOfOrigin(parse: Parser, blocks: seq<string>, now: Date, p: AmazonProduct)
    requires p in ProductsOf(parse, blocks, now)
    ensures exists b :: b in blocks && ProductOf(parse, b, now) == Some(p)
  {
    var n := |blocks| - 1;
    if ProductOf(parse, blocks[n], now) != Some(p) {
      ProductsOfOrigin(parse, blocks[..n], now, p);
      var b :| b in blocks[..n] && ProductOf(parse, b, now) == Some(p);
      assert b in blocks;
    }
  }

  /** One more block appends its product, if it describes one, after the products so far. */
  lemma ProductsOfStep(parse: Parser, blocks: seq<string>, i: nat, now: Date)
    requires i < |blocks|
    ensures ProductsOf(parse, blocks[..i + 1], now)
      == ProductsOf(parse, blocks[..i], now) + (match ProductOf(parse, blocks[i], now)
                                                case Some(p) => [p]
                                                case None => [])
  {
    assert blocks[..i + 1][..i] == blocks[..i];
  }

  /** Every block that describes a product contributes it. */
  lemma {:induction false} ProductsOfComplete(parse: Parser, blocks: seq<string>, now: Date, b: string)
    requires b in blocks && ProductOf(parse, b, now).Some?
    ensures ProductOf(parse, b, now).value in ProductsOf(parse, blocks, now)
  {
    var n := |blocks| - 1;
    if blocks[n] != b {
      assert b in blocks[..n];
      ProductsOfComplete(parse, blocks[..n], now, b);
    }
  }

  /** Every product links to its Amazon page. */
  lemma ProductsOfUrls(parse: Parser, blocks: seq<string>, now: Date)
    ensures forall p :: p in ProductsOf(parse, blocks, now) ==>
      |ProductUrlPrefix| <= |p.productUrl| && p.productUrl[..|ProductUrlPrefix|] == ProductUrlPrefix
  {
    forall p | p in ProductsOf(parse, blocks, now)
      ensures |ProductUrlPrefix| <= |p.productUrl| && p.productUrl[..|ProductUrlPrefix|] == ProductUrlPrefix
    {
      ProductsOfOrigin(parse, blocks, now, p);
      var b :| b in blocks && ProductOf(parse, b, now) == Some(p);
      ProductOfFields(parse, b, now);
    }
  }

  /** The loop of `parseSearchResults`: each block in turn, appending its product if any. */
  method CollectProducts(parse: Parser, blocks: seq<string>, now: Date) returns (products: seq<AmazonProduct>)
    ensures products == ProductsOf(parse, blocks, now)
  {
    products := [];
    for i := 0 to |blocks|
      invariant products == ProductsOf(parse, blocks[..i], now)
    {
      ProductsOfStep(parse, blocks, i, now);
      match ProductOf(parse, blocks[i], now)
      case Some(p) => products := products + [p];
      case None =>
    }
    assert blocks[..|blocks|] == blocks;
  }

  /** `parseSearchResults`: the products of every block after the first, in page order. */
  method ParseSearchResults(parse: Parser, html: string, now: Date) returns (products: seq<AmazonProduct>)
    ensures products == ProductsOf(parse, Split(html, BlockSeparator)[1..], now)
    ensures |products| <= |Split(html, BlockSeparator)| - 1
  {
    var blocks := Split(html, BlockSeparator);
    products := CollectProducts(parse, blocks[1..], now);
  }

  /** A page without any `data-asin=` yields no products. */
  lemma NoBlocksNoProducts(parse: Parser, html: string, now: Date)
    requires !Occurs(html, BlockSeparator)
    ensures ProductsOf(parse, Split(html, BlockSeparator)[1..], now) == []
  {
    IndexOfMeaning(html, BlockSeparator);
    assert Split(html, BlockSeparator) == [html];
  }
}
