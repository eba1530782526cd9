/**
 * The static-path parsers `parse_walmart`, `parse_bestbuy`, `parse_newegg`
 * and `parse_generic` of utils/scraper.py. Each method walks its fallback
 * chain the way the source does, reassigning `title` and `price`; its
 * postcondition ties the result to the chain functions below, about which
 * the precedence lemmas are stated.
 */
module StaticParsers {
  import opened Wrappers
  import opened Text
  import opened Prices
  import opened Results
  import opened Documents

  /** `price_elem.get('content') or price_elem.get_text()`. */
  function TagText(t: PriceTag): (r: string)
    ensures t.content.Some? && t.content.value != "" ==> r == t.content.value
    ensures t.content.None? || t.content.value == "" ==> r == t.text
  {
    if t.content.Some? && t.content.value != "" then t.content.value else t.text
  }

  /** The `offers` prices of the scripts that decode to an object with `offers`, in page order. */
  function OfferPrices(scripts: seq<LdScript>): (r: seq<string>)
    ensures |r| <= |scripts|
    ensures forall x :: x in r ==> Offers(x) in scripts
    ensures forall k :: 0 <= k < |scripts| && scripts[k].Offers? ==> scripts[k].price in r
  {
    if scripts == [] then []
    else
      var rest := OfferPrices(scripts[1..]);
      assert forall k :: 1 <= k < |scripts| ==> scripts[k] == scripts[1..][k - 1];
      (if scripts[0].Offers? then [scripts[0].price] else []) + rest
  }

  /** The offers prices keep page order: those of a joined list are those of each part in turn. */
  lemma {:induction false} OfferPricesAppend(a: seq<LdScript>, b: seq<LdScript>)
    ensures OfferPrices(a + b) == OfferPrices(a) + OfferPrices(b)
  {
    if a == [] {
      assert a + b == b;
    } else {
      assert (a + b)[0] == a[0] && (a + b)[1..] == a[1..] + b;
      OfferPricesAppend(a[1..], b);
    }
  }

  /**
   * The ld+json loop: scripts that fail to decode or have no `offers` are
   * skipped, and the first offers price that normalises to a price wins.
   */
  function LdPrice(scripts: seq<LdScript>): (r: Option<real>)
    ensures r.Some? ==> MinPrice <= r.value <= MaxPrice
  {
    FirstPrice(OfferPrices(scripts))
  }

  /** The ld+json loop as the source writes it. */
  method ScanLdJson(scripts: seq<LdScript>) returns (price: Option<real>)
    ensures price == LdPrice(scripts)
  {
    price := None;
    for i := 0 to |scripts|
      invariant FirstPrice(OfferPrices(scripts[i..])) == LdPrice(scripts)
      invariant price == None
    {
      assert scripts[i..][0] == scripts[i] && scripts[i..][1..] == scripts[i + 1..];
      var rest := OfferPrices(scripts[i + 1..]);
      if !scripts[i].Offers? {
        assert OfferPrices(scripts[i..]) == [] + rest == rest;
      } else {
        assert OfferPrices(scripts[i..]) == [scripts[i].price] + rest;
        assert ([scripts[i].price] + rest)[1..] == rest;
        price := ExtractPrice(scripts[i].price);
        if Truthy(price) {
          break;
        }
      }
    }
  }

  // ---------------------------------------------------------------- Walmart

  /** The itemprop h1, else the first h1, stripped; og:title only when there is no h1 at all. */
  function WalmartTitle(p: Page): (r: Option<string>)
    ensures r.None? <==> p.h1ItemName.None? && |p.h1s| == 0 && p.ogTitle.None?
  {
    var elem := if p.h1ItemName.Some? then p.h1ItemName else FirstH1(p);
    if elem.Some? then Some(Strip(elem.value)) else p.ogTitle
  }

  /** The itemprop span, then data-price, then the quoted regex matches in [0.99, 50000]. */
  function WalmartPrice(p: Page): (r: Option<real>)
    ensures r.Some? ==> MinPrice <= r.value <= MaxPrice
  {
    var fromTag := if p.priceTag.Some? then ExtractPrice(TagText(p.priceTag.value)) else None;
    if fromTag.Some? then fromTag
    else if p.dataPrice.Some? && ExtractPrice(p.dataPrice.value).Some? then ExtractPrice(p.dataPrice.value)
    else FirstInRange(p.quotedPriceMatches, 0.99, 50000.0)
  }

  /** What `parse_walmart` returns for the page. */
  function WalmartResult(p: Page): (r: ScrapeResult)
    ensures WellFormed(r)
  {
    Conclude(WalmartTitle(p), WalmartPrice(p), Report("Walmart", WalmartTitle(p), WalmartPrice(p), "walmart_debug.html"))
  }

  method ParseWalmart(p: Page) returns (r: ScrapeResult)
    ensures r == WalmartResult(p)
  {
    var title: Option<string> := None;
    var titleElem := p.h1ItemName;
    if titleElem.None? {
      titleElem := FirstH1(p);
    }
    if titleElem.None? && p.ogTitle.Some? {
      title := p.ogTitle;
    }
    if titleElem.Some? {
      title := Some(Strip(titleElem.value));
    }

    var price: Option<real> := None;
    if p.priceTag.Some? {
      price := ExtractPrice(TagText(p.priceTag.value));
    }
    if !Truthy(price) && p.dataPrice.Some? {
      price := ExtractPrice(p.dataPrice.value);
    }
    if !Truthy(price) {
      var found := ScanInRange(p.quotedPriceMatches, 0.99, 50000.0);
      if found.Some? {
        price := found;
      }
    }
    r := Conclude(title, price, Report("Walmart", title, price, "walmart_debug.html"));
  }

  /** Any h1 decides the Walmart title, even when its text strips to nothing; og:title is read only without one. */
  lemma WalmartTitleFromHeading(p: Page)
    ensures p.h1ItemName.Some? ==> WalmartTitle(p) == Some(Strip(p.h1ItemName.value))
    ensures p.h1ItemName.None? && |p.h1s| > 0 ==> WalmartTitle(p) == Some(Strip(p.h1s[0]))
    ensures p.h1ItemName.None? && |p.h1s| == 0 ==> WalmartTitle(p) == p.ogTitle
    ensures p.h1ItemName.Some? || |p.h1s| > 0 ==> forall og :: WalmartTitle(p.(ogTitle := og)) == WalmartTitle(p)
  {
  }

  /**
   * Walmart price precedence: the itemprop span (content before text), then
   * data-price, then the first quoted regex match in [0.99, 50000]; a later
   * source is consulted only when every earlier one gave no price.
   */
  lemma WalmartPricePrecedence(p: Page)
    ensures p.priceTag.Some? && ExtractPrice(TagText(p.priceTag.value)).Some? ==>
              WalmartPrice(p) == ExtractPrice(TagText(p.priceTag.value))
    ensures p.priceTag.Some? && p.priceTag.value.content.Some? && p.priceTag.value.content.value != "" ==>
              TagText(p.priceTag.value) == p.priceTag.value.content.value
    ensures (p.priceTag.None? || ExtractPrice(TagText(p.priceTag.value)).None?) && p.dataPrice.Some? && ExtractPrice(p.dataPrice.value).Some? ==>
              WalmartPrice(p) == ExtractPrice(p.dataPrice.value)
    ensures (p.priceTag.None? || ExtractPrice(TagText(p.priceTag.value)).None?) && (p.dataPrice.None? || ExtractPrice(p.dataPrice.value).None?) ==>
              WalmartPrice(p) == FirstInRange(p.quotedPriceMatches, 0.99, 50000.0)
    ensures WalmartPrice(p).Some? ==> MinPrice <= WalmartPrice(p).value <= MaxPrice
  {
  }

  // ---------------------------------------------------------------- BestBuy

  /** The stripped text of the first h1, else og:title when that text is missing or empty. */
  function HeadingOrOg(h: Option<string>, og: Option<string>): (r: Option<string>)
    ensures h.Some? && Strip(h.value) != "" ==> r == Some(Strip(h.value))
    ensures (h.None? || Strip(h.value) == "") && og.Some? ==> r == og
    ensures (h.None? || Strip(h.value) == "") && og.None? ==> r == if h.Some? then Some("") else None
  {
    var fromH1 := if h.Some? then Some(Strip(h.value)) else None;
    if !TitleTruthy(fromH1) && og.Some? then og else fromH1
  }

  function BestBuyStaticTitle(p: Page): (r: Option<string>)
    ensures r.None? <==> |p.h1s| == 0 && p.ogTitle.None?
  {
    HeadingOrOg(FirstH1(p), p.ogTitle)
  }

  function BestBuyStaticPrice(p: Page): (r: Option<real>)
    ensures r.Some? ==> MinPrice <= r.value <= MaxPrice
  {
    var fromLd := LdPrice(p.ldJson);
    if fromLd.Some? then fromLd else FirstInRange(p.barePriceMatches, 9.99, 50000.0)
  }

  /** What `parse_bestbuy` returns for the page. */
  function BestBuyResult(p: Page): (r: ScrapeResult)
    ensures WellFormed(r)
  {
    Conclude(BestBuyStaticTitle(p), BestBuyStaticPrice(p), Report("BestBuy", BestBuyStaticTitle(p), BestBuyStaticPrice(p), "bestbuy_debug.html"))
  }

  method ParseBestBuy(p: Page) returns (r: ScrapeResult)
    ensures r == BestBuyResult(p)
  {
    var title: Option<string> := None;
    var titleElem := FirstH1(p);
    if titleElem.Some? {
      title := Some(Strip(titleElem.value));
    }
    if !TitleTruthy(title) && p.ogTitle.Some? {
      title := p.ogTitle;
    }

    var price := ScanLdJson(p.ldJson);
    if !Truthy(price) {
      var found := ScanInRange(p.barePriceMatches, 9.99, 50000.0);
      if found.Some? {
        price := found;
      }
    }
    r := Conclude(title, price, Report("BestBuy", title, price, "bestbuy_debug.html"));
  }

  /** BestBuy static price: ld+json first, then the first bare regex match in [9.99, 50000]. */
  lemma BestBuyStaticPricePrecedence(p: Page)
    ensures LdPrice(p.ldJson).Some? ==> BestBuyStaticPrice(p) == LdPrice(p.ldJson)
    ensures LdPrice(p.ldJson).None? ==> BestBuyStaticPrice(p) == FirstInRange(p.barePriceMatches, 9.99, 50000.0)
    ensures LdPrice(p.ldJson).None? && BestBuyStaticPrice(p).Some? ==> 9.99 <= BestBuyStaticPrice(p).value <= 50000.0
  {
  }

  // ----------------------------------------------------------------- Newegg

  function NeweggStaticTitle(p: Page): (r: Option<string>)
    ensures r.None? <==> p.h1ProductTitle.None? && |p.h1s| == 0 && p.ogTitle.None?
    ensures p.h1ProductTitle.Some? && Strip(p.h1ProductTitle.value) != "" ==> r == Some(Strip(p.h1ProductTitle.value))
  {
    HeadingOrOg(if p.h1ProductTitle.Some? then p.h1ProductTitle else FirstH1(p), p.ogTitle)
  }

  /** The price-current element's text, then the ld+json offers. */
  function NeweggStaticPrice(p: Page): (r: Option<real>)
    ensures r.Some? ==> MinPrice <= r.value <= MaxPrice
    ensures p.priceCurrent.Some? && ExtractPrice(p.priceCurrent.value.text).Some? ==> r == ExtractPrice(p.priceCurrent.value.text)
    ensures (p.priceCurrent.None? || ExtractPrice(p.priceCurrent.value.text).None?) ==> r == LdPrice(p.ldJson)
  {
    var fromCurrent := if p.priceCurrent.Some? then ExtractPrice(p.priceCurrent.value.text) else None;
    if fromCurrent.Some? then fromCurrent else LdPrice(p.ldJson)
  }

  /** What `parse_newegg` returns for the page. */
  function NeweggResult(p: Page): (r: ScrapeResult)
    ensures WellFormed(r)
  {
    Conclude(NeweggStaticTitle(p), NeweggStaticPrice(p), Report("Newegg", NeweggStaticTitle(p), NeweggStaticPrice(p), "newegg_debug.html"))
  }

  method ParseNewegg(p: Page) returns (r: ScrapeResult)
    ensures r == NeweggResult(p)
  {
    var title: Option<string> := None;
    var titleElem := p.h1ProductTitle;
    if titleElem.None? {
      titleElem := FirstH1(p);
    }
    if titleElem.Some? {
      title := Some(Strip(titleElem.value));
    }
    if !TitleTruthy(title) && p.ogTitle.Some? {
      title := p.ogTitle;
    }

    var price: Option<real> := None;
    if p.priceCurrent.Some? {
      price := ExtractPrice(p.priceCurrent.value.text);
    }
    if !Truthy(price) {
      price := ScanLdJson(p.ldJson);
    }
    r := Conclude(title, price, Report("Newegg", title, price, "newegg_debug.html"));
  }

  // ---------------------------------------------------------------- Generic

  function GenericTitle(p: Page): (r: Option<string>)
    ensures r.Some? <==> |p.h1s| > 0
    ensures r.Some? ==> r.value == Strip(p.h1s[0])
  {
    if FirstH1(p).Some? then Some(Strip(FirstH1(p).value)) else None
  }

  /** What `parse_generic` returns for the page. */
  function GenericResult(p: Page): (r: ScrapeResult)
    ensures WellFormed(r)
  {
    ConcludeGeneric(GenericTitle(p), FirstPrice(p.priceClassTexts))
  }

  method ParseGeneric(p: Page) returns (r: ScrapeResult)
    ensures r == GenericResult(p)
  {
    var title: Option<string> := None;
    var titleElem := FirstH1(p);
    if titleElem.Some? {
      title := Some(Strip(titleElem.value));
    }
    var price := ScanFirstPrice(p.priceClassTexts);
    r := ConcludeGeneric(title, price);
  }

  /** The generic parser succeeds exactly when the first h1 strips to text and some price-class element yields a price. */
  lemma GenericStaticSuccess(p: Page)
    ensures GenericResult(p).success <==>
              |p.h1s| > 0 && Strip(p.h1s[0]) != "" && exists k :: 0 <= k < |p.priceClassTexts| && ExtractPrice(p.priceClassTexts[k]).Some?
  {
    FirstPriceSomeIff(p.priceClassTexts);
  }

  lemma {:induction false} FirstPriceSomeIff(texts: seq<string>)
    ensures FirstPrice(texts).Some? <==> exists k :: 0 <= k < |texts| && ExtractPrice(texts[k]).Some?
  {
    if texts != [] {
      FirstPriceSomeIff(texts[1..]);
      if ExtractPrice(texts[0]).None? {
        if exists k :: 0 <= k < |texts| && ExtractPrice(texts[k]).Some? {
          var k :| 0 <= k < |texts| && ExtractPrice(texts[k]).Some?;
          assert texts[1..][k - 1] == texts[k];
        }
      }
    }
  }
}
