/**
 * The browser-path scrapers `scrape_walmart`, `scrape_bestbuy`,
 * `scrape_newegg` and `scrape_generic` of utils/selenium_scraper.py. They
 * read the rendered page like the static parsers, add lookups only the live
 * driver can answer, and turn any exception into a failed result.
 */
module BrowserParsers {
  import opened Wrappers
  import opened Text
  import opened Prices
  import opened Results
  import opened Documents
  import StaticParsers

  /** `driver.title.split('|')[0].split('-')[0].strip()`. */
  function DriverTitle(t: string): (r: string)
    ensures '|' !in r && '-' !in r
  {
    var a := BeforeFirst(t, '|');
    var b := BeforeFirst(a, '-');
    assert '|' !in b by {
      forall k | 0 <= k < |b| ensures b[k] != '|' { assert b[k] == a[k]; }
    }
    Strip(b)
  }

  /** The driver-title fallback trims the longest prefix of the title free of both separators. */
  lemma DriverTitleCut(t: string)
    ensures var k := |BeforeFirst(BeforeFirst(t, '|'), '-')|;
      && k <= |t|
      && '|' !in t[..k] && '-' !in t[..k]
      && (k == |t| || t[k] == '|' || t[k] == '-')
      && DriverTitle(t) == Strip(t[..k])
  {
    var a := BeforeFirst(t, '|');
    var b := BeforeFirst(a, '-');
    assert a == t[..|a|];
    assert b == t[..|b|];
    assert '|' !in b by {
      forall k | 0 <= k < |b| ensures b[k] != '|' { assert b[k] == a[k]; }
    }
    if |b| < |t| {
      if |b| < |a| {
        assert a[|b|] == '-';
      } else {
        assert t[|a|] == '|';
      }
    }
  }

  /**
   * The title chain shared by the Walmart, BestBuy and Newegg scrapers: the
   * located h1's stripped text, else og:title stripped, else the driver
   * title cut at its separators.
   */
  function TitleChain(elem: Option<string>, og: Option<string>, driverTitle: string): (r: string)
    ensures elem.Some? && Strip(elem.value) != "" ==> r == Strip(elem.value)
    ensures (elem.None? || Strip(elem.value) == "") && og.Some? && Strip(og.value) != "" ==> r == Strip(og.value)
  {
    var fromElem := if elem.Some? then Strip(elem.value) else "";
    if fromElem != "" then fromElem
    else
      var fromOg := if og.Some? then Strip(og.value) else "";
      if fromOg != "" then fromOg else DriverTitle(driverTitle)
  }

  /** The title chain as the scrapers write it, reassigning `title` step by step. */
  method FindTitle(elem: Option<string>, og: Option<string>, driverTitle: string) returns (title: Option<string>)
    ensures title == Some(TitleChain(elem, og, driverTitle))
  {
    title := None;
    if elem.Some? {
      title := Some(Strip(elem.value));
    }
    if !TitleTruthy(title) && og.Some? {
      title := Some(Strip(og.value));
    }
    if !TitleTruthy(title) {
      title := Some(DriverTitle(driverTitle));
    }
  }

  // ---------------------------------------------------------------- Walmart

  /** `price_elem.text or price_elem.get_attribute('content')`. */
  function ElementPriceText(e: DomElement): (r: Option<string>)
    ensures e.text != "" ==> r == Some(e.text)
    ensures e.text == "" ==> r == e.content
  {
    if e.text != "" then Some(e.text) else e.content
  }

  /** The title chain over the itemprop h1, else the `prod-ProductTitle` h1, else the first h1. */
  function WalmartTitle(p: Page, live: Live): (r: string)
    ensures p.h1ItemName.Some? && Strip(p.h1ItemName.value) != "" ==> r == Strip(p.h1ItemName.value)
    ensures p.h1ItemName.None? && p.h1ProdTitleClass.Some? && Strip(p.h1ProdTitleClass.value) != "" ==> r == Strip(p.h1ProdTitleClass.value)
    ensures p.h1ItemName.None? && p.h1ProdTitleClass.None? && |p.h1s| > 0 && Strip(p.h1s[0]) != "" ==> r == Strip(p.h1s[0])
  {
    TitleChain(p.h1ItemName.OrElse(p.h1ProdTitleClass.OrElse(FirstH1(p))), p.ogTitle, live.title)
  }

  /**
   * The itemprop span's text when the span exists, otherwise the first
   * aria-label price element that yields a price; then the first `$` match
   * in [0.99, 50000]; then the live itemprop element.
   */
  function WalmartPrice(p: Page, live: Live): (r: Option<real>)
    ensures r.Some? ==> MinPrice <= r.value <= MaxPrice
  {
    var first := if p.priceTag.Some? then ExtractPrice(p.priceTag.value.text) else FirstPrice(p.ariaLabelPriceTexts);
    if first.Some? then first
    else if FirstInRange(p.dollarMatches, 0.99, 50000.0).Some? then FirstInRange(p.dollarMatches, 0.99, 50000.0)
    else if live.itempropPrice.Some? then ExtractPriceOf(ElementPriceText(live.itempropPrice.value))
    else None
  }

  /** The price chain as the scraper writes it, each step run only while the price is falsy. */
  method FindWalmartPrice(p: Page, live: Live) returns (price: Option<real>)
    ensures price == WalmartPrice(p, live)
  {
    price := None;
    if p.priceTag.None? {
      price := ScanFirstPrice(p.ariaLabelPriceTexts);
    } else {
      price := ExtractPrice(p.priceTag.value.text);
    }
    if !Truthy(price) {
      var found := ScanInRange(p.dollarMatches, 0.99, 50000.0);
      if found.Some? {
        price := found;
      }
    }
    if !Truthy(price) && live.itempropPrice.Some? {
      price := ExtractPriceOf(ElementPriceText(live.itempropPrice.value));
    }
  }

  /** What `scrape_walmart` returns: the chain's verdict, or the exception's message. */
  function WalmartResult(p: Page, live: Live): (r: ScrapeResult)
    ensures WellFormed(r)
  {
    if live.fault.Some? then Failed("Walmart error: " + live.fault.value)
    else Conclude(Some(WalmartTitle(p, live)), WalmartPrice(p, live),
                  Report("Walmart", Some(WalmartTitle(p, live)), WalmartPrice(p, live), "walmart_debug.html"))
  }

  method ScrapeWalmart(p: Page, live: Live) returns (r: ScrapeResult)
    ensures r == WalmartResult(p, live)
  {
    if live.fault.Some? {
      return Failed("Walmart error: " + live.fault.value);
    }
    var titleElem := p.h1ItemName;
    if titleElem.None? {
      titleElem := p.h1ProdTitleClass;
    }
    if titleElem.None? {
      titleElem := FirstH1(p);
    }
    assert titleElem == p.h1ItemName.OrElse(p.h1ProdTitleClass.OrElse(FirstH1(p)));
    var title := FindTitle(titleElem, p.ogTitle, live.title);

    var price := FindWalmartPrice(p, live);
    assert title == Some(WalmartTitle(p, live)) && price == WalmartPrice(p, live);
    r := Conclude(title, price, Report("Walmart", title, price, "walmart_debug.html"));
  }

  // ---------------------------------------------------------------- BestBuy

  /**
   * The aria-hidden span loop, continued from `price`: every span whose
   * stripped text holds a `$` overwrites `price`, and the loop stops at the
   * first such price in [0.99, 50000].
   */
  function AriaScan(texts: seq<string>, price: Option<real>): (r: Option<real>)
    ensures r.Some? ==> MinPrice <= r.value <= MaxPrice || r == price
    ensures (forall k :: 0 <= k < |texts| ==> '$' !in Strip(texts[k])) ==> r == price
  {
    if texts == [] then price
    else
      var t := Strip(texts[0]);
      if '$' in t then
        var q := ExtractPrice(t);
        if InRange(q, 0.99, 50000.0) then q else AriaScan(texts[1..], q)
      else AriaScan(texts[1..], price)
  }

  /** The stripped span texts that hold a `$`, in page order. */
  function DollarTexts(texts: seq<string>): (r: seq<string>)
    ensures |r| <= |texts|
    ensures forall k :: 0 <= k < |r| ==> '$' in r[k]
    ensures forall k :: 0 <= k < |texts| && '$' in Strip(texts[k]) ==> Strip(texts[k]) in r
  {
    if texts == [] then []
    else
      var rest := DollarTexts(texts[1..]);
      assert forall k :: 1 <= k < |texts| ==> texts[k] == texts[1..][k - 1];
      (if '$' in Strip(texts[0]) then [Strip(texts[0])] else []) + rest
  }

  /** The `$` texts keep page order: those of a joined list are those of each part in turn. */
  lemma {:induction false} DollarTextsAppend(a: seq<string>, b: seq<string>)
    ensures DollarTexts(a + b) == DollarTexts(a) + DollarTexts(b)
  {
    if a == [] {
      assert a + b == b;
    } else {
      assert (a + b)[0] == a[0] && (a + b)[1..] == a[1..] + b;
      DollarTextsAppend(a[1..], b);
    }
  }

  /**
   * The BestBuy span loop answers the first `$` span whose price lies in
   * [0.99, 50000]; when there is none it keeps what the last `$` span gave,
   * which may be None or a price out of that range.
   */
  lemma {:induction false} AriaScanMeaning(texts: seq<string>, price: Option<real>)
    ensures var d := DollarTexts(texts);
      AriaScan(texts, price) ==
        if FirstInRange(d, 0.99, 50000.0).Some? then FirstInRange(d, 0.99, 50000.0)
        else if d == [] then price
        else ExtractPrice(d[|d| - 1])
  {
    if texts != [] {
      var t := Strip(texts[0]);
      var rest := DollarTexts(texts[1..]);
      if '$' in t {
        var d := [t] + rest;
        assert DollarTexts(texts) == d;
        assert d[0] == t && d[1..] == rest;
        var q := ExtractPrice(t);
        if InRange(q, 0.99, 50000.0) {
          assert FirstInRange(d, 0.99, 50000.0) == q;
        } else {
          assert FirstInRange(d, 0.99, 50000.0) == FirstInRange(rest, 0.99, 50000.0);
          assert AriaScan(texts, price) == AriaScan(texts[1..], q);
          AriaScanMeaning(texts[1..], q);
          if rest != [] {
            assert d[|d| - 1] == rest[|rest| - 1];
          }
        }
      } else {
        assert DollarTexts(texts) == [] + rest == rest;
        AriaScanMeaning(texts[1..], price);
      }
    }
  }

  /** The span loop as the source writes it. */
  method ScanAriaSpans(texts: seq<string>) returns (price: Option<real>)
    ensures price == AriaScan(texts, None)
  {
    price := None;
    for i := 0 to |texts|
      invariant AriaScan(texts[i..], price) == AriaScan(texts, None)
    {
      assert texts[i..][0] == texts[i] && texts[i..][1..] == texts[i + 1..];
      var text := Strip(texts[i]);
      if '$' in text {
        price := ExtractPrice(text);
        if price.Some? && price.value != 0.0 && 0.99 <= price.value <= 50000.0 {
          break;
        }
      }
    }
  }

  /** The title chain over the `heading-5` h1, else the first h1. */
  function BestBuyTitle(p: Page, live: Live): (r: string)
    ensures p.h1HeadingClass.Some? && Strip(p.h1HeadingClass.value) != "" ==> r == Strip(p.h1HeadingClass.value)
    ensures p.h1HeadingClass.None? && |p.h1s| > 0 && Strip(p.h1s[0]) != "" ==> r == Strip(p.h1s[0])
  {
    TitleChain(p.h1HeadingClass.OrElse(FirstH1(p)), p.ogTitle, live.title)
  }

  /**
   * The span loop's value when truthy, even out of range; then the priceView
   * div, `data-price`, the live priceView element, and the first `$` match
   * in [9.99, 50000].
   */
  function BestBuyPrice(p: Page, live: Live): (r: Option<real>)
    ensures r.Some? ==> MinPrice <= r.value <= MaxPrice
  {
    var spans := AriaScan(p.ariaHiddenSpans, None);
    if spans.Some? then spans
    else if p.priceView.Some? && ExtractPrice(p.priceView.value).Some? then ExtractPrice(p.priceView.value)
    else if p.dataPrice.Some? && ExtractPrice(p.dataPrice.value).Some? then ExtractPrice(p.dataPrice.value)
    else if live.priceViewText.Some? && ExtractPrice(live.priceViewText.value).Some? then ExtractPrice(live.priceViewText.value)
    else FirstInRange(p.dollarMatches, 9.99, 50000.0)
  }

  /** The price chain as the scraper writes it, each step run only while the price is falsy. */
  method FindBestBuyPrice(p: Page, live: Live) returns (price: Option<real>)
    ensures price == BestBuyPrice(p, live)
  {
    price := ScanAriaSpans(p.ariaHiddenSpans);
    if !Truthy(price) && p.priceView.Some? {
      price := ExtractPrice(p.priceView.value);
    }
    if !Truthy(price) && p.dataPrice.Some? {
      price := ExtractPrice(p.dataPrice.value);
    }
    if !Truthy(price) && live.priceViewText.Some? {
      price := ExtractPrice(live.priceViewText.value);
    }
    if !Truthy(price) {
      var found := ScanInRange(p.dollarMatches, 9.99, 50000.0);
      if found.Some? {
        price := found;
      }
    }
  }

  /** What `scrape_bestbuy` returns: the chain's verdict, or the exception's message. */
  function BestBuyResult(p: Page, live: Live): (r: ScrapeResult)
    ensures WellFormed(r)
  {
    if live.fault.Some? then Failed("BestBuy error: " + live.fault.value)
    else Conclude(Some(BestBuyTitle(p, live)), BestBuyPrice(p, live),
                  Report("BestBuy", Some(BestBuyTitle(p, live)), BestBuyPrice(p, live), "bestbuy_debug.html"))
  }

  method ScrapeBestBuy(p: Page, live: Live) returns (r: ScrapeResult)
    ensures r == BestBuyResult(p, live)
  {
    if live.fault.Some? {
      return Failed("BestBuy error: " + live.fault.value);
    }
    var titleElem := p.h1HeadingClass;
    if titleElem.None? {
      titleElem := FirstH1(p);
    }
    assert titleElem == p.h1HeadingClass.OrElse(FirstH1(p));
    var title := FindTitle(titleElem, p.ogTitle, live.title);

    var price := FindBestBuyPrice(p, live);
    assert title == Some(BestBuyTitle(p, live)) && price == BestBuyPrice(p, live);
    r := Conclude(title, price, Report("BestBuy", title, price, "bestbuy_debug.html"));
  }

  // ----------------------------------------------------------------- Newegg

  /** `strong.get_text()`, followed by `'.' + sup.get_text()` when the element has a `sup`. */
  function NeweggPriceText(strong: string, sup: Option<string>): (r: string)
    ensures strong <= r
    ensures |r| == |strong| + (if sup.Some? then 1 + |sup.value| else 0)
    ensures sup.None? ==> r == strong
    ensures sup.Some? ==> r[|strong|] == '.' && r[|strong| + 1..] == sup.value
  {
    if sup.Some? then strong + "." + sup.value else strong
  }

  /** The title chain over the `product-title` h1, else the first h1. */
  function NeweggTitle(p: Page, live: Live): (r: string)
    ensures p.h1ProductTitle.Some? && Strip(p.h1ProductTitle.value) != "" ==> r == Strip(p.h1ProductTitle.value)
    ensures p.h1ProductTitle.None? && |p.h1s| > 0 && Strip(p.h1s[0]) != "" ==> r == Strip(p.h1s[0])
  {
    TitleChain(p.h1ProductTitle.OrElse(FirstH1(p)), p.ogTitle, live.title)
  }

  /**
   * The split `strong`/`sup` price of `li.price-current`; then the
   * product-price div; then the live price-current element; then the first
   * `$` match in [0.99, 50000].
   */
  function NeweggPrice(p: Page, live: Live): (r: Option<real>)
    ensures r.Some? ==> MinPrice <= r.value <= MaxPrice
  {
    var fromCurrent :=
      if p.priceCurrent.Some? && p.priceCurrent.value.strong.Some?
      then ExtractPrice(NeweggPriceText(p.priceCurrent.value.strong.value, p.priceCurrent.value.sup))
      else None;
    if fromCurrent.Some? then fromCurrent
    else if p.productPrice.Some? && ExtractPrice(p.productPrice.value).Some? then ExtractPrice(p.productPrice.value)
    else if live.priceCurrentText.Some? && ExtractPrice(live.priceCurrentText.value).Some? then ExtractPrice(live.priceCurrentText.value)
    else FirstInRange(p.dollarMatches, 0.99, 50000.0)
  }

  /** The price chain as the scraper writes it, each step run only while the price is falsy. */
  method FindNeweggPrice(p: Page, live: Live) returns (price: Option<real>)
    ensures price == NeweggPrice(p, live)
  {
    price := None;
    if p.priceCurrent.Some? {
      var strong := p.priceCurrent.value.strong;
      var sup := p.priceCurrent.value.sup;
      if strong.Some? {
        var priceText := strong.value;
        if sup.Some? {
          priceText := priceText + "." + sup.value;
        }
        price := ExtractPrice(priceText);
      }
    }
    if !Truthy(price) && p.productPrice.Some? {
      price := ExtractPrice(p.productPrice.value);
    }
    if !Truthy(price) && live.priceCurrentText.Some? {
      price := ExtractPrice(live.priceCurrentText.value);
    }
    if !Truthy(price) {
      var found := ScanInRange(p.dollarMatches, 0.99, 50000.0);
      if found.Some? {
        price := found;
      }
    }
  }

  /** What `scrape_newegg` returns: the chain's verdict, or the exception's message. */
  function NeweggResult(p: Page, live: Live): (r: ScrapeResult)
    ensures WellFormed(r)
  {
    if live.fault.Some? then Failed("Newegg error: " + live.fault.value)
    else Conclude(Some(NeweggTitle(p, live)), NeweggPrice(p, live),
                  Report("Newegg", Some(NeweggTitle(p, live)), NeweggPrice(p, live), "newegg_debug.html"))
  }

  method ScrapeNewegg(p: Page, live: Live) returns (r: ScrapeResult)
    ensures r == NeweggResult(p, live)
  {
    if live.fault.Some? {
      return Failed("Newegg error: " + live.fault.value);
    }
    var titleElem := p.h1ProductTitle;
    if titleElem.None? {
      titleElem := FirstH1(p);
    }
    assert titleElem == p.h1ProductTitle.OrElse(FirstH1(p));
    var title := FindTitle(titleElem, p.ogTitle, live.title);

    var price := FindNeweggPrice(p, live);
    assert title == Some(NeweggTitle(p, live)) && price == NeweggPrice(p, live);
    r := Conclude(title, price, Report("Newegg", title, price, "newegg_debug.html"));
  }

  // ---------------------------------------------------------------- Generic

  /** What `scrape_generic` returns: the static generic parser's verdict, or the bare exception text. */
  function GenericResult(p: Page, live: Live): (r: ScrapeResult)
    ensures WellFormed(r)
    ensures live.fault.None? ==> r == StaticParsers.GenericResult(p)
  {
    if live.fault.Some? then Failed(live.fault.value)
    else ConcludeGeneric(StaticParsers.GenericTitle(p), FirstPrice(p.priceClassTexts))
  }

  method ScrapeGeneric(p: Page, live: Live) returns (r: ScrapeResult)
    ensures r == GenericResult(p, live)
  {
    if live.fault.Some? {
      return Failed(live.fault.value);
    }
    var title: Option<string> := None;
    var titleElem := FirstH1(p);
    if titleElem.Some? {
      title := Some(Strip(titleElem.value));
    }
    var price := ScanFirstPrice(p.priceClassTexts);
    r := ConcludeGeneric(title, price);
  }
}
