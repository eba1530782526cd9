/**
 * URL classification: `scrape_product` picks the transport, and
 * `scrape_with_requests` and `scrape_with_selenium` pick a retailer parser.
 * Every test is a substring test on the lower-cased URL, in a fixed order.
 */
module Routing {
  import opened Text

  datatype Transport = Browser | Requests

  datatype Retailer = AliExpress | Walmart | BestBuy | Newegg | Generic

  /** `scrape_product`: AliExpress needs the browser, every other site is fetched directly. */
  function TransportFor(url: string): (r: Transport)
    ensures r == Browser <==> Contains(Lower(url), "aliexpress")
  {
    if Contains(Lower(url), "aliexpress") then Browser else Requests
  }

  /** The static dispatch: walmart, then bestbuy, then newegg, else the generic parser. */
  function StaticRetailer(url: string): (r: Retailer)
    ensures r != AliExpress
  {
    var u := Lower(url);
    if Contains(u, "walmart") then Walmart
    else if Contains(u, "bestbuy") then BestBuy
    else if Contains(u, "newegg") then Newegg
    else Generic
  }

  /** The browser dispatch: aliexpress first, then the static order. */
  function BrowserRetailer(url: string): (r: Retailer)
    ensures r == AliExpress <==> Contains(Lower(url), "aliexpress")
    ensures !Contains(Lower(url), "aliexpress") ==> r == StaticRetailer(url)
  {
    var u := Lower(url);
    if Contains(u, "aliexpress") then AliExpress
    else if Contains(u, "walmart") then Walmart
    else if Contains(u, "bestbuy") then BestBuy
    else if Contains(u, "newegg") then Newegg
    else Generic
  }

  /** Each retailer is chosen exactly when its token appears and no earlier token does. */
  lemma StaticRetailerChoice(url: string)
    ensures var u := Lower(url);
      && (StaticRetailer(url) == Walmart <==> Contains(u, "walmart"))
      && (StaticRetailer(url) == BestBuy <==> !Contains(u, "walmart") && Contains(u, "bestbuy"))
      && (StaticRetailer(url) == Newegg <==> !Contains(u, "walmart") && !Contains(u, "bestbuy") && Contains(u, "newegg"))
      && (StaticRetailer(url) == Generic <==> !Contains(u, "walmart") && !Contains(u, "bestbuy") && !Contains(u, "newegg"))
      && StaticRetailer(url) != AliExpress
  {
  }

  /** The browser chain: aliexpress first, then walmart, bestbuy and newegg, else generic. */
  lemma BrowserRetailerChoice(url: string)
    ensures var u := Lower(url);
      && (BrowserRetailer(url) == AliExpress <==> Contains(u, "aliexpress"))
      && (BrowserRetailer(url) == Walmart <==> !Contains(u, "aliexpress") && Contains(u, "walmart"))
      && (BrowserRetailer(url) == BestBuy <==> !Contains(u, "aliexpress") && !Contains(u, "walmart") && Contains(u, "bestbuy"))
      && (BrowserRetailer(url) == Newegg <==>
            !Contains(u, "aliexpress") && !Contains(u, "walmart") && !Contains(u, "bestbuy") && Contains(u, "newegg"))
      && (BrowserRetailer(url) == Generic <==>
            !Contains(u, "aliexpress") && !Contains(u, "walmart") && !Contains(u, "bestbuy") && !Contains(u, "newegg"))
  {
  }

  /**
   * The two dispatch chains agree on every URL the static path receives,
   * and the browser chain picks AliExpress for every URL that
   * `scrape_product` sends to the browser.
   */
  lemma DispatchAgreement(url: string)
    ensures TransportFor(url) == Requests ==> BrowserRetailer(url) == StaticRetailer(url)
    ensures TransportFor(url) == Browser <==> BrowserRetailer(url) == AliExpress
  {
  }

  /** ASCII lower-casing is idempotent, so classification ignores letter case. */
  lemma LowerIdempotent(s: string)
    ensures Lower(Lower(s)) == Lower(s)
  {
    forall k | 0 <= k < |s| ensures Lower(Lower(s))[k] == Lower(s)[k] {
      var c := s[k];
      assert Lower(Lower(s))[k] == LowerChar(LowerChar(c));
    }
  }

  /** Lower-casing a URL first changes none of the three classifications. */
  lemma ClassificationIgnoresCase(url: string)
    ensures TransportFor(Lower(url)) == TransportFor(url)
    ensures StaticRetailer(Lower(url)) == StaticRetailer(url)
    ensures BrowserRetailer(Lower(url)) == BrowserRetailer(url)
  {
    LowerIdempotent(url);
  }
}
