/**
 * The entry points of utils/scraper.py: `scrape_product` picks the
 * transport, `scrape_with_requests` fetches with rotating headers and turns
 * every exception into a failed result, and `get_random_headers` draws a
 * user agent from a fixed pool.
 */
module Scraper {
  import opened Wrappers
  import opened Results
  import opened Documents
  import opened Routing
  import StaticParsers
  import Selenium
  import AliExpress

  // ---------------------------------------------------------------- Headers

  const UserAgents: seq<string> := [
    "Mozilla/5.0 (Windows NT 10.0; Win64; x64) AppleWebKit/537.36 (KHTML, like Gecko) Chrome/120.0.0.0 Safari/537.36",
    "Mozilla/5.0 (Windows NT 10.0; Win64; x64) AppleWebKit/537.36 (KHTML, like Gecko) Chrome/119.0.0.0 Safari/537.36",
    "Mozilla/5.0 (Macintosh; Intel Mac OS X 10_15_7) AppleWebKit/537.36 (KHTML, like Gecko) Chrome/120.0.0.0 Safari/537.36",
    "Mozilla/5.0 (X11; Linux x86_64) AppleWebKit/537.36 (KHTML, like Gecko) Chrome/120.0.0.0 Safari/537.36"
  ]

  /** The headers every request carries besides the user agent. */
  const FixedHeaders: map<string, string> := map[
    "Accept" := "text/html,application/xhtml+xml,application/xml;q=0.9,image/webp,*/*;q=0.8",
    "Accept-Language" := "en-US,en;q=0.9",
    "Accept-Encoding" := "gzip, deflate, br",
    "DNT" := "1",
    "Connection" := "keep-alive",
    "Upgrade-Insecure-Requests" := "1"
  ]

  /** `get_random_headers`: some agent of the pool, and the fixed headers unchanged. */
  method RandomHeaders() returns (headers: map<string, string>)
    ensures headers.Keys == FixedHeaders.Keys + {"User-Agent"}
    ensures headers["User-Agent"] in UserAgents
    ensures forall k :: k in FixedHeaders ==> headers[k] == FixedHeaders[k]
  {
    assert UserAgents[0] in UserAgents;
    var agent :| agent in UserAgents;
    headers := FixedHeaders["User-Agent" := agent];
  }

  // --------------------------------------------------------------- Requests

  /**
   * What happens between sending the request and the parser returning: the
   * page arrived and was parsed, `requests` raised (a connection error, a
   * timeout, or an HTTP error status from `raise_for_status`), or some
   * other exception was raised, for instance while writing a debug file.
   */
  datatype Fetch = Fetched(page: Page) | RequestError(reason: string) | OtherError(reason: string)

  /** The static dispatch applied to the fetched page. */
  function Parsed(url: string, p: Page): (r: ScrapeResult)
    ensures WellFormed(r)
  {
    match StaticRetailer(url)
    case Walmart => StaticParsers.WalmartResult(p)
    case BestBuy => StaticParsers.BestBuyResult(p)
    case Newegg => StaticParsers.NeweggResult(p)
    case _ => StaticParsers.GenericResult(p)
  }

  /** What `scrape_with_requests` returns. */
  function RequestsResult(url: string, f: Fetch): (r: ScrapeResult)
    ensures WellFormed(r)
  {
    match f
    case Fetched(p) => Parsed(url, p)
    case RequestError(reason) => Failed("Request failed: " + reason)
    case OtherError(reason) => Failed("Scraping error: " + reason)
  }

  /**
   * No exception escapes the static path: a raised exception becomes a
   * result without title or price, unsuccessful, with a non-empty error
   * naming the kind of failure.
   */
  lemma RequestsErrorsBecomeResults(url: string, f: Fetch)
    ensures !f.Fetched? ==> var r := RequestsResult(url, f);
      && r.title.None? && r.price.None? && !r.success
      && r.error.Some? && r.error.value != ""
      && (f.RequestError? ==> r.error.value[..16] == "Request failed: ")
      && (f.OtherError? ==> r.error.value[..16] == "Scraping error: ")
  {
  }

  method ScrapeWithRequests(url: string, f: Fetch) returns (r: ScrapeResult)
    ensures r == RequestsResult(url, f)
  {
    var headers := RandomHeaders();
    match f {
      case RequestError(reason) => r := Failed("Request failed: " + reason);
      case OtherError(reason) => r := Failed("Scraping error: " + reason);
      case Fetched(p) =>
        var site := StaticRetailer(url);
        if site == Walmart {
          r := StaticParsers.ParseWalmart(p);
        } else if site == BestBuy {
          r := StaticParsers.ParseBestBuy(p);
        } else if site == Newegg {
          r := StaticParsers.ParseNewegg(p);
        } else {
          r := StaticParsers.ParseGeneric(p);
        }
    }
  }

  // ---------------------------------------------------------------- Product

  /**
   * Everything one call of `scrape_product` depends on: the static fetch
   * outcome, and the browser session with the rendered page and live
   * lookups. Only the part the transport uses is read.
   */
  datatype World = World(fetch: Fetch, session: Selenium.Session, rendered: Page, live: Live)

  /** What `scrape_product` returns. */
  function ProductResult(url: string, w: World): (r: ScrapeResult)
    ensures WellFormed(r)
  {
    match TransportFor(url)
    case Browser => Selenium.SeleniumResult(url, w.session, w.rendered, w.live)
    case Requests => RequestsResult(url, w.fetch)
  }

  /**
   * Through `scrape_product` the browser path runs only the AliExpress
   * scraper; the Walmart, BestBuy, Newegg and generic browser scrapers are
   * reached only by calling `scrape_with_selenium` directly.
   */
  lemma ProductBrowserPathIsAliExpress(url: string, w: World)
    ensures TransportFor(url) == Browser ==>
      ProductResult(url, w) ==
        if Selenium.Survives(w.session) then AliExpress.Result(w.rendered, w.live, url)
        else Failed(Selenium.CrashText)
    ensures TransportFor(url) == Requests ==> ProductResult(url, w) == RequestsResult(url, w.fetch)
  {
    DispatchAgreement(url);
  }

  method ScrapeProduct(url: string, w: World) returns (r: ScrapeResult)
    ensures r == ProductResult(url, w)
  {
    if TransportFor(url) == Browser {
      var log;
      r, log := Selenium.ScrapeWithSelenium(url, w.session, w.rendered, w.live);
    } else {
      r := ScrapeWithRequests(url, w.fetch);
    }
  }
}
