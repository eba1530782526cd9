/**
 * `scrape_with_selenium`: one browser session per call, the browser
 * dispatch, and the rule that a driver once created is quit before the
 * call returns, on the normal path and on the crash path alike.
 */
module Selenium {
  import opened Wrappers
  import opened Results
  import opened Documents
  import opened Routing
  import BrowserParsers
  import AliExpress

  /**
   * How the session's driver calls behave: whether `init_driver` returns a
   * driver, whether `set_page_load_timeout` and the read of `driver.title`
   * for the log line return, and whether `driver.quit()` raises. Failures
   * of `driver.get` are swallowed by the source and need no flag.
   */
  datatype Session = Session(launches: bool, configures: bool, titleReadable: bool, quitRaises: bool)

  /** The driver calls a run makes, in order. */
  datatype DriverCall = Launch | SetTimeout | Load | ReadTitle | Scrape(site: Retailer) | Quit

  const CrashText: string := "Scraper timeout or crash. Site may be too slow or blocking."

  /** The retailer scraper the browser dispatch picks, run on the rendered page. */
  function Dispatched(url: string, p: Page, live: Live): (r: ScrapeResult)
    ensures WellFormed(r)
  {
    match BrowserRetailer(url)
    case AliExpress => AliExpress.Result(p, live, url)
    case Walmart => BrowserParsers.WalmartResult(p, live)
    case BestBuy => BrowserParsers.BestBuyResult(p, live)
    case Newegg => BrowserParsers.NeweggResult(p, live)
    case Generic => BrowserParsers.GenericResult(p, live)
  }

  /** A session survives when every driver call it depends on returns and the final quit does not raise. */
  predicate Survives(s: Session) {
    s.launches && s.configures && s.titleReadable && !s.quitRaises
  }

  /** What `scrape_with_selenium` returns. */
  function SeleniumResult(url: string, s: Session, p: Page, live: Live): (r: ScrapeResult)
    ensures WellFormed(r)
    ensures !Survives(s) ==> r == Failed(CrashText)
    ensures Survives(s) ==> r == Dispatched(url, p, live)
  {
    if Survives(s) then Dispatched(url, p, live) else Failed(CrashText)
  }

  /** The dispatch `if 'aliexpress' in url.lower(): … else: result = scrape_generic(…)`. */
  method RunScraper(url: string, p: Page, live: Live) returns (result: ScrapeResult)
    ensures result == Dispatched(url, p, live)
  {
    match BrowserRetailer(url) {
      case AliExpress => result := AliExpress.ScrapeAliExpress(p, live, url);
      case Walmart => result := BrowserParsers.ScrapeWalmart(p, live);
      case BestBuy => result := BrowserParsers.ScrapeBestBuy(p, live);
      case Newegg => result := BrowserParsers.ScrapeNewegg(p, live);
      case Generic => result := BrowserParsers.ScrapeGeneric(p, live);
    }
  }

  /** The driver calls a run with session `s` makes, when the browser dispatch picks `site`. */
  function Calls(s: Session, site: Retailer): (log: seq<DriverCall>)
    ensures s.launches ==> |log| >= 2 && log[0] == Launch
  {
    if !s.launches then []
    else if !s.configures then [Launch, Quit]
    else if !s.titleReadable then [Launch, SetTimeout, Load, Quit]
    else if !s.quitRaises then [Launch, SetTimeout, Load, ReadTitle, Scrape(site), Quit]
    else [Launch, SetTimeout, Load, ReadTitle, Scrape(site), Quit, Quit]
  }

  /**
   * The quit discipline: a driver is created exactly when the log is not
   * empty; once created, the last call is `quit`, made once, or twice
   * when the first `quit` raised, and only then; a successful result came
   * from the chosen scraper, and its driver was quit once.
   */
  lemma QuitDiscipline(url: string, s: Session, p: Page, live: Live)
    ensures var log := Calls(s, BrowserRetailer(url));
      && (s.launches <==> Launch in log)
      && (!s.launches ==> log == [])
      && (s.launches ==> log[|log| - 1] == Quit && 1 <= multiset(log)[Quit] <= 2)
      && (multiset(log)[Quit] == 2 ==> s.quitRaises && SeleniumResult(url, s, p, live) == Failed(CrashText))
      && (SeleniumResult(url, s, p, live).success ==> multiset(log)[Quit] == 1 && Scrape(BrowserRetailer(url)) in log)
  {
    var site := BrowserRetailer(url);
    var log := Calls(s, site);
    if s.launches {
      if !s.configures {
        assert multiset(log)[Quit] == 1;
      } else if !s.titleReadable {
        assert multiset(log)[Quit] == 1;
      } else if !s.quitRaises {
        assert multiset(log)[Quit] == 1 && log[4] == Scrape(site);
      } else {
        assert multiset(log)[Quit] == 2;
      }
    }
  }

  method ScrapeWithSelenium(url: string, s: Session, p: Page, live: Live) returns (r: ScrapeResult, log: seq<DriverCall>)
    ensures r == SeleniumResult(url, s, p, live)
    ensures log == Calls(s, BrowserRetailer(url))
  {
    log := [];
    if !s.launches {
      return Failed(CrashText), log;
    }
    log := [Launch];
    if s.configures {
      log := log + [SetTimeout, Load];
      if s.titleReadable {
        log := log + [ReadTitle];
        var site := BrowserRetailer(url);
        var result := RunScraper(url, p, live);
        log := log + [Scrape(site), Quit];
        if !s.quitRaises {
          return result, log;
        }
      }
    }
    // the crash path: the driver exists, so `quit` is attempted once more
    log := log + [Quit];
    r := Failed(CrashText);
  }
}
