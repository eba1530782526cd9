# price-watcher in Dafny

A model of the extraction pipeline and the product store of price-watcher,
a Flask service that tracks retail prices. It covers:

- the price normaliser `extract_price`;
- the routing from a URL to a transport (plain HTTP or a headless browser)
  and to a retailer parser;
- the static parsers `parse_walmart`, `parse_bestbuy`, `parse_newegg`,
  `parse_generic` and the browser scrapers `scrape_walmart`,
  `scrape_bestbuy`, `scrape_newegg`, `scrape_aliexpress`, `scrape_generic`,
  each with its fallback chain and the common result contract;
- `scrape_with_selenium` and its rule that a created driver is always quit;
- `get_random_headers` (the agent comes from the fixed pool);
- the trend and percentage change of a product's price history;
- the store handlers `add_product`, `rescrape_product`, `delete_product`,
  `get_price_history` and the background job `auto_rescrape_all`.

Prices are exact rationals (`real`), so `float` and `round` are read as
exact decimal arithmetic with round-half-to-even. All HTML lookups,
`json.loads` results, page-wide regular-expression matches and browser
answers are inputs: a `Documents.Page` holds what BeautifulSoup and
`re.findall` return for a page, and a `Documents.Live` holds what only
the running browser can answer. An exception raised while a scraper reads
the page is the `fault` field of `Live`. The one regular expression
modelled as a scanner is `[\d,]+\.?\d*` in `extract_price`
(`Prices.FirstNumeral`).

Each parser that reassigns `title` and `price` down its chain is a method
that does the same step by step. Its postcondition equates the result with
a function of the page, and the precedence lemmas are stated about those
functions. The store is a class `Tracker.Store` with a map of products, a
map of history rows and an id counter. Its invariant `Valid()` says every
product has a history, ids come from the counter, and no two products
share a URL. Scrape outcomes (`Scraper.World`) and the clock (`now`) are
method arguments.

Modules, one per file: `Wrappers`, `Text`, `Decimal`, `Prices`,
`PriceExamples`, `Results`, `Documents`, `StaticParsers`, `BrowserParsers`,
`AliExpress`, `Routing`, `Selenium`, `Scraper`, `PriceHistory`, `Tracker`.

`extract_price` exists twice in the source, identically
(utils/scraper.py:277-297 and utils/selenium_scraper.py:529-549). One
definition models both.

## Model

| member | source | states |
|---|---|---|
| Text.Strip | utils/scraper.py:282 | `str.strip()`: the result has no whitespace at either end, is empty exactly when the text is all whitespace, and a text with no whitespace at all is its own strip |
| Text.StripKeepsTrimmed | utils/scraper.py:282 | a non-empty text with no whitespace at either end is its own strip |
| Text.StripIsInfix | utils/scraper.py:282 | the strip is a contiguous middle part of the text, with only whitespace before and after it |
| Text.Lower | utils/scraper.py:11 | `lower()` keeps the length and maps each character through the ASCII letter mapping |
| Text.Find | utils/selenium_scraper.py:427-429 | `find(t, from)` is -1 exactly when `t` occurs nowhere at or after `from`, and otherwise the first such occurrence |
| Text.ContainsMeaning | utils/scraper.py:11 | the substring test `t in s` holds exactly when `t` occurs somewhere in `s` |
| Text.RFindChar | utils/selenium_scraper.py:430 | `rfind(c, from)` is -1 or an index at or after `from` holding `c`, and no later index holds `c` |
| Text.BeforeFirst | utils/selenium_scraper.py:107 | `split(c)[0]` is a prefix free of `c`, ending at the first `c` or at the end of the text |
| Text.AfterLast | utils/selenium_scraper.py:389 | `split(c)[-1]` is a suffix free of `c`, starting just after the last `c` or at the start of the text |
| Text.RemoveAll | utils/selenium_scraper.py:386 | `replace(p, '')` never lengthens the text, and leaves it unchanged when the pattern is empty or does not occur |
| Text.RemoveAllLeftmost | utils/selenium_scraper.py:386 | the leftmost occurrence is removed, the text before it is kept as it stands, and the scan resumes right after it |
| Text.Take | utils/scraper.py:128 | `s[:n]` is a prefix of length min(len(s), n) |
| Decimal.DigitsValue | utils/scraper.py:291 | a run of k decimal digits denotes a natural number below 10^k |
| Decimal.RoundHalfEven | utils/scraper.py:293 | `round` to an integer: within 0.5 of the argument, and even on a tie |
| Decimal.RoundTenths | models.py:49 | `round(x, 1)` is a whole number of tenths within 0.05 of `x`, and on a tie the even number of tenths |
| Decimal.RoundWithin | utils/scraper.py:292-293 | rounding keeps a value inside any interval with integer ends |
| Decimal.RoundTenthsSign | models.py:49 | `round(x, 1)` keeps the sign of `x`, and zero stays zero |
| Prices.SkipToRun | utils/scraper.py:283 | the first index at or after `i` holding a digit or comma, with none before it |
| Prices.RunEnd | utils/scraper.py:283 | the greedy end of the `[\d,]+` part |
| Prices.DigitsEnd | utils/scraper.py:283 | the greedy end of the `\d*` part |
| Prices.FirstNumeral | utils/scraper.py:283-286 | the first match has the shape of `[\d,]+\.?\d*`: a non-empty run of digits and commas, then digits only after a dot |
| Prices.FirstNumeralMatches | utils/scraper.py:283-286 | there is no match exactly when the text holds no ASCII digit and no comma; otherwise the match starts at the first digit or comma, spells its lexeme there, and each part is as long as greedy matching makes it |
| Prices.DropCommas | utils/scraper.py:288 | `replace(',', '')` leaves no comma, leaves only digits of a digit-and-comma run, and is empty exactly when the run is all commas |
| Prices.NumeralValue | utils/scraper.py:288-291 | `float` of the comma-free match fails exactly when nothing but a dot is left (`""` or `"."`), and otherwise gives a non-negative number |
| Prices.ExtractPrice | utils/scraper.py:277-297 | every price returned lies in [0.01, 999999] and is a whole number of cents |
| Prices.ExtractPriceDenotes | utils/scraper.py:288-293 | a price is returned exactly when the first match's number exists and lies in [0.01, 999999], and it is then within half a cent of that number |
| Prices.RoundCents | utils/scraper.py:293 | `round(v, 2)` of an in-range value stays in range, is whole cents and moves the value by at most 0.005 |
| Prices.RoundCentsKeepsWholeCents | utils/scraper.py:293 | `round(v, 2)` leaves a value with at most two decimals unchanged |
| Prices.CentsAreWhole | utils/scraper.py:293 | an integer count of cents divided by 100 is whole cents |
| Prices.NoPriceCases | utils/scraper.py:279-295 | None for an empty text, for a text with no digit and no comma, and for a first match that is commas only |
| Prices.FirstPrice | utils/scraper.py:266-269 | the first candidate that yields a price, which is then in [0.01, 999999] |
| Prices.FirstPriceIsFirst | utils/scraper.py:266-269 | after candidates that yield no price, the first one that does decides the scan, and None means none does |
| Prices.ScanFirstPrice | utils/scraper.py:266-269 | the `for … if price: break` loop returns FirstPrice |
| Prices.FirstInRange | utils/scraper.py:119-123 | a price found by the range scan is truthy and inside the bounds |
| Prices.FirstInRangeIsFirst | utils/scraper.py:119-123 | after candidates that miss the range, the first hit decides, and None means no candidate hits |
| Prices.FirstInRangeFromCandidate | utils/scraper.py:119-123 | a price found by the range scan is the price of some candidate that hits |
| Prices.ScanInRange | utils/scraper.py:117-123 | the `if potential and lo <= potential <= hi: break` loop returns FirstInRange |
| Prices.FirstInRangeAppend | utils/selenium_scraper.py:464-476 | scanning two candidate lists in turn equals scanning the second only when the first has no hit |
| PriceExamples.DollarAmount | utils/scraper.py:283-293 | `extract_price("$1,234.56")` is 1234.56 |
| PriceExamples.SecondDotEndsTheMatch | utils/scraper.py:283-288 | `extract_price("1.2.3")` is 1.2: the match stops at the second dot |
| PriceExamples.CommaBeforeDigits | utils/scraper.py:283-295 | `extract_price("Price, $5")` is None: the first match is the lone comma |
| PriceExamples.ZeroIsNoPrice | utils/scraper.py:292 | `extract_price("0.00")` is None: zero is below the floor |
| PriceExamples.MillionIsNoPrice | utils/scraper.py:292 | `extract_price("1000000")` is None: above the ceiling |
| PriceExamples.WordIsNoPrice | utils/scraper.py:285-286 | `extract_price("free")` is None: nothing matches |
| PriceExamples.DigitsValueAtLeastLead | utils/scraper.py:291 | k digits led by a non-zero digit are worth at least 10^(k-1) |
| PriceExamples.DenotedOfTrimmed | utils/scraper.py:282-283 | a text with no whitespace at either end is scanned as it stands |
| Results.Failed | utils/scraper.py:42-55 | a failure result: well formed, unsuccessful, no title and no price |
| Results.Report | utils/scraper.py:134 | the failure message starts with the site name and ends with the debug file name |
| Results.Conclude | utils/scraper.py:127-135 | success exactly when title and price are truthy; the price is passed through; on success the title is its first min(len, 250) characters and the error is None; on failure title and price are as found and the error is the message |
| Results.ConcludeGeneric | utils/scraper.py:271-274 | like Conclude on success, and on failure title and price are both dropped with "Generic scraper failed" |
| Documents.FirstH1 | utils/scraper.py:148 | `find('h1')` finds something exactly when the page has an h1, and it is the first |
| StaticParsers.OfferPrices | utils/scraper.py:163-169 | the offers prices: each comes from a script that decoded to an object with `offers`, and every such script contributes its price |
| StaticParsers.OfferPricesAppend | utils/scraper.py:164-169 | the scripts are read in document order: the prices of two script lists in turn are the prices of the first, then of the second |
| StaticParsers.TagText | utils/scraper.py:108 | the span's `content` when present and non-empty, otherwise its text |
| StaticParsers.LdPrice | utils/scraper.py:163-173 | the ld+json price, when found, is in [0.01, 999999] |
| StaticParsers.ScanLdJson | utils/scraper.py:163-173 | the ld+json loop, skipping scripts without offers and stopping at the first price, returns LdPrice |
| StaticParsers.WalmartTitle | utils/scraper.py:87-98 | no title exactly when the page has no itemprop h1, no h1 and no og:title |
| StaticParsers.WalmartPrice | utils/scraper.py:102-123 | every price found is in [0.01, 999999] |
| StaticParsers.WalmartResult | utils/scraper.py:78-135 | the Walmart result meets the result contract |
| StaticParsers.ParseWalmart | utils/scraper.py:78-135 | `parse_walmart` returns WalmartResult |
| StaticParsers.WalmartTitleFromHeading | utils/scraper.py:88-98 | the itemprop h1, else the first h1, gives the stripped title even when empty; og:title is read only when no h1 exists, and then cannot change the title |
| StaticParsers.WalmartPricePrecedence | utils/scraper.py:103-123 | itemprop span (its `content` before its text), then `data-price`, then the first quoted regex match in [0.99, 50000]; a later source counts only when all earlier ones gave none |
| StaticParsers.HeadingOrOg | utils/scraper.py:147-155 | the stripped first-h1 text when non-empty, else og:title when present, else what the h1 gave |
| StaticParsers.BestBuyStaticTitle | utils/scraper.py:146-155 | no title exactly when the page has no h1 and no og:title |
| StaticParsers.BestBuyStaticPrice | utils/scraper.py:159-182 | every price found is in [0.01, 999999] |
| StaticParsers.BestBuyResult | utils/scraper.py:138-194 | the BestBuy result meets the result contract |
| StaticParsers.ParseBestBuy | utils/scraper.py:138-194 | `parse_bestbuy` returns BestBuyResult |
| StaticParsers.BestBuyStaticPricePrecedence | utils/scraper.py:160-182 | ld+json first; without it the first bare regex match in [9.99, 50000] |
| StaticParsers.NeweggStaticTitle | utils/scraper.py:205-217 | no title exactly when the page has no product-title h1, no h1 and no og:title; a product-title h1 that strips to text gives the title |
| StaticParsers.NeweggStaticPrice | utils/scraper.py:221-240 | every price found is in [0.01, 999999]; a price from `price-current` wins, and without one the ld+json price is used |
| StaticParsers.NeweggResult | utils/scraper.py:197-252 | the Newegg result meets the result contract |
| StaticParsers.ParseNewegg | utils/scraper.py:197-252 | `parse_newegg` returns NeweggResult |
| StaticParsers.GenericTitle | utils/scraper.py:259-262 | a title exactly when the page has an h1, and then the strip of the first h1 |
| StaticParsers.GenericResult | utils/scraper.py:255-274 | the generic result meets the result contract |
| StaticParsers.ParseGeneric | utils/scraper.py:255-274 | `parse_generic` returns GenericResult |
| StaticParsers.GenericStaticSuccess | utils/scraper.py:259-274 | the generic parser succeeds exactly when the first h1 strips to text and some price-class element yields a price |
| StaticParsers.FirstPriceSomeIff | utils/scraper.py:266-269 | the first-price scan succeeds exactly when some candidate yields a price |
| BrowserParsers.DriverTitle | utils/selenium_scraper.py:107 | the driver-title fallback contains neither `\|` nor `-` |
| BrowserParsers.DriverTitleCut | utils/selenium_scraper.py:107 | the fallback is the strip of the longest prefix of the title free of both separators |
| BrowserParsers.TitleChain | utils/selenium_scraper.py:96-107 | a stripped heading that is non-empty wins; otherwise a stripped og:title that is non-empty |
| BrowserParsers.FindTitle | utils/selenium_scraper.py:96-107 | the step-by-step title code returns TitleChain |
| BrowserParsers.ElementPriceText | utils/selenium_scraper.py:137 | the element's text when non-empty, otherwise its `content` attribute |
| BrowserParsers.WalmartTitle | utils/selenium_scraper.py:86-107 | the itemprop h1, else the `prod…title` h1, else the first h1, whichever is found first, gives the title when it strips to text |
| BrowserParsers.WalmartPrice | utils/selenium_scraper.py:109-139 | every price found is in [0.01, 999999] |
| BrowserParsers.FindWalmartPrice | utils/selenium_scraper.py:110-139 | the Walmart browser price code returns WalmartPrice |
| BrowserParsers.WalmartResult | utils/selenium_scraper.py:74-164 | the Walmart browser result meets the result contract |
| BrowserParsers.ScrapeWalmart | utils/selenium_scraper.py:74-164 | `scrape_walmart` returns WalmartResult, or "Walmart error: …" on an exception |
| BrowserParsers.DollarTexts | utils/selenium_scraper.py:204-207 | the stripped span texts the loop reads: each holds `$`, and every span whose stripped text holds `$` is among them |
| BrowserParsers.DollarTextsAppend | utils/selenium_scraper.py:204-207 | the spans are read in document order: the `$` texts of two span lists in turn are those of the first, then of the second |
| BrowserParsers.AriaScan | utils/selenium_scraper.py:204-210 | the loop leaves None, a price in [0.01, 999999] or the starting value; without `$` spans, the starting value |
| BrowserParsers.AriaScanMeaning | utils/selenium_scraper.py:204-210 | the span loop gives the first `$` span price in [0.99, 50000]; without one, what the last `$` span gave (None or out of range); without `$` spans, the starting value |
| BrowserParsers.ScanAriaSpans | utils/selenium_scraper.py:204-210 | the span loop returns AriaScan from None |
| BrowserParsers.BestBuyTitle | utils/selenium_scraper.py:179-198 | the `heading` h1, else the first h1, whichever is found first, gives the title when it strips to text |
| BrowserParsers.BestBuyPrice | utils/selenium_scraper.py:200-239 | every price found is in [0.01, 999999] |
| BrowserParsers.FindBestBuyPrice | utils/selenium_scraper.py:200-239 | the BestBuy browser price code returns BestBuyPrice |
| BrowserParsers.BestBuyResult | utils/selenium_scraper.py:167-264 | the BestBuy browser result meets the result contract |
| BrowserParsers.ScrapeBestBuy | utils/selenium_scraper.py:167-264 | `scrape_bestbuy` returns BestBuyResult |
| BrowserParsers.NeweggPriceText | utils/selenium_scraper.py:304-313 | the `strong` text, followed by "." and the `sup` text exactly when there is a `sup` |
| BrowserParsers.NeweggTitle | utils/selenium_scraper.py:279-298 | the product-title h1, else the first h1, whichever is found first, gives the title when it strips to text |
| BrowserParsers.NeweggPrice | utils/selenium_scraper.py:300-336 | every price found is in [0.01, 999999] |
| BrowserParsers.FindNeweggPrice | utils/selenium_scraper.py:300-336 | the Newegg browser price code returns NeweggPrice |
| BrowserParsers.NeweggResult | utils/selenium_scraper.py:267-361 | the Newegg browser result meets the result contract |
| BrowserParsers.ScrapeNewegg | utils/selenium_scraper.py:267-361 | `scrape_newegg` returns NeweggResult |
| BrowserParsers.GenericResult | utils/selenium_scraper.py:508-526 | without an exception the browser generic scraper returns what the static generic parser returns for the same page |
| BrowserParsers.ScrapeGeneric | utils/selenium_scraper.py:508-526 | `scrape_generic` returns GenericResult |
| AliExpress.Each | utils/selenium_scraper.py:374-375 | applying a text operation to each element keeps the length and the positions |
| AliExpress.EachAppend | utils/selenium_scraper.py:374-375 | the operation is applied element by element, so it distributes over concatenation |
| AliExpress.StrippedAll | utils/selenium_scraper.py:375 | the stripped text of each h1, position by position |
| AliExpress.FirstLong | utils/selenium_scraper.py:374-378 | the text chosen is longer than 10 characters and is one of the texts; None exactly when every text is at most 10 long |
| AliExpress.FirstLongIsFirst | utils/selenium_scraper.py:374-378 | the text chosen is at some position with every earlier text at most 10 long |
| AliExpress.LongHeading | utils/selenium_scraper.py:374-378 | the stripped h1 text chosen is longer than 10 characters; None exactly when no h1 strips to more than 10 |
| AliExpress.LongHeadingIsFirst | utils/selenium_scraper.py:374-378 | the heading chosen is the strip of the first h1 whose strip is longer than 10 characters |
| AliExpress.FindLongHeading | utils/selenium_scraper.py:374-378 | the h1 loop returns LongHeading |
| AliExpress.UrlSlug | utils/selenium_scraper.py:389 | the URL slug contains no `/`, `.` or `?` |
| AliExpress.SyntheticTitle | utils/selenium_scraper.py:389 | "AliExpress Product " followed by the slug |
| AliExpress.BrandlessTitle | utils/selenium_scraper.py:386 | a driver title without " - AliExpress" is only stripped |
| AliExpress.Title | utils/selenium_scraper.py:372-389 | the title chain always ends in a non-empty title; a long heading wins, and without one an og:title that strips to text |
| AliExpress.FindTitle | utils/selenium_scraper.py:373-389 | the title code returns Title |
| AliExpress.JsValue | utils/selenium_scraper.py:397-415 | the script answer gives a price exactly when it returned a value that `float` accepts, and then that value |
| AliExpress.RunParamsSlice | utils/selenium_scraper.py:427-431 | None exactly when "window.runParams" does not occur |
| AliExpress.FindCharMeaning | utils/selenium_scraper.py:429 | `find(c, from)` of one character lands on `c` with no `c` between `from` and it |
| AliExpress.RunParamsSliceBraces | utils/selenium_scraper.py:427-431 | with the marker, a `{` after it and a `}` after that, the slice runs from the first such `{` through the last `}` of the script |
| AliExpress.ChosenAmount | utils/selenium_scraper.py:440-445 | minActivityAmount, else minAmount, else maxActivityAmount |
| AliExpress.ScriptPrice | utils/selenium_scraper.py:423-445 | a price is assigned only from a script that exists, mentions "runParams" and holds the "window.runParams" marker |
| AliExpress.FirstNonZero | utils/selenium_scraper.py:447-449 | the first non-zero value, None exactly when all are zero |
| AliExpress.FirstNonZeroIsFirst | utils/selenium_scraper.py:447-449 | the value chosen is at some position with every earlier value zero |
| AliExpress.ScriptScan | utils/selenium_scraper.py:418-451 | a truthy price from the first script ends the loop with it; if no script assigns a price, the starting value stays |
| AliExpress.ScriptScanMeaning | utils/selenium_scraper.py:418-451 | the scripts loop yields the first non-zero assigned price; if all assigned are zero, zero; if none is assigned, the starting value |
| AliExpress.ScanScripts | utils/selenium_scraper.py:418-451 | the scripts loop returns ScriptScan |
| AliExpress.UrlCandidates | utils/selenium_scraper.py:459-471 | at most two candidates: the second group of the first USD-pair match, then the first `US $` match |
| AliExpress.UrlPrice | utils/selenium_scraper.py:464-476 | a URL price lies in [1, 10000] |
| AliExpress.UrlPriceFirstMatches | utils/selenium_scraper.py:464-476 | a URL price comes from the first match of one of the two patterns; a hit on the USD pair wins |
| AliExpress.FindUrlPrice | utils/selenium_scraper.py:453-476 | the URL step returns UrlPrice |
| AliExpress.Candidates | utils/selenium_scraper.py:483 | the texts holding `$` or `USD`: each one kept holds one of them, and every text that does is kept |
| AliExpress.CandidatesAppend | utils/selenium_scraper.py:481-483 | the texts are filtered in order: filtering two lists in turn is filtering the first, then the second |
| AliExpress.SpanCandidates | utils/selenium_scraper.py:480-483 | the stripped span texts holding `$` or `USD`: each one kept holds one of them, and every span whose stripped text does is kept |
| AliExpress.SpanCandidatesAppend | utils/selenium_scraper.py:480-483 | the spans are read in document order: the candidates of two span lists in turn are those of the first, then of the second |
| AliExpress.ScanSpans | utils/selenium_scraper.py:479-488 | the span loop returns the first span candidate in [1, 10000] |
| AliExpress.Price | utils/selenium_scraper.py:393-488 | a truthy price from the page script wins over every later method |
| AliExpress.FindPrice | utils/selenium_scraper.py:393-488 | the price code returns Price |
| AliExpress.Result | utils/selenium_scraper.py:364-506 | the AliExpress result meets the result contract |
| AliExpress.ScrapeAliExpress | utils/selenium_scraper.py:364-506 | `scrape_aliexpress` returns Result |
| AliExpress.SuccessIffPrice | utils/selenium_scraper.py:492-501 | without an exception, success exactly when a truthy price was found |
| Routing.TransportFor | utils/scraper.py:10-18 | the browser exactly when the lower-cased URL contains "aliexpress" |
| Routing.StaticRetailer | utils/scraper.py:33-40 | the static dispatch never picks the AliExpress scraper |
| Routing.BrowserRetailer | utils/selenium_scraper.py:43-52 | AliExpress exactly when the lower-cased URL contains "aliexpress", and otherwise the static choice |
| Routing.StaticRetailerChoice | utils/scraper.py:33-40 | each static parser is chosen exactly when its token is in the lower-cased URL and no earlier token is; AliExpress never |
| Routing.BrowserRetailerChoice | utils/selenium_scraper.py:43-52 | the same for the browser chain, with aliexpress tested first |
| Routing.DispatchAgreement | utils/scraper.py:11-18 | a URL goes to the browser exactly when the browser chain picks AliExpress, and the two chains agree on every URL fetched directly |
| Routing.LowerIdempotent | utils/scraper.py:11 | lower-casing twice equals lower-casing once |
| Routing.ClassificationIgnoresCase | utils/scraper.py:11-18 | lower-casing the URL first changes no classification |
| Selenium.Dispatched | utils/selenium_scraper.py:43-52 | the browser-dispatched result meets the result contract |
| Selenium.SeleniumResult | utils/selenium_scraper.py:20-72 | a session that survives gives the dispatched scraper's result, any other gives the fixed crash result |
| Selenium.RunScraper | utils/selenium_scraper.py:42-52 | the dispatch code returns Dispatched |
| Selenium.Calls | utils/selenium_scraper.py:20-62 | a created driver's call log starts with the launch |
| Selenium.QuitDiscipline | utils/selenium_scraper.py:54-62 | a driver is created exactly when the log is non-empty; then the last call is `quit`, made once or, only when the first raised, twice; a success runs the chosen scraper and quits once |
| Selenium.ScrapeWithSelenium | utils/selenium_scraper.py:20-72 | `scrape_with_selenium` returns SeleniumResult and makes the calls of Calls |
| Scraper.RandomHeaders | utils/scraper.py:58-75 | the agent is one of the four in the pool, and the six fixed headers are sent unchanged |
| Scraper.Parsed | utils/scraper.py:32-40 | the statically dispatched result meets the result contract |
| Scraper.RequestsResult | utils/scraper.py:21-55 | `scrape_with_requests` meets the result contract |
| Scraper.RequestsErrorsBecomeResults | utils/scraper.py:42-55 | every exception becomes a result with no title, no price, no success and a non-empty error prefixed "Request failed: " or "Scraping error: " |
| Scraper.ScrapeWithRequests | utils/scraper.py:21-55 | the method returns RequestsResult |
| Scraper.ProductResult | utils/scraper.py:6-18 | `scrape_product` meets the result contract |
| Scraper.ProductBrowserPathIsAliExpress | utils/scraper.py:10-18 | through `scrape_product` the browser runs only the AliExpress scraper, and every other URL takes the static path |
| Scraper.ScrapeProduct | utils/scraper.py:6-18 | the method returns ProductResult |
| PriceHistory.Insert | models.py:26 | inserting adds exactly the one row |
| PriceHistory.InsertNoneAfter | models.py:26 | inserting keeps every row no later than a bound the rows and the new row respect |
| PriceHistory.InsertNewestFirst | models.py:26 | inserting into a newest-first history keeps it newest first |
| PriceHistory.SortNewestFirst | models.py:26 | `sorted(…, reverse=True)` is a permutation of the history |
| PriceHistory.SortIsNewestFirst | models.py:26 | the sorted copy is ordered newest first |
| PriceHistory.At | models.py:26 | the rows of one timestamp: every row kept is a history row with that timestamp, and every history row with that timestamp is kept |
| PriceHistory.AtAppend | models.py:26 | selecting one timestamp keeps the order of the rows: it distributes over concatenation |
| PriceHistory.InsertAt | models.py:26 | inserting puts the new row ahead of the rows with its timestamp |
| PriceHistory.SortIsStable | models.py:26 | rows with the same timestamp keep their original relative order |
| PriceHistory.TrendOf | models.py:30-35 | down exactly when the latest price is below the previous, up exactly when above, same exactly when equal |
| PriceHistory.PercentOf | models.py:46-49 | 0 over a zero previous price, and always a whole number of tenths |
| PriceHistory.PriceTrend | models.py:21-35 | same for a history of fewer than two rows |
| PriceHistory.ChangePercent | models.py:37-49 | 0 for a history of fewer than two rows, and always a whole number of tenths |
| PriceHistory.ShortHistory | models.py:23-24 | with fewer than two rows the trend is same and the change is 0 |
| PriceHistory.TrendMeaning | models.py:26-35 | with two rows or more, down exactly when the newest price is below the previous, up exactly when above, same exactly when equal |
| PriceHistory.PercentMeaning | models.py:42-49 | with two rows or more, 0 over a zero previous price, otherwise within 0.05 of the exact percentage change; always a whole number of tenths |
| PriceHistory.PercentOfNear | models.py:46-49 | the rounded percentage is a whole number of tenths within 0.05 of the exact one, and 0 over a zero base |
| PriceHistory.ComparedRows | models.py:26-28 | the compared rows come from the history; the first is the newest, and the second is at least as recent as every other row |
| PriceHistory.PercentAgreesWithTrend | models.py:29-49 | over a positive previous price, the change is at least 0 when rising, at most 0 when falling, 0 when equal |
| PriceHistory.TrendAgreesWithChange | models.py:21-49 | the same agreement between `get_price_trend` and `get_price_change_percent` of one history |
| PriceHistory.QuotientSign | models.py:49 | dividing by a positive base keeps the sign of the difference |
| Tracker.Refreshed | app.py:246-247 | a successful scrape sets the price and, unless told to keep it, the title; URL and creation time stay |
| Tracker.Rerun | app.py:32-33 | a background scrape changes the price on success only, and never the title |
| Tracker.RerunHistory | app.py:32-43 | a background scrape adds one row on success and none on failure |
| Tracker.RerunKeepsRows | app.py:35-40 | a background scrape keeps every history row and appends exactly one on success, priced as scraped |
| Tracker.Store.constructor | models.py:6-16 | an empty store satisfies the invariant |
| Tracker.Store.FindByUrl | app.py:99 | the query by URL finds a product with that URL, or reports that none has it |
| Tracker.Store.AddProduct | app.py:63-157 | a missing body or key, or a blank URL, answers 400 and changes nothing; a failed scrape answers 400 with its error and changes nothing; a stored URL gets new title and price, one more row, status 200; a new URL gets a product under the next id, one row, status 201 |
| Tracker.Store.Update | app.py:101-125 | title and price replaced, one row appended, nothing else changed |
| Tracker.Store.Create | app.py:127-157 | one product and one row with its price, under the next id |
| Tracker.Store.RescrapeProduct | app.py:235-266 | unknown ids answer 404; on success price and title replaced and one row appended; on failure 400 and no change |
| Tracker.Store.DeleteProduct | app.py:211-225 | unknown ids answer 404; otherwise the product and all its rows go, everything else stays |
| Tracker.Store.AutoRescrapeAll | app.py:19-50 | every product scraped once: success replaces the price (not the title) and appends one row, failure changes nothing; no product is added or removed |
| Tracker.Store.RecordRerun | app.py:32-43 | one product's background update, as in Rerun and RerunHistory |
| Tracker.Store.HistoryOf | app.py:189-208 | unknown ids give None (404); otherwise the product's rows, newest first, as a permutation of its history |

## Left out

- Network I/O: `requests.get`, its timeout and `raise_for_status` are the given outcome `Scraper.Fetch`.
- Browser setup and control: `init_driver`, `set_page_load_timeout` and the read of `driver.title` are the flags of `Selenium.Session`. A failing `driver.get` is swallowed by the source and needs no flag.
- `execute_script`: its answer is the given `Live.js`.
- Sleeps, `print` logging and the debug HTML writes: they do not affect results. An exception raised while writing a debug file is the `fault` field of `Live` for the browser scrapers and the `OtherError` fetch outcome for the static parsers.
- BeautifulSoup, `json.loads`, `urllib.parse.unquote` and every regular expression other than `[\d,]+\.?\d*`: their results are the fields of `Documents.Page` and `Documents.Live`.
- IEEE doubles: `float` and `round` are exact decimal arithmetic. A value such as 2.675, which `round(…, 2)` takes to 2.67 as a double, rounds to 2.68 in the model.
- Prices from the AliExpress script value and the runParams JSON bypass `extract_price` in the source. The model keeps them as given reals, without range check or rounding.
- Prices.FirstNumeralMatches: the digit class is the ASCII digits `0`–`9` only, while Python's `\d` and `float()` also accept every other Unicode decimal digit. A text such as "١٢٣" (Arabic-Indic digits) gives 123.0 in the source and None in the model.
- `str.lower()` is modelled on ASCII letters only. The four retailer tokens are ASCII, so classification is unaffected.
- Flask routing, JSON serialisation and SQLAlchemy sessions: the handlers' 500 server-error paths are not modelled, and neither are a `url` value that is not a string, `get_products` or the scheduler setup.
- Tracker.Store.HistoryOf: SQL `ORDER BY scraped_at DESC` leaves ties unordered; the model uses the stable sort of `get_price_trend`.
- Tracker.Store.AddProduct: the separate `utcnow()` readings of one request are one `now` argument.
- Tracker.Store.Create: ids come from a counter, so an id is never reused, which SQLite's rowid does not promise after a delete.
- Tracker.Store.AutoRescrapeAll: the order in which products are visited is left open, and one `now` stands for each product's clock reading. An exception inside the loop cannot arise in the model, since scrapers return results.
- `get_random_headers`: `random.choice` is a nondeterministic pick; only membership in the pool is stated.
- Concurrency between the background job and the request handlers is not modelled.
