/**
 * What the parsers read from a page. Every BeautifulSoup `find`/`find_all`,
 * every page-wide `re.findall`, and every browser-side lookup is given here
 * as its outcome: an optional element text, a list of texts, or a list of
 * regular-expression matches.
 */
module Documents {
  import opened Wrappers

  /** A `span itemprop="price"` element: its `content` attribute and its text. */
  datatype PriceTag = PriceTag(content: Option<string>, text: string)

  /** An `li.price-current` element: its text and the texts of its first `strong` and `sup`. */
  datatype PriceCurrent = PriceCurrent(text: string, strong: Option<string>, sup: Option<string>)

  /**
   * One `<script type="application/ld+json">` after `json.loads`: either it
   * yields no usable `offers` object (not JSON, no `offers` key, or an
   * `offers` value without `.get`), or `str(data['offers'].get('price', ''))`.
   */
  datatype LdScript = NoOffers | Offers(price: string)

  /** The soup lookups and raw-page regular-expression matches. */
  datatype Page = Page(
    h1s: seq<string>,                 // get_text() of each find_all('h1'); find('h1') is the first
    h1ItemName: Option<string>,       // find('h1', {'itemprop': 'name'})
    h1ProductTitle: Option<string>,   // find('h1', class_='product-title')
    h1ProdTitleClass: Option<string>, // find('h1', class_=re.compile('prod.*title', re.I))
    h1HeadingClass: Option<string>,   // find('h1', class_=re.compile('heading', re.I))
    ogTitle: Option<string>,          // meta og:title: its content, '' when it has none
    priceTag: Option<PriceTag>,       // find('span', {'itemprop': 'price'})
    dataPrice: Option<string>,        // find(attrs={'data-price': True}).get('data-price')
    ldJson: seq<LdScript>,            // find_all('script', {'type': 'application/ld+json'})
    priceCurrent: Option<PriceCurrent>, // find('li', class_='price-current')
    productPrice: Option<string>,     // find('div', class_='product-price').get_text()
    priceView: Option<string>,        // find('div', class_=re.compile('priceView', re.I)).get_text()
    priceClassTexts: seq<string>,     // find_all(class_=re.compile('price', re.I))
    ariaLabelPriceTexts: seq<string>, // find_all(attrs={'aria-label': re.compile('price', re.I)})
    ariaHiddenSpans: seq<string>,     // find_all('span', {'aria-hidden': 'true'})
    spmSpans: seq<string>,            // find_all('span', attrs={'data-spm-anchor-id': True})
    scripts: seq<Option<string>>,     // script.string of each find_all('script')
    quotedPriceMatches: seq<string>,  // findall('"price"[:\s]+"?([\d,]+\.?\d{0,2})"?') on the raw page
    barePriceMatches: seq<string>,    // findall('"price"[:\s]+([\d,]+\.?\d{0,2})') on the raw page
    dollarMatches: seq<string>        // findall('\$\s*([\d,]+\.?\d{2})') on driver.page_source
  )

  /** The text of `soup.find('h1')`, if there is an h1. */
  function FirstH1(p: Page): (r: Option<string>)
    ensures r.Some? <==> |p.h1s| > 0
    ensures r.Some? ==> r.value == p.h1s[0]
  {
    if p.h1s == [] then None else Some(p.h1s[0])
  }

  /** An element found with `driver.find_element`: its `.text` and its `content` attribute. */
  datatype DomElement = DomElement(text: string, content: Option<string>)

  /** The outcome of `float(x)`: a number, or a raised ValueError/TypeError/KeyError. */
  datatype Num = NumOk(v: real) | NumBad

  /**
   * The value the in-browser script returns: nothing (null, a falsy value,
   * or a raised exception), or a truthy value and what `float` makes of it.
   */
  datatype JsPrice = JsNothing | JsValue(n: Num)

  /**
   * `json.loads` of a runParams slice, navigated to `data.priceModule`: a
   * raised exception, a decoded object without a `data` key, or the three
   * amounts the code looks for, each absent or `float(amount['value'])`.
   */
  datatype RunParams =
    | RunFault
    | NoData
    | PriceModule(minActivity: Option<Num>, minAmount: Option<Num>, maxActivity: Option<Num>)

  /** What only the live browser session can answer. */
  datatype Live = Live(
    title: string,                      // driver.title
    itempropPrice: Option<DomElement>,  // find_element(By.CSS_SELECTOR, '[itemprop="price"]')
    priceViewText: Option<string>,      // find_element(By.CSS_SELECTOR, '[class*="priceView"]').text
    priceCurrentText: Option<string>,   // find_element(By.CLASS_NAME, 'price-current').text
    js: JsPrice,                        // execute_script over window.runParams
    loads: string -> RunParams,         // json.loads, applied to a runParams slice
    urlPairs: seq<(string, string)>,    // findall(r'USD.*?([\d,]+\.?\d{1,2}).*?([\d,]+\.?\d{1,2})', unquote(url))
    urlDollars: seq<string>,            // findall(r'US\s*\$\s*([\d,]+\.?\d{0,2})', unquote(url))
    fault: Option<string>               // str(e) of an exception raised while reading the page, if any
  )
}
