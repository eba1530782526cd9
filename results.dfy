/** The dictionary every scraper returns: title, price, success and error. */
module Results {
  import opened Wrappers
  import opened Text
  import opened Prices

  datatype ScrapeResult = ScrapeResult(title: Option<string>, price: Option<real>, success: bool, error: Option<string>)

  /** Python truthiness of an optional title: present and non-empty. */
  predicate TitleTruthy(t: Option<string>) {
    t.Some? && t.value != ""
  }

  /** A successful title is cut to this many characters. */
  const TitleLimit: nat := 250

  /**
   * The result contract: success exactly when title and price are both
   * truthy, an error exactly on failure, and a successful title of at most
   * 250 characters.
   */
  predicate WellFormed(r: ScrapeResult) {
    && (r.success <==> TitleTruthy(r.title) && Truthy(r.price))
    && (r.error.Some? <==> !r.success)
    && (r.success ==> |r.title.value| <= TitleLimit)
  }

  /** A failure carrying neither title nor price. */
  function Failed(error: string): (r: ScrapeResult)
    ensures WellFormed(r) && !r.success && r.title.None? && r.price.None?
  {
    ScrapeResult(None, None, false, Some(error))
  }

  /** How an f-string renders a boolean. */
  function PyBool(b: bool): string {
    if b then "True" else "False"
  }

  /** The retailer parsers' failure message `'<site>: title=…, price=…. Check <file>'`. */
  function Report(site: string, title: Option<string>, price: Option<real>, debugFile: string): (r: string)
    ensures site <= r
    ensures |debugFile| <= |r| && r[|r| - |debugFile|..] == debugFile
  {
    site + ": title=" + PyBool(TitleTruthy(title)) + ", price=" + PyBool(Truthy(price)) + ". Check " + debugFile
  }

  /**
   * The closing `if title and price:` of every retailer parser: on success
   * the title cut to 250 characters and no error, otherwise the title and
   * price as found and the given message.
   */
  function Conclude(title: Option<string>, price: Option<real>, failure: string): (r: ScrapeResult)
    ensures WellFormed(r)
    ensures r.success <==> TitleTruthy(title) && Truthy(price)
    ensures r.price == price
    ensures r.success ==> r.error.None? && r.title.value <= title.value
                          && |r.title.value| == (if |title.value| < TitleLimit then |title.value| else TitleLimit)
    ensures !r.success ==> r.title == title && r.error == Some(failure)
  {
    if TitleTruthy(title) && Truthy(price) then
      ScrapeResult(Some(Take(title.value, TitleLimit)), price, true, None)
    else
      ScrapeResult(title, price, false, Some(failure))
  }

  /** The closing of the generic parsers, which drop title and price on failure. */
  function ConcludeGeneric(title: Option<string>, price: Option<real>): (r: ScrapeResult)
    ensures WellFormed(r)
    ensures r.success <==> TitleTruthy(title) && Truthy(price)
    ensures r.success ==> r == Conclude(title, price, "Generic scraper failed")
    ensures !r.success ==> r == Failed("Generic scraper failed")
  {
    if TitleTruthy(title) && Truthy(price) then Conclude(title, price, "Generic scraper failed")
    else Failed("Generic scraper failed")
  }
}
