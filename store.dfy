/**
 * The product store of app.py: the handlers `add_product`,
 * `rescrape_product`, `delete_product` and `get_price_history`, and the
 * background job `auto_rescrape_all`, over an in-memory table of products
 * and their price-history rows. Scraping goes through `scrape_product`;
 * the clock reading is an argument.
 */
module Tracker {
  import opened Wrappers
  import opened Text
  import opened Results
  import opened PriceHistory
  import Scraper

  /** A stored product row. */
  datatype Product = Product(url: string, title: string, price: real, createdAt: int)

  /** The JSON body of an add request: absent, or an object whose `url` key may be missing. */
  datatype Body = NoBody | Json(url: Option<string>)

  /** A handler's answer: its HTTP status and the parts of the JSON the model keeps. */
  datatype Reply =
    | Rejected(error: Option<string>)            // 400
    | Saved(status: int, id: nat, historyCount: nat)
    | Rescraped(newPrice: real)                  // 200
    | Deleted(message: string)                   // 200
    | NotFound                                   // 404

  /** A successful scrape's price, with the title kept when `keepTitle` is false. */
  function Refreshed(p: Product, r: ScrapeResult, keepTitle: bool): (q: Product)
    requires r.success && WellFormed(r)
    ensures q.url == p.url && q.createdAt == p.createdAt && q.price == r.price.value
    ensures q.title == if keepTitle then p.title else r.title.value
  {
    if keepTitle then p.(price := r.price.value) else p.(price := r.price.value, title := r.title.value)
  }

  /** A product after one background scrape: the new price on success, unchanged otherwise. */
  function Rerun(p: Product, r: ScrapeResult): (q: Product)
    requires WellFormed(r)
    ensures q.url == p.url && q.title == p.title && q.createdAt == p.createdAt
    ensures q.price == if r.success then r.price.value else p.price
  {
    if r.success then Refreshed(p, r, true) else p
  }

  /** A history after one background scrape: one more row on success, unchanged otherwise. */
  function RerunHistory(h: seq<Observation>, r: ScrapeResult, now: int): (g: seq<Observation>)
    requires WellFormed(r)
    ensures |g| == |h| + (if r.success then 1 else 0)
  {
    if r.success then h + [Observation(r.price.value, now)] else h
  }

  /** A background scrape never drops or alters a history row: it appends at most one, priced as scraped and stamped `now`. */
  lemma RerunKeepsRows(h: seq<Observation>, r: ScrapeResult, now: int)
    requires WellFormed(r)
    ensures var g := RerunHistory(h, r, now);
      && |g| == |h| + (if r.success then 1 else 0) && g[..|h|] == h
      && (r.success ==> g[|h|] == Observation(r.price.value, now))
  {
  }

  class Store {
    var products: map<nat, Product>
    var history: map<nat, seq<Observation>>
    var nextId: nat

    /** Every product has a history, ids come from the counter, and no two products share a URL. */
    predicate Valid()
      reads this
    {
      && products.Keys == history.Keys
      && (forall id :: id in products ==> id < nextId)
      && (forall a, b :: a in products && b in products && products[a].url == products[b].url ==> a == b)
    }

    constructor ()
      ensures Valid() && products == map[] && history == map[] && nextId == 1
    {
      products := map[];
      history := map[];
      nextId := 1;
    }

    /** `Product.query.filter_by(url=url).first()`. */
    method FindByUrl(url: string) returns (found: Option<nat>)
      requires Valid()
      ensures found.Some? ==> found.value in products && products[found.value].url == url
      ensures found.None? ==> forall id :: id in products ==> products[id].url != url
    {
      var ids := products.Keys;
      while ids != {}
        invariant ids <= products.Keys
        invariant forall id :: id in products && id !in ids ==> products[id].url != url
        decreases ids
      {
        var id :| id in ids;
        if products[id].url == url {
          return Some(id);
        }
        ids := ids - {id};
      }
      return None;
    }

    method AddProduct(body: Body, w: Scraper.World, now: int) returns (reply: Reply)
      requires Valid()
      modifies this
      ensures Valid()
      ensures (body.NoBody? || body.url.None?) ==>
                reply == Rejected(Some("URL is required in JSON body")) && unchanged(this)
      ensures body.Json? && body.url.Some? && Strip(body.url.value) == "" ==>
                reply == Rejected(Some("URL cannot be empty")) && unchanged(this)
      ensures body.Json? && body.url.Some? && Strip(body.url.value) != "" ==>
                var url := Strip(body.url.value);
                var r := Scraper.ProductResult(url, w);
                && (!r.success ==> reply == Rejected(r.error) && unchanged(this))
                && (r.success && (exists id :: id in old(products) && old(products)[id].url == url) ==>
                      exists id :: id in old(products) && old(products)[id].url == url
                        && reply == Saved(200, id, |old(history)[id]| + 1)
                        && products == old(products)[id := Refreshed(old(products)[id], r, false)]
                        && history == old(history)[id := old(history)[id] + [Observation(r.price.value, now)]]
                        && nextId == old(nextId))
                && (r.success && (forall id :: id in old(products) ==> old(products)[id].url != url) ==>
                      && reply == Saved(201, old(nextId), 1)
                      && products == old(products)[old(nextId) := Product(url, r.title.value, r.price.value, now)]
                      && history == old(history)[old(nextId) := [Observation(r.price.value, now)]]
                      && nextId == old(nextId) + 1)
    {
      if body.NoBody? || body.url.None? {
        return Rejected(Some("URL is required in JSON body"));
      }
      var url := Strip(body.url.value);
      if url == "" {
        return Rejected(Some("URL cannot be empty"));
      }
      var result := Scraper.ScrapeProduct(url, w);
      if !result.success {
        return Rejected(result.error);
      }
      var existing := FindByUrl(url);
      if existing.Some? {
        reply := Update(existing.value, result, now);
      } else {
        reply := Create(url, result, now);
      }
    }

    /** The upsert's update branch: new title and price, one more history row. */
    method Update(id: nat, r: ScrapeResult, now: int) returns (reply: Reply)
      requires Valid() && id in products
      requires r.success && WellFormed(r)
      modifies this
      ensures Valid()
      ensures reply == Saved(200, id, |old(history)[id]| + 1)
      ensures products == old(products)[id := Refreshed(old(products)[id], r, false)]
      ensures history == old(history)[id := old(history)[id] + [Observation(r.price.value, now)]]
      ensures nextId == old(nextId)
    {
      products := products[id := Refreshed(products[id], r, false)];
      history := history[id := history[id] + [Observation(r.price.value, now)]];
      reply := Saved(200, id, |history[id]|);
    }

    /** The upsert's create branch: a new product under the next id, with one history row. */
    method Create(url: string, r: ScrapeResult, now: int) returns (reply: Reply)
      requires Valid() && forall id :: id in products ==> products[id].url != url
      requires r.success && WellFormed(r)
      modifies this
      ensures Valid()
      ensures reply == Saved(201, old(nextId), 1)
      ensures products == old(products)[old(nextId) := Product(url, r.title.value, r.price.value, now)]
      ensures history == old(history)[old(nextId) := [Observation(r.price.value, now)]]
      ensures nextId == old(nextId) + 1
    {
      var id := nextId;
      products := products[id := Product(url, r.title.value, r.price.value, now)];
      history := history[id := [Observation(r.price.value, now)]];
      nextId := nextId + 1;
      reply := Saved(201, id, 1);
    }

    method RescrapeProduct(id: nat, w: Scraper.World, now: int) returns (reply: Reply)
      requires Valid()
      modifies this
      ensures Valid()
      ensures id !in old(products) ==> reply == NotFound && unchanged(this)
      ensures id in old(products) ==>
                var r := Scraper.ProductResult(old(products)[id].url, w);
                && (r.success ==>
                      && reply == Rescraped(r.price.value)
                      && products == old(products)[id := Refreshed(old(products)[id], r, false)]
                      && history == old(history)[id := old(history)[id] + [Observation(r.price.value, now)]]
                      && nextId == old(nextId))
                && (!r.success ==> reply == Rejected(r.error) && unchanged(this))
    {
      if id !in products {
        return NotFound;
      }
      var result := Scraper.ScrapeProduct(products[id].url, w);
      if !result.success {
        return Rejected(result.error);
      }
      products := products[id := Refreshed(products[id], result, false)];
      history := history[id := history[id] + [Observation(result.price.value, now)]];
      reply := Rescraped(result.price.value);
    }

    method DeleteProduct(id: nat) returns (reply: Reply)
      requires Valid()
      modifies this
      ensures Valid()
      ensures id !in old(products) ==> reply == NotFound && unchanged(this)
      ensures id in old(products) ==>
                && reply == Deleted("Deleted " + old(products)[id].title)
                && products == old(products) - {id}
                && history == old(history) - {id}
                && nextId == old(nextId)
    {
      if id !in products {
        return NotFound;
      }
      var title := products[id].title;
      history := history - {id};
      products := products - {id};
      reply := Deleted("Deleted " + title);
    }

    /**
     * The background job: every product is scraped once, in some order; a
     * success replaces its price (not its title) and adds one history row,
     * a failure leaves it as it was.
     */
    method AutoRescrapeAll(worlds: nat -> Scraper.World, now: int)
      requires Valid()
      modifies this
      ensures Valid()
      ensures products.Keys == old(products).Keys && nextId == old(nextId)
      ensures forall id :: id in products ==>
                var r := Scraper.ProductResult(old(products)[id].url, worlds(id));
                products[id] == Rerun(old(products)[id], r) && history[id] == RerunHistory(old(history)[id], r, now)
    {
      var todo := products.Keys;
      ghost var done: set<nat> := {};
      while todo != {}
        invariant Valid()
        invariant todo !! done && todo + done == old(products).Keys
        invariant products.Keys == old(products).Keys && nextId == old(nextId)
        invariant forall id :: id in todo ==> products[id] == old(products)[id] && history[id] == old(history)[id]
        invariant forall id :: id in done ==>
                    var r := Scraper.ProductResult(old(products)[id].url, worlds(id));
                    products[id] == Rerun(old(products)[id], r) && history[id] == RerunHistory(old(history)[id], r, now)
        decreases todo
      {
        var id :| id in todo;
        var result := Scraper.ScrapeProduct(products[id].url, worlds(id));
        RecordRerun(id, result, now);
        todo := todo - {id};
        done := done + {id};
      }
    }

    /** One product of the background job: on success its new price and one more history row. */
    method RecordRerun(id: nat, r: ScrapeResult, now: int)
      requires Valid() && id in products && WellFormed(r)
      modifies this
      ensures Valid()
      ensures products == old(products)[id := Rerun(old(products)[id], r)]
      ensures history == old(history)[id := RerunHistory(old(history)[id], r, now)]
      ensures nextId == old(nextId)
    {
      if r.success {
        products := products[id := Refreshed(products[id], r, true)];
        history := history[id := history[id] + [Observation(r.price.value, now)]];
      }
    }

    /** `get_price_history`: the product's rows newest first, or 404. */
    function HistoryOf(id: nat): (r: Option<seq<Observation>>)
      requires Valid()
      reads this
      ensures r.None? <==> id !in products
      ensures r.Some? ==> NewestFirst(r.value) && multiset(r.value) == multiset(history[id])
    {
      if id in products then
        SortIsNewestFirst(history[id]);
        Some(SortNewestFirst(history[id]))
      else None
    }
  }
}
