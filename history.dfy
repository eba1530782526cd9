/**
 * `Product.get_price_trend` and `Product.get_price_change_percent` of
 * models.py: both order a copy of the price history newest first with a
 * stable sort, and compare the two most recent prices.
 */
module PriceHistory {
  import opened Decimal

  /** One price-history row: the price and the time it was scraped. */
  datatype Observation = Observation(price: real, scrapedAt: int)

  /** Newest first: timestamps never increase along the sequence. */
  predicate NewestFirst(s: seq<Observation>) {
    forall i, j :: 0 <= i < j < |s| ==> s[i].scrapedAt >= s[j].scrapedAt
  }

  /** Every row of `s` was scraped no later than `t`. */
  predicate NoneAfter(s: seq<Observation>, t: int) {
    forall k :: 0 <= k < |s| ==> s[k].scrapedAt <= t
  }

  /** Place `x` before the first row that is not newer than it. */
  function Insert(x: Observation, s: seq<Observation>): (r: seq<Observation>)
    ensures multiset(r) == multiset(s) + multiset{x}
    ensures |r| == |s| + 1
  {
    if s == [] || s[0].scrapedAt <= x.scrapedAt then [x] + s
    else
      assert s == [s[0]] + s[1..];
      [s[0]] + Insert(x, s[1..])
  }

  lemma {:induction false} InsertNoneAfter(x: Observation, s: seq<Observation>, t: int)
    requires NoneAfter(s, t) && x.scrapedAt <= t
    ensures NoneAfter(Insert(x, s), t)
  {
    if !(s == [] || s[0].scrapedAt <= x.scrapedAt) {
      InsertNoneAfter(x, s[1..], t);
    }
  }

  lemma {:induction false} InsertNewestFirst(x: Observation, s: seq<Observation>)
    requires NewestFirst(s)
    ensures NewestFirst(Insert(x, s))
  {
    if s == [] || s[0].scrapedAt <= x.scrapedAt {
      var r := [x] + s;
      forall i, j | 0 <= i < j < |r| ensures r[i].scrapedAt >= r[j].scrapedAt {
        if i == 0 {
          assert r[j] == s[j - 1];
        } else {
          assert r[i] == s[i - 1] && r[j] == s[j - 1];
        }
      }
    } else {
      var rest := Insert(x, s[1..]);
      InsertNewestFirst(x, s[1..]);
      InsertNoneAfter(x, s[1..], s[0].scrapedAt);
      var r := [s[0]] + rest;
      forall i, j | 0 <= i < j < |r| ensures r[i].scrapedAt >= r[j].scrapedAt {
        assert r[j] == rest[j - 1];
        if i > 0 {
          assert r[i] == rest[i - 1];
        }
      }
    }
  }

  /** `sorted(history, key=lambda h: h.scraped_at, reverse=True)`. */
  function SortNewestFirst(h: seq<Observation>): (r: seq<Observation>)
    ensures multiset(r) == multiset(h)
    ensures |r| == |h|
  {
    if h == [] then []
    else
      assert h == [h[0]] + h[1..];
      Insert(h[0], SortNewestFirst(h[1..]))
  }

  /** The sorted copy is ordered newest first. */
  lemma {:induction false} SortIsNewestFirst(h: seq<Observation>)
    ensures NewestFirst(SortNewestFirst(h))
  {
    if h != [] {
      SortIsNewestFirst(h[1..]);
      InsertNewestFirst(h[0], SortNewestFirst(h[1..]));
    }
  }

  /** The rows of `s` scraped at time `t`, in order. */
  function At(s: seq<Observation>, t: int): (r: seq<Observation>)
    ensures |r| <= |s|
    ensures forall x :: x in r ==> x in s && x.scrapedAt == t
    ensures forall x :: x in s && x.scrapedAt == t ==> x in r
  {
    if s == [] then []
    else
      var rest := At(s[1..], t);
      assert forall x :: x in s ==> x == s[0] || x in s[1..];
      assert forall x :: x in s[1..] ==> x in s;
      (if s[0].scrapedAt == t then [s[0]] else []) + rest
  }

  /** Selecting one timestamp's rows keeps their order: the rows of a joined history are the rows of each part in turn. */
  lemma {:induction false} AtAppend(a: seq<Observation>, b: seq<Observation>, t: int)
    ensures At(a + b, t) == At(a, t) + At(b, t)
  {
    if a != [] {
      assert (a + b)[0] == a[0] && (a + b)[1..] == a[1..] + b;
      AtAppend(a[1..], b, t);
    } else {
      assert a + b == b;
    }
  }

  lemma AtSingle(y: Observation, t: int)
    ensures At([y], t) == if y.scrapedAt == t then [y] else []
  {
    assert [y][1..] == [];
  }

  /** Inserting a row adds it to the rows of its timestamp, ahead of the rows already there. */
  lemma {:induction false} InsertAt(x: Observation, s: seq<Observation>, t: int)
    ensures At(Insert(x, s), t) == if x.scrapedAt == t then [x] + At(s, t) else At(s, t)
  {
    AtSingle(x, t);
    if s == [] || s[0].scrapedAt <= x.scrapedAt {
      AtAppend([x], s, t);
    } else {
      var rest := Insert(x, s[1..]);
      InsertAt(x, s[1..], t);
      AtSingle(s[0], t);
      AtAppend([s[0]], rest, t);
      AtAppend([s[0]], s[1..], t);
      assert s == [s[0]] + s[1..];
    }
  }

  /**
   * The sort is stable even in reverse: rows with the same timestamp keep
   * their original relative order.
   */
  lemma {:induction false} SortIsStable(h: seq<Observation>, t: int)
    ensures At(SortNewestFirst(h), t) == At(h, t)
  {
    if h != [] {
      SortIsStable(h[1..], t);
      InsertAt(h[0], SortNewestFirst(h[1..]), t);
    }
  }

  datatype Trend = Up | Down | Same

  /** The comparison of the two most recent prices. */
  function TrendOf(latest: real, previous: real): (r: Trend)
    ensures r == Down <==> latest < previous
    ensures r == Up <==> latest > previous
    ensures r == Same <==> latest == previous
  {
    if latest < previous then Down else if latest > previous then Up else Same
  }

  /** The relative change from `previous` to `latest`, in percent rounded to one decimal; 0 for a zero base. */
  function PercentOf(latest: real, previous: real): (r: real)
    ensures previous == 0.0 ==> r == 0.0
    ensures (r * 10.0).Floor as real == r * 10.0
  {
    if previous == 0.0 then 0.0 else RoundTenths((latest - previous) / previous * 100.0)
  }

  /** `get_price_trend`. */
  function PriceTrend(h: seq<Observation>): (r: Trend)
    ensures |h| < 2 ==> r == Same
  {
    if |h| < 2 then Same
    else
      var s := SortNewestFirst(h);
      TrendOf(s[0].price, s[1].price)
  }

  /** `get_price_change_percent`. */
  function ChangePercent(h: seq<Observation>): (r: real)
    ensures |h| < 2 ==> r == 0.0
    ensures (r * 10.0).Floor as real == r * 10.0
  {
    if |h| < 2 then 0.0
    else
      var s := SortNewestFirst(h);
      PercentOf(s[0].price, s[1].price)
  }

  /**
   * With two rows or more, the trend is read off the newest row and the
   * newest of the others: down exactly when the price fell, up exactly
   * when it rose, same exactly when it held.
   */
  lemma TrendMeaning(h: seq<Observation>)
    requires |h| >= 2
    ensures var s := SortNewestFirst(h);
      && (PriceTrend(h) == Down <==> s[0].price < s[1].price)
      && (PriceTrend(h) == Up <==> s[0].price > s[1].price)
      && (PriceTrend(h) == Same <==> s[0].price == s[1].price)
  {
  }

  /**
   * With two rows or more, where `latest` and `previous` are the prices of
   * the newest row and the newest of the others, the change is 0 over a
   * zero previous price and otherwise lies within 0.05 of the exact
   * percentage change; it is always a whole number of tenths.
   */
  lemma PercentMeaning(h: seq<Observation>, latest: real, previous: real)
    requires |h| >= 2
    requires latest == SortNewestFirst(h)[0].price && previous == SortNewestFirst(h)[1].price
    ensures previous == 0.0 ==> ChangePercent(h) == 0.0
    ensures previous != 0.0 ==> -0.05 <= ChangePercent(h) - (latest - previous) / previous * 100.0 <= 0.05
    ensures (ChangePercent(h) * 10.0).Floor as real == ChangePercent(h) * 10.0
  {
    assert ChangePercent(h) == PercentOf(latest, previous);
    PercentOfNear(latest, previous);
  }

  /** `round(((latest - previous) / previous) * 100, 1)` is a whole number of tenths within 0.05 of the exact change; a zero base gives 0. */
  lemma PercentOfNear(latest: real, previous: real)
    ensures previous == 0.0 ==> PercentOf(latest, previous) == 0.0
    ensures previous != 0.0 ==> -0.05 <= PercentOf(latest, previous) - (latest - previous) / previous * 100.0 <= 0.05
    ensures (PercentOf(latest, previous) * 10.0).Floor as real == PercentOf(latest, previous) * 10.0
  {
    if previous != 0.0 {
      var x := (latest - previous) / previous * 100.0;
      assert PercentOf(latest, previous) == RoundTenths(x);
    }
  }

  /** With fewer than two rows there is no trend and no change. */
  lemma ShortHistory(h: seq<Observation>)
    requires |h| < 2
    ensures PriceTrend(h) == Same && ChangePercent(h) == 0.0
  {
  }

  /**
   * The two rows compared are rows of the history, the first carries the
   * greatest timestamp, and the second is at least as recent as every
   * remaining row.
   */
  lemma {:induction false} ComparedRows(h: seq<Observation>)
    requires |h| >= 2
    ensures var s := SortNewestFirst(h);
      && |s| == |h|
      && s[0] in h && s[1] in h
      && (forall k :: 0 <= k < |h| ==> h[k].scrapedAt <= s[0].scrapedAt)
      && (forall y :: y in multiset(h) - multiset{s[0]} ==> y.scrapedAt <= s[1].scrapedAt)
  {
    var s := SortNewestFirst(h);
    SortIsNewestFirst(h);
    assert s[0] in multiset(s) && s[1] in multiset(s);
    forall k | 0 <= k < |h| ensures h[k].scrapedAt <= s[0].scrapedAt {
      assert h[k] in multiset(s);
      var j :| 0 <= j < |s| && s[j] == h[k];
    }
    assert s == [s[0]] + s[1..];
    assert multiset(s) - multiset{s[0]} == multiset(s[1..]);
    forall y | y in multiset(h) - multiset{s[0]} ensures y.scrapedAt <= s[1].scrapedAt {
      assert y in s[1..];
      var j :| 0 <= j < |s[1..]| && s[1..][j] == y;
      assert s[j + 1] == y;
    }
  }

  /** For a positive base price, the change is non-negative when the price rose, non-positive when it fell, and zero when it held. */
  lemma PercentAgreesWithTrend(latest: real, previous: real)
    requires previous > 0.0
    ensures TrendOf(latest, previous) == Up ==> PercentOf(latest, previous) >= 0.0
    ensures TrendOf(latest, previous) == Down ==> PercentOf(latest, previous) <= 0.0
    ensures TrendOf(latest, previous) == Same ==> PercentOf(latest, previous) == 0.0
  {
    QuotientSign(latest - previous, previous);
    RoundTenthsSign((latest - previous) / previous * 100.0);
  }

  /** The trend and the change of a history agree in sign whenever the previous price is positive. */
  lemma TrendAgreesWithChange(h: seq<Observation>)
    requires |h| >= 2
    requires SortNewestFirst(h)[1].price > 0.0
    ensures PriceTrend(h) == Up ==> ChangePercent(h) >= 0.0
    ensures PriceTrend(h) == Down ==> ChangePercent(h) <= 0.0
    ensures PriceTrend(h) == Same ==> ChangePercent(h) == 0.0
  {
    var s := SortNewestFirst(h);
    PercentAgreesWithTrend(s[0].price, s[1].price);
  }

  lemma QuotientSign(d: real, p: real)
    requires p > 0.0
    ensures d > 0.0 ==> d / p * 100.0 > 0.0
    ensures d < 0.0 ==> d / p * 100.0 < 0.0
    ensures d == 0.0 ==> d / p * 100.0 == 0.0
  {
    assert d / p * p == d;
  }
}
