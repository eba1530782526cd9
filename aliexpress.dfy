/**
 * `scrape_aliexpress` of utils/selenium_scraper.py: a title chain that
 * always ends in a non-empty title, and a price chain over the in-browser
 * script value, the page's runParams scripts, the URL and the
 * `data-spm-anchor-id` spans.
 */
module AliExpress {
  import opened Wrappers
  import opened Text
  import opened Prices
  import opened Results
  import opened Documents

  // ------------------------------------------------------------------ Title

  /** A heading counts as the title when its stripped text is longer than this. */
  const MinHeadingLength: nat := 10

  /** `f` applied to every element, in order. */
  function Each(f: string -> string, xs: seq<string>): (r: seq<string>)
    ensures |r| == |xs|
    ensures forall k :: 0 <= k < |xs| ==> r[k] == f(xs[k])
  {
    if xs == [] then []
    else
      var rest := Each(f, xs[1..]);
      assert forall k :: 1 <= k < |xs| ==> xs[k] == xs[1..][k - 1];
      [f(xs[0])] + rest
  }

  /** Mapping commutes with joining lists. */
  lemma {:induction false} EachAppend(f: string -> string, a: seq<string>, b: seq<string>)
    ensures Each(f, a + b) == Each(f, a) + Each(f, b)
  {
    if a == [] {
      assert a + b == b;
    } else {
      assert (a + b)[0] == a[0] && (a + b)[1..] == a[1..] + b;
      EachAppend(f, a[1..], b);
    }
  }

  /** The stripped text of every element, in page order. */
  function StrippedAll(h1s: seq<string>): (r: seq<string>)
    ensures |r| == |h1s|
    ensures forall k :: 0 <= k < |h1s| ==> r[k] == Strip(h1s[k])
  {
    Each(Strip, h1s)
  }

  /** The first text longer than 10 characters. */
  function FirstLong(texts: seq<string>): (r: Option<string>)
    ensures r.Some? ==> |r.value| > MinHeadingLength && r.value in texts
    ensures r.None? <==> forall k :: 0 <= k < |texts| ==> |texts[k]| <= MinHeadingLength
  {
    if texts == [] then None
    else if |texts[0]| > MinHeadingLength then Some(texts[0])
    else
      var r := FirstLong(texts[1..]);
      assert forall k :: 1 <= k < |texts| ==> texts[k] == texts[1..][k - 1];
      r
  }

  /** The text found is the first long one: every text before it has at most 10 characters. */
  lemma {:induction false} FirstLongIsFirst(texts: seq<string>) returns (k: nat)
    requires FirstLong(texts).Some?
    ensures k < |texts| && texts[k] == FirstLong(texts).value
    ensures forall j :: 0 <= j < k ==> |texts[j]| <= MinHeadingLength
  {
    if |texts[0]| > MinHeadingLength {
      k := 0;
    } else {
      var k' := FirstLongIsFirst(texts[1..]);
      k := k' + 1;
      assert texts[k] == texts[1..][k'];
      forall j | 1 <= j < k ensures |texts[j]| <= MinHeadingLength {
        assert texts[j] == texts[1..][j - 1];
      }
    }
  }

  /** The first h1 whose stripped text is longer than 10 characters. */
  function LongHeading(h1s: seq<string>): (r: Option<string>)
    ensures r.Some? ==> |r.value| > MinHeadingLength
    ensures r.None? <==> forall k :: 0 <= k < |h1s| ==> |Strip(h1s[k])| <= MinHeadingLength
  {
    var texts := StrippedAll(h1s);
    assert forall k :: 0 <= k < |h1s| ==> |texts[k]| == |Strip(h1s[k])|;
    FirstLong(texts)
  }

  /**
   * The heading is the stripped text of the first long h1: every h1
   * before it strips to at most 10 characters.
   */
  lemma LongHeadingIsFirst(h1s: seq<string>) returns (k: nat)
    requires LongHeading(h1s).Some?
    ensures k < |h1s| && Strip(h1s[k]) == LongHeading(h1s).value
    ensures forall j :: 0 <= j < k ==> |Strip(h1s[j])| <= MinHeadingLength
  {
    var texts := StrippedAll(h1s);
    k := FirstLongIsFirst(texts);
    assert forall j :: 0 <= j < k ==> texts[j] == Strip(h1s[j]);
  }

  /** The `/`-segment of the URL used by the synthetic title: the last segment, cut at its first `.` and then its first `?`. */
  function UrlSlug(url: string): (r: string)
    ensures '/' !in r && '.' !in r && '?' !in r
  {
    var seg := AfterLast(url, '/');
    var a := BeforeFirst(seg, '.');
    var b := BeforeFirst(a, '?');
    assert '/' !in b && '.' !in b by {
      forall k | 0 <= k < |b| ensures b[k] != '/' && b[k] != '.' {
        assert b[k] == a[k] && a[k] == seg[k];
        assert a[k] in a;
        assert seg[k] in seg;
      }
    }
    b
  }

  /** `f"AliExpress Product {…}"`. */
  function SyntheticTitle(url: string): (r: string)
    ensures |r| >= |"AliExpress Product "| && r[..19] == "AliExpress Product " && r[19..] == UrlSlug(url)
  {
    "AliExpress Product " + UrlSlug(url)
  }

  /** `driver.title.replace(' - AliExpress', '').strip()`. */
  function BrandlessTitle(driverTitle: string): (r: string)
    ensures !Contains(driverTitle, " - AliExpress") ==> r == Strip(driverTitle)
  {
    Strip(RemoveAll(driverTitle, " - AliExpress"))
  }

  /** The title chain: long heading, og:title, brandless driver title, synthetic title; it always ends non-empty. */
  function Title(p: Page, live: Live, url: string): (r: string)
    ensures r != ""
    ensures LongHeading(p.h1s).Some? ==> r == LongHeading(p.h1s).value
    ensures LongHeading(p.h1s).None? && p.ogTitle.Some? && Strip(p.ogTitle.value) != "" ==> r == Strip(p.ogTitle.value)
  {
    var h := LongHeading(p.h1s);
    if h.Some? then h.value
    else
      var og := if p.ogTitle.Some? then Strip(p.ogTitle.value) else "";
      if og != "" then og
      else if BrandlessTitle(live.title) != "" then BrandlessTitle(live.title)
      else
        assert |SyntheticTitle(url)| >= 19;
        SyntheticTitle(url)
  }

  method FindLongHeading(h1s: seq<string>) returns (title: Option<string>)
    ensures title == LongHeading(h1s)
  {
    title := None;
    ghost var texts := StrippedAll(h1s);
    for i := 0 to |h1s|
      invariant FirstLong(texts[i..]) == LongHeading(h1s)
      invariant title == None
    {
      assert texts[i..][0] == texts[i] && texts[i..][1..] == texts[i + 1..];
      var text := Strip(h1s[i]);
      if |text| > MinHeadingLength {
        title := Some(text);
        break;
      }
    }
  }

  method FindTitle(p: Page, live: Live, url: string) returns (title: Option<string>)
    ensures title == Some(Title(p, live, url))
  {
    title := FindLongHeading(p.h1s);
    if !TitleTruthy(title) && p.ogTitle.Some? {
      title := Some(Strip(p.ogTitle.value));
    }
    if !TitleTruthy(title) {
      title := Some(BrandlessTitle(live.title));
    }
    if !TitleTruthy(title) {
      title := Some(SyntheticTitle(url));
    }
  }

  // -------------------------------------------------------------- JS value

  /** `if js_price: price = float(js_price)`; a failing `float` leaves no price. */
  function JsValue(js: JsPrice): (r: Option<real>)
    ensures r.Some? <==> js.JsValue? && js.n.NumOk?
    ensures r.Some? ==> r.value == js.n.v
  {
    if js.JsValue? && js.n.NumOk? then Some(js.n.v) else None
  }

  // ------------------------------------------------------------ runParams

  const Marker: string := "window.runParams"

  /**
   * `script_text[json_start:json_end]` with `start = find('window.runParams')`,
   * `json_start = find('{', start)` and `json_end = rfind('}', json_start) + 1`,
   * or None when the marker is missing (`start > -1` fails). Python's
   * negative indices are followed: with no `{` after the marker,
   * `rfind('}', -1)` looks only at the last character.
   */
  function RunParamsSlice(text: string): (r: Option<string>)
    ensures r.None? <==> Find(text, Marker, 0) == -1
  {
    var start := Find(text, Marker, 0);
    if start == -1 then None
    else
      var jsonStart := Find(text, "{", start);
      if jsonStart == -1 then
        Some(if |text| > 0 && text[|text| - 1] == '}' then "}" else "")
      else
        var close := RFindChar(text, '}', jsonStart);
        if close == -1 then Some("") else Some(text[jsonStart..close + 1])
  }

  /** `s.find(c, from)` for one character: the first index at or after `from` holding `c`. */
  lemma FindCharMeaning(s: string, c: char, from: nat)
    requires Find(s, [c], from) != -1
    ensures var i := Find(s, [c], from);
      from <= i < |s| && s[i] == c && forall k :: from <= k < i ==> s[k] != c
  {
    var i := Find(s, [c], from);
    assert OccursAt(s, [c], i);
    assert s[i..i + 1] == [c];
    forall k | from <= k < i ensures s[k] != c {
      assert !OccursAt(s, [c], k);
      assert s[k..k + 1] == [s[k]];
    }
  }

  /**
   * When the marker, a `{` after it and a `}` after that all occur, the
   * slice runs from the first `{` after the marker through the last `}` of
   * the script.
   */
  lemma RunParamsSliceBraces(text: string, start: int, i: int, j: int)
    requires start == Find(text, Marker, 0) && start != -1
    requires i == Find(text, "{", start) && i != -1
    requires j == RFindChar(text, '}', i) && j != -1
    ensures start <= i <= j < |text|
    ensures RunParamsSlice(text) == Some(text[i..j + 1])
    ensures text[i] == '{' && text[j] == '}'
    ensures forall k :: start <= k < i ==> text[k] != '{'
    ensures forall k :: j < k < |text| ==> text[k] != '}'
  {
    FindCharMeaning(text, '{', start);
  }

  /** The price module's amount the code reads: minActivityAmount, else minAmount, else maxActivityAmount. */
  function ChosenAmount(minActivity: Option<Num>, minAmount: Option<Num>, maxActivity: Option<Num>): (r: Option<Num>)
    ensures minActivity.Some? ==> r == minActivity
    ensures minActivity.None? && minAmount.Some? ==> r == minAmount
    ensures minActivity.None? && minAmount.None? ==> r == maxActivity
  {
    minActivity.OrElse(minAmount.OrElse(maxActivity))
  }

  /**
   * The price one script assigns, if any: the script must be a non-empty
   * text holding `runParams`, its slice must decode to an object with a
   * `data` key, and the chosen amount must convert with `float`.
   */
  function ScriptPrice(script: Option<string>, loads: string -> RunParams): (r: Option<real>)
    ensures r.Some? ==> script.Some? && Contains(script.value, "runParams") && RunParamsSlice(script.value).Some?
  {
    if script.None? || script.value == "" || !Contains(script.value, "runParams") then None
    else
      var slice := RunParamsSlice(script.value);
      if slice.None? then None
      else match loads(slice.value)
        case PriceModule(a, b, c) =>
          var amount := ChosenAmount(a, b, c);
          if amount.Some? && amount.value.NumOk? then Some(amount.value.v) else None
        case _ => None
  }

  /** The scripts loop, continued from `price`: each assignment replaces it, and the first truthy one stops the loop. */
  function ScriptScan(scripts: seq<Option<string>>, loads: string -> RunParams, price: Option<real>): (r: Option<real>)
    ensures scripts != [] && Truthy(ScriptPrice(scripts[0], loads)) ==> r == ScriptPrice(scripts[0], loads)
    ensures (forall k :: 0 <= k < |scripts| ==> ScriptPrice(scripts[k], loads).None?) ==> r == price
  {
    if scripts == [] then price
    else
      var q := ScriptPrice(scripts[0], loads).OrElse(price);
      assert forall k :: 1 <= k < |scripts| ==> scripts[k] == scripts[1..][k - 1];
      if Truthy(q) then q else ScriptScan(scripts[1..], loads, q)
  }

  /** The values the scripts assign, in page order. */
  function Assigned(scripts: seq<Option<string>>, loads: string -> RunParams): seq<real> {
    if scripts == [] then []
    else
      var q := ScriptPrice(scripts[0], loads);
      (if q.Some? then [q.value] else []) + Assigned(scripts[1..], loads)
  }

  /** The first non-zero value of a sequence. */
  function FirstNonZero(xs: seq<real>): (r: Option<real>)
    ensures r.Some? ==> r.value != 0.0 && r.value in xs
    ensures r.None? <==> forall k :: 0 <= k < |xs| ==> xs[k] == 0.0
  {
    if xs == [] then None
    else if xs[0] != 0.0 then Some(xs[0])
    else
      var r := FirstNonZero(xs[1..]);
      assert forall k :: 1 <= k < |xs| ==> xs[k] == xs[1..][k - 1];
      r
  }

  /** The value found is the first non-zero one: every value before it is zero. */
  lemma {:induction false} FirstNonZeroIsFirst(xs: seq<real>) returns (k: nat)
    requires FirstNonZero(xs).Some?
    ensures k < |xs| && xs[k] == FirstNonZero(xs).value
    ensures forall j :: 0 <= j < k ==> xs[j] == 0.0
  {
    if xs[0] != 0.0 {
      k := 0;
    } else {
      var k' := FirstNonZeroIsFirst(xs[1..]);
      k := k' + 1;
      assert xs[k] == xs[1..][k'];
      forall j | 1 <= j < k ensures xs[j] == 0.0 {
        assert xs[j] == xs[1..][j - 1];
      }
    }
  }

  /**
   * The loop yields the first non-zero assigned value; when every assigned
   * value is zero it keeps a zero price, and when nothing is assigned it
   * keeps the price it started from.
   */
  lemma {:induction false} ScriptScanMeaning(scripts: seq<Option<string>>, loads: string -> RunParams, price: Option<real>)
    requires !Truthy(price)
    ensures var a := Assigned(scripts, loads);
      ScriptScan(scripts, loads, price) ==
        if FirstNonZero(a).Some? then FirstNonZero(a)
        else if a == [] then price
        else Some(0.0)
  {
    if scripts != [] {
      var q := ScriptPrice(scripts[0], loads);
      var rest := Assigned(scripts[1..], loads);
      if q.Some? {
        var a := [q.value] + rest;
        assert Assigned(scripts, loads) == a;
        assert a[0] == q.value && a[1..] == rest;
      } else {
        assert Assigned(scripts, loads) == [] + rest == rest;
      }
      if !Truthy(q.OrElse(price)) {
        ScriptScanMeaning(scripts[1..], loads, q.OrElse(price));
      }
    }
  }

  /** The scripts loop as the source writes it. */
  method ScanScripts(scripts: seq<Option<string>>, loads: string -> RunParams, start: Option<real>) returns (price: Option<real>)
    requires !Truthy(start)
    ensures price == ScriptScan(scripts, loads, start)
  {
    price := start;
    for i := 0 to |scripts|
      invariant !Truthy(price)
      invariant ScriptScan(scripts[i..], loads, price) == ScriptScan(scripts, loads, start)
    {
      assert scripts[i..][0] == scripts[i] && scripts[i..][1..] == scripts[i + 1..];
      ghost var before := price;
      var scriptText := scripts[i];
      if scriptText.Some? && scriptText.value != "" && Contains(scriptText.value, "runParams") {
        var jsonStr := RunParamsSlice(scriptText.value);
        if jsonStr.Some? {
          var data := loads(jsonStr.value);
          if data.PriceModule? {
            if data.minActivity.Some? {
              if data.minActivity.value.NumOk? {
                price := Some(data.minActivity.value.v);
              }
            } else if data.minAmount.Some? {
              if data.minAmount.value.NumOk? {
                price := Some(data.minAmount.value.v);
              }
            } else if data.maxActivity.Some? {
              if data.maxActivity.value.NumOk? {
                price := Some(data.maxActivity.value.v);
              }
            }
            assert price == ScriptPrice(scripts[i], loads).OrElse(before);
            if Truthy(price) {
              break;
            }
          }
        }
      }
      assert price == ScriptPrice(scripts[i], loads).OrElse(before);
    }
  }

  // ------------------------------------------------------ URL and spans

  /** AliExpress URL and span candidates must lie in [1, 10000]. */
  const CandidateLow: real := 1.0
  const CandidateHigh: real := 10000.0

  /**
   * The URL candidates: the second group of the first USD-pair match, then
   * the first `US $` match; a pattern without matches contributes nothing.
   */
  function UrlCandidates(live: Live): (r: seq<string>)
    ensures |r| <= 2
  {
    (if |live.urlPairs| > 0 then [live.urlPairs[0].1] else [])
    + (if |live.urlDollars| > 0 then [live.urlDollars[0]] else [])
  }

  /** The URL step: the first URL candidate whose price lies in [1, 10000]. */
  function UrlPrice(live: Live): (r: Option<real>)
    ensures r.Some? ==> InRange(r, CandidateLow, CandidateHigh)
  {
    FirstInRange(UrlCandidates(live), CandidateLow, CandidateHigh)
  }

  /** Only the first match of each URL pattern is tried: later matches never give the price. */
  lemma UrlPriceFirstMatches(live: Live)
    ensures UrlPrice(live).Some? ==>
              || (|live.urlPairs| > 0 && UrlPrice(live) == ExtractPrice(live.urlPairs[0].1))
              || (|live.urlDollars| > 0 && UrlPrice(live) == ExtractPrice(live.urlDollars[0]))
    ensures |live.urlPairs| > 0 && Hit(live.urlPairs[0].1, CandidateLow, CandidateHigh) ==>
              UrlPrice(live) == ExtractPrice(live.urlPairs[0].1)
  {
    FirstInRangeFromCandidate(UrlCandidates(live), CandidateLow, CandidateHigh);
    if |live.urlPairs| > 0 {
      FirstInRangeIsFirst(UrlCandidates(live), CandidateLow, CandidateHigh, 0);
    }
  }

  /** A stripped span text is a candidate when it holds `$` or `USD`. */
  predicate IsCandidate(t: string) {
    '$' in t || Contains(t, "USD")
  }

  /** The candidate texts, in order. */
  function Candidates(texts: seq<string>): (r: seq<string>)
    ensures |r| <= |texts|
    ensures forall k :: 0 <= k < |r| ==> IsCandidate(r[k])
    ensures forall k :: 0 <= k < |texts| && IsCandidate(texts[k]) ==> texts[k] in r
  {
    if texts == [] then []
    else
      var rest := Candidates(texts[1..]);
      assert forall k :: 1 <= k < |texts| ==> texts[k] == texts[1..][k - 1];
      (if IsCandidate(texts[0]) then [texts[0]] else []) + rest
  }

  /** The candidates keep page order: those of a joined list are those of each part in turn. */
  lemma {:induction false} CandidatesAppend(a: seq<string>, b: seq<string>)
    ensures Candidates(a + b) == Candidates(a) + Candidates(b)
  {
    if a == [] {
      assert a + b == b;
    } else {
      assert (a + b)[0] == a[0] && (a + b)[1..] == a[1..] + b;
      CandidatesAppend(a[1..], b);
    }
  }

  /** The stripped span texts holding `$` or `USD`, in page order. */
  function SpanCandidates(spans: seq<string>): (r: seq<string>)
    ensures |r| <= |spans|
    ensures forall k :: 0 <= k < |r| ==> IsCandidate(r[k])
    ensures forall k :: 0 <= k < |spans| && IsCandidate(Strip(spans[k])) ==> Strip(spans[k]) in r
  {
    var texts := StrippedAll(spans);
    assert forall k :: 0 <= k < |spans| ==> texts[k] == Strip(spans[k]);
    Candidates(texts)
  }

  /** Joining span lists joins their candidates, in order. */
  lemma SpanCandidatesAppend(a: seq<string>, b: seq<string>)
    ensures SpanCandidates(a + b) == SpanCandidates(a) + SpanCandidates(b)
  {
    EachAppend(Strip, a, b);
    CandidatesAppend(StrippedAll(a), StrippedAll(b));
  }

  method ScanSpans(spans: seq<string>) returns (found: Option<real>)
    ensures found == FirstInRange(SpanCandidates(spans), CandidateLow, CandidateHigh)
  {
    found := None;
    ghost var texts := StrippedAll(spans);
    for i := 0 to |spans|
      invariant FirstInRange(Candidates(texts[i..]), CandidateLow, CandidateHigh)
             == FirstInRange(SpanCandidates(spans), CandidateLow, CandidateHigh)
      invariant found == None
    {
      assert texts[i..][0] == texts[i] && texts[i..][1..] == texts[i + 1..];
      var text := Strip(spans[i]);
      var rest := Candidates(texts[i + 1..]);
      if !IsCandidate(text) {
        assert Candidates(texts[i..]) == [] + rest == rest;
      } else {
        assert Candidates(texts[i..]) == [text] + rest;
        assert ([text] + rest)[0] == text && ([text] + rest)[1..] == rest;
        var potential := ExtractPrice(text);
        if potential.Some? && potential.value != 0.0 && CandidateLow <= potential.value <= CandidateHigh {
          found := potential;
          break;
        }
      }
    }
  }

  // ------------------------------------------------------------ Price chain

  /**
   * The price chain: the script value; while the price is falsy, the
   * runParams scripts; then the URL; then the spans. A falsy price left by
   * an earlier step survives when later steps find nothing.
   */
  function Price(p: Page, live: Live): (r: Option<real>)
    ensures Truthy(JsValue(live.js)) ==> r == JsValue(live.js)
  {
    var js := JsValue(live.js);
    var fromScripts := if Truthy(js) then js else ScriptScan(p.scripts, live.loads, js);
    if Truthy(fromScripts) then fromScripts
    else if UrlPrice(live).Some? then UrlPrice(live)
    else if FirstInRange(SpanCandidates(p.spmSpans), CandidateLow, CandidateHigh).Some? then
      FirstInRange(SpanCandidates(p.spmSpans), CandidateLow, CandidateHigh)
    else fromScripts
  }

  method FindUrlPrice(live: Live) returns (found: Option<real>)
    ensures found == UrlPrice(live)
  {
    found := ScanInRange(UrlCandidates(live), CandidateLow, CandidateHigh);
  }

  method FindPrice(p: Page, live: Live) returns (price: Option<real>)
    ensures price == Price(p, live)
  {
    price := None;
    if live.js.JsValue? && live.js.n.NumOk? {
      price := Some(live.js.n.v);
    }
    if !Truthy(price) {
      price := ScanScripts(p.scripts, live.loads, price);
    }
    if !Truthy(price) {
      var found := FindUrlPrice(live);
      if found.Some? {
        price := found;
      }
    }
    if !Truthy(price) {
      var found := ScanSpans(p.spmSpans);
      if found.Some? {
        price := found;
      }
    }
  }

  const FailureText: string :=
    "AliExpress: Found title but could not extract price. The page may use advanced anti-scraping. Try a different product or use AliExpress.com (not .us)"

  /** What `scrape_aliexpress` returns: the chains' verdict, or the exception's message. */
  function Result(p: Page, live: Live, url: string): (r: ScrapeResult)
    ensures WellFormed(r)
  {
    if live.fault.Some? then Failed("AliExpress error: " + live.fault.value)
    else Conclude(Some(Title(p, live, url)), Price(p, live), FailureText)
  }

  method ScrapeAliExpress(p: Page, live: Live, url: string) returns (r: ScrapeResult)
    ensures r == Result(p, live, url)
  {
    if live.fault.Some? {
      return Failed("AliExpress error: " + live.fault.value);
    }
    var title := FindTitle(p, live, url);
    var price := FindPrice(p, live);
    r := Conclude(title, price, FailureText);
  }

  /** Since the title is never empty, an AliExpress scrape succeeds exactly when a truthy price was found. */
  lemma SuccessIffPrice(p: Page, live: Live, url: string)
    ensures live.fault.None? ==> (Result(p, live, url).success <==> Truthy(Price(p, live)))
    ensures live.fault.Some? ==> !Result(p, live, url).success
  {
  }
}
