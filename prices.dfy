/**
 * The price normaliser `extract_price` (identical in utils/scraper.py and
 * utils/selenium_scraper.py) and the candidate scans the parsers run over it.
 */
module Prices {
  import opened Wrappers
  import opened Text
  import opened Decimal

  /** Bounds `extract_price` accepts, before rounding. */
  const MinPrice: real := 0.01
  const MaxPrice: real := 999999.0

  /** Python truthiness of an optional price: present and non-zero. */
  predicate Truthy(p: Option<real>) {
    p.Some? && p.value != 0.0
  }

  /** `potential and lo <= potential <= hi`. */
  predicate InRange(p: Option<real>, lo: real, hi: real) {
    Truthy(p) && lo <= p.value <= hi
  }

  /** A multiple of 0.01, i.e. a price with at most two decimal places. */
  predicate WholeCents(x: real) {
    (x * 100.0).Floor as real == x * 100.0
  }

  // ---------------------------------------------------------------------
  // The scan for the first match of [\d,]+\.?\d*

  /** Characters of the `[\d,]` class. */
  predicate IsRunChar(c: char) {
    IsDigit(c) || c == ','
  }

  function SkipToRun(s: string, i: nat): (j: nat)
    requires i <= |s|
    ensures i <= j <= |s|
    ensures forall k :: i <= k < j ==> !IsRunChar(s[k])
    ensures j < |s| ==> IsRunChar(s[j])
    decreases |s| - i
  {
    if i == |s| || IsRunChar(s[i]) then i else SkipToRun(s, i + 1)
  }

  function RunEnd(s: string, i: nat): (j: nat)
    requires i <= |s|
    ensures i <= j <= |s|
    ensures forall k :: i <= k < j ==> IsRunChar(s[k])
    ensures j < |s| ==> !IsRunChar(s[j])
    decreases |s| - i
  {
    if i == |s| || !IsRunChar(s[i]) then i else RunEnd(s, i + 1)
  }

  function DigitsEnd(s: string, i: nat): (j: nat)
    requires i <= |s|
    ensures i <= j <= |s|
    ensures forall k :: i <= k < j ==> IsDigit(s[k])
    ensures j < |s| ==> !IsDigit(s[j])
    decreases |s| - i
  {
    if i == |s| || !IsDigit(s[i]) then i else DigitsEnd(s, i + 1)
  }

  /**
   * One match of `[\d,]+\.?\d*`: where it starts, the `[\d,]+` part, whether
   * the optional `.` was taken, and the `\d*` part.
   */
  datatype Numeral = Numeral(at: nat, run: string, dot: bool, frac: string)

  /** The matched text. */
  function Lexeme(n: Numeral): string {
    n.run + (if n.dot then "." else "") + n.frac
  }

  predicate Shaped(n: Numeral) {
    && |n.run| > 0
    && (forall k :: 0 <= k < |n.run| ==> IsRunChar(n.run[k]))
    && AllDigits(n.frac)
    && (!n.dot ==> n.frac == [])
  }

  /**
   * `re.findall(r'[\d,]+\.?\d*', s)[0]`: the leftmost match, with greedy
   * repetition; None when nothing matches. FirstNumeralMatches states what
   * the result is.
   */
  function FirstNumeral(s: string): (r: Option<Numeral>)
    ensures r.Some? ==> Shaped(r.value)
  {
    var i := SkipToRun(s, 0);
    if i == |s| then None
    else
      var j := RunEnd(s, i);
      if j < |s| && s[j] == '.' then
        var k := DigitsEnd(s, j + 1);
        Some(Numeral(i, s[i..j], true, s[j + 1..k]))
      else
        Some(Numeral(i, s[i..j], false, ""))
  }

  /**
   * The regular-expression reading of FirstNumeral: no match exactly when
   * `s` has no digit and no comma; otherwise the match starts at the first
   * digit or comma, spells Lexeme(n) there, and each part is as long as
   * greedy matching makes it.
   */
  lemma FirstNumeralMatches(s: string)
    ensures FirstNumeral(s).None? <==> forall k :: 0 <= k < |s| ==> !IsRunChar(s[k])
    ensures FirstNumeral(s).Some? ==>
      var n := FirstNumeral(s).value;
      var e := n.at + |n.run|;
      && n.at + |Lexeme(n)| <= |s| && s[n.at..n.at + |Lexeme(n)|] == Lexeme(n)
      && (forall k :: 0 <= k < n.at ==> !IsRunChar(s[k]))
      && (e == |s| || !IsRunChar(s[e]))
      && (n.dot <==> e < |s| && s[e] == '.')
      && (n.dot ==> e + 1 + |n.frac| == |s| || !IsDigit(s[e + 1 + |n.frac|]))
  {
    var i := SkipToRun(s, 0);
    if i < |s| {
      var j := RunEnd(s, i);
      if j < |s| && s[j] == '.' {
        var k := DigitsEnd(s, j + 1);
        assert Lexeme(FirstNumeral(s).value) == s[i..k];
      }
    }
  }

  /** `.replace(',', '')`. */
  function DropCommas(s: string): (r: string)
    ensures ',' !in r
    ensures (forall k :: 0 <= k < |s| ==> IsRunChar(s[k])) ==> AllDigits(r)
    ensures (forall k :: 0 <= k < |s| ==> s[k] == ',') <==> r == []
  {
    if s == [] then []
    else (if s[0] == ',' then [] else [s[0]]) + DropCommas(s[1..])
  }

  /**
   * `float(price_str)` for the comma-free match: None when it holds no digit
   * at all ("" or "."), otherwise the exact decimal it spells.
   */
  function NumeralValue(n: Numeral): (r: Option<real>)
    requires Shaped(n)
    ensures r.None? <==> DropCommas(n.run) == [] && n.frac == []
    ensures r.Some? ==> r.value >= 0.0
  {
    var whole := DropCommas(n.run);
    if whole == [] && n.frac == [] then None
    else
      var scale := Pow10(|n.frac|);
      Some((DigitsValue(whole) * scale + DigitsValue(n.frac)) as real / scale as real)
  }

  /** The number the first match of the stripped text denotes, before any range check. */
  function Denoted(text: string): Option<real> {
    match FirstNumeral(Strip(text))
    case None => None
    case Some(n) => NumeralValue(n)
  }

  /**
   * `extract_price(price_text)`: the first match's value, when it lies in
   * [0.01, 999999], rounded to cents.
   */
  function ExtractPrice(text: string): (r: Option<real>)
    ensures r.Some? ==> MinPrice <= r.value <= MaxPrice && WholeCents(r.value)
  {
    if text == "" then None
    else
      match Denoted(text)
      case None => None
      case Some(v) =>
        if MinPrice <= v <= MaxPrice then Some(RoundCents(v)) else None
  }

  /**
   * What ExtractPrice answers, in terms of the number the first match
   * denotes: a price exactly when that number exists and lies in
   * [0.01, 999999], and then that number rounded to the nearest cent.
   */
  lemma ExtractPriceDenotes(text: string)
    ensures ExtractPrice(text).Some? <==> Denoted(text).Some? && MinPrice <= Denoted(text).value <= MaxPrice
    ensures ExtractPrice(text).Some? ==> -0.005 <= ExtractPrice(text).value - Denoted(text).value <= 0.005
  {
    if text == "" {
      assert Strip(text) == "";
    }
  }

  /** `round(v, 2)`: the nearest multiple of 0.01, ties to an even count of cents. */
  function RoundCents(v: real): (r: real)
    requires MinPrice <= v <= MaxPrice
    ensures MinPrice <= r <= MaxPrice && WholeCents(r)
    ensures -0.005 <= r - v <= 0.005
  {
    var cents := RoundHalfEven(v * 100.0);
    RoundWithin(v * 100.0, 1, 99999900);
    CentsAreWhole(cents);
    cents as real / 100.0
  }

  /** Rounding to cents leaves a value that is already a whole number of cents unchanged. */
  lemma RoundCentsKeepsWholeCents(v: real)
    requires MinPrice <= v <= MaxPrice && WholeCents(v)
    ensures RoundCents(v) == v
  {
    var c := (v * 100.0).Floor;
    assert v * 100.0 - c as real == 0.0;
    assert RoundHalfEven(v * 100.0) == c;
  }

  lemma CentsAreWhole(c: int)
    ensures WholeCents(c as real / 100.0)
  {
    assert c as real / 100.0 * 100.0 == c as real;
  }

  /** `extract_price` applied to a value that may be `None`. */
  function ExtractPriceOf(text: Option<string>): Option<real> {
    match text
    case None => None
    case Some(t) => ExtractPrice(t)
  }

  /**
   * The three ways `extract_price` answers None before any range check: an
   * empty text, a text with no digit and no comma, and a first match that
   * holds commas only (as in "Price, $5", whose first match is ",").
   */
  lemma NoPriceCases(text: string)
    ensures text == "" ==> ExtractPrice(text).None?
    ensures (forall k :: 0 <= k < |text| ==> !IsRunChar(text[k])) ==> ExtractPrice(text).None?
    ensures (FirstNumeral(Strip(text)).Some?
             && (forall k :: 0 <= k < |FirstNumeral(Strip(text)).value.run| ==> FirstNumeral(Strip(text)).value.run[k] == ',')
             && !FirstNumeral(Strip(text)).value.dot) ==> ExtractPrice(text).None?
  {
    var s := Strip(text);
    FirstNumeralMatches(s);
    if forall k :: 0 <= k < |text| ==> !IsRunChar(text[k]) {
      forall k | 0 <= k < |s| ensures !IsRunChar(s[k]) { assert s[k] in s; }
    }
  }

  // ---------------------------------------------------------------------
  // Candidate scans

  /**
   * The price of the first candidate that normalises to a truthy price
   * (`for e in elems: price = extract_price(e); if price: break`).
   */
  function FirstPrice(texts: seq<string>): (r: Option<real>)
    ensures r.Some? ==> MinPrice <= r.value <= MaxPrice
  {
    if texts == [] then None
    else if ExtractPrice(texts[0]).Some? then ExtractPrice(texts[0])
    else FirstPrice(texts[1..])
  }

  /** FirstPrice picks the earliest candidate that yields a price, and None only when none does. */
  lemma {:induction false} FirstPriceIsFirst(texts: seq<string>, i: nat)
    requires i <= |texts|
    requires forall j :: 0 <= j < i ==> ExtractPrice(texts[j]).None?
    ensures i < |texts| && ExtractPrice(texts[i]).Some? ==> FirstPrice(texts) == ExtractPrice(texts[i])
    ensures i == |texts| ==> FirstPrice(texts).None?
  {
    if i > 0 {
      assert forall j :: 0 <= j < i - 1 ==> texts[1..][j] == texts[j + 1];
      FirstPriceIsFirst(texts[1..], i - 1);
    }
  }

  method ScanFirstPrice(texts: seq<string>) returns (price: Option<real>)
    ensures price == FirstPrice(texts)
  {
    price := None;
    for i := 0 to |texts|
      invariant FirstPrice(texts[i..]) == FirstPrice(texts)
      invariant price == None
    {
      assert texts[i..][0] == texts[i] && texts[i..][1..] == texts[i + 1..];
      price := ExtractPrice(texts[i]);
      if Truthy(price) {
        break;
      }
    }
  }

  /** Candidate `c` passes `potential and lo <= potential <= hi`. */
  predicate Hit(c: string, lo: real, hi: real) {
    InRange(ExtractPrice(c), lo, hi)
  }

  /**
   * The first candidate whose normalised price is truthy and lies in
   * [lo, hi] (`for m in matches: potential = extract_price(m);
   * if potential and lo <= potential <= hi: price = potential; break`).
   */
  function FirstInRange(cands: seq<string>, lo: real, hi: real): (r: Option<real>)
    ensures r.Some? ==> InRange(r, lo, hi)
  {
    if cands == [] then None
    else if Hit(cands[0], lo, hi) then ExtractPrice(cands[0])
    else FirstInRange(cands[1..], lo, hi)
  }

  /**
   * FirstInRange answers the price of the earliest candidate that passes
   * the range test, and None only when no candidate passes.
   */
  lemma {:induction false} FirstInRangeIsFirst(cands: seq<string>, lo: real, hi: real, i: nat)
    requires i <= |cands|
    requires forall j :: 0 <= j < i ==> !Hit(cands[j], lo, hi)
    ensures i < |cands| && Hit(cands[i], lo, hi) ==> FirstInRange(cands, lo, hi) == ExtractPrice(cands[i])
    ensures i == |cands| ==> FirstInRange(cands, lo, hi).None?
  {
    if i > 0 {
      assert forall j :: 0 <= j < i - 1 ==> cands[1..][j] == cands[j + 1];
      FirstInRangeIsFirst(cands[1..], lo, hi, i - 1);
    }
  }

  /** A hit from FirstInRange is the price of one of the candidates. */
  lemma {:induction false} FirstInRangeFromCandidate(cands: seq<string>, lo: real, hi: real)
    ensures FirstInRange(cands, lo, hi).Some? ==>
      exists i :: 0 <= i < |cands| && Hit(cands[i], lo, hi) && FirstInRange(cands, lo, hi) == ExtractPrice(cands[i])
  {
    if cands != [] && !Hit(cands[0], lo, hi) {
      FirstInRangeFromCandidate(cands[1..], lo, hi);
      if FirstInRange(cands, lo, hi).Some? {
        var i :| 0 <= i < |cands[1..]| && Hit(cands[1..][i], lo, hi) && FirstInRange(cands[1..], lo, hi) == ExtractPrice(cands[1..][i]);
        assert cands[1..][i] == cands[i + 1];
      }
    }
  }

  method ScanInRange(cands: seq<string>, lo: real, hi: real) returns (found: Option<real>)
    ensures found == FirstInRange(cands, lo, hi)
  {
    found := None;
    for i := 0 to |cands|
      invariant FirstInRange(cands[i..], lo, hi) == FirstInRange(cands, lo, hi)
      invariant found == None
    {
      assert cands[i..][0] == cands[i] && cands[i..][1..] == cands[i + 1..];
      var potential := ExtractPrice(cands[i]);
      if potential.Some? && potential.value != 0.0 && lo <= potential.value <= hi {
        found := potential;
        break;
      }
    }
  }

  /** Scanning a concatenation scans the second part only when the first has no hit. */
  lemma {:induction false} FirstInRangeAppend(a: seq<string>, b: seq<string>, lo: real, hi: real)
    ensures FirstInRange(a + b, lo, hi) ==
            if FirstInRange(a, lo, hi).Some? then FirstInRange(a, lo, hi) else FirstInRange(b, lo, hi)
  {
    if a != [] {
      assert (a + b)[0] == a[0] && (a + b)[1..] == a[1..] + b;
      FirstInRangeAppend(a[1..], b, lo, hi);
    } else {
      assert a + b == b;
    }
  }
}
