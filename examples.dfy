/** Worked inputs of `extract_price`, computed through the scanner step by step. */
module PriceExamples {
  import opened Wrappers
  import opened Text
  import opened Decimal
  import opened Prices

  lemma DigitsOf1234()
    ensures DigitsValue("1234") == 1234
  {
    assert "1234"[..3] == "123" && "123"[..2] == "12" && "12"[..1] == "1" && "1"[..0] == "";
    assert DigitsValue("1") == 1;
    assert DigitsValue("12") == 12;
    assert DigitsValue("123") == 123;
  }

  lemma DigitsOf56()
    ensures DigitsValue("56") == 56
  {
    assert "56"[..1] == "5" && "5"[..0] == "";
    assert DigitsValue("5") == 5;
  }

  /** Text with no whitespace at either end is its own strip, so its first match is the one `extract_price` reads. */
  lemma DenotedOfTrimmed(s: string, n: Numeral)
    requires s != [] && !IsSpace(s[0]) && !IsSpace(s[|s| - 1])
    requires FirstNumeral(s) == Some(n)
    ensures Shaped(n) && Denoted(s) == NumeralValue(n)
  {
    StripKeepsTrimmed(s);
  }

  // "$1,234.56": the first match is "1,234.56", and dropping its comma gives 1234.56.

  lemma DollarAmountScan()
    ensures FirstNumeral("$1,234.56") == Some(Numeral(1, "1,234", true, "56"))
  {
    var s := "$1,234.56";
    assert SkipToRun(s, 0) == 1;
    assert RunEnd(s, 1) == 6;
    assert DigitsEnd(s, 7) == 9;
    assert s[6] == '.' && s[1..6] == "1,234" && s[7..9] == "56";
  }

  lemma DollarAmountValue()
    ensures NumeralValue(Numeral(1, "1,234", true, "56")) == Some(1234.56)
  {
    assert DropCommas("1,234") == "1234";
    DigitsOf1234();
    DigitsOf56();
    assert Pow10(2) == 100;
  }

  lemma DollarAmountDenoted()
    ensures Denoted("$1,234.56") == Some(1234.56)
  {
    DollarAmountScan();
    DenotedOfTrimmed("$1,234.56", Numeral(1, "1,234", true, "56"));
    DollarAmountValue();
  }

  lemma DollarAmount()
    ensures ExtractPrice("$1,234.56") == Some(1234.56)
  {
    DollarAmountDenoted();
    assert WholeCents(1234.56) by { assert 1234.56 * 100.0 == 123456.0; }
    RoundCentsKeepsWholeCents(1234.56);
  }

  // "1.2.3": only the first match counts, and it is "1.2".

  lemma SecondDotScan()
    ensures FirstNumeral("1.2.3") == Some(Numeral(0, "1", true, "2"))
  {
    var s := "1.2.3";
    assert SkipToRun(s, 0) == 0;
    assert RunEnd(s, 0) == 1;
    assert DigitsEnd(s, 2) == 3;
    assert s[1] == '.' && s[0..1] == "1" && s[2..3] == "2";
  }

  lemma SecondDotValue()
    ensures NumeralValue(Numeral(0, "1", true, "2")) == Some(1.2)
  {
    assert DropCommas("1") == "1";
    assert "1"[..0] == "" && "2"[..0] == "";
    assert DigitsValue("1") == 1 && DigitsValue("2") == 2;
    assert Pow10(1) == 10;
  }

  lemma SecondDotDenoted()
    ensures Denoted("1.2.3") == Some(1.2)
  {
    SecondDotScan();
    DenotedOfTrimmed("1.2.3", Numeral(0, "1", true, "2"));
    SecondDotValue();
  }

  lemma SecondDotEndsTheMatch()
    ensures ExtractPrice("1.2.3") == Some(1.2)
  {
    SecondDotDenoted();
    assert WholeCents(1.2) by { assert 1.2 * 100.0 == 120.0; }
    RoundCentsKeepsWholeCents(1.2);
  }

  // "Price, $5": the first match is the lone comma, so there is no price.

  lemma CommaScan()
    ensures FirstNumeral("Price, $5") == Some(Numeral(5, ",", false, ""))
  {
    var s := "Price, $5";
    assert SkipToRun(s, 0) == 5;
    assert RunEnd(s, 5) == 6;
    assert s[6] == ' ' && s[5..6] == ",";
  }

  lemma CommaBeforeDigits()
    ensures ExtractPrice("Price, $5") == None
  {
    CommaScan();
    DenotedOfTrimmed("Price, $5", Numeral(5, ",", false, ""));
    assert DropCommas(",") == "";
  }

  // "0.00": zero is below the floor of 0.01.

  lemma ZeroScan()
    ensures FirstNumeral("0.00") == Some(Numeral(0, "0", true, "00"))
  {
    var s := "0.00";
    assert SkipToRun(s, 0) == 0;
    assert RunEnd(s, 0) == 1;
    assert DigitsEnd(s, 2) == 4;
    assert s[1] == '.' && s[0..1] == "0" && s[2..4] == "00";
  }

  lemma ZeroIsNoPrice()
    ensures ExtractPrice("0.00") == None
  {
    ZeroScan();
    DenotedOfTrimmed("0.00", Numeral(0, "0", true, "00"));
    assert DropCommas("0") == "0";
    assert "0"[..0] == "" && "00"[..1] == "0";
    assert DigitsValue("0") == 0 && DigitsValue("00") == 0;
  }

  // "1000000": a million is above the ceiling of 999999.

  lemma MillionScan()
    ensures FirstNumeral("1000000") == Some(Numeral(0, "1000000", false, ""))
  {
    var s := "1000000";
    assert SkipToRun(s, 0) == 0;
    assert RunEnd(s, 0) == 7;
    assert s[0..7] == s;
  }

  /** A digit string starting with a non-zero digit is worth at least 10 to the power of its length minus one. */
  lemma {:induction false} DigitsValueAtLeastLead(ds: string)
    requires AllDigits(ds) && |ds| > 0 && ds[0] != '0'
    ensures DigitsValue(ds) >= Pow10(|ds| - 1)
  {
    if |ds| > 1 {
      var init := ds[..|ds| - 1];
      assert init[0] == ds[0];
      DigitsValueAtLeastLead(init);
    } else {
      assert ds[..0] == "";
    }
  }

  lemma MillionDigits()
    ensures DigitsValue("1000000") >= 1000000
  {
    DigitsValueAtLeastLead("1000000");
    assert Pow10(6) == 1000000;
  }

  lemma MillionValue()
    ensures NumeralValue(Numeral(0, "1000000", false, "")).Some?
    ensures NumeralValue(Numeral(0, "1000000", false, "")).value >= 1000000.0
  {
    assert DropCommas("1000000") == "1000000";
    MillionDigits();
    assert Pow10(0) == 1;
  }

  lemma MillionDenoted()
    ensures Denoted("1000000").Some? && Denoted("1000000").value >= 1000000.0
  {
    MillionScan();
    DenotedOfTrimmed("1000000", Numeral(0, "1000000", false, ""));
    MillionValue();
  }

  lemma MillionIsNoPrice()
    ensures ExtractPrice("1000000") == None
  {
    MillionDenoted();
  }

  /** Text with no digit and no comma has no price. */
  lemma WordIsNoPrice()
    ensures ExtractPrice("free") == None
  {
    assert forall k :: 0 <= k < |"free"| ==> !IsRunChar("free"[k]);
    NoPriceCases("free");
  }
}
