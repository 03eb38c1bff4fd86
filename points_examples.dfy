/**
 * The worked receipts of the program's own test suite, scored by the model: each rule
 * in isolation on a receipt where the other rules add nothing, then the two complete
 * receipts of the challenge, and a receipt whose negative score the caller cannot tell
 * from a failure. Each example is stated for every receipt with the fields of the test;
 * the field facts are lemmas of their own.
 */
module PointsExamples {
  import opened Wrappers
  import opened Text
  import opened Numbers
  import opened Receipts
  import opened Points
  import opened PointsLaws

  /** The receipt has exactly these fields. */
  predicate Has(r: Receipt, retailer: string, date: string, time: string, total: string, items: seq<Item>) {
    r.retailer == retailer && r.purchaseDate == date && r.purchaseTime == time
    && r.total == total && r.items == items
  }

  // ----- the rules on well-formed fields -----

  /** A two-digit number. */
  lemma TwoDigits(s: string)
    requires |s| == 2 && AllDigits(s)
    ensures Atoi(s) == Some(DigitValue(s[0]) * 10 + DigitValue(s[1]))
  {
    var first := s[..1];
    assert first[..0] == [];
    assert DigitsValue(first) == DigitValue(s[0]);
    assert IsDecimalDigit(s[0]);
  }

  /** A clock time `HH:MM` scores by the afternoon window. */
  lemma Clock(hour: string, minute: string)
    requires |hour| == 2 && AllDigits(hour) && |minute| == 2 && AllDigits(minute)
    ensures TimePoints(hour + ":" + minute) ==
      var h := DigitValue(hour[0]) * 10 + DigitValue(hour[1]);
      var m := DigitValue(minute[0]) * 10 + DigitValue(minute[1]);
      Ok(if InAfternoonWindow(h, m) then 10 else 0)
  {
    assert ':' !in hour && ':' !in minute by {
      assert IsDecimalDigit(hour[0]) && IsDecimalDigit(hour[1]);
      assert IsDecimalDigit(minute[0]) && IsDecimalDigit(minute[1]);
    }
    TwoDigits(hour);
    TwoDigits(minute);
    TimeOfParts(hour, minute);
  }

  /** A date `YYYY-MM-DD` scores by the parity of its day. */
  lemma CalendarDate(year: string, month: string, day: string)
    requires |year| == 4 && AllDigits(year) && |month| == 2 && AllDigits(month)
    requires |day| == 2 && AllDigits(day)
    ensures DatePoints(year + "-" + month + "-" + day) ==
      Ok(if (DigitValue(day[0]) * 10 + DigitValue(day[1])) % 2 != 0 then 6 else 0)
  {
    assert '-' !in year && '-' !in month && '-' !in day by {
      forall i | 0 <= i < |year| ensures year[i] != '-' {
        assert IsDecimalDigit(year[i]);
      }
      assert IsDecimalDigit(month[0]) && IsDecimalDigit(month[1]);
      assert IsDecimalDigit(day[0]) && IsDecimalDigit(day[1]);
    }
    TwoDigits(day);
    DateDayOnly(year, month, day);
  }

  /** A description that is ASCII text with white space around it counts by its core's length. */
  lemma PaddedCounts(lead: string, core: string, trail: string)
    requires AllSpace(lead) && AllSpace(trail) && IsAscii(core)
    requires core != [] && !IsSpace(core[0]) && !IsSpace(core[|core| - 1])
    ensures DescriptionCounts(lead + core + trail) <==> |core| % 3 == 0
  {
    TrimSpacePadded(lead, core, trail);
    Utf8LenBounds(core);
  }

  /** An item of a counted description earns the ceiling of a fifth of its price. */
  lemma CountedItem(item: Item, price: real, points: int)
    requires DescriptionCounts(item.shortDescription) && ParseDecimal(item.price) == Some(price)
    requires Ceil(price * 0.2) == points
    ensures ItemPoints(item) == Ok(points)
  {
  }

  /** A single item earns what the rule gives it. */
  lemma SingleItem(items: seq<Item>, points: int)
    requires |items| == 1 && ItemPoints(items[0]) == Ok(points)
    ensures ItemsPoints(items) == Ok(points)
  {
    assert items[..0] == [];
  }

  lemma {:induction false} ZeroSum(n: nat)
    ensures Sum(seq(n, _ => 0)) == 0
  {
    if n > 0 {
      assert seq(n, _ => 0)[..n - 1] == seq(n - 1, _ => 0);
      ZeroSum(n - 1);
    }
  }

  /** Items that all earn nothing. */
  lemma NothingEarned(items: seq<Item>)
    requires forall k :: 0 <= k < |items| ==> ItemPoints(items[k]) == Ok(0)
    ensures ItemsPoints(items) == Ok(0)
  {
    ItemsPointsSum(items, seq(|items|, _ => 0));
    ZeroSum(|items|);
  }

  // ----- the fields of the tests -----

  lemma DateJan1(date: string)
    requires date == "2022-01-01"
    ensures DatePoints(date) == Ok(6)
  {
    CalendarDate("2022", "01", "01");
    assert date == "2022" + "-" + "01" + "-" + "01";
  }

  lemma DateJan2(date: string)
    requires date == "2022-01-02"
    ensures DatePoints(date) == Ok(0)
  {
    CalendarDate("2022", "01", "02");
    assert date == "2022" + "-" + "01" + "-" + "02";
  }

  lemma DateMar20(date: string)
    requires date == "2022-03-20"
    ensures DatePoints(date) == Ok(0)
  {
    CalendarDate("2022", "03", "20");
    assert date == "2022" + "-" + "03" + "-" + "20";
  }

  lemma TimeTen(time: string)
    requires time == "10:00"
    ensures TimePoints(time) == Ok(0)
  {
    Clock("10", "00");
    assert time == "10" + ":" + "00";
  }

  lemma TimeThirteen(time: string)
    requires time == "13:00"
    ensures TimePoints(time) == Ok(0)
  {
    Clock("13", "00");
    assert time == "13" + ":" + "00";
  }

  lemma TimeFourteen(time: string)
    requires time == "14:00"
    ensures TimePoints(time) == Ok(0)
  {
    Clock("14", "00");
    assert time == "14" + ":" + "00";
  }

  lemma TimeHalfPastTwo(time: string)
    requires time == "14:30"
    ensures TimePoints(time) == Ok(10)
  {
    Clock("14", "30");
    assert time == "14" + ":" + "30";
  }

  lemma TimeHalfPastThree(time: string)
    requires time == "15:30"
    ensures TimePoints(time) == Ok(10)
  {
    Clock("15", "30");
    assert time == "15" + ":" + "30";
  }

  lemma TimeHalfPastFour(time: string)
    requires time == "16:30"
    ensures TimePoints(time) == Ok(0)
  {
    Clock("16", "30");
    assert time == "16" + ":" + "30";
  }

  lemma TimeOneMinutePastThree(time: string)
    requires time == "15:01"
    ensures TimePoints(time) == Ok(10)
  {
    Clock("15", "01");
    assert time == "15" + ":" + "01";
  }

  lemma TimeOneOhOne(time: string)
    requires time == "13:01"
    ensures TimePoints(time) == Ok(0)
  {
    Clock("13", "01");
    assert time == "13" + ":" + "01";
  }

  lemma TimeTwoThirtyThree(time: string)
    requires time == "14:33"
    ensures TimePoints(time) == Ok(10)
  {
    Clock("14", "33");
    assert time == "14" + ":" + "33";
  }

  lemma AmountOnePointOne(text: string)
    requires text == "1.1"
    ensures ParseDecimal(text) == Some(1.1)
  {
    ParsePointed("1", "1");
    assert text == "1" + "." + "1";
  }

  lemma AmountOnePointZero(text: string)
    requires text == "1.0"
    ensures ParseDecimal(text) == Some(1.0)
  {
    ParsePointed("1", "0");
    assert text == "1" + "." + "0";
  }

  lemma AmountOnePointThree(text: string)
    requires text == "1.3"
    ensures ParseDecimal(text) == Some(1.3)
  {
    ParsePointed("1", "3");
    assert text == "1" + "." + "3";
  }

  lemma AmountHalf(text: string)
    requires text == "0.50"
    ensures ParseDecimal(text) == Some(0.5)
  {
    ParsePointed("0", "50");
    assert "50"[1..] == "0";
    assert text == "0" + "." + "50";
  }

  lemma AmountElevenPointOne(text: string)
    requires text == "11.1"
    ensures ParseDecimal(text) == Some(11.1)
  {
    ParsePointed("11", "1");
    assert "11"[..1] == "1";
    assert text == "11" + "." + "1";
  }

  lemma AmountThree(text: string)
    requires text == "3.0"
    ensures ParseDecimal(text) == Some(3.0)
  {
    ParsePointed("3", "0");
    assert text == "3" + "." + "0";
  }

  lemma AmountTwelvePointTwentyFive(text: string)
    requires text == "12.25"
    ensures ParseDecimal(text) == Some(12.25)
  {
    ParsePointed("12", "25");
    assert "12"[..1] == "1" && "25"[1..] == "5";
    assert text == "12" + "." + "25";
  }

  lemma AmountTwelve(text: string)
    requires text == "12.00"
    ensures ParseDecimal(text) == Some(12.0)
  {
    ParsePointed("12", "00");
    assert "12"[..1] == "1" && "00"[1..] == "0";
    assert text == "12" + "." + "00";
  }

  lemma AmountThirtyFive(text: string)
    requires text == "35.35"
    ensures ParseDecimal(text) == Some(35.35)
  {
    ParsePointed("35", "35");
    assert "35"[..1] == "3" && "35"[1..] == "5";
    assert text == "35" + "." + "35";
  }

  lemma AmountNine(text: string)
    requires text == "9.00"
    ensures ParseDecimal(text) == Some(9.0)
  {
    ParsePointed("9", "00");
    assert "00"[1..] == "0";
    assert text == "9" + "." + "00";
  }

  lemma AmountTwenty(text: string)
    requires text == "20.00"
    ensures ParseDecimal(text) == Some(20.0)
  {
    ParsePointed("20", "00");
    assert "20"[..1] == "2" && "00"[1..] == "0";
    assert text == "20" + "." + "00";
  }

  lemma AmountMinusFive(text: string)
    requires text == "-5"
    ensures ParseDecimal(text) == Some(-5.0)
  {
    assert text[0] == '-' && text[1..] == "5";
    SplitFree("5", '.');
  }

  lemma CountTarget123(name: string)
    requires name == "Target123"
    ensures AlnumCount(name) == 9
  {
    assert "Target123"[..8] == "Target12";
    assert "Target12"[..7] == "Target1";
    assert "Target1"[..6] == "Target";
    assert "Target"[..5] == "Targe";
    assert "Targe"[..4] == "Targ";
    assert "Targ"[..3] == "Tar";
    assert "Tar"[..2] == "Ta";
    assert "Ta"[..1] == "T";
  }

  lemma CountTarget(name: string)
    requires name == "Target"
    ensures AlnumCount(name) == 6
  {
    assert "Target"[..5] == "Targe";
    assert "Targe"[..4] == "Targ";
    assert "Targ"[..3] == "Tar";
    assert "Tar"[..2] == "Ta";
    assert "Ta"[..1] == "T";
  }

  lemma CountMandM(name: string)
    requires name == "M&M"
    ensures AlnumCount(name) == 2
  {
    assert "M&M"[..2] == "M&";
    assert "M&"[..1] == "M";
  }

  lemma CountCorner(name: string)
    requires name == "Corner"
    ensures AlnumCount(name) == 6
  {
    assert "Corner"[..5] == "Corne";
    assert "Corne"[..4] == "Corn";
    assert "Corn"[..3] == "Cor";
    assert "Cor"[..2] == "Co";
    assert "Co"[..1] == "C";
  }

  lemma CountMarket(name: string)
    requires name == "Market"
    ensures AlnumCount(name) == 6
  {
    assert "Market"[..5] == "Marke";
    assert "Marke"[..4] == "Mark";
    assert "Mark"[..3] == "Mar";
    assert "Mar"[..2] == "Ma";
    assert "Ma"[..1] == "M";
  }

  /** `M&M Corner Market` has 14 letters: the `&` and the spaces do not count. */
  lemma CornerMarketLetters()
    ensures AlnumCount("M&M Corner Market") == 14
  {
    var name := "M&M" + " " + "Corner" + " " + "Market";
    CountMandM("M&M");
    CountCorner("Corner");
    CountMarket("Market");
    assert AlnumCount(" ") == 0 by {
      assert " "[..0] == [];
    }
    AlnumCountAppend("M&M", " ");
    AlnumCountAppend("M&M" + " ", "Corner");
    AlnumCountAppend("M&M" + " " + "Corner", " ");
    AlnumCountAppend("M&M" + " " + "Corner" + " ", "Market");
    assert AlnumCount(name) == 14;
    assert name == "M&M Corner Market";
  }

  lemma CountCornerMarket(name: string)
    requires name == "M&M Corner Market"
    ensures AlnumCount(name) == 14
  {
    CornerMarketLetters();
  }

  /** `THEA` has four characters, so it does not count. */
  lemma TheaShort()
    ensures !DescriptionCounts("THEA")
  {
    var d := [] + "THEA" + [];
    PaddedCounts([], "THEA", []);
    assert !DescriptionCounts(d);
    assert d == "THEA";
  }

  /** White space around `THEA` is trimmed before measuring. */
  lemma TheaPaddedShort()
    ensures !DescriptionCounts(" THEA  ")
  {
    var d := " " + "THEA" + "  ";
    PaddedCounts(" ", "THEA", "  ");
    assert !DescriptionCounts(d);
    assert d == " THEA  ";
  }

  /** ` THE` trims to three characters, so it counts. */
  lemma TheCounts()
    ensures DescriptionCounts(" THE")
  {
    var d := " " + "THE" + [];
    PaddedCounts(" ", "THE", []);
    assert DescriptionCounts(d);
    assert d == " THE";
  }

  /** `ABC` has three characters. */
  lemma AbcCounts()
    ensures DescriptionCounts("ABC")
  {
    var d := [] + "ABC" + [];
    PaddedCounts([], "ABC", []);
    assert DescriptionCounts(d);
    assert d == "ABC";
  }

  /** `Gatorade` has eight characters. */
  lemma GatoradeShort()
    ensures !DescriptionCounts("Gatorade")
  {
    var d := [] + "Gatorade" + [];
    PaddedCounts([], "Gatorade", []);
    assert !DescriptionCounts(d);
    assert d == "Gatorade";
  }

  /** `Pepsi` has five characters. */
  lemma PepsiShort()
    ensures !DescriptionCounts("Pepsi")
  {
    var d := [] + "Pepsi" + [];
    PaddedCounts([], "Pepsi", []);
    assert !DescriptionCounts(d);
    assert d == "Pepsi";
  }

  /** `Chips` has five characters. */
  lemma ChipsShort()
    ensures !DescriptionCounts("Chips")
  {
    var d := [] + "Chips" + [];
    PaddedCounts([], "Chips", []);
    assert !DescriptionCounts(d);
    assert d == "Chips";
  }

  /** `Mountain Dew 12PK` has seventeen characters. */
  lemma MountainDewShort()
    ensures !DescriptionCounts("Mountain Dew 12PK")
  {
    var d := [] + "Mountain Dew 12PK" + [];
    PaddedCounts([], "Mountain Dew 12PK", []);
    assert !DescriptionCounts(d);
    assert d == "Mountain Dew 12PK";
  }

  /** `Emils Cheese Pizza` has eighteen characters. */
  lemma PizzaCounts()
    ensures DescriptionCounts("Emils Cheese Pizza")
  {
    var d := [] + "Emils Cheese Pizza" + [];
    PaddedCounts([], "Emils Cheese Pizza", []);
    assert DescriptionCounts(d);
    assert d == "Emils Cheese Pizza";
  }

  /** Twenty characters. */
  lemma KnorrShort()
    ensures !DescriptionCounts("Knorr Creamy Chicken")
  {
    var d := [] + "Knorr Creamy Chicken" + [];
    PaddedCounts([], "Knorr Creamy Chicken", []);
    assert !DescriptionCounts(d);
    assert d == "Knorr Creamy Chicken";
  }

  /** Twenty characters. */
  lemma DoritosShort()
    ensures !DescriptionCounts("Doritos Nacho Cheese")
  {
    var d := [] + "Doritos Nacho Cheese" + [];
    PaddedCounts([], "Doritos Nacho Cheese", []);
    assert !DescriptionCounts(d);
    assert d == "Doritos Nacho Cheese";
  }

  /** The Klarbrunn pack has twenty-four characters once trimmed. */
  lemma KlarbrunnCounts()
    ensures DescriptionCounts("   Klarbrunn 12-PK 12 FL OZ  ")
  {
    var d := "   " + "Klarbrunn 12-PK 12 FL OZ" + "  ";
    PaddedCounts("   ", "Klarbrunn 12-PK 12 FL OZ", "  ");
    assert DescriptionCounts(d);
    assert d == "   Klarbrunn 12-PK 12 FL OZ  ";
  }

  lemma UncountedThea(item: Item)
    requires item.shortDescription == "THEA"
    ensures ItemPoints(item) == Ok(0)
  {
    TheaShort();
    UncountedItem(item);
  }

  lemma UncountedTheaPadded(item: Item)
    requires item.shortDescription == " THEA  "
    ensures ItemPoints(item) == Ok(0)
  {
    TheaPaddedShort();
    UncountedItem(item);
  }

  lemma UncountedGatorade(item: Item)
    requires item.shortDescription == "Gatorade"
    ensures ItemPoints(item) == Ok(0)
  {
    GatoradeShort();
    UncountedItem(item);
  }

  lemma UncountedPepsi(item: Item)
    requires item.shortDescription == "Pepsi"
    ensures ItemPoints(item) == Ok(0)
  {
    PepsiShort();
    UncountedItem(item);
  }

  lemma UncountedChips(item: Item)
    requires item.shortDescription == "Chips"
    ensures ItemPoints(item) == Ok(0)
  {
    ChipsShort();
    UncountedItem(item);
  }

  lemma UncountedMountainDew(item: Item)
    requires item.shortDescription == "Mountain Dew 12PK"
    ensures ItemPoints(item) == Ok(0)
  {
    MountainDewShort();
    UncountedItem(item);
  }

  lemma UncountedKnorr(item: Item)
    requires item.shortDescription == "Knorr Creamy Chicken"
    ensures ItemPoints(item) == Ok(0)
  {
    KnorrShort();
    UncountedItem(item);
  }

  lemma UncountedDoritos(item: Item)
    requires item.shortDescription == "Doritos Nacho Cheese"
    ensures ItemPoints(item) == Ok(0)
  {
    DoritosShort();
    UncountedItem(item);
  }

  /** At 3.0 it earns `ceil(0.6)` = 1. */
  lemma CountedThe(item: Item)
    requires item == Item(" THE", "3.0")
    ensures ItemPoints(item) == Ok(1)
  {
    TheCounts();
    AmountThree(item.price);
    assert Ceil(3.0 * 0.2) == 1;
    CountedItem(item, 3.0, 1);
  }

  /** At 12.25 it earns `ceil(2.45)` = 3. */
  lemma CountedPizza(item: Item)
    requires item == Item("Emils Cheese Pizza", "12.25")
    ensures ItemPoints(item) == Ok(3)
  {
    PizzaCounts();
    AmountTwelvePointTwentyFive(item.price);
    assert Ceil(12.25 * 0.2) == 3;
    CountedItem(item, 12.25, 3);
  }

  /** At 12.00 it earns `ceil(2.4)` = 3. */
  lemma CountedKlarbrunn(item: Item)
    requires item == Item("   Klarbrunn 12-PK 12 FL OZ  ", "12.00")
    ensures ItemPoints(item) == Ok(3)
  {
    KlarbrunnCounts();
    AmountTwelve(item.price);
    assert Ceil(12.0 * 0.2) == 3;
    CountedItem(item, 12.0, 3);
  }

  /** At -5 it earns `ceil(-1.0)` = -1. */
  lemma CountedAbc(item: Item)
    requires item == Item("ABC", "-5")
    ensures ItemPoints(item) == Ok(-1)
  {
    AbcCounts();
    AmountMinusFive(item.price);
    assert Ceil(-5.0 * 0.2) == -1;
    CountedItem(item, -5.0, -1);
  }

  /** `1.1`: no whole dollar, no multiple of a quarter, not above 10. */
  lemma BonusOnePointOne()
    ensures TotalBonus(1.1) == 0
  {
    TotalBonusCents(110);
    assert 110 as real / 100.0 == 1.1;
  }

  /** `1.0`: a whole dollar and a multiple of a quarter. */
  lemma BonusOnePointZero()
    ensures TotalBonus(1.0) == 75
  {
    TotalBonusCents(100);
    assert 100 as real / 100.0 == 1.0;
  }

  /** `1.3`: neither. */
  lemma BonusOnePointThree()
    ensures TotalBonus(1.3) == 0
  {
    TotalBonusCents(130);
    assert 130 as real / 100.0 == 1.3;
  }

  /** `0.50`: a multiple of a quarter only. */
  lemma BonusHalf()
    ensures TotalBonus(0.5) == 25
  {
    TotalBonusCents(50);
    assert 50 as real / 100.0 == 0.5;
  }

  /** `11.1`: above 10 only. */
  lemma BonusElevenPointOne()
    ensures TotalBonus(11.1) == 5
  {
    TotalBonusCents(1110);
    assert 1110 as real / 100.0 == 11.1;
  }

  /** `35.35`: above 10 only. */
  lemma BonusThirtyFive()
    ensures TotalBonus(35.35) == 5
  {
    TotalBonusCents(3535);
    assert 3535 as real / 100.0 == 35.35;
  }

  /** `20.00`: a whole dollar, a multiple of a quarter, and above 10. */
  lemma BonusTwenty()
    ensures TotalBonus(20.0) == 80
  {
    TotalBonusCents(2000);
    assert 2000 as real / 100.0 == 20.0;
  }

  /** `9.00`: a whole dollar and a multiple of a quarter, not above 10. */
  lemma BonusNine()
    ensures TotalBonus(9.0) == 75
  {
    TotalBonusCents(900);
    assert 900 as real / 100.0 == 9.0;
  }

  /**
   * A receipt dated 2022-01-02 at 10:00: the date and time rules add nothing, so the
   * score is the retailer, total, pair and item rules.
   */
  lemma QuietReceipt(r: Receipt, value: real, itemPoints: int, points: int)
    requires r.purchaseDate == "2022-01-02" && r.purchaseTime == "10:00"
    requires ParseDecimal(r.total) == Some(value) && ItemsPoints(r.items) == Ok(itemPoints)
    requires points == AlnumCount(r.retailer) + TotalBonus(value) + PairBonus(|r.items|) + itemPoints
    ensures Score(r) == Ok(points)
  {
    DateJan2(r.purchaseDate);
    TimeTen(r.purchaseTime);
    ScoreOfParts(r, value, itemPoints, 0, 0, points);
  }

  // ----- the rules one at a time -----

  /** One point per letter or digit: `Target123` earns 9. */
  lemma TestRetailerName(r: Receipt)
    requires Has(r, "Target123", "2022-01-02", "10:00", "1.1", [])
    ensures Score(r) == Ok(9)
  {
    AmountOnePointOne(r.total);
    BonusOnePointOne();
    CountTarget123(r.retailer);
    QuietReceipt(r, 1.1, 0, 9);
  }

  /** A whole-dollar total earns 50, and 25 more as a multiple of a quarter. */
  lemma TestRoundDollar(r: Receipt)
    requires Has(r, "", "2022-01-02", "10:00", "1.0", [])
    ensures Score(r) == Ok(75)
  {
    AmountOnePointZero(r.total);
    BonusOnePointZero();
    QuietReceipt(r, 1.0, 0, 75);
  }

  /** `1.3` is neither a whole dollar nor a multiple of a quarter. */
  lemma TestNotRoundDollar(r: Receipt)
    requires Has(r, "", "2022-01-02", "10:00", "1.3", [])
    ensures Score(r) == Ok(0)
  {
    AmountOnePointThree(r.total);
    BonusOnePointThree();
    QuietReceipt(r, 1.3, 0, 0);
  }

  /** `1.1` is no multiple of a quarter. */
  lemma TestNotQuarter(r: Receipt)
    requires Has(r, "", "2022-01-02", "10:00", "1.1", [])
    ensures Score(r) == Ok(0)
  {
    AmountOnePointOne(r.total);
    BonusOnePointOne();
    QuietReceipt(r, 1.1, 0, 0);
  }

  /** `0.50` is a multiple of a quarter but no whole dollar. */
  lemma TestMultipleQuarter(r: Receipt)
    requires Has(r, "", "2022-01-02", "10:00", "0.50", [])
    ensures Score(r) == Ok(25)
  {
    AmountHalf(r.total);
    BonusHalf();
    QuietReceipt(r, 0.5, 0, 25);
  }

  /** 5 per complete pair: two and three items earn 5, one item earns nothing. */
  lemma TestEveryTwo(r: Receipt, n: nat)
    requires 1 <= n <= 3
    requires Has(r, "", "2022-01-02", "10:00", "1.1", seq(n, _ => Item("THEA", "3.0")))
    ensures Score(r) == Ok(if n == 1 then 0 else 5)
  {
    AmountOnePointOne(r.total);
    BonusOnePointOne();
    forall k | 0 <= k < |r.items|
      ensures ItemPoints(r.items[k]) == Ok(0)
    {
      UncountedThea(r.items[k]);
    }
    NothingEarned(r.items);
    QuietReceipt(r, 1.1, 0, if n == 1 then 0 else 5);
  }

  /** ` THE` trims to three characters and earns `ceil(3.0 * 0.2)` = 1. */
  lemma TestTrimLength(r: Receipt)
    requires Has(r, "", "2022-01-02", "10:00", "1.1", [Item(" THE", "3.0")])
    ensures Score(r) == Ok(1)
  {
    AmountOnePointOne(r.total);
    BonusOnePointOne();
    CountedThe(r.items[0]);
    SingleItem(r.items, 1);
    QuietReceipt(r, 1.1, 1, 1);
  }

  /** ` THEA  ` trims to four characters and earns nothing. */
  lemma TestTrimLengthFour(r: Receipt)
    requires Has(r, "", "2022-01-02", "10:00", "1.1", [Item(" THEA  ", "3.0")])
    ensures Score(r) == Ok(0)
  {
    AmountOnePointOne(r.total);
    BonusOnePointOne();
    UncountedTheaPadded(r.items[0]);
    SingleItem(r.items, 0);
    QuietReceipt(r, 1.1, 0, 0);
  }

  /** A total above 10 earns 5. */
  lemma TestAIHelp(r: Receipt)
    requires Has(r, "", "2022-01-02", "10:00", "11.1", [])
    ensures Score(r) == Ok(5)
  {
    AmountElevenPointOne(r.total);
    BonusElevenPointOne();
    QuietReceipt(r, 11.1, 0, 5);
  }

  /** The first of the month is an odd day and earns 6. */
  lemma TestOddDay(r: Receipt)
    requires Has(r, "", "2022-01-01", "10:00", "1.1", [])
    ensures Score(r) == Ok(6)
  {
    AmountOnePointOne(r.total);
    BonusOnePointOne();
    DateJan1(r.purchaseDate);
    TimeTen(r.purchaseTime);
    ScoreOfParts(r, 1.1, 0, 6, 0, 6);
  }

  /** A receipt that earns nothing but what its time earns. */
  lemma OnlyTime(r: Receipt, timePoints: int)
    requires r.retailer == "" && r.purchaseDate == "2022-01-02" && r.total == "1.1" && r.items == []
    requires TimePoints(r.purchaseTime) == Ok(timePoints)
    ensures Score(r) == Ok(timePoints)
  {
    AmountOnePointOne(r.total);
    BonusOnePointOne();
    DateJan2(r.purchaseDate);
    ScoreOfParts(r, 1.1, 0, 0, timePoints, timePoints);
  }

  /** 13:00, 14:00 and 16:30 lie outside the afternoon window: 14:00 itself does not count. */
  lemma TestTimeOutside(r: Receipt)
    requires r.retailer == "" && r.purchaseDate == "2022-01-02" && r.total == "1.1" && r.items == []
    requires r.purchaseTime == "13:00" || r.purchaseTime == "14:00" || r.purchaseTime == "16:30"
    ensures Score(r) == Ok(0)
  {
    if r.purchaseTime == "13:00" {
      TimeThirteen(r.purchaseTime);
    } else if r.purchaseTime == "14:00" {
      TimeFourteen(r.purchaseTime);
    } else {
      TimeHalfPastFour(r.purchaseTime);
    }
    OnlyTime(r, 0);
  }

  /** 14:30 and 15:30 lie inside the afternoon window and earn 10. */
  lemma TestTimeInside(r: Receipt)
    requires r.retailer == "" && r.purchaseDate == "2022-01-02" && r.total == "1.1" && r.items == []
    requires r.purchaseTime == "14:30" || r.purchaseTime == "15:30"
    ensures Score(r) == Ok(10)
  {
    if r.purchaseTime == "14:30" {
      TimeHalfPastTwo(r.purchaseTime);
    } else {
      TimeHalfPastThree(r.purchaseTime);
    }
    OnlyTime(r, 10);
  }

  // ----- the complete receipts -----

  /** The items of the Target receipt: the pizza and the Klarbrunn pack earn 3 each. */
  lemma TargetItems(items: seq<Item>)
    requires |items| == 5
    requires items[0] == Item("Mountain Dew 12PK", "6.49")
    requires items[1] == Item("Emils Cheese Pizza", "12.25")
    requires items[2] == Item("Knorr Creamy Chicken", "1.26")
    requires items[3] == Item("Doritos Nacho Cheese", "3.35")
    requires items[4] == Item("   Klarbrunn 12-PK 12 FL OZ  ", "12.00")
    ensures ItemsPoints(items) == Ok(6)
  {
    UncountedMountainDew(items[0]);
    CountedPizza(items[1]);
    UncountedKnorr(items[2]);
    UncountedDoritos(items[3]);
    CountedKlarbrunn(items[4]);
    FiveItems(items, 0, 3, 0, 0, 3, 6);
  }

  /** The first three items earn the sum of what each earns. */
  lemma FirstThree(items: seq<Item>, a: int, b: int, c: int)
    requires |items| >= 3
    requires ItemPoints(items[0]) == Ok(a) && ItemPoints(items[1]) == Ok(b) && ItemPoints(items[2]) == Ok(c)
    ensures ItemsPoints(items[..3]) == Ok(a + b + c)
  {
    assert items[..0] == [];
    ItemsStepOk(items, 0, 0, a);
    ItemsStepOk(items, 1, a, b);
    ItemsStepOk(items, 2, a + b, c);
  }

  /** Five items earn the sum of what each earns. */
  lemma FiveItems(items: seq<Item>, a: int, b: int, c: int, d: int, e: int, sum: int)
    requires |items| == 5 && sum == a + b + c + d + e
    requires ItemPoints(items[0]) == Ok(a) && ItemPoints(items[1]) == Ok(b)
    requires ItemPoints(items[2]) == Ok(c) && ItemPoints(items[3]) == Ok(d)
    requires ItemPoints(items[4]) == Ok(e)
    ensures ItemsPoints(items) == Ok(sum)
  {
    FirstThree(items, a, b, c);
    ItemsStepOk(items, 3, a + b + c, d);
    ItemsStepOk(items, 4, a + b + c + d, e);
    assert items[..5] == items;
  }

  /** The Target receipt scores 28 under the published rules, and 33 with the above-10 bonus. */
  lemma TestTargetReceipt(r: Receipt)
    requires Has(r, "Target", "2022-01-01", "13:01", "35.35", [
      Item("Mountain Dew 12PK", "6.49"),
      Item("Emils Cheese Pizza", "12.25"),
      Item("Knorr Creamy Chicken", "1.26"),
      Item("Doritos Nacho Cheese", "3.35"),
      Item("   Klarbrunn 12-PK 12 FL OZ  ", "12.00")])
    ensures Score(r) == Ok(33)
  {
    TargetItems(r.items);
    AmountThirtyFive(r.total);
    BonusThirtyFive();
    CountTarget(r.retailer);
    DateJan1(r.purchaseDate);
    TimeOneOhOne(r.purchaseTime);
    ScoreOfParts(r, 35.35, 6, 6, 0, 33);
  }

  /** Four bottles of Gatorade earn nothing for their descriptions. */
  lemma GatoradeItems(items: seq<Item>)
    requires items == [Item("Gatorade", "2.25"), Item("Gatorade", "2.25"), Item("Gatorade", "2.25"), Item("Gatorade", "2.25")]
    ensures ItemsPoints(items) == Ok(0)
  {
    forall k | 0 <= k < |items|
      ensures ItemPoints(items[k]) == Ok(0)
    {
      UncountedGatorade(items[k]);
    }
    NothingEarned(items);
  }

  /** The score from what each rule earns, every rule's share given as a number. */
  lemma ScoreOfShares(r: Receipt, total: real, letters: int, bonus: int, pairs: int,
                      itemPoints: int, datePoints: int, timePoints: int, points: int)
    requires AlnumCount(r.retailer) == letters
    requires ParseDecimal(r.total) == Some(total) && TotalBonus(total) == bonus
    requires PairBonus(|r.items|) == pairs && ItemsPoints(r.items) == Ok(itemPoints)
    requires DatePoints(r.purchaseDate) == Ok(datePoints) && TimePoints(r.purchaseTime) == Ok(timePoints)
    requires points == letters + bonus + pairs + itemPoints + datePoints + timePoints
    ensures Score(r) == Ok(points)
  {
    ScoreOfParts(r, total, itemPoints, datePoints, timePoints, points);
  }

  /** Two complete pairs earn 10. */
  lemma TwoPairs(items: seq<Item>)
    requires |items| == 4
    ensures PairBonus(|items|) == 10
  {
  }

  /** The M&M Corner Market receipt scores 109. */
  lemma TestCornerMarketReceipt(r: Receipt)
    requires Has(r, "M&M Corner Market", "2022-03-20", "14:33", "9.00",
      [Item("Gatorade", "2.25"), Item("Gatorade", "2.25"), Item("Gatorade", "2.25"), Item("Gatorade", "2.25")])
    ensures Score(r) == Ok(109)
  {
    GatoradeItems(r.items);
    AmountNine(r.total);
    BonusNine();
    CountCornerMarket(r.retailer);
    DateMar20(r.purchaseDate);
    TimeTwoThirtyThree(r.purchaseTime);
    TwoPairs(r.items);
    ScoreOfShares(r, 9.0, 14, 75, 10, 0, 0, 10, 109);
  }

  /** One complete pair earns 5. */
  lemma OnePair(items: seq<Item>)
    requires |items| == 2
    ensures PairBonus(|items|) == 5
  {
  }

  /** Two items earn the sum of what each earns. */
  lemma TwoItems(items: seq<Item>, a: int, b: int, sum: int)
    requires |items| == 2 && sum == a + b
    requires ItemPoints(items[0]) == Ok(a) && ItemPoints(items[1]) == Ok(b)
    ensures ItemsPoints(items) == Ok(sum)
  {
    assert items[..0] == [];
    ItemsStepOk(items, 0, 0, a);
    ItemsStepOk(items, 1, a, b);
    assert items[..2] == items;
  }

  /** The receipt of the handler tests scores 107. */
  lemma TestHandlerReceipt(r: Receipt)
    requires Has(r, "Target", "2022-01-01", "15:01", "20.00", [Item("Pepsi", "2.00"), Item("Chips", "3.00")])
    ensures Score(r) == Ok(107)
  {
    UncountedPepsi(r.items[0]);
    UncountedChips(r.items[1]);
    TwoItems(r.items, 0, 0, 0);
    AmountTwenty(r.total);
    BonusTwenty();
    CountTarget(r.retailer);
    DateJan1(r.purchaseDate);
    TimeOneMinutePastThree(r.purchaseTime);
    OnePair(r.items);
    ScoreOfShares(r, 20.0, 6, 80, 5, 0, 6, 10, 107);
  }

  // ----- the sign test of the caller -----

  /**
   * Negative prices parse, so a counted item priced `-5` takes 1 point away: the
   * receipt scores -1, the number the program also returns for an unreadable total.
   */
  lemma NegativePriceScore(r: Receipt)
    requires Has(r, "", "2022-01-02", "10:00", "1.1", [Item("ABC", "-5")])
    ensures Score(r) == Ok(-1)
    ensures GoValue(Score(r)) == TotalParse.Sentinel()
  {
    AmountOnePointOne(r.total);
    BonusOnePointOne();
    CountedAbc(r.items[0]);
    SingleItem(r.items, -1);
    QuietReceipt(r, 1.1, -1, -1);
  }
}
