/**
 * What the scoring rules promise, stated about `Score` and the rule functions of
 * `Points`: each rule in isolation, the order in which failures win, and when the
 * score is non-negative.
 */
module PointsLaws {
  import opened Wrappers
  import opened Text
  import opened Numbers
  import opened Receipts
  import opened Points

  // ----- isInteger -----

  /** Distinct failures have distinct sentinels. */
  lemma SentinelInjective(a: ErrorKind, b: ErrorKind)
    ensures a.Sentinel() == b.Sentinel() ==> a == b
  {
  }

  /**
   * `isInteger(f)` holds exactly when `f` has no fractional part, that is when its
   * floor and its ceiling agree; every integer passes it.
   */
  lemma IsIntegerIff(f: real, n: int)
    ensures IsInteger(f) <==> f.Floor == Ceil(f)
    ensures IsInteger(n as real)
  {
    assert (n as real).Floor == n;
  }

  /** A whole-dollar total is also a multiple of a quarter, so +50 never comes without +25. */
  lemma WholeDollarIsQuarter(total: real)
    requires IsInteger(total)
    ensures IsInteger(total * 4.0)
  {
    var n := total.Floor;
    assert total * 4.0 == (4 * n) as real;
    assert (total * 4.0).Floor == 4 * n;
  }

  /** The total-based bonuses add up to one of six values. */
  lemma TotalBonusValues(total: real)
    ensures TotalBonus(total) in {0, 5, 25, 30, 75, 80}
  {
    if IsInteger(total) {
      WholeDollarIsQuarter(total);
    }
  }

  // ----- totals and prices given in cents -----

  /** A total of `c` cents is a whole dollar exactly when `c` is a multiple of 100. */
  lemma WholeDollarCents(c: int)
    ensures IsInteger(c as real / 100.0) <==> c % 100 == 0
  {
    var x := c as real / 100.0;
    if c % 100 == 0 {
      assert x == (c / 100) as real;
    }
    if IsInteger(x) {
      assert c == 100 * x.Floor;
    }
  }

  /** A total of `c` cents is a multiple of a quarter exactly when `c` is a multiple of 25. */
  lemma QuarterCents(c: int)
    ensures IsInteger(c as real / 100.0 * 4.0) <==> c % 25 == 0
  {
    var x := c as real / 100.0 * 4.0;
    assert x == c as real / 25.0;
    if c % 25 == 0 {
      assert x == (c / 25) as real;
    }
    if IsInteger(x) {
      assert c == 25 * x.Floor;
    }
  }

  /** The total-based bonuses of a total of `c` cents, in integer terms. */
  lemma TotalBonusCents(c: int)
    ensures TotalBonus(c as real / 100.0) ==
      (if c % 100 == 0 then 50 else 0) + (if c % 25 == 0 then 25 else 0) + (if c > 1000 then 5 else 0)
  {
    WholeDollarCents(c);
    QuarterCents(c);
  }

  /** `ceil(price * 0.2)` of a price of `c` cents is `c / 500` rounded up. */
  lemma CeilFifthCents(c: int)
    ensures Ceil(c as real / 100.0 * 0.2) == (c + 499) / 500
  {
    var x := c as real / 100.0 * 0.2;
    assert x == c as real / 500.0;
    var q := (c + 499) / 500;
    assert 500 * q <= c + 499 < 500 * q + 500;
    assert (q - 1) as real < x <= q as real;
  }

  // ----- the retailer rule -----

  /** The retailer rule counts the positions holding a letter or a digit. */
  lemma {:induction false} AlnumCountPositions(s: string)
    ensures AlnumCount(s) == |set i | 0 <= i < |s| && IsAlnum(s[i])|
    decreases |s|
  {
    if s != [] {
      var n := |s| - 1;
      var init := s[..n];
      AlnumCountPositions(init);
      var before := set i | 0 <= i < n && IsAlnum(init[i]);
      var after := set i | 0 <= i < |s| && IsAlnum(s[i]);
      if IsAlnum(s[n]) {
        assert after == before + {n};
      } else {
        assert after == before;
      }
    }
  }

  /** The retailer rule counts each character on its own: the count of a join is the sum. */
  lemma {:induction false} AlnumCountAppend(a: string, b: string)
    ensures AlnumCount(a + b) == AlnumCount(a) + AlnumCount(b)
    decreases |b|
  {
    if b == [] {
      assert a + b == a;
    } else {
      var n := |b| - 1;
      assert (a + b)[..|a + b| - 1] == a + b[..n];
      AlnumCountAppend(a, b[..n]);
    }
  }

  // ----- the item rule -----

  /** Some item of the list has a description that counts and a price that does not parse. */
  predicate SomeItemFails(items: seq<Item>) {
    exists k :: 0 <= k < |items| && ItemPoints(items[k]).Error?
  }

  /** The item rule fails exactly when some item fails it, and then with `ItemPrice`. */
  lemma {:induction false} ItemsPointsFails(items: seq<Item>)
    ensures ItemsPoints(items).Error? <==> SomeItemFails(items)
    ensures ItemsPoints(items).Error? ==> ItemsPoints(items) == Error(ItemPrice)
    decreases |items|
  {
    if items != [] {
      var n := |items| - 1;
      var init := items[..n];
      ItemsPointsFails(init);
      SomeItemFailsLast(items);
    }
  }

  /** A list has a failing item when its initial part or its last item has one. */
  lemma SomeItemFailsLast(items: seq<Item>)
    requires items != []
    ensures SomeItemFails(items) <==>
      SomeItemFails(items[..|items| - 1]) || ItemPoints(items[|items| - 1]).Error?
  {
    var n := |items| - 1;
    var init := items[..n];
    if SomeItemFails(init) {
      var k :| 0 <= k < |init| && ItemPoints(init[k]).Error?;
      assert items[k] == init[k];
    }
    if SomeItemFails(items) {
      var k :| 0 <= k < |items| && ItemPoints(items[k]).Error?;
      if k < n {
        assert init[k] == items[k];
      }
    }
  }

  function Sum(ps: seq<int>): int
    decreases |ps|
  {
    if ps == [] then 0 else Sum(ps[..|ps| - 1]) + ps[|ps| - 1]
  }

  /** When every item earns its points, the item rule adds up what they earn. */
  lemma {:induction false} ItemsPointsSum(items: seq<Item>, earned: seq<int>)
    requires |earned| == |items|
    requires forall k :: 0 <= k < |items| ==> ItemPoints(items[k]) == Ok(earned[k])
    ensures ItemsPoints(items) == Ok(Sum(earned))
    decreases |items|
  {
    if items != [] {
      var n := |items| - 1;
      assert forall k :: 0 <= k < n ==> items[..n][k] == items[k] && earned[..n][k] == earned[k];
      ItemsPointsSum(items[..n], earned[..n]);
    }
  }

  /** An item whose description does not count earns nothing, whatever its price says. */
  lemma UncountedItem(item: Item)
    requires !DescriptionCounts(item.shortDescription)
    ensures ItemPoints(item) == Ok(0)
  {
  }

  /** Replacing an item by one that earns the same leaves the item rule unchanged. */
  lemma {:induction false} ItemsPointsReplace(items: seq<Item>, k: nat, other: Item)
    requires k < |items|
    requires ItemPoints(other) == ItemPoints(items[k])
    ensures ItemsPoints(items[k := other]) == ItemsPoints(items)
    decreases |items|
  {
    var changed := items[k := other];
    var n := |items| - 1;
    if k < n {
      assert changed[..n] == items[..n][k := other];
      ItemsPointsReplace(items[..n], k, other);
    } else {
      assert changed[..n] == items[..n];
    }
    assert changed[n] == if k == n then other else items[n];
  }

  /**
   * The price of an item whose description does not count is never read: replacing it
   * by any text leaves the score unchanged.
   */
  lemma UncountedPriceIgnored(r: Receipt, k: nat, price: string)
    requires k < |r.items|
    requires !DescriptionCounts(r.items[k].shortDescription)
    ensures Score(r.(items := r.items[k := r.items[k].(price := price)])) == Score(r)
  {
    var other := r.items[k].(price := price);
    UncountedItem(other);
    UncountedItem(r.items[k]);
    ItemsPointsReplace(r.items, k, other);
  }

  /** With no negative price among the counted items, the item rule adds no negative amount. */
  lemma {:induction false} ItemsPointsNonNegative(items: seq<Item>)
    requires forall k :: 0 <= k < |items| ==> NoNegativePrice(items[k])
    ensures ItemsPoints(items).Ok? ==> ItemsPoints(items).points >= 0
    decreases |items|
  {
    if items != [] {
      var n := |items| - 1;
      ItemsPointsNonNegative(items[..n]);
      assert NoNegativePrice(items[n]);
    }
  }

  /** The price of an item, where it parses, is not negative. */
  predicate NoNegativePrice(item: Item) {
    match ParseDecimal(item.price)
    case None => true
    case Some(price) => price >= 0.0
  }

  // ----- the date rule -----

  /** A date with fewer than two `-` has fewer than three pieces and earns nothing, without error. */
  lemma DateShortSkipped(date: string)
    requires Count(date, '-') < 2
    ensures DatePoints(date) == Ok(0)
  {
    SplitLength(date, '-');
  }

  /** The date rule fails only with `DateDay`, and only on a date with at least two `-`. */
  lemma DateErrorNeedsPieces(date: string)
    ensures DatePoints(date).Error? ==> DatePoints(date) == Error(DateDay) && Count(date, '-') >= 2
  {
    SplitLength(date, '-');
  }

  /**
   * On a date `year-month-day`, only the day is read: the year and the month may be any
   * text free of `-`, and the rule adds 6 for an odd day, 0 for an even one, and fails
   * when the day is not an integer.
   */
  lemma DateDayOnly(year: string, month: string, day: string)
    requires '-' !in year && '-' !in month && '-' !in day
    ensures DatePoints(year + "-" + month + "-" + day) ==
      match Atoi(day)
      case None => Error(DateDay)
      case Some(d) => Ok(if d % 2 != 0 then 6 else 0)
  {
    assert year + "-" + month + "-" + day == year + ['-'] + (month + ['-'] + day);
    SplitAtFirst(year, month + ['-'] + day, '-');
    SplitAtFirst(month, day, '-');
    SplitFree(day, '-');
  }

  /**
   * Pieces after the third are never read: a date with more text after a fourth `-`
   * scores as the date without it, whatever that text holds.
   */
  lemma DateExtraPiecesIgnored(year: string, month: string, day: string, rest: string)
    requires '-' !in year && '-' !in month && '-' !in day
    ensures DatePoints(year + "-" + month + "-" + day + "-" + rest) ==
            DatePoints(year + "-" + month + "-" + day)
  {
    DateDayOnly(year, month, day);
    var tail := day + ['-'] + rest;
    assert year + "-" + month + "-" + day + "-" + rest == year + ['-'] + (month + ['-'] + tail);
    SplitAtFirst(year, month + ['-'] + tail, '-');
    SplitAtFirst(month, tail, '-');
    SplitAtFirst(day, rest, '-');
  }

  // ----- the time rule -----

  /** A time without exactly one `:` fails with `TimeParts`, and only such a time does. */
  lemma TimePartsIff(time: string)
    ensures TimePoints(time) == Error(TimeParts) <==> Count(time, ':') != 1
  {
    SplitLength(time, ':');
  }

  /**
   * On a time `hour:minute`, the hour is read first, then the minute, and the rule adds
   * 10 exactly inside the afternoon window.
   */
  lemma TimeOfParts(hour: string, minute: string)
    requires ':' !in hour && ':' !in minute
    ensures TimePoints(hour + ":" + minute) ==
      match Atoi(hour)
      case None => Error(TimeHour)
      case Some(h) =>
        match Atoi(minute)
        case None => Error(TimeMinute)
        case Some(m) => Ok(if InAfternoonWindow(h, m) then 10 else 0)
  {
    SplitAtFirst(hour, minute, ':');
    SplitFree(minute, ':');
    assert [hour] + [minute] == [hour, minute];
  }

  /**
   * For a minute in 0..59, the afternoon window is the open interval from 14:00 to 16:00:
   * 14:00 itself does not count, and neither does 16:00.
   */
  lemma AfternoonWindowMinutes(hour: int, minute: int)
    requires 0 <= minute < 60
    ensures InAfternoonWindow(hour, minute) <==> 14 * 60 < hour * 60 + minute < 16 * 60
  {
  }

  // ----- the order of the checks -----

  /** The check of kind `k` fails on the receipt, regardless of the other checks. */
  predicate FailsAt(r: Receipt, k: ErrorKind) {
    var time := Split(r.purchaseTime, ':');
    match k
    case TotalParse => ParseDecimal(r.total).None?
    case ItemPrice => SomeItemFails(r.items)
    case DateDay => DatePoints(r.purchaseDate).Error?
    case TimeParts => |time| != 2
    case TimeHour => |time| == 2 && Atoi(time[0]).None?
    case TimeMinute => |time| == 2 && Atoi(time[1]).None?
  }

  /** No check ranked before `k` fails on the receipt. */
  predicate PassesBefore(r: Receipt, k: ErrorKind) {
    forall e: ErrorKind :: e.Rank() < k.Rank() ==> !FailsAt(r, e)
  }

  /**
   * Scoring fails with `k` exactly when check `k` fails and every check before it
   * passes: the first failing check, in the program's order, decides the result.
   */
  lemma ErrorPrecedence(r: Receipt, k: ErrorKind)
    ensures Score(r) == Error(k) <==> FailsAt(r, k) && PassesBefore(r, k)
  {
    ItemsPointsFails(r.items);
    DateErrorNeedsPieces(r.purchaseDate);
    if FailsAt(r, k) && PassesBefore(r, k) {
      assert !FailsAt(r, TotalParse) || k == TotalParse;
      if k.Rank() >= 1 { assert !FailsAt(r, TotalParse); }
      if k.Rank() >= 2 { assert !FailsAt(r, ItemPrice); }
      if k.Rank() >= 3 { assert !FailsAt(r, DateDay); }
      if k.Rank() >= 4 { assert !FailsAt(r, TimeParts); }
      if k.Rank() >= 5 { assert !FailsAt(r, TimeHour); }
    }
  }

  /** Scoring succeeds exactly when no check fails. */
  lemma ScoreOkIff(r: Receipt)
    ensures Score(r).Ok? <==> forall k: ErrorKind :: !FailsAt(r, k)
  {
    ItemsPointsFails(r.items);
    DateErrorNeedsPieces(r.purchaseDate);
    if Score(r).Error? {
      ErrorPrecedence(r, Score(r).kind);
    }
  }

  /** The score is not negative when no price that parses is negative. */
  lemma ScoreNonNegative(r: Receipt)
    requires forall k :: 0 <= k < |r.items| ==> NoNegativePrice(r.items[k])
    ensures Score(r).Ok? ==> Score(r).points >= 0
  {
    ItemsPointsNonNegative(r.items);
  }
}
