/**
 * The scoring engine: `calcPoints` and `isInteger`. `Score` states the rules as one
 * function of the receipt; `CalcPoints` is the accumulating procedure of the program,
 * proved to compute `Score`. The lemmas state what the rules promise.
 */
module Points {
  import opened Wrappers
  import opened Text
  import opened Numbers
  import opened Receipts

  /** The ways scoring fails, in the order the checks run. */
  datatype ErrorKind = TotalParse | ItemPrice | DateDay | TimeParts | TimeHour | TimeMinute
  {
    /** The negative number the program returns in place of a score; each kind has its own. */
    function Sentinel(): (code: int)
      ensures -6 <= code <= -1
    {
      match this
      case TotalParse => -1
      case DateDay => -2
      case TimeParts => -3
      case TimeHour => -4
      case TimeMinute => -5
      case ItemPrice => -6
    }

    /** The position of the check in the scoring procedure. */
    function Rank(): nat {
      match this
      case TotalParse => 0
      case ItemPrice => 1
      case DateDay => 2
      case TimeParts => 3
      case TimeHour => 4
      case TimeMinute => 5
    }
  }

  /** A score, or the first failed check. */
  datatype Outcome = Ok(points: int) | Error(kind: ErrorKind)

  /**
   * The single number the program returns: the score, or the sentinel of the failure.
   * It is negative exactly for a failure or a negative score, so a caller testing the
   * sign cannot tell the two apart.
   */
  function GoValue(o: Outcome): (v: int)
    ensures v < 0 <==> o.Error? || o.points < 0
    ensures o.Error? ==> -6 <= v <= -1
  {
    match o
    case Ok(p) => p
    case Error(k) => k.Sentinel()
  }

  /** `isInteger`: the value has no fractional part. */
  predicate IsInteger(f: real) {
    f.Floor as real == f
  }

  // ----- the rules, one function each -----

  predicate IsAlnum(c: char) {
    IsLetter(c) || IsDigit(c)
  }

  /** One point per letter or digit of the retailer name. */
  function AlnumCount(s: string): nat
    decreases |s|
  {
    if s == [] then 0 else AlnumCount(s[..|s| - 1]) + (if IsAlnum(s[|s| - 1]) then 1 else 0)
  }

  /** 50 for a whole-dollar total, 25 for a multiple of a quarter, 5 for a total above 10. */
  function TotalBonus(total: real): nat {
    (if IsInteger(total) then 50 else 0)
    + (if IsInteger(total * 4.0) then 25 else 0)
    + (if total > 10.0 then 5 else 0)
  }

  /** 5 per complete pair of items. */
  function PairBonus(count: nat): nat {
    5 * (count / 2)
  }

  /** The description rule applies when the trimmed description is a multiple of 3 bytes long. */
  predicate DescriptionCounts(description: string) {
    Utf8Len(TrimSpace(description)) % 3 == 0
  }

  /** An item earns the ceiling of a fifth of its price if its description counts. */
  function ItemPoints(item: Item): Outcome {
    if DescriptionCounts(item.shortDescription) then
      match ParseDecimal(item.price)
      case None => Error(ItemPrice)
      case Some(price) => Ok(Ceil(price * 0.2))
    else
      Ok(0)
  }

  /** The description rule over the items, the first unreadable counted price failing it. */
  function ItemsPoints(items: seq<Item>): Outcome
    decreases |items|
  {
    if items == [] then
      Ok(0)
    else
      match ItemsPoints(items[..|items| - 1])
      case Error(k) => Error(k)
      case Ok(p) =>
        match ItemPoints(items[|items| - 1])
        case Error(k) => Error(k)
        case Ok(q) => Ok(p + q)
  }

  /** 6 for an odd day; only the third `-` piece is read, and a date of fewer pieces earns nothing. */
  function DatePoints(date: string): Outcome {
    var parts := Split(date, '-');
    if |parts| >= 3 then
      match Atoi(parts[2])
      case None => Error(DateDay)
      case Some(day) => Ok(if day % 2 != 0 then 6 else 0)
    else
      Ok(0)
  }

  /** The purchase time lies after 14:00 and before 16:00. */
  predicate InAfternoonWindow(hour: int, min: int) {
    (hour > 14 || (hour == 14 && min > 0)) && hour < 16
  }

  /** 10 for a purchase in the afternoon window; the time must be two `:` pieces of integers. */
  function TimePoints(time: string): Outcome {
    var parts := Split(time, ':');
    if |parts| != 2 then
      Error(TimeParts)
    else
      match Atoi(parts[0])
      case None => Error(TimeHour)
      case Some(hour) =>
        match Atoi(parts[1])
        case None => Error(TimeMinute)
        case Some(min) => Ok(if InAfternoonWindow(hour, min) then 10 else 0)
  }

  /** The score of a receipt: the sum of the rules, unless a check fails, the first failure winning. */
  function Score(r: Receipt): Outcome {
    match ParseDecimal(r.total)
    case None => Error(TotalParse)
    case Some(total) =>
      var items := ItemsPoints(r.items);
      var date := DatePoints(r.purchaseDate);
      var time := TimePoints(r.purchaseTime);
      if items.Error? then items
      else if date.Error? then date
      else if time.Error? then time
      else
        Ok(AlnumCount(r.retailer) + TotalBonus(total) + PairBonus(|r.items|)
           + items.points + date.points + time.points)
  }

  // ----- the scoring procedure -----

  /** Once a prefix of the items fails the description rule, the whole list fails the same way. */
  lemma {:induction false} ItemsErrorPersists(items: seq<Item>, i: nat)
    requires i <= |items|
    requires ItemsPoints(items[..i]).Error?
    ensures ItemsPoints(items) == ItemsPoints(items[..i])
    decreases |items| - i
  {
    if i == |items| {
      assert items[..i] == items;
    } else {
      assert items[..i + 1][..i] == items[..i];
      assert ItemsPoints(items[..i + 1]) == ItemsPoints(items[..i]);
      ItemsErrorPersists(items, i + 1);
    }
  }

  /** One more item: a prefix extended by an item that earns `q` earns `q` more. */
  lemma ItemsStepOk(items: seq<Item>, i: nat, p: int, q: int)
    requires i < |items|
    requires ItemsPoints(items[..i]) == Ok(p) && ItemPoints(items[i]) == Ok(q)
    ensures ItemsPoints(items[..i + 1]) == Ok(p + q)
  {
    assert items[..i + 1][..i] == items[..i];
  }

  /** One more item: an item with an unreadable counted price fails the whole list. */
  lemma ItemsStepError(items: seq<Item>, i: nat, p: int)
    requires i < |items|
    requires ItemsPoints(items[..i]) == Ok(p) && ItemPoints(items[i]) == Error(ItemPrice)
    ensures ItemsPoints(items) == Error(ItemPrice)
  {
    assert items[..i + 1][..i] == items[..i];
    ItemsErrorPersists(items, i + 1);
  }

  /** The checks before the date all pass; the outcome is then decided by the date and time rules. */
  predicate PassesUpToDate(r: Receipt, total: real) {
    ParseDecimal(r.total) == Some(total) && ItemsPoints(r.items).Ok?
  }

  lemma ScoreDateError(r: Receipt, total: real)
    requires PassesUpToDate(r, total) && DatePoints(r.purchaseDate).Error?
    ensures Score(r) == DatePoints(r.purchaseDate)
  {
  }

  lemma ScoreTimeError(r: Receipt, total: real)
    requires PassesUpToDate(r, total) && DatePoints(r.purchaseDate).Ok?
    requires TimePoints(r.purchaseTime).Error?
    ensures Score(r) == TimePoints(r.purchaseTime)
  {
  }

  /** When every check passes, the score is the sum of the rules. */
  lemma ScoreOfParts(r: Receipt, total: real, itemPoints: int, datePoints: int, timePoints: int, points: int)
    requires ParseDecimal(r.total) == Some(total)
    requires ItemsPoints(r.items) == Ok(itemPoints)
    requires DatePoints(r.purchaseDate) == Ok(datePoints)
    requires TimePoints(r.purchaseTime) == Ok(timePoints)
    requires points == AlnumCount(r.retailer) + TotalBonus(total) + PairBonus(|r.items|)
                       + itemPoints + datePoints + timePoints
    ensures Score(r) == Ok(points)
  {
  }

  /** The item section of `calcPoints`: the points the descriptions earn, or the first unreadable price. */
  method ItemsRule(items: seq<Item>) returns (result: Outcome)
    ensures result == ItemsPoints(items)
  {
    var points := 0;
    for i := 0 to |items|
      invariant ItemsPoints(items[..i]) == Ok(points)
    {
      var item := items[i];
      var trimmed := TrimSpace(item.shortDescription);
      if Utf8Len(trimmed) % 3 == 0 {
        var price := ParseDecimal(item.price);
        if price.None? {
          assert ItemPoints(item) == Error(ItemPrice);
          ItemsStepError(items, i, points);
          return Error(ItemPrice);
        }
        var earned := Ceil(price.value * 0.2);
        assert ItemPoints(item) == Ok(earned);
        ItemsStepOk(items, i, points, earned);
        points := points + earned;
      } else {
        assert ItemPoints(item) == Ok(0);
        ItemsStepOk(items, i, points, 0);
      }
    }
    assert items[..|items|] == items;
    return Ok(points);
  }

  /**
   * `calcPoints`: adds up the rules in the program's order, returning at the first
   * failed check; its result is the score of the receipt.
   */
  method CalcPoints(receipt: Receipt) returns (result: Outcome)
    ensures result == Score(receipt)
  {
    var retailer := receipt.retailer;
    var points := 0;
    for i := 0 to |retailer|
      invariant points == AlnumCount(retailer[..i])
    {
      assert retailer[..i + 1][..i] == retailer[..i];
      var c := retailer[i];
      if IsLetter(c) || IsDigit(c) {
        points := points + 1;
      }
    }
    assert retailer[..|retailer|] == retailer;
    ghost var fromRetailer := points;
    var parsedTotal := ParseDecimal(receipt.total);
    if parsedTotal.None? {
      return Error(TotalParse);
    }
    var total := parsedTotal.value;
    ghost var bonus: nat := 0;
    if IsInteger(total) {
      points := points + 50;
      bonus := 50;
    }
    if IsInteger(total * 4.0) {
      points := points + 25;
      bonus := bonus + 25;
    }
    points := points + 5 * (|receipt.items| / 2);
    assert points == fromRetailer + bonus + PairBonus(|receipt.items|);
    assert bonus == TotalBonus(total) - (if total > 10.0 then 5 else 0);
    var fromItems := ItemsRule(receipt.items);
    if fromItems.Error? {
      return fromItems;
    }
    points := points + fromItems.points;
    if total > 10.0 {
      points := points + 5;
      bonus := bonus + 5;
    }
    assert bonus == TotalBonus(total);
    ghost var beforeDate := points;
    var date := Split(receipt.purchaseDate, '-');
    if |date| >= 3 {
      var day := Atoi(date[2]);
      if day.None? {
        ScoreDateError(receipt, total);
        return Error(DateDay);
      }
      // Go's % truncates toward zero and Dafny's is Euclidean; both are zero exactly for even days.
      if day.value % 2 != 0 {
        points := points + 6;
      }
    }
    ghost var fromDate := points - beforeDate;
    assert DatePoints(receipt.purchaseDate) == Ok(fromDate);
    ghost var beforeTime := points;
    var time := Split(receipt.purchaseTime, ':');
    if |time| != 2 {
      ScoreTimeError(receipt, total);
      return Error(TimeParts);
    }
    var hour := Atoi(time[0]);
    if hour.None? {
      ScoreTimeError(receipt, total);
      return Error(TimeHour);
    }
    var min := Atoi(time[1]);
    if min.None? {
      ScoreTimeError(receipt, total);
      return Error(TimeMinute);
    }
    if (hour.value > 14 || (hour.value == 14 && min.value > 0)) && hour.value < 16 {
      points := points + 10;
    }
    ghost var fromTime := points - beforeTime;
    assert TimePoints(receipt.purchaseTime) == Ok(fromTime);
    assert points == fromRetailer + TotalBonus(total) + PairBonus(|receipt.items|)
      + fromItems.points + fromDate + fromTime;
    ScoreOfParts(receipt, total, fromItems.points, fromDate, fromTime, points);
    return Ok(points);
  }
}
