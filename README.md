# Receipt processor, modelled in Dafny

The receipt processor is a small web service. A client posts a purchase receipt
(retailer, date, time, total, items), and the service answers with an id. A later
request with that id answers with the points the receipt earns. The points are
computed by `calcPoints`, which applies these rules in order:

- one point per letter or digit of the retailer name;
- 50 for a whole-dollar total, 25 for a total that is a multiple of 0.25;
- 5 for every two items;
- `ceil(price * 0.2)` for every item whose trimmed description is a multiple of three
  bytes long;
- 5 for a total above 10;
- 6 for an odd day of purchase;
- 10 for a purchase after 14:00 and before 16:00.

A field that cannot be read stops the computation. `calcPoints` then returns a
negative number that names the failed check (-1 total, -6 price, -2 day, -3 time
shape, -4 hour, -5 minute). The points handler answers 400 for any negative number.

The model has these modules:

- `Receipts` (receipts.dfy): the submitted records, every field kept as text.
- `Text` (text.dfy): the `strings` and `unicode` operations the rules use: `TrimSpace`,
  `Split`, byte length and the character classes.
- `Numbers` (numbers.dfy): the `strconv` conversions: `Atoi`, `Itoa`, and `ParseFloat`
  on plain decimals, computed exactly. It also has `math.Ceil`.
- `Points` (points.dfy): the rules as functions, and their sum as `Score`. It also has
  the program's accumulating procedure, as the method `CalcPoints` proved to return
  `Score`, and the item loop as the method `ItemsRule`. `Outcome` is a score or the
  first failed check; `GoValue` maps it back to the single number the program returns.
- `PointsLaws` (points_laws.dfy): what the rules promise. This covers the order in which
  failures win, when a score exists, non-negativity, and the total, item, date and time
  rules one at a time.
- `PointsExamples` (points_examples.dfy): the worked receipts of the test suite, each
  stated for every receipt with the test's fields.
- `Store` (store.dfy): the service state (`memory` and `idCounter`) as the class
  `ReceiptStore`, with `generateID` and the two handlers. A reply is the status and
  payload the handler writes.
- `StoreExamples` (store_examples.dfy): the handler tests.

main.go holds a second copy of `isInteger`, `calcPoints` and both handlers
(main.go:57-201). It is identical to points.go and handlers.go apart from debug
output, so it is modelled once.

Where the receipt processor challenge's published rules and API description differ
from the code, the model follows the code:

- A date with fewer than three `-` pieces is not an error; it earns nothing for the day.
- Only the third piece is read; a date with more pieces still scores by its third (`DateExtraPiecesIgnored`).
- Negative prices parse, so an item can take points away. A receipt can then score a
  negative number. The handler answers 400 for it, as for a failure (`NegativePriceScore`).
- The time must split into exactly two `:` pieces of integers. Any integers are
  accepted, such as `99:99` or `-1:5`.
- The test of `TestCalcPoints_TrimLength` describes ` THEA  ` as four characters. It is
  four once trimmed, and it earns nothing.

## Model

| member | source | states |
|---|---|---|
| Points.IsInteger | points.go:12-14 | defines `isInteger`: the value has no fractional part |
| Points.AlnumCount | points.go:18-23 | defines the retailer rule: the number of letters and digits of the name |
| Points.TotalBonus | points.go:34-44 | defines the total rules: 50 for a whole dollar, 25 for a multiple of 0.25, and the 5 of lines 63-67 for a total above 10 |
| Points.PairBonus | points.go:47 | defines the pair rule: 5 per complete pair of items |
| Points.DescriptionCounts | points.go:51-52 | defines when an item counts: its trimmed description is a multiple of three bytes long |
| Points.ItemPoints | points.go:50-61 | defines what one item earns: `ceil(price * 0.2)` if it counts, a price failure if its counted price does not parse, else 0 |
| Points.ItemsPoints | points.go:50-61 | defines the item rule over the list: the sum of the items, or the first price failure |
| Points.DatePoints | points.go:69-82 | defines the date rule: the third `-` piece read as an integer, 6 if odd; a failure if it is not an integer; 0 for fewer than three pieces |
| Points.InAfternoonWindow | points.go:104 | defines the window test on hour and minute |
| Points.TimePoints | points.go:84-107 | defines the time rule: exactly two `:` pieces, hour then minute read as integers, 10 inside the window |
| Points.Score | points.go:16-110 | defines the score: the shares added up, or the first failure in the order total, items, date, time |
| Numbers.ParseDecimal | points.go:28 | defines `strconv.ParseFloat` on plain signed decimals, exactly; also used for prices at line 53 |
| Numbers.Atoi | points.go:72 | defines `strconv.Atoi`: an optional sign and one or more digits; also used for hour and minute at lines 91 and 97 |
| Numbers.Itoa | handlers.go:27 | defines `strconv.Itoa`: the canonical decimal rendering |
| Text.TrimSpace | points.go:51 | defines `strings.TrimSpace`: leading and trailing white space removed |
| Text.Split | points.go:70 | defines `strings.Split` on a one-character separator; also used for the time at line 85 |
| Text.Utf8Len | points.go:52 | defines `len` of a string: its length in UTF-8 bytes |
| Text.Utf8LenAppend | points.go:52 | the byte length of a concatenation is the sum of the byte lengths |
| Text.IsLetter | points.go:20 | defines `unicode.IsLetter` on Latin-1 |
| Text.IsDigit | points.go:20 | defines `unicode.IsDigit` on Latin-1 |
| Text.IsSpace | points.go:51 | defines the white space `strings.TrimSpace` removes: the Unicode White_Space characters |
| PointsLaws.DateExtraPiecesIgnored | points.go:70-72 | pieces after the third are never read: a date with more text after a fourth `-` scores as the date without it |
| Store.ReceiptStore.Valid | main.go:19-21 | the invariant of the table: its keys are exactly the ids handed out so far |
| Points.CalcPoints | points.go:16-110 | the procedure returns `Score` of the receipt: the sum of the rules, or the first failed check in the program's order |
| Points.ItemsRule | points.go:50-61 | the item loop returns what the description rule gives the item list: the sum over the items, or a price failure at the first unreadable counted price |
| Points.GoValue | points.go:28-109 | the number every return of `calcPoints` gives (31, 56, 75, 88, 94, 100 and 109): negative exactly for a failure or a negative score; each failure gives a number from -6 to -1 |
| Points.ErrorKind.Sentinel | points.go:28-101 | each failed check has its own negative code between -6 and -1 |
| PointsLaws.SentinelInjective | points.go:28-101 | distinct failures return distinct numbers |
| Points.ItemsErrorPersists | points.go:54-57 | once a prefix of the items fails, the whole list fails with the same error |
| Points.ItemsStepOk | points.go:50-61 | one more item adds what that item earns |
| Points.ItemsStepError | points.go:53-57 | an item with an unreadable counted price fails the whole list |
| Points.ScoreDateError | points.go:72-76 | with the total and items readable, an unreadable day is the outcome |
| Points.ScoreTimeError | points.go:85-101 | with total, items and day readable, a malformed time is the outcome |
| Points.ScoreOfParts | points.go:16-110 | when every check passes, the score is the retailer, total, pair, item, date and time shares added up |
| PointsLaws.IsIntegerIff | points.go:12-14 | a value is integral exactly when its floor equals its ceiling, and every integer is integral |
| PointsLaws.WholeDollarIsQuarter | points.go:35-44 | a whole-dollar total is always a multiple of a quarter, so it earns 75 |
| PointsLaws.TotalBonusValues | points.go:35-67 | the total earns 0, 5, 25, 30, 75 or 80 and nothing else |
| PointsLaws.WholeDollarCents | points.go:35-38 | a two-decimal total is a whole dollar exactly when its cents are a multiple of 100 |
| PointsLaws.QuarterCents | points.go:41-44 | a two-decimal total is a multiple of 0.25 exactly when its cents are a multiple of 25 |
| PointsLaws.TotalBonusCents | points.go:35-67 | the total bonus of a cent amount c in integer terms: a flat 50 when c is a multiple of 100, a flat 25 when c is a multiple of 25, and 5 when c exceeds 1000 |
| PointsLaws.CeilFifthCents | points.go:59 | the item points of a cent price are `(c + 499) / 500` |
| PointsLaws.AlnumCountPositions | points.go:18-23 | the retailer count is the number of positions holding a letter or a digit |
| PointsLaws.AlnumCountAppend | points.go:19-23 | the retailer count of a concatenation is the sum of the counts |
| PointsLaws.ItemsPointsFails | points.go:50-61 | the item rule fails exactly when some counted item's price does not parse, and then with a price failure |
| PointsLaws.SomeItemFailsLast | points.go:50-57 | a list has a failing item exactly when its prefix does or its last item does |
| PointsLaws.ItemsPointsSum | points.go:50-61 | when each item earns a known amount, the items earn the sum |
| PointsLaws.UncountedItem | points.go:51-52 | an item whose trimmed description is not a multiple of three bytes earns 0, whatever its price |
| PointsLaws.ItemsPointsReplace | points.go:50-61 | replacing an item by one earning the same leaves the item points unchanged |
| PointsLaws.UncountedPriceIgnored | points.go:51-53 | the price of an uncounted item is never read: changing it leaves the score unchanged |
| PointsLaws.ItemsPointsNonNegative | points.go:50-61 | with no negative prices, the items earn a non-negative amount |
| PointsLaws.ScoreNonNegative | points.go:16-110 | with no negative prices, every score is non-negative |
| PointsLaws.DateShortSkipped | points.go:70-71 | a date with fewer than two `-` earns 0 and never fails |
| PointsLaws.DateErrorNeedsPieces | points.go:70-76 | the date fails only with a day failure, and only when it has at least two `-` |
| PointsLaws.DateDayOnly | points.go:70-82 | a three-piece date scores by its day alone: 6 if odd, 0 if even, a failure if it is not an integer |
| PointsLaws.TimePartsIff | points.go:85-89 | the time fails for its shape exactly when it does not hold exactly one `:` |
| PointsLaws.TimeOfParts | points.go:85-107 | a time `H:M` fails on the hour, then on the minute, else earns 10 in the afternoon window |
| PointsLaws.AfternoonWindowMinutes | points.go:104 | for a real minute, the window is the open interval from 14:00 to 16:00 |
| PointsLaws.ErrorPrecedence | points.go:28-101 | the score is a failure of kind k exactly when check k fails and every earlier check passes |
| PointsLaws.ScoreOkIff | points.go:16-110 | a score exists exactly when no check fails |
| Text.TrimSpacePadded | points.go:51 | white space around a core that starts and ends with other characters is removed |
| Text.TrimSpaceIdempotent | points.go:51 | trimming twice is trimming once |
| Text.TrimSpaceShape | points.go:51 | the trimmed description is a slice of the original with no white space at either end |
| Text.Utf8LenBounds | points.go:52 | the byte length is between the character count and four times it; it equals the count exactly for ASCII |
| Text.SplitLength | points.go:70 | splitting gives one piece more than there are separators |
| Text.JoinSplit | points.go:85 | joining the pieces back with the separator gives the original text |
| Text.SplitJoin | points.go:85 | splitting a join of separator-free pieces gives the pieces back |
| Text.SplitPiecesFree | points.go:70 | no piece holds the separator |
| Numbers.AtoiItoa | handlers.go:27 | `Atoi` reads back every number `Itoa` renders |
| Numbers.ItoaInjective | handlers.go:27 | distinct counters give distinct ids |
| Numbers.ParsePointed | points.go:28 | digits, a point and digits parse to the whole part plus the fraction |
| Numbers.ParseFormatCents | points.go:28 | a two-decimal money string parses to exactly its number of hundredths |
| Numbers.Ceil | points.go:59 | the least integer not below the value |
| PointsExamples.TestRetailerName | points_test.go:6-20 | `Target123` earns 9 |
| PointsExamples.TestRoundDollar | points_test.go:23-46 | a total of `1.0` earns 75 |
| PointsExamples.TestNotRoundDollar | points_test.go:34-50 | a total of `1.3` earns 0 |
| PointsExamples.TestNotQuarter | points_test.go:54-66 | a total of `1.1` earns 0 |
| PointsExamples.TestMultipleQuarter | points_test.go:67-79 | a total of `0.50` earns 25 |
| PointsExamples.TestEveryTwo | points_test.go:83-131 | one, two and three items of an uncounted description earn 0, 5 and 5 |
| PointsExamples.TestTrimLength | points_test.go:134-148 | ` THE` at 3.0 earns 1 |
| PointsExamples.TestTrimLengthFour | points_test.go:150-164 | ` THEA  ` earns 0 |
| PointsExamples.TestAIHelp | points_test.go:168-181 | a total of `11.1` earns 5 |
| PointsExamples.TestOddDay | points_test.go:184-197 | `2022-01-01` earns 6 |
| PointsExamples.TestTimeOutside | points_test.go:200-278 | 13:00, 14:00 and 16:30 earn 0 |
| PointsExamples.TestTimeInside | points_test.go:226-252 | 14:30 and 15:30 earn 10 |
| PointsExamples.TestTargetReceipt | points_test.go:281-300 | the Target receipt scores 33, 28 without the above-10 bonus |
| PointsExamples.TestCornerMarketReceipt | points_test.go:300-317 | the M&M Corner Market receipt scores 109 |
| PointsExamples.NegativePriceScore | points.go:53-59 | a counted item priced `-5` makes the receipt score -1, the same number as a failed total |
| PointsExamples.TestHandlerReceipt | handlers_test.go:58-67 | the receipt of the handler tests scores 107 |
| Store.IssuedIdsNext | main.go:36-39 | the next id has not been handed out before, and it is the only id added |
| Store.IssuedIdsCount | main.go:36-39 | after n receipts there are n distinct ids |
| Store.IssuedIdsIff | handlers.go:27 | an id is known exactly when it is the canonical rendering of a number from 1 to the counter |
| Store.Reply | handlers.go:52-64 | a stored receipt gets 200 with its points exactly when it has a non-negative score; otherwise 400 |
| Store.ReceiptStore.constructor | main.go:19-21 | the service starts empty, with the counter at 0 |
| Store.ReceiptStore.GenerateId | main.go:36-39 | the counter goes up by one and its new value is returned |
| Store.ReceiptStore.Process | handlers.go:18-34 | a body that does not decode is refused with nothing changed; a receipt is stored under the next counter value's decimal id, a new key, with the other entries unchanged |
| Store.ReceiptStore.GetPoints | handlers.go:36-65 | 404 exactly for an id not in the table; otherwise the reply to the stored receipt's score |
| Store.ProcessThenFetch | handlers_test.go:54-92 | a receipt processed and then fetched by its id is found and answered according to its score |
| StoreExamples.TestProcessThenGetPoints | handlers_test.go:54-92 | the handler-test receipt is given an id, and fetching it answers 200 with 107 points |
| StoreExamples.TestUnknownId | handlers.go:44-48 | a fresh service answers 404 for every id |

## Left out

- HTTP routing, JSON encoding and decoding, response headers, and the default page are not modelled. A request body is given as its decoded receipt or as a decoding failure, and a reply is a status plus payload.
- The debug output (`fmt.Printf`, `fmt.Println`) has no effect on results and is left out.
- The handlers share `memory` and `idCounter` without a lock. Concurrent requests are not modelled, so each call is atomic.
- `idCounter` is a Go `int`. Its wrap-around after 2^63 ids is not modelled; the counter is unbounded.
- Numbers.ParseDecimal: `strconv.ParseFloat` is modelled on plain decimals with an optional sign, evaluated exactly as rationals. Exponents, `inf`, `nan`, hexadecimal floats, underscores, range errors and binary rounding are left out. Totals and prices are reals, so the model scores what the decimal text denotes, not its nearest `float64`.
- Points.IsInteger: `float64(int64(f)) == f` is modelled as "has no fractional part". The result of converting values beyond the `int64` range is left out.
- Numbers.Atoi: the overflow error `strconv.Atoi` reports beyond 64 bits is not modelled; such digit strings read as their value.
- Text.IsLetter: `unicode.IsLetter` and `unicode.IsDigit` are modelled on Latin-1 only. Characters above U+00FF count as neither.
- Text.Utf8Len: the byte length assumes every character is a valid code point. Invalid UTF-8 in the input is not modelled.
- Points.ItemsRule: the item loop is a method of its own instead of being inline in `CalcPoints`. Its result is the same.
