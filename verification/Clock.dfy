/**
 Time stamps (src/core/clock.cpp, parseIso8601Millis): the day number in closed form, against a
 plain count of days by the lengths of years and months, and the parser against a printer.
 */
module Clock {
  import opened Division

  // ---- the calendar ----

  predicate Leap(year: int) { year % 4 == 0 && (year % 100 != 0 || year % 400 == 0) }

  function YearLength(year: int): int { if Leap(year) then 366 else 365 }

  function MonthLength(year: int, month: int): int {
    if month == 2 then (if Leap(year) then 29 else 28)
    else if month == 4 || month == 6 || month == 9 || month == 11 then 30
    else 31
  }

  datatype Date = Date(year: nat, month: int, day: int)

  predicate Valid(d: Date) { 1 <= d.month <= 12 && 1 <= d.day <= MonthLength(d.year, d.month) }

  // Days in the years 0..year - 1, and in the months before `month`.
  function DaysBeforeYear(year: nat): nat {
    if year == 0 then 0 else DaysBeforeYear(year - 1) + YearLength(year - 1)
  }

  function DaysBeforeMonth(year: int, month: int): int
    decreases month
  {
    if month <= 1 then 0 else DaysBeforeMonth(year, month - 1) + MonthLength(year, month - 1)
  }

  function DaysFromYear0(d: Date): int { DaysBeforeYear(d.year) + DaysBeforeMonth(d.year, d.month) + d.day - 1 }

  /** Days since 1970-01-01, counted out. */
  function Counted(d: Date): int { DaysFromYear0(d) - DaysFromYear0(Date(1970, 1, 1)) }

  /** Days since 1970-01-01 as the code computes them; division there truncates toward zero. */
  function DayNumber(year: nat, month: int, day: int): int {
    var y := year - (if month <= 2 then 1 else 0);
    var era := if y >= 0 then y / 400 else -((399 - y) / 400);
    var yoe := y - era * 400;
    var mp := month + (if month > 2 then -3 else 9);
    var doy := (153 * mp + 2) / 5 + day - 1;
    var doe := yoe * 365 + yoe / 4 - yoe / 100 + doy;
    era * 146097 + doe - 719468
  }

  // ---- the closed form counts ----

  // Leap years among 0..year.
  function Leaps(year: int): int { year / 4 - year / 100 + year / 400 + 1 }

  lemma LeapsStep(year: nat)
    ensures Leaps(year) == Leaps(year - 1) + (if Leap(year) then 1 else 0)
  {
    QuotientStep(year, 4);
    QuotientStep(year, 100);
    QuotientStep(year, 400);
    Multiples(year);
  }

  lemma QuotientStep(x: int, d: int)
    requires d > 0
    ensures x / d == (x - 1) / d + (if x % d == 0 then 1 else 0)
  {
    var q, r := x / d, x % d;
    if r == 0 {
      assert x - 1 == d * (q - 1) + (d - 1);
      Quotient(x - 1, d, q - 1, d - 1);
    } else {
      Quotient(x - 1, d, q, r - 1);
    }
  }

  lemma Multiples(x: int)
    ensures x % 400 == 0 ==> x % 100 == 0
    ensures x % 100 == 0 ==> x % 4 == 0
  {
    if x % 400 == 0 { Quotient(x, 100, 4 * (x / 400), 0); }
    if x % 100 == 0 { Quotient(x, 4, 25 * (x / 100), 0); }
  }

  lemma {:induction false} YearsInClosedForm(year: nat)
    ensures DaysBeforeYear(year) == 365 * year + Leaps(year - 1)
    decreases year
  {
    if year > 0 {
      YearsInClosedForm(year - 1);
      LeapsStep(year - 1);
    }
  }

  // Days before each month, from the table of month lengths.
  lemma MonthTable(year: int, month: int)
    requires 1 <= month <= 12
    ensures var leap := if Leap(year) then 1 else 0;
      DaysBeforeMonth(year, month) == match month
        case 1 => 0 case 2 => 31 case 3 => 59 + leap case 4 => 90 + leap case 5 => 120 + leap case 6 => 151 + leap
        case 7 => 181 + leap case 8 => 212 + leap case 9 => 243 + leap case 10 => 273 + leap
        case 11 => 304 + leap case _ => 334 + leap
  {
    if month > 1 { MonthTable(year, month - 1); }
  }

  // The same from a year that begins in March.
  lemma MarchTable(month: int)
    requires 1 <= month <= 12
    ensures var mp := month + (if month > 2 then -3 else 9);
      (153 * mp + 2) / 5 == match month
        case 1 => 306 case 2 => 337 case 3 => 0 case 4 => 31 case 5 => 61 case 6 => 92 case 7 => 122
        case 8 => 153 case 9 => 184 case 10 => 214 case 11 => 245 case _ => 275
  {
  }

  // The days of whole eras and of the years within one are those of the years since year 0.
  lemma EraSplit(y: nat)
    ensures var era := y / 400; var yoe := y - era * 400;
      era * 146097 + yoe * 365 + yoe / 4 - yoe / 100 == 365 * y + Leaps(y) - 1
  {
    var era, yoe := y / 400, y % 400;
    Quotient(y, 4, 100 * era + yoe / 4, yoe % 4);
    Quotient(y, 100, 4 * era + yoe / 100, yoe % 100);
  }

  lemma CountedInClosedForm(d: Date)
    ensures Counted(d) == 365 * d.year + Leaps(d.year - 1) + DaysBeforeMonth(d.year, d.month) + d.day - 1 - 719528
  {
    YearsInClosedForm(d.year);
    YearsInClosedForm(1970);
  }

  lemma CountFromMarch(d: Date)
    requires Valid(d) && d.month > 2
    ensures DayNumber(d.year, d.month, d.day)
         == 365 * d.year + Leaps(d.year - 1) + DaysBeforeMonth(d.year, d.month) + d.day - 1 - 719528
  {
    MarchToMonth(d.year, d.month);
    EraSplit(d.year);
    LeapsStep(d.year);
  }

  lemma MarchToMonth(year: int, month: int)
    requires 3 <= month <= 12
    ensures DaysBeforeMonth(year, month) == (153 * (month - 3) + 2) / 5 + 59 + (if Leap(year) then 1 else 0)
  {
    MonthTable(year, month);
    MarchTable(month);
  }

  lemma CountToFebruary(d: Date)
    requires Valid(d) && d.month <= 2
    ensures DayNumber(d.year, d.month, d.day)
         == 365 * d.year + Leaps(d.year - 1) + DaysBeforeMonth(d.year, d.month) + d.day - 1 - 719528
  {
    MonthTable(d.year, d.month);
    MarchTable(d.month);
    if d.year > 0 { EraSplit(d.year - 1); }
  }

  /** The closed form is the count, for every date from year 0 on. */
  lemma DayNumberCounts(d: Date)
    requires Valid(d)
    ensures DayNumber(d.year, d.month, d.day) == Counted(d)
  {
    CountedInClosedForm(d);
    if d.month > 2 {
      CountFromMarch(d);
    } else {
      CountToFebruary(d);
    }
  }

  /** The day after. */
  function Tomorrow(d: Date): Date {
    if d.day < MonthLength(d.year, d.month) then d.(day := d.day + 1)
    else if d.month < 12 then Date(d.year, d.month + 1, 1)
    else Date(d.year + 1, 1, 1)
  }

  lemma TomorrowCounts(d: Date)
    requires Valid(d)
    ensures Valid(Tomorrow(d)) && DaysFromYear0(Tomorrow(d)) == DaysFromYear0(d) + 1
  {
    if d.day == MonthLength(d.year, d.month) && d.month == 12 { DecemberEndsTheYear(d.year); }
  }

  lemma DecemberEndsTheYear(year: nat)
    ensures DaysBeforeMonth(year, 12) + 31 == YearLength(year)
  {
    MonthTable(year, 12);
  }

  function Midnight(d: Date): int { DayNumber(d.year, d.month, d.day) * 24 * 60 * 60000 }

  /** From each midnight to the next there are 86,400,000 ms. */
  lemma DaysAreEqual(d: Date)
    requires Valid(d)
    ensures Midnight(Tomorrow(d)) == Midnight(d) + 86_400_000
  {
    TomorrowCounts(d);
    DayNumberCounts(d);
    DayNumberCounts(Tomorrow(d));
  }

  predicate Before(a: Date, b: Date) {
    a.year < b.year || (a.year == b.year && (a.month < b.month || (a.month == b.month && a.day < b.day)))
  }

  lemma {:induction false} YearsGrow(a: nat, b: nat)
    requires a < b
    ensures DaysBeforeYear(a) + YearLength(a) <= DaysBeforeYear(b)
    decreases b
  {
    if a < b - 1 { YearsGrow(a, b - 1); }
  }

  lemma DaysGrow(a: Date, b: Date)
    requires Valid(a) && Valid(b) && Before(a, b)
    ensures DaysFromYear0(a) < DaysFromYear0(b)
  {
    MonthTable(a.year, a.month);
    MonthTable(b.year, b.month);
    if a.year < b.year { YearsGrow(a.year, b.year); }
  }

  /** Later dates have larger day numbers, so no two dates share one. */
  lemma DayNumberGrows(a: Date, b: Date)
    requires Valid(a) && Valid(b) && Before(a, b)
    ensures DayNumber(a.year, a.month, a.day) < DayNumber(b.year, b.month, b.day)
  {
    DayNumberCounts(a);
    DayNumberCounts(b);
    DaysGrow(a, b);
  }

  // ---- the parser ----

  predicate IsDigit(c: char) { '0' <= c <= '9' }

  function DigitValue(c: char): int { c as int - '0' as int }

  function Number(s: seq<char>): int {
    if s == [] then 0 else Number(s[..|s| - 1]) * 10 + DigitValue(s[|s| - 1])
  }

  predicate AllDigits(s: seq<char>) { forall i :: 0 <= i < |s| ==> IsDigit(s[i]) }

  /** The number in `count` digits from `pos`, or -1 if one of them is no digit. */
  function Field(text: string, pos: nat, count: nat): int
    requires pos + count <= |text|
  {
    var s := text[pos..pos + count];
    if AllDigits(s) then Number(s) else -1
  }

  method Digits(text: string, pos: nat, count: nat) returns (v: int)
    requires pos + count <= |text|
    ensures v == Field(text, pos, count)
  {
    var s := text[pos..pos + count];
    v := 0;
    for i := 0 to count
      invariant v == Number(s[..i]) && AllDigits(s[..i])
    {
      var c := text[pos + i];
      assert s[i] == c;
      if c < '0' || c > '9' {
        return -1;
      }
      assert s[..i + 1][..i] == s[..i];
      v := v * 10 + (c as int - '0' as int);
    }
    assert s[..count] == s;
  }

  // How many digits follow from `i` on.
  function Run(text: string, i: nat): (n: nat)
    requires i <= |text|
    ensures i + n <= |text| && AllDigits(text[i..i + n])
    ensures i + n < |text| ==> !IsDigit(text[i + n])
    decreases |text| - i
  {
    if i < |text| && IsDigit(text[i]) then
      var n := Run(text, i + 1);
      assert text[i..i + 1 + n] == [text[i]] + text[i + 1..i + 1 + n];
      1 + n
    else 0
  }

  function Pow10(n: nat): (p: nat)
    ensures p >= 1
  {
    if n == 0 then 1 else 10 * Pow10(n - 1)
  }

  /** The milliseconds of a fraction of a second given by its digits: cut, not rounded. */
  function Millis(digits: string): int { 1000 * Number(digits) / Pow10(|digits|) }

  /** What the text from position 19 on adds. */
  function Fraction(text: string): int
    requires |text| >= 19
  {
    if |text| > 20 && text[19] == '.' then Millis(text[20..20 + Run(text, 20)]) else 0
  }

  predicate Readable(text: string) {
    && |text| >= 19
    && Field(text, 0, 4) >= 0 && Field(text, 5, 2) > 0 && Field(text, 8, 2) > 0
    && Field(text, 11, 2) >= 0 && Field(text, 14, 2) >= 0 && Field(text, 17, 2) >= 0
  }

  function Parsed(text: string): int {
    if !Readable(text) then 0
    else
      var days := DayNumber(Field(text, 0, 4), Field(text, 5, 2), Field(text, 8, 2));
      ((days * 24 + Field(text, 11, 2)) * 60 + Field(text, 14, 2)) * 60000 + Field(text, 17, 2) * 1000 + Fraction(text)
  }

  lemma {:induction false} NumberSplits(a: string, b: string)
    requires AllDigits(b)
    ensures Number(a + b) == Number(a) * Pow10(|b|) + Number(b) && 0 <= Number(b) < Pow10(|b|)
    decreases |b|
  {
    if b == [] {
      assert a + b == a;
    } else {
      var front, last := b[..|b| - 1], b[|b| - 1];
      NumberSplits(a, front);
      assert Number(a) * (10 * Pow10(|front|)) == Number(a) * Pow10(|front|) * 10;
      assert (a + b)[..|a + b| - 1] == a + front;
    }
  }

  // Only three digits of a fraction count.
  lemma MillisOfMany(digits: string)
    requires AllDigits(digits) && |digits| > 3
    ensures Millis(digits) == Number(digits[..3])
  {
    var head, rest := digits[..3], digits[3..];
    assert digits == head + rest;
    NumberSplits(head, rest);
    PowSplits(|rest|);
    var p := Pow10(|rest|);
    assert 1000 * (Number(head) * p + Number(rest)) == (1000 * p) * Number(head) + 1000 * Number(rest);
    Quotient(1000 * Number(digits), 1000 * p, Number(head), 1000 * Number(rest));
  }

  lemma PowSplits(n: nat)
    ensures Pow10(n + 3) == 1000 * Pow10(n)
  {
    assert Pow10(n + 3) == 10 * Pow10(n + 2) && Pow10(n + 2) == 10 * Pow10(n + 1);
  }

  lemma MillisOfFew(digits: string)
    requires |digits| <= 3
    ensures Millis(digits) == Number(digits) * (match |digits| case 0 => 1000 case 1 => 100 case 2 => 10 case _ => 1)
  {
    assert Pow10(1) == 10 && Pow10(2) == 100 && Pow10(3) == 1000;
  }

  method FractionLoop(text: string) returns (frac: int)
    requires |text| > 20
    ensures frac == Millis(text[20..20 + Run(text, 20)])
  {
    var scale, i := 100, 20;
    frac := 0;
    while i < |text| && scale > 0 && '0' <= text[i] <= '9'
      invariant 20 <= i <= |text| && i <= 23 && AllDigits(text[20..i])
      invariant Run(text, 20) == i - 20 + Run(text, i)
      invariant scale == match i case 20 => 100 case 21 => 10 case 22 => 1 case _ => 0
      invariant frac == Number(text[20..i]) * (match i case 20 => 1000 case 21 => 100 case 22 => 10 case _ => 1)
    {
      assert text[20..i + 1][..i - 20] == text[20..i];
      frac := frac + (text[i] as int - '0' as int) * scale;
      scale := scale / 10;
      i := i + 1;
    }
    FractionIs(text, i);
  }

  lemma FractionIs(text: string, i: nat)
    requires 20 <= i <= 23 && i <= |text| && Run(text, 20) == i - 20 + Run(text, i)
    requires i == 23 || i == |text| || !IsDigit(text[i])
    ensures Millis(text[20..20 + Run(text, 20)])
         == Number(text[20..i]) * (match i case 20 => 1000 case 21 => 100 case 22 => 10 case _ => 1)
  {
    var digits := text[20..20 + Run(text, 20)];
    if |digits| <= 3 {
      MillisOfFew(digits);
    } else {
      MillisOfMany(digits);
      assert digits[..3] == text[20..23];
    }
  }

  method ParseIso8601Millis(text: string) returns (ms: int)
    ensures ms == Parsed(text)
  {
    if |text| < 19 {
      return 0;
    }
    var year := Digits(text, 0, 4);
    var month := Digits(text, 5, 2);
    var day := Digits(text, 8, 2);
    var hour := Digits(text, 11, 2);
    var minute := Digits(text, 14, 2);
    var second := Digits(text, 17, 2);
    if year < 0 || month <= 0 || day <= 0 || hour < 0 || minute < 0 || second < 0 {
      return 0;
    }
    ms := ((DayNumber(year, month, day) * 24 + hour) * 60 + minute) * 60000 + second * 1000;
    if |text| > 20 && text[19] == '.' {
      var frac := FractionLoop(text);
      ms := ms + frac;
    }
  }

  // ---- the printer ----

  function Padded(n: nat, width: nat): string {
    if width == 0 then "" else Padded(n / 10, width - 1) + [(n % 10 + '0' as int) as char]
  }

  lemma {:induction false} PaddedReads(n: nat, width: nat)
    requires n < Pow10(width)
    ensures var s := Padded(n, width); |s| == width && AllDigits(s) && Number(s) == n
    decreases width
  {
    if width > 0 {
      PaddedReads(n / 10, width - 1);
      var s := Padded(n, width);
      assert s[..width - 1] == Padded(n / 10, width - 1);
    }
  }

  datatype Stamp = Stamp(date: Date, hour: nat, minute: nat, second: nat)

  predicate ValidStamp(t: Stamp) {
    Valid(t.date) && t.date.year <= 9999 && t.hour < 24 && t.minute < 60 && t.second < 60
  }

  /** YYYY-MM-DDTHH:MM:SS */
  function Printed(t: Stamp): string
    requires ValidStamp(t)
  {
    Padded(t.date.year, 4) + "-" + Padded(t.date.month, 2) + "-" + Padded(t.date.day, 2) + "T"
      + Padded(t.hour, 2) + ":" + Padded(t.minute, 2) + ":" + Padded(t.second, 2)
  }

  lemma FieldReads(text: string, pos: nat, n: nat, width: nat)
    requires pos + width <= |text| && n < Pow10(width) && text[pos..pos + width] == Padded(n, width)
    ensures Field(text, pos, width) == n
  {
    PaddedReads(n, width);
  }

  lemma PrintedFields(t: Stamp, rest: string)
    requires ValidStamp(t)
    ensures var text := Printed(t) + rest;
      && |Printed(t)| == 19
      && Field(text, 0, 4) == t.date.year && Field(text, 5, 2) == t.date.month && Field(text, 8, 2) == t.date.day
      && Field(text, 11, 2) == t.hour && Field(text, 14, 2) == t.minute && Field(text, 17, 2) == t.second
  {
    assert Pow10(2) == 100 && Pow10(4) == 10000;
    var text := Printed(t) + rest;
    PaddedReads(t.date.year, 4);
    PaddedReads(t.date.month, 2);
    PaddedReads(t.date.day, 2);
    PaddedReads(t.hour, 2);
    PaddedReads(t.minute, 2);
    PaddedReads(t.second, 2);
    Pieces(text, Padded(t.date.year, 4), Padded(t.date.month, 2), Padded(t.date.day, 2),
           Padded(t.hour, 2), Padded(t.minute, 2), Padded(t.second, 2), rest);
    FieldReads(text, 0, t.date.year, 4);
    FieldReads(text, 5, t.date.month, 2);
    FieldReads(text, 8, t.date.day, 2);
    FieldReads(text, 11, t.hour, 2);
    FieldReads(text, 14, t.minute, 2);
    FieldReads(text, 17, t.second, 2);
  }

  lemma Pieces(text: string, a: string, b: string, c: string, d: string, e: string, f: string, rest: string)
    requires |a| == 4 && |b| == |c| == |d| == |e| == |f| == 2
    requires text == a + "-" + b + "-" + c + "T" + d + ":" + e + ":" + f + rest
    ensures |text| == 19 + |rest|
    ensures text[0..4] == a && text[5..7] == b && text[8..10] == c
      && text[11..13] == d && text[14..16] == e && text[17..19] == f
  {
  }

  /**
   Parsing what was printed gives the milliseconds counted out, whatever follows; a decimal point
   and digits add the fraction, cut to milliseconds.
   */
  lemma ParsedPrinted(t: Stamp, rest: string)
    requires ValidStamp(t)
    ensures |Printed(t)| == 19
    ensures Parsed(Printed(t) + rest)
         == (Counted(t.date) * 86400 + t.hour * 3600 + t.minute * 60 + t.second) * 1000 + Fraction(Printed(t) + rest)
  {
    PrintedFields(t, rest);
    DayNumberCounts(t.date);
  }

  lemma FractionReads(head: string, digits: string, zone: string)
    requires |head| == 19 && digits != "" && AllDigits(digits) && (zone == "" || !IsDigit(zone[0]))
    ensures Fraction(head + "." + digits + zone) == Millis(digits)
  {
    var text := head + "." + digits + zone;
    assert text[20..20 + |digits|] == digits;
    RunReads(text, 20, |digits|);
  }

  lemma {:induction false} RunReads(text: string, i: nat, n: nat)
    requires i + n <= |text| && AllDigits(text[i..i + n]) && (i + n == |text| || !IsDigit(text[i + n]))
    ensures Run(text, i) == n
    decreases n
  {
    if n > 0 {
      assert text[i] == text[i..i + n][0];
      assert text[i + 1..i + n] == text[i..i + n][1..];
      RunReads(text, i + 1, n - 1);
    }
  }

  lemma MillisFit(digits: string)
    requires AllDigits(digits)
    ensures 0 <= Millis(digits) < 1000
  {
    NumberSplits("", digits);
    assert "" + digits == digits;
    Below(Number(digits), Pow10(|digits|), 1000);
  }

  lemma Below(n: nat, p: nat, k: nat)
    requires n < p
    ensures 0 <= k * n / p && (k > 0 ==> k * n / p < k)
  {
    var q, r := k * n / p, k * n % p;
    if k > 0 {
      if q >= k { Products(k, n, p, q); }
    }
  }

  lemma Products(k: nat, n: nat, p: nat, q: nat)
    requires 0 < k <= q && n < p
    ensures k * n < p * q
  {
    assert k * n < k * p;
    assert p * q == p * k + p * (q - k);
  }

  lemma FractionFits(text: string)
    requires |text| >= 19
    ensures 0 <= Fraction(text) < 1000
  {
    if |text| > 20 && text[19] == '.' { MillisFit(text[20..20 + Run(text, 20)]); }
  }

  lemma OnlyTheEpochIsDay0(d: Date)
    requires Valid(d)
    ensures Counted(d) == 0 <==> d == Date(1970, 1, 1)
  {
    if Before(d, Date(1970, 1, 1)) { DaysGrow(d, Date(1970, 1, 1)); }
    if Before(Date(1970, 1, 1), d) { DaysGrow(Date(1970, 1, 1), d); }
  }

  /**
   0 is the documented failure value, and one readable stamp has it too: the parse of a valid stamp
   is 0 if and only if it is the epoch, with no milliseconds after it.
   */
  lemma ParsedIsZeroIffEpoch(t: Stamp, rest: string)
    requires ValidStamp(t)
    ensures |Printed(t)| == 19
    ensures Parsed(Printed(t) + rest) == 0 <==>
      t == Stamp(Date(1970, 1, 1), 0, 0, 0) && Fraction(Printed(t) + rest) == 0
  {
    ParsedPrinted(t, rest);
    FractionFits(Printed(t) + rest);
    OnlyTheEpochIsDay0(t.date);
  }
}
