/** Repeating tasks (packages/domain/src/recurrence.ts). */
module Recurrences {
  import opened Prelude
  import opened Dates
  import opened Calendar

  datatype Frequency = Daily | Weekdays | Weekly | Monthly | Yearly

  datatype Anchor = ByCalendar | ByCompletion

  /** A rule as it was entered. */
  datatype Recurrence = Recurrence(
    frequency: Frequency,
    interval: Option<real>,
    anchor: Option<Anchor>,
    weekdays: Option<seq<int>>,
    monthDay: Option<int>,
    month: Option<int>)

  /** A rule that was accepted: every field that its frequency uses is set. */
  datatype Rule = Rule(frequency: Frequency, interval: int, anchor: Anchor, weekdays: seq<int>, monthDay: int,
                       month: int)

  datatype Invalid = Invalid

  // ---------------------------------------------------------------------
  // Rules
  // ---------------------------------------------------------------------

  function Clamp(interval: Option<real>): (n: int)
    ensures 1 <= n <= 365
  {
    Max(1, Min(365, if interval.Some? then interval.value.Floor else 1))
  }

  /** The chosen days of the week from `from` on, ascending and without repeats. */
  function ChosenDays(days: seq<int>, from: int): (chosen: seq<int>)
    requires 1 <= from <= 8
    ensures forall d :: d in chosen <==> from <= d <= 7 && d in days
    ensures forall i, j | 0 <= i < j < |chosen| :: chosen[i] < chosen[j]
    decreases 8 - from
  {
    if from == 8 then []
    else
      var rest := ChosenDays(days, from + 1);
      assert forall i | 0 <= i < |rest| :: rest[i] in rest;
      if from in days then [from] + rest else rest
  }

  function OrElse<T>(o: Option<T>, d: T): T {
    if o.Some? then o.value else d
  }

  /** `normalizeRecurrence`. */
  function Normalize(r: Recurrence): Result<Rule, Invalid> {
    var days := ChosenDays(OrElse(r.weekdays, []), 1);
    var day, month := OrElse(r.monthDay, 1), OrElse(r.month, 1);
    var rule := Rule(r.frequency, Clamp(r.interval), OrElse(r.anchor, ByCalendar), days, day, month);
    match r.frequency
    case Weekly => if days == [] then Err(Invalid) else Ok(rule)
    case Monthly => if day < 1 || day > 31 then Err(Invalid) else Ok(rule)
    case Yearly => if day < 1 || day > 31 || month < 1 || month > 12 then Err(Invalid) else Ok(rule)
    case _ => Ok(rule)
  }

  // ---------------------------------------------------------------------
  // The next occurrence
  // ---------------------------------------------------------------------

  predicate Working(d: Date)
    requires ValidDate(d)
  {
    WeekdayIso(d) <= 5
  }

  function FirstWorking(candidate: Date, tries: nat): Result<Date, Invalid>
    requires ValidDate(candidate)
    decreases tries
  {
    if tries == 0 then Err(Invalid)
    else if Working(candidate) then Ok(candidate)
    else FirstWorking(AddDays(candidate, 1), tries - 1)
  }

  function FirstAbove(days: seq<int>, current: int): (day: Option<int>)
    ensures day.Some? ==> day.value in days && day.value > current
    ensures day.None? ==> forall d | d in days :: d <= current
    decreases |days|
  {
    if days == [] then None
    else if days[0] > current then Some(days[0])
    else
      assert days == [days[0]] + days[1..];
      FirstAbove(days[1..], current)
  }

  /** Days to the next chosen day of the week. */
  function WeeklyStep(rule: Rule, current: int): int
    requires rule.weekdays != []
  {
    var next := FirstAbove(rule.weekdays, current);
    if next.Some? then next.value - current else 7 * rule.interval - current + rule.weekdays[0]
  }

  function MonthlyFrom(candidate: Date, interval: int, day: int, tries: nat): Result<Date, Invalid>
    requires ValidDate(candidate)
    decreases tries
  {
    if tries == 0 then Err(Invalid)
    else
      var next := AddMonthsClamped(candidate, interval);
      if day <= DaysInMonth(next.year, next.month) then Ok(Date(next.year, next.month, day))
      else MonthlyFrom(next, interval, day, tries - 1)
  }

  function YearlyFrom(year: int, interval: int, month: int, day: int, tries: nat): Result<Date, Invalid>
    decreases tries
  {
    if tries == 0 then Err(Invalid)
    else if day <= DaysInMonth(year, month) then Ok(Date(year, month, day))
    else YearlyFrom(year + interval, interval, month, day, tries - 1)
  }

  const WORKDAY_TRIES := 366
  const MONTH_TRIES := 120
  const YEAR_TRIES := 400

  ghost predicate Normal(rule: Rule) {
    && 1 <= rule.interval <= 365
    && (rule.frequency == Weekly ==>
          && rule.weekdays != []
          && (forall i | 0 <= i < |rule.weekdays| :: 1 <= rule.weekdays[i] <= 7)
          && (forall i, j | 0 <= i < j < |rule.weekdays| :: rule.weekdays[i] < rule.weekdays[j]))
    && (rule.frequency == Monthly || rule.frequency == Yearly ==> 1 <= rule.monthDay <= 31)
    && (rule.frequency == Yearly ==> 1 <= rule.month <= 12)
  }

  function Next(rule: Rule, base: Date): Result<Date, Invalid>
    requires Normal(rule) && ValidDate(base)
  {
    match rule.frequency
    case Daily => Ok(AddDays(base, rule.interval))
    case Weekdays => FirstWorking(AddDays(base, 1), WORKDAY_TRIES)
    case Weekly =>
      WeeklyStepIsPositive(rule, WeekdayIso(base));
      Ok(AddDays(base, WeeklyStep(rule, WeekdayIso(base))))
    case Monthly => MonthlyFrom(base, rule.interval, rule.monthDay, MONTH_TRIES)
    case Yearly => YearlyFrom(base.year + rule.interval, rule.interval, rule.month, rule.monthDay, YEAR_TRIES)
  }

  lemma {:induction false} WeeklyStepIsPositive(rule: Rule, current: int)
    requires Normal(rule) && rule.frequency == Weekly && 1 <= current <= 7
    ensures 1 <= WeeklyStep(rule, current)
  {
    assert 1 <= rule.weekdays[0];
  }

  lemma {:induction false} NormalizedIsNormal(r: Recurrence)
    requires Normalize(r).Ok?
    ensures Normal(Normalize(r).value)
  {
    var days := ChosenDays(OrElse(r.weekdays, []), 1);
    assert forall i | 0 <= i < |days| :: days[i] in days;
  }

  /** Where a rule counts from. */
  function BaseOf(rule: Rule, from: Date, completion: Option<Date>): Date {
    if rule.anchor == ByCompletion && completion.Some? then completion.value else from
  }

  /** `nextOccurrence` on valid dates. */
  function NextOccurrence(r: Recurrence, from: Date, completion: Option<Date>): Result<Date, Invalid>
    requires ValidDate(from) && (completion.Some? ==> ValidDate(completion.value))
  {
    var rule :- Normalize(r);
    NormalizedIsNormal(r);
    Next(rule, BaseOf(rule, from, completion))
  }

  /** `nextOccurrence` with its loops. */
  method ComputeNextOccurrence(r: Recurrence, from: Date, completion: Option<Date>) returns (next: Result<Date,
                               Invalid>)
    requires ValidDate(from) && (completion.Some? ==> ValidDate(completion.value))
    ensures next == NextOccurrence(r, from, completion)
  {
    var normalized := Normalize(r);
    if normalized.Err? {
      return Err(Invalid);
    }
    var rule := normalized.value;
    NormalizedIsNormal(r);
    var base := BaseOf(rule, from, completion);
    match rule.frequency {
      case Daily =>
        return Ok(AddDays(base, rule.interval));
      case Weekdays =>
        next := FindWorkday(AddDays(base, 1));
      case Weekly =>
        WeeklyStepIsPositive(rule, WeekdayIso(base));
        return Ok(AddDays(base, WeeklyStep(rule, WeekdayIso(base))));
      case Monthly =>
        next := FindMonth(base, rule.interval, rule.monthDay);
      case Yearly =>
        next := FindYear(base.year + rule.interval, rule.interval, rule.month, rule.monthDay);
    }
  }

  method FindWorkday(start: Date) returns (next: Result<Date, Invalid>)
    requires ValidDate(start)
    ensures next == FirstWorking(start, WORKDAY_TRIES)
  {
    var candidate := start;
    for index := 0 to WORKDAY_TRIES
      invariant ValidDate(candidate)
      invariant FirstWorking(candidate, WORKDAY_TRIES - index) == FirstWorking(start, WORKDAY_TRIES)
    {
      if WeekdayIso(candidate) <= 5 {
        return Ok(candidate);
      }
      candidate := AddDays(candidate, 1);
    }
    return Err(Invalid);
  }

  method FindMonth(start: Date, interval: int, day: int) returns (next: Result<Date, Invalid>)
    requires ValidDate(start)
    ensures next == MonthlyFrom(start, interval, day, MONTH_TRIES)
  {
    var candidate := start;
    for index := 0 to MONTH_TRIES
      invariant ValidDate(candidate)
      invariant MonthlyFrom(candidate, interval, day, MONTH_TRIES - index)
             == MonthlyFrom(start, interval, day, MONTH_TRIES)
    {
      candidate := AddMonthsClamped(candidate, interval);
      if day <= DaysInMonth(candidate.year, candidate.month) {
        return Ok(Date(candidate.year, candidate.month, day));
      }
    }
    return Err(Invalid);
  }

  method FindYear(start: int, interval: int, month: int, day: int) returns (next: Result<Date, Invalid>)
    ensures next == YearlyFrom(start, interval, month, day, YEAR_TRIES)
  {
    var year := start;
    for index := 0 to YEAR_TRIES
      invariant YearlyFrom(year, interval, month, day, YEAR_TRIES - index)
             == YearlyFrom(start, interval, month, day, YEAR_TRIES)
    {
      if day <= DaysInMonth(year, month) {
        return Ok(Date(year, month, day));
      }
      year := year + interval;
    }
    return Err(Invalid);
  }

  // ---------------------------------------------------------------------
  // What the next occurrence is
  // ---------------------------------------------------------------------

  lemma {:induction false} LaterByDays(base: Date, n: nat)
    requires ValidDate(base) && 1 <= n
    ensures Before(base, AddDays(base, n))
  {
    AddDaysNumber(base, n);
    NumbersFollowCalendar(base, AddDays(base, n));
  }

  lemma {:induction false} ModuloSeven(x: int, n: int)
    ensures (x + n) % 7 == (x % 7 + n) % 7
  {
    var q, y := x / 7, x % 7 + n;
    assert x + n == 7 * q + y;
    assert 7 * q + y == 7 * (q + y / 7) + y % 7;
  }

  lemma {:induction false} WeekdayOfLater(base: Date, n: nat)
    requires ValidDate(base)
    ensures WeekdayIso(AddDays(base, n)) == (WeekdayIso(base) - 1 + n) % 7 + 1
  {
    AddDaysNumber(base, n);
    hide DayNumber, AddDays;
    ModuloSeven(DayNumber(base) + 3, n);
  }

  lemma {:induction false} AddDaysTwice(base: Date, m: nat, n: nat)
    requires ValidDate(base)
    ensures AddDays(AddDays(base, m), n) == AddDays(base, m + n)
    decreases n
  {
    if n > 0 {
      AddDaysTwice(base, m, n - 1);
    }
  }

  /** How many days after a day of the week the next workday is. */
  function WorkdayStep(weekday: int): nat {
    if weekday == 5 then 3 else if weekday == 6 then 2 else 1
  }

  lemma {:induction false} WeekdaySoonAfter(base: Date, n: nat)
    requires ValidDate(base) && 1 <= n <= 7
    ensures WeekdayIso(AddDays(base, n))
         == if WeekdayIso(base) + n > 7 then WeekdayIso(base) + n - 7 else WeekdayIso(base) + n
  {
    WeekdayOfLater(base, n);
    hide WeekdayIso, AddDays;
  }

  lemma {:induction false} WorkdayStepIsLeast(base: Date)
    requires ValidDate(base)
    ensures var n := WorkdayStep(WeekdayIso(base));
            Working(AddDays(base, n)) && forall m | 1 <= m < n :: !Working(AddDays(base, m))
  {
    hide WeekdayIso, AddDays;
    WeekdaySoonAfter(base, 1);
    WeekdaySoonAfter(base, 2);
    WeekdaySoonAfter(base, 3);
  }

  /** A workday rule never fails, and gives the least later day from Monday to
      Friday. */
  lemma {:induction false} NextWorkday(rule: Rule, base: Date)
    requires Normal(rule) && rule.frequency == Weekdays && ValidDate(base)
    ensures var n := WorkdayStep(WeekdayIso(base));
            && Next(rule, base) == Ok(AddDays(base, n)) && Working(AddDays(base, n))
            && forall m | 1 <= m < n :: !Working(AddDays(base, m))
  {
    hide WeekdayIso, AddDays;
    WorkdayStepIsLeast(base);
    AddDaysTwice(base, 1, 1);
    AddDaysTwice(base, 2, 1);
    var one, two, three := AddDays(base, 1), AddDays(base, 2), AddDays(base, 3);
    assert AddDays(one, 1) == two && AddDays(two, 1) == three;
    assert FirstWorking(one, 366) == if Working(one) then Ok(one) else FirstWorking(two, 365);
    assert FirstWorking(two, 365) == if Working(two) then Ok(two) else FirstWorking(three, 364);
    assert FirstWorking(three, 364) == if Working(three) then Ok(three) else FirstWorking(AddDays(three, 1), 363);
  }

  lemma {:induction false} FirstAboveIsLeast(days: seq<int>, current: int, d: int)
    requires forall i, j | 0 <= i < j < |days| :: days[i] < days[j]
    requires FirstAbove(days, current).Some? && d in days && d > current
    ensures FirstAbove(days, current).value <= d
    decreases |days|
  {
    if days[0] <= current {
      FirstAboveIsLeast(days[1..], current, d);
    }
  }

  /** A weekly rule with interval 1 gives the least later day on a chosen day of
      the week. */
  lemma {:induction false} NextWeekly(rule: Rule, base: Date)
    requires Normal(rule) && rule.frequency == Weekly && rule.interval == 1 && ValidDate(base)
    ensures 1 <= WeeklyStep(rule, WeekdayIso(base)) <= 7
    ensures Next(rule, base) == Ok(AddDays(base, WeeklyStep(rule, WeekdayIso(base))))
    ensures WeekdayIso(AddDays(base, WeeklyStep(rule, WeekdayIso(base)))) in rule.weekdays
    ensures forall m: nat | 1 <= m < WeeklyStep(rule, WeekdayIso(base)) ::
              WeekdayIso(AddDays(base, m)) !in rule.weekdays
  {
    hide WeekdayIso, AddDays, WeeklyStep;
    var current := WeekdayIso(base);
    WeeklyStepIsPositive(rule, current);
    var n: nat := WeeklyStep(rule, current);
    WeekdayOfLater(base, n);
    WeeklyLands(rule, current);
    forall m: nat | 1 <= m < n ensures WeekdayIso(AddDays(base, m)) !in rule.weekdays {
      WeekdayOfLater(base, m);
      WeeklySkips(rule, current, n, m);
    }
  }

  lemma {:induction false} WeeklyLands(rule: Rule, current: int)
    requires Normal(rule) && rule.frequency == Weekly && rule.interval == 1 && 1 <= current <= 7
    ensures WeeklyStep(rule, current) <= 7
    ensures (current - 1 + WeeklyStep(rule, current)) % 7 + 1 in rule.weekdays
  {
    var above := FirstAbove(rule.weekdays, current);
    assert rule.weekdays[0] in rule.weekdays;
  }

  lemma {:induction false} WeeklySkips(rule: Rule, current: int, n: nat, m: nat)
    requires Normal(rule) && rule.frequency == Weekly && rule.interval == 1 && 1 <= current <= 7
    requires n == WeeklyStep(rule, current) && 1 <= m < n
    ensures (current - 1 + m) % 7 + 1 !in rule.weekdays
  {
    var above, day := FirstAbove(rule.weekdays, current), (current - 1 + m) % 7 + 1;
    forall d | d in rule.weekdays ensures d != day {
      if d > current {
        FirstAboveIsLeast(rule.weekdays, current, d);
      }
    }
  }

  /** Whether the rule's day exists `k` intervals of months after the base. */
  predicate MonthHas(base: Date, interval: int, day: int, k: int) {
    day <= MonthLength(MonthIndex(base) + k * interval)
  }

  lemma {:induction false} MonthlySearch(base: Date, candidate: Date, interval: int, day: int, k: nat, tries: nat)
    requires ValidDate(base) && ValidDate(candidate) && MonthIndex(candidate) == MonthIndex(base) + k * interval
    requires 1 <= day <= 31
    ensures var next := MonthlyFrom(candidate, interval, day, tries);
            && (next.Err? ==> forall j | k < j <= k + tries :: !MonthHas(base, interval, day, j))
            && (next.Ok? ==> exists j :: k < j <= k + tries && FoundAt(base, interval, day, k, j, next.value))
    decreases tries
  {
    if tries > 0 {
      var next := AddMonthsClamped(candidate, interval);
      assert MonthIndex(next) == MonthIndex(base) + (k + 1) * interval;
      if day <= DaysInMonth(next.year, next.month) {
        assert FoundAt(base, interval, day, k, k + 1, Date(next.year, next.month, day));
      } else {
        assert !MonthHas(base, interval, day, k + 1);
        MonthlySearch(base, next, interval, day, k + 1, tries - 1);
        var found := MonthlyFrom(next, interval, day, tries - 1);
        if found.Ok? {
          var j :| k + 1 < j <= k + tries && FoundAt(base, interval, day, k + 1, j, found.value);
          assert FoundAt(base, interval, day, k, j, found.value);
        }
      }
    }
  }

  /** `found` is the rule's day in the first month, `j` intervals on, that has
      it, counting from after the `k`-th. */
  ghost predicate FoundAt(base: Date, interval: int, day: int, k: int, j: int, found: Date) {
    && found == OfMonth(MonthIndex(base) + j * interval, day)
    && MonthHas(base, interval, day, j)
    && forall i | k < i < j :: !MonthHas(base, interval, day, i)
  }

  /** A month other than February has as many days in every year. */
  lemma {:induction false} SameMonthSameLength(a: int, b: int)
    requires a % 12 == b % 12 && a % 12 != 1
    ensures MonthLength(a) == MonthLength(b)
  {
  }

  lemma {:induction false} FebruaryLength(index: int)
    requires index % 12 == 1
    ensures MonthLength(index) == if IsLeap(index / 12) then 29 else 28
  {
  }

  /** Twelve steps on, the month has the same name. */
  lemma {:induction false} MonthsRepeat(base: Date, interval: int, k: int)
    ensures var j := (k - 1) % 12 + 1;
            (MonthIndex(base) + k * interval) % 12 == (MonthIndex(base) + j * interval) % 12
  {
    var q, j := (k - 1) / 12, (k - 1) % 12 + 1;
    assert k == 12 * q + j;
    assert k * interval == 12 * (q * interval) + j * interval;
    AfterDozens(MonthIndex(base) + j * interval, q * interval);
  }

  lemma {:induction false} AfterDozens(x: int, n: int)
    ensures (x + 12 * n) % 12 == x % 12 && (x + 12 * n) / 12 == x / 12 + n
  {
  }

  /** A rule that does not step by whole years is out of February within two
      steps. */
  lemma {:induction false} NotAlwaysFebruary(base: Date, interval: int)
    requires interval % 12 != 0
    ensures (MonthIndex(base) + interval) % 12 != 1 || (MonthIndex(base) + 2 * interval) % 12 != 1
  {
  }

  /** Multiples of 4 among the years that a step of `y` years meets: if one is
      a leap year, so is one of the first sixteen. */
  lemma {:induction false} LeapSoon(year: int, y: int, k: int)
    requires 1 <= y <= 30 && 1 <= k && IsLeap(year + k * y)
    ensures exists j :: 1 <= j <= 16 && IsLeap(year + j * y)
  {
    var q, j := (k - 1) / 4, (k - 1) % 4 + 1;
    assert k == 4 * q + j;
    assert k * y == 4 * (q * y) + j * y;
    AfterFours(year + j * y, q * y);
    var first := year + j * y;
    assert first % 4 == 0;
    assert (j + 4) * y == j * y + 4 * y && (j + 8) * y == j * y + 8 * y && (j + 12) * y == j * y + 12 * y;
    OneIsLeap(first, y);
    if IsLeap(first) {
    } else if IsLeap(first + 4 * y) {
      assert IsLeap(year + (j + 4) * y);
    } else if IsLeap(first + 8 * y) {
      assert IsLeap(year + (j + 8) * y);
    } else {
      assert IsLeap(year + (j + 12) * y);
    }
  }

  /** Only a step of 25 years stays on full centuries. */
  lemma {:induction false} OneIsLeap(first: int, y: int)
    requires first % 4 == 0 && 1 <= y <= 30
    ensures IsLeap(first) || IsLeap(first + 4 * y) || IsLeap(first + 8 * y) || IsLeap(first + 12 * y)
  {
    AfterFours(first, y);
    if !IsLeap(first) && !IsLeap(first + 4 * y) {
      assert first % 100 == 0 && (first + 4 * y) % 100 == 0;
      StepsOnCenturies(first, y);
      OneOfFourCenturies(first);
    }
  }

  lemma {:induction false} StepsOnCenturies(first: int, y: int)
    requires first % 100 == 0 && (first + 4 * y) % 100 == 0 && 1 <= y <= 30
    ensures y == 25
  {
    var a, b := first / 100, (first + 4 * y) / 100;
    assert first == 100 * a && first + 4 * y == 100 * b;
    assert y == 25 * (b - a);
  }

  lemma {:induction false} OneOfFourCenturies(first: int)
    requires first % 100 == 0
    ensures IsLeap(first) || IsLeap(first + 100) || IsLeap(first + 200) || IsLeap(first + 300)
  {
    hide IsLeap;
    var a := first / 100;
    var c, n := a / 4, a % 4;
    assert first == 100 * a && a == 4 * c + n;
    if n == 0 {
      FullCentury(first, c);
    } else {
      FullCentury(first + 100 * (4 - n), c + 1);
    }
  }

  lemma {:induction false} FullCentury(year: int, c: int)
    requires year == 400 * c
    ensures IsLeap(year)
  {
    assert year == 4 * (100 * c);
  }

  /** If any later month of the rule has the day, one of the next 16 has it. */
  lemma {:induction false} MonthSoon(base: Date, interval: int, day: int, k: int)
    requires 1 <= interval <= 365 && 1 <= k && MonthHas(base, interval, day, k)
    ensures exists j :: 1 <= j <= 16 && MonthHas(base, interval, day, j)
  {
    var start := MonthIndex(base);
    if interval % 12 == 0 {
      WholeYears(base, interval, day, k);
    } else if day >= 30 {
      MonthsRepeat(base, interval, k);
      var j := (k - 1) % 12 + 1;
      if (start + k * interval) % 12 == 1 {
        FebruaryLength(start + k * interval);
        assert false;
      }
      SameMonthSameLength(start + k * interval, start + j * interval);
      assert MonthHas(base, interval, day, j);
    } else {
      NotAlwaysFebruary(base, interval);
      var j := if (start + interval) % 12 != 1 then 1 else 2;
      LongOutsideFebruary(start + j * interval);
      assert MonthHas(base, interval, day, j);
    }
  }

  lemma {:induction false} LongOutsideFebruary(index: int)
    requires index % 12 != 1
    ensures MonthLength(index) >= 30
  {
  }

  lemma {:induction false} WholeYears(base: Date, interval: int, day: int, k: int)
    requires 1 <= interval <= 365 && interval % 12 == 0 && 1 <= k && MonthHas(base, interval, day, k)
    ensures exists j :: 1 <= j <= 16 && MonthHas(base, interval, day, j)
  {
    hide MonthLength, IsLeap, MonthIndex;
    var start, y := MonthIndex(base), interval / 12;
    YearsOn(start, interval, k);
    YearsOn(start, interval, 1);
    if start % 12 != 1 {
      SameMonthSameLength(start + k * interval, start + 1 * interval);
      assert MonthHas(base, interval, day, 1);
    } else if day <= 28 {
      FebruaryLength(start + 1 * interval);
      assert MonthHas(base, interval, day, 1);
    } else {
      FebruaryLength(start + k * interval);
      LeapSoon(start / 12, y, k);
      var j :| 1 <= j <= 16 && IsLeap(start / 12 + j * y);
      YearsOn(start, interval, j);
      FebruaryLength(start + j * interval);
      assert MonthHas(base, interval, day, j);
    }
  }

  lemma {:induction false} YearsOn(start: int, interval: int, j: int)
    requires interval % 12 == 0
    ensures (start + j * interval) % 12 == start % 12
    ensures (start + j * interval) / 12 == start / 12 + j * (interval / 12)
  {
    var y := interval / 12;
    assert interval == 12 * y;
    assert j * interval == 12 * (j * y);
    AfterDozens(start, j * y);
  }

  /** A monthly rule lands exactly on its day in the first of its months that has
      it. The 120 steps it tries are enough: it fails exactly when none of its
      months, however late, has the day. */
  lemma {:induction false} NextMonthly(rule: Rule, base: Date)
    requires Normal(rule) && rule.frequency == Monthly && ValidDate(base)
    ensures Next(rule, base).Err? <==> forall j | 1 <= j :: !MonthHas(base, rule.interval, rule.monthDay, j)
    ensures Next(rule, base).Ok? ==>
              exists j :: 1 <= j <= MONTH_TRIES &&
                          FoundAt(base, rule.interval, rule.monthDay, 0, j, Next(rule, base).value)
  {
    hide MonthHas, MonthlyFrom;
    MonthlySearch(base, base, rule.interval, rule.monthDay, 0, MONTH_TRIES);
    if Next(rule, base).Err? {
      forall k: int | 1 <= k ensures !MonthHas(base, rule.interval, rule.monthDay, k) {
        if MonthHas(base, rule.interval, rule.monthDay, k) {
          MonthSoon(base, rule.interval, rule.monthDay, k);
          assert false;
        }
      }
    }
  }

  /** With interval 1 a monthly rule never fails and looks at most two months
      ahead, whatever the day it starts from was clamped to. */
  lemma {:induction false} NextMonth(rule: Rule, base: Date)
    requires Normal(rule) && rule.frequency == Monthly && rule.interval == 1 && ValidDate(base)
    ensures var n := if rule.monthDay <= MonthLength(MonthIndex(base) + 1) then 1 else 2;
            Next(rule, base) == Ok(OfMonth(MonthIndex(base) + n, rule.monthDay))
            && rule.monthDay <= MonthLength(MonthIndex(base) + n)
  {
    hide MonthlyFrom, MonthLength, AddMonthsClamped, OfMonth, MonthIndex;
    OneMonth(base, rule.monthDay, MONTH_TRIES - 1);
    if rule.monthDay > MonthLength(MonthIndex(base) + 1) {
      OneMonth(AddMonthsClamped(base, 1), rule.monthDay, MONTH_TRIES - 2);
      ShortThenLong(MonthIndex(base) + 1);
    }
  }

  lemma {:induction false} OneMonth(base: Date, day: int, tries: nat)
    requires ValidDate(base) && 1 <= day <= 31
    ensures MonthlyFrom(base, 1, day, tries + 1)
         == if day <= MonthLength(MonthIndex(base) + 1) then Ok(OfMonth(MonthIndex(base) + 1, day))
            else MonthlyFrom(AddMonthsClamped(base, 1), 1, day, tries)
  {
    var next := AddMonthsClamped(base, 1);
    hide AddMonthsClamped;
    MonthParts(next);
  }

  lemma {:induction false} MonthParts(d: Date)
    requires 1 <= d.month <= 12
    ensures MonthLength(MonthIndex(d)) == DaysInMonth(d.year, d.month)
    ensures forall day :: OfMonth(MonthIndex(d), day) == Date(d.year, d.month, day)
  {
    assert MonthIndex(d) / 12 == d.year && MonthIndex(d) % 12 == d.month - 1;
  }

  /** A month without some day is followed by one that has every day. */
  lemma {:induction false} ShortThenLong(index: int)
    requires MonthLength(index) < 31
    ensures MonthLength(index + 1) == 31
  {
    assert (index + 1) % 12 == if index % 12 == 11 then 0 else index % 12 + 1;
  }

  /** Whether the rule's day exists `k` intervals of years after the base. */
  predicate YearHas(base: Date, interval: int, month: int, day: int, k: int) {
    day <= DaysInMonth(base.year + k * interval, month)
  }

  /** `found` is the rule's day in the first year, `j` intervals on, that has it,
      counting from after the `k`-th. */
  ghost predicate FoundInYear(base: Date, interval: int, month: int, day: int, k: int, j: int, found: Date) {
    && found == Date(base.year + j * interval, month, day)
    && YearHas(base, interval, month, day, j)
    && forall i | k < i < j :: !YearHas(base, interval, month, day, i)
  }

  lemma {:induction false} YearlySearch(base: Date, year: int, interval: int, month: int, day: int, k: nat, tries: nat)
    requires year == base.year + (k + 1) * interval
    ensures var next := YearlyFrom(year, interval, month, day, tries);
            && (next.Err? ==> forall j | k < j <= k + tries :: !YearHas(base, interval, month, day, j))
            && (next.Ok? ==>
                  exists j :: k < j <= k + tries && FoundInYear(base, interval, month, day, k, j, next.value))
    decreases tries
  {
    if tries > 0 {
      if day <= DaysInMonth(year, month) {
        assert FoundInYear(base, interval, month, day, k, k + 1, Date(year, month, day));
      } else {
        assert !YearHas(base, interval, month, day, k + 1);
        assert year + interval == base.year + (k + 1 + 1) * interval;
        YearlySearch(base, year + interval, interval, month, day, k + 1, tries - 1);
        var found := YearlyFrom(year + interval, interval, month, day, tries - 1);
        if found.Ok? {
          var j :| k + 1 < j <= k + tries && FoundInYear(base, interval, month, day, k + 1, j, found.value);
          assert FoundInYear(base, interval, month, day, k, j, found.value);
        }
      }
    }
  }

  /** The calendar repeats every 400 years. */
  lemma {:induction false} CalendarRepeats(year: int, n: int)
    ensures IsLeap(year + 400 * n) == IsLeap(year)
  {
    AfterFours(year, 100 * n);
    AfterCenturies(year, 4 * n);
    AfterFourCenturies(year, n);
  }

  lemma {:induction false} AfterFours(year: int, n: int)
    ensures (year + 4 * n) % 4 == year % 4
  {
  }

  lemma {:induction false} AfterCenturies(year: int, n: int)
    ensures (year + 100 * n) % 100 == year % 100
  {
  }

  lemma {:induction false} AfterFourCenturies(year: int, n: int)
    ensures (year + 400 * n) % 400 == year % 400
  {
  }

  lemma {:induction false} YearsRepeat(base: Date, interval: int, month: int, day: int, k: int)
    ensures var j := (k - 1) % 400 + 1;
            YearHas(base, interval, month, day, k) == YearHas(base, interval, month, day, j)
  {
    var n, j := (k - 1) / 400, (k - 1) % 400 + 1;
    assert k == 400 * n + j;
    assert k * interval == 400 * (n * interval) + j * interval;
    CalendarRepeats(base.year + j * interval, n * interval);
  }

  /** A yearly rule lands exactly on its day in the first of its years that has
      it. The 400 years it tries are enough: it fails exactly when none of its
      years, however late, has the day. */
  lemma {:induction false} NextYearly(rule: Rule, base: Date)
    requires Normal(rule) && rule.frequency == Yearly && ValidDate(base)
    ensures Next(rule, base).Err? <==> forall j | 1 <= j :: !YearHas(base, rule.interval, rule.month, rule.monthDay, j)
    ensures Next(rule, base).Ok? ==>
              exists j :: 1 <= j <= YEAR_TRIES
                          && FoundInYear(base, rule.interval, rule.month, rule.monthDay, 0, j, Next(rule, base).value)
  {
    hide YearHas, YearlyFrom;
    YearlySearch(base, base.year + rule.interval, rule.interval, rule.month, rule.monthDay, 0, YEAR_TRIES);
    if Next(rule, base).Err? {
      forall k: int | 1 <= k ensures !YearHas(base, rule.interval, rule.month, rule.monthDay, k) {
        YearsRepeat(base, rule.interval, rule.month, rule.monthDay, k);
        assert 0 < (k - 1) % 400 + 1 <= YEAR_TRIES;
      }
    }
  }

  lemma {:induction false} YearlyIsLater(rule: Rule, base: Date)
    requires Normal(rule) && rule.frequency == Yearly && ValidDate(base) && Next(rule, base).Ok?
    ensures ValidDate(Next(rule, base).value) && Before(base, Next(rule, base).value)
  {
    hide Next, Before, YEAR_TRIES;
    NextYearly(rule, base);
    var found := Next(rule, base).value;
    var j :| 1 <= j <= YEAR_TRIES && FoundInYear(base, rule.interval, rule.month, rule.monthDay, 0, j, found);
    Product(j, rule.interval);
    LaterYearIsLater(base, found);
  }

  /** Weeks from Monday to Sunday. */
  function WeekOf(d: Date): int
    requires ValidDate(d)
  {
    (DayNumber(d) + 3) / 7
  }

  lemma {:induction false} WeekAfter(base: Date, n: nat, weeks: int, day: int)
    requires ValidDate(base) && WeekdayIso(base) + n == 7 * weeks + day && 1 <= day <= 7
    ensures WeekOf(AddDays(base, n)) == WeekOf(base) + weeks && WeekdayIso(AddDays(base, n)) == day
  {
    AddDaysNumber(base, n);
    hide AddDays, DayNumber;
    var x := DayNumber(base) + 3;
    assert x == 7 * (x / 7) + x % 7;
    assert x + n == 7 * (x / 7 + weeks) + day - 1;
  }

  ghost predicate IsLeast(days: seq<int>, above: int, day: int) {
    day in days && day > above && forall d | d in days && d > above :: day <= d
  }

  /** A weekly rule gives the least chosen day left in the week, or, when there is
      none, the least chosen day of the week `interval` weeks on. */
  lemma {:induction false} NextInWeeks(rule: Rule, base: Date)
    requires Normal(rule) && rule.frequency == Weekly && ValidDate(base)
    ensures var current, next := WeekdayIso(base), Next(rule, base).value;
            && ValidDate(next)
            && (if exists d :: d in rule.weekdays && d > current then
                  WeekOf(next) == WeekOf(base) && IsLeast(rule.weekdays, current, WeekdayIso(next))
                else WeekOf(next) == WeekOf(base) + rule.interval && IsLeast(rule.weekdays, 0, WeekdayIso(next)))
  {
    hide WeekdayIso, AddDays, WeekOf;
    var current := WeekdayIso(base);
    WeeklyStepIsPositive(rule, current);
    var n: nat := WeeklyStep(rule, current);
    var above := FirstAbove(rule.weekdays, current);
    hide FirstAbove;
    if above.Some? {
      forall d | d in rule.weekdays && d > current ensures above.value <= d {
        FirstAboveIsLeast(rule.weekdays, current, d);
      }
      WeekAfter(base, n, 0, above.value);
    } else {
      WeekAfter(base, n, rule.interval, rule.weekdays[0]);
    }
  }

  lemma {:induction false} Product(j: int, interval: int)
    requires 1 <= j && 1 <= interval
    ensures 1 <= j * interval
  {
  }

  lemma {:induction false} FoundIsLater(base: Date, interval: int, day: int, j: int, found: Date)
    requires ValidDate(base) && 1 <= interval && 1 <= j && 1 <= day && FoundAt(base, interval, day, 0, j, found)
    ensures ValidDate(found) && Before(base, found)
  {
    Product(j, interval);
    var index := MonthIndex(base) + j * interval;
    assert found == OfMonth(index, day) && day <= MonthLength(index);
    hide FoundAt, MonthHas;
    LaterMonthIsLater(base, found);
  }

  lemma {:induction false} MonthlyIsLater(rule: Rule, base: Date)
    requires Normal(rule) && rule.frequency == Monthly && ValidDate(base) && Next(rule, base).Ok?
    ensures ValidDate(Next(rule, base).value) && Before(base, Next(rule, base).value)
  {
    hide Next, FoundAt, MonthHas, Before, MONTH_TRIES;
    NextMonthly(rule, base);
    var found := Next(rule, base).value;
    var j :| 1 <= j <= MONTH_TRIES && FoundAt(base, rule.interval, rule.monthDay, 0, j, found);
    FoundIsLater(base, rule.interval, rule.monthDay, j, found);
  }

  /** Counting from the due date, the next occurrence is a valid later day. */
  lemma {:induction false} NextIsLater(rule: Rule, base: Date)
    requires Normal(rule) && ValidDate(base) && Next(rule, base).Ok?
    ensures ValidDate(Next(rule, base).value) && Before(base, Next(rule, base).value)
  {
    hide AddDays, WeekdayIso, MonthlyFrom, YearlyFrom, FirstWorking, WeeklyStep, Before;
    match rule.frequency
    case Daily => LaterByDays(base, rule.interval);
    case Weekdays =>
      NextWorkday(rule, base);
      LaterByDays(base, WorkdayStep(WeekdayIso(base)));
    case Weekly =>
      WeeklyStepIsPositive(rule, WeekdayIso(base));
      LaterByDays(base, WeeklyStep(rule, WeekdayIso(base)));
    case Monthly => MonthlyIsLater(rule, base);
    case Yearly => YearlyIsLater(rule, base);
  }

  // ---------------------------------------------------------------------
  // A series of tasks
  // ---------------------------------------------------------------------

  /** A task with its recurrence; `rest` is every other column. */
  datatype RepeatingTask = RepeatingTask(id: string, completed: bool, dueOn: Option<Date>,
                                         recurrence: Option<Recurrence>,
                                         seriesId: Option<string>, occurrenceKey: Option<Date>, rest: string)

  /** `nextRecurringTask`: nothing without a recurrence, an error if its
      rule has no next occurrence. */
  function NextTask(t: RepeatingTask, completedAt: Date, id: string): Result<Option<RepeatingTask>, Invalid>
    requires ValidDate(completedAt) && (t.dueOn.Some? ==> ValidDate(t.dueOn.value))
  {
    if t.recurrence.None? || t.dueOn.None? || !t.completed then Ok(None)
    else
      var anchor := if t.recurrence.value.anchor == Some(ByCompletion) then completedAt else t.dueOn.value;
      var dueOn :- NextOccurrence(t.recurrence.value, anchor, Some(completedAt));
      Ok(Some(t.(id := id, completed := false, dueOn := Some(dueOn), occurrenceKey := Some(dueOn),
                 seriesId := Some(if t.seriesId.Some? then t.seriesId.value else t.id))))
  }

  /** A task and its successors, each made when the one before was completed. */
  ghost predicate IsSeries(ts: seq<RepeatingTask>) {
    && |ts| >= 1
    && (forall i | 0 <= i < |ts| :: ts[i].dueOn.Some? && ValidDate(ts[i].dueOn.value))
    && (forall i | 0 <= i < |ts| - 1 :: Succeeds(ts[i], ts[i + 1]))
  }

  ghost predicate Succeeds(t: RepeatingTask, next: RepeatingTask)
    requires t.dueOn.Some? && ValidDate(t.dueOn.value)
  {
    exists at: Date, id: string :: ValidDate(at) && NextTask(t.(completed := true), at, id) == Ok(Some(next))
  }

  lemma {:induction false} SuccessorIsLater(t: RepeatingTask, next: RepeatingTask)
    requires t.dueOn.Some? && ValidDate(t.dueOn.value) && Succeeds(t, next)
    requires t.recurrence.Some? && t.recurrence.value.anchor != Some(ByCompletion)
    ensures next.dueOn.Some? && ValidDate(next.dueOn.value) && Before(t.dueOn.value, next.dueOn.value)
    ensures next.occurrenceKey == next.dueOn && next.recurrence == t.recurrence
    ensures next.seriesId == Some(if t.seriesId.Some? then t.seriesId.value else t.id)
  {
    var at: Date, id: string :| ValidDate(at) && NextTask(t.(completed := true), at, id) == Ok(Some(next));
    var rule := Normalize(t.recurrence.value).value;
    NormalizedIsNormal(t.recurrence.value);
    NextIsLater(rule, t.dueOn.value);
    hide Next;
  }

  lemma {:induction false} SeriesStep(ts: seq<RepeatingTask>, i: nat, j: nat)
    requires IsSeries(ts) && i < j < |ts|
    requires ts[0].recurrence.Some? && ts[0].recurrence.value.anchor != Some(ByCompletion)
    ensures ts[j].recurrence == ts[0].recurrence
    ensures ts[j].seriesId == Some(if ts[0].seriesId.Some? then ts[0].seriesId.value else ts[0].id)
    ensures ts[j].occurrenceKey == ts[j].dueOn
    ensures Before(ts[i].dueOn.value, ts[j].dueOn.value)
    decreases j
  {
    hide Succeeds, NextTask;
    assert Succeeds(ts[j - 1], ts[j - 1 + 1]);
    if j == 1 {
      SuccessorIsLater(ts[0], ts[1]);
    } else {
      SeriesStep(ts, 0, j - 1);
      SuccessorIsLater(ts[j - 1], ts[j]);
      if i < j - 1 {
        SeriesStep(ts, i, j - 1);
      }
    }
  }

  /** A series that counts from the calendar never repeats an occurrence key and
      keeps one series id. */
  lemma {:induction false} SeriesNeverRepeats(ts: seq<RepeatingTask>, i: nat, j: nat)
    requires IsSeries(ts) && 1 <= i < j < |ts|
    requires ts[0].recurrence.Some? && ts[0].recurrence.value.anchor != Some(ByCompletion)
    ensures ts[i].occurrenceKey.Some? && ts[j].occurrenceKey.Some?
    ensures ts[i].occurrenceKey != ts[j].occurrenceKey
    ensures ts[i].seriesId == ts[j].seriesId && ts[i].seriesId.Some?
  {
    SeriesStep(ts, i, j);
    SeriesStep(ts, 0, i);
    hide IsSeries;
  }
}
