// Settlement periods over any local midnight: days of 23, 24 or 25 hours, and the gate closures in them.
module Deadlines {
  import opened Wrappers

  // Times are in microseconds, days are numbered one after another.
  const HALF_HOUR: int := 1_800_000_000

  // When each day begins, by the local clock.
  type Midnight = int -> int

  // periods_in_day; None where DeadlineError is raised.
  function PeriodsInDay(midnight: Midnight, day: int): Option<int> {
    var length := midnight(day + 1) - midnight(day);
    if length == 46 * HALF_HOUR then Some(46)
    else if length == 48 * HALF_HOUR then Some(48)
    else if length == 50 * HALF_HOUR then Some(50)
    else None
  }

  // Every day lasts 23, 24 or 25 hours.
  ghost predicate Zone(midnight: Midnight) {
    forall day: int :: PeriodsInDay(midnight, day).Some?
  }

  function PeriodStart(midnight: Midnight, day: int, period: int): Option<int> {
    match PeriodsInDay(midnight, day)
    case None => None
    case Some(total) => if 1 <= period <= total then Some(midnight(day) + (period - 1) * HALF_HOUR) else None
  }

  function PeriodEnd(midnight: Midnight, day: int, period: int): Option<int> {
    match PeriodStart(midnight, day, period)
    case None => None
    case Some(start) => Some(start + HALF_HOUR)
  }

  // One hour before the period.
  function GateClosure(midnight: Midnight, day: int, period: int): Option<int> {
    match PeriodStart(midnight, day, period)
    case None => None
    case Some(start) => Some(start - 2 * HALF_HOUR)
  }

  predicate Exists(midnight: Midnight, day: int, period: int) {
    PeriodStart(midnight, day, period).Some?
  }

  predicate Before(d: int, p: int, e: int, q: int) {
    d < e || (d == e && p < q)
  }

  // --- periods tile time -------------------------------------------------------------------

  lemma {:induction false} MidnightsGrow(midnight: Midnight, d: int, e: int)
    requires Zone(midnight) && d <= e
    ensures midnight(e) >= midnight(d) + (e - d) * 46 * HALF_HOUR
    decreases e - d
  {
    if d < e {
      MidnightsGrow(midnight, d, e - 1);
      assert PeriodsInDay(midnight, e - 1).Some?;
    }
  }

  // A period ends where the next one begins, across midnight too.
  lemma NextBeginsAtEnd(midnight: Midnight, day: int, period: int)
    requires Zone(midnight) && Exists(midnight, day, period)
    ensures PeriodEnd(midnight, day, period) ==
            if Exists(midnight, day, period + 1) then PeriodStart(midnight, day, period + 1)
            else PeriodStart(midnight, day + 1, 1)
    ensures !Exists(midnight, day, period + 1) ==> Exists(midnight, day + 1, 1)
  {
    assert PeriodsInDay(midnight, day + 1).Some?;
  }

  // Periods do not overlap, and both they and their gate closures are strictly in order of date and period.
  lemma ClosuresIncrease(midnight: Midnight, d: int, p: int, e: int, q: int)
    requires Zone(midnight) && Exists(midnight, d, p) && Exists(midnight, e, q)
    ensures Before(d, p, e, q) <==> PeriodEnd(midnight, d, p).value <= PeriodStart(midnight, e, q).value
    ensures Before(d, p, e, q) <==> GateClosure(midnight, d, p).value < GateClosure(midnight, e, q).value
  {
    if d < e {
      MidnightsGrow(midnight, d + 1, e);
    } else if e < d {
      MidnightsGrow(midnight, e + 1, d);
    }
  }

  predicate Contains(midnight: Midnight, day: int, period: int, t: int) {
    Exists(midnight, day, period)
    && PeriodStart(midnight, day, period).value <= t < PeriodEnd(midnight, day, period).value
  }

  lemma DayOf(midnight: Midnight, t: int, from: int) returns (day: int)
    requires Zone(midnight)
    ensures midnight(day) <= t < midnight(day + 1)
    decreases if t >= midnight(from) then t - midnight(from) else midnight(from) - t
  {
    assert PeriodsInDay(midnight, from).Some? && PeriodsInDay(midnight, from - 1).Some?;
    if midnight(from) <= t < midnight(from + 1) {
      day := from;
    } else if t >= midnight(from + 1) {
      day := DayOf(midnight, t, from + 1);
    } else {
      day := DayBefore(midnight, t, from);
    }
  }

  lemma DayBefore(midnight: Midnight, t: int, from: int) returns (day: int)
    requires Zone(midnight) && t < midnight(from)
    ensures midnight(day) <= t < midnight(day + 1)
    decreases midnight(from) - t
  {
    assert PeriodsInDay(midnight, from - 1).Some?;
    if midnight(from - 1) <= t {
      day := from - 1;
    } else {
      day := DayBefore(midnight, t, from - 1);
    }
  }

  // Every instant lies in one period and no other.
  lemma PeriodsTile(midnight: Midnight, t: int) returns (day: int, period: int)
    requires Zone(midnight)
    ensures Contains(midnight, day, period, t)
    ensures forall d, p :: Contains(midnight, d, p, t) ==> d == day && p == period
  {
    day := DayOf(midnight, t, 0);
    assert PeriodsInDay(midnight, day).Some?;
    period := (t - midnight(day)) / HALF_HOUR + 1;
    forall d, p | Contains(midnight, d, p, t) ensures d == day && p == period {
      ClosuresIncrease(midnight, d, p, day, period);
      ClosuresIncrease(midnight, day, period, d, p);
    }
  }

  // --- open periods ---------------------------------------------------------------------------

  predicate InWindow(midnight: Midnight, day: int, period: int, now: int, horizon: int) {
    Exists(midnight, day, period) && now < GateClosure(midnight, day, period).value <= now + horizon
  }

  predicate InOrder(periods: seq<(int, int)>) {
    forall i, j :: 0 <= i < j < |periods| ==> Before(periods[i].0, periods[i].1, periods[j].0, periods[j].1)
  }

  // The loops of open_periods, from the local day that now is in: in order, without repeats, and just
  // the periods of three days whose gates close within the horizon.
  method OpenPeriods(midnight: Midnight, today: int, now: int, horizon: int) returns (result: seq<(int, int)>)
    requires Zone(midnight) && midnight(today) <= now < midnight(today + 1)
    ensures InOrder(result)
    ensures forall d, p :: (d, p) in result <==> today <= d <= today + 2 && InWindow(midnight, d, p, now, horizon)
  {
    result := [];
    for offset := 0 to 3
      invariant InOrder(result)
      invariant forall d, p :: (d, p) in result <==> today <= d < today + offset && InWindow(midnight, d, p, now, horizon)
    {
      var day := today + offset;
      assert PeriodsInDay(midnight, day).Some?;
      var total := PeriodsInDay(midnight, day).value;
      for period := 1 to total + 1
        invariant InOrder(result)
        invariant forall d, p :: (d, p) in result <==>
                    (today <= d < day || (d == day && p < period)) && InWindow(midnight, d, p, now, horizon)
      {
        var closure := GateClosure(midnight, day, period).value;
        if now < closure <= now + horizon {
          assert forall i :: 0 <= i < |result| ==> (result[i].0, result[i].1) in result;
          result := result + [(day, period)];
        }
      }
    }
  }

  lemma OnlyFromToday(midnight: Midnight, today: int, now: int, horizon: int, d: int, p: int)
    requires Zone(midnight) && midnight(today) <= now < midnight(today + 1) && InWindow(midnight, d, p, now, horizon)
    ensures today <= d
    ensures now + horizon < midnight(today + 3) - 2 * HALF_HOUR ==> d <= today + 2
  {
    assert PeriodsInDay(midnight, d).Some?;
    if d < today {
      MidnightsGrow(midnight, d + 1, today);
    } else if d > today + 2 {
      MidnightsGrow(midnight, today + 3, d);
    }
  }

  // The three days that open_periods looks at hold every period whose gate closes within the horizon
  // exactly when the horizon ends before the first gate of the fourth day.
  lemma ThreeDaysSuffice(midnight: Midnight, today: int, now: int, horizon: int)
    requires Zone(midnight) && midnight(today) <= now < midnight(today + 1)
    ensures (forall d, p :: InWindow(midnight, d, p, now, horizon) ==> today <= d <= today + 2)
        <==> now + horizon < midnight(today + 3) - 2 * HALF_HOUR
  {
    forall d, p | InWindow(midnight, d, p, now, horizon)
      ensures today <= d && (now + horizon < midnight(today + 3) - 2 * HALF_HOUR ==> d <= today + 2)
    {
      OnlyFromToday(midnight, today, now, horizon, d, p);
    }
    MidnightsGrow(midnight, today + 1, today + 3);
    assert PeriodsInDay(midnight, today + 3).Some?;
    assert now + horizon >= midnight(today + 3) - 2 * HALF_HOUR ==> InWindow(midnight, today + 3, 1, now, horizon);
  }

  // So they do for every horizon up to 45 hours, whatever the clocks do.
  lemma FortyFiveHoursSuffice(midnight: Midnight, today: int, now: int, horizon: int)
    requires Zone(midnight) && midnight(today) <= now < midnight(today + 1) && horizon <= 90 * HALF_HOUR
    ensures forall d, p :: InWindow(midnight, d, p, now, horizon) ==> today <= d <= today + 2
  {
    MidnightsGrow(midnight, today + 1, today + 3);
    ThreeDaysSuffice(midnight, today, now, horizon);
  }

  // A zone with two short days in a row.
  function TwoShortDays(day: int): int {
    if day <= 1 then 48 * HALF_HOUR * day
    else if day == 2 then 94 * HALF_HOUR
    else 48 * HALF_HOUR * day - 4 * HALF_HOUR
  }

  // And for no longer one: just before midnight, with two short days to come, a period is missed.
  lemma LongerHorizonMisses(horizon: int)
    requires horizon > 90 * HALF_HOUR
    ensures Zone(TwoShortDays) && TwoShortDays(0) <= 48 * HALF_HOUR - 1 < TwoShortDays(1)
    ensures InWindow(TwoShortDays, 3, 1, 48 * HALF_HOUR - 1, horizon)
  {
  }
}
