/** Trading hours by asset class: open tests and next opening times, on a weekly calendar. */
module MarketHours {
  import opened Core

  // Instants are microseconds of UTC since a Monday midnight.
  const MINUTE := 60_000_000
  const HOUR := 3_600_000_000
  const DAY := 86_400_000_000

  datatype AssetClass = Forex | UsIndex | EuIndex | Gold | Oil | OtherCommodity | Crypto | UsStock

  function DayNumber(t: int): int { t / DAY }

  function TimeOfDay(t: int): int { t % DAY }

  /** ISO weekday: 1 is Monday, 7 is Sunday. */
  function WeekdayOf(day: int): int { day % 7 + 1 }

  function Weekday(t: int): int { WeekdayOf(DayNumber(t)) }

  function Hour(t: int): int { TimeOfDay(t) / HOUR }

  function Minute(t: int): int { TimeOfDay(t) % HOUR / MINUTE }

  /** The given time on a day. */
  function At(day: int, time: int): int { day * DAY + time }

  // ----- Open tests, as coded -----

  predicate ForexOpen(t: int) {
    if Weekday(t) == 6 then false
    else if Weekday(t) == 7 then Hour(t) >= 21
    else if Weekday(t) == 5 then Hour(t) < 21 || (Hour(t) == 21 && Minute(t) == 0)
    else true
  }

  predicate SessionOpen(t: int, open: int, close: int) {
    Weekday(t) <= 5 && open <= Hour(t) * 60 + Minute(t) < close
  }

  predicate GoldOpen(t: int) {
    if Weekday(t) == 6 then false
    else if Weekday(t) == 7 then Hour(t) >= 23
    else !(22 <= Hour(t) < 23)
  }

  predicate OilOpen(t: int) {
    if Weekday(t) == 6 then false
    else if Weekday(t) == 7 then Hour(t) >= 23
    else if Weekday(t) == 5 then Hour(t) < 22
    else !(22 <= Hour(t) < 23)
  }

  predicate IsOpen(c: AssetClass, t: int) {
    match c
    case Crypto => true
    case Forex => ForexOpen(t)
    case UsIndex | UsStock => SessionOpen(t, 870, 1260)
    case EuIndex => SessionOpen(t, 480, 990)
    case Gold => GoldOpen(t)
    case Oil => OilOpen(t)
    case OtherCommodity => Weekday(t) <= 5 && 1 <= Hour(t) < 22
  }

  // ----- Next openings, as coded -----

  function NextForexOpen(t: int): int {
    var ahead := if Weekday(t) == 6 then 1
                 else if Weekday(t) == 7 && Hour(t) < 21 then 0
                 else if Weekday(t) == 5 && Hour(t) >= 21 then 2
                 else if 7 - Weekday(t) <= 0 then 14 - Weekday(t) else 7 - Weekday(t);
    At(DayNumber(t) + ahead, 21 * HOUR)
  }

  /** Days from a weekday to the next Monday-to-Friday day after it. */
  function DaysToWeekday(weekday: int): int {
    if weekday == 5 then 3 else if weekday == 6 then 2 else 1
  }

  function NextSessionOpen(t: int, open: int): int {
    if Weekday(t) <= 5 && TimeOfDay(t) < open then At(DayNumber(t), open)
    else At(DayNumber(t) + DaysToWeekday(Weekday(t)), open)
  }

  function NextGoldOpen(t: int): int {
    var ahead := if Weekday(t) <= 5 && 22 <= Hour(t) < 23 then 0
                 else if Weekday(t) == 6 then 1
                 else if Weekday(t) == 7 && Hour(t) < 23 then 0
                 else if Weekday(t) == 5 && Hour(t) >= 22 then 2
                 else 1;
    At(DayNumber(t) + ahead, 23 * HOUR)
  }

  function NextOilOpen(t: int): int {
    var ahead := if Weekday(t) <= 4 && 22 <= Hour(t) < 23 then 0
                 else if Weekday(t) == 5 && Hour(t) >= 22 then 2
                 else if Weekday(t) == 6 then 1
                 else if Weekday(t) == 7 && Hour(t) < 23 then 0
                 else 1;
    At(DayNumber(t) + ahead, 23 * HOUR)
  }

  function NextOpen(c: AssetClass, t: int): int {
    if IsOpen(c, t) then t
    else
      match c
      case Crypto => t
      case Forex => NextForexOpen(t)
      case UsIndex | UsStock => NextSessionOpen(t, 14 * HOUR + 30 * MINUTE)
      case EuIndex => NextSessionOpen(t, 8 * HOUR)
      case Gold => NextGoldOpen(t)
      case Oil => NextOilOpen(t)
      case OtherCommodity => NextSessionOpen(t, 1 * HOUR)
  }

  // ----- The weekly schedule -----

  /** When each class trades, by weekday and time of day. */
  predicate Scheduled(c: AssetClass, weekday: int, time: int) {
    match c
    case Crypto => true
    case Forex =>
      || 1 <= weekday <= 4
      || (weekday == 5 && time < 21 * HOUR + MINUTE)
      || (weekday == 7 && time >= 21 * HOUR)
    case UsIndex | UsStock => 1 <= weekday <= 5 && 14 * HOUR + 30 * MINUTE <= time < 21 * HOUR
    case EuIndex => 1 <= weekday <= 5 && 8 * HOUR <= time < 16 * HOUR + 30 * MINUTE
    case Gold => (1 <= weekday <= 5 && (time < 22 * HOUR || time >= 23 * HOUR)) || (weekday == 7 && time >= 23 * HOUR)
    case Oil =>
      || (1 <= weekday <= 4 && (time < 22 * HOUR || time >= 23 * HOUR))
      || (weekday == 5 && time < 22 * HOUR)
      || (weekday == 7 && time >= 23 * HOUR)
    case OtherCommodity => 1 <= weekday <= 5 && HOUR <= time < 22 * HOUR
  }

  lemma Clock(t: int)
    ensures 0 <= TimeOfDay(t) < DAY && t == At(DayNumber(t), TimeOfDay(t)) && 1 <= Weekday(t) <= 7
    ensures forall h :: Hour(t) >= h <==> TimeOfDay(t) >= h * HOUR
    ensures Hour(t) * 60 + Minute(t) == TimeOfDay(t) / MINUTE
  {
  }

  /** The open tests follow the schedule: Friday's forex minute 21:00 and gold's Friday hour from 23:00 count as open. */
  lemma OpenIsScheduled(c: AssetClass, t: int)
    ensures IsOpen(c, t) <==> Scheduled(c, Weekday(t), TimeOfDay(t))
  {
    Clock(t);
  }

  /** The hours as documented for each class. */
  predicate Documented(c: AssetClass, weekday: int, time: int) {
    match c
    case Crypto => true
    case Forex => 1 <= weekday <= 4 || (weekday == 5 && time < 21 * HOUR) || (weekday == 7 && time >= 21 * HOUR)
    case UsIndex | UsStock => 1 <= weekday <= 5 && 14 * HOUR + 30 * MINUTE <= time < 21 * HOUR
    case EuIndex => 1 <= weekday <= 5 && 8 * HOUR <= time < 16 * HOUR + 30 * MINUTE
    case Gold | Oil =>
      || (1 <= weekday <= 4 && (time < 22 * HOUR || time >= 23 * HOUR))
      || (weekday == 5 && time < 22 * HOUR)
      || (weekday == 7 && time >= 23 * HOUR)
    case OtherCommodity => 1 <= weekday <= 5 && HOUR <= time < 22 * HOUR
  }

  /** The code leaves the documented hours on Fridays only: forex keeps the minute from 21:00, gold the hour from 23:00. */
  lemma HoursDepartOnFridays(c: AssetClass, t: int)
    ensures IsOpen(c, t) != Documented(c, Weekday(t), TimeOfDay(t))
       <==> Weekday(t) == 5 && (|| (c.Forex? && 21 * HOUR <= TimeOfDay(t) < 21 * HOUR + MINUTE)
                                || (c.Gold? && TimeOfDay(t) >= 23 * HOUR))
  {
    OpenIsScheduled(c, t);
    Clock(t);
  }

  /** The overview of the hours gives oil another week: Monday 00:00 to Friday 22:00, without breaks. */
  predicate OilOverview(weekday: int, time: int) { 1 <= weekday <= 4 || (weekday == 5 && time < 22 * HOUR) }

  /** From that the code departs in the daily breaks and in the last hour of Sunday. */
  lemma OilDepartsFromOverview(t: int)
    ensures IsOpen(Oil, t) != OilOverview(Weekday(t), TimeOfDay(t))
       <==> || (1 <= Weekday(t) <= 4 && 22 * HOUR <= TimeOfDay(t) < 23 * HOUR)
            || (Weekday(t) == 7 && TimeOfDay(t) >= 23 * HOUR)
  {
    OpenIsScheduled(Oil, t);
    Clock(t);
  }

  lemma AtSplits(day: int, time: int)
    requires 0 <= time < DAY
    ensures DayNumber(At(day, time)) == day && TimeOfDay(At(day, time)) == time
  {
  }

  lemma DayOrder(t: int, u: int)
    requires t <= u
    ensures DayNumber(t) < DayNumber(u) || (DayNumber(t) == DayNumber(u) && TimeOfDay(t) <= TimeOfDay(u))
  {
  }

  // ----- The next opening is the least one -----

  /** The time of day at which a closed class next opens, and in how many days. */
  function OpeningTime(c: AssetClass): int {
    match c
    case Crypto => 0
    case Forex => 21 * HOUR
    case UsIndex | UsStock => 14 * HOUR + 30 * MINUTE
    case EuIndex => 8 * HOUR
    case Gold | Oil => 23 * HOUR
    case OtherCommodity => HOUR
  }

  function DaysAhead(c: AssetClass, weekday: int, time: int): int {
    match c
    case Crypto => 0
    case Forex | Gold | Oil =>
      if weekday == 7 || (time < 23 * HOUR && (weekday <= 4 || (c.Gold? && weekday == 5))) then 0
      else if weekday == 6 then 1
      else 2
    case UsIndex | UsStock | EuIndex | OtherCommodity =>
      if weekday <= 5 && time < OpeningTime(c) then 0 else DaysToWeekday(weekday)
  }

  lemma NextOpenSplits(c: AssetClass, t: int)
    requires !IsOpen(c, t)
    ensures NextOpen(c, t) == At(DayNumber(t) + DaysAhead(c, Weekday(t), TimeOfDay(t)), OpeningTime(c))
  {
    Clock(t);
  }

  /** The weekday some days later, for the few days an opening can be away. */
  function Plus(weekday: int, days: int): int { if weekday + days > 7 then weekday + days - 7 else weekday + days }

  lemma PlusIsWeekday(day: int, days: int)
    requires 0 <= days <= 7
    ensures WeekdayOf(day + days) == Plus(WeekdayOf(day), days)
  {
  }

  lemma OpensThen(c: AssetClass, weekday: int, time: int)
    requires 1 <= weekday <= 7 && 0 <= time < DAY && !Scheduled(c, weekday, time)
    ensures var ahead := DaysAhead(c, weekday, time);
            && 0 <= ahead <= 3 && (ahead == 0 ==> time < OpeningTime(c))
            && Scheduled(c, Plus(weekday, ahead), OpeningTime(c))
  {
  }

  lemma ClosedUntilThen(c: AssetClass, weekday: int, time: int, days: int, later: int)
    requires 1 <= weekday <= 7 && 0 <= time < DAY && 0 <= later < DAY && !Scheduled(c, weekday, time)
    requires 0 <= days <= DaysAhead(c, weekday, time) && (days == 0 ==> time <= later)
    requires days == DaysAhead(c, weekday, time) ==> later < OpeningTime(c)
    ensures !Scheduled(c, Plus(weekday, days), later)
  {
    match c
    case Crypto =>
    case Forex =>
    case UsIndex | UsStock =>
    case EuIndex =>
    case Gold =>
    case Oil =>
    case OtherCommodity =>
  }

  /** The next opening is no earlier than now, and open. */
  lemma NextOpenIsOpen(c: AssetClass, t: int)
    ensures t <= NextOpen(c, t) && IsOpen(c, NextOpen(c, t))
  {
    if !IsOpen(c, t) {
      OpenIsScheduled(c, t);
      Clock(t);
      var ahead := DaysAhead(c, Weekday(t), TimeOfDay(t));
      NextOpenSplits(c, t);
      OpensThen(c, Weekday(t), TimeOfDay(t));
      PlusIsWeekday(DayNumber(t), ahead);
      AtSplits(DayNumber(t) + ahead, OpeningTime(c));
      OpenIsScheduled(c, NextOpen(c, t));
    }
  }

  /** No instant before it is open. */
  lemma NextOpenIsLeast(c: AssetClass, t: int, u: int)
    requires t <= u < NextOpen(c, t)
    ensures !IsOpen(c, u)
  {
    OpenIsScheduled(c, t);
    Clock(t);
    Clock(u);
    var ahead := DaysAhead(c, Weekday(t), TimeOfDay(t));
    NextOpenSplits(c, t);
    OpensThen(c, Weekday(t), TimeOfDay(t));
    AtSplits(DayNumber(t) + ahead, OpeningTime(c));
    DayOrder(t, u);
    DayOrder(u, NextOpen(c, t));
    PlusIsWeekday(DayNumber(t), DayNumber(u) - DayNumber(t));
    ClosedUntilThen(c, Weekday(t), TimeOfDay(t), DayNumber(u) - DayNumber(t), TimeOfDay(u));
    OpenIsScheduled(c, u);
  }

  // ----- Methods -----

  /** The search for the next weekday. */
  method FindWeekday(weekday: int) returns (daysAhead: int)
    requires 1 <= weekday <= 7
    ensures daysAhead == DaysToWeekday(weekday)
    ensures 1 <= daysAhead && Plus(weekday, daysAhead) <= 5
    ensures forall d :: 1 <= d < daysAhead ==> Plus(weekday, d) > 5
  {
    daysAhead := 1;
    var nextDay := weekday + 1;
    while true
      invariant 1 <= daysAhead <= DaysToWeekday(weekday)
      invariant 2 <= nextDay <= 8 && (nextDay - weekday - daysAhead) % 7 == 0
      decreases 7 - daysAhead
    {
      if nextDay > 7 {
        nextDay := 1;
      }
      if 1 <= nextDay <= 5 {
        break;
      }
      daysAhead := daysAhead + 1;
      nextDay := nextDay + 1;
    }
  }

  class Hours {
    /** Registered instruments; `guess` classifies the others by their names. */
    var instruments: map<string, AssetClass>
    const guess: string -> AssetClass

    function ClassOf(instrument: string): AssetClass
      reads this
    {
      if instrument in instruments then instruments[instrument] else guess(instrument)
    }

    constructor (instruments: map<string, AssetClass>, guess: string -> AssetClass)
      ensures this.instruments == instruments && this.guess == guess
    {
      this.instruments := instruments;
      this.guess := guess;
    }

    method RegisterInstrument(instrument: string, assetClass: AssetClass)
      modifies this
      ensures ClassOf(instrument) == assetClass
      ensures forall other :: other != instrument ==> ClassOf(other) == old(ClassOf(other))
    {
      instruments := instruments[instrument := assetClass];
    }

    method NextSession(t: int, open: int) returns (next: int)
      ensures next == NextSessionOpen(t, open)
    {
      Clock(t);
      if Weekday(t) <= 5 && TimeOfDay(t) < open {
        return At(DayNumber(t), open);
      }
      var daysAhead := FindWeekday(Weekday(t));
      return At(DayNumber(t) + daysAhead, open);
    }

    /** The least open instant from now on. */
    method GetNextOpen(instrument: string, t: int) returns (next: int)
      ensures next == NextOpen(ClassOf(instrument), t)
      ensures t <= next && IsOpen(ClassOf(instrument), next)
      ensures forall u :: t <= u < next ==> !IsOpen(ClassOf(instrument), u)
    {
      var c := ClassOf(instrument);
      NextOpenIsOpen(c, t);
      forall u | t <= u < NextOpen(c, t) ensures !IsOpen(c, u) {
        NextOpenIsLeast(c, t, u);
      }
      if IsOpen(c, t) {
        return t;
      }
      match c
      case Crypto => return t;
      case Forex => return NextForexOpen(t);
      case UsIndex | UsStock => next := NextSession(t, 14 * HOUR + 30 * MINUTE);
      case EuIndex => next := NextSession(t, 8 * HOUR);
      case Gold => return NextGoldOpen(t);
      case Oil => return NextOilOpen(t);
      case OtherCommodity => next := NextSession(t, 1 * HOUR);
    }
  }
}
