/**
 * Which sessions `calculate_weekly_totals` counts toward "this week", and
 * the total it reports. The window runs from `now` moved back to Monday,
 * with `now`'s time of day kept, to six days after that; each session's date
 * is cut to midnight before it is compared.
 */
module Week {
  import opened Clock
  import opened Wrappers
  import opened Store

  /** The filter of `calculate_weekly_totals`, as written. */
  predicate InWindow(now: Timestamp, date: Timestamp)
    ensures InWindow(now, date) <==>
      MondayOf(now.day) < date.day <= MondayOf(now.day) + 6
      || (date.day == MondayOf(now.day) && now.time == 0)
  {
    var weekStart := AddDays(now, -Weekday(now.day));
    var weekEnd := AddDays(weekStart, 6);
    AtMost(weekStart, Midnight(date)) && AtMost(Midnight(date), weekEnd)
  }

  /** Monday to Sunday of `now`'s week, every day in full. */
  predicate InCalendarWeek(now: Timestamp, date: Timestamp)
  {
    MondayOf(now.day) <= date.day <= MondayOf(now.day) + 6
  }

  /**
   * The sessions of `ss` whose date `counted` accepts, in stored order: each
   * accepted session is kept once per occurrence, each other one is dropped.
   */
  function Filter(ss: seq<Session>, counted: Timestamp -> bool): (r: seq<Session>)
    ensures |r| <= |ss|
    ensures forall s :: s in r <==> s in ss && counted(s.date)
  {
    if ss == [] then []
    else (if counted(ss[0].date) then [ss[0]] else []) + Filter(ss[1..], counted)
  }

  /** The filter keeps an accepted session exactly as many times as it occurs, and drops every other one. */
  lemma {:induction false} FilterKeepsOccurrences(ss: seq<Session>, counted: Timestamp -> bool, s: Session)
    ensures multiset(Filter(ss, counted))[s] == if counted(s.date) then multiset(ss)[s] else 0
  {
    if ss != [] {
      assert ss == [ss[0]] + ss[1..];
      FilterKeepsOccurrences(ss[1..], counted, s);
    }
  }

  /** `sum(float(d) for d in durations)`: the sum of every duration, or the first one `parse` rejects. */
  function SumDurations(ss: seq<Session>, parse: string -> Option<real>): (r: Result<real, string>)
  {
    if ss == [] then Success(0.0)
    else
      match parse(ss[0].duration)
      case None => Failure(ss[0].duration)
      case Some(v) =>
        match SumDurations(ss[1..], parse)
        case Failure(e) => Failure(e)
        case Success(t) => Success(v + t)
  }

  /**
   * The generator of `calculate_weekly_totals`: filter, then parse, then
   * add. A duration is parsed only once its session has passed the filter,
   * so the total fails exactly when some counted session's duration does
   * not parse, and then on the first such one.
   */
  function TotalWhere(ss: seq<Session>, counted: Timestamp -> bool, parse: string -> Option<real>): (r: Result<real, string>)
    ensures r.Failure? <==> exists i :: 0 <= i < |ss| && counted(ss[i].date) && parse(ss[i].duration).None?
    ensures r.Failure? ==>
      exists i :: (0 <= i < |ss| && counted(ss[i].date) && parse(ss[i].duration).None?
        && r.error == ss[i].duration
        && forall j :: 0 <= j < i && counted(ss[j].date) ==> parse(ss[j].duration).Some?)
  {
    if ss == [] then Success(0.0)
    else
      var rest := TotalWhere(ss[1..], counted, parse);
      if !counted(ss[0].date) then
        assert forall i :: 0 < i < |ss| ==> ss[i] == ss[1..][i - 1];
        rest
      else
        match parse(ss[0].duration)
        case None => Failure(ss[0].duration)
        case Some(v) =>
          assert forall i :: 0 < i < |ss| ==> ss[i] == ss[1..][i - 1];
          match rest
          case Failure(e) => Failure(e)
          case Success(t) => Success(v + t)
  }

  /** The filter of `calculate_weekly_totals` at the clock reading `now`, as a test on session dates. */
  function WindowAt(now: Timestamp): Timestamp -> bool
  {
    d => InWindow(now, d)
  }

  /** The full Monday-to-Sunday week of `now`, as a test on session dates. */
  function CalendarWeekAt(now: Timestamp): Timestamp -> bool
  {
    d => InCalendarWeek(now, d)
  }

  /** The sessions `calculate_weekly_totals` counts, each as often as it was logged, in stored order. */
  function WeekSessions(ss: seq<Session>, now: Timestamp): (r: seq<Session>)
    ensures forall s :: s in r <==> s in ss && InWindow(now, s.date)
  {
    Filter(ss, WindowAt(now))
  }

  /**
   * `calculate_weekly_totals`: the sum of the counted durations, or the
   * first counted duration whose `float()` raised.
   */
  function WeeklyTotal(ss: seq<Session>, now: Timestamp, parse: string -> Option<real>): (r: Result<real, string>)
    ensures r == SumDurations(WeekSessions(ss, now), parse)
    ensures r.Failure? <==> exists i :: 0 <= i < |ss| && InWindow(now, ss[i].date) && parse(ss[i].duration).None?
  {
    TotalIsSumOfFiltered(ss, WindowAt(now), parse);
    TotalWhere(ss, WindowAt(now), parse)
  }

  /** The total over the full Monday-to-Sunday week, the window the function's name and docstring describe. */
  function CalendarWeekTotal(ss: seq<Session>, now: Timestamp, parse: string -> Option<real>): (r: Result<real, string>)
    ensures r == SumDurations(Filter(ss, CalendarWeekAt(now)), parse)
    ensures r.Failure? <==> exists i :: 0 <= i < |ss| && InCalendarWeek(now, ss[i].date) && parse(ss[i].duration).None?
  {
    TotalIsSumOfFiltered(ss, CalendarWeekAt(now), parse);
    TotalWhere(ss, CalendarWeekAt(now), parse)
  }

  /** Filtering and parsing in one pass agrees with filtering first and then summing what is left. */
  lemma {:induction false} TotalIsSumOfFiltered(ss: seq<Session>, counted: Timestamp -> bool, parse: string -> Option<real>)
    ensures TotalWhere(ss, counted, parse) == SumDurations(Filter(ss, counted), parse)
  {
    if ss != [] {
      TotalIsSumOfFiltered(ss[1..], counted, parse);
      var f := Filter(ss, counted);
      if counted(ss[0].date) {
        assert f == [ss[0]] + Filter(ss[1..], counted);
        assert f[0] == ss[0] && f[1..] == Filter(ss[1..], counted);
        match parse(ss[0].duration)
        case None =>
        case Some(v) =>
          assert TotalWhere(ss, counted, parse) == (match TotalWhere(ss[1..], counted, parse)
            case Failure(e) => Failure(e)
            case Success(t) => Success(v + t));
      } else {
        assert f == Filter(ss[1..], counted);
      }
    }
  }

  /** Filtering a concatenation filters each part and keeps them in order. */
  lemma {:induction false} FilterAppend(a: seq<Session>, b: seq<Session>, counted: Timestamp -> bool)
    ensures Filter(a + b, counted) == Filter(a, counted) + Filter(b, counted)
  {
    if a == [] {
      assert a + b == b;
    } else {
      assert (a + b)[0] == a[0];
      assert (a + b)[1..] == a[1..] + b;
      FilterAppend(a[1..], b, counted);
    }
  }

  /** Logging a session adds it at the end of the week's sessions exactly when its date is in the window. */
  lemma LoggedJoinsWeek(ss: seq<Session>, s: Session, now: Timestamp)
    ensures WeekSessions(ss + [s], now) == WeekSessions(ss, now) + (if InWindow(now, s.date) then [s] else [])
  {
    FilterAppend(ss, [s], WindowAt(now));
    assert Filter([s], WindowAt(now)) == (if InWindow(now, s.date) then [s] else []) + Filter([], WindowAt(now));
  }

  /**
   * Only the durations of counted sessions are parsed: two parsers that agree
   * on those give the same total, whatever they make of the rest.
   */
  lemma {:induction false} OnlyCountedParsed(ss: seq<Session>, counted: Timestamp -> bool, p: string -> Option<real>, q: string -> Option<real>)
    requires forall i :: 0 <= i < |ss| && counted(ss[i].date) ==> p(ss[i].duration) == q(ss[i].duration)
    ensures TotalWhere(ss, counted, p) == TotalWhere(ss, counted, q)
  {
    if ss != [] {
      assert forall i :: 0 < i < |ss| ==> ss[i] == ss[1..][i - 1];
      OnlyCountedParsed(ss[1..], counted, p, q);
    }
  }

  /** Tuesday to Sunday of the current week always count. */
  lemma TuesdayToSundayCounted(now: Timestamp, date: Timestamp)
    requires MondayOf(now.day) < date.day <= MondayOf(now.day) + 6
    ensures InWindow(now, date)
  {
  }

  /** Nothing before the current Monday and nothing after the current Sunday counts. */
  lemma OutsideWeekNotCounted(now: Timestamp, date: Timestamp)
    requires date.day < MondayOf(now.day) || date.day > MondayOf(now.day) + 6
    ensures !InWindow(now, date)
  {
  }

  /** A session of the current Monday counts only while `now` is exactly midnight. */
  lemma MondayCountedOnlyAtMidnight(now: Timestamp, date: Timestamp)
    requires date.day == MondayOf(now.day)
    ensures InWindow(now, date) <==> now.time == 0
  {
  }

  /** A session's own time of day never matters, only its date. */
  lemma TimeOfSessionIgnored(now: Timestamp, a: Timestamp, b: Timestamp)
    requires a.day == b.day
    ensures InWindow(now, a) <==> InWindow(now, b)
  {
  }

  /** A session logged at `now` is missing from the total at that same moment when it is a Monday past midnight. */
  lemma JustLoggedCounted(now: Timestamp)
    ensures InWindow(now, now) <==> Weekday(now.day) != 0 || now.time == 0
  {
  }

  /** The full week is exactly the days whose Monday is `now`'s Monday. */
  lemma CalendarWeekIsSameWeek(now: Timestamp, date: Timestamp)
    ensures InCalendarWeek(now, date) <==> MondayOf(date.day) == MondayOf(now.day)
  {
  }

  /** The window as written is the full week less the current Monday, which it keeps only at midnight. */
  lemma WindowIsWeekLessMonday(now: Timestamp, date: Timestamp)
    ensures InWindow(now, date) <==>
      InCalendarWeek(now, date) && (date.day != MondayOf(now.day) || now.time == 0)
  {
  }

  /**
   * Sessions on Monday 2024-01-01 (ordinal 738886) and Friday 2024-01-05 with
   * durations "2" and "1.5", and one on Sunday 2023-12-31 with "5", totalled
   * on that Friday at noon: the full week gives 3.5, the code gives 1.5.
   */
  lemma MondaySessionMissed(parse: string -> Option<real>)
    requires parse("2") == Some(2.0) && parse("1.5") == Some(1.5) && parse("5") == Some(5.0)
    ensures var noon := 12 * 3_600_000_000;
      var ss := [Session(Timestamp(738886, 9 * 3_600_000_000), "Math", "2"),
                 Session(Timestamp(738890, 10 * 3_600_000_000), "Physics", "1.5"),
                 Session(Timestamp(738885, 9 * 3_600_000_000), "Art", "5")];
      WeeklyTotal(ss, Timestamp(738890, noon), parse) == Success(1.5)
      && CalendarWeekTotal(ss, Timestamp(738890, noon), parse) == Success(3.5)
  {
    var noon := 12 * 3_600_000_000;
    var now := Timestamp(738890, noon);
    assert MondayOf(738890) == 738886;
    var ss := [Session(Timestamp(738886, 9 * 3_600_000_000), "Math", "2"),
               Session(Timestamp(738890, 10 * 3_600_000_000), "Physics", "1.5"),
               Session(Timestamp(738885, 9 * 3_600_000_000), "Art", "5")];
    assert ss[1..] == [ss[1], ss[2]] && ss[1..][1..] == [ss[2]] && [ss[2]][1..] == [];
    var written, full := WindowAt(now), CalendarWeekAt(now);
    assert !written(ss[0].date) && written(ss[1].date) && !written(ss[2].date);
    assert full(ss[0].date) && full(ss[1].date) && !full(ss[2].date);
    assert TotalWhere([ss[2]], written, parse) == Success(0.0);
    assert TotalWhere([ss[1], ss[2]], written, parse) == Success(1.5);
    assert TotalWhere(ss, written, parse) == Success(1.5);
    assert TotalWhere([ss[2]], full, parse) == Success(0.0);
    assert TotalWhere([ss[1], ss[2]], full, parse) == Success(1.5);
    assert TotalWhere(ss, full, parse) == Success(3.5);
  }
}
