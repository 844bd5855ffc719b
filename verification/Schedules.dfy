/**
 * Schedules and events (domain/scheduling/models.py). A moment is a number of microseconds since an epoch at midnight
 * UTC; a day has no leap seconds.
 */
module Schedules {
  import opened Wrappers
  import opened Text

  type Moment = int

  const SECOND: int := 1_000_000
  const DAY: int := 86_400 * SECOND
  const MIN_INTERVAL_SECONDS: int := 60

  /** Every so many seconds, or once a day so long after midnight. */
  datatype Recurrence = Every(seconds: int) | DailyAt(at: int) {
    predicate Valid() {
      match this
      case Every(seconds) => seconds >= MIN_INTERVAL_SECONDS
      case DailyAt(at) => 0 <= at < DAY
    }
  }

  datatype ScheduleError = NotOneRecurrence | IntervalTooShort | NothingAsked | NotOneTrigger

  /** `Recurrence(...)`: exactly one of the two is given, and an interval is not too short. */
  function MakeRecurrence(everySeconds: Option<int>, dailyAt: Option<int>): (r: Result<Recurrence, ScheduleError>)
    requires dailyAt.Some? ==> 0 <= dailyAt.value < DAY
    ensures r.Ok? ==> r.value.Valid()
    ensures r.Ok? && everySeconds.Some? ==> r.value == Every(everySeconds.value)
    ensures r.Ok? && dailyAt.Some? ==> r.value == DailyAt(dailyAt.value)
    ensures r.Ok? <==>
              && everySeconds.Some? != dailyAt.Some?
              && (everySeconds.Some? ==> everySeconds.value >= 60)
  {
    if everySeconds.None? == dailyAt.None? then Err(NotOneRecurrence)
    else if everySeconds.Some? then
      if everySeconds.value < MIN_INTERVAL_SECONDS then Err(IntervalTooShort) else Ok(Every(everySeconds.value))
    else Ok(DailyAt(dailyAt.value))
  }

  function Midnight(moment: Moment): Moment {
    moment - moment % DAY
  }

  /** When a schedule that fired at `moment` is next due. */
  function NextAfter(r: Recurrence, moment: Moment): Moment {
    match r
    case Every(seconds) => moment + seconds * SECOND
    case DailyAt(at) =>
      var candidate := Midnight(moment) + at;
      if candidate > moment then candidate else candidate + DAY
  }

  datatype Schedule = Schedule(
    id: nat,
    request: string,
    recurrence: Option<Recurrence>,
    onEvent: string,
    enabled: bool,
    nextDue: Option<Moment>,
    lastRun: Option<Moment>,
    lastObjective: Option<nat>,
    runs: int,
    created: Moment)

  /** `Schedule.create`, for a schedule that is enabled. */
  function Create(
      id: nat, request: string, recurrence: Option<Recurrence>, onEvent: string, nextDue: Option<Moment>, created: Moment)
    : Result<Schedule, ScheduleError>
  {
    var asked := Strip(request);
    if asked == "" then Err(NothingAsked)
    else if recurrence.None? == (onEvent == "") then Err(NotOneTrigger)
    else
      var first :=
        if recurrence.None? || nextDue.Some? then nextDue
        else if recurrence.value.Every? then Some(created)
        else Some(NextAfter(recurrence.value, created));
      Ok(Schedule(id, asked, recurrence, onEvent, true, first, None, None, 0, created))
  }

  predicate IsDue(s: Schedule, now: Moment) {
    s.enabled && s.recurrence.Some? && s.nextDue.Some? && s.nextDue.value <= now
  }

  /** The row after a firing. Whatever was missed before `now` is not made up for. */
  function Fired(s: Schedule, now: Moment, objective: Option<nat>): Schedule {
    s.(lastRun := Some(now),
       lastObjective := if objective.Some? then objective else s.lastObjective,
       runs := s.runs + 1,
       nextDue := if s.recurrence.Some? then Some(NextAfter(s.recurrence.value, now)) else None)
  }

  // ----- Daily marks -----

  predicate IsMark(at: int, moment: Moment) {
    moment % DAY == at
  }

  /** Adding whole days does not change the time of day. */
  lemma SameTimeOfDay(at: int, day: int)
    requires 0 <= at < DAY
    ensures (day * DAY + at) % DAY == at && (day * DAY + at) / DAY == day
  {
  }

  lemma DayAndTime(moment: Moment)
    ensures moment == (moment / DAY) * DAY + moment % DAY && 0 <= moment % DAY < DAY
  {
  }

  lemma TimesInOrder(a: int, b: int, d: int)
    requires d > 0
    ensures a <= b ==> a * d <= b * d
  {
  }

  /** A daily schedule is next due at the least mark strictly after the firing, however late the firing was. */
  lemma NextIsTheLeastMark(at: int, moment: Moment, other: Moment)
    requires 0 <= at < DAY
    ensures var next := NextAfter(DailyAt(at), moment);
            && IsMark(at, next) && moment < next <= moment + DAY
            && (IsMark(at, other) && moment < other ==> next <= other)
  {
    var day, day' := moment / DAY, other / DAY;
    DayAndTime(moment);
    DayAndTime(other);
    SameTimeOfDay(at, day);
    SameTimeOfDay(at, day + 1);
    assert Midnight(moment) == day * DAY;
    assert (day + 1) * DAY == day * DAY + DAY;
    if IsMark(at, other) && moment < other {
      assert other == day' * DAY + at;
      TimesInOrder(day' + 1, day, DAY);
      TimesInOrder(day + 1, day', DAY);
    }
  }

  // ----- A schedule over many ticks -----

  /** A pass of the scheduler: when it was, and whether the schedule could be fired if it was due. It cannot while its
      last objective is in flight, or when nothing receives the objective. */
  datatype Tick = Tick(now: Moment, taken: bool)

  ghost predicate Increasing(ticks: seq<Tick>) {
    forall i, j :: 0 <= i < j < |ticks| ==> ticks[i].now < ticks[j].now
  }

  predicate Fires(s: Schedule, t: Tick) {
    IsDue(s, t.now) && t.taken
  }

  /** When the schedule fires. */
  function Firings(s: Schedule, ticks: seq<Tick>): seq<Moment>
    decreases |ticks|
  {
    if ticks == [] then []
    else if Fires(s, ticks[0]) then [ticks[0].now] + Firings(Fired(s, ticks[0].now, None), ticks[1..])
    else Firings(s, ticks[1..])
  }

  /** What it is after the ticks. */
  function AfterTicks(s: Schedule, ticks: seq<Tick>): Schedule
    decreases |ticks|
  {
    if ticks == [] then s
    else AfterTicks(if Fires(s, ticks[0]) then Fired(s, ticks[0].now, None) else s, ticks[1..])
  }

  /** The firings and the row, seen from the last tick. */
  lemma {:induction false} OneTickMore(s: Schedule, ticks: seq<Tick>, t: Tick)
    ensures var row := AfterTicks(s, ticks);
            && Firings(s, ticks + [t]) == Firings(s, ticks) + (if Fires(row, t) then [t.now] else [])
            && AfterTicks(s, ticks + [t]) == if Fires(row, t) then Fired(row, t.now, None) else row
    decreases |ticks|
  {
    hide Fires, Fired;
    var more := ticks + [t];
    if ticks == [] {
      assert more[1..] == [];
    } else {
      var s' := if Fires(s, ticks[0]) then Fired(s, ticks[0].now, None) else s;
      OneTickMore(s', ticks[1..], t);
      assert more[0] == ticks[0] && more[1..] == ticks[1..] + [t];
    }
  }

  /** A recurring schedule fires at ticks only, never before it is due, and between two firings it becomes due again. */
  lemma {:induction false} FiringsAreDue(s: Schedule, ticks: seq<Tick>)
    requires s.recurrence.Some? && s.recurrence.value.Valid() && Increasing(ticks)
    ensures var f := Firings(s, ticks);
            && (f != [] ==> s.nextDue.Some? && s.nextDue.value <= f[0])
            && (forall i :: 0 <= i < |f| ==> exists j :: 0 <= j < |ticks| && ticks[j].now == f[i])
            && (forall i :: 0 <= i < |f| - 1 ==> NextAfter(s.recurrence.value, f[i]) <= f[i + 1])
            && AfterTicks(s, ticks).runs == s.runs + |f|
            && AfterTicks(s, ticks).nextDue ==
               (if f == [] then s.nextDue else Some(NextAfter(s.recurrence.value, f[|f| - 1])))
    decreases |ticks|
  {
    hide NextAfter;
    if ticks == [] {
    } else {
      var s' := if Fires(s, ticks[0]) then Fired(s, ticks[0].now, None) else s;
      FiringsAreDue(s', ticks[1..]);
      var rest := Firings(s', ticks[1..]);
      forall i | 0 <= i < |rest| ensures exists j :: 0 <= j < |ticks| && ticks[j].now == rest[i] {
        var j :| 0 <= j < |ticks[1..]| && ticks[1..][j].now == rest[i];
        assert ticks[j + 1].now == rest[i];
      }
      if Fires(s, ticks[0]) {
        assert ticks[0].now == Firings(s, ticks)[0];
      }
    }
  }

  /** Interval firings are at least the interval apart, so many firings at least so many intervals. */
  lemma {:induction false} IntervalsApart(s: Schedule, ticks: seq<Tick>, i: nat, j: nat)
    requires s.recurrence.Some? && s.recurrence.value.Every? && s.recurrence.value.Valid() && Increasing(ticks)
    requires i <= j < |Firings(s, ticks)|
    ensures var f := Firings(s, ticks); f[j] - f[i] >= (j - i) * (s.recurrence.value.seconds * SECOND)
    decreases j
  {
    hide Firings;
    if i < j {
      var every := s.recurrence.value.seconds * SECOND;
      FiringsAreDue(s, ticks);
      IntervalsApart(s, ticks, i, j - 1);
      assert NextAfter(s.recurrence.value, Firings(s, ticks)[j - 1]) <= Firings(s, ticks)[j - 1 + 1];
      assert (j - i) * every == (j - 1 - i) * every + every;
    }
  }

  /** Up to `until`, an interval schedule first due at `first` fires at most once, and once more for every whole
      interval that has passed - however long nobody looked. */
  lemma NothingIsMadeUp(s: Schedule, ticks: seq<Tick>, until: Moment)
    requires s.recurrence.Some? && s.recurrence.value.Every? && s.recurrence.value.Valid() && Increasing(ticks)
    requires s.nextDue.Some? && s.nextDue.value <= until
    requires forall j :: 0 <= j < |ticks| ==> ticks[j].now <= until
    ensures |Firings(s, ticks)| <= (until - s.nextDue.value) / (s.recurrence.value.seconds * SECOND) + 1
  {
    hide Firings;
    var f := Firings(s, ticks);
    FiringsAreDue(s, ticks);
    if f != [] {
      var n, every := |f| - 1, s.recurrence.value.seconds * SECOND;
      IntervalsApart(s, ticks, 0, n);
      var j :| 0 <= j < |ticks| && ticks[j].now == f[n];
      QuotientAtLeast(until - s.nextDue.value, every, n);
    } else {
      QuotientAtLeast(until - s.nextDue.value, s.recurrence.value.seconds * SECOND, 0);
    }
  }

  lemma QuotientAtLeast(x: int, d: int, n: nat)
    requires d > 0 && x >= n * d
    ensures x / d >= n
  {
    var q := x / d;
    assert x < (q + 1) * d;
    TimesInOrder(q + 1, n, d);
  }

  /** Between two firings of a daily schedule lies a mark, and it is never due at anything but a mark: it fires at most
      once between successive marks, and does not drift. */
  lemma DailyFiringsAreSeparated(s: Schedule, ticks: seq<Tick>, i: nat)
    requires s.recurrence.Some? && s.recurrence.value.DailyAt? && s.recurrence.value.Valid() && Increasing(ticks)
    ensures var f, at := Firings(s, ticks), s.recurrence.value.at;
            && (i + 1 < |f| ==>
                  var mark := NextAfter(s.recurrence.value, f[i]);
                  IsMark(at, mark) && f[i] < mark <= f[i + 1])
            && (f != [] ==> AfterTicks(s, ticks).nextDue.Some? && IsMark(at, AfterTicks(s, ticks).nextDue.value)
                            && f[|f| - 1] < AfterTicks(s, ticks).nextDue.value <= f[|f| - 1] + DAY)
  {
    hide Firings, AfterTicks, NextAfter, IsMark;
    var f, at := Firings(s, ticks), s.recurrence.value.at;
    FiringsAreDue(s, ticks);
    if i + 1 < |f| {
      NextIsTheLeastMark(at, f[i], f[i]);
    }
    if f != [] {
      NextIsTheLeastMark(at, f[|f| - 1], f[|f| - 1]);
    }
  }

  /** A tick that takes a due schedule fires it once, and no tick fires it again before the next time it is due. */
  lemma OneFiringPerGap(s: Schedule, t: Tick, ticks: seq<Tick>)
    requires s.recurrence.Some? && Fires(s, t)
    requires forall j :: 0 <= j < |ticks| ==> ticks[j].now < NextAfter(s.recurrence.value, t.now)
    ensures Firings(s, [t] + ticks) == [t.now]
  {
    var s' := Fired(s, t.now, None);
    assert ([t] + ticks)[1..] == ticks;
    NothingBeforeDue(s', ticks);
  }

  lemma {:induction false} NothingBeforeDue(s: Schedule, ticks: seq<Tick>)
    requires s.nextDue.Some? && forall j :: 0 <= j < |ticks| ==> ticks[j].now < s.nextDue.value
    ensures Firings(s, ticks) == []
    decreases |ticks|
  {
    if ticks == [] {
    } else {
      NothingBeforeDue(s, ticks[1..]);
    }
  }

  // ----- Creating -----

  /** What `create` makes: due at once for an interval, at the next mark for a time of day, and never by the clock when
      it waits for an event; refused exactly when it asks for nothing or does not have exactly one trigger. */
  lemma CreatedSchedules(
      id: nat, request: string, recurrence: Option<Recurrence>, onEvent: string, created: Moment)
    requires recurrence.Some? ==> recurrence.value.Valid()
    ensures var r := Create(id, request, recurrence, onEvent, None, created);
            && (r.Ok? <==> !Blank(request) && (recurrence.Some? <==> onEvent == ""))
            && (r.Ok? ==>
                  && r.value.id == id && r.value.request == Strip(request) && r.value.recurrence == recurrence
                  && r.value.onEvent == onEvent && r.value.enabled && r.value.runs == 0 && r.value.lastRun.None?)
            && (r.Ok? && recurrence.None? ==> forall now :: !IsDue(r.value, now))
            && (r.Ok? && recurrence.Some? && recurrence.value.Every? ==>
                  forall now :: IsDue(r.value, now) <==> created <= now)
            && (r.Ok? && recurrence.Some? && recurrence.value.DailyAt? ==>
                  r.value.nextDue.Some? && IsMark(recurrence.value.at, r.value.nextDue.value)
                  && created < r.value.nextDue.value && !IsDue(r.value, created))
  {
    hide Strip, NextAfter, IsMark;
    StripIsTrimmed(request);
    if recurrence.Some? && recurrence.value.DailyAt? {
      NextIsTheLeastMark(recurrence.value.at, created, created);
    }
  }
}
