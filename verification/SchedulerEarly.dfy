/**
 * When a firing comes early (application/scheduling/scheduler.py): ticks that overlap fire from due lists of their own,
 * and a schedule another tick has fired since is fired again although it is not due any more.
 */
module SchedulerEarly {
  import opened Wrappers
  import opened Schedules
  import opened Scheduler
  import opened SchedulerRuns

  // ----- Rows -----

  /** The row with this id. */
  function RowOf(schedules: seq<Schedule>, id: nat): Option<Schedule> {
    if schedules == [] then None
    else if schedules[0].id == id then Some(schedules[0])
    else RowOf(schedules[1..], id)
  }

  lemma {:induction false} OverwrittenRow(schedules: seq<Schedule>, s: Schedule, id: nat)
    ensures RowOf(Overwritten(schedules, s), id) == if id == s.id then Some(s) else RowOf(schedules, id)
  {
    if schedules == [] {
      assert Overwritten(schedules, s) == [s];
    } else if schedules[0].id == s.id {
      assert Overwritten(schedules, s)[1..] == schedules[1..];
    } else {
      OverwrittenRow(schedules[1..], s, id);
      assert Overwritten(schedules, s)[1..] == Overwritten(schedules[1..], s);
    }
  }

  ghost predicate UniqueIds(schedules: seq<Schedule>) {
    forall i, j :: 0 <= i < j < |schedules| ==> schedules[i].id != schedules[j].id
  }

  lemma {:induction false} RowOfMember(schedules: seq<Schedule>, s: Schedule)
    requires UniqueIds(schedules) && s in schedules
    ensures RowOf(schedules, s.id) == Some(s)
  {
    if schedules[0] == s {
    } else {
      var k :| 0 <= k < |schedules| && schedules[k] == s;
      assert s in schedules[1..] by { assert schedules[1..][k - 1] == s; }
      RowOfMember(schedules[1..], s);
    }
  }

  lemma {:induction false} RowIsMember(schedules: seq<Schedule>, id: nat)
    ensures RowOf(schedules, id).Some? ==> RowOf(schedules, id).value in schedules && RowOf(schedules, id).value.id == id
  {
    if schedules == [] || schedules[0].id == id {
    } else {
      RowIsMember(schedules[1..], id);
      assert schedules == [schedules[0]] + schedules[1..];
    }
  }

  // ----- What firings leave alone -----

  /** A schedule without what a firing changes. */
  function Config(s: Schedule): Schedule {
    s.(nextDue := None, lastRun := None, lastObjective := None, runs := 0)
  }

  lemma FiringKeepsConfig(s: Schedule, now: Moment, objective: Option<nat>)
    ensures Config(Fired(s, now, objective)) == Config(s)
  {
  }

  function Configs(schedules: seq<Schedule>): seq<Schedule> {
    seq(|schedules|, k requires 0 <= k < |schedules| => Config(schedules[k]))
  }

  lemma ConfigsKeepIds(a: seq<Schedule>, b: seq<Schedule>)
    requires Configs(a) == Configs(b)
    ensures |a| == |b| && forall k :: 0 <= k < |a| ==> Config(a[k]) == Config(b[k]) && a[k].id == b[k].id
    ensures UniqueIds(a) <==> UniqueIds(b)
  {
    assert |a| == |Configs(a)| == |b|;
    forall k | 0 <= k < |a| ensures Config(a[k]) == Config(b[k]) && a[k].id == b[k].id {
      assert Configs(a)[k] == Configs(b)[k];
    }
  }

  /** A copy of some row, as far as its configuration goes. */
  ghost predicate Known(configs: seq<Schedule>, s: Schedule) {
    Config(s) in configs
  }

  lemma {:induction false} OverwrittenConfigs(schedules: seq<Schedule>, s: Schedule)
    requires UniqueIds(schedules) && Known(Configs(schedules), s)
    ensures Configs(Overwritten(schedules, s)) == Configs(schedules)
  {
    var k :| 0 <= k < |schedules| && Configs(schedules)[k] == Config(s);
    if schedules[0].id == s.id {
      assert k == 0;
      assert Overwritten(schedules, s) == [s] + schedules[1..];
    } else {
      assert Configs(schedules[1..])[k - 1] == Config(s);
      OverwrittenConfigs(schedules[1..], s);
      assert Overwritten(schedules, s) == [schedules[0]] + Overwritten(schedules[1..], s);
      assert Configs(schedules) == [Config(schedules[0])] + Configs(schedules[1..]);
      assert Configs(Overwritten(schedules, s)) == [Config(schedules[0])] + Configs(Overwritten(schedules[1..], s));
    }
  }

  /** A row that was ever fired is next due at the first time after its last firing, or never without a recurrence. */
  ghost predicate Regular(s: Schedule) {
    s.lastRun.Some? ==>
      s.nextDue == if s.recurrence.Some? then Some(NextAfter(s.recurrence.value, s.lastRun.value)) else None
  }

  ghost predicate AllRegular(schedules: seq<Schedule>) {
    forall s :: s in schedules ==> Regular(s)
  }

  lemma {:induction false} OverwrittenRegular(schedules: seq<Schedule>, s: Schedule)
    requires AllRegular(schedules) && Regular(s)
    ensures AllRegular(Overwritten(schedules, s))
  {
    if schedules == [] {
    } else if schedules[0].id == s.id {
      assert forall x :: x in [s] + schedules[1..] ==> x == s || x in schedules;
    } else {
      assert forall x :: x in schedules[1..] ==> x in schedules;
      OverwrittenRegular(schedules[1..], s);
    }
  }

  // ----- The copies ticks work from -----

  /** Every schedule a tick has a copy of. */
  function Copies(f: Flow): seq<Schedule> {
    match f
    case Resting => []
    case FiringDue(_, due) => due
    case Listing(_, listed) => listed
    case Claiming(_, s, _, listed) => [s] + listed
    case Claimed(_, s, _, _, listed) => [s] + listed
    case Receiving(_, s, back) => [s] + Copies(back)
    case Saving(_, s, _, back) => [s] + Copies(back)
    case Handling(_, s, back) => [s] + Copies(back)
    case Recording(_, s, back) => [s] + Copies(back)
    case Leaving(_, s, back) => [s] + Copies(back)
  }

  /** What a due list holds was overdue when the list was read. */
  ghost predicate DueWhenRead(f: Flow) {
    match f
    case FiringDue(now, due) => forall s :: s in due ==> Overdue(s, now)
    case Receiving(_, _, back) => DueWhenRead(back)
    case Saving(_, _, _, back) => DueWhenRead(back)
    case Handling(_, _, back) => DueWhenRead(back)
    case Recording(_, _, back) => DueWhenRead(back)
    case Leaving(_, _, back) => DueWhenRead(back)
    case _ => true
  }

  // ----- Firings that were saved -----

  /** The firing this step saves, if it saves one. */
  function SavedBy(sys: System, f: nat, c: Choice): seq<Firing>
    requires f < |sys.flows|
  {
    if sys.flows[f].Saving? && c.ok then [sys.flows[f].firing] else []
  }

  /** The firings a run saves, in order. */
  ghost function Saves(sys: System, steps: seq<(nat, Choice)>): seq<Firing>
    decreases |steps|
  {
    if steps == [] || steps[0].0 >= |sys.flows| then []
    else SavedBy(sys, steps[0].0, steps[0].1) + Saves(Next(sys, steps[0].0, steps[0].1), steps[1..])
  }

  /** When this schedule was last fired, if it was. */
  function LastSave(saves: seq<Firing>, id: nat): Option<Moment> {
    if saves == [] then None
    else
      var last := saves[|saves| - 1];
      if last.schedule == id then Some(last.now) else LastSave(saves[..|saves| - 1], id)
  }

  // ----- What every step keeps -----

  /** A tick's copies are copies of rows; one of a row nobody has fired is that row; due lists hold what was due; and the
      firing a tick is at work on is of its schedule, and comes back to the loop that began it. */
  ghost predicate Faithful(rows: seq<Schedule>, saves: seq<Firing>, f: Flow) {
    && (forall s :: s in Copies(f) ==>
          Known(Configs(rows), s) && (LastSave(saves, s.id).None? ==> RowOf(rows, s.id) == Some(s)))
    && DueWhenRead(f)
    && (AtWork(f) ==> f.firing.schedule == f.schedule.id && Quiet(f.back))
  }

  /** The rows since the start: the same configurations, each last run at its last saved firing, and regular. */
  ghost predicate Kept(rows: seq<Schedule>, saves: seq<Firing>, now: seq<Schedule>) {
    && Configs(now) == Configs(rows) && AllRegular(now)
    && forall id {:trigger RowOf(now, id)} ::
         if LastSave(saves, id).None? then RowOf(now, id) == RowOf(rows, id)
         else RowOf(now, id).Some? ==> RowOf(now, id).value.lastRun == LastSave(saves, id)
  }

  ghost predicate Settled(rows: seq<Schedule>, saves: seq<Firing>, sys: System) {
    && UniqueIds(rows) && Kept(rows, saves, sys.store.schedules)
    && forall f :: 0 <= f < |sys.flows| ==> Faithful(rows, saves, sys.flows[f])
  }

  /** Rows just read are faithful copies. */
  lemma ReadIsFaithful(rows: seq<Schedule>, saves: seq<Firing>, now: seq<Schedule>, s: Schedule)
    requires UniqueIds(rows) && Kept(rows, saves, now) && s in now
    ensures Known(Configs(rows), s) && (LastSave(saves, s.id).None? ==> RowOf(rows, s.id) == Some(s))
  {
    ConfigsKeepIds(rows, now);
    RowOfMember(now, s);
    var k :| 0 <= k < |now| && now[k] == s;
    assert Configs(rows)[k] == Config(s);
  }

  /** A copy handed on is still faithful. */
  lemma HandedOn(rows: seq<Schedule>, saves: seq<Firing>, f: Flow, next: Flow)
    requires Faithful(rows, saves, f) && DueWhenRead(next)
    requires forall s :: s in Copies(next) ==> s in Copies(f)
    requires AtWork(next) ==> next.firing.schedule == next.schedule.id && Quiet(next.back)
    ensures Faithful(rows, saves, next)
  {
  }

  /** A step that saves nothing keeps everything, when what its flow becomes is faithful. */
  lemma NothingSaved(rows: seq<Schedule>, saves: seq<Firing>, sys: System, f: nat, after: System)
    requires Settled(rows, saves, sys) && f < |sys.flows| == |after.flows|
    requires after.store.schedules == sys.store.schedules
    requires after.flows == sys.flows[f := after.flows[f]] && Faithful(rows, saves, after.flows[f])
    ensures Settled(rows, saves, after)
  {
    hide Faithful, Kept;
    assert forall g :: 0 <= g < |sys.flows| && g != f ==> after.flows[g] == sys.flows[g];
  }

  lemma LastSaveMore(saves: seq<Firing>, firing: Firing, id: nat)
    ensures LastSave(saves + [firing], id) == if firing.schedule == id then Some(firing.now) else LastSave(saves, id)
  {
    assert (saves + [firing])[..|saves|] == saves;
  }

  lemma FaithfulAfterSave(rows: seq<Schedule>, saves: seq<Firing>, firing: Firing, f: Flow)
    requires Faithful(rows, saves, f)
    ensures Faithful(rows, saves + [firing], f)
  {
    hide Known, DueWhenRead, RowOf;
    forall s | s in Copies(f) && LastSave(saves + [firing], s.id).None? ensures RowOf(rows, s.id) == Some(s) {
      LastSaveMore(saves, firing, s.id);
    }
  }

  lemma KeptAfterSave(
      rows: seq<Schedule>, saves: seq<Firing>, now: seq<Schedule>, firing: Firing, s: Schedule, objective: nat)
    requires UniqueIds(rows) && Kept(rows, saves, now) && Known(Configs(rows), s) && firing.schedule == s.id
    ensures Kept(rows, saves + [firing], Overwritten(now, Fired(s, firing.now, Some(objective))))
  {
    hide RowOf, Overwritten, LastSave;
    var fired := Fired(s, firing.now, Some(objective));
    var after := Overwritten(now, fired);
    ConfigsKeepIds(rows, now);
    FiringKeepsConfig(s, firing.now, Some(objective));
    OverwrittenConfigs(now, fired);
    OverwrittenRegular(now, fired);
    forall id
      ensures if LastSave(saves + [firing], id).None? then RowOf(after, id) == RowOf(rows, id)
              else RowOf(after, id).Some? ==> RowOf(after, id).value.lastRun == LastSave(saves + [firing], id)
    {
      LastSaveMore(saves, firing, id);
      OverwrittenRow(now, fired, id);
      assert RowOf(now, id) == RowOf(now, id);
    }
  }

  lemma SaveKeepsSettled(rows: seq<Schedule>, saves: seq<Firing>, sys: System, f: nat, c: Choice)
    requires Settled(rows, saves, sys) && f < |sys.flows| && sys.flows[f].Saving? && c.ok
    ensures Settled(rows, saves + [sys.flows[f].firing], Next(sys, f, c))
  {
    hide Kept, Overwritten, Known;
    var here, after := sys.flows[f], Next(sys, f, c);
    assert here.schedule in Copies(here);
    KeptAfterSave(rows, saves, sys.store.schedules, here.firing, here.schedule, here.objective);
    HandedOn(rows, saves, here, after.flows[f]);
    forall g | 0 <= g < |after.flows| ensures Faithful(rows, saves + [here.firing], after.flows[g]) {
      assert g != f ==> after.flows[g] == sys.flows[g];
      FaithfulAfterSave(rows, saves, here.firing, after.flows[g]);
    }
  }

  lemma DueIsFaithful(rows: seq<Schedule>, saves: seq<Firing>, sys: System, now: Moment)
    requires Settled(rows, saves, sys)
    ensures Faithful(rows, saves, FiringDue(now, DueAmong(sys.store.schedules, now)))
    ensures Faithful(rows, saves, Listing(now, sys.store.schedules))
  {
    hide Kept, Known;
    forall s | s in sys.store.schedules
      ensures Known(Configs(rows), s) && (LastSave(saves, s.id).None? ==> RowOf(rows, s.id) == Some(s))
    {
      ReadIsFaithful(rows, saves, sys.store.schedules, s);
    }
  }

  lemma RestOf<T>(list: seq<T>)
    requires list != []
    ensures list[0] in list && forall x :: x in list[1..] ==> x in list
  {
  }

  lemma OtherStepsKeepSettled(rows: seq<Schedule>, saves: seq<Firing>, sys: System, f: nat, c: Choice)
    requires Settled(rows, saves, sys) && f < |sys.flows| && SavedBy(sys, f, c) == []
    ensures Settled(rows, saves, Next(sys, f, c))
  {
    hide Settled, Kept, Overwritten, Known, Faithful, Pending, DueAmong, Overdue, UniqueIds, InFlight;
    var here, after := sys.flows[f], Next(sys, f, c);
    assert Faithful(rows, saves, here) by { SettledFlow(rows, saves, sys, f); }
    DueIsFaithful(rows, saves, sys, if here.Listing? || here.FiringDue? then here.now else c.now);
    FaithfulParts(rows, saves, here);
    match here {
      case Resting =>
      case FiringDue(now, due) =>
        if due != [] {
          RestOf(due);
          var rest := FiringDue(now, due[1..]);
          assert after.flows[f] ==
            if due[0].id in sys.running then rest else Receiving(Firing(due[0].id, None, now), due[0], rest);
          HandedOn(rows, saves, here, after.flows[f]);
        }
      case Listing(now, listed) =>
        if listed != [] {
          RestOf(listed);
          assert listed == [listed[0]] + listed[1..];
        }
        HandedOn(rows, saves, here, after.flows[f]);
      case _ =>
        HandedOn(rows, saves, here, after.flows[f]);
    }
    NothingSaved(rows, saves, sys, f, after);
  }

  lemma SettledFlow(rows: seq<Schedule>, saves: seq<Firing>, sys: System, f: nat)
    requires Settled(rows, saves, sys) && f < |sys.flows|
    ensures Faithful(rows, saves, sys.flows[f]) && UniqueIds(rows) && Kept(rows, saves, sys.store.schedules)
  {
  }

  lemma FaithfulParts(rows: seq<Schedule>, saves: seq<Firing>, f: Flow)
    requires Faithful(rows, saves, f)
    ensures DueWhenRead(f) && (AtWork(f) ==> f.firing.schedule == f.schedule.id && Quiet(f.back))
  {
  }

  lemma {:induction false} RunsStaySettled(
      rows: seq<Schedule>, saves: seq<Firing>, sys: System, steps: seq<(nat, Choice)>, end: System)
    requires Settled(rows, saves, sys) && IsRun(sys, steps, end)
    ensures Settled(rows, saves + Saves(sys, steps), end)
    decreases |steps|
  {
    hide Settled, Next;
    if steps == [] {
      assert saves + [] == saves;
    } else {
      var f, c := steps[0].0, steps[0].1;
      var saved := SavedBy(sys, f, c);
      if saved == [] {
        OtherStepsKeepSettled(rows, saves, sys, f, c);
        assert saves + [] == saves;
      } else {
        SaveKeepsSettled(rows, saves, sys, f, c);
      }
      RunsStaySettled(rows, saves + saved, Next(sys, f, c), steps[1..], end);
      assert saves + (saved + Saves(Next(sys, f, c), steps[1..])) == saves + saved + Saves(Next(sys, f, c), steps[1..]);
    }
  }

  lemma RestIsSettled(sys: System)
    requires AtRest(sys) && UniqueIds(sys.store.schedules) && AllRegular(sys.store.schedules)
    ensures Settled(sys.store.schedules, [], sys)
  {
  }

  // ----- Early firings -----

  /** The moment this schedule was last fired before the run's end: in the run, or before it. */
  ghost function LastFiring(start: System, steps: seq<(nat, Choice)>, id: nat): Option<Moment> {
    var saved := LastSave(Saves(start, steps), id);
    if saved.Some? then saved
    else
      match RowOf(start.store.schedules, id)
      case None => None
      case Some(row) => row.lastRun
  }

  /** Over every run from rest: a tick about to fire a schedule by the clock fires a row with the same settings. It does
      so before the row's next time after its last saved firing - for an interval, less than the interval later - if
      and only if the stored row is not due at that moment; one that was never fired is never early; and one without a
      recurrence that has been fired is listed no more. */
  lemma EarlyIffNoLongerDue(start: System, steps: seq<(nat, Choice)>, sys: System, f: nat)
    requires AtRest(start) && UniqueIds(start.store.schedules) && AllRegular(start.store.schedules)
    requires IsRun(start, steps, sys) && f < |sys.flows|
    requires sys.flows[f].FiringDue? && sys.flows[f].due != [] && sys.flows[f].due[0].id !in sys.running
    ensures var s, now := sys.flows[f].due[0], sys.flows[f].now; var row := RowOf(sys.store.schedules, s.id);
            var last := LastFiring(start, steps, s.id);
            && (forall c :: Next(sys, f, c).firings == sys.firings + [Firing(s.id, None, now)])
            && row.Some? && Config(row.value) == Config(s)
            && (last.None? ==> Overdue(row.value, now))
            && (last.Some? && s.recurrence.None? ==> row.value.nextDue.None?)
            && (last.Some? && s.recurrence.Some? ==>
                  && (now < NextAfter(s.recurrence.value, last.value) <==> !IsDue(row.value, now))
                  && (s.recurrence.value.Every? ==>
                        (now - last.value < s.recurrence.value.seconds * SECOND <==> !IsDue(row.value, now))))
  {
    hide IsRun, Saves, LastSave;
    RestIsSettled(start);
    RunsStaySettled(start.store.schedules, [], start, steps, sys);
    var rows, saves := start.store.schedules, Saves(start, steps);
    assert [] + saves == saves;
    SettledFlow(rows, saves, sys, f);
    var s, now := sys.flows[f].due[0], sys.flows[f].now;
    assert s in Copies(sys.flows[f]);
    RowOfKnown(rows, sys.store.schedules, s);
    RowIsMember(sys.store.schedules, s.id);
    var row := RowOf(sys.store.schedules, s.id);
    assert row == RowOf(sys.store.schedules, s.id);
    assert row.value.recurrence == s.recurrence && row.value.enabled == s.enabled by { SameSettings(row.value, s); }
  }

  lemma SameSettings(a: Schedule, b: Schedule)
    requires Config(a) == Config(b)
    ensures a.recurrence == b.recurrence && a.enabled == b.enabled && a.onEvent == b.onEvent && a.id == b.id
  {
    assert Config(a).recurrence == a.recurrence && Config(b).recurrence == b.recurrence;
    assert Config(a).enabled == a.enabled && Config(b).enabled == b.enabled;
    assert Config(a).onEvent == a.onEvent && Config(b).onEvent == b.onEvent && Config(a).id == a.id && Config(b).id == b.id;
  }

  lemma RowOfKnown(rows: seq<Schedule>, now: seq<Schedule>, s: Schedule)
    requires UniqueIds(rows) && Configs(now) == Configs(rows) && Known(Configs(rows), s)
    ensures RowOf(now, s.id).Some? && Config(RowOf(now, s.id).value) == Config(s)
  {
    ConfigsKeepIds(now, rows);
    var k :| 0 <= k < |rows| && Configs(rows)[k] == Config(s);
    assert Config(now[k]) == Config(s);
    SameSettings(now[k], s);
    RowOfMember(now, now[k]);
  }

  const HOURLY := Schedule(7, "look", Some(Every(3600)), "", true, Some(0), None, None, 0, 0)

  const TWO_TICKS := System(Store([HOURLY], []), {}, [Resting, Resting], [])

  const FIRST_LOOK := Firing(7, None, 0)

  /** It happens from rest: both ticks read the due list, the first fires the schedule to its end, and the second is left
      about to fire it again, at the same moment and from its old copy, although the row is not due for an hour. */
  lemma OldListsFireTwice() returns (steps: seq<(nat, Choice)>, sys: System)
    ensures AtRest(TWO_TICKS) && IsRun(TWO_TICKS, steps, sys)
    ensures sys.flows == [FiringDue(0, []), FiringDue(0, [HOURLY])] && sys.running == {} && sys.firings == [FIRST_LOOK]
    ensures sys.store.schedules == [Fired(HOURLY, 0, Some(1))] && !IsDue(sys.store.schedules[0], 0)
    ensures forall c :: Next(sys, 1, c).firings == [FIRST_LOOK, FIRST_LOOK]
  {
    hide IsRun;
    assert DueAmong([HOURLY], 0) == [HOURLY] by { assert DueAmong([], 0) == []; }
    assert [HOURLY][1..] == [];
    var back, fired := FiringDue(0, []), Fired(HOURLY, 0, Some(1));
    assert Overwritten([HOURLY], fired) == [fired];
    var s1 := Looks(HOURLY, {}, FiringDue(0, [HOURLY]), Resting, []);
    var s2 := Looks(HOURLY, {}, FiringDue(0, [HOURLY]), FiringDue(0, [HOURLY]), []);
    var s3 := Looks(HOURLY, {7}, Receiving(FIRST_LOOK, HOURLY, back), FiringDue(0, [HOURLY]), [FIRST_LOOK]);
    var s4 := Looks(HOURLY, {7}, Saving(FIRST_LOOK, HOURLY, 1, back), FiringDue(0, [HOURLY]), [FIRST_LOOK]);
    var s5 := Looks(fired, {7}, Handling(FIRST_LOOK, HOURLY, back), FiringDue(0, [HOURLY]), [FIRST_LOOK]);
    var s6 := Looks(fired, {7}, Recording(FIRST_LOOK, HOURLY, back), FiringDue(0, [HOURLY]), [FIRST_LOOK]);
    var s7 := Looks(fired, {7}, Leaving(FIRST_LOOK, HOURLY, back), FiringDue(0, [HOURLY]), [FIRST_LOOK]);
    sys := Looks(fired, {}, back, FiringDue(0, [HOURLY]), [FIRST_LOOK]);
    var no := Choice(0, false, 0);
    FlowsMove(Resting, Resting, FiringDue(0, [HOURLY]));
    FlowsMove(FiringDue(0, [HOURLY]), Resting, FiringDue(0, [HOURLY]));
    FlowsMove(s2.flows[0], s2.flows[1], s3.flows[0]);
    FlowsMove(s3.flows[0], s3.flows[1], s4.flows[0]);
    FlowsMove(s4.flows[0], s4.flows[1], s5.flows[0]);
    FlowsMove(s5.flows[0], s5.flows[1], s6.flows[0]);
    FlowsMove(s6.flows[0], s6.flows[1], s7.flows[0]);
    FlowsMove(s7.flows[0], s7.flows[1], back);
    assert Next(TWO_TICKS, 0, YES) == s1;
    assert Next(s1, 1, YES) == s2;
    assert Next(s2, 0, YES) == s3;
    assert Next(s3, 0, YES) == s4;
    assert Next(s4, 0, YES) == s5;
    assert Next(s5, 0, YES) == s6;
    assert Next(s6, 0, no) == s7;
    assert Next(s7, 0, YES) == sys;
    assert forall c :: Next(sys, 1, c).firings == [FIRST_LOOK, FIRST_LOOK];
    hide Next;
    NoSteps(TWO_TICKS);
    OneStepMore(TWO_TICKS, [], TWO_TICKS, 0, YES);
    var t1 := [] + [(0, YES)];
    OneStepMore(TWO_TICKS, t1, s1, 1, YES);
    var t2 := t1 + [(1, YES)];
    OneStepMore(TWO_TICKS, t2, s2, 0, YES);
    var t3 := t2 + [(0, YES)];
    OneStepMore(TWO_TICKS, t3, s3, 0, YES);
    var t4 := t3 + [(0, YES)];
    OneStepMore(TWO_TICKS, t4, s4, 0, YES);
    var t5 := t4 + [(0, YES)];
    OneStepMore(TWO_TICKS, t5, s5, 0, YES);
    var t6 := t5 + [(0, YES)];
    OneStepMore(TWO_TICKS, t6, s6, 0, no);
    var t7 := t6 + [(0, no)];
    OneStepMore(TWO_TICKS, t7, s7, 0, YES);
    steps := t7 + [(0, YES)];
  }

  /** One row and two ticks. */
  function Looks(row: Schedule, running: set<nat>, f: Flow, g: Flow, firings: seq<Firing>): System {
    System(Store([row], []), running, [f, g], firings)
  }

  lemma FlowsMove(f: Flow, g: Flow, x: Flow)
    ensures [f, g][0 := x] == [x, g] && [f, g][1 := x] == [f, x]
  {
  }
}
