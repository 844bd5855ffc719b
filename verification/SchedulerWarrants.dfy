/**
 * What may fire at all (application/scheduling/scheduler.py): over every interleaving of ticks, only schedules that are
 * enabled, and on events only of the kind they wait for.
 */
module SchedulerWarrants {
  import opened Wrappers
  import opened Schedules
  import opened Scheduler
  import opened SchedulerRuns
  import opened SchedulerEarly

  /** An enabled schedule of the store fired: by the clock, or on an event of the kind it waits for. */
  ghost predicate Warranted(rows: seq<Schedule>, events: seq<Event>, firing: Firing) {
    exists k :: 0 <= k < |rows| && Allows(rows[k], events, firing)
  }

  predicate Allows(s: Schedule, events: seq<Event>, firing: Firing) {
    && s.id == firing.schedule && s.enabled
    && (firing.event.Some? ==> s.onEvent != "" && OfKind(events, firing.event.value, s.onEvent))
  }

  predicate OfKind(events: seq<Event>, id: EventId, kind: string) {
    id < |events| && events[id].kind == kind
  }

  /** What a tick is about to fire, and what it comes back to, may fire. */
  ghost predicate MayFire(events: seq<Event>, f: Flow) {
    match f
    case FiringDue(_, due) => forall s :: s in due ==> s.enabled
    case Claiming(_, s, ids, _) => s.enabled && s.onEvent != "" && forall id :: id in ids ==> OfKind(events, id, s.onEvent)
    case Claimed(_, s, event, ids, _) =>
      && s.enabled && s.onEvent != "" && OfKind(events, event, s.onEvent)
      && forall id :: id in ids ==> OfKind(events, id, s.onEvent)
    case Receiving(_, _, back) => MayFire(events, back)
    case Saving(_, _, _, back) => MayFire(events, back)
    case Handling(_, _, back) => MayFire(events, back)
    case Recording(_, _, back) => MayFire(events, back)
    case Leaving(_, _, back) => MayFire(events, back)
    case _ => true
  }

  ghost predicate AllCopied(rows: seq<Schedule>, f: Flow) {
    forall s :: s in Copies(f) ==> Known(Configs(rows), s)
  }

  ghost predicate FlowIsGood(rows: seq<Schedule>, events: seq<Event>, f: Flow) {
    MayFire(events, f) && AllCopied(rows, f)
  }

  ghost predicate AllWarranted(rows: seq<Schedule>, sys: System) {
    && UniqueIds(rows) && Configs(sys.store.schedules) == Configs(rows)
    && (forall f :: 0 <= f < |sys.flows| ==> FlowIsGood(rows, sys.store.events, sys.flows[f]))
    && (forall k :: 0 <= k < |sys.firings| ==> Warranted(rows, sys.store.events, sys.firings[k]))
  }

  /** Events are added and claimed; their kinds stay. */
  ghost predicate KindsStay(a: seq<Event>, b: seq<Event>) {
    |a| <= |b| && forall id: nat :: id < |a| ==> a[id].kind == b[id].kind
  }

  lemma {:induction false} StillMayFire(a: seq<Event>, b: seq<Event>, f: Flow)
    requires KindsStay(a, b) && MayFire(a, f)
    ensures MayFire(b, f)
    decreases f
  {
    match f {
      case Receiving(_, _, back) => StillMayFire(a, b, back);
      case Saving(_, _, _, back) => StillMayFire(a, b, back);
      case Handling(_, _, back) => StillMayFire(a, b, back);
      case Recording(_, _, back) => StillMayFire(a, b, back);
      case Leaving(_, _, back) => StillMayFire(a, b, back);
      case _ =>
    }
  }

  lemma StillWarranted(rows: seq<Schedule>, a: seq<Event>, b: seq<Event>, firing: Firing)
    requires KindsStay(a, b) && Warranted(rows, a, firing)
    ensures Warranted(rows, b, firing)
  {
    var k :| 0 <= k < |rows| && Allows(rows[k], a, firing);
    assert Allows(rows[k], b, firing);
  }

  /** A copy that may fire is a row's. */
  lemma CopyIsWarranted(rows: seq<Schedule>, events: seq<Event>, s: Schedule, firing: Firing)
    requires Known(Configs(rows), s) && Allows(s, events, firing)
    ensures Warranted(rows, events, firing)
  {
    var k :| 0 <= k < |rows| && Configs(rows)[k] == Config(s);
    SameSettings(rows[k], s);
    assert Allows(rows[k], events, firing);
  }

  /** A step that changes one flow, and begins one firing at most, keeps it all. */
  lemma OneFlowStep(rows: seq<Schedule>, sys: System, f: nat, after: System)
    requires AllWarranted(rows, sys) && f < |sys.flows| == |after.flows|
    requires after.flows == sys.flows[f := after.flows[f]]
    requires Configs(after.store.schedules) == Configs(rows) && KindsStay(sys.store.events, after.store.events)
    requires FlowIsGood(rows, after.store.events, after.flows[f])
    requires after.firings == sys.firings
             || exists firing :: after.firings == sys.firings + [firing] && Warranted(rows, after.store.events, firing)
    ensures AllWarranted(rows, after)
  {
    hide UniqueIds, Configs, Warranted, MayFire, AllCopied;
    forall g | 0 <= g < |after.flows| ensures FlowIsGood(rows, after.store.events, after.flows[g]) {
      if g != f {
        StillMayFire(sys.store.events, after.store.events, sys.flows[g]);
      }
    }
    forall k | 0 <= k < |after.firings| ensures Warranted(rows, after.store.events, after.firings[k]) {
      if k < |sys.firings| {
        assert after.firings[k] == sys.firings[k];
        StillWarranted(rows, sys.store.events, after.store.events, sys.firings[k]);
      }
    }
  }

  lemma EnterIsWarranted(
      rows: seq<Schedule>, sys: System, f: nat, s: Schedule, event: Option<EventId>, now: Moment, back: Flow)
    requires AllWarranted(rows, sys) && f < |sys.flows| && Known(Configs(rows), s)
    requires Allows(s, sys.store.events, Firing(s.id, event, now))
    requires FlowIsGood(rows, sys.store.events, back)
    ensures AllWarranted(rows, Enter(sys, f, s, event, now, back))
  {
    hide UniqueIds, Configs, Warranted, MayFire, Known;
    var after, firing := Enter(sys, f, s, event, now, back), Firing(s.id, event, now);
    CopyIsWarranted(rows, sys.store.events, s, firing);
    if s.id !in sys.running {
      ReceivingIsGood(rows, sys.store.events, firing, s, back);
      assert after.firings == sys.firings + [firing];
    }
    OneFlowStep(rows, sys, f, after);
  }

  lemma ReceivingIsGood(rows: seq<Schedule>, events: seq<Event>, firing: Firing, s: Schedule, back: Flow)
    requires FlowIsGood(rows, events, back) && Known(Configs(rows), s)
    ensures FlowIsGood(rows, events, Receiving(firing, s, back))
  {
    hide Known, OfKind;
  }

  lemma GoodParts(rows: seq<Schedule>, sys: System, f: nat)
    requires AllWarranted(rows, sys) && f < |sys.flows|
    ensures FlowIsGood(rows, sys.store.events, sys.flows[f])
    ensures UniqueIds(rows) && UniqueIds(sys.store.schedules) && Configs(sys.store.schedules) == Configs(rows)
    ensures forall s :: s in sys.store.schedules ==> Known(Configs(rows), s)
  {
    ConfigsKeepIds(sys.store.schedules, rows);
    forall s | s in sys.store.schedules ensures Known(Configs(rows), s) {
      var k :| 0 <= k < |rows| && sys.store.schedules[k] == s;
      assert Configs(rows)[k] == Config(s);
    }
  }

  /** The steps of a tick that is not at work. */
  lemma ReadingIsWarranted(rows: seq<Schedule>, sys: System, f: nat, c: Choice)
    requires AllWarranted(rows, sys) && f < |sys.flows| && !AtWork(sys.flows[f])
    ensures AllWarranted(rows, Next(sys, f, c))
  {
    hide AllWarranted, UniqueIds, Configs, Known, Warranted, Pending, DueAmong, OfKind;
    GoodParts(rows, sys, f);
    var here, after := sys.flows[f], Next(sys, f, c);
    assert KindsStay(sys.store.events, sys.store.events);
    match here {
      case Resting => OneFlowStep(rows, sys, f, after);
      case FiringDue(now, due) =>
        if due != [] {
          RestOf(due);
          EnterIsWarranted(rows, sys, f, due[0], None, now, FiringDue(now, due[1..]));
        } else {
          OneFlowStep(rows, sys, f, after);
        }
      case Listing(now, listed) =>
        if listed != [] {
          RestOf(listed);
          PendingIsOfKind(sys.store.events, listed[0].onEvent);
        }
        OneFlowStep(rows, sys, f, after);
      case Claiming(now, s, events, listed) => ClaimingIsWarranted(rows, sys, f, c);
      case Claimed(now, s, event, events, listed) =>
        EnterIsWarranted(rows, sys, f, s, Some(event), now, Claiming(now, s, events, listed));
    }
  }

  lemma PendingIsOfKind(events: seq<Event>, kind: string)
    ensures forall id :: id in Pending(events, kind) ==> OfKind(events, id, kind)
  {
    hide PendingFrom;
  }

  lemma ClaimingIsWarranted(rows: seq<Schedule>, sys: System, f: nat, c: Choice)
    requires AllWarranted(rows, sys) && f < |sys.flows| && sys.flows[f].Claiming?
    ensures AllWarranted(rows, Next(sys, f, c))
  {
    hide AllWarranted, UniqueIds, Configs, Known, Warranted;
    GoodParts(rows, sys, f);
    var here, after := sys.flows[f], Next(sys, f, c);
    if here.events != [] {
      RestOf(here.events);
    }
    assert KindsStay(sys.store.events, after.store.events);
    StillMayFire(sys.store.events, after.store.events, here);
    OneFlowStep(rows, sys, f, after);
  }

  /** The steps of a tick at work on a firing. */
  lemma WorkingIsWarranted(rows: seq<Schedule>, sys: System, f: nat, c: Choice)
    requires AllWarranted(rows, sys) && f < |sys.flows| && AtWork(sys.flows[f])
    ensures AllWarranted(rows, Next(sys, f, c))
  {
    hide AllWarranted, UniqueIds, Configs, Known, Warranted, Overwritten, OfKind;
    GoodParts(rows, sys, f);
    var here, after := sys.flows[f], Next(sys, f, c);
    assert here.schedule in Copies(here);
    if here.Saving? && c.ok {
      var fired := Fired(here.schedule, here.firing.now, Some(here.objective));
      SettingsStay(rows, sys.store.schedules, here.schedule, fired);
    }
    assert KindsStay(sys.store.events, after.store.events);
    StillMayFire(sys.store.events, after.store.events, here);
    OneFlowStep(rows, sys, f, after);
  }

  lemma SettingsStay(rows: seq<Schedule>, now: seq<Schedule>, s: Schedule, fired: Schedule)
    requires UniqueIds(now) && Configs(now) == Configs(rows) && Known(Configs(rows), s) && Config(fired) == Config(s)
    ensures Configs(Overwritten(now, fired)) == Configs(rows)
  {
    OverwrittenConfigs(now, fired);
  }

  lemma {:induction false} RunsStayWarranted(rows: seq<Schedule>, sys: System, steps: seq<(nat, Choice)>, end: System)
    requires AllWarranted(rows, sys) && IsRun(sys, steps, end)
    ensures AllWarranted(rows, end)
    decreases |steps|
  {
    hide AllWarranted, Next;
    if steps == [] {
    } else {
      var f, c := steps[0].0, steps[0].1;
      if AtWork(sys.flows[f]) {
        WorkingIsWarranted(rows, sys, f, c);
      } else {
        ReadingIsWarranted(rows, sys, f, c);
      }
      RunsStayWarranted(rows, Next(sys, f, c), steps[1..], end);
    }
  }

  /** However the ticks interleave and whatever fails: every firing ever begun is of a schedule of the store that is
      enabled, and one on an event is of a schedule that waits for events of that kind. */
  lemma EveryFiringIsWarranted(start: System, steps: seq<(nat, Choice)>, end: System, k: nat)
    requires AtRest(start) && UniqueIds(start.store.schedules) && IsRun(start, steps, end) && k < |end.firings|
    ensures var firing := end.firings[k];
            exists s :: s in start.store.schedules && s.id == firing.schedule && s.enabled
                        && (firing.event.Some? ==>
                              && s.onEvent != "" && firing.event.value < |end.store.events|
                              && end.store.events[firing.event.value].kind == s.onEvent)
  {
    hide IsRun;
    var rows := start.store.schedules;
    assert AllWarranted(rows, start);
    RunsStayWarranted(rows, start, steps, end);
    assert Warranted(rows, end.store.events, end.firings[k]);
    var j :| 0 <= j < |rows| && Allows(rows[j], end.store.events, end.firings[k]);
    assert rows[j] in rows;
  }
}
