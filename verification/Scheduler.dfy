/**
 * The scheduler: ticks that fire what is due or triggered, an in-flight set and an event log they share
 * (application/scheduling/scheduler.py, infrastructure/persistence/schedule_repository.py).
 *
 * `Next` is one atomic step of one of several ticks under way at once - what happens between two awaits - so that a
 * sequence of steps is any interleaving of them. `AfterTick` is a tick that nothing interleaves with, as a function;
 * `Scheduler.Tick` comes to it, and is a run of steps.
 */
module Scheduler {
  import opened Wrappers
  import opened Schedules

  type EventId = nat

  datatype Event = Event(kind: string, consumed: bool)

  /** A call of `_fire` that got past the in-flight check. */
  datatype Firing = Firing(schedule: nat, event: Option<EventId>, now: Moment)

  const OBJECTIVE_FINISHED := "objective.finished"

  const PENDING_LIMIT := 20

  /** The stores: schedules and events, both in the order they were created. */
  datatype Store = Store(schedules: seq<Schedule>, events: seq<Event>) {
    /** `save`: the row with this id is overwritten, or added. */
    function Save(s: Schedule): Store {
      this.(schedules := Overwritten(schedules, s))
    }

    /** `consume`: check and claim in one statement. */
    function Consume(id: EventId): Store
      requires id < |events|
    {
      this.(events := events[id := events[id].(consumed := true)])
    }

    function Record(kind: string): Store {
      this.(events := events + [Event(kind, false)])
    }

    /** Nobody has claimed this event yet. */
    predicate IsFree(id: EventId) {
      id < |events| && !events[id].consumed
    }
  }

  function Overwritten(schedules: seq<Schedule>, s: Schedule): seq<Schedule> {
    if schedules == [] then [s]
    else if schedules[0].id == s.id then [s] + schedules[1..]
    else [schedules[0]] + Overwritten(schedules[1..], s)
  }

  /** What the store asks of a row for the due list: nothing about a recurrence, unlike `is_due`. */
  predicate Overdue(s: Schedule, now: Moment) {
    s.enabled && s.nextDue.Some? && s.nextDue.value <= now
  }

  function DueAmong(schedules: seq<Schedule>, now: Moment): (due: seq<Schedule>)
    ensures forall s :: s in due <==> s in schedules && Overdue(s, now)
  {
    if schedules == [] then []
    else
      assert schedules == [schedules[0]] + schedules[1..];
      (if Overdue(schedules[0], now) then [schedules[0]] else []) + DueAmong(schedules[1..], now)
  }

  /** Whether an event of the log is waiting for somebody who wants this kind. */
  predicate IsPending(events: seq<Event>, kind: string, id: EventId) {
    id < |events| && events[id].kind == kind && !events[id].consumed
  }

  /** The oldest `limit` pending events from `from` on. */
  function PendingFrom(events: seq<Event>, kind: string, from: nat, limit: nat): (ids: seq<EventId>)
    requires from <= |events|
    ensures |ids| <= limit
    ensures forall id :: id in ids ==> from <= id && IsPending(events, kind, id)
    ensures forall i, j :: 0 <= i < j < |ids| ==> ids[i] < ids[j]
    decreases |events| - from
  {
    if from == |events| || limit == 0 then []
    else if IsPending(events, kind, from) then
      var rest := PendingFrom(events, kind, from + 1, limit - 1);
      assert forall k :: 0 <= k < |rest| ==> rest[k] in rest;
      [from] + rest
    else PendingFrom(events, kind, from + 1, limit)
  }

  function Pending(events: seq<Event>, kind: string): (ids: seq<EventId>)
    ensures |ids| <= 20 && forall id :: id in ids ==> IsPending(events, kind, id)
    ensures forall i, j :: 0 <= i < j < |ids| ==> ids[i] < ids[j]
  {
    PendingFrom(events, kind, 0, PENDING_LIMIT)
  }

  // ----- Ticks that overlap -----

  /** Where a tick stands between two awaits. What it has read is its own copy; it is not read again. */
  datatype Flow =
    | Resting
    | FiringDue(now: Moment, due: seq<Schedule>)
    | Listing(now: Moment, listed: seq<Schedule>)
    | Claiming(now: Moment, schedule: Schedule, events: seq<EventId>, listed: seq<Schedule>)
    | Claimed(now: Moment, schedule: Schedule, event: EventId, events: seq<EventId>, listed: seq<Schedule>)
    | Receiving(firing: Firing, schedule: Schedule, back: Flow)
    | Saving(firing: Firing, schedule: Schedule, objective: nat, back: Flow)
    | Handling(firing: Firing, schedule: Schedule, back: Flow)
    | Recording(firing: Firing, schedule: Schedule, back: Flow)
    | Leaving(firing: Firing, schedule: Schedule, back: Flow)

  /** How many steps are left to the end of `_fire`. */
  function StepsOfWork(f: Flow): nat {
    match f
    case Receiving(_, _, _) => 5
    case Saving(_, _, _, _) => 4
    case Handling(_, _, _) => 3
    case Recording(_, _, _) => 2
    case Leaving(_, _, _) => 1
    case _ => 0
  }

  predicate AtWork(f: Flow) {
    StepsOfWork(f) > 0
  }

  datatype System = System(
    store: Store, running: set<nat>, flows: seq<Flow>, firings: seq<Firing>)

  /** What the outside decides at a step: the time a new tick reads, whether a call succeeds, and the objective it
      brings. */
  datatype Choice = Choice(now: Moment, ok: bool, objective: nat)

  /** `_fire` up to its first await: past the in-flight check, or back to where it was called. */
  function Enter(sys: System, f: nat, s: Schedule, event: Option<EventId>, now: Moment, back: Flow): System
    requires f < |sys.flows|
  {
    if s.id in sys.running then sys.(flows := sys.flows[f := back])
    else
      var firing := Firing(s.id, event, now);
      sys.(running := sys.running + {s.id}, firings := sys.firings + [firing],
           flows := sys.flows[f := Receiving(firing, s, back)])
  }

  /** One step of tick `f`. Receiving, saving, handling and recording may each fail; whatever fails, the line about the
      firing is written if it can be, and then the schedule leaves the in-flight set. */
  function Next(sys: System, f: nat, c: Choice): System
    requires f < |sys.flows|
  {
    match sys.flows[f]
    case Resting => sys.(flows := sys.flows[f := FiringDue(c.now, DueAmong(sys.store.schedules, c.now))])
    case FiringDue(now, due) =>
      if due == [] then sys.(flows := sys.flows[f := Listing(now, sys.store.schedules)])
      else Enter(sys, f, due[0], None, now, FiringDue(now, due[1..]))
    case Listing(now, listed) =>
      if listed == [] then sys.(flows := sys.flows[f := Resting])
      else if !listed[0].enabled || listed[0].onEvent == "" then sys.(flows := sys.flows[f := Listing(now, listed[1..])])
      else
        var events := Pending(sys.store.events, listed[0].onEvent);
        sys.(flows := sys.flows[f := Claiming(now, listed[0], events, listed[1..])])
    case Claiming(now, s, events, listed) =>
      if events == [] then sys.(flows := sys.flows[f := Listing(now, listed)])
      else if sys.store.IsFree(events[0]) then
        sys.(store := sys.store.Consume(events[0]),
             flows := sys.flows[f := Claimed(now, s, events[0], events[1..], listed)])
      else sys.(flows := sys.flows[f := Claiming(now, s, events[1..], listed)])
    case Claimed(now, s, event, events, listed) =>
      Enter(sys, f, s, Some(event), now, Claiming(now, s, events, listed))
    case Receiving(firing, s, back) =>
      sys.(flows := sys.flows[f := if c.ok then Saving(firing, s, c.objective, back) else Recording(firing, s, back)])
    case Saving(firing, s, objective, back) =>
      if c.ok then
        sys.(store := sys.store.Save(Fired(s, firing.now, Some(objective))),
             flows := sys.flows[f := Handling(firing, s, back)])
      else sys.(flows := sys.flows[f := Recording(firing, s, back)])
    case Handling(firing, s, back) => sys.(flows := sys.flows[f := Recording(firing, s, back)])
    case Recording(firing, s, back) =>
      sys.(store := if c.ok then sys.store.Record(OBJECTIVE_FINISHED) else sys.store,
           flows := sys.flows[f := Leaving(firing, s, back)])
    case Leaving(_, s, back) => sys.(running := sys.running - {s.id}, flows := sys.flows[f := back])
  }

  /** Steps of any ticks in any order. */
  ghost predicate IsRun(sys: System, steps: seq<(nat, Choice)>, end: System)
    decreases |steps|
  {
    if steps == [] then sys == end
    else steps[0].0 < |sys.flows| && IsRun(Next(sys, steps[0].0, steps[0].1), steps[1..], end)
  }

  lemma NoSteps(sys: System)
    ensures IsRun(sys, [], sys)
  {
  }

  lemma {:induction false} OneStepMore(start: System, steps: seq<(nat, Choice)>, mid: System, f: nat, c: Choice)
    requires IsRun(start, steps, mid) && f < |mid.flows|
    ensures IsRun(start, steps + [(f, c)], Next(mid, f, c))
    decreases |steps|
  {
    hide Next;
    var more := steps + [(f, c)];
    if steps == [] {
      assert more[1..] == [];
    } else {
      OneStepMore(Next(start, steps[0].0, steps[0].1), steps[1..], mid, f, c);
      assert more[0] == steps[0] && more[1..] == steps[1..] + [(f, c)];
    }
  }

  // ----- A tick by itself -----

  /** What becomes of the work of a firing: the manager may not receive the request, the row may not be saved, or the
      objective is handled, with or without an exception. */
  datatype Work = NotReceived | NotSaved(objective: nat) | Handled(objective: nat)

  /** The outside answers by the number of the firing: what becomes of the work, and whether a line can be written. */
  datatype Outside = Outside(work: nat -> Work, recorded: nat -> bool)

  /** What a tick leaves: the stores, and the firings begun so far. The in-flight set is as it was. */
  datatype Left = Left(store: Store, firings: seq<Firing>)

  function AfterFiring(o: Outside, running: set<nat>, l: Left, s: Schedule, event: Option<EventId>, now: Moment): Left {
    if s.id in running then l
    else
      var n := |l.firings|;
      var saved := if o.work(n).Handled? then l.store.Save(Fired(s, now, Some(o.work(n).objective))) else l.store;
      Left(if o.recorded(n) then saved.Record(OBJECTIVE_FINISHED) else saved, l.firings + [Firing(s.id, event, now)])
  }

  function AfterDue(o: Outside, running: set<nat>, l: Left, due: seq<Schedule>, now: Moment): Left {
    if due == [] then l
    else AfterFiring(o, running, AfterDue(o, running, l, due[..|due| - 1], now), due[|due| - 1], None, now)
  }

  function AfterEvent(o: Outside, running: set<nat>, l: Left, s: Schedule, event: EventId, now: Moment): Left {
    if !l.store.IsFree(event) then l
    else AfterFiring(o, running, l.(store := l.store.Consume(event)), s, Some(event), now)
  }

  function AfterEvents(o: Outside, running: set<nat>, l: Left, s: Schedule, events: seq<EventId>, now: Moment): Left {
    if events == [] then l
    else AfterEvent(o, running, AfterEvents(o, running, l, s, events[..|events| - 1], now), s, events[|events| - 1], now)
  }

  /** One listed schedule: nothing for one that is off or waits for no event. */
  function AfterOne(o: Outside, running: set<nat>, l: Left, s: Schedule, now: Moment): Left {
    if !s.enabled || s.onEvent == "" then l
    else AfterEvents(o, running, l, s, Pending(l.store.events, s.onEvent), now)
  }

  function AfterListed(o: Outside, running: set<nat>, l: Left, listed: seq<Schedule>, now: Moment): Left {
    if listed == [] then l
    else AfterOne(o, running, AfterListed(o, running, l, listed[..|listed| - 1], now), listed[|listed| - 1], now)
  }

  function AfterTick(o: Outside, running: set<nat>, l: Left, now: Moment): Left {
    var fired := AfterDue(o, running, l, DueAmong(l.store.schedules, now), now);
    AfterListed(o, running, fired, fired.store.schedules, now)
  }

  function AfterAll(o: Outside, running: set<nat>, l: Left, times: seq<Moment>): Left {
    if times == [] then l
    else AfterTick(o, running, AfterAll(o, running, l, times[..|times| - 1]), times[|times| - 1])
  }

  /** A process in which one tick at a time is under way. */
  class Scheduler {
    const outside: Outside
    var store: Store
    var running: set<nat>
    var firings: seq<Firing>

    constructor (outside: Outside, store: Store)
      ensures this.outside == outside && this.store == store && running == {} && firings == []
    {
      this.outside, this.store := outside, store;
      running, firings := {}, [];
    }

    /** The process as a system with this one tick under way. */
    ghost function With(flow: Flow): System
      reads this
    {
      System(store, running, [flow], firings)
    }

    function Now(): Left
      reads this
    {
      Left(store, firings)
    }

    /** `_fire`: nothing while the schedule is in flight; otherwise it is in flight until the work is over, however the
        work ends. */
    method Fire(s: Schedule, now: Moment, event: Option<EventId>,
                ghost start: System, ghost steps: seq<(nat, Choice)>, ghost caller: Flow, ghost back: Flow)
      returns (ghost more: seq<(nat, Choice)>)
      requires IsRun(start, steps, With(caller))
      requires forall c :: Next(With(caller), 0, c) == Enter(With(caller), 0, s, event, now, back)
      modifies this
      ensures IsRun(start, more, With(back))
      ensures running == old(running)
      ensures Now() == AfterFiring(outside, running, old(Now()), s, event, now)
    {
      hide IsRun, Overwritten;
      ghost var c := Choice(now, true, 0);
      OneStepMore(start, steps, With(caller), 0, c);
      more := steps + [(0, c)];
      assert [caller][0 := back] == [back];
      if s.id in running {
        return;
      }
      var number, firing := |firings|, Firing(s.id, event, now);
      assert [caller][0 := Receiving(firing, s, back)] == [Receiving(firing, s, back)];
      running, firings := running + {s.id}, firings + [firing];
      more := Try(s, firing, number, start, more, back);
      more := Conclude(s, firing, number, start, more, back);
      assert running == old(running);
    }

    /** The `try` of `_fire`: the request is received, the row saved and the objective handled, as far as that goes. */
    method Try(s: Schedule, firing: Firing, number: nat,
               ghost start: System, ghost steps: seq<(nat, Choice)>, ghost back: Flow)
      returns (ghost more: seq<(nat, Choice)>)
      requires IsRun(start, steps, With(Receiving(firing, s, back)))
      modifies `store
      ensures IsRun(start, more, With(Recording(firing, s, back)))
      ensures store == if outside.work(number).Handled?
                       then old(store).Save(Fired(s, firing.now, Some(outside.work(number).objective))) else old(store)
    {
      hide IsRun, Overwritten;
      var outcome := outside.work(number);
      ghost var at := Receiving(firing, s, back);
      if outcome.NotReceived? {
        more := Onward(start, steps, at, Recording(firing, s, back), Choice(0, false, 0));
        return;
      }
      more := Onward(start, steps, at, Saving(firing, s, outcome.objective, back), Choice(0, true, outcome.objective));
      at := Saving(firing, s, outcome.objective, back);
      if outcome.NotSaved? {
        more := Onward(start, more, at, Recording(firing, s, back), Choice(0, false, 0));
        return;
      }
      OneStepMore(start, more, With(at), 0, Choice(0, true, 0));
      more := more + [(0, Choice(0, true, 0))];
      assert [at][0 := Handling(firing, s, back)] == [Handling(firing, s, back)];
      store := store.Save(Fired(s, firing.now, Some(outcome.objective)));
      assert IsRun(start, more, With(Handling(firing, s, back)));
      more := Onward(start, more, Handling(firing, s, back), Recording(firing, s, back), Choice(0, true, 0));
    }

    /** The rest of `_fire`: the line about the firing, and out of the in-flight set. */
    method Conclude(s: Schedule, firing: Firing, number: nat,
                    ghost start: System, ghost steps: seq<(nat, Choice)>, ghost back: Flow)
      returns (ghost more: seq<(nat, Choice)>)
      requires IsRun(start, steps, With(Recording(firing, s, back)))
      modifies `store, `running
      ensures IsRun(start, more, With(back))
      ensures running == old(running) - {s.id}
      ensures store == if outside.recorded(number) then old(store).Record(OBJECTIVE_FINISHED) else old(store)
    {
      hide IsRun;
      var record := outside.recorded(number);
      ghost var at := Recording(firing, s, back);
      OneStepMore(start, steps, With(at), 0, Choice(0, record, 0));
      more := steps + [(0, Choice(0, record, 0))];
      assert [at][0 := Leaving(firing, s, back)] == [Leaving(firing, s, back)];
      if record {
        store := store.Record(OBJECTIVE_FINISHED);
      }
      at := Leaving(firing, s, back);
      assert IsRun(start, more, With(at));
      OneStepMore(start, more, With(at), 0, Choice(0, true, 0));
      more := more + [(0, Choice(0, true, 0))];
      assert [at][0 := back] == [back];
      running := running - {s.id};
      assert IsRun(start, more, With(back));
    }

    /** A step that changes nothing but where the tick stands. */
    ghost method Onward(start: System, steps: seq<(nat, Choice)>, here: Flow, there: Flow, c: Choice)
      returns (more: seq<(nat, Choice)>)
      requires IsRun(start, steps, With(here))
      requires Next(With(here), 0, c) == With(here).(flows := With(here).flows[0 := there])
      ensures IsRun(start, more, With(there))
    {
      hide IsRun, Next;
      OneStepMore(start, steps, With(here), 0, c);
      assert [here][0 := there] == [there];
      more := steps + [(0, c)];
    }

    /** The first loop of a tick. */
    method FireDue(now: Moment, due: seq<Schedule>, ghost start: System, ghost steps: seq<(nat, Choice)>)
      returns (ghost more: seq<(nat, Choice)>)
      requires IsRun(start, steps, With(FiringDue(now, due)))
      modifies this
      ensures IsRun(start, more, With(FiringDue(now, [])))
      ensures running == old(running) && Now() == AfterDue(outside, running, old(Now()), due, now)
    {
      hide IsRun, Enter, AfterFiring;
      more := steps;
      assert due[0..] == due && due[..0] == [];
      for k := 0 to |due|
        invariant IsRun(start, more, With(FiringDue(now, due[k..])))
        invariant running == old(running) && Now() == AfterDue(outside, running, old(Now()), due[..k], now)
      {
        assert due[k..][0] == due[k] && due[k..][1..] == due[k + 1..];
        assert due[..k + 1][..k] == due[..k];
        more := Fire(due[k], now, None, start, more, FiringDue(now, due[k..]), FiringDue(now, due[k + 1..]));
      }
      assert due[|due|..] == [] && due[..|due|] == due;
    }

    /** The loop over the events one schedule waits for. Each is claimed before it is fired on, and every firing starts
        from the schedule as it was listed. */
    method FireEvents(s: Schedule, now: Moment, events: seq<EventId>, ghost listed: seq<Schedule>,
                      ghost start: System, ghost steps: seq<(nat, Choice)>)
      returns (ghost more: seq<(nat, Choice)>)
      requires IsRun(start, steps, With(Claiming(now, s, events, listed)))
      modifies this
      ensures IsRun(start, more, With(Claiming(now, s, [], listed)))
      ensures running == old(running) && Now() == AfterEvents(outside, running, old(Now()), s, events, now)
    {
      hide IsRun, Enter, AfterFiring;
      more := steps;
      assert events[0..] == events && events[..0] == [];
      for k := 0 to |events|
        invariant IsRun(start, more, With(Claiming(now, s, events[k..], listed)))
        invariant running == old(running) && Now() == AfterEvents(outside, running, old(Now()), s, events[..k], now)
      {
        assert events[k..][0] == events[k] && events[k..][1..] == events[k + 1..];
        assert events[..k + 1][..k] == events[..k];
        ghost var c, rest := Choice(now, true, 0), events[k + 1..];
        ghost var here := Claiming(now, s, events[k..], listed);
        if store.IsFree(events[k]) {
          ghost var claimed := Claimed(now, s, events[k], rest, listed);
          OneStepMore(start, more, With(here), 0, c);
          more := more + [(0, c)];
          assert [here][0 := claimed] == [claimed];
          store := store.Consume(events[k]);
          more := Fire(s, now, Some(events[k]), start, more, claimed, Claiming(now, s, rest, listed));
        } else {
          more := Onward(start, more, here, Claiming(now, s, rest, listed), c);
        }
      }
      assert events[|events|..] == [] && events[..|events|] == events;
    }

    /** `tick`: fire what is due by now, then what the pending events trigger, and come to rest with nothing of its own
        in flight. */
    method Tick(now: Moment) returns (ghost steps: seq<(nat, Choice)>)
      modifies this
      ensures IsRun(old(With(Resting)), steps, With(Resting))
      ensures running == old(running) && Now() == AfterTick(outside, running, old(Now()), now)
    {
      hide IsRun, Enter, DueAmong, Pending, AfterDue, AfterEvents;
      ghost var start, c := With(Resting), Choice(now, true, 0);
      assert IsRun(start, [], start) by { NoSteps(start); }
      var due := DueAmong(store.schedules, now);
      steps := Onward(start, [], Resting, FiringDue(now, due), c);
      steps := FireDue(now, due, start, steps);
      var listed := store.schedules;
      ghost var fired := Now();
      steps := Onward(start, steps, FiringDue(now, []), Listing(now, listed), c);
      assert listed[0..] == listed && listed[..0] == [];
      for k := 0 to |listed|
        invariant IsRun(start, steps, With(Listing(now, listed[k..])))
        invariant running == old(running) && Now() == AfterListed(outside, running, fired, listed[..k], now)
      {
        var s := listed[k];
        ghost var here, rest := Listing(now, listed[k..]), listed[k + 1..];
        assert listed[k..][0] == s && listed[k..][1..] == rest && listed[..k + 1][..k] == listed[..k];
        if s.enabled && s.onEvent != "" {
          var events := Pending(store.events, s.onEvent);
          steps := Onward(start, steps, here, Claiming(now, s, events, rest), c);
          steps := FireEvents(s, now, events, rest, start, steps);
          steps := Onward(start, steps, Claiming(now, s, [], rest), Listing(now, rest), c);
        } else {
          steps := Onward(start, steps, here, Listing(now, rest), c);
        }
      }
      assert listed[|listed|..] == [] && listed[..|listed|] == listed;
      steps := Onward(start, steps, Listing(now, []), Resting, c);
    }

    /** `run_forever`, until it is asked to stop: one tick after another, at the times the clock says. */
    method RunForever(times: seq<Moment>)
      modifies this
      ensures running == old(running) && Now() == AfterAll(outside, running, old(Now()), times)
    {
      hide AfterTick;
      assert times[..0] == [];
      for k := 0 to |times|
        invariant running == old(running) && Now() == AfterAll(outside, running, old(Now()), times[..k])
      {
        assert times[..k + 1][..k] == times[..k];
        ghost var steps := Tick(times[k]);
      }
      assert times[..|times|] == times;
    }
  }
}
