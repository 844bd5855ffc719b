/**
 * Ticks one after another (application/scheduling/scheduler.py): a schedule that fires by the clock fires as
 * `Schedules.Firings` says, and the events that are pending are claimed and fired on in order.
 */
module SchedulerTicks {
  import opened Wrappers
  import opened Text
  import opened Schedules
  import opened Scheduler
  import opened SchedulerEarly

  /** The moments of this schedule's firings that were saved, in order. */
  function SavedMoments(o: Outside, firings: seq<Firing>, id: nat): seq<Moment> {
    if firings == [] then []
    else
      var n := |firings| - 1;
      SavedMoments(o, firings[..n], id)
      + if firings[n].schedule == id && o.work(n).Handled? then [firings[n].now] else []
  }

  lemma OneFiringMore(o: Outside, firings: seq<Firing>, firing: Firing, id: nat)
    ensures SavedMoments(o, firings + [firing], id) ==
            SavedMoments(o, firings, id)
            + if firing.schedule == id && o.work(|firings|).Handled? then [firing.now] else []
  {
    assert (firings + [firing])[..|firings|] == firings;
  }

  /** A schedule with this id, which fires by the clock and waits for no event. */
  ghost predicate Timed(schedules: seq<Schedule>, id: nat) {
    && UniqueIds(schedules) && RowOf(schedules, id).Some?
    && RowOf(schedules, id).value.recurrence.Some? && RowOf(schedules, id).value.onEvent == ""
  }

  /** Nothing of this schedule has changed. */
  ghost predicate Untouched(o: Outside, l: Left, after: Left, id: nat) {
    && l.firings <= after.firings
    && RowOf(after.store.schedules, id) == RowOf(l.store.schedules, id)
    && SavedMoments(o, after.firings, id) == SavedMoments(o, l.firings, id)
  }

  /** The row names the objective of a firing of these since then. */
  ghost predicate NamesItsObjective(o: Outside, l: Left, after: Left, s: Schedule, now: Moment)
    requires RowOf(after.store.schedules, s.id).Some?
  {
    exists n: nat :: |l.firings| <= n < |after.firings| && IsItsFiring(o, after, s, now, n)
  }

  ghost predicate IsItsFiring(o: Outside, after: Left, s: Schedule, now: Moment, n: nat)
    requires n < |after.firings| && RowOf(after.store.schedules, s.id).Some?
  {
    && after.firings[n].schedule == s.id && after.firings[n].now == now && o.work(n).Handled?
    && RowOf(after.store.schedules, s.id).value.lastObjective == Some(o.work(n).objective)
  }

  /** It fired once, from this copy. */
  ghost predicate FiredOnce(o: Outside, l: Left, after: Left, s: Schedule, now: Moment) {
    && l.firings <= after.firings
    && RowOf(after.store.schedules, s.id).Some?
    && AsideFromObjective(RowOf(after.store.schedules, s.id).value) == AsideFromObjective(Fired(s, now, None))
    && SavedMoments(o, after.firings, s.id) == SavedMoments(o, l.firings, s.id) + [now]
    && NamesItsObjective(o, l, after, s, now)
  }

  function AsideFromObjective(s: Schedule): Schedule {
    s.(lastObjective := None)
  }

  lemma FiringOfAnother(
      o: Outside, running: set<nat>, l: Left, s: Schedule, event: Option<EventId>, now: Moment, id: nat)
    requires s.id != id
    ensures Untouched(o, l, AfterFiring(o, running, l, s, event, now), id)
  {
    hide RowOf, Overwritten, SavedMoments;
    var n := |l.firings|;
    OneFiringMore(o, l.firings, Firing(s.id, event, now), id);
    if o.work(n).Handled? {
      OverwrittenRow(l.store.schedules, Fired(s, now, Some(o.work(n).objective)), id);
    }
  }

  lemma FiringOfThis(o: Outside, running: set<nat>, l: Left, s: Schedule, event: Option<EventId>, now: Moment)
    ensures var after := AfterFiring(o, running, l, s, event, now);
            if s.id !in running && o.work(|l.firings|).Handled? then FiredOnce(o, l, after, s, now)
            else Untouched(o, l, after, s.id)
  {
    hide RowOf, Overwritten, SavedMoments;
    var n := |l.firings|;
    OneFiringMore(o, l.firings, Firing(s.id, event, now), s.id);
    if o.work(n).Handled? {
      OverwrittenRow(l.store.schedules, Fired(s, now, Some(o.work(n).objective)), s.id);
    }
    assert SavedMoments(o, l.firings, s.id) + [] == SavedMoments(o, l.firings, s.id);
    if s.id !in running && o.work(n).Handled? {
      assert IsItsFiring(o, AfterFiring(o, running, l, s, event, now), s, now, n);
    }
  }

  lemma FiredThenUntouched(o: Outside, a: Left, b: Left, c: Left, s: Schedule, now: Moment)
    requires FiredOnce(o, a, b, s, now) && Untouched(o, b, c, s.id)
    ensures FiredOnce(o, a, c, s, now)
  {
    hide RowOf, SavedMoments, Fired;
    var n: nat :| |a.firings| <= n < |b.firings| && IsItsFiring(o, b, s, now, n);
    assert IsItsFiring(o, c, s, now, n);
  }

  lemma UntouchedThenFired(o: Outside, a: Left, b: Left, c: Left, s: Schedule, now: Moment)
    requires Untouched(o, a, b, s.id) && FiredOnce(o, b, c, s, now)
    ensures FiredOnce(o, a, c, s, now)
  {
    hide RowOf, SavedMoments, Fired;
    var n: nat :| |b.firings| <= n < |c.firings| && IsItsFiring(o, c, s, now, n);
    assert IsItsFiring(o, c, s, now, n);
  }

  // ----- Settings -----

  /** Every copy is of a row, as far as the settings go. */
  ghost predicate AllKnown(schedules: seq<Schedule>, copies: seq<Schedule>) {
    forall k :: 0 <= k < |copies| ==> Known(Configs(schedules), copies[k])
  }

  lemma RowsAreKnown(schedules: seq<Schedule>, copies: seq<Schedule>)
    requires forall k :: 0 <= k < |copies| ==> copies[k] in schedules
    ensures AllKnown(schedules, copies)
  {
    forall k | 0 <= k < |copies| ensures Known(Configs(schedules), copies[k]) {
      var j :| 0 <= j < |schedules| && schedules[j] == copies[k];
      assert Configs(schedules)[j] == Config(copies[k]);
    }
  }

  ghost predicate SameSettings(l: Left, after: Left) {
    Configs(after.store.schedules) == Configs(l.store.schedules) && UniqueIds(after.store.schedules)
  }

  lemma FiringKeepsSettings(
      o: Outside, running: set<nat>, l: Left, s: Schedule, event: Option<EventId>, now: Moment)
    requires UniqueIds(l.store.schedules) && Known(Configs(l.store.schedules), s)
    ensures SameSettings(l, AfterFiring(o, running, l, s, event, now))
  {
    hide Overwritten, Known, UniqueIds, Configs;
    var n := |l.firings|;
    if o.work(n).Handled? {
      var fired := Fired(s, now, Some(o.work(n).objective));
      KnownFired(Configs(l.store.schedules), s, now, Some(o.work(n).objective));
      OverwrittenConfigs(l.store.schedules, fired);
      ConfigsKeepIds(Overwritten(l.store.schedules, fired), l.store.schedules);
    }
  }

  lemma KnownFired(configs: seq<Schedule>, s: Schedule, now: Moment, objective: Option<nat>)
    requires Known(configs, s)
    ensures Known(configs, Fired(s, now, objective))
  {
    FiringKeepsConfig(s, now, objective);
  }

  lemma {:induction false} DueKeepsSettings(o: Outside, running: set<nat>, l: Left, due: seq<Schedule>, now: Moment)
    requires UniqueIds(l.store.schedules) && AllKnown(l.store.schedules, due)
    ensures SameSettings(l, AfterDue(o, running, l, due, now))
  {
    hide AfterFiring, Known, UniqueIds, Configs;
    if due == [] {
    } else {
      var n := |due| - 1;
      DueKeepsSettings(o, running, l, due[..n], now);
      FiringKeepsSettings(o, running, AfterDue(o, running, l, due[..n], now), due[n], None, now);
    }
  }

  lemma {:induction false} EventsKeepSettings(
      o: Outside, running: set<nat>, l: Left, s: Schedule, events: seq<EventId>, now: Moment)
    requires UniqueIds(l.store.schedules) && Known(Configs(l.store.schedules), s)
    ensures SameSettings(l, AfterEvents(o, running, l, s, events, now))
  {
    hide AfterFiring, Known, UniqueIds, Configs;
    if events == [] {
    } else {
      var n := |events| - 1;
      EventsKeepSettings(o, running, l, s, events[..n], now);
      var before := AfterEvents(o, running, l, s, events[..n], now);
      if before.store.IsFree(events[n]) {
        FiringKeepsSettings(o, running, before.(store := before.store.Consume(events[n])), s, Some(events[n]), now);
      }
    }
  }

  lemma {:induction false} ListedKeepsSettings(o: Outside, running: set<nat>, l: Left, listed: seq<Schedule>, now: Moment)
    requires UniqueIds(l.store.schedules) && AllKnown(l.store.schedules, listed)
    ensures SameSettings(l, AfterListed(o, running, l, listed, now))
  {
    hide AfterEvents, Known, UniqueIds, Configs, Pending;
    if listed == [] {
    } else {
      var n := |listed| - 1;
      ListedKeepsSettings(o, running, l, listed[..n], now);
      var before := AfterListed(o, running, l, listed[..n], now);
      EventsKeepSettings(o, running, before, listed[n], Pending(before.store.events, listed[n].onEvent), now);
    }
  }

  // ----- One tick -----

  /** Whether the due list gets an objective of this schedule received and saved: it is not in flight, and its firing is
      handled. */
  predicate Taken(o: Outside, running: set<nat>, l: Left, due: seq<Schedule>, id: nat, now: Moment) {
    due != [] &&
    var rest, last := due[..|due| - 1], due[|due| - 1];
    if last.id == id then id !in running && o.work(|AfterDue(o, running, l, rest, now).firings|).Handled?
    else Taken(o, running, l, rest, id, now)
  }

  lemma {:induction false} DueWithout(
      o: Outside, running: set<nat>, l: Left, due: seq<Schedule>, now: Moment, id: nat)
    requires forall k :: 0 <= k < |due| ==> due[k].id != id
    ensures Untouched(o, l, AfterDue(o, running, l, due, now), id) && !Taken(o, running, l, due, id, now)
  {
    hide AfterFiring, RowOf, SavedMoments;
    if due == [] {
    } else {
      var n := |due| - 1;
      DueWithout(o, running, l, due[..n], now, id);
      FiringOfAnother(o, running, AfterDue(o, running, l, due[..n], now), due[n], None, now, id);
    }
  }

  /** A schedule of the due list fires once if it is taken, and otherwise stays as it is. */
  lemma {:induction false} DueWith(o: Outside, running: set<nat>, l: Left, due: seq<Schedule>, now: Moment, s: Schedule)
    requires UniqueIds(due) && s in due
    ensures var after := AfterDue(o, running, l, due, now);
            if Taken(o, running, l, due, s.id, now) then FiredOnce(o, l, after, s, now) else Untouched(o, l, after, s.id)
  {
    hide AfterFiring, RowOf, SavedMoments, FiredOnce;
    var n := |due| - 1;
    var rest := due[..n];
    var before := AfterDue(o, running, l, rest, now);
    var k :| 0 <= k < |due| && due[k] == s;
    if k == n {
      DueWithout(o, running, l, rest, now, s.id);
      FiringOfThis(o, running, before, s, None, now);
      if Taken(o, running, l, due, s.id, now) {
        UntouchedThenFired(o, l, before, AfterDue(o, running, l, due, now), s, now);
      }
    } else {
      assert rest[k] == s;
      DueWith(o, running, l, rest, now, s);
      FiringOfAnother(o, running, before, due[n], None, now, s.id);
      if Taken(o, running, l, due, s.id, now) {
        FiredThenUntouched(o, l, before, AfterDue(o, running, l, due, now), s, now);
      }
    }
  }

  lemma {:induction false} DueIsUnique(schedules: seq<Schedule>, now: Moment)
    requires UniqueIds(schedules)
    ensures UniqueIds(DueAmong(schedules, now))
  {
    if schedules == [] {
    } else {
      var rest := DueAmong(schedules[1..], now);
      DueIsUnique(schedules[1..], now);
      forall k | 0 <= k < |rest| ensures rest[k].id != schedules[0].id {
        assert rest[k] in schedules[1..];
      }
    }
  }

  lemma {:induction false} EventsOfAnother(
      o: Outside, running: set<nat>, l: Left, s: Schedule, events: seq<EventId>, now: Moment, id: nat)
    requires s.id != id
    ensures Untouched(o, l, AfterEvents(o, running, l, s, events, now), id)
  {
    hide AfterFiring, RowOf, SavedMoments;
    if events == [] {
    } else {
      var n := |events| - 1;
      EventsOfAnother(o, running, l, s, events[..n], now, id);
      var before := AfterEvents(o, running, l, s, events[..n], now);
      if before.store.IsFree(events[n]) {
        FiringOfAnother(o, running, before.(store := before.store.Consume(events[n])), s, Some(events[n]), now, id);
      }
    }
  }

  lemma {:induction false} ListedOfOthers(
      o: Outside, running: set<nat>, l: Left, listed: seq<Schedule>, now: Moment, id: nat)
    requires forall k :: 0 <= k < |listed| && listed[k].id == id ==> listed[k].onEvent == ""
    ensures Untouched(o, l, AfterListed(o, running, l, listed, now), id)
  {
    hide AfterEvents, RowOf, SavedMoments, Pending;
    if listed == [] {
    } else {
      var n := |listed| - 1;
      ListedOfOthers(o, running, l, listed[..n], now, id);
      var before := AfterListed(o, running, l, listed[..n], now);
      if listed[n].id != id {
        EventsOfAnother(o, running, before, listed[n], Pending(before.store.events, listed[n].onEvent), now, id);
      }
    }
  }

  /** To a schedule that fires by the clock a tick is one of the ticks of `Schedules.Firings`: it fires once if it is due
      and taken, and otherwise nothing of it changes, whatever else the tick fires. */
  lemma TickOfTimed(o: Outside, running: set<nat>, l: Left, now: Moment, id: nat)
    requires Timed(l.store.schedules, id)
    ensures var s, after := RowOf(l.store.schedules, id).value, AfterTick(o, running, l, now);
            var tick := Tick(now, Taken(o, running, l, DueAmong(l.store.schedules, now), id, now));
            && (if Fires(s, tick) then FiredOnce(o, l, after, s, now) else Untouched(o, l, after, id))
            && Timed(after.store.schedules, id) && SameSettings(l, after)
  {
    hide AfterDue, AfterListed, RowOf, SavedMoments, Taken, UniqueIds, DueAmong, Configs, Fired;
    var schedules := l.store.schedules;
    RowIsMember(schedules, id);
    var s, due := RowOf(schedules, id).value, DueAmong(schedules, now);
    var fired := AfterDue(o, running, l, due, now);
    DueIsUnique(schedules, now);
    assert forall k :: 0 <= k < |due| ==> due[k] in due;
    RowsAreKnown(schedules, due);
    DueKeepsSettings(o, running, l, due, now);
    if s in due {
      DueWith(o, running, l, due, now, s);
    } else {
      forall k | 0 <= k < |due| ensures due[k].id != id {
        RowOfMember(schedules, due[k]);
      }
      DueWithout(o, running, l, due, now, id);
    }
    StillTimed(schedules, fired.store.schedules, id);
    var listed := fired.store.schedules;
    forall k | 0 <= k < |listed| && listed[k].id == id ensures listed[k].onEvent == "" {
      RowOfMember(listed, listed[k]);
    }
    ListedOfOthers(o, running, fired, listed, now, id);
    if s in due && Taken(o, running, l, due, id, now) {
      FiredThenUntouched(o, l, fired, AfterTick(o, running, l, now), s, now);
    }
    RowsAreKnown(listed, listed);
    ListedKeepsSettings(o, running, fired, listed, now);
    StillTimed(listed, AfterTick(o, running, l, now).store.schedules, id);
  }

  lemma StillTimed(schedules: seq<Schedule>, after: seq<Schedule>, id: nat)
    requires Timed(schedules, id) && UniqueIds(after) && Configs(after) == Configs(schedules)
    ensures Timed(after, id)
  {
    ConfigsKeepIds(after, schedules);
    RowIsMember(schedules, id);
    var k :| 0 <= k < |schedules| && schedules[k] == RowOf(schedules, id).value;
    RowOfMember(after, after[k]);
    SchedulerEarly.SameSettings(after[k], schedules[k]);
  }

  // ----- Ticks one after another -----

  /** What these ticks are to a schedule. */
  function TicksFor(o: Outside, running: set<nat>, l: Left, times: seq<Moment>, id: nat): (ticks: seq<Tick>)
    ensures |ticks| == |times| && forall k :: 0 <= k < |ticks| ==> ticks[k].now == times[k]
  {
    if times == [] then []
    else
      var n := |times| - 1;
      var before := AfterAll(o, running, l, times[..n]);
      TicksFor(o, running, l, times[..n], id)
      + [Tick(times[n], Taken(o, running, before, DueAmong(before.store.schedules, times[n]), id, times[n]))]
  }

  /** Over any ticks, one after another: the firings of a schedule that were saved are those `Schedules.Firings` gives it
      for the same ticks, and its row is what they leave of it. */
  lemma {:induction false} TicksFireAsFirings(o: Outside, running: set<nat>, l: Left, times: seq<Moment>, id: nat)
    requires Timed(l.store.schedules, id)
    ensures var s, ticks := RowOf(l.store.schedules, id).value, TicksFor(o, running, l, times, id);
            var after := AfterAll(o, running, l, times);
            && SavedMoments(o, after.firings, id) == SavedMoments(o, l.firings, id) + Firings(s, ticks)
            && Timed(after.store.schedules, id)
            && AsideFromObjective(RowOf(after.store.schedules, id).value) == AsideFromObjective(AfterTicks(s, ticks))
  {
    hide AfterTick, RowOf, SavedMoments, Taken, DueAmong, Timed, Firings, AfterTicks;
    TimedParts(l.store.schedules, id);
    var s := RowOf(l.store.schedules, id).value;
    if times == [] {
      NoTicks(s);
      assert SavedMoments(o, l.firings, id) + [] == SavedMoments(o, l.firings, id);
    } else {
      var n := |times| - 1;
      TicksFireAsFirings(o, running, l, times[..n], id);
      var before, ticks := AfterAll(o, running, l, times[..n]), TicksFor(o, running, l, times[..n], id);
      TickOfTimed(o, running, before, times[n], id);
      var t := Tick(times[n], Taken(o, running, before, DueAmong(before.store.schedules, times[n]), id, times[n]));
      TimedParts(before.store.schedules, id);
      var row := RowOf(before.store.schedules, id).value;
      OneTickMore(s, ticks, t);
      SameApartFromObjective(row, AfterTicks(s, ticks), t);
    }
  }

  lemma TimedParts(schedules: seq<Schedule>, id: nat)
    requires Timed(schedules, id)
    ensures RowOf(schedules, id).Some? && RowOf(schedules, id).value.recurrence.Some?
    ensures RowOf(schedules, id).value.id == id
  {
    RowIsMember(schedules, id);
  }

  lemma NoTicks(s: Schedule)
    ensures Firings(s, []) == [] && AfterTicks(s, []) == s
  {
  }

  lemma SameApartFromObjective(a: Schedule, b: Schedule, t: Tick)
    requires AsideFromObjective(a) == AsideFromObjective(b)
    ensures Fires(a, t) <==> Fires(b, t)
    ensures AsideFromObjective(Fired(a, t.now, None)) == AsideFromObjective(Fired(b, t.now, None))
  {
    assert AsideFromObjective(a).enabled == a.enabled && AsideFromObjective(b).enabled == b.enabled;
    assert AsideFromObjective(a).recurrence == a.recurrence && AsideFromObjective(b).recurrence == b.recurrence;
    assert AsideFromObjective(a).nextDue == a.nextDue && AsideFromObjective(b).nextDue == b.nextDue;
    assert AsideFromObjective(a).runs == a.runs && AsideFromObjective(b).runs == b.runs;
    assert Fired(a, t.now, None).(lastObjective := None) == AsideFromObjective(a).(
             lastRun := Some(t.now), runs := a.runs + 1, nextDue := Fired(a, t.now, None).nextDue);
    assert Fired(b, t.now, None).(lastObjective := None) == AsideFromObjective(b).(
             lastRun := Some(t.now), runs := b.runs + 1, nextDue := Fired(b, t.now, None).nextDue);
  }

  /** So two firings of an interval schedule are apart by the interval at least, whatever fails in between, as long as
      no two ticks overlap. */
  lemma TicksKeepTheirDistance(
      o: Outside, running: set<nat>, store: Store, times: seq<Moment>, id: nat, i: nat, j: nat)
    requires Timed(store.schedules, id)
    requires RowOf(store.schedules, id).value.recurrence.value.Every?
    requires RowOf(store.schedules, id).value.recurrence.value.Valid()
    requires forall a, b :: 0 <= a < b < |times| ==> times[a] < times[b]
    requires i <= j < |SavedMoments(o, AfterAll(o, running, Left(store, []), times).firings, id)|
    ensures var f := SavedMoments(o, AfterAll(o, running, Left(store, []), times).firings, id);
            f[j] - f[i] >= (j - i) * (RowOf(store.schedules, id).value.recurrence.value.seconds * SECOND)
  {
    hide AfterAll, RowOf, Timed, Firings;
    TimedParts(store.schedules, id);
    var l := Left(store, []);
    TicksFireAsFirings(o, running, l, times, id);
    var s, ticks := RowOf(store.schedules, id).value, TicksFor(o, running, l, times, id);
    assert [] + Firings(s, ticks) == Firings(s, ticks);
    IntervalsApart(s, ticks, i, j);
  }

  // ----- What a tick begins -----

  /** One firing for each schedule of the due list that is not in flight, in order. */
  function DueFirings(due: seq<Schedule>, running: set<nat>, now: Moment): seq<Firing> {
    if due == [] then []
    else
      DueFirings(due[..|due| - 1], running, now)
      + if due[|due| - 1].id in running then [] else [Firing(due[|due| - 1].id, None, now)]
  }

  lemma {:induction false} DueListIsFired(o: Outside, running: set<nat>, l: Left, due: seq<Schedule>, now: Moment)
    ensures AfterDue(o, running, l, due, now).firings == l.firings + DueFirings(due, running, now)
  {
    if due == [] {
      assert l.firings + [] == l.firings;
    } else {
      DueListIsFired(o, running, l, due[..|due| - 1], now);
    }
  }

  function EventFirings(s: Schedule, events: seq<EventId>, now: Moment): seq<Firing> {
    seq(|events|, k requires 0 <= k < |events| => Firing(s.id, Some(events[k]), now))
  }

  /** These events are claimed, and nothing else happened to the ones there were. */
  ghost predicate AllClaimed(before: seq<Event>, events: seq<EventId>, after: seq<Event>) {
    && |before| <= |after|
    && forall e :: 0 <= e < |before| ==>
         after[e] == if e in events then before[e].(consumed := true) else before[e]
  }

  /** A schedule that waits for events, with the events found pending for it: all of them are claimed, and if it is not
      in flight there is one firing on each, in order. If it is, nothing fires and they are lost. */
  lemma {:induction false} EventsAreFiredOn(
      o: Outside, running: set<nat>, l: Left, s: Schedule, events: seq<EventId>, now: Moment)
    requires forall k :: 0 <= k < |events| ==> l.store.IsFree(events[k])
    requires forall j, k :: 0 <= j < k < |events| ==> events[j] < events[k]
    ensures var after := AfterEvents(o, running, l, s, events, now);
            && AllClaimed(l.store.events, events, after.store.events)
            && after.firings == l.firings + if s.id in running then [] else EventFirings(s, events, now)
  {
    hide AfterFiring, EventFirings;
    if events == [] {
      NoEvents(s, now);
      assert l.firings + [] == l.firings;
    } else {
      var m := |events| - 1;
      var rest, e := events[..m], events[m];
      EventsAreFiredOn(o, running, l, s, rest, now);
      var before := AfterEvents(o, running, l, s, rest, now);
      assert events == rest + [e] && e !in rest && before.store.IsFree(e);
      OneEventMore(o, running, before.(store := before.store.Consume(e)), s, e, now);
      OneEventFiring(s, rest, e, now);
      Regroup(l.firings, EventFirings(s, rest, now), [Firing(s.id, Some(e), now)]);
    }
  }

  lemma OneEventMore(o: Outside, running: set<nat>, l: Left, s: Schedule, e: EventId, now: Moment)
    ensures var after := AfterFiring(o, running, l, s, Some(e), now);
            && l.store.events <= after.store.events
            && after.firings == l.firings + if s.id in running then [] else [Firing(s.id, Some(e), now)]
  {
    assert l.firings + [] == l.firings;
  }

  lemma NoEvents(s: Schedule, now: Moment)
    ensures EventFirings(s, [], now) == []
  {
  }

  lemma OneEventFiring(s: Schedule, events: seq<EventId>, e: EventId, now: Moment)
    ensures EventFirings(s, events + [e], now) == EventFirings(s, events, now) + [Firing(s.id, Some(e), now)]
  {
  }

  /** Every one of those firings starts from the schedule as it was listed, so the count of runs moves on by one if any
      was saved, however many there were. */
  lemma {:induction false} RunsMoveOnByOne(
      o: Outside, running: set<nat>, l: Left, s: Schedule, events: seq<EventId>, now: Moment)
    requires RowOf(l.store.schedules, s.id) == Some(s)
    ensures var after := AfterEvents(o, running, l, s, events, now); var row := RowOf(after.store.schedules, s.id);
            var saved, all := SavedMoments(o, l.firings, s.id), SavedMoments(o, after.firings, s.id);
            && |saved| <= |all| && row.Some?
            && AsideFromObjective(row.value) == AsideFromObjective(if |all| > |saved| then Fired(s, now, None) else s)
            && (row.value.runs - s.runs == |all| - |saved| <==> |all| - |saved| <= 1)
  {
    hide AfterFiring, RowOf, SavedMoments, Fired;
    RunsAre(s, now);
    if events == [] {
    } else {
      var m := |events| - 1;
      RunsMoveOnByOne(o, running, l, s, events[..m], now);
      var before := AfterEvents(o, running, l, s, events[..m], now);
      if before.store.IsFree(events[m]) {
        var claimed := before.(store := before.store.Consume(events[m]));
        FiringOfThis(o, running, claimed, s, Some(events[m]), now);
        var row := RowOf(AfterEvents(o, running, l, s, events, now).store.schedules, s.id).value;
        RunsAreAside(row, Fired(s, now, None));
        RunsAreAside(row, s);
      }
    }
  }

  lemma RunsAre(s: Schedule, now: Moment)
    ensures Fired(s, now, None).runs == s.runs + 1
  {
  }

  lemma RunsAreAside(a: Schedule, b: Schedule)
    ensures AsideFromObjective(a) == AsideFromObjective(b) ==> a.runs == b.runs
  {
    assert AsideFromObjective(a).runs == a.runs && AsideFromObjective(b).runs == b.runs;
  }

  // ----- Due lists and recurrences -----

  /** The due list is what `is_due` says of every row if and only if no row without a recurrence has reached a due time:
      the store does not ask for one. */
  lemma DueListIsDueIff(schedules: seq<Schedule>, now: Moment)
    ensures (forall s :: s in schedules ==> (s in DueAmong(schedules, now) <==> IsDue(s, now))) <==>
            (forall s :: s in schedules && s.recurrence.None? ==> !Overdue(s, now))
  {
    hide DueAmong;
  }

  /** An event schedule created with a due time. */
  function Clocked(id: nat, onEvent: string, first: Moment): Schedule {
    Schedule(id, "look", None, onEvent, true, Some(first), None, None, 0, first)
  }

  /** `create` lets such a row through, and the first tick after its due time fires it, by the clock and without an
      event, although it is never due; once that firing is saved it is in no due list again. */
  lemma AnEventScheduleFiresByTheClock(o: Outside, id: nat, onEvent: string, first: Moment, now: Moment)
    requires onEvent != "" && onEvent != OBJECTIVE_FINISHED && first <= now
    ensures var s := Clocked(id, onEvent, first); var after := AfterTick(o, {}, Left(Store([s], []), []), now);
            && Create(id, "look", None, onEvent, Some(first), first) == Ok(s)
            && (forall later :: !IsDue(s, later))
            && after.firings == [Firing(id, None, now)]
            && (forall objective, later :: !Overdue(Fired(s, now, objective), later))
  {
    hide Strip, AfterListed;
    var s, l := Clocked(id, onEvent, first), Left(Store([Clocked(id, onEvent, first)], []), []);
    assert DueAmong([s], now) == [s] by { assert [s][1..] == [] && DueAmong([], now) == []; }
    var fired := AfterDue(o, {}, l, [s], now);
    assert [s][..0] == [] && l.firings == [];
    assert AfterDue(o, {}, l, [], now) == l;
    assert fired == AfterFiring(o, {}, l, s, None, now);
    assert |fired.store.events| <= 1;
    assert fired.firings == [Firing(id, None, now)];
    AskedIsStripped();
    NothingPends(o, fired, onEvent, now);
  }

  lemma AskedIsStripped()
    ensures Strip("look") == "look"
  {
    var lead := StripSplits("look");
  }

  /** Without a pending event of any kind that is waited for, working off the listed schedules begins nothing. */
  lemma NothingPends(o: Outside, l: Left, onEvent: string, now: Moment)
    requires |l.store.schedules| == 1 && l.store.schedules[0].onEvent == onEvent
    requires forall k :: 0 <= k < |l.store.events| ==> l.store.events[k].kind != onEvent
    ensures AfterListed(o, {}, l, l.store.schedules, now) == l
  {
    var listed := l.store.schedules;
    assert listed[..0] == [];
    NonePending(l.store.events, onEvent, 0, PENDING_LIMIT);
  }

  lemma {:induction false} NonePending(events: seq<Event>, kind: string, from: nat, limit: nat)
    requires from <= |events| && forall k :: 0 <= k < |events| ==> events[k].kind != kind
    ensures PendingFrom(events, kind, from, limit) == []
    decreases |events| - from
  {
    if from == |events| || limit == 0 {
    } else {
      NonePending(events, kind, from + 1, limit);
    }
  }

  // ----- The oldest events first -----

  lemma {:induction false} PendingFromIsOldest(events: seq<Event>, kind: string, from: nat, limit: nat, id: EventId)
    requires from <= id && IsPending(events, kind, id) && id !in PendingFrom(events, kind, from, limit)
    ensures var ids := PendingFrom(events, kind, from, limit);
            |ids| == limit && forall other :: other in ids ==> other < id
    decreases |events| - from
  {
    if limit == 0 {
    } else if IsPending(events, kind, from) {
      var rest := PendingFrom(events, kind, from + 1, limit - 1);
      assert PendingFrom(events, kind, from, limit) == [from] + rest;
      PendingFromIsOldest(events, kind, from + 1, limit - 1, id);
    } else {
      PendingFromIsOldest(events, kind, from + 1, limit, id);
    }
  }

  /** A tick takes the events that wait, the oldest first: one is left for later only when twenty older ones are taken. */
  lemma OldestEventsFirst(events: seq<Event>, kind: string, id: EventId)
    requires id < |events| && events[id].kind == kind && !events[id].consumed && id !in Pending(events, kind)
    ensures |Pending(events, kind)| == 20 && forall other :: other in Pending(events, kind) ==> other < id
  {
    PendingFromIsOldest(events, kind, 0, PENDING_LIMIT, id);
  }

  // ----- The line about a firing -----

  /** How many firings from `from` on could have their line written. */
  function LinesFor(o: Outside, from: nat, to: nat): nat
    requires from <= to
  {
    if from == to then 0 else LinesFor(o, from, to - 1) + if o.recorded(to - 1) then 1 else 0
  }

  /** Since then there is one event more for every firing whose line could be written, each of them waiting for whoever
      wants to know that an objective is finished. */
  ghost predicate LinesWritten(o: Outside, l: Left, after: Left) {
    && |l.firings| <= |after.firings|
    && |after.store.events| == |l.store.events| + LinesFor(o, |l.firings|, |after.firings|)
    && forall id: nat :: |l.store.events| <= id < |after.store.events| ==>
         after.store.events[id].kind == "objective.finished"
  }

  /** Events only gain: none is taken out, and none changes its kind. */
  ghost predicate EventsStay(l: Left, after: Left) {
    && |l.store.events| <= |after.store.events|
    && forall id: nat :: id < |l.store.events| ==> after.store.events[id].kind == l.store.events[id].kind
  }

  lemma {:induction false} LinesForBoth(o: Outside, a: nat, b: nat, c: nat)
    requires a <= b <= c
    ensures LinesFor(o, a, c) == LinesFor(o, a, b) + LinesFor(o, b, c)
  {
    if b < c {
      LinesForBoth(o, a, b, c - 1);
    }
  }

  lemma LinesThen(o: Outside, a: Left, b: Left, c: Left)
    requires LinesWritten(o, a, b) && EventsStay(a, b) && LinesWritten(o, b, c) && EventsStay(b, c)
    ensures LinesWritten(o, a, c) && EventsStay(a, c)
  {
    LinesForBoth(o, |a.firings|, |b.firings|, |c.firings|);
  }

  lemma FiringWritesALine(o: Outside, running: set<nat>, l: Left, s: Schedule, event: Option<EventId>, now: Moment)
    ensures var after := AfterFiring(o, running, l, s, event, now); LinesWritten(o, l, after) && EventsStay(l, after)
  {
    hide Overwritten, Fired;
    var n := |l.firings|;
    assert LinesFor(o, n, n) == 0 && LinesFor(o, n, n + 1) == if o.recorded(n) then 1 else 0;
  }

  lemma NothingWritten(o: Outside, l: Left)
    ensures LinesWritten(o, l, l) && EventsStay(l, l)
  {
  }

  lemma {:induction false} DueWritesLines(o: Outside, running: set<nat>, l: Left, due: seq<Schedule>, now: Moment)
    ensures var after := AfterDue(o, running, l, due, now); LinesWritten(o, l, after) && EventsStay(l, after)
  {
    hide AfterFiring, LinesWritten, EventsStay;
    if due == [] {
      NothingWritten(o, l);
    } else {
      var n := |due| - 1;
      var before := AfterDue(o, running, l, due[..n], now);
      DueWritesLines(o, running, l, due[..n], now);
      FiringWritesALine(o, running, before, due[n], None, now);
      LinesThen(o, l, before, AfterDue(o, running, l, due, now));
    }
  }

  lemma ConsumingWritesNothing(o: Outside, l: Left, id: EventId)
    requires id < |l.store.events|
    ensures var after := l.(store := l.store.Consume(id)); LinesWritten(o, l, after) && EventsStay(l, after)
  {
  }

  lemma {:induction false} EventsWriteLines(
      o: Outside, running: set<nat>, l: Left, s: Schedule, events: seq<EventId>, now: Moment)
    ensures var after := AfterEvents(o, running, l, s, events, now); LinesWritten(o, l, after) && EventsStay(l, after)
  {
    hide AfterFiring, LinesWritten, EventsStay;
    if events == [] {
      NothingWritten(o, l);
    } else {
      var n := |events| - 1;
      var before, after := AfterEvents(o, running, l, s, events[..n], now), AfterEvents(o, running, l, s, events, now);
      EventsWriteLines(o, running, l, s, events[..n], now);
      if before.store.IsFree(events[n]) {
        var claimed := before.(store := before.store.Consume(events[n]));
        ConsumingWritesNothing(o, before, events[n]);
        LinesThen(o, l, before, claimed);
        FiringWritesALine(o, running, claimed, s, Some(events[n]), now);
        LinesThen(o, l, claimed, after);
      }
    }
  }

  lemma {:induction false} ListedWriteLines(o: Outside, running: set<nat>, l: Left, listed: seq<Schedule>, now: Moment)
    ensures var after := AfterListed(o, running, l, listed, now); LinesWritten(o, l, after) && EventsStay(l, after)
  {
    hide AfterEvents, LinesWritten, EventsStay, Pending;
    if listed == [] {
      NothingWritten(o, l);
    } else {
      var n := |listed| - 1;
      var before := AfterListed(o, running, l, listed[..n], now);
      ListedWriteLines(o, running, l, listed[..n], now);
      if listed[n].enabled && listed[n].onEvent != "" {
        EventsWriteLines(o, running, before, listed[n], Pending(before.store.events, listed[n].onEvent), now);
        LinesThen(o, l, before, AfterListed(o, running, l, listed, now));
      }
    }
  }

  /** A tick writes one line for every firing, whatever became of it, unless the line itself could not be written. */
  lemma EveryFiringHasItsLine(o: Outside, running: set<nat>, l: Left, now: Moment)
    ensures LinesWritten(o, l, AfterTick(o, running, l, now)) && EventsStay(l, AfterTick(o, running, l, now))
  {
    hide AfterDue, AfterListed, LinesWritten, EventsStay;
    var fired := AfterDue(o, running, l, DueAmong(l.store.schedules, now), now);
    DueWritesLines(o, running, l, DueAmong(l.store.schedules, now), now);
    ListedWriteLines(o, running, fired, fired.store.schedules, now);
    LinesThen(o, l, fired, AfterTick(o, running, l, now));
  }
}
