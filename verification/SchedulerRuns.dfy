/**
 * What every interleaving of ticks keeps, and what it does not (application/scheduling/scheduler.py): one objective in
 * flight per schedule, one firing per event; which claims are lost, and which firings come early.
 */
module SchedulerRuns {
  import opened Wrappers
  import opened Schedules
  import opened Scheduler

  /** A process that has just started: no tick under way, nothing in flight. */
  ghost predicate AtRest(sys: System) {
    sys.running == {} && sys.firings == [] && forall f :: 0 <= f < |sys.flows| ==> sys.flows[f] == Resting
  }

  /** The schedule a flow has in flight, if it has one. */
  function InFlight(f: Flow): Option<nat> {
    if AtWork(f) then Some(f.schedule.id) else None
  }

  ghost predicate RunningIsInFlight(sys: System) {
    forall id :: id in sys.running <==> exists f :: 0 <= f < |sys.flows| && InFlight(sys.flows[f]) == Some(id)
  }

  ghost predicate OneInFlight(sys: System) {
    forall f, g :: 0 <= f < g < |sys.flows| && InFlight(sys.flows[f]).Some? ==>
      InFlight(sys.flows[f]) != InFlight(sys.flows[g])
  }

  /** A claimed event is consumed, claimed by one tick only, and has not been fired on. */
  ghost predicate ClaimsAreGood(sys: System) {
    && (forall f :: 0 <= f < |sys.flows| && sys.flows[f].Claimed? ==>
          var e := sys.flows[f].event;
          && e < |sys.store.events| && sys.store.events[e].consumed
          && forall k :: 0 <= k < |sys.firings| ==> sys.firings[k].event != Some(e))
    && (forall f, g :: 0 <= f < g < |sys.flows| && sys.flows[f].Claimed? && sys.flows[g].Claimed? ==>
          sys.flows[f].event != sys.flows[g].event)
  }

  /** Each firing on an event is on a consumed one, and no two are on the same. */
  ghost predicate EventsFireOnce(sys: System) {
    && (forall k :: 0 <= k < |sys.firings| && sys.firings[k].event.Some? ==>
          var e := sys.firings[k].event.value; e < |sys.store.events| && sys.store.events[e].consumed)
    && (forall j, k :: 0 <= j < k < |sys.firings| && sys.firings[j].event.Some? ==>
          sys.firings[j].event != sys.firings[k].event)
  }

  /** What a tick comes back to after its firing is neither another firing nor a claim. */
  ghost predicate BackIsQuiet(sys: System) {
    forall f :: 0 <= f < |sys.flows| && AtWork(sys.flows[f]) ==> Quiet(sys.flows[f].back)
  }

  predicate Quiet(f: Flow) {
    !AtWork(f) && !f.Claimed?
  }

  ghost predicate Sound(sys: System) {
    RunningIsInFlight(sys) && OneInFlight(sys) && ClaimsAreGood(sys) && EventsFireOnce(sys) && BackIsQuiet(sys)
  }

  // ----- What every step keeps -----

  lemma SameInFlight(sys: System, after: System, f: nat)
    requires f < |sys.flows| == |after.flows| && after.flows == sys.flows[f := after.flows[f]]
    requires InFlight(sys.flows[f]) == InFlight(after.flows[f]) && after.running == sys.running
    requires RunningIsInFlight(sys) && OneInFlight(sys)
    ensures RunningIsInFlight(after) && OneInFlight(after)
  {
    assert forall g :: 0 <= g < |sys.flows| ==> InFlight(after.flows[g]) == InFlight(sys.flows[g]);
  }

  /** A step that keeps what its flow has in flight, claims nothing, begins nothing, and at most adds events. */
  lemma PlainStep(sys: System, f: nat, store: Store, next: Flow)
    requires Sound(sys) && f < |sys.flows| && InFlight(next) == InFlight(sys.flows[f]) && !next.Claimed?
    requires AtWork(next) ==> Quiet(next.back)
    requires sys.store.events <= store.events
    ensures Sound(sys.(store := store, flows := sys.flows[f := next]))
  {
    hide AtWork, InFlight, Quiet;
    var after := sys.(store := store, flows := sys.flows[f := next]);
    assert forall g :: 0 <= g < |sys.flows| && g != f ==> after.flows[g] == sys.flows[g];
    SameInFlight(sys, after, f);
  }

  lemma EnterKeepsSound(sys: System, f: nat, s: Schedule, event: Option<EventId>, now: Moment, back: Flow)
    requires Sound(sys) && f < |sys.flows| && !AtWork(sys.flows[f]) && Quiet(back)
    requires if event.Some? then sys.flows[f].Claimed? && event.value == sys.flows[f].event else !sys.flows[f].Claimed?
    ensures Sound(Enter(sys, f, s, event, now, back))
  {
    var after := Enter(sys, f, s, event, now, back);
    assert forall g :: 0 <= g < |sys.flows| && g != f ==> after.flows[g] == sys.flows[g];
    if s.id in sys.running {
      PlainStep(sys, f, sys.store, back);
    } else {
      NowInFlight(sys, after, f, s.id);
      hide RunningIsInFlight, OneInFlight, InFlight;
    }
  }

  lemma NowInFlight(sys: System, after: System, f: nat, id: nat)
    requires RunningIsInFlight(sys) && OneInFlight(sys) && id !in sys.running && f < |sys.flows|
    requires |after.flows| == |sys.flows| && after.running == sys.running + {id}
    requires InFlight(sys.flows[f]).None? && InFlight(after.flows[f]) == Some(id)
    requires forall g :: 0 <= g < |sys.flows| && g != f ==> after.flows[g] == sys.flows[g]
    ensures RunningIsInFlight(after) && OneInFlight(after)
  {
    hide InFlight;
    forall x ensures x in after.running <==> exists g :: 0 <= g < |after.flows| && InFlight(after.flows[g]) == Some(x) {
      if x in sys.running {
        var g :| 0 <= g < |sys.flows| && InFlight(sys.flows[g]) == Some(x);
        assert InFlight(after.flows[g]) == Some(x);
      }
      if g :| 0 <= g < |after.flows| && InFlight(after.flows[g]) == Some(x) && g != f {
        assert InFlight(sys.flows[g]) == Some(x);
      }
    }
    forall g | 0 <= g < |after.flows| && g != f ensures InFlight(after.flows[g]) != Some(id) {
      assert InFlight(after.flows[g]) == InFlight(sys.flows[g]);
    }
  }

  lemma NoLongerInFlight(sys: System, after: System, f: nat, id: nat)
    requires RunningIsInFlight(sys) && OneInFlight(sys) && f < |sys.flows|
    requires |after.flows| == |sys.flows| && after.running == sys.running - {id}
    requires InFlight(sys.flows[f]) == Some(id) && InFlight(after.flows[f]).None?
    requires forall g :: 0 <= g < |sys.flows| && g != f ==> after.flows[g] == sys.flows[g]
    ensures RunningIsInFlight(after) && OneInFlight(after)
  {
    hide InFlight;
    forall x ensures x in after.running <==> exists g :: 0 <= g < |after.flows| && InFlight(after.flows[g]) == Some(x) {
      if x in after.running {
        var g :| 0 <= g < |sys.flows| && InFlight(sys.flows[g]) == Some(x);
        assert InFlight(after.flows[g]) == Some(x);
      }
      if g :| 0 <= g < |after.flows| && InFlight(after.flows[g]) == Some(x) {
        assert g != f && InFlight(sys.flows[g]) == Some(x);
      }
    }
  }

  lemma LeaveKeepsSound(sys: System, f: nat, back: Flow)
    requires Sound(sys) && f < |sys.flows| && AtWork(sys.flows[f]) && Quiet(back)
    ensures Sound(sys.(running := sys.running - {sys.flows[f].schedule.id}, flows := sys.flows[f := back]))
  {
    var after := sys.(running := sys.running - {sys.flows[f].schedule.id}, flows := sys.flows[f := back]);
    assert forall g :: 0 <= g < |sys.flows| && g != f ==> after.flows[g] == sys.flows[g];
    NoLongerInFlight(sys, after, f, sys.flows[f].schedule.id);
    hide RunningIsInFlight, OneInFlight, InFlight;
  }

  lemma ClaimKeepsSound(sys: System, f: nat, e: EventId, next: Flow)
    requires Sound(sys) && f < |sys.flows| && !AtWork(sys.flows[f]) && next.Claimed? && next.event == e
    requires sys.store.IsFree(e)
    ensures Sound(sys.(store := sys.store.Consume(e), flows := sys.flows[f := next]))
  {
    var after := sys.(store := sys.store.Consume(e), flows := sys.flows[f := next]);
    assert forall g :: 0 <= g < |sys.flows| && g != f ==> after.flows[g] == sys.flows[g];
    SameInFlight(sys, after, f);
    hide RunningIsInFlight, OneInFlight, InFlight;
  }

  /** Every step of every tick keeps it: at most one objective in flight per schedule, and at most one firing per event. */
  lemma NextKeepsSound(sys: System, f: nat, c: Choice)
    requires Sound(sys) && f < |sys.flows|
    ensures Sound(Next(sys, f, c)) && |Next(sys, f, c).flows| == |sys.flows|
    ensures sys.firings <= Next(sys, f, c).firings
  {
    hide Sound, Pending, DueAmong, Overwritten;
    assert AtWork(sys.flows[f]) ==> Quiet(sys.flows[f].back) by { SoundParts(sys); }
    match sys.flows[f]
    case Resting => PlainStep(sys, f, sys.store, FiringDue(c.now, DueAmong(sys.store.schedules, c.now)));
    case FiringDue(now, due) =>
      if due == [] {
        PlainStep(sys, f, sys.store, Listing(now, sys.store.schedules));
      } else {
        EnterKeepsSound(sys, f, due[0], None, now, FiringDue(now, due[1..]));
      }
    case Listing(now, listed) =>
      if listed == [] {
        PlainStep(sys, f, sys.store, Resting);
      } else if !listed[0].enabled || listed[0].onEvent == "" {
        PlainStep(sys, f, sys.store, Listing(now, listed[1..]));
      } else {
        PlainStep(sys, f, sys.store, Claiming(now, listed[0], Pending(sys.store.events, listed[0].onEvent), listed[1..]));
      }
    case Claiming(now, s, events, listed) =>
      if events == [] {
        PlainStep(sys, f, sys.store, Listing(now, listed));
      } else if sys.store.IsFree(events[0]) {
        ClaimKeepsSound(sys, f, events[0], Claimed(now, s, events[0], events[1..], listed));
      } else {
        PlainStep(sys, f, sys.store, Claiming(now, s, events[1..], listed));
      }
    case Claimed(now, s, event, events, listed) =>
      EnterKeepsSound(sys, f, s, Some(event), now, Claiming(now, s, events, listed));
    case Receiving(firing, s, back) =>
      PlainStep(sys, f, sys.store, if c.ok then Saving(firing, s, c.objective, back) else Recording(firing, s, back));
    case Saving(firing, s, objective, back) =>
      if c.ok {
        PlainStep(sys, f, sys.store.Save(Fired(s, firing.now, Some(objective))), Handling(firing, s, back));
      } else {
        PlainStep(sys, f, sys.store, Recording(firing, s, back));
      }
    case Handling(firing, s, back) => PlainStep(sys, f, sys.store, Recording(firing, s, back));
    case Recording(firing, s, back) =>
      PlainStep(sys, f, if c.ok then sys.store.Record(OBJECTIVE_FINISHED) else sys.store, Leaving(firing, s, back));
    case Leaving(_, s, back) => LeaveKeepsSound(sys, f, back);
  }

  lemma SoundParts(sys: System)
    requires Sound(sys)
    ensures BackIsQuiet(sys)
  {
  }

  lemma RestIsSound(sys: System)
    requires AtRest(sys)
    ensures Sound(sys)
  {
  }

  lemma {:induction false} RunsStaySound(sys: System, steps: seq<(nat, Choice)>, end: System)
    requires Sound(sys) && IsRun(sys, steps, end)
    ensures Sound(end)
    decreases |steps|
  {
    hide Sound, Next;
    if steps == [] {
    } else {
      NextKeepsSound(sys, steps[0].0, steps[0].1);
      RunsStaySound(Next(sys, steps[0].0, steps[0].1), steps[1..], end);
    }
  }

  /** However the ticks of a process interleave: two of them never work on one schedule at once, a schedule is in the
      in-flight set exactly while one of them does, and no event starts more than one firing, of any schedule. */
  lemma OverlappingTicksAreSafe(sys: System, steps: seq<(nat, Choice)>, end: System)
    requires AtRest(sys) && IsRun(sys, steps, end)
    ensures OneInFlight(end) && RunningIsInFlight(end) && EventsFireOnce(end)
  {
    hide IsRun, Next;
    RestIsSound(sys);
    RunsStaySound(sys, steps, end);
  }

  /** Whatever fails on the way, each step of a firing brings it closer to its end, and the last one takes exactly its
      schedule out of the in-flight set. */
  lemma EveryFiringIsLeft(sys: System, f: nat, c: Choice)
    requires f < |sys.flows| && AtWork(sys.flows[f])
    ensures var before, after := sys.flows[f], Next(sys, f, c);
            if StepsOfWork(before) == 1 then
              after.running == sys.running - {before.schedule.id} && after.flows[f] == before.back
            else
              && after.running == sys.running && 0 < StepsOfWork(after.flows[f]) < StepsOfWork(before)
              && after.flows[f].schedule == before.schedule && after.flows[f].back == before.back
  {
    hide Overwritten, Pending, DueAmong;
  }

  // ----- Claims that are lost -----

  /** An event that nobody will ever fire on: taken, in nobody's hands, and not fired on. */
  ghost predicate Spent(sys: System, e: EventId) {
    && e < |sys.store.events| && sys.store.events[e].consumed
    && (forall f :: 0 <= f < |sys.flows| ==> !(sys.flows[f].Claimed? && sys.flows[f].event == e))
    && (forall k :: 0 <= k < |sys.firings| ==> sys.firings[k].event != Some(e))
  }

  lemma NextKeepsSpent(sys: System, f: nat, c: Choice, e: EventId)
    requires Sound(sys) && Spent(sys, e) && f < |sys.flows|
    ensures Spent(Next(sys, f, c), e)
  {
    hide Overwritten, Pending, DueAmong, RunningIsInFlight, OneInFlight, ClaimsAreGood, EventsFireOnce;
    var after := Next(sys, f, c);
    assert forall g :: 0 <= g < |sys.flows| && g != f ==> after.flows[g] == sys.flows[g];
    assert !(sys.flows[f].Claimed? && sys.flows[f].event == e);
  }

  /** A spent event stays spent. */
  lemma {:induction false} SpentForGood(sys: System, steps: seq<(nat, Choice)>, end: System, e: EventId)
    requires Sound(sys) && Spent(sys, e) && IsRun(sys, steps, end)
    ensures Spent(end, e)
    decreases |steps|
  {
    hide Sound, Next, Spent;
    if steps == [] {
    } else {
      NextKeepsSound(sys, steps[0].0, steps[0].1);
      NextKeepsSpent(sys, steps[0].0, steps[0].1, e);
      SpentForGood(Next(sys, steps[0].0, steps[0].1), steps[1..], end, e);
    }
  }

  /** A claim leads to nothing if and only if the schedule it was made for is in flight at that moment: then the event is
      spent, and otherwise the step begins its one firing. */
  lemma ClaimIsLostIffInFlight(sys: System, f: nat, c: Choice)
    requires Sound(sys) && f < |sys.flows| && sys.flows[f].Claimed?
    ensures var here, after := sys.flows[f], Next(sys, f, c);
            && (Spent(after, here.event) <==> here.schedule.id in sys.running)
            && (here.schedule.id !in sys.running ==>
                  after.firings == sys.firings + [Firing(here.schedule.id, Some(here.event), here.now)])
  {
    hide RunningIsInFlight, OneInFlight, EventsFireOnce, BackIsQuiet;
    var e, after := sys.flows[f].event, Next(sys, f, c);
    forall g | 0 <= g < |sys.flows| && g != f ensures !(after.flows[g].Claimed? && after.flows[g].event == e) {
      assert after.flows[g] == sys.flows[g];
      assert !(sys.flows[g].Claimed? && sys.flows[g].event == e);
    }
    if sys.flows[f].schedule.id !in sys.running {
      assert after.firings[|sys.firings|].event == Some(e);
    }
  }

  /** And a lost claim is lost for good: the event stays consumed, and however the ticks go on no firing ever comes of
      it. */
  lemma ClaimsCanBeLost(sys: System, f: nat, c: Choice, steps: seq<(nat, Choice)>, end: System)
    requires Sound(sys) && f < |sys.flows| && sys.flows[f].Claimed? && sys.flows[f].schedule.id in sys.running
    requires IsRun(Next(sys, f, c), steps, end)
    ensures Spent(end, sys.flows[f].event)
  {
    hide IsRun, Sound, Next, Spent;
    ClaimIsLostIffInFlight(sys, f, c);
    NextKeepsSound(sys, f, c);
    SpentForGood(Next(sys, f, c), steps, end, sys.flows[f].event);
  }

  const ON_MAIL := Schedule(8, "read it", None, "mail", true, None, None, None, 0, 0)

  /** Two mails, of which these are consumed, and two ticks. */
  function Mails(first: bool, second: bool, running: set<nat>, f: Flow, g: Flow, firings: seq<Firing>): System {
    System(Store([ON_MAIL], [Event("mail", first), Event("mail", second)]), running, [f, g], firings)
  }

  lemma OneFlowMoves(
      first: bool, second: bool, running: set<nat>, f: Flow, g: Flow, firings: seq<Firing>, x: Flow)
    ensures var s := Mails(first, second, running, f, g, firings);
            && s.(flows := s.flows[0 := x]) == Mails(first, second, running, x, g, firings)
            && s.(flows := s.flows[1 := x]) == Mails(first, second, running, f, x, firings)
    ensures var s := Mails(false, second, running, f, g, firings);
            s.store.Consume(0) == Mails(true, second, running, f, g, firings).store
    ensures var s := Mails(first, false, running, f, g, firings);
            s.store.Consume(1) == Mails(first, true, running, f, g, firings).store
  {
    assert [f, g][0 := x] == [x, g] && [f, g][1 := x] == [f, x];
    assert [Event("mail", false), Event("mail", second)][0 := Event("mail", true)] ==
           [Event("mail", true), Event("mail", second)];
    assert [Event("mail", first), Event("mail", false)][1 := Event("mail", true)] ==
           [Event("mail", first), Event("mail", true)];
  }

  const TWO_MAILS := Mails(false, false, {}, Resting, Resting, [])

  const YES := Choice(0, true, 1)

  const FIRST_MAIL := Firing(8, Some(0), 0)

  const AT_WORK := Receiving(FIRST_MAIL, ON_MAIL, Claiming(0, ON_MAIL, [1], []))

  /** One of two ticks reads the due list, which is empty, and the schedules. */
  lemma ReadsTheSchedule(s: System, f: nat)
    requires s.store.schedules == [ON_MAIL] && |s.flows| == 2 && f < 2 && s.flows[f] == Resting
    ensures var s1 := Next(s, f, YES); s1 == s.(flows := s.flows[f := FiringDue(0, [])])
    ensures var s1 := Next(s, f, YES); Next(s1, f, YES) == s.(flows := s.flows[f := Listing(0, [ON_MAIL])])
  {
    assert DueAmong([], 0) == [] && DueAmong([ON_MAIL], 0) == [];
    assert s.flows[f := FiringDue(0, [])][f := Listing(0, [ON_MAIL])] == s.flows[f := Listing(0, [ON_MAIL])];
  }

  lemma FirstTick(steps: seq<(nat, Choice)>)
    requires steps == [(0, YES), (0, YES), (0, YES), (0, YES), (0, YES)]
    ensures IsRun(TWO_MAILS, steps, Mails(true, false, {8}, AT_WORK, Resting, [FIRST_MAIL]))
  {
    hide IsRun;
    ReadsTheSchedule(TWO_MAILS, 0);
    MailsPending();
    var s1 := Mails(false, false, {}, FiringDue(0, []), Resting, []);
    var s2 := Mails(false, false, {}, Listing(0, [ON_MAIL]), Resting, []);
    var s3 := Mails(false, false, {}, Claiming(0, ON_MAIL, [0, 1], []), Resting, []);
    var s4 := Mails(true, false, {}, Claimed(0, ON_MAIL, 0, [1], []), Resting, []);
    OneFlowMoves(false, false, {}, Resting, Resting, [], FiringDue(0, []));
    OneFlowMoves(false, false, {}, Resting, Resting, [], Listing(0, [ON_MAIL]));
    OneFlowMoves(false, false, {}, Listing(0, [ON_MAIL]), Resting, [], Claiming(0, ON_MAIL, [0, 1], []));
    OneFlowMoves(false, false, {}, Claiming(0, ON_MAIL, [0, 1], []), Resting, [], Claimed(0, ON_MAIL, 0, [1], []));
    OneFlowMoves(true, false, {}, Claimed(0, ON_MAIL, 0, [1], []), Resting, [], AT_WORK);
    assert [ON_MAIL][1..] == [] && [0, 1][1..] == [1];
    assert Next(s2, 0, YES) == s3;
    assert Next(s3, 0, YES) == s4;
    assert Next(s4, 0, YES) == Mails(true, false, {8}, AT_WORK, Resting, [FIRST_MAIL]);
    hide Next;
    NoSteps(TWO_MAILS);
    var t1 := [] + [(0, YES)];
    OneStepMore(TWO_MAILS, [], TWO_MAILS, 0, YES);
    var t2 := t1 + [(0, YES)];
    OneStepMore(TWO_MAILS, t1, s1, 0, YES);
    var t3 := t2 + [(0, YES)];
    OneStepMore(TWO_MAILS, t2, s2, 0, YES);
    var t4 := t3 + [(0, YES)];
    OneStepMore(TWO_MAILS, t3, s3, 0, YES);
    OneStepMore(TWO_MAILS, t4, s4, 0, YES);
    assert steps == t4 + [(0, YES)];
  }

  /** It happens from rest: two mails, two ticks; the first tick is at work on the first mail when the second tick claims
      the other, and that one is never fired on. */
  lemma AMailIsLost() returns (steps: seq<(nat, Choice)>, end: System)
    ensures AtRest(TWO_MAILS) && IsRun(TWO_MAILS, steps, end)
    ensures Spent(end, 1) && end.firings == [FIRST_MAIL] && end.flows == [AT_WORK, Claiming(0, ON_MAIL, [], [])]
  {
    hide IsRun;
    var t5 := [(0, YES), (0, YES), (0, YES), (0, YES), (0, YES)];
    FirstTick(t5);
    var s5 := Mails(true, false, {8}, AT_WORK, Resting, [FIRST_MAIL]);
    ReadsTheSchedule(s5, 1);
    MailsPending();
    var s6 := Mails(true, false, {8}, AT_WORK, FiringDue(0, []), [FIRST_MAIL]);
    var s7 := Mails(true, false, {8}, AT_WORK, Listing(0, [ON_MAIL]), [FIRST_MAIL]);
    var s8 := Mails(true, false, {8}, AT_WORK, Claiming(0, ON_MAIL, [1], []), [FIRST_MAIL]);
    var s9 := Mails(true, true, {8}, AT_WORK, Claimed(0, ON_MAIL, 1, [], []), [FIRST_MAIL]);
    end := Mails(true, true, {8}, AT_WORK, Claiming(0, ON_MAIL, [], []), [FIRST_MAIL]);
    OneFlowMoves(true, false, {8}, AT_WORK, Resting, [FIRST_MAIL], FiringDue(0, []));
    OneFlowMoves(true, false, {8}, AT_WORK, Resting, [FIRST_MAIL], Listing(0, [ON_MAIL]));
    OneFlowMoves(true, false, {8}, AT_WORK, Listing(0, [ON_MAIL]), [FIRST_MAIL], Claiming(0, ON_MAIL, [1], []));
    OneFlowMoves(true, false, {8}, AT_WORK, Claiming(0, ON_MAIL, [1], []), [FIRST_MAIL], Claimed(0, ON_MAIL, 1, [], []));
    OneFlowMoves(true, true, {8}, AT_WORK, Claimed(0, ON_MAIL, 1, [], []), [FIRST_MAIL], Claiming(0, ON_MAIL, [], []));
    assert [ON_MAIL][1..] == [] && [1][1..] == [];
    assert Next(s7, 1, YES) == s8;
    assert Next(s8, 1, YES) == s9;
    assert Next(s9, 1, YES) == end;
    hide Next;
    OneStepMore(TWO_MAILS, t5, s5, 1, YES);
    var t6 := t5 + [(1, YES)];
    OneStepMore(TWO_MAILS, t6, s6, 1, YES);
    var t7 := t6 + [(1, YES)];
    OneStepMore(TWO_MAILS, t7, s7, 1, YES);
    var t8 := t7 + [(1, YES)];
    OneStepMore(TWO_MAILS, t8, s8, 1, YES);
    var t9 := t8 + [(1, YES)];
    OneStepMore(TWO_MAILS, t9, s9, 1, YES);
    steps := t9 + [(1, YES)];
  }

  lemma MailsPending()
    ensures Pending([Event("mail", false), Event("mail", false)], "mail") == [0, 1]
    ensures Pending([Event("mail", true), Event("mail", false)], "mail") == [1]
  {
    var free, taken := [Event("mail", false), Event("mail", false)], [Event("mail", true), Event("mail", false)];
    assert PendingFrom(free, "mail", 2, 18) == [] && PendingFrom(free, "mail", 1, 19) == [1];
    assert PendingFrom(taken, "mail", 2, 19) == [] && PendingFrom(taken, "mail", 1, 20) == [1];
  }
}
