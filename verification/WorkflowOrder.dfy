/**
 * The order a workflow's declared steps run in (application/workflows/engine.py, `order_steps`).
 *
 * A step is known by its index in the declaration. `DependsOn` is the declared edge, a chain is a path along it,
 * and `Depth` is the length of the longest chain out of a step. `OrderSteps` reports a cycle exactly when there is
 * one, and otherwise returns the steps sorted by (depth, declaration index).
 */
module WorkflowOrder {
  import opened Wrappers

  datatype OnFailure = Stop | Continue

  datatype Step = Step(
    name: string,
    employee: string,
    instruction: string,
    dependsOn: seq<string>,
    maxAttempts: int,
    onFailure: OnFailure)

  /** What `order_steps` complains about, with the names it lists. */
  datatype OrderError =
    | DuplicateNames(names: set<string>)
    | UnknownDependency(step: string, missing: set<string>)
    | DependencyCycle(stuck: set<string>)

  // ----- The dependency graph -----

  ghost predicate UniqueNames(steps: seq<Step>) {
    forall i, j :: 0 <= i < j < |steps| ==> steps[i].name != steps[j].name
  }

  ghost predicate KnownNames(steps: seq<Step>) {
    forall i, d :: 0 <= i < |steps| && d in steps[i].dependsOn ==> d in Names(steps)
  }

  ghost predicate WellFormed(steps: seq<Step>) {
    UniqueNames(steps) && KnownNames(steps)
  }

  function Names(steps: seq<Step>): set<string> {
    set i | 0 <= i < |steps| :: steps[i].name
  }

  predicate DependsOn(steps: seq<Step>, i: int, j: int) {
    0 <= i < |steps| && 0 <= j < |steps| && steps[j].name in steps[i].dependsOn
  }

  /** A chain visits steps each of which depends on the next. */
  ghost predicate IsChain(steps: seq<Step>, p: seq<int>) {
    && |p| > 0
    && (forall k :: 0 <= k < |p| ==> 0 <= p[k] < |steps|)
    && (forall k :: 0 <= k < |p| - 1 ==> DependsOn(steps, p[k], p[k + 1]))
  }

  ghost predicate ChainFrom(steps: seq<Step>, i: int, p: seq<int>) {
    IsChain(steps, p) && p[0] == i
  }

  /** A closed chain; a step that depends on itself is one of length two. */
  ghost predicate IsCycle(steps: seq<Step>, p: seq<int>) {
    |p| >= 2 && IsChain(steps, p) && p[0] == p[|p| - 1]
  }

  ghost predicate HasCycle(steps: seq<Step>) {
    exists p :: IsCycle(steps, p)
  }

  /** The step sits on a cycle or downstream of one: some chain out of it enters a cycle. */
  ghost predicate ReachesCycle(steps: seq<Step>, i: int) {
    exists p, c :: ChainFrom(steps, i, p) && IsCycle(steps, c) && p[|p| - 1] == c[0]
  }

  /** `d` edges is the most any chain out of step `i` has. */
  ghost predicate IsDepth(steps: seq<Step>, i: int, d: nat) {
    && (exists p :: ChainFrom(steps, i, p) && |p| == d + 1)
    && (forall p :: ChainFrom(steps, i, p) ==> |p| <= d + 1)
  }

  // ----- Chains -----

  /** A chain with a repeated step contains a cycle, and its first step reaches it. */
  lemma RepeatMakesCycle(steps: seq<Step>, p: seq<int>, a: int, b: int)
    requires IsChain(steps, p) && 0 <= a < b < |p| && p[a] == p[b]
    ensures IsCycle(steps, p[a..b + 1]) && ReachesCycle(steps, p[0])
  {
    var c := p[a..b + 1];
    assert IsChain(steps, c) && c[0] == p[a] && c[|c| - 1] == p[b];
    assert ChainFrom(steps, p[0], p[..a + 1]);
    assert p[..a + 1][a] == c[0];
  }

  /** The pigeonhole principle for indices: more entries than values means a repeat. */
  lemma {:induction false} Pigeonhole(p: seq<int>, n: nat)
    requires |p| > n && forall k :: 0 <= k < |p| ==> 0 <= p[k] < n
    ensures exists a, b :: 0 <= a < b < |p| && p[a] == p[b]
    decreases n
  {
    var last := |p| - 1;
    assert 0 <= p[last] < n;
    if k :| 0 <= k < last && p[k] == p[last] {
    } else {
      // Rename the value n-1 to the last entry's value, which no other entry has.
      var q := seq(last, k requires 0 <= k < last => if p[k] == n - 1 then p[last] else p[k]);
      Pigeonhole(q, n - 1);
      var a, b :| 0 <= a < b < |q| && q[a] == q[b];
      assert p[a] == p[b];
    }
  }

  /** Without a cycle no chain is longer than the number of steps. */
  lemma ChainsAreShort(steps: seq<Step>, p: seq<int>)
    requires IsChain(steps, p) && |p| > |steps|
    ensures HasCycle(steps) && ReachesCycle(steps, p[0])
  {
    Pigeonhole(p, |steps|);
    var a, b :| 0 <= a < b < |p| && p[a] == p[b];
    RepeatMakesCycle(steps, p, a, b);
  }

  /** Walking round a cycle gives chains of every length. */
  lemma {:induction false} CycleChains(steps: seq<Step>, c: seq<int>, n: nat) returns (p: seq<int>)
    requires IsCycle(steps, c)
    ensures ChainFrom(steps, c[0], p) && |p| == n + 1
  {
    if n < |c| {
      p := c[..n + 1];
    } else {
      var rest := CycleChains(steps, c, n - (|c| - 1));
      p := c[..|c| - 1] + rest;
    }
  }

  /** A step that reaches a cycle has chains of every length out of it. */
  lemma ReachesCycleChains(steps: seq<Step>, i: int, n: nat) returns (p: seq<int>)
    requires ReachesCycle(steps, i)
    ensures ChainFrom(steps, i, p) && |p| > n
  {
    var q, c :| ChainFrom(steps, i, q) && IsCycle(steps, c) && q[|q| - 1] == c[0];
    var rest := CycleChains(steps, c, n);
    p := q[..|q| - 1] + rest;
  }

  // ----- Depth -----

  lemma {:induction false} DepthExists(steps: seq<Step>, i: int, bound: nat) returns (d: nat)
    requires 0 <= i < |steps|
    requires forall p :: ChainFrom(steps, i, p) ==> |p| <= bound + 1
    ensures IsDepth(steps, i, d)
  {
    if p :| ChainFrom(steps, i, p) && |p| == bound + 1 {
      d := bound;
    } else {
      assert ChainFrom(steps, i, [i]);
      d := DepthExists(steps, i, bound - 1);
    }
  }

  /** The longest chain out of a step of an acyclic workflow. */
  ghost function Depth(steps: seq<Step>, i: int): (d: nat)
    requires !HasCycle(steps) && 0 <= i < |steps|
    ensures IsDepth(steps, i, d)
  {
    assert exists d: nat :: IsDepth(steps, i, d) by {
      forall p | ChainFrom(steps, i, p) ensures |p| <= |steps| + 1 {
        if |p| > |steps| { ChainsAreShort(steps, p); }
      }
      var d := DepthExists(steps, i, |steps|);
    }
    var d: nat :| IsDepth(steps, i, d);
    d
  }

  lemma DependenciesAreShallower(steps: seq<Step>, i: int, j: int)
    requires !HasCycle(steps) && DependsOn(steps, i, j)
    ensures Depth(steps, j) < Depth(steps, i)
  {
    var d := Depth(steps, j);
    assert IsDepth(steps, j, d);
    var p :| ChainFrom(steps, j, p) && |p| == d + 1;
    assert ChainFrom(steps, i, [i] + p);
  }

  // ----- The order -----

  /** Step `i` comes before step `j`: shallower, or as deep and declared earlier. */
  ghost predicate Before(steps: seq<Step>, i: int, j: int)
    requires !HasCycle(steps) && 0 <= i < |steps| && 0 <= j < |steps|
  {
    Depth(steps, i) < Depth(steps, j) || (Depth(steps, i) == Depth(steps, j) && i < j)
  }

  /** `order` lists every step once, sorted by (depth, declaration index). */
  ghost predicate IsRunOrder(steps: seq<Step>, order: seq<int>)
    requires !HasCycle(steps)
  {
    && |order| == |steps|
    && (forall k :: 0 <= k < |order| ==> 0 <= order[k] < |steps|)
    && (forall a, b :: 0 <= a < b < |order| ==> Before(steps, order[a], order[b]))
  }

  /** `sorted` is a rearrangement of `steps` in run order. */
  ghost predicate InRunOrder(steps: seq<Step>, sorted: seq<Step>)
    requires !HasCycle(steps)
  {
    exists order :: IsRunOrder(steps, order) && sorted == Select(steps, order)
  }

  function Select(steps: seq<Step>, order: seq<int>): (r: seq<Step>)
    requires forall k :: 0 <= k < |order| ==> 0 <= order[k] < |steps|
    ensures |r| == |order| && forall k :: 0 <= k < |r| ==> r[k] == steps[order[k]]
  {
    seq(|order|, k requires 0 <= k < |order| => steps[order[k]])
  }

  /** Before is a strict order, so a run order repeats no step. */
  lemma RunOrderIsInjective(steps: seq<Step>, order: seq<int>, a: int, b: int)
    requires !HasCycle(steps) && IsRunOrder(steps, order)
    requires 0 <= a < b < |order|
    ensures order[a] != order[b]
  {
    assert Before(steps, order[a], order[b]);
  }

  /** A run order misses no step. */
  lemma RunOrderIsOnto(steps: seq<Step>, order: seq<int>, i: int) returns (k: int)
    requires !HasCycle(steps) && IsRunOrder(steps, order) && 0 <= i < |steps|
    ensures 0 <= k < |order| && order[k] == i
  {
    var more := order + [i];
    Pigeonhole(more, |steps|);
    var a, b :| 0 <= a < b < |more| && more[a] == more[b];
    if b < |order| {
      RunOrderIsInjective(steps, order, a, b);
    }
    k := a;
  }

  /** There is only one run order: two that satisfy the definition agree everywhere. */
  lemma {:induction false} RunOrderIsUnique(steps: seq<Step>, o1: seq<int>, o2: seq<int>)
    requires !HasCycle(steps) && IsRunOrder(steps, o1) && IsRunOrder(steps, o2)
    ensures o1 == o2
  {
    forall k | 0 <= k < |o1| ensures o1[k] == o2[k] {
      RunOrdersAgreeAt(steps, o1, o2, k);
    }
  }

  lemma {:induction false} RunOrdersAgreeAt(steps: seq<Step>, o1: seq<int>, o2: seq<int>, k: int)
    requires !HasCycle(steps) && IsRunOrder(steps, o1) && IsRunOrder(steps, o2) && 0 <= k < |o1|
    ensures o1[k] == o2[k]
    decreases k
  {
    assert forall m :: k < m < |o2| ==> Before(steps, o2[k], o2[m]);
    assert forall m :: k < m < |o1| ==> Before(steps, o1[k], o1[m]);
    var a := RunOrderIsOnto(steps, o2, o1[k]);
    var b := RunOrderIsOnto(steps, o1, o2[k]);
    forall m | 0 <= m < k ensures o1[m] == o2[m] && o1[m] != o1[k] && o2[m] != o2[k] {
      RunOrdersAgreeAt(steps, o1, o2, m);
      RunOrderIsInjective(steps, o1, m, k);
      RunOrderIsInjective(steps, o2, m, k);
    }
    assert k <= a && k <= b;
  }

  /** In run order every step follows all the steps it depends on. */
  lemma DependenciesComeFirst(steps: seq<Step>, order: seq<int>, k: int, name: string) returns (j: int)
    requires WellFormed(steps) && !HasCycle(steps) && IsRunOrder(steps, order)
    requires 0 <= k < |order| && name in steps[order[k]].dependsOn
    ensures 0 <= j < k && steps[order[j]].name == name
  {
    assert forall m :: k < m < |order| ==> Before(steps, order[k], order[m]);
    assert name in Names(steps);
    var i :| 0 <= i < |steps| && steps[i].name == name;
    j := RunOrderIsOnto(steps, order, i);
    DependenciesAreShallower(steps, order[k], i);
  }

  // ----- order_steps -----

  /** Steps whose chains all have at most `rounds` entries: those placed after `rounds` rounds. */
  ghost predicate Placed(steps: seq<Step>, i: int, rounds: nat) {
    0 <= i < |steps| && forall p :: ChainFrom(steps, i, p) ==> |p| <= rounds
  }

  /** A step is placed by the next round exactly when everything it depends on is placed by now. */
  lemma PlacedNext(steps: seq<Step>, i: int, rounds: nat)
    requires 0 <= i < |steps|
    ensures Placed(steps, i, rounds + 1) <==> forall j :: DependsOn(steps, i, j) ==> Placed(steps, j, rounds)
  {
    if Placed(steps, i, rounds + 1) {
      forall j, p | DependsOn(steps, i, j) && ChainFrom(steps, j, p) ensures |p| <= rounds {
        assert ChainFrom(steps, i, [i] + p);
      }
    }
    if forall j :: DependsOn(steps, i, j) ==> Placed(steps, j, rounds) {
      forall p | ChainFrom(steps, i, p) ensures |p| <= rounds + 1 {
        if |p| >= 2 {
          assert DependsOn(steps, p[0], p[1]) && ChainFrom(steps, p[1], p[1..]);
        }
      }
    }
  }

  /** When no unplaced step can be placed, every unplaced step reaches a cycle. */
  lemma {:induction false} StuckChain(steps: seq<Step>, i: int, rounds: nat, n: nat) returns (p: seq<int>)
    requires 0 <= i < |steps| && !Placed(steps, i, rounds)
    requires forall k :: 0 <= k < |steps| && !Placed(steps, k, rounds) ==> !Placed(steps, k, rounds + 1)
    ensures ChainFrom(steps, i, p) && |p| == n + 1
    decreases n
  {
    if n == 0 {
      p := [i];
    } else {
      PlacedNext(steps, i, rounds);
      var j :| DependsOn(steps, i, j) && !Placed(steps, j, rounds);
      var rest := StuckChain(steps, j, rounds, n - 1);
      p := [i] + rest;
    }
  }

  /** What is left when no step is ready is exactly what sits on a cycle or downstream of one. */
  lemma StuckMeansCycle(steps: seq<Step>, rounds: nat, i: int)
    requires 0 <= i < |steps|
    requires forall k :: 0 <= k < |steps| && !Placed(steps, k, rounds) ==> !Placed(steps, k, rounds + 1)
    ensures !Placed(steps, i, rounds) <==> ReachesCycle(steps, i)
    ensures !Placed(steps, i, rounds) ==> HasCycle(steps)
  {
    if !Placed(steps, i, rounds) {
      var p := StuckChain(steps, i, rounds, |steps|);
      ChainsAreShort(steps, p);
    }
    if ReachesCycle(steps, i) {
      var p := ReachesCycleChains(steps, i, rounds);
    }
  }

  /** Once every step is placed there is no cycle. */
  lemma AllPlacedNoCycle(steps: seq<Step>, rounds: nat)
    requires forall i :: 0 <= i < |steps| ==> Placed(steps, i, rounds)
    ensures !HasCycle(steps)
  {
    if c :| IsCycle(steps, c) {
      assert Placed(steps, c[0], rounds);
      var p := CycleChains(steps, c, rounds);
    }
  }

  ghost predicate Increasing(s: seq<int>) {
    forall a, b :: 0 <= a < b < |s| ==> s[a] < s[b]
  }

  /** A list comprehension with a condition: the entries that pass, in order. */
  function Filter(s: seq<int>, keep: int -> bool): (r: seq<int>)
    ensures forall i :: i in r <==> i in s && keep(i)
    ensures Increasing(s) ==> Increasing(r)
  {
    if s == [] then []
    else
      var front, last := s[..|s| - 1], s[|s| - 1];
      var rest := Filter(front, keep);
      assert s == front + [last];
      assert Increasing(s) ==> forall k :: 0 <= k < |rest| ==> rest[k] < last by {
        if Increasing(s) {
          forall k | 0 <= k < |rest| ensures rest[k] < last {
            assert rest[k] in rest;
            var j :| 0 <= j < |front| && front[j] == rest[k];
            assert s[j] == front[j];
          }
        }
      }
      if keep(last) then rest + [last] else rest
  }

  predicate Ready(steps: seq<Step>, i: int, done: set<string>) {
    0 <= i < |steps| && forall d :: d in steps[i].dependsOn ==> d in done
  }

  /** The names of the placed steps. */
  ghost predicate DoneNames(steps: seq<Step>, done: set<string>, rounds: nat) {
    forall i :: 0 <= i < |steps| ==> (steps[i].name in done <==> Placed(steps, i, rounds))
  }

  /** With the placed steps done, ready means placed by the next round. */
  lemma ReadyIsPlacedNext(steps: seq<Step>, i: int, done: set<string>, rounds: nat)
    requires WellFormed(steps) && DoneNames(steps, done, rounds) && 0 <= i < |steps|
    ensures Ready(steps, i, done) <==> Placed(steps, i, rounds + 1)
  {
    PlacedNext(steps, i, rounds);
    if Ready(steps, i, done) {
      forall j | DependsOn(steps, i, j) ensures Placed(steps, j, rounds) {
        assert steps[j].name in done;
      }
    }
    if forall j :: DependsOn(steps, i, j) ==> Placed(steps, j, rounds) {
      forall d | d in steps[i].dependsOn ensures d in done {
        assert d in Names(steps);
        var j :| 0 <= j < |steps| && steps[j].name == d;
        assert DependsOn(steps, i, j);
      }
    }
  }

  /** Depths of the ordered steps: sorted by depth, then by declaration index, all below `rounds`. */
  ghost predicate SortedByDepth(steps: seq<Step>, order: seq<int>, depths: seq<nat>, rounds: nat) {
    && |depths| == |order|
    && (forall k :: 0 <= k < |order| ==> 0 <= order[k] < |steps| && IsDepth(steps, order[k], depths[k]))
    && (forall k :: 0 <= k < |order| ==> depths[k] < rounds)
    && (forall a, b :: 0 <= a < b < |order| ==>
          depths[a] < depths[b] || (depths[a] == depths[b] && order[a] < order[b]))
  }

  /** Every listed step is of depth `rounds`: placed by the next round and not by this one. */
  lemma RoundIsDepth(steps: seq<Step>, i: int, rounds: nat)
    requires Placed(steps, i, rounds + 1) && !Placed(steps, i, rounds)
    ensures IsDepth(steps, i, rounds)
  {
    var p :| ChainFrom(steps, i, p) && |p| > rounds;
  }

  lemma DepthIsUnique(steps: seq<Step>, i: int, d: nat, e: nat)
    requires IsDepth(steps, i, d) && IsDepth(steps, i, e)
    ensures d == e
  {
    var p :| ChainFrom(steps, i, p) && |p| == d + 1;
    var q :| ChainFrom(steps, i, q) && |q| == e + 1;
  }

  lemma SortedIsRunOrder(steps: seq<Step>, order: seq<int>, depths: seq<nat>, rounds: nat)
    requires !HasCycle(steps) && SortedByDepth(steps, order, depths, rounds) && |order| == |steps|
    ensures IsRunOrder(steps, order)
  {
    forall k | 0 <= k < |order| ensures depths[k] == Depth(steps, order[k]) {
      DepthIsUnique(steps, order[k], depths[k], Depth(steps, order[k]));
    }
  }

  /** Filtering by a condition and by its opposite loses nothing. */
  lemma {:induction false} FilterPartition(s: seq<int>, p: int -> bool, q: int -> bool)
    requires forall i :: i in s ==> p(i) != q(i)
    ensures |Filter(s, p)| + |Filter(s, q)| == |s|
  {
    if s == [] {
    } else {
      var front, last := s[..|s| - 1], s[|s| - 1];
      assert last in s && p(last) != q(last);
      assert forall i :: i in front ==> i in s;
      FilterPartition(front, p, q);
      assert |Filter(s, p)| == |Filter(front, p)| + (if p(last) then 1 else 0);
      assert |Filter(s, q)| == |Filter(front, q)| + (if q(last) then 1 else 0);
    }
  }

  lemma {:induction false} DistinctNames(steps: seq<Step>)
    ensures |Names(steps)| <= |steps|
    ensures UniqueNames(steps) <==> |Names(steps)| == |steps|
  {
    if steps == [] {
    } else {
      var front, last := steps[..|steps| - 1], steps[|steps| - 1];
      DistinctNames(front);
      NamesOfOneMore(front, last);
      UniqueWithOneMore(front, last);
      assert steps == front + [last];
    }
  }

  lemma NamesOfOneMore(front: seq<Step>, last: Step)
    ensures Names(front + [last]) == Names(front) + {last.name}
  {
    var all := front + [last];
    assert all[|front|].name in Names(all);
    forall x | x in Names(front) ensures x in Names(all) {
      var i :| 0 <= i < |front| && front[i].name == x;
      assert all[i].name == x;
    }
  }

  lemma UniqueWithOneMore(front: seq<Step>, last: Step)
    ensures UniqueNames(front + [last]) <==> UniqueNames(front) && last.name !in Names(front)
  {
    var all := front + [last];
    assert forall i :: 0 <= i < |front| ==> all[i] == front[i] && front[i].name in Names(front);
    if last.name in Names(front) {
      var i :| 0 <= i < |front| && front[i].name == last.name;
      assert all[i].name == all[|front|].name;
    }
    if UniqueNames(all) {
      forall i, j | 0 <= i < j < |front| ensures front[i].name != front[j].name {
        assert all[i].name != all[j].name;
      }
    }
  }

  ghost function DuplicatedNames(steps: seq<Step>): set<string> {
    set i, j | 0 <= i < |steps| && 0 <= j < |steps| && i != j && steps[i].name == steps[j].name :: steps[i].name
  }

  function Unknown(steps: seq<Step>, k: int): set<string>
    requires 0 <= k < |steps|
  {
    (set d | d in steps[k].dependsOn) - Names(steps)
  }

  /** The complaint names the first step with an unknown dependency, and all its unknown ones. */
  ghost predicate FirstUnknown(steps: seq<Step>, name: string, missing: set<string>) {
    exists k ::
      && 0 <= k < |steps| && steps[k].name == name && missing == Unknown(steps, k) != {}
      && forall j :: 0 <= j < k ==> Unknown(steps, j) == {}
  }

  /** The names of the steps that sit on a cycle or downstream of one. */
  ghost function StuckNames(steps: seq<Step>): set<string> {
    set i | 0 <= i < |steps| && ReachesCycle(steps, i) :: steps[i].name
  }

  /** The state between two rounds: what is left is exactly what is not placed yet, both in declaration order. */
  ghost predicate RoundState(
      steps: seq<Step>, remaining: seq<int>, done: set<string>, order: seq<int>, depths: seq<nat>, rounds: nat) {
    && Increasing(remaining) && |order| + |remaining| == |steps|
    && (forall i :: i in remaining <==> 0 <= i < |steps| && !Placed(steps, i, rounds))
    && DoneNames(steps, done, rounds)
    && SortedByDepth(steps, order, depths, rounds)
  }

  predicate Left(steps: seq<Step>, i: int, done: set<string>) {
    0 <= i < |steps| && steps[i].name !in done
  }

  function NamesOf(steps: seq<Step>, picked: seq<int>): set<string> {
    set k | 0 <= k < |picked| && 0 <= picked[k] < |steps| :: steps[picked[k]].name
  }

  /** After a round, a step is left exactly when it was not ready. */
  lemma LeftIsNotReady(steps: seq<Step>, remaining: seq<int>, done: set<string>, ready: seq<int>, i: int)
    requires UniqueNames(steps) && i in remaining && Left(steps, i, done)
    requires forall j :: j in ready <==> j in remaining && Ready(steps, j, done)
    ensures Left(steps, i, done + NamesOf(steps, ready)) <==> !Ready(steps, i, done)
  {
    if Ready(steps, i, done) {
      var k :| 0 <= k < |ready| && ready[k] == i;
      assert steps[ready[k]].name in NamesOf(steps, ready);
    } else {
      forall k | 0 <= k < |ready| && 0 <= ready[k] < |steps| ensures steps[ready[k]].name != steps[i].name {
        assert ready[k] in ready && ready[k] != i;
      }
    }
  }

  /** One round keeps the round state. */
  lemma RoundKeepsState(
      steps: seq<Step>, remaining: seq<int>, done: set<string>, order: seq<int>, depths: seq<nat>, rounds: nat,
      ready: seq<int>, left: seq<int>)
    requires WellFormed(steps) && RoundState(steps, remaining, done, order, depths, rounds)
    requires Increasing(ready) && forall i :: i in ready <==> i in remaining && Ready(steps, i, done)
    requires Increasing(left)
    requires forall i :: i in left <==> i in remaining && Left(steps, i, done + NamesOf(steps, ready))
    requires |ready| + |left| == |remaining|
    ensures RoundState(steps, left, done + NamesOf(steps, ready),
                       order + ready, depths + seq(|ready|, _ => rounds), rounds + 1)
  {
    hide Placed, IsDepth, Ready, Left, NamesOf;
    var done' := done + NamesOf(steps, ready);
    forall i | 0 <= i < |steps| ensures RoundPlaces(steps, i, done', ready, left, rounds) {
      OneStepOfRound(steps, remaining, done, rounds, ready, left, i);
    }
    assert forall k :: 0 <= k < |ready| ==> ready[k] in ready;
    RoundSorts(steps, done', order, depths, rounds, ready, left);
    forall i ensures i in left <==> 0 <= i < |steps| && !Placed(steps, i, rounds + 1) {
      if 0 <= i < |steps| {
        assert RoundPlaces(steps, i, done', ready, left, rounds);
      }
    }
  }

  /** What a round means for one step. */
  ghost predicate RoundPlaces(
      steps: seq<Step>, i: int, done': set<string>, ready: seq<int>, left: seq<int>, rounds: nat)
    requires 0 <= i < |steps|
  {
    && (i in ready <==> Placed(steps, i, rounds + 1) && !Placed(steps, i, rounds))
    && (i in left <==> !Placed(steps, i, rounds + 1))
    && (steps[i].name in done' <==> Placed(steps, i, rounds + 1))
    && (i in ready ==> IsDepth(steps, i, rounds))
  }

  lemma OneStepOfRound(
      steps: seq<Step>, remaining: seq<int>, done: set<string>, rounds: nat, ready: seq<int>, left: seq<int>, i: int)
    requires WellFormed(steps) && DoneNames(steps, done, rounds) && 0 <= i < |steps|
    requires forall j :: j in remaining <==> 0 <= j < |steps| && !Placed(steps, j, rounds)
    requires forall j :: j in ready <==> j in remaining && Ready(steps, j, done)
    requires forall j :: j in left <==> j in remaining && Left(steps, j, done + NamesOf(steps, ready))
    ensures RoundPlaces(steps, i, done + NamesOf(steps, ready), ready, left, rounds)
  {
    ReadyIsPlacedNext(steps, i, done, rounds);
    PlacedStaysPlaced(steps, i, rounds);
    if i in remaining {
      LeftIsNotReady(steps, remaining, done, ready, i);
      if i in ready {
        RoundIsDepth(steps, i, rounds);
      }
    }
  }

  lemma PlacedStaysPlaced(steps: seq<Step>, i: int, rounds: nat)
    ensures Placed(steps, i, rounds) ==> Placed(steps, i, rounds + 1)
  {
  }

  lemma RoundSorts(
      steps: seq<Step>, done': set<string>, order: seq<int>, depths: seq<nat>, rounds: nat,
      ready: seq<int>, left: seq<int>)
    requires forall i :: 0 <= i < |steps| ==> RoundPlaces(steps, i, done', ready, left, rounds)
    requires SortedByDepth(steps, order, depths, rounds) && Increasing(ready)
    requires forall k :: 0 <= k < |ready| ==> 0 <= ready[k] < |steps|
    ensures SortedByDepth(steps, order + ready, depths + seq(|ready|, _ => rounds), rounds + 1)
    ensures DoneNames(steps, done', rounds + 1)
  {
    hide Placed, IsDepth;
    forall i | 0 <= i < |steps| ensures steps[i].name in done' <==> Placed(steps, i, rounds + 1) {
      assert RoundPlaces(steps, i, done', ready, left, rounds);
    }
    forall k | 0 <= k < |ready| ensures IsDepth(steps, ready[k], rounds) {
      assert ready[k] in ready && RoundPlaces(steps, ready[k], done', ready, left, rounds);
    }
  }

  /** One round: the ready steps in declaration order, and what is left without them. */
  method TakeRound(steps: seq<Step>, remaining: seq<int>, done: set<string>)
    returns (ready: seq<int>, left: seq<int>)
    requires UniqueNames(steps) && Increasing(remaining)
    requires forall i :: i in remaining ==> Left(steps, i, done)
    ensures Increasing(ready) && forall i :: i in ready <==> i in remaining && Ready(steps, i, done)
    ensures Increasing(left)
    ensures forall i :: i in left <==> i in remaining && Left(steps, i, done + NamesOf(steps, ready))
    ensures |ready| + |left| == |remaining|
  {
    var isReady := i => Ready(steps, i, done);
    ready := Filter(remaining, isReady);
    var newDone := done + NamesOf(steps, ready);
    var isLeft := i => Left(steps, i, newDone);
    left := Filter(remaining, isLeft);
    forall i | i in remaining ensures isReady(i) != isLeft(i) {
      LeftIsNotReady(steps, remaining, done, ready, i);
    }
    FilterPartition(remaining, isReady, isLeft);
  }

  /** The while loop of `order_steps`: one round places every ready step. */
  method PlaceInRounds(steps: seq<Step>) returns (r: Result<seq<Step>, OrderError>)
    requires WellFormed(steps)
    ensures r.Err? <==> HasCycle(steps)
    ensures r.Err? ==> r.error == DependencyCycle(StuckNames(steps))
    ensures r.Ok? ==> InRunOrder(steps, r.value)
  {
    var ordered, done := [], {};
    var remaining := seq(|steps|, k => k);
    hide RoundState, InRunOrder, Ready, Left, StuckNames, NamesOf, HasCycle;
    ghost var order, depths, rounds := [], [], 0;
    NothingPlaced(steps, remaining);
    while remaining != []
      invariant RoundState(steps, remaining, done, order, depths, rounds)
      invariant |ordered| == |order| && forall k :: 0 <= k < |order| ==> ordered[k] == steps[order[k]]
      decreases |remaining|
    {
      var ready, left := TakeRound(steps, remaining, done);
      if ready == [] {
        NothingReady(steps, remaining, done, order, depths, rounds);
        return Err(DependencyCycle(NamesOf(steps, remaining)));
      }
      RoundKeepsState(steps, remaining, done, order, depths, rounds, ready, left);
      assert forall k :: 0 <= k < |ready| ==> ready[k] in ready;
      ordered := ordered + Select(steps, ready);
      done, remaining := done + NamesOf(steps, ready), left;
      order, depths, rounds := order + ready, depths + seq(|ready|, _ => rounds), rounds + 1;
    }
    EverythingPlaced(steps, done, order, depths, rounds);
    assert ordered == Select(steps, order);
    return Ok(ordered);
  }

  lemma NothingPlaced(steps: seq<Step>, all: seq<int>)
    requires |all| == |steps| && forall k :: 0 <= k < |all| ==> all[k] == k
    ensures RoundState(steps, all, {}, [], [], 0)
  {
    forall i | 0 <= i < |steps| ensures i in all && !Placed(steps, i, 0) {
      assert all[i] == i && ChainFrom(steps, i, [i]);
    }
  }

  /** The normal exit of the loop: nothing is left, so there is no cycle and the order is the run order. */
  lemma EverythingPlaced(steps: seq<Step>, done: set<string>, order: seq<int>, depths: seq<nat>, rounds: nat)
    requires RoundState(steps, [], done, order, depths, rounds)
    ensures !HasCycle(steps) && IsRunOrder(steps, order)
  {
    assert forall i :: 0 <= i < |steps| ==> i !in [];
    AllPlacedNoCycle(steps, rounds);
    SortedIsRunOrder(steps, order, depths, rounds);
  }

  /** The error branch of the loop: some step is left, none is ready, and what is left is what reaches a cycle. */
  lemma NothingReady(
      steps: seq<Step>, remaining: seq<int>, done: set<string>, order: seq<int>, depths: seq<nat>, rounds: nat)
    requires WellFormed(steps) && RoundState(steps, remaining, done, order, depths, rounds) && remaining != []
    requires forall i :: i in remaining ==> !Ready(steps, i, done)
    ensures HasCycle(steps) && NamesOf(steps, remaining) == StuckNames(steps)
  {
    hide Placed, ReachesCycle, HasCycle, Ready, SortedByDepth;
    forall i | 0 <= i < |steps| && !Placed(steps, i, rounds) ensures !Placed(steps, i, rounds + 1) {
      ReadyIsPlacedNext(steps, i, done, rounds);
    }
    forall i | 0 <= i < |steps|
      ensures i in remaining <==> ReachesCycle(steps, i)
      ensures i in remaining ==> HasCycle(steps)
    {
      StuckMeansCycle(steps, rounds, i);
    }
    assert remaining[0] in remaining;
    NamesOfStuck(steps, remaining);
  }

  lemma NamesOfStuck(steps: seq<Step>, remaining: seq<int>)
    requires forall i :: i in remaining ==> 0 <= i < |steps|
    requires forall i :: 0 <= i < |steps| ==> (i in remaining <==> ReachesCycle(steps, i))
    ensures NamesOf(steps, remaining) == StuckNames(steps)
  {
    hide ReachesCycle;
    forall name ensures name in NamesOf(steps, remaining) <==> name in StuckNames(steps) {
      if k :| 0 <= k < |remaining| && 0 <= remaining[k] < |steps| && steps[remaining[k]].name == name {
        assert remaining[k] in remaining && ReachesCycle(steps, remaining[k]);
      }
      if i :| 0 <= i < |steps| && ReachesCycle(steps, i) && steps[i].name == name {
        var k :| 0 <= k < |remaining| && remaining[k] == i;
      }
    }
  }

  /** `order_steps`: duplicates first, then unknown dependencies, then cycles; otherwise the run order. */
  method OrderSteps(steps: seq<Step>) returns (r: Result<seq<Step>, OrderError>)
    ensures r.Err? && r.error.DuplicateNames? <==> !UniqueNames(steps)
    ensures r.Err? && r.error.DuplicateNames? ==> r.error.names == DuplicatedNames(steps)
    ensures r.Err? && r.error.UnknownDependency? <==> UniqueNames(steps) && !KnownNames(steps)
    ensures r.Err? && r.error.UnknownDependency? ==> FirstUnknown(steps, r.error.step, r.error.missing)
    ensures r.Err? && r.error.DependencyCycle? <==> WellFormed(steps) && HasCycle(steps)
    ensures r.Err? && r.error.DependencyCycle? ==> r.error.stuck == StuckNames(steps)
    ensures r.Ok? ==> !HasCycle(steps) && InRunOrder(steps, r.value)
  {
    DistinctNames(steps);
    if |Names(steps)| != |steps| {
      return Err(DuplicateNames(
        set i | 0 <= i < |steps| && (exists j :: 0 <= j < |steps| && i != j && steps[i].name == steps[j].name)
            :: steps[i].name));
    }
    for k := 0 to |steps|
      invariant forall j :: 0 <= j < k ==> Unknown(steps, j) == {}
    {
      var unknown := Unknown(steps, k);
      if unknown != {} {
        var d :| d in unknown;
        assert d in steps[k].dependsOn && d !in Names(steps);
        return Err(UnknownDependency(steps[k].name, unknown));
      }
    }
    forall i, d | 0 <= i < |steps| && d in steps[i].dependsOn ensures d in Names(steps) {
      assert Unknown(steps, i) == {};
      assert d !in Unknown(steps, i);
    }
    r := PlaceInRounds(steps);
  }
}
