/** Counting refusals and withholding the tools that keep being refused (domain/tools/refusals.py). */
module Refusals {
  import opened Wrappers
  import opened Text
  import opened Transcripts

  const REFUSAL_LIMIT: nat := 2

  /** The name a refusal is counted under, stripped; None for anything that is not a refusal of a named tool. */
  function RefusedName(o: Observation): Option<string> {
    if o.details.refused && Strip(o.details.tool) != "" then Some(Strip(o.details.tool)) else None
  }

  /** How often a tool was refused. */
  function Refusals(observations: seq<Observation>, name: string): nat {
    if observations == [] then 0
    else
      Refusals(observations[..|observations| - 1], name) +
      if RefusedName(observations[|observations| - 1]) == Some(name) then 1 else 0
  }

  /** The tools refused at least once. */
  function RefusedNames(observations: seq<Observation>): set<string> {
    if observations == [] then {}
    else
      var last := RefusedName(observations[|observations| - 1]);
      RefusedNames(observations[..|observations| - 1]) + if last.Some? then {last.value} else {}
  }

  function Withheld(observations: seq<Observation>): set<string> {
    set name | name in RefusedNames(observations) && Refusals(observations, name) >= REFUSAL_LIMIT :: name
  }

  lemma {:induction false} RefusalsAppend(a: seq<Observation>, b: seq<Observation>, name: string)
    ensures Refusals(a + b, name) == Refusals(a, name) + Refusals(b, name)
  {
    if b == [] {
      assert a + b == a;
    } else {
      var n := |b| - 1;
      RefusalsAppend(a, b[..n], name);
      assert (a + b)[..|a + b| - 1] == a + b[..n] && (a + b)[|a + b| - 1] == b[n];
    }
  }

  lemma {:induction false} RefusedIffCounted(observations: seq<Observation>, name: string)
    ensures name in RefusedNames(observations) <==> Refusals(observations, name) > 0
  {
    if observations == [] {
    } else {
      RefusedIffCounted(observations[..|observations| - 1], name);
    }
  }

  /** A tool is withheld exactly when it was refused twice. */
  lemma WithheldIffRefusedTwice(observations: seq<Observation>, name: string)
    ensures name in Withheld(observations) <==> Refusals(observations, name) >= REFUSAL_LIMIT
  {
    RefusedIffCounted(observations, name);
  }

  /** More observations never give a tool back. */
  lemma WithheldOnlyGrows(observations: seq<Observation>, more: seq<Observation>)
    ensures Withheld(observations) <= Withheld(observations + more)
  {
    forall name | name in Withheld(observations) ensures name in Withheld(observations + more) {
      RefusalsAppend(observations, more, name);
      WithheldIffRefusedTwice(observations, name);
      WithheldIffRefusedTwice(observations + more, name);
    }
  }

  /** `refusal_counts`: the counter holds exactly the tools refused, each with how often. */
  method RefusalCounts(observations: seq<Observation>) returns (counts: map<string, nat>)
    ensures forall name :: name in counts <==> Refusals(observations, name) > 0
    ensures forall name :: name in counts ==> counts[name] == Refusals(observations, name)
  {
    counts := map[];
    for k := 0 to |observations|
      invariant forall name :: name in counts <==> Refusals(observations[..k], name) > 0
      invariant forall name :: name in counts ==> counts[name] == Refusals(observations[..k], name)
    {
      assert observations[..k + 1][..k] == observations[..k];
      var name := RefusedName(observations[k]);
      if name.Some? {
        counts := counts[name.value := (if name.value in counts then counts[name.value] else 0) + 1];
      }
    }
    assert observations[..|observations|] == observations;
  }

  /** `withheld`: the names whose count reaches the limit. */
  method WithheldTools(observations: seq<Observation>) returns (names: set<string>)
    ensures names == Withheld(observations)
  {
    var counts := RefusalCounts(observations);
    names := set name | name in counts && counts[name] >= REFUSAL_LIMIT :: name;
    forall name ensures name in names <==> name in Withheld(observations) {
      WithheldIffRefusedTwice(observations, name);
    }
  }
}
