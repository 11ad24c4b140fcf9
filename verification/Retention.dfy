/** The consolidation regression: rotating partial observation over a fixed set of facts. */
module Retention {
  import opened Deltas
  import opened Wrappers

  /** A text carries the marker of one fact; `sweep` is when it was last observed, 0 for the seed. */
  datatype Text = Text(marker: nat, sweep: nat)

  const STRIDE: nat := 3

  predicate Withheld(fact: nat, sweep: nat) { (fact + sweep) % STRIDE == 0 }

  function Kept(n: nat, sweep: nat): seq<nat> {
    if n == 0 then [] else Kept(n - 1, sweep) + (if Withheld(n - 1, sweep) then [] else [n - 1])
  }

  function All(n: nat): seq<nat> { seq(n, i => i) }

  /** The facts a sweep observes; all of them when the stride would leave none. */
  function ObservedIndices(n: nat, sweep: nat): seq<nat> {
    if Kept(n, sweep) == [] then All(n) else Kept(n, sweep)
  }

  // ----- the rotation -----

  lemma {:induction false} KeptIs(n: nat, sweep: nat, fact: nat)
    ensures fact in Kept(n, sweep) <==> fact < n && !Withheld(fact, sweep)
  {
    if n > 0 { KeptIs(n - 1, sweep, fact); }
  }

  lemma {:induction false} KeptIsIncreasing(n: nat, sweep: nat)
    ensures |Kept(n, sweep)| <= n
    ensures forall i, j :: 0 <= i < j < |Kept(n, sweep)| ==> Kept(n, sweep)[i] < Kept(n, sweep)[j]
    ensures forall i :: 0 <= i < |Kept(n, sweep)| ==> Kept(n, sweep)[i] < n
  {
    if n > 0 { KeptIsIncreasing(n - 1, sweep); }
  }

  lemma TwoFactsSuffice(n: nat, sweep: nat)
    requires n >= 2
    ensures ObservedIndices(n, sweep) == Kept(n, sweep)
  {
    KeptIs(n, sweep, 0);
    KeptIs(n, sweep, 1);
  }

  lemma {:induction false} ThreeSweepsCount(n: nat, sweep: nat)
    ensures |Kept(n, sweep)| + |Kept(n, sweep + 1)| + |Kept(n, sweep + 2)| == 2 * n
  {
    if n > 0 {
      ThreeSweepsCount(n - 1, sweep);
      ThreeResidues(n - 1 + sweep);
    }
  }

  ghost predicate Observes(n: nat, sweep: nat, fact: nat) { fact in ObservedIndices(n, sweep) }

  lemma ObservesIff(n: nat, sweep: nat, fact: nat)
    requires n >= 2 && fact < n
    ensures Observes(n, sweep, fact) <==> !Withheld(fact, sweep)
  {
    TwoFactsSuffice(n, sweep);
    KeptIs(n, sweep, fact);
  }

  lemma OneOfThree(fact: nat, sweep: nat) returns (t: nat)
    ensures sweep <= t < sweep + 3 && Withheld(fact, t)
    ensures forall u: nat :: sweep <= u < sweep + 3 && u != t ==> !Withheld(fact, u)
  {
    t := if Withheld(fact, sweep) then sweep else if Withheld(fact, sweep + 1) then sweep + 1 else sweep + 2;
    ThreeResidues(fact + sweep);
    forall u: nat | sweep <= u < sweep + 3 && u != t ensures !Withheld(fact, u) {
      assert u == sweep || u == sweep + 1 || u == sweep + 2;
    }
  }

  lemma ThreeResidues(x: nat)
    ensures (x + 1) % 3 == (if x % 3 == 2 then 0 else x % 3 + 1)
    ensures (x + 2) % 3 == (if x % 3 == 0 then 2 else x % 3 - 1)
  {
  }

  /** Any three consecutive sweeps withhold every fact exactly once, and make 2n observations in all. */
  lemma ThreeSweepsWithholdOnce(n: nat, sweep: nat, fact: nat) returns (t: nat)
    requires n >= 2 && fact < n
    ensures sweep <= t < sweep + 3 && !Observes(n, t, fact)
    ensures forall u: nat :: sweep <= u < sweep + 3 && u != t ==> Observes(n, u, fact)
    ensures |ObservedIndices(n, sweep)| + |ObservedIndices(n, sweep + 1)| + |ObservedIndices(n, sweep + 2)| == 2 * n
  {
    t := OneOfThree(fact, sweep);
    forall u: nat ensures Observes(n, u, fact) <==> !Withheld(fact, u) {
      ObservesIff(n, u, fact);
    }
    ThreeSweepsCount(n, sweep);
    TwoFactsSuffice(n, sweep);
    TwoFactsSuffice(n, sweep + 1);
    TwoFactsSuffice(n, sweep + 2);
  }

  // ----- the run -----

  function Observation(indices: seq<nat>, sweep: nat): (r: seq<Element<Text>>)
    ensures |r| == |indices| && forall i :: 0 <= i < |r| ==> r[i] == Element(indices[i], Text(indices[i], sweep))
  {
    seq(|indices|, i requires 0 <= i < |indices| => Element(indices[i], Text(indices[i], sweep)))
  }

  lemma ObservedFacts(n: nat, sweep: nat)
    ensures var o := ObservedIndices(n, sweep);
            && (forall i, j :: 0 <= i < j < |o| ==> o[i] != o[j]) && (forall i :: 0 <= i < |o| ==> o[i] < n)
            && |o| <= n && UniqueNames(Observation(o, sweep))
  {
    KeptIsIncreasing(n, sweep);
  }

  /** Every fact is there under its own name, with its marker, last observed before `sweep`. */
  ghost predicate Holds(s: seq<Element<Text>>, n: nat, sweep: nat) {
    && UniqueNames(s)
    && (forall i: nat :: i in Meaning(s) <==> i < n)
    && (forall i: nat :: i < n ==> Meaning(s)[i].marker == i && Meaning(s)[i].sweep < sweep)
  }

  lemma SeedHolds(n: nat)
    ensures Holds(Observation(All(n), 0), n, 1)
  {
    var s := Observation(All(n), 0);
    MeaningIs(s);
    forall i: nat ensures i in Meaning(s) <==> i < n {
      if i < n { assert s[i].name == i; }
    }
    forall i: nat | i < n ensures Meaning(s)[i] == Text(i, 0) { assert s[i].name == i; }
  }

  lemma {:induction false} EveryObservationIsADelta(s: seq<Element<Text>>, n: nat, indices: seq<nat>, sweep: nat)
    requires Holds(s, n, sweep)
    ensures |Differences(Meaning(s), Observation(indices, sweep))| == |indices|
  {
    if indices != [] {
      var k := |indices| - 1;
      EveryObservationIsADelta(s, n, indices[..k], sweep);
      assert Observation(indices, sweep)[..k] == Observation(indices[..k], sweep);
    }
  }

  lemma ObservationMeans(indices: seq<nat>, sweep: nat, n: nat)
    requires UniqueNames(Observation(indices, sweep)) && forall i :: 0 <= i < |indices| ==> indices[i] < n
    ensures forall i: nat :: i in Meaning(Observation(indices, sweep)) ==>
              i < n && Meaning(Observation(indices, sweep))[i] == Text(i, sweep)
  {
    var o := Observation(indices, sweep);
    MeaningIs(o);
    forall i: nat | i in Meaning(o) ensures i < n && Meaning(o)[i] == Text(i, sweep) {
      assert i in Names(o);
      var j :| 0 <= j < |o| && o[j].name == i;
    }
  }

  /** A sweep keeps every fact, observed or not. */
  lemma SweepHolds(s: seq<Element<Text>>, after: seq<Element<Text>>, n: nat, indices: seq<nat>, sweep: nat)
    requires Holds(s, n, sweep) && UniqueNames(after) && UniqueNames(Observation(indices, sweep))
    requires forall i :: 0 <= i < |indices| ==> indices[i] < n
    requires Meaning(after) == Meaning(s) + Meaning(Observation(indices, sweep))
    ensures Holds(after, n, sweep + 1)
  {
    ObservationMeans(indices, sweep, n);
  }

  method RetainedCount(s: seq<Element<Text>>, n: nat) returns (count: nat)
    requires UniqueNames(s)
    ensures count <= n && (count == n <==> forall i: nat :: i < n ==> i in Meaning(s) && Meaning(s)[i].marker == i)
  {
    count := 0;
    for i := 0 to n
      invariant count <= i && (count == i <==> forall j: nat :: j < i ==> j in Meaning(s) && Meaning(s)[j].marker == j)
    {
      var element := FindByName(s, i);
      if element.Some? && element.value.marker == i { count := count + 1; }
    }
  }

  datatype SweepResult = SweepResult(deltas: nat, observed: nat, retained: nat, total: nat)

  ghost predicate ReportOk(sweeps: seq<SweepResult>) {
    && (forall i :: 0 <= i < |sweeps| ==> sweeps[i].retained == sweeps[i].total)
    && Unobserved(sweeps) > 0
  }

  function Unobserved(sweeps: seq<SweepResult>): int {
    if sweeps == [] then 0
    else Unobserved(sweeps[..|sweeps|-1]) + sweeps[|sweeps|-1].total - sweeps[|sweeps|-1].observed
  }

  ghost predicate SweepsOf(n: nat, sweeps: seq<SweepResult>) {
    forall i :: 0 <= i < |sweeps| ==>
      sweeps[i] == SweepResult(|ObservedIndices(n, i + 1)|, |ObservedIndices(n, i + 1)|, n, n)
  }

  method RunSweep(state: seq<Element<Text>>, n: nat, sweep: nat)
    returns (after: seq<Element<Text>>, result: SweepResult)
    requires Holds(state, n, sweep)
    ensures Holds(after, n, sweep + 1)
    ensures result == SweepResult(|ObservedIndices(n, sweep)|, |ObservedIndices(n, sweep)|, n, n)
  {
    var indices := ObservedIndices(n, sweep);
    ObservedFacts(n, sweep);
    var outcome := Consolidate(state, Observation(indices, sweep));
    EveryObservationIsADelta(state, n, indices, sweep);
    SweepHolds(state, outcome.after, n, indices, sweep);
    after := outcome.after;
    var retained := RetainedCount(after, n);
    result := SweepResult(|outcome.deltas|, |indices|, retained, n);
  }

  /** The run measures full retention after every sweep, and one delta per observation. */
  method RunRegression(n: nat, k: nat) returns (r: Option<seq<SweepResult>>)
    ensures r.Some? <==> n >= 1 && k >= 1
    ensures r.Some? ==> |r.value| == k && SweepsOf(n, r.value)
  {
    if n < 1 || k < 1 { return None; }
    var state := Observation(All(n), 0);
    SeedHolds(n);
    var results: seq<SweepResult> := [];
    for sweep := 1 to k + 1
      invariant |results| == sweep - 1 && SweepsOf(n, results)
      invariant Holds(state, n, sweep)
    {
      var result;
      state, result := RunSweep(state, n, sweep);
      results := results + [result];
    }
    r := Some(results);
  }

  // ----- when the report is ok -----

  lemma {:induction false} UnobservedIs(n: nat, sweeps: seq<SweepResult>)
    requires SweepsOf(n, sweeps)
    ensures Unobserved(sweeps) >= 0 && (Unobserved(sweeps) > 0 <==> SomeUnobserved(n, sweeps))
  {
    if sweeps != [] {
      var k := |sweeps| - 1;
      UnobservedIs(n, sweeps[..k]);
      ObservedFacts(n, k + 1);
      SomeUnobservedSplits(n, sweeps[..k], sweeps[k]);
      assert sweeps == sweeps[..k] + [sweeps[k]];
    }
  }

  ghost predicate SomeUnobserved(n: nat, sweeps: seq<SweepResult>) {
    exists i :: 0 <= i < |sweeps| && sweeps[i].observed < n
  }

  lemma SomeUnobservedSplits(n: nat, sweeps: seq<SweepResult>, last: SweepResult)
    ensures SomeUnobserved(n, sweeps + [last]) <==> SomeUnobserved(n, sweeps) || last.observed < n
  {
    var all := sweeps + [last];
    assert all[|sweeps|] == last && forall i :: 0 <= i < |sweeps| ==> all[i] == sweeps[i];
  }

  lemma {:induction false} LackingIff(n: nat, sweep: nat)
    ensures |Kept(n, sweep)| < n <==> exists i: nat :: i < n && Withheld(i, sweep)
  {
    if n > 0 {
      LackingIff(n - 1, sweep);
      KeptIsIncreasing(n - 1, sweep);
    }
  }

  lemma SweepWithholdsIff(n: nat, sweep: nat)
    requires sweep >= 1
    ensures n >= 3 && sweep == 1 ==> |ObservedIndices(n, sweep)| < n
    ensures n == 2 && sweep == 1 ==> |ObservedIndices(n, sweep)| == n
    ensures n == 2 && sweep == 2 ==> |ObservedIndices(n, sweep)| < n
    ensures n == 1 ==> |ObservedIndices(n, sweep)| == n
  {
    LackingIff(n, sweep);
    KeptIsIncreasing(n, sweep);
    if n >= 2 {
      TwoFactsSuffice(n, sweep);
      assert Withheld(2, 1) && Withheld(1, 2);
      assert !Withheld(0, 1) && !Withheld(1, 1);
    }
  }

  /** One lost fact in one sweep, and the report is not ok. */
  lemma LossFails(sweeps: seq<SweepResult>, i: nat)
    requires i < |sweeps| && sweeps[i].retained != sweeps[i].total
    ensures !ReportOk(sweeps)
  {
  }

  /** The report is ok exactly for three or more facts, or two facts and two or more sweeps. */
  lemma ReportOkIff(n: nat, k: nat, sweeps: seq<SweepResult>)
    requires n >= 1 && k >= 1 && |sweeps| == k && SweepsOf(n, sweeps)
    ensures ReportOk(sweeps) <==> n >= 3 || (n == 2 && k >= 2)
  {
    UnobservedIs(n, sweeps);
    SweepWithholdsIff(n, 1);
    if k >= 2 { SweepWithholdsIff(n, 2); }
    if n == 1 {
      forall i | 0 <= i < k ensures sweeps[i].observed == n { SweepWithholdsIff(n, i + 1); }
    } else if n >= 3 {
      assert sweeps[0].observed < n;
    } else if k >= 2 {
      assert sweeps[1].observed < n;
    }
  }
}
