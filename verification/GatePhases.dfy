/** The five gates, and exactly which skipped cases each of them passes over. */
module GatePhases {
  import opened Markers
  import opened Gates

  function Whole(keyword: string): Selector { Selector(keyword, AnyName, false) }

  function Named(keyword: string, names: seq<string>): Selector { Selector(keyword, OneOf(names), false) }

  ghost predicate In(c: Case, keyword: string) { Contains(c.classname, keyword) }

  ghost predicate InAny(c: Case, keywords: seq<string>) {
    exists i :: 0 <= i < |keywords| && In(c, keywords[i])
  }

  /** A pooled clause over whole files. */
  function Files(keywords: seq<string>): seq<Selector> {
    seq(|keywords|, i requires 0 <= i < |keywords| => Whole(keywords[i]))
  }

  lemma FilesSelect(keywords: seq<string>, c: Case)
    ensures MatchesAny(Files(keywords), c) <==> InAny(c, keywords)
  {
    if InAny(c, keywords) {
      var i :| 0 <= i < |keywords| && In(c, keywords[i]);
      assert Matches(Files(keywords)[i], c);
    }
  }

  lemma AnyOfBoth(a: seq<Selector>, b: seq<Selector>, c: Case)
    ensures MatchesAny(a + b, c) <==> MatchesAny(a, c) || MatchesAny(b, c)
  {
    if MatchesAny(a, c) {
      var i :| 0 <= i < |a| && Matches(a[i], c);
      assert Matches((a + b)[i], c);
    }
    if MatchesAny(b, c) {
      var i :| 0 <= i < |b| && Matches(b[i], c);
      assert Matches((a + b)[|a| + i], c);
    }
    if MatchesAny(a + b, c) {
      var i :| 0 <= i < |a + b| && Matches((a + b)[i], c);
      assert if i < |a| then (a + b)[i] == a[i] else (a + b)[i] == b[i - |a|];
    }
  }

  lemma InEither(c: Case, a: seq<string>, b: seq<string>)
    ensures InAny(c, a + b) <==> InAny(c, a) || InAny(c, b)
  {
    if InAny(c, a) {
      var i :| 0 <= i < |a| && In(c, a[i]);
      assert In(c, (a + b)[i]);
    }
    if InAny(c, b) {
      var i :| 0 <= i < |b| && In(c, b[i]);
      assert In(c, (a + b)[|a| + i]);
    }
    if InAny(c, a + b) {
      var i :| 0 <= i < |a + b| && In(c, (a + b)[i]);
      assert if i < |a| then (a + b)[i] == a[i] else (a + b)[i] == b[i - |a|];
    }
  }

  ghost predicate SelectsSome(clauses: seq<Clause>, c: Case) {
    exists i :: 0 <= i < |clauses| && Selects(clauses[i], c)
  }

  /** The selections of a gate: whole files, and the rest. */
  ghost predicate Covers(g: Gate, files: seq<string>, rest: seq<Selector>, c: Case) {
    SelectsSome(g.clauses, c) <==> InAny(c, files) || MatchesAny(rest, c)
  }

  /**
   * When all tracked keywords but one stand for whole files, the hidden cases are the skips under that
   * one keyword that no file and no other selection reaches.
   */
  lemma HiddenUnderOneKeyword(g: Gate, files: seq<string>, rest: seq<Selector>, partial: string, c: Case)
    requires Covers(g, files, rest, c)
    requires forall k :: k in g.tracked ==> k == partial || k in files
    requires partial in g.tracked
    ensures Hidden(g, c) <==> c.status == Skipped && In(c, partial) && !InAny(c, files) && !MatchesAny(rest, c)
  {
    assert Hidden(g, c) <==> c.status == Skipped && Tracked(g, c) && !SelectsSome(g.clauses, c);
    var t :| 0 <= t < |g.tracked| && g.tracked[t] == partial;
    if Tracked(g, c) && !InAny(c, files) {
      var i :| 0 <= i < |g.tracked| && Contains(c.classname, g.tracked[i]);
      assert g.tracked[i] in g.tracked;
    }
  }

  // ----- collections that pass -----

  function Passes(n: nat): seq<Verdict> { seq(n, _ => PASS) }

  ghost predicate Seen(sels: seq<Selector>, cases: seq<Case>) {
    exists c :: c in cases && MatchesAny(sels, c)
  }

  /** What a collection of passed cases must hold for a clause to be green. */
  ghost predicate HasEvidence(cl: Clause, cases: seq<Case>) {
    match cl
    case Direct => true
    case Pooled(sels, _) => Seen(sels, cases)
    case EachOf(each) => each != [] && forall i :: 0 <= i < |each| ==> Seen([each[i]], cases)
    case Counted(sels, named, count) => Seen(sels + [named], cases) && |Selected(named, cases)| == count
  }

  ghost predicate AllPassed(cases: seq<Case>) {
    forall c :: c in cases ==> c.status == Passed
  }

  lemma EvidenceIsGreen(cl: Clause, cases: seq<Case>)
    requires AllPassed(cases) && HasEvidence(cl, cases)
    ensures ClauseGreen(cl, cases, PASS)
  {
    if cl.EachOf? {
      forall i | 0 <= i < |cl.each| ensures Green([cl.each[i]], cases) {
        assert Seen([cl.each[i]], cases);
      }
    }
  }

  lemma EvidencePasses(g: Gate, cases: seq<Case>)
    requires AllPassed(cases) && forall i :: 0 <= i < |g.clauses| ==> HasEvidence(g.clauses[i], cases)
    ensures RunGate(g, cases, Passes(|g.clauses|)) == GatePass
  {
    var direct := Passes(|g.clauses|);
    forall i | 0 <= i < |direct| ensures ClauseGreen(g.clauses[i], cases, direct[i]) {
      EvidenceIsGreen(g.clauses[i], cases);
    }
    PassIff(g, cases, direct);
  }

  /** A gate that can pass at all can pass over any hidden skip. */
  lemma PassesOver(g: Gate, base: seq<Case>, skip: Case)
    requires RunGate(g, base, Passes(|g.clauses|)) == GatePass && Hidden(g, skip)
    ensures RunGate(g, base + [skip], Passes(|g.clauses|)) == GatePass
  {
    assert base + [] == base && base + [skip] + [] == base + [skip];
    SkipSurvivesIffHidden(g, base, [], skip, Passes(|g.clauses|));
  }

  function Passing(keyword: string, name: string): Case { Case(keyword, name, Passed) }

  lemma SeenAt(sels: seq<Selector>, cases: seq<Case>, j: nat, k: nat)
    requires j < |sels| && k < |cases| && cases[k].classname == sels[j].keyword && cases[k].status == Passed
    requires NameMatches(sels[j].names, cases[k].name)
    ensures Seen(sels, cases)
  {
    OwnKeyword(cases[k].name, sels[j].keyword);
    assert Matches(sels[j], cases[k]);
    assert MatchesAny(sels, cases[k]);
  }

  function SampleName(names: Names): string {
    match names
    case AnyName => "t"
    case OneOf(names) => if names == [] then "" else names[0]
    case BaseOneOf(_) => ""
    case Prefixed(prefix) => prefix
  }

  function Sample(sel: Selector): Case { Case(sel.keyword, SampleName(sel.names), Passed) }

  predicate CanBeSampled(cl: Clause) {
    match cl
    case Direct => true
    case Pooled(sels, _) => sels != [] && NameMatches(sels[0].names, SampleName(sels[0].names))
    case EachOf(_) => false
    case Counted(_, _, _) => false
  }

  /** One passed case for each pooled clause is enough for a pass. */
  lemma SamplesPass(g: Gate) returns (cases: seq<Case>)
    requires forall i :: 0 <= i < |g.clauses| ==> CanBeSampled(g.clauses[i])
    ensures RunGate(g, cases, Passes(|g.clauses|)) == GatePass
  {
    cases := seq(|g.clauses|, i requires 0 <= i < |g.clauses| =>
                   if g.clauses[i].Pooled? then Sample(g.clauses[i].sels[0]) else Case("", "", Passed));
    forall i | 0 <= i < |g.clauses| ensures HasEvidence(g.clauses[i], cases) {
      if g.clauses[i].Pooled? { SeenAt(g.clauses[i].sels, cases, 0, i); }
    }
    EvidencePasses(g, cases);
  }

  lemma OwnKeyword(name: string, keyword: string)
    ensures In(Case(keyword, name, Passed), keyword) && In(Case(keyword, name, Skipped), keyword)
  {
    assert OccursAt(keyword, keyword, 0);
  }

  lemma NotIn(c: Case, keyword: string, i: nat)
    requires i < |keyword| && (|c.classname| < |keyword| || keyword[i] !in c.classname)
    ensures !In(c, keyword)
  {
    if In(c, keyword) {
      var j: nat :| OccursAt(c.classname, keyword, j);
      OccurrenceAt(c.classname, keyword, j, j + i);
    }
  }

  // ----- phase 0 -----

  const LEAKS: string := "leak_suite.test_leaks"
  const TRACES: seq<string> := ["test_trace_writer", "test_outcome_intake"]
  const SCANS: seq<string> := [
    "test_scans", "test_tier_a_zero_passthrough", "test_scan_verdict_type", "test_tier_a_template"
  ]
  const SHRED: seq<string> := ["test_crypto_shred"]
  const STATES: seq<string> := ["test_state_machine"]

  // In short pieces, which keeps the scan for a bracket in `ForgeryNames` cheap.
  const FORGERY_TESTS: seq<string> := [
    "test_insert_memory_item_" + "executes_no_sql_when_" + "verdict_is_for_other_content",
    "test_insert_memory_item_" + "checks_provenance_" + "before_the_scan_verdict"
  ]

  const PROBES: seq<string> := [
    "test_probe1_", "test_probe2_", "test_probe3_", "test_probe4_", "test_probe5_", "test_probe6_", "test_probe7_"
  ]

  const FORGERY: Selector := Selector("test_repo_isolation_offline", BaseOneOf(FORGERY_TESTS), false)

  function Probes(prefixes: seq<string>): seq<Selector> {
    seq(|prefixes|, i requires 0 <= i < |prefixes| => Selector(LEAKS, Prefixed(prefixes[i]), false))
  }

  function Phase0Of(traces: seq<string>, probes: seq<string>, scans: seq<string>, forgery: Selector,
                    shred: seq<string>, states: seq<string>): Gate {
    Gate([Pooled(Files(traces), TakeWorse), EachOf(Probes(probes)), Counted(Files(scans), forgery, 2),
          Pooled(Files(shred), TakeWorse), Pooled(Files(states), TakeWorse), Direct, Direct],
         traces + [LEAKS] + scans + shred + states)
  }

  function Phase0(): Gate { Phase0Of(TRACES, PROBES, SCANS, FORGERY, SHRED, STATES) }

  ghost predicate IsProbe(prefixes: seq<string>, name: string) {
    exists i :: 0 <= i < |prefixes| && prefixes[i] <= name
  }

  /** Phase 0 passes over exactly the skipped leak tests outside the seven probes (and outside every other clause). */
  lemma Phase0Hides(traces: seq<string>, probes: seq<string>, scans: seq<string>, forgery: Selector,
                    shred: seq<string>, states: seq<string>, c: Case)
    ensures Hidden(Phase0Of(traces, probes, scans, forgery, shred, states), c) <==>
              && c.status == Skipped && In(c, LEAKS) && !IsProbe(probes, c.name)
              && !InAny(c, traces + scans + shred + states) && !Matches(forgery, c)
  {
    var g := Phase0Of(traces, probes, scans, forgery, shred, states);
    var rest := Probes(probes) + [forgery];
    FilesSelect(traces, c);
    FilesSelect(scans, c);
    FilesSelect(shred, c);
    FilesSelect(states, c);
    AnyOfBoth(Files(scans), [forgery], c);
    AnyOfBoth(Probes(probes), [forgery], c);
    InEither(c, traces + scans + shred, states);
    InEither(c, traces + scans, shred);
    InEither(c, traces, scans);
    SingleMatches(forgery, c);
    assert g.clauses[0].Pooled? && g.clauses[1].EachOf? && g.clauses[2].Counted?;
    assert g.clauses[3].Pooled? && g.clauses[4].Pooled?;
    assert Covers(g, traces + scans + shred + states, rest, c);
    HiddenUnderOneKeyword(g, traces + scans + shred + states, rest, LEAKS, c);
    if In(c, LEAKS) && IsProbe(probes, c.name) {
      var i :| 0 <= i < |probes| && probes[i] <= c.name;
      assert Matches(Probes(probes)[i], c);
    }
  }

  lemma Phase0HidesExactly(c: Case)
    ensures Hidden(Phase0(), c) <==>
              && c.status == Skipped && In(c, LEAKS) && !IsProbe(PROBES, c.name)
              && !InAny(c, TRACES + SCANS + SHRED + STATES) && !Matches(FORGERY, c)
  {
    Phase0Hides(TRACES, PROBES, SCANS, FORGERY, SHRED, STATES, c);
  }

  lemma {:induction false} BaseNameIs(name: string)
    ensures |BaseName(name)| <= |name| && ('[' !in name ==> BaseName(name) == name)
  {
    if name != [] && name[0] != '[' { BaseNameIs(name[1..]); }
  }

  lemma {:induction false} NoneSelected(sel: Selector, cases: seq<Case>)
    requires forall c :: c in cases ==> !Matches(sel, c)
    ensures Selected(sel, cases) == []
  {
    if cases != [] { NoneSelected(sel, cases[..|cases|-1]); }
  }

  lemma TwoSelected(sel: Selector, c: Case, d: Case)
    requires Matches(sel, c) && Matches(sel, d)
    ensures Selected(sel, [c, d]) == [c, d]
  {
    assert [c, d][..1] == [c] && [c][..0] == [];
    assert Selected(sel, [c]) == Selected(sel, []) + [c];
  }

  /** One passed case per probe, named by its prefix. */
  function ProbeCases(probes: seq<string>): seq<Case> {
    seq(|probes|, i requires 0 <= i < |probes| => Passing(LEAKS, probes[i]))
  }

  lemma ProbesSeen(probes: seq<string>, front: seq<Case>)
    requires probes != [] && AllPassed(front)
    ensures HasEvidence(EachOf(Probes(probes)), front + ProbeCases(probes)) && AllPassed(front + ProbeCases(probes))
  {
    forall i | 0 <= i < |probes| ensures Seen([Probes(probes)[i]], front + ProbeCases(probes)) {
      SeenAt([Probes(probes)[i]], front + ProbeCases(probes), 0, |front| + i);
    }
  }

  /** The forgery selection finds exactly the two tests it names when every other name is shorter. */
  lemma ForgeryCount(keyword: string, tests: seq<string>, rest: seq<Case>)
    requires |tests| == 2 && '[' !in tests[0] && '[' !in tests[1]
    requires forall c :: c in rest ==> |c.name| < |tests[0]| && |c.name| < |tests[1]|
    ensures var forgery := Selector(keyword, BaseOneOf(tests), false);
            |Selected(forgery, [Passing(keyword, tests[0]), Passing(keyword, tests[1])] + rest)| == 2
  {
    var forgery := Selector(keyword, BaseOneOf(tests), false);
    var c, d := Passing(keyword, tests[0]), Passing(keyword, tests[1]);
    BaseNameIs(tests[0]);
    BaseNameIs(tests[1]);
    OwnKeyword(tests[0], keyword);
    OwnKeyword(tests[1], keyword);
    TwoSelected(forgery, c, d);
    forall x | x in rest ensures !Matches(forgery, x) {
      BaseNameIs(x.name);
    }
    NoneSelected(forgery, rest);
    SelectedAppend(forgery, [c, d], rest);
  }

  lemma Phase0Passes(traces: seq<string>, probes: seq<string>, scans: seq<string>, forgery: Selector,
                     shred: seq<string>, states: seq<string>, cases: seq<Case>)
    requires AllPassed(cases) && Seen(Files(traces), cases) && Seen(Files(shred), cases) && Seen(Files(states), cases)
    requires HasEvidence(EachOf(Probes(probes)), cases) && HasEvidence(Counted(Files(scans), forgery, 2), cases)
    ensures RunGate(Phase0Of(traces, probes, scans, forgery, shred, states), cases, Passes(7)) == GatePass
  {
    var g := Phase0Of(traces, probes, scans, forgery, shred, states);
    assert HasEvidence(g.clauses[0], cases) && HasEvidence(g.clauses[3], cases) && HasEvidence(g.clauses[4], cases);
    assert g.clauses[5] == Direct && g.clauses[6] == Direct;
    EvidencePasses(g, cases);
  }

  lemma Phase0CanPass(traces: seq<string>, probes: seq<string>, scans: seq<string>, keyword: string,
                      tests: seq<string>, shred: seq<string>, states: seq<string>) returns (cases: seq<Case>)
    requires traces != [] && probes != [] && shred != [] && states != []
    requires |tests| == 2 && '[' !in tests[0] && '[' !in tests[1] && |tests[0]| > 1 && |tests[1]| > 1
    requires forall i :: 0 <= i < |probes| ==> |probes[i]| < |tests[0]| && |probes[i]| < |tests[1]|
    ensures var forgery := Selector(keyword, BaseOneOf(tests), false);
            RunGate(Phase0Of(traces, probes, scans, forgery, shred, states), cases, Passes(7)) == GatePass
  {
    var forgery := Selector(keyword, BaseOneOf(tests), false);
    var front := [Passing(keyword, tests[0]), Passing(keyword, tests[1]),
                  Passing(traces[0], "t"), Passing(shred[0], "t"), Passing(states[0], "t")];
    cases := front + ProbeCases(probes);
    assert AllPassed(front);
    assert cases == [front[0], front[1]] + ([front[2], front[3], front[4]] + ProbeCases(probes));
    ForgeryCount(keyword, tests, [front[2], front[3], front[4]] + ProbeCases(probes));
    ProbesSeen(probes, front);
    BaseNameIs(tests[0]);
    SeenAt(Files(traces), cases, 0, 2);
    SeenAt(Files(scans) + [forgery], cases, |scans|, 0);
    SeenAt(Files(shred), cases, 0, 3);
    SeenAt(Files(states), cases, 0, 4);
    Phase0Passes(traces, probes, scans, forgery, shred, states, cases);
  }

  const LEAK_SKIP: Case := Case(LEAKS, "t", Skipped)

  lemma LeakLetters()
    ensures 'r' !in LEAKS && 'o' !in LEAKS && 'c' !in LEAKS && 'm' !in LEAKS && |LEAKS| == 21
  {
  }

  lemma LeakIsNoTrace(c: Case)
    requires 'r' !in c.classname && 'o' !in c.classname
    ensures !InAny(c, TRACES)
  {
    NotIn(c, TRACES[0], 6);
    NotIn(c, TRACES[1], 5);
  }

  lemma LeakIsNoScan(c: Case)
    requires 'c' !in c.classname && 'r' !in c.classname
    ensures !InAny(c, SCANS)
  {
    NotIn(c, SCANS[0], 6);
    NotIn(c, SCANS[1], 8);
    NotIn(c, SCANS[2], 6);
    NotIn(c, SCANS[3], 8);
  }

  lemma LeakIsNoShredOrState(c: Case)
    requires 'c' !in c.classname && 'm' !in c.classname
    ensures !InAny(c, SHRED) && !InAny(c, STATES)
  {
    NotIn(c, SHRED[0], 5);
    NotIn(c, STATES[0], 11);
  }

  lemma ForgeryNames()
    ensures |FORGERY_TESTS| == 2 && '[' !in FORGERY_TESTS[0] && '[' !in FORGERY_TESTS[1]
    ensures |FORGERY_TESTS[0]| > 20 && |FORGERY_TESTS[1]| > 20
  {
  }

  lemma ProbePrefixes(i: nat)
    requires i < |PROBES|
    ensures |PROBES[i]| == 12
  {
  }

  lemma SkippedLeakIsHidden()
    ensures Hidden(Phase0(), LEAK_SKIP)
  {
    LeakLetters();
    LeakIsNoTrace(LEAK_SKIP);
    LeakIsNoScan(LEAK_SKIP);
    LeakIsNoShredOrState(LEAK_SKIP);
    InEither(LEAK_SKIP, TRACES + SCANS + SHRED, STATES);
    InEither(LEAK_SKIP, TRACES + SCANS, SHRED);
    InEither(LEAK_SKIP, TRACES, SCANS);
    OwnKeyword("t", LEAKS);
    ForgeryNames();
    BaseNameIs(LEAK_SKIP.name);
    forall i: nat | i < |PROBES| ensures !(PROBES[i] <= LEAK_SKIP.name) { ProbePrefixes(i); }
    Phase0HidesExactly(LEAK_SKIP);
  }

  /** A collection with a skipped case that the phase 0 gate passes. */
  lemma Phase0PassesOverASkip() returns (cases: seq<Case>, skip: Case)
    ensures skip in cases && skip.status == Skipped
    ensures RunGate(Phase0(), cases, Passes(7)) == GatePass
  {
    ForgeryNames();
    forall i | 0 <= i < |PROBES| ensures |PROBES[i]| == 12 { ProbePrefixes(i); }
    var base := Phase0CanPass(TRACES, PROBES, SCANS, FORGERY.keyword, FORGERY_TESTS, SHRED, STATES);
    SkippedLeakIsHidden();
    PassesOver(Phase0(), base, LEAK_SKIP);
    cases, skip := base + [LEAK_SKIP], LEAK_SKIP;
  }

  // ----- phase 1 -----

  const WORKING_MEMORY: string := "test_working_memory"

  function Phase1Of(negative: string, render: string, ladder: string, holdout: string): Gate {
    Gate([Pooled([Whole(negative)], FailIfOtherwisePassing), Direct, Pooled([Whole(render)], TakeWorse),
          Pooled([Whole(ladder)], FailIfOtherwisePassing),
          Pooled([Whole(holdout), Selector(WORKING_MEMORY, AnyName, true)], TakeWorse), Direct],
         [negative, render, ladder, holdout, WORKING_MEMORY])
  }

  const NEGATIVE: string := "negative_probes.test_negative_probes"
  const RENDER: string := "test_renderer_property"
  const LADDER: string := "test_degradation_ladder"
  const HOLDOUT: string := "test_holdout"

  function Phase1(): Gate { Phase1Of(NEGATIVE, RENDER, LADDER, HOLDOUT) }

  lemma Phase1Hides(negative: string, render: string, ladder: string, holdout: string, c: Case)
    ensures Hidden(Phase1Of(negative, render, ladder, holdout), c) <==>
              c.status == Skipped && In(c, WORKING_MEMORY) && !InAny(c, [negative, render, ladder, holdout])
  {
    var g, files := Phase1Of(negative, render, ladder, holdout), [negative, render, ladder, holdout];
    var quiet := Selector(WORKING_MEMORY, AnyName, true);
    SingleMatches(Whole(negative), c);
    SingleMatches(Whole(render), c);
    SingleMatches(Whole(ladder), c);
    SingleMatches(Whole(holdout), c);
    SingleMatches(quiet, c);
    AnyOfBoth([Whole(holdout)], [quiet], c);
    assert [Whole(holdout)] + [quiet] == [Whole(holdout), quiet];
    assert InAny(c, files) <==> In(c, negative) || In(c, render) || In(c, ladder) || In(c, holdout) by {
      assert files[0] == negative && files[1] == render && files[2] == ladder && files[3] == holdout;
    }
    assert g.clauses[0].Pooled? && g.clauses[2].Pooled? && g.clauses[3].Pooled? && g.clauses[4].Pooled?;
    assert Covers(g, files, [quiet], c);
    HiddenUnderOneKeyword(g, files, [quiet], WORKING_MEMORY, c);
  }

  /** Phase 1 passes over exactly the skipped working-memory tests that no other clause selects. */
  lemma Phase1HidesExactly(c: Case)
    ensures Hidden(Phase1(), c) <==>
              c.status == Skipped && In(c, WORKING_MEMORY) && !InAny(c, [NEGATIVE, RENDER, LADDER, HOLDOUT])
  {
    Phase1Hides(NEGATIVE, RENDER, LADDER, HOLDOUT, c);
  }

  const WORKING_MEMORY_SKIP: Case := Case(WORKING_MEMORY, "t", Skipped)

  lemma SkippedWorkingMemoryIsHidden()
    ensures Hidden(Phase1(), WORKING_MEMORY_SKIP)
  {
    var files := [NEGATIVE, RENDER, LADDER, HOLDOUT];
    NotIn(WORKING_MEMORY_SKIP, files[0], 0);
    NotIn(WORKING_MEMORY_SKIP, files[1], 0);
    NotIn(WORKING_MEMORY_SKIP, files[2], 0);
    NotIn(WORKING_MEMORY_SKIP, files[3], 5);
    OwnKeyword("t", WORKING_MEMORY);
    Phase1HidesExactly(WORKING_MEMORY_SKIP);
  }

  /** A collection with a skipped case that the phase 1 gate passes. */
  lemma Phase1PassesOverASkip() returns (cases: seq<Case>, skip: Case)
    ensures skip in cases && skip.status == Skipped
    ensures RunGate(Phase1(), cases, Passes(6)) == GatePass
  {
    var base := SamplesPass(Phase1());
    SkippedWorkingMemoryIsHidden();
    PassesOver(Phase1(), base, WORKING_MEMORY_SKIP);
    cases, skip := base + [WORKING_MEMORY_SKIP], WORKING_MEMORY_SKIP;
  }

  // ----- phase 2 -----

  const EXTRACTORS: string := "test_extractors"

  const SCAN_GATE_TESTS: seq<string> := [
    "test_a_note_the_scan_rejects_is_never_written",
    "test_a_scan_rejection_returns_the_run_its_cap_slot",
    "test_the_verdict_handed_to_the_writer_verifies_against_the_written_content",
    "test_undeclared_tool_id_never_reaches_a_note",
    "test_out_of_charset_tool_identity_is_refused_at_read_time",
    "test_a_run_that_declares_no_manifest_yields_no_tier_a_records",
    "test_a_second_run_start_cannot_widen_the_declared_manifest",
    "test_an_oversized_manifest_declares_nothing_rather_than_everything"
  ]

  function Phase2Of(zero: string, names: seq<string>, stale: seq<string>, ttl: string, drift: string): Gate {
    Gate([Pooled([Whole(zero)], TakeWorse), Pooled([Named(EXTRACTORS, names)], TakeWorse),
          Pooled(Files(stale), TakeWorse), Direct, Pooled([Whole(ttl)], TakeWorse),
          Pooled([Whole(drift)], TakeWorse), Direct],
         [zero, EXTRACTORS] + stale + [ttl, drift])
  }

  const ZERO: string := "test_zero_passthrough"
  const STALE: seq<string> := ["test_invalidator", "test_revalidation"]
  const TTL: string := "test_ttl_sweeps"
  const DRIFT: string := "test_baseline_drift"

  function Phase2(): Gate { Phase2Of(ZERO, SCAN_GATE_TESTS, STALE, TTL, DRIFT) }

  lemma Phase2Hides(zero: string, names: seq<string>, stale: seq<string>, ttl: string, drift: string, c: Case)
    ensures Hidden(Phase2Of(zero, names, stale, ttl, drift), c) <==>
              && c.status == Skipped && In(c, EXTRACTORS) && c.name !in names
              && !InAny(c, [zero, ttl, drift] + stale)
  {
    var g, files := Phase2Of(zero, names, stale, ttl, drift), [zero, ttl, drift] + stale;
    var named := Named(EXTRACTORS, names);
    SingleMatches(Whole(zero), c);
    SingleMatches(Whole(ttl), c);
    SingleMatches(Whole(drift), c);
    SingleMatches(named, c);
    FilesSelect(stale, c);
    InEither(c, [zero, ttl, drift], stale);
    assert InAny(c, [zero, ttl, drift]) <==> In(c, zero) || In(c, ttl) || In(c, drift) by {
      var f := [zero, ttl, drift];
      assert f[0] == zero && f[1] == ttl && f[2] == drift;
    }
    assert g.clauses[0].Pooled? && g.clauses[1].Pooled? && g.clauses[2].Pooled?;
    assert g.clauses[4].Pooled? && g.clauses[5].Pooled?;
    assert Covers(g, files, [named], c);
    assert g.tracked[1] == EXTRACTORS;
    HiddenUnderOneKeyword(g, files, [named], EXTRACTORS, c);
  }

  /** Phase 2 passes over exactly the skipped extractor tests outside the eight named ones and every other clause. */
  lemma Phase2HidesExactly(c: Case)
    ensures Hidden(Phase2(), c) <==>
              && c.status == Skipped && In(c, EXTRACTORS) && c.name !in SCAN_GATE_TESTS
              && !InAny(c, [ZERO, TTL, DRIFT] + STALE)
  {
    Phase2Hides(ZERO, SCAN_GATE_TESTS, STALE, TTL, DRIFT, c);
  }

  const EXTRACTORS_SKIP: Case := Case(EXTRACTORS, "t", Skipped)

  lemma SkippedExtractorIsHidden()
    ensures Hidden(Phase2(), EXTRACTORS_SKIP)
  {
    var files := [ZERO, TTL, DRIFT] + STALE;
    NotIn(EXTRACTORS_SKIP, files[0], 0);
    NotIn(EXTRACTORS_SKIP, files[1], 7);
    NotIn(EXTRACTORS_SKIP, files[2], 0);
    NotIn(EXTRACTORS_SKIP, files[3], 0);
    NotIn(EXTRACTORS_SKIP, files[4], 0);
    OwnKeyword("t", EXTRACTORS);
    Phase2HidesExactly(EXTRACTORS_SKIP);
  }

  /** A collection with a skipped case that the phase 2 gate passes. */
  lemma Phase2PassesOverASkip() returns (cases: seq<Case>, skip: Case)
    ensures skip in cases && skip.status == Skipped
    ensures RunGate(Phase2(), cases, Passes(7)) == GatePass
  {
    var base := SamplesPass(Phase2());
    SkippedExtractorIsHidden();
    PassesOver(Phase2(), base, EXTRACTORS_SKIP);
    cases, skip := base + [EXTRACTORS_SKIP], EXTRACTORS_SKIP;
  }

  // ----- phase 3 -----

  const PROMOTION: string := "tests.phase3.test_promotion"
  const SCORER: string := "test_scorer_q_update"
  const PHASE3_SCORER: string := "tests.phase3." + SCORER
  const REDTEAM: string := "redteam.test_redteam"

  const RETIREMENT_TESTS: seq<string> := [
    "test_k_minus_one_principals_routes_to_review_not_retire",
    "test_exactly_k_principals_retires_and_does_not_open_a_review_item"
  ]

  const RETIREMENT_REDTEAM_TESTS: seq<string> := [
    "test_k_minus_one_principals_routes_to_review_queue_not_retire",
    "test_exactly_k_principals_is_the_positive_control_and_does_retire",
    "test_retirement_probe_overall_ok"
  ]

  const SYBIL_TESTS: seq<string> := [
    "test_propose_memory_twice_never_exits_quarantine",
    "test_proposal_class_refuses_even_two_fully_independent_confirmations",
    "test_sybil_probe_overall_ok"
  ]

  const CROSS_EPOCH_TESTS: seq<string> := ["test_a_judge_verdict_from_a_different_epoch_is_refused"]

  function Phase3Of(sybil: seq<string>, retired: seq<string>, redRetired: seq<string>, cross: seq<string>,
                    lift: string, spend: string, epochs: string, dependence: string, loop: string): Gate {
    Gate([Pooled([Whole(SCORER)], TakeWorse), Pooled([Whole(REDTEAM)], TakeWorse),
          Pooled([Named(REDTEAM, sybil)], TakeWorse),
          Pooled([Named(PROMOTION, retired)] + [Named(REDTEAM, redRetired)], TakeWorse),
          Pooled([Whole(lift)], TakeWorse), Pooled([Whole(spend)], TakeWorse),
          Pooled([Whole(epochs)] + [Named(PHASE3_SCORER, cross)], TakeWorse),
          Pooled([Whole(dependence)], TakeWorse), Pooled([Whole(loop)], TakeWorse), Direct],
         [SCORER, REDTEAM, PROMOTION, lift, spend, epochs, dependence])
  }

  const LIFT: string := "tests.phase3.test_lift"
  const SPEND: string := "tests.phase3.test_spend_enforce"
  const EPOCHS: string := "tests.phase3.test_epochs"
  const DEPENDENCE: string := "harness.dependence_test"
  const LOOP: string := "tests.phase3.test_closed_loop_drill"

  function Phase3(): Gate {
    Phase3Of(SYBIL_TESTS, RETIREMENT_TESTS, RETIREMENT_REDTEAM_TESTS, CROSS_EPOCH_TESTS,
             LIFT, SPEND, EPOCHS, DEPENDENCE, LOOP)
  }

  lemma LongerKeyword(s: string, p: string, k: string)
    requires Contains(s, p + k)
    ensures Contains(s, k)
  {
    var i: nat :| OccursAt(s, p + k, i);
    assert s[i + |p|..i + |p| + |k|] == s[i..i + |p + k|][|p|..] == k;
    assert OccursAt(s, k, i + |p|);
  }

  lemma Phase3Selects(sybil: seq<string>, retired: seq<string>, redRetired: seq<string>, cross: seq<string>,
                      lift: string, spend: string, epochs: string, dependence: string, loop: string, c: Case)
    ensures var g := Phase3Of(sybil, retired, redRetired, cross, lift, spend, epochs, dependence, loop);
            Covers(g, [SCORER, REDTEAM, lift, spend, epochs, dependence, loop], [Named(PROMOTION, retired)], c)
  {
    var g := Phase3Of(sybil, retired, redRetired, cross, lift, spend, epochs, dependence, loop);
    var files := [SCORER, REDTEAM, lift, spend, epochs, dependence, loop];
    SingleMatches(Whole(SCORER), c);
    SingleMatches(Whole(REDTEAM), c);
    SingleMatches(Named(REDTEAM, sybil), c);
    SingleMatches(Named(PROMOTION, retired), c);
    SingleMatches(Named(REDTEAM, redRetired), c);
    AnyOfBoth([Named(PROMOTION, retired)], [Named(REDTEAM, redRetired)], c);
    SingleMatches(Whole(lift), c);
    SingleMatches(Whole(spend), c);
    SingleMatches(Whole(epochs), c);
    SingleMatches(Named(PHASE3_SCORER, cross), c);
    AnyOfBoth([Whole(epochs)], [Named(PHASE3_SCORER, cross)], c);
    if Contains(c.classname, PHASE3_SCORER) { LongerKeyword(c.classname, "tests.phase3.", SCORER); }
    SingleMatches(Whole(dependence), c);
    SingleMatches(Whole(loop), c);
    assert InAny(c, files) <==> In(c, SCORER) || In(c, REDTEAM) || In(c, lift) || In(c, spend) || In(c, epochs)
                                || In(c, dependence) || In(c, loop) by {
      assert files[0] == SCORER && files[1] == REDTEAM && files[2] == lift && files[3] == spend;
      assert files[4] == epochs && files[5] == dependence && files[6] == loop;
    }
    assert g.clauses[0].Pooled? && g.clauses[1].Pooled? && g.clauses[2].Pooled? && g.clauses[3].Pooled?;
    assert g.clauses[4].Pooled? && g.clauses[5].Pooled? && g.clauses[6].Pooled? && g.clauses[7].Pooled?;
    assert g.clauses[8].Pooled? && g.clauses[9].Direct?;
  }

  lemma Phase3Hides(sybil: seq<string>, retired: seq<string>, redRetired: seq<string>, cross: seq<string>,
                    lift: string, spend: string, epochs: string, dependence: string, loop: string, c: Case)
    ensures Hidden(Phase3Of(sybil, retired, redRetired, cross, lift, spend, epochs, dependence, loop), c) <==>
              && c.status == Skipped && In(c, PROMOTION) && c.name !in retired
              && !InAny(c, [SCORER, REDTEAM, lift, spend, epochs, dependence, loop])
  {
    var g := Phase3Of(sybil, retired, redRetired, cross, lift, spend, epochs, dependence, loop);
    Phase3Selects(sybil, retired, redRetired, cross, lift, spend, epochs, dependence, loop, c);
    assert g.tracked[2] == PROMOTION;
    SingleMatches(Named(PROMOTION, retired), c);
    HiddenUnderOneKeyword(g, [SCORER, REDTEAM, lift, spend, epochs, dependence, loop],
                          [Named(PROMOTION, retired)], PROMOTION, c);
  }

  /** Phase 3 passes over exactly the skipped promotion tests outside the two named ones and every other clause. */
  lemma Phase3HidesExactly(c: Case)
    ensures Hidden(Phase3(), c) <==>
              && c.status == Skipped && In(c, PROMOTION) && c.name !in RETIREMENT_TESTS
              && !InAny(c, [SCORER, REDTEAM, LIFT, SPEND, EPOCHS, DEPENDENCE, LOOP])
  {
    Phase3Hides(SYBIL_TESTS, RETIREMENT_TESTS, RETIREMENT_REDTEAM_TESTS, CROSS_EPOCH_TESTS,
                LIFT, SPEND, EPOCHS, DEPENDENCE, LOOP, c);
  }

  lemma Phase3CanBeSampled(sybil: seq<string>, retired: seq<string>, redRetired: seq<string>, cross: seq<string>,
                           lift: string, spend: string, epochs: string, dependence: string, loop: string, i: nat)
    requires sybil != [] && retired != [] && i < 10
    ensures CanBeSampled(
              Phase3Of(sybil, retired, redRetired, cross, lift, spend, epochs, dependence, loop).clauses[i])
  {
  }

  const PROMOTION_SKIP: Case := Case(PROMOTION, "t", Skipped)

  lemma PromotionLetters()
    ensures 'c' !in PROMOTION && 'd' !in PROMOTION && 'l' !in PROMOTION && |PROMOTION| == 27
  {
  }

  lemma PromotionIsElsewhere(c: Case)
    requires 'c' !in c.classname && 'd' !in c.classname && 'l' !in c.classname && |c.classname| == 27
    ensures !InAny(c, [SCORER, REDTEAM, LIFT, SPEND, EPOCHS, DEPENDENCE, LOOP])
  {
    NotIn(c, SCORER, 6);
    NotIn(c, REDTEAM, 2);
    NotIn(c, LIFT, 18);
    NotIn(c, SPEND, 0);
    NotIn(c, EPOCHS, 21);
    NotIn(c, DEPENDENCE, 8);
    NotIn(c, LOOP, 0);
  }

  lemma SkippedPromotionIsHidden()
    ensures Hidden(Phase3(), PROMOTION_SKIP)
  {
    PromotionLetters();
    PromotionIsElsewhere(PROMOTION_SKIP);
    OwnKeyword("t", PROMOTION);
    Phase3HidesExactly(PROMOTION_SKIP);
  }

  /** A collection with a skipped case that the phase 3 gate passes. */
  lemma Phase3PassesOverASkip() returns (cases: seq<Case>, skip: Case)
    ensures skip in cases && skip.status == Skipped
    ensures RunGate(Phase3(), cases, Passes(10)) == GatePass
  {
    forall i: nat | i < 10 ensures CanBeSampled(Phase3().clauses[i]) {
      Phase3CanBeSampled(SYBIL_TESTS, RETIREMENT_TESTS, RETIREMENT_REDTEAM_TESTS, CROSS_EPOCH_TESTS,
                         LIFT, SPEND, EPOCHS, DEPENDENCE, LOOP, i);
    }
    var base := SamplesPass(Phase3());
    SkippedPromotionIsHidden();
    PassesOver(Phase3(), base, PROMOTION_SKIP);
    cases, skip := base + [PROMOTION_SKIP], PROMOTION_SKIP;
  }

  // ----- phase 4 -----

  const SQUAT_TESTS: seq<string> := [
    "test_second_committer_cannot_shadow_an_already_committed_key",
    "test_the_same_key_on_two_branches_are_two_independent_entries"
  ]

  const PROPOSAL_TESTS: seq<string> := [
    "test_two_proposals_never_corroborate_each_other_even_as_independent_confirmations",
    "test_a_single_proposal_run_id_can_never_self_corroborate_either"
  ]

  function Phase4Of(contention: string, squat: seq<string>, proposals: seq<string>): Gate {
    Gate([Pooled([Whole(contention)], TakeWorse), Pooled([Named("test_blackboard", squat)], TakeWorse), Direct,
          Pooled([Named("test_agent_control", proposals)], TakeWorse), Direct, Direct],
         [contention])
  }

  function Phase4(): Gate { Phase4Of("test_blackboard_contention", SQUAT_TESTS, PROPOSAL_TESTS) }

  /** Phase 4 passes over nothing: a pass means that every collected case passed. */
  lemma Phase4HidesNothing(contention: string, squat: seq<string>, proposals: seq<string>, c: Case)
    ensures !Hidden(Phase4Of(contention, squat, proposals), c)
  {
    var g := Phase4Of(contention, squat, proposals);
    SingleMatches(Whole(contention), c);
    assert Selects(g.clauses[0], c) <==> In(c, contention);
    assert g.tracked[0] == contention;
    assert Tracked(g, c) ==> In(c, contention);
  }

  lemma Phase4PassMeansAllPassed(cases: seq<Case>, direct: seq<Verdict>)
    requires |direct| == |Phase4().clauses| && RunGate(Phase4(), cases, direct) == GatePass
    ensures forall c :: c in cases ==> c.status == Passed
  {
    PassHidesOnlyHidden(Phase4(), cases, direct);
    forall c | c in cases ensures c.status == Passed {
      Phase4HidesNothing("test_blackboard_contention", SQUAT_TESTS, PROPOSAL_TESTS, c);
    }
  }
}
