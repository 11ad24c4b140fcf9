/** The gate runners: selecting collected cases, tallying them, and the overall verdict. */
module Gates {
  import opened Markers

  datatype Status = Passed | Failed | Errored | Skipped
  datatype Case = Case(classname: string, name: string, status: Status)
  datatype Verdict = PASS | SKIPPED_NO_STACK | INCOMPLETE_DATA | FAIL
  datatype Overall = GatePass | GateIncomplete | GateFail

  ghost predicate Contains(s: string, k: string) {
    exists i: nat :: OccursAt(s, k, i)
  }

  // ----- selecting -----

  datatype Names = AnyName | OneOf(names: seq<string>) | BaseOneOf(bases: seq<string>) | Prefixed(prefix: string)

  function BaseName(name: string): string {
    if name == [] || name[0] == '[' then [] else [name[0]] + BaseName(name[1..])
  }

  predicate NameMatches(n: Names, name: string) {
    match n
    case AnyName => true
    case OneOf(names) => name in names
    case BaseOneOf(bases) => BaseName(name) in bases
    case Prefixed(prefix) => prefix <= name
  }

  /** One selection: a keyword of the class name, a condition on the test name, and whether skips are dropped. */
  datatype Selector = Selector(keyword: string, names: Names, dropSkipped: bool)

  ghost predicate Matches(sel: Selector, c: Case) {
    Contains(c.classname, sel.keyword) && NameMatches(sel.names, c.name) && (sel.dropSkipped ==> c.status != Skipped)
  }

  ghost predicate MatchesAny(sels: seq<Selector>, c: Case) {
    exists i :: 0 <= i < |sels| && Matches(sels[i], c)
  }

  ghost function Selected(sel: Selector, cases: seq<Case>): seq<Case> {
    if cases == [] then []
    else Selected(sel, cases[..|cases|-1]) + (if Matches(sel, cases[|cases|-1]) then [cases[|cases|-1]] else [])
  }

  method ContainsKeyword(s: string, k: string) returns (found: bool)
    ensures found <==> Contains(s, k)
  {
    var i := Index(s, k, 0);
    found := OccursAt(s, k, i);
  }

  method Select(sel: Selector, cases: seq<Case>) returns (out: seq<Case>)
    ensures out == Selected(sel, cases)
  {
    out := [];
    for i := 0 to |cases|
      invariant out == Selected(sel, cases[..i])
    {
      assert cases[..i+1][..i] == cases[..i];
      var found := ContainsKeyword(cases[i].classname, sel.keyword);
      if found && NameMatches(sel.names, cases[i].name) && (sel.dropSkipped ==> cases[i].status != Skipped) {
        out := out + [cases[i]];
      }
    }
    assert cases[..|cases|] == cases;
  }

  lemma {:induction false} SelectedIs(sel: Selector, cases: seq<Case>, c: Case)
    ensures c in Selected(sel, cases) <==> c in cases && Matches(sel, c)
  {
    if cases != [] {
      SelectedIs(sel, cases[..|cases|-1], c);
      assert cases == cases[..|cases|-1] + [cases[|cases|-1]];
    }
  }

  /** A case is selected as often as it was collected, or not at all. */
  lemma {:induction false} SelectedCounts(sel: Selector, cases: seq<Case>, c: Case)
    ensures multiset(Selected(sel, cases))[c] == if Matches(sel, c) then multiset(cases)[c] else 0
  {
    if cases != [] {
      SelectedCounts(sel, cases[..|cases|-1], c);
      assert cases == cases[..|cases|-1] + [cases[|cases|-1]];
    }
  }

  lemma {:induction false} SelectedAppend(sel: Selector, a: seq<Case>, b: seq<Case>)
    ensures Selected(sel, a + b) == Selected(sel, a) + Selected(sel, b)
  {
    if b == [] {
      assert a + b == a;
    } else {
      SelectedAppend(sel, a, b[..|b|-1]);
      assert (a + b)[..|a+b|-1] == a + b[..|b|-1];
    }
  }

  // ----- tallies and verdicts -----

  datatype Tally = Tally(passed: nat, failed: nat, skipped: nat, total: nat)

  function TallyOf(cases: seq<Case>): Tally {
    if cases == [] then Tally(0, 0, 0, 0)
    else
      var t := TallyOf(cases[..|cases|-1]);
      match cases[|cases|-1].status
      case Passed => Tally(t.passed + 1, t.failed, t.skipped, t.total + 1)
      case Failed => Tally(t.passed, t.failed + 1, t.skipped, t.total + 1)
      case Errored => Tally(t.passed, t.failed + 1, t.skipped, t.total + 1)
      case Skipped => Tally(t.passed, t.failed, t.skipped + 1, t.total + 1)
  }

  function TallyVerdict(t: Tally): Verdict {
    if t.total == 0 then INCOMPLETE_DATA
    else if t.failed > 0 then FAIL
    else if t.skipped > 0 then SKIPPED_NO_STACK
    else PASS
  }

  predicate Bad(c: Case) { c.status == Failed || c.status == Errored }

  ghost predicate HasBad(cases: seq<Case>) { exists c :: c in cases && Bad(c) }

  ghost predicate HasSkipped(cases: seq<Case>) { exists c :: c in cases && c.status == Skipped }

  lemma {:induction false} TallySays(cases: seq<Case>)
    ensures var t := TallyOf(cases);
            && t.total == |cases| && t.passed + t.failed + t.skipped == t.total
            && (t.failed > 0 <==> HasBad(cases)) && (t.skipped > 0 <==> HasSkipped(cases))
  {
    if cases != [] {
      var n := |cases| - 1;
      TallySays(cases[..n]);
      OneMoreCase(cases[..n], cases[n]);
      assert cases == cases[..n] + [cases[n]];
    }
  }

  lemma OneMoreCase(cases: seq<Case>, last: Case)
    ensures HasBad(cases + [last]) <==> HasBad(cases) || Bad(last)
    ensures HasSkipped(cases + [last]) <==> HasSkipped(cases) || last.status == Skipped
  {
    var all := cases + [last];
    assert forall c :: c in all <==> c in cases || c == last;
  }

  function Severity(v: Verdict): nat {
    match v
    case PASS => 0
    case SKIPPED_NO_STACK => 1
    case INCOMPLETE_DATA => 2
    case FAIL => 3
  }

  function Worse(a: Verdict, b: Verdict): (v: Verdict)
    ensures Severity(v) >= Severity(a) && Severity(v) >= Severity(b) && (v == a || v == b)
  {
    if Severity(a) >= Severity(b) then a else b
  }

  // ----- clauses -----

  /** How a direct measurement is folded into the verdict of a clause; without one it counts as PASS. */
  datatype Mode = TakeWorse | FailIfOtherwisePassing

  datatype Clause =
    | Direct
    | Pooled(sels: seq<Selector>, mode: Mode)
    | EachOf(each: seq<Selector>)
    | Counted(sels: seq<Selector>, named: Selector, count: nat)

  ghost function Pool(sels: seq<Selector>, cases: seq<Case>): seq<Case> {
    if sels == [] then [] else Pool(sels[..|sels|-1], cases) + Selected(sels[|sels|-1], cases)
  }

  ghost function WorstOf(sels: seq<Selector>, cases: seq<Case>): Verdict
    requires sels != []
  {
    var v := TallyVerdict(TallyOf(Selected(sels[|sels|-1], cases)));
    if |sels| == 1 then v else Worse(WorstOf(sels[..|sels|-1], cases), v)
  }

  function Fold(mode: Mode, t: Verdict, direct: Verdict): Verdict {
    match mode
    case TakeWorse => Worse(t, direct)
    case FailIfOtherwisePassing => if t == PASS && direct != PASS then FAIL else t
  }

  /** The verdict of a clause over the collected cases and its direct measurement. */
  ghost function ClauseVerdict(cl: Clause, cases: seq<Case>, direct: Verdict): Verdict {
    match cl
    case Direct => direct
    case Pooled(sels, mode) => Fold(mode, TallyVerdict(TallyOf(Pool(sels, cases))), direct)
    case EachOf(each) => if each == [] then INCOMPLETE_DATA else WorstOf(each, cases)
    case Counted(sels, named, count) =>
      if |Selected(named, cases)| == count then TallyVerdict(TallyOf(Pool(sels + [named], cases))) else FAIL
  }

  /** A selection is green: some case, and nothing but passed cases. */
  ghost predicate Green(sels: seq<Selector>, cases: seq<Case>) {
    (exists c :: c in cases && MatchesAny(sels, c))
    && forall c :: c in cases && MatchesAny(sels, c) ==> c.status == Passed
  }

  ghost predicate ClauseGreen(cl: Clause, cases: seq<Case>, direct: Verdict) {
    match cl
    case Direct => direct == PASS
    case Pooled(sels, _) => Green(sels, cases) && direct == PASS
    case EachOf(each) => each != [] && forall i :: 0 <= i < |each| ==> Green([each[i]], cases)
    case Counted(sels, named, count) => Green(sels + [named], cases) && |Selected(named, cases)| == count
  }

  lemma {:induction false} PoolIs(sels: seq<Selector>, cases: seq<Case>, c: Case)
    ensures c in Pool(sels, cases) <==> c in cases && MatchesAny(sels, c)
  {
    if sels != [] {
      var n := |sels| - 1;
      PoolIs(sels[..n], cases, c);
      SelectedIs(sels[n], cases, c);
      assert MatchesAny(sels, c) <==> MatchesAny(sels[..n], c) || Matches(sels[n], c) by {
        assert sels == sels[..n] + [sels[n]];
        if MatchesAny(sels[..n], c) {
          var i :| 0 <= i < n && Matches(sels[..n][i], c);
          assert Matches(sels[i], c);
        }
        if MatchesAny(sels, c) && !Matches(sels[n], c) {
          var i :| 0 <= i < |sels| && Matches(sels[i], c);
          assert Matches(sels[..n][i], c);
        }
      }
    }
  }

  ghost predicate SomeSelected(sels: seq<Selector>, cases: seq<Case>) {
    exists c :: c in cases && MatchesAny(sels, c)
  }

  ghost predicate BadSelected(sels: seq<Selector>, cases: seq<Case>) {
    exists c :: c in cases && MatchesAny(sels, c) && Bad(c)
  }

  /** A verdict over the selected cases alone: failed, nothing there, all green, or else something skipped. */
  ghost predicate VerdictOver(v: Verdict, sels: seq<Selector>, cases: seq<Case>) {
    && (v == FAIL <==> BadSelected(sels, cases))
    && (v == INCOMPLETE_DATA <==> !SomeSelected(sels, cases))
    && (v == PASS <==> Green(sels, cases))
  }

  lemma PoolSays(sels: seq<Selector>, cases: seq<Case>)
    ensures VerdictOver(TallyVerdict(TallyOf(Pool(sels, cases))), sels, cases)
  {
    var pool := Pool(sels, cases);
    TallySays(pool);
    forall c ensures c in pool <==> c in cases && MatchesAny(sels, c) {
      PoolIs(sels, cases, c);
    }
    if pool != [] { assert pool[0] in pool; }
  }

  lemma OneSays(sel: Selector, cases: seq<Case>)
    ensures VerdictOver(TallyVerdict(TallyOf(Selected(sel, cases))), [sel], cases)
  {
    PoolSays([sel], cases);
    assert [sel][..0] == [];
    assert Pool([sel], cases) == Pool([], cases) + Selected(sel, cases) == Selected(sel, cases);
  }

  /** The worst of several: failed if one is, else incomplete if one selects nothing, green if all are. */
  ghost predicate WorstOver(v: Verdict, each: seq<Selector>, cases: seq<Case>) {
    && (v == FAIL <==> exists i :: 0 <= i < |each| && BadSelected([each[i]], cases))
    && (v == INCOMPLETE_DATA <==> v != FAIL && exists i :: 0 <= i < |each| && !SomeSelected([each[i]], cases))
    && (v == PASS <==> forall i :: 0 <= i < |each| ==> Green([each[i]], cases))
  }

  lemma {:induction false} WorstSays(sels: seq<Selector>, cases: seq<Case>)
    requires sels != []
    ensures WorstOver(WorstOf(sels, cases), sels, cases)
  {
    var n := |sels| - 1;
    OneSays(sels[n], cases);
    if n > 0 {
      WorstSays(sels[..n], cases);
      OneMoreSelection(sels, cases, WorstOf(sels[..n], cases), TallyVerdict(TallyOf(Selected(sels[n], cases))));
    }
  }

  lemma OneMoreSelection(sels: seq<Selector>, cases: seq<Case>, v: Verdict, w: Verdict)
    requires sels != [] && WorstOver(v, sels[..|sels|-1], cases) && VerdictOver(w, [sels[|sels|-1]], cases)
    ensures WorstOver(Worse(v, w), sels, cases)
  {
    var n := |sels| - 1;
    assert forall i :: 0 <= i < n ==> sels[..n][i] == sels[i];
  }

  /** A direct measurement that decides against the clause, or a counted selection of the wrong size. */
  ghost predicate Broken(cl: Clause, cases: seq<Case>, direct: Verdict) {
    match cl
    case Direct => direct == FAIL
    case Pooled(_, TakeWorse) => direct == FAIL
    case Pooled(sels, FailIfOtherwisePassing) => Green(sels, cases) && direct != PASS
    case EachOf(_) => false
    case Counted(_, named, count) => |Selected(named, cases)| != count
  }

  /** The clause has nothing to look at, or a direct measurement that has not. */
  ghost predicate Lacks(cl: Clause, cases: seq<Case>, direct: Verdict) {
    match cl
    case Direct => direct == INCOMPLETE_DATA
    case Pooled(sels, mode) => !SomeSelected(sels, cases) || (mode == TakeWorse && direct == INCOMPLETE_DATA)
    case EachOf(each) => each == [] || exists i :: 0 <= i < |each| && !SomeSelected([each[i]], cases)
    case Counted(sels, named, _) => !SomeSelected(sels + [named], cases)
  }

  ghost predicate SelectsBad(cl: Clause, cases: seq<Case>) {
    exists c :: c in cases && Selects(cl, c) && Bad(c)
  }

  /** What the verdict of a clause says of the cases: each of the four answers, exactly. */
  ghost predicate ClauseSays(v: Verdict, cl: Clause, cases: seq<Case>, direct: Verdict) {
    && (v == FAIL <==> SelectsBad(cl, cases) || Broken(cl, cases, direct))
    && (v == INCOMPLETE_DATA <==> v != FAIL && Lacks(cl, cases, direct))
    && (v == PASS <==> ClauseGreen(cl, cases, direct))
  }

  lemma ClauseVerdictSays(cl: Clause, cases: seq<Case>, direct: Verdict)
    ensures ClauseSays(ClauseVerdict(cl, cases, direct), cl, cases, direct)
  {
    match cl
    case Direct =>
    case Pooled(sels, _) => PoolSays(sels, cases);
    case EachOf(each) =>
      if each != [] {
        WorstSays(each, cases);
        EachSelects(each, cases);
      }
    case Counted(sels, named, count) => PoolSays(sels + [named], cases);
  }

  lemma EachSelects(each: seq<Selector>, cases: seq<Case>)
    ensures (exists i :: 0 <= i < |each| && BadSelected([each[i]], cases)) <==> BadSelected(each, cases)
  {
    if i :| 0 <= i < |each| && BadSelected([each[i]], cases) {
      var c :| c in cases && MatchesAny([each[i]], c) && Bad(c);
      assert Matches(each[i], c);
    }
    if c :| c in cases && MatchesAny(each, c) && Bad(c) {
      var i :| 0 <= i < |each| && Matches(each[i], c);
      assert Matches([each[i]][0], c);
      assert BadSelected([each[i]], cases);
    }
  }

  lemma ClausePassesIffGreen(cl: Clause, cases: seq<Case>, direct: Verdict)
    ensures ClauseVerdict(cl, cases, direct) == PASS <==> ClauseGreen(cl, cases, direct)
  {
    ClauseVerdictSays(cl, cases, direct);
  }

  // ----- the overall verdict -----

  /** The clauses that gate, and the keywords whose cases count as looked at. */
  datatype Gate = Gate(clauses: seq<Clause>, tracked: seq<string>)

  ghost predicate Tracked(g: Gate, c: Case) {
    exists i :: 0 <= i < |g.tracked| && Contains(c.classname, g.tracked[i])
  }

  ghost predicate UntrackedSkip(g: Gate, c: Case) {
    c.status == Skipped && !Tracked(g, c)
  }

  ghost function VerdictAt(g: Gate, cases: seq<Case>, direct: seq<Verdict>, i: nat): Verdict
    requires i < |g.clauses| == |direct|
  {
    ClauseVerdict(g.clauses[i], cases, direct[i])
  }

  ghost function RunGate(g: Gate, cases: seq<Case>, direct: seq<Verdict>): Overall
    requires |direct| == |g.clauses|
  {
    if (exists i :: 0 <= i < |direct| && VerdictAt(g, cases, direct, i) == FAIL) || TallyOf(cases).failed > 0
    then GateFail
    else if (exists i :: 0 <= i < |direct| && VerdictAt(g, cases, direct, i) != PASS)
            || (exists c :: c in cases && UntrackedSkip(g, c))
    then GateIncomplete
    else GatePass
  }

  ghost predicate Selects(cl: Clause, c: Case) {
    match cl
    case Direct => false
    case Pooled(sels, _) => MatchesAny(sels, c)
    case EachOf(each) => MatchesAny(each, c)
    case Counted(sels, named, _) => MatchesAny(sels + [named], c)
  }

  /** A skipped case that is tracked but that no clause counts. */
  ghost predicate Hidden(g: Gate, c: Case) {
    c.status == Skipped && Tracked(g, c) && forall i :: 0 <= i < |g.clauses| ==> !Selects(g.clauses[i], c)
  }

  lemma PassIff(g: Gate, cases: seq<Case>, direct: seq<Verdict>)
    requires |direct| == |g.clauses|
    ensures RunGate(g, cases, direct) == GatePass <==>
              && (forall i :: 0 <= i < |direct| ==> ClauseGreen(g.clauses[i], cases, direct[i]))
              && (forall c :: c in cases ==> !Bad(c) && !UntrackedSkip(g, c))
  {
    TallySays(cases);
    forall i | 0 <= i < |direct|
      ensures VerdictAt(g, cases, direct, i) == PASS <==> ClauseGreen(g.clauses[i], cases, direct[i])
    {
      ClausePassesIffGreen(g.clauses[i], cases, direct[i]);
    }
  }

  /** The gate fails exactly on a failed or errored case or a broken clause; the rest is incomplete. */
  lemma FailIff(g: Gate, cases: seq<Case>, direct: seq<Verdict>)
    requires |direct| == |g.clauses|
    ensures RunGate(g, cases, direct) == GateFail <==>
              HasBad(cases) || exists i :: 0 <= i < |direct| && Broken(g.clauses[i], cases, direct[i])
  {
    TallySays(cases);
    forall i | 0 <= i < |direct|
      ensures VerdictAt(g, cases, direct, i) == FAIL <==>
                SelectsBad(g.clauses[i], cases) || Broken(g.clauses[i], cases, direct[i])
    {
      ClauseVerdictSays(g.clauses[i], cases, direct[i]);
    }
  }

  lemma GreenSelectsPassed(cl: Clause, cases: seq<Case>, direct: Verdict, c: Case)
    requires ClauseGreen(cl, cases, direct) && c in cases && Selects(cl, c)
    ensures c.status == Passed
  {
    if cl.EachOf? {
      var i :| 0 <= i < |cl.each| && Matches(cl.each[i], c);
      assert Green([cl.each[i]], cases);
      assert Matches([cl.each[i]][0], c);
    }
  }

  /** A passing gate has no failed case, and every skipped case it collected is hidden. */
  lemma PassHidesOnlyHidden(g: Gate, cases: seq<Case>, direct: seq<Verdict>)
    requires |direct| == |g.clauses| && RunGate(g, cases, direct) == GatePass
    ensures forall c :: c in cases ==> c.status == Passed || Hidden(g, c)
  {
    PassIff(g, cases, direct);
    forall c | c in cases && c.status != Passed ensures Hidden(g, c) {
      assert !Bad(c) && !UntrackedSkip(g, c);
      forall i | 0 <= i < |g.clauses| ensures !Selects(g.clauses[i], c) {
        if Selects(g.clauses[i], c) { GreenSelectsPassed(g.clauses[i], cases, direct[i], c); }
      }
    }
  }

  /** Every pytest-backed clause of a passing gate counted at least one case, and it passed. */
  lemma PassHasEvidence(g: Gate, cases: seq<Case>, direct: seq<Verdict>, i: nat) returns (c: Case)
    requires |direct| == |g.clauses| && RunGate(g, cases, direct) == GatePass
    requires i < |g.clauses| && !g.clauses[i].Direct?
    ensures c in cases && Selects(g.clauses[i], c) && c.status == Passed
  {
    PassIff(g, cases, direct);
    var cl := g.clauses[i];
    assert ClauseGreen(cl, cases, direct[i]);
    if cl.EachOf? {
      assert Green([cl.each[0]], cases);
      c :| c in cases && MatchesAny([cl.each[0]], c);
      assert Matches(cl.each[0], c);
    } else if cl.Pooled? {
      c :| c in cases && MatchesAny(cl.sels, c);
    } else {
      c :| c in cases && MatchesAny(cl.sels + [cl.named], c);
    }
  }

  ghost predicate SameBut(cases: seq<Case>, cases': seq<Case>, c: Case) {
    forall x :: x in cases' <==> x in cases || x == c
  }

  lemma GreenWith(sels: seq<Selector>, cases: seq<Case>, cases': seq<Case>, c: Case)
    requires Green(sels, cases) && SameBut(cases, cases', c)
    ensures Green(sels, cases') <==> !MatchesAny(sels, c) || c.status == Passed
  {
    var x :| x in cases && MatchesAny(sels, x);
    assert x in cases';
    assert c in cases';
  }

  lemma SingleMatches(sel: Selector, c: Case)
    ensures MatchesAny([sel], c) <==> Matches(sel, c)
  {
    assert [sel][0] == sel;
  }

  /** Adding one skipped case keeps a clause green exactly when the clause does not select it. */
  lemma ClauseGreenWith(cl: Clause, a: seq<Case>, b: seq<Case>, c: Case, direct: Verdict)
    requires ClauseGreen(cl, a + b, direct) && c.status == Skipped
    ensures ClauseGreen(cl, a + [c] + b, direct) <==> !Selects(cl, c)
  {
    var cases, cases' := a + b, a + [c] + b;
    assert SameBut(cases, cases', c);
    match cl
    case Direct =>
    case Pooled(sels, _) => GreenWith(sels, cases, cases', c);
    case EachOf(each) =>
      forall i | 0 <= i < |each| ensures Green([each[i]], cases') <==> !Matches(each[i], c) {
        GreenWith([each[i]], cases, cases', c);
        SingleMatches(each[i], c);
      }
    case Counted(sels, named, count) =>
      GreenWith(sels + [named], cases, cases', c);
      if !Selects(cl, c) {
        assert !Matches((sels + [named])[|sels|], c);
        SelectedWith(named, a, b, c);
      }
  }

  lemma SelectedWith(sel: Selector, a: seq<Case>, b: seq<Case>, c: Case)
    requires !Matches(sel, c)
    ensures Selected(sel, a + [c] + b) == Selected(sel, a + b)
  {
    SelectedAppend(sel, a + [c], b);
    SelectedAppend(sel, a, b);
    assert (a + [c])[..|a|] == a;
    assert Selected(sel, a + [c]) == Selected(sel, a);
  }

  /** One more skipped case, anywhere in the collection, leaves a pass a pass exactly when it is hidden. */
  lemma SkipSurvivesIffHidden(g: Gate, a: seq<Case>, b: seq<Case>, c: Case, direct: seq<Verdict>)
    requires |direct| == |g.clauses| && RunGate(g, a + b, direct) == GatePass && c.status == Skipped
    ensures RunGate(g, a + [c] + b, direct) == GatePass <==> Hidden(g, c)
  {
    var cases, cases' := a + b, a + [c] + b;
    PassIff(g, cases, direct);
    PassIff(g, cases', direct);
    assert c in cases';
    forall i | 0 <= i < |direct|
      ensures ClauseGreen(g.clauses[i], cases', direct[i]) <==> !Selects(g.clauses[i], c)
    {
      assert ClauseGreen(g.clauses[i], cases, direct[i]);
      ClauseGreenWith(g.clauses[i], a, b, c, direct[i]);
    }
    if Hidden(g, c) {
      forall x | x in cases' ensures !Bad(x) && !UntrackedSkip(g, x) {
        assert x == c || x in cases;
      }
    }
  }

  // ----- the runner -----

  method PoolCases(sels: seq<Selector>, cases: seq<Case>) returns (pool: seq<Case>)
    ensures pool == Pool(sels, cases)
  {
    pool := [];
    for i := 0 to |sels|
      invariant pool == Pool(sels[..i], cases)
    {
      var out := Select(sels[i], cases);
      assert sels[..i+1][..i] == sels[..i];
      pool := pool + out;
    }
    assert sels[..|sels|] == sels;
  }

  method WorstVerdict(each: seq<Selector>, cases: seq<Case>) returns (v: Verdict)
    requires each != []
    ensures v == WorstOf(each, cases)
  {
    var out := Select(each[0], cases);
    v := TallyVerdict(TallyOf(out));
    for i := 1 to |each|
      invariant v == WorstOf(each[..i], cases)
    {
      out := Select(each[i], cases);
      assert each[..i+1][..i] == each[..i];
      v := Worse(v, TallyVerdict(TallyOf(out)));
    }
    assert each[..|each|] == each;
  }

  method JudgeClause(cl: Clause, cases: seq<Case>, direct: Verdict) returns (v: Verdict)
    ensures v == ClauseVerdict(cl, cases, direct) && ClauseSays(v, cl, cases, direct)
  {
    ClauseVerdictSays(cl, cases, direct);
    match cl
    case Direct => v := direct;
    case Pooled(sels, mode) =>
      var pool := PoolCases(sels, cases);
      v := Fold(mode, TallyVerdict(TallyOf(pool)), direct);
    case EachOf(each) =>
      if each == [] { v := INCOMPLETE_DATA; } else { v := WorstVerdict(each, cases); }
    case Counted(sels, named, count) =>
      var pool := PoolCases(sels + [named], cases);
      var found := Select(named, cases);
      v := if |found| == count then TallyVerdict(TallyOf(pool)) else FAIL;
  }

  method HasUntrackedSkip(g: Gate, cases: seq<Case>) returns (found: bool)
    ensures found <==> exists c :: c in cases && UntrackedSkip(g, c)
  {
    for i := 0 to |cases|
      invariant forall j :: 0 <= j < i ==> !UntrackedSkip(g, cases[j])
    {
      if cases[i].status == Skipped {
        var tracked := false;
        for k := 0 to |g.tracked|
          invariant tracked <==> exists j :: 0 <= j < k && Contains(cases[i].classname, g.tracked[j])
        {
          var hit := ContainsKeyword(cases[i].classname, g.tracked[k]);
          tracked := tracked || hit;
        }
        if !tracked {
          assert UntrackedSkip(g, cases[i]);
          return true;
        }
      }
    }
    return false;
  }

  /** One gate run over the collected cases and the direct measurements of its clauses. */
  method Judge(g: Gate, cases: seq<Case>, direct: seq<Verdict>) returns (overall: Overall)
    requires |direct| == |g.clauses|
    ensures overall == RunGate(g, cases, direct)
    ensures overall == GateFail <==>
              HasBad(cases) || exists i :: 0 <= i < |direct| && Broken(g.clauses[i], cases, direct[i])
    ensures overall == GatePass <==>
              && (forall i :: 0 <= i < |direct| ==> ClauseGreen(g.clauses[i], cases, direct[i]))
              && (forall c :: c in cases ==> !Bad(c) && !UntrackedSkip(g, c))
  {
    FailIff(g, cases, direct);
    PassIff(g, cases, direct);
    var failing, lacking := false, false;
    for i := 0 to |direct|
      invariant failing <==> exists j :: 0 <= j < i && VerdictAt(g, cases, direct, j) == FAIL
      invariant lacking <==> exists j :: 0 <= j < i && VerdictAt(g, cases, direct, j) != PASS
    {
      var v := JudgeClause(g.clauses[i], cases, direct[i]);
      assert v == VerdictAt(g, cases, direct, i);
      failing, lacking := failing || v == FAIL, lacking || v != PASS;
    }
    var skips := HasUntrackedSkip(g, cases);
    overall := if failing || TallyOf(cases).failed > 0 then GateFail
               else if lacking || skips then GateIncomplete else GatePass;
  }

  // ----- the full gate -----

  datatype Phase = Crashed | Ran(verdict: Overall)

  function PhaseVerdict(p: Phase): Overall { if p.Crashed? then GateFail else p.verdict }

  function OverallSeverity(v: Overall): nat {
    match v
    case GatePass => 0
    case GateIncomplete => 1
    case GateFail => 2
  }

  /** The weakest phase decides; a crashed runner counts as a failure. */
  method RunFullGate(phases: seq<Phase>) returns (overall: Overall)
    ensures overall == GatePass <==> phases != [] && forall i :: 0 <= i < |phases| ==> phases[i] == Ran(GatePass)
    ensures overall == GateFail <==>
              phases == [] || exists i :: 0 <= i < |phases| && (phases[i].Crashed? || phases[i] == Ran(GateFail))
  {
    if phases == [] { return GateFail; }
    overall := PhaseVerdict(phases[0]);
    for i := 1 to |phases|
      invariant overall == GatePass <==> forall j :: 0 <= j < i ==> PhaseVerdict(phases[j]) == GatePass
      invariant overall == GateFail <==> exists j :: 0 <= j < i && PhaseVerdict(phases[j]) == GateFail
    {
      if OverallSeverity(PhaseVerdict(phases[i])) > OverallSeverity(overall) { overall := PhaseVerdict(phases[i]); }
    }
  }
}
