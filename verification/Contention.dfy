/** The contention drill: what a round makes of the outcomes of a race, and what the summed report says. */
module Contention {
  import opened Blackboard
  import opened Wrappers

  // ----- shared-key rounds -----

  predicate IsOk(o: Outcome) { o.Committed? || o.Converged? }

  predicate IsConflict(o: Outcome) { o.Conflict? }

  predicate IsError(o: Outcome) { !IsOk(o) && !o.Conflict? }

  datatype SharedRound =
    SharedRound(winners: nat, conflicts: nat, errors: nat, hung: bool, consistent: bool)

  /** One committer succeeded, every other lost to exactly that row, and the store still holds it. */
  ghost predicate SoleWinner(results: seq<Outcome>, stored: Option<Row>, w: nat) {
    && w < |results| && IsOk(results[w])
    && stored.Some? && stored.value.value == results[w].row.value
    && forall j :: 0 <= j < |results| && j != w ==>
         results[j] == Conflict(results[w].row.value, results[w].row.author)
  }

  /** Successes, conflicts and errors among the first `k` outcomes. */
  function Counts(results: seq<Outcome>, k: nat): (nat, nat, nat)
    requires k <= |results|
  {
    if k == 0 then (0, 0, 0)
    else
      var t, o := Counts(results, k - 1), results[k-1];
      if IsOk(o) then (t.0 + 1, t.1, t.2) else if o.Conflict? then (t.0, t.1 + 1, t.2) else (t.0, t.1, t.2 + 1)
  }

  ghost function Among(results: seq<Outcome>, k: nat, p: Outcome -> bool): set<nat>
    requires k <= |results|
  {
    set i: nat | i < k && p(results[i])
  }

  lemma {:induction false} CountsAre(results: seq<Outcome>, k: nat)
    requires k <= |results|
    ensures Counts(results, k) == (|Among(results, k, IsOk)|, |Among(results, k, IsConflict)|,
                                   |Among(results, k, IsError)|)
  {
    if k > 0 {
      CountsAre(results, k - 1);
      OneMoreAmong(results, k, IsOk);
      OneMoreAmong(results, k, IsConflict);
      OneMoreAmong(results, k, IsError);
    }
  }

  lemma OneMoreAmong(results: seq<Outcome>, k: nat, p: Outcome -> bool)
    requires 0 < k <= |results|
    ensures |Among(results, k, p)| == |Among(results, k - 1, p)| + (if p(results[k-1]) then 1 else 0)
  {
    var s := Among(results, k - 1, p);
    assert Among(results, k, p) == if p(results[k-1]) then s + {k - 1} else s;
  }

  ghost predicate HasSoleWinner(results: seq<Outcome>, stored: Option<Row>) {
    exists w: nat :: SoleWinner(results, stored, w)
  }

  predicate SharedOk(n: nat, r: SharedRound) {
    r.winners == 1 && r.conflicts + 1 == n && r.errors == 0 && !r.hung && r.consistent
  }

  /**
   The outcomes arrive in any order, and a thread that dies at the barrier hands in none; `stored` is the
   row read back afterwards.
   */
  method SharedKeyRound(n: nat, hung: bool, results: seq<Outcome>, stored: Option<Row>)
    returns (r: SharedRound)
    requires |results| <= n
    ensures hung ==> r == SharedRound(0, 0, n, true, false)
    ensures !hung ==> !r.hung && r.winners == |Among(results, |results|, IsOk)|
                      && r.conflicts == |Among(results, |results|, IsConflict)|
                      && r.errors == |Among(results, |results|, IsError)|
    ensures !hung ==> r.winners + r.conflicts + r.errors == |results|
    ensures r.consistent <==> !hung && HasSoleWinner(results, stored)
    ensures SharedOk(n, r) <==> r.consistent && |results| == n
    ensures SharedShape(n, r)
  {
    if hung {
      r := SharedRound(0, 0, n, true, false);
      return;
    }
    var winners, conflicts, errors := 0, 0, 0;
    var row := Row(Key(0, 0, "", ""), 0, 0);
    ghost var w := 0;
    for i := 0 to |results|
      invariant winners + conflicts + errors == i && (winners, conflicts, errors) == Counts(results, i)
      invariant winners == 0 <==> forall j :: 0 <= j < i ==> !IsOk(results[j])
      invariant winners > 0 ==> w < i && IsOk(results[w]) && row == results[w].row
      invariant winners == 1 ==> forall j :: 0 <= j < i && j != w ==> !IsOk(results[j])
      invariant winners > 1 ==> exists j :: 0 <= j < i && j != w && IsOk(results[j])
      invariant errors == 0 <==> forall j :: 0 <= j < i ==> !IsError(results[j])
    {
      if IsOk(results[i]) {
        if winners == 0 { row, w := results[i].row, i; }
        winners := winners + 1;
      } else if results[i].Conflict? {
        conflicts := conflicts + 1;
      } else {
        errors := errors + 1;
      }
    }
    var consistent := winners == 1 && errors == 0;
    if consistent {
      var agree := forall j :: 0 <= j < |results| && results[j].Conflict? ==>
                     results[j].value == row.value && results[j].author == row.author;
      consistent := agree && stored.Some? && stored.value.value == row.value;
      assert consistent ==> SoleWinner(results, stored, w);
      OnlyOneCanWin(results, stored, w);
    }
    CountsAre(results, |results|);
    r := SharedRound(winners, conflicts, errors, false, consistent);
  }

  lemma OnlyOneCanWin(results: seq<Outcome>, stored: Option<Row>, w: nat)
    requires w < |results| && IsOk(results[w])
    ensures forall v :: SoleWinner(results, stored, v) ==> v == w
  {
  }

  // ----- key-squat rounds -----

  datatype SquatRound =
    SquatRound(shadows: nat, blocked: nat, errors: nat, hung: bool, kept: bool, named: bool)

  /** Every attacker was refused in favour of the legitimate row, which is still the stored one. */
  ghost predicate Repelled(legit: Row, results: seq<Outcome>, stored: Option<Row>) {
    && (forall j :: 0 <= j < |results| ==> results[j].Conflict? && results[j].author == legit.author)
    && stored.Some? && stored.value.value == legit.value && stored.value.author == legit.author
  }

  predicate SquatOk(n: nat, r: SquatRound) {
    r == SquatRound(0, n, 0, false, true, true)
  }

  /** `first` is what the legitimate commit returned, `legit` the row it proposed. */
  method KeySquatRound(n: nat, legit: Row, first: Outcome, hung: bool, results: seq<Outcome>, stored: Option<Row>)
    returns (r: SquatRound)
    requires |results| <= n
    requires first.Committed? ==> first.row == legit
    ensures !first.Committed? ==> r == SquatRound(n, 0, 0, false, false, false)
    ensures first.Committed? && hung ==> r == SquatRound(0, 0, n, true, false, false)
    ensures first.Committed? && !hung ==>
              && !r.hung && r.shadows == |Among(results, |results|, IsOk)|
              && r.blocked == |Among(results, |results|, IsConflict)|
              && r.errors == |Among(results, |results|, IsError)|
              && (r.kept <==> stored.Some? && stored.value.value == legit.value && stored.value.author == legit.author)
              && (r.named <==> forall j :: 0 <= j < |results| && results[j].Conflict? ==>
                                 results[j].author == legit.author)
    ensures SquatOk(n, r) <==> first.Committed? && !hung && |results| == n && Repelled(legit, results, stored)
    ensures SquatShape(n, r)
  {
    if !first.Committed? {
      r := SquatRound(n, 0, 0, false, false, false);
      return;
    }
    if hung {
      r := SquatRound(0, 0, n, true, false, false);
      return;
    }
    var shadows, blocked, errors := 0, 0, 0;
    var named := true;
    for i := 0 to |results|
      invariant shadows + blocked + errors == i && (shadows, blocked, errors) == Counts(results, i)
      invariant blocked == i <==> forall j :: 0 <= j < i ==> results[j].Conflict?
      invariant named <==> forall j :: 0 <= j < i && results[j].Conflict? ==> results[j].author == legit.author
    {
      if IsOk(results[i]) {
        shadows := shadows + 1;
      } else if results[i].Conflict? {
        blocked := blocked + 1;
        named := named && results[i].author == legit.author;
      } else {
        errors := errors + 1;
      }
    }
    var kept := stored.Some? && stored.value.value == legit.value && stored.value.author == legit.author;
    CountsAre(results, |results|);
    r := SquatRound(shadows, blocked, errors, false, kept, named);
  }

  // ----- what the rounds say about runs -----

  /** The order in which the threads hand in their outcomes. */
  ghost predicate Arrival(order: seq<nat>, n: nat) {
    && |order| == n
    && (forall j :: 0 <= j < n ==> order[j] < n)
    && (forall i, j :: 0 <= i < j < n ==> order[i] != order[j])
    && (forall i: nat :: i < n ==> i in order)
  }

  ghost predicate HandedIn(s: State, order: seq<nat>, results: seq<Outcome>)
    requires AllDone(s)
  {
    && Arrival(order, |s.threads|) && |results| == |s.threads|
    && forall j :: 0 <= j < |results| ==> results[j] == OutcomeOf(s, order[j])
  }

  ghost predicate AllCommitTo(s: State, k: Key) {
    forall i :: 0 <= i < |s.threads| ==> s.threads[i].proposal.key == k && Authorised(s.threads[i])
  }

  function Stored(s: State, k: Key): Option<Row> {
    if k in s.rows then Some(s.rows[k]) else None
  }

  ghost predicate SameValueElsewhere(s: State, w: nat)
    requires w < |s.threads|
  {
    exists i: nat :: i < |s.threads| && i != w && s.threads[i].proposal.value == s.threads[w].proposal.value
  }

  ghost predicate DistinctValues(s: State) {
    forall i, j :: 0 <= i < j < |s.threads| ==> s.threads[i].proposal.value != s.threads[j].proposal.value
  }

  /** In one finished race: the round's check passes unless somebody else proposed the winner's value. */
  lemma RacePassesIff(run: seq<State>, k: Key, order: seq<nat>, results: seq<Outcome>) returns (w: nat)
    requires IsRun(run) && AllDone(run[|run|-1]) && run[0].threads != []
    requires AllCommitTo(run[0], k) && k !in run[0].rows
    requires HandedIn(run[|run|-1], order, results)
    ensures WonBy(run[|run|-1], k, w)
    ensures HasSoleWinner(results, Stored(run[|run|-1], k)) <==> !SameValueElsewhere(run[|run|-1], w)
  {
    var s := run[|run|-1];
    RunKeeps(run, |run| - 1);
    w := ExactlyOneWinner(run, 0);
    assert w in order;
    var at: nat :| at < |order| && order[at] == w;
    if SameValueElsewhere(s, w) {
      var i: nat :| i < |s.threads| && i != w && s.threads[i].proposal.value == s.threads[w].proposal.value;
      assert i in order;
      var bt: nat :| bt < |order| && order[bt] == i;
      assert results[bt].Converged? && results[at].Committed?;
      OnlyOneCanWin(results, Stored(s, k), at);
      OnlyOneCanWin(results, Stored(s, k), bt);
    } else {
      forall j | 0 <= j < |results| && j != at
        ensures results[j] == Conflict(results[at].row.value, results[at].row.author)
      {
        assert order[j] != w;
        assert OutcomeOf(s, order[j]) == Resolve(s.threads[order[j]].proposal, Some(s.rows[k]));
      }
      assert SoleWinner(results, Stored(s, k), at);
    }
  }

  /** A finished run from `s`, with the outcomes in some order of arrival. */
  ghost predicate Finished(s: State, run: seq<State>, order: seq<nat>, results: seq<Outcome>) {
    IsRun(run) && run[0] == s && AllDone(run[|run|-1]) && HandedIn(run[|run|-1], order, results)
  }

  ghost predicate EveryRacePasses(s: State, k: Key) {
    forall run: seq<State>, order: seq<nat>, results: seq<Outcome> ::
      Finished(s, run, order, results) ==> HasSoleWinner(results, Stored(run[|run|-1], k))
  }

  lemma InThreadOrder(s: State) returns (order: seq<nat>, results: seq<Outcome>)
    requires AllDone(s)
    ensures HandedIn(s, order, results)
  {
    order := seq(|s.threads|, i => i);
    results := seq(|s.threads|, i requires 0 <= i < |s.threads| => OutcomeOf(s, i));
    forall i: nat | i < |s.threads| ensures i in order { assert order[i] == i; }
  }

  /** Of two equal proposals let one go first: the other converges on its row, and the round counts two winners. */
  lemma EqualProposalsFail(s: State, k: Key, i: nat, j: nat)
      returns (run: seq<State>, order: seq<nat>, results: seq<Outcome>)
    requires Start(s) && AllCommitTo(s, k) && k !in s.rows
    requires i < |s.threads| && j < |s.threads| && i != j
    requires s.threads[i].proposal.value == s.threads[j].proposal.value
    ensures Finished(s, run, order, results) && !HasSoleWinner(results, Stored(run[|run|-1], k))
  {
    run := AnyoneCanWin(s, i);
    var t := run[|run|-1];
    order, results := InThreadOrder(t);
    var w := RacePassesIff(run, k, order, results);
    var v := ExactlyOneWinner(run, i);
    assert v == i && OutcomeOf(t, w).Committed? && w == v;
    assert SameValueElsewhere(t, i);
  }

  /** Every race passes the check, in every interleaving and order of arrival, exactly for distinct proposals. */
  lemma RacesPassIffDistinct(s: State, k: Key)
    requires Start(s) && s.threads != [] && AllCommitTo(s, k) && k !in s.rows
    ensures EveryRacePasses(s, k) <==> DistinctValues(s)
  {
    if DistinctValues(s) {
      forall run: seq<State>, order: seq<nat>, results: seq<Outcome> | Finished(s, run, order, results)
        ensures HasSoleWinner(results, Stored(run[|run|-1], k))
      {
        DistinctRacePasses(s, k, run, order, results);
      }
    } else {
      var i, j :| 0 <= i < j < |s.threads| && s.threads[i].proposal.value == s.threads[j].proposal.value;
      var run, order, results := EqualProposalsFail(s, k, i, j);
    }
  }

  lemma DistinctRacePasses(s: State, k: Key, run: seq<State>, order: seq<nat>, results: seq<Outcome>)
    requires Start(s) && s.threads != [] && AllCommitTo(s, k) && k !in s.rows && DistinctValues(s)
    requires Finished(s, run, order, results)
    ensures HasSoleWinner(results, Stored(run[|run|-1], k))
  {
    var w := RacePassesIff(run, k, order, results);
    RunKeeps(run, |run| - 1);
    var t := run[|run|-1];
    forall i: nat | i < |t.threads| && i != w
      ensures t.threads[i].proposal.value != t.threads[w].proposal.value
    {
      assert t.threads[i].proposal == s.threads[i].proposal && t.threads[w].proposal == s.threads[w].proposal;
    }
  }

  /** Every finished attack on a taken key is repelled, unless an attacker proposed the stored value. */
  lemma AttackIsRepelledIff(run: seq<State>, legit: Row, order: seq<nat>, results: seq<Outcome>)
    requires IsRun(run) && AllDone(run[|run|-1])
    requires AllCommitTo(run[0], legit.key) && legit.key in run[0].rows && run[0].rows[legit.key] == legit
    requires HandedIn(run[|run|-1], order, results)
    ensures Repelled(legit, results, Stored(run[|run|-1], legit.key))
            <==> forall i :: 0 <= i < |run[0].threads| ==> run[0].threads[i].proposal.value != legit.value
  {
    var s := run[|run|-1];
    RunKeeps(run, |run| - 1);
    TakenKeyIsKept(run, legit.key);
    forall j | 0 <= j < |results|
      ensures results[j] == Resolve(s.threads[order[j]].proposal, Some(legit))
    {
      assert results[j] == OutcomeOf(s, order[j]);
    }
    if i :| 0 <= i < |run[0].threads| && run[0].threads[i].proposal.value == legit.value {
      assert i in order;
      var j: nat :| j < |order| && order[j] == i;
      assert results[j].Converged?;
    }
  }

  ghost predicate EveryAttackIsRepelled(s: State, legit: Row) {
    forall run: seq<State>, order: seq<nat>, results: seq<Outcome> ::
      Finished(s, run, order, results) ==> Repelled(legit, results, Stored(run[|run|-1], legit.key))
  }

  /** Every attack is repelled, in every interleaving and order of arrival, exactly if none has the stored value. */
  lemma AttacksAreRepelledIff(s: State, legit: Row)
    requires Start(s) && AllCommitTo(s, legit.key) && legit.key in s.rows && s.rows[legit.key] == legit
    ensures EveryAttackIsRepelled(s, legit)
            <==> forall i :: 0 <= i < |s.threads| ==> s.threads[i].proposal.value != legit.value
  {
    forall run: seq<State>, order: seq<nat>, results: seq<Outcome> | Finished(s, run, order, results)
      ensures Repelled(legit, results, Stored(run[|run|-1], legit.key))
              <==> forall i :: 0 <= i < |s.threads| ==> s.threads[i].proposal.value != legit.value
    {
      AttackIsRepelledIff(run, legit, order, results);
    }
    assert IsRun([s]);
    var run := Finish([s]);
    assert run[0] == [s][0];
    var order, results := InThreadOrder(run[|run|-1]);
    assert Finished(s, run, order, results);
  }

  // ----- the drill as written -----

  /** What the drill proposes: `{"branch": i}`, `{"attacker": i}` and `{"legit": true}`. */
  datatype Document = Branch(i: nat) | Attacker(i: nat) | Legit

  /** Content addresses of different documents differ. */
  ghost predicate CollisionFree(address: Document -> nat) {
    forall a, b :: address(a) == address(b) ==> a == b
  }

  /** A fresh store and `n` committers of one key, each with its own document. */
  ghost predicate IsDrillRace(s: State, k: Key, address: Document -> nat) {
    && Start(s) && s.rows == map[] && s.threads != [] && AllCommitTo(s, k) && CollisionFree(address)
    && forall i :: 0 <= i < |s.threads| ==> s.threads[i].proposal.value == address(Branch(i))
  }

  /** Every round of the drill's race is clean, whatever the interleaving and the order of arrival. */
  method DrillRaceRound(ghost s: State, ghost k: Key, ghost address: Document -> nat, ghost run: seq<State>,
                        ghost order: seq<nat>, n: nat, results: seq<Outcome>, stored: Option<Row>)
    returns (r: SharedRound)
    requires IsDrillRace(s, k, address) && n == |s.threads| && Finished(s, run, order, results)
    requires stored == Stored(run[|run|-1], k)
    ensures SharedOk(n, r)
  {
    DrillValuesAreDistinct(s, k, address);
    DistinctRacePasses(s, k, run, order, results);
    SameSize(run);
    r := SharedKeyRound(n, false, results, stored);
  }

  lemma DrillValuesAreDistinct(s: State, k: Key, address: Document -> nat)
    requires IsDrillRace(s, k, address)
    ensures DistinctValues(s)
  {
    forall i, j | 0 <= i < j < |s.threads|
      ensures s.threads[i].proposal.value != s.threads[j].proposal.value
    {
      assert Branch(i) != Branch(j);
    }
  }

  lemma SameSize(run: seq<State>)
    requires IsRun(run)
    ensures |run[|run|-1].threads| == |run[0].threads|
  {
    RunKeeps(run, |run| - 1);
  }

  /** A lone authorised committer of a free key always lands. */
  lemma LoneCommitLands(run: seq<State>, p: Proposal)
    requires IsRun(run) && AllDone(run[|run|-1]) && |run[0].threads| == 1 && run[0].rows == map[]
    requires run[0].threads[0].proposal == p && Authorised(run[0].threads[0])
    ensures |run[|run|-1].threads| == 1 && OutcomeOf(run[|run|-1], 0) == Committed(RowOf(p))
    ensures run[|run|-1].rows == map[p.key := RowOf(p)]
  {
    SameSize(run);
    RunKeeps(run, |run| - 1);
    var w := ExactlyOneWinner(run, 0);
    var t := run[|run|-1];
    forall k | k in t.rows ensures k == p.key {
      assert HasWinner(t, k);
    }
  }

  /** The legitimate commit into a fresh store, and then the attackers of its key on the store it left. */
  ghost predicate IsDrillAttack(setup: seq<State>, p: Proposal, s: State, address: Document -> nat) {
    && IsRun(setup) && AllDone(setup[|setup|-1]) && |setup[0].threads| == 1 && setup[0].rows == map[]
    && setup[0].threads[0].proposal == p && Authorised(setup[0].threads[0])
    && Start(s) && s.rows == setup[|setup|-1].rows && AllCommitTo(s, p.key)
    && CollisionFree(address) && p.value == address(Legit)
    && forall i :: 0 <= i < |s.threads| ==> s.threads[i].proposal.value == address(Attacker(i))
  }

  lemma DrillAttackIsRepelled(setup: seq<State>, p: Proposal, s: State, address: Document -> nat,
                              run: seq<State>, order: seq<nat>, results: seq<Outcome>)
    requires IsDrillAttack(setup, p, s, address) && Finished(s, run, order, results)
    ensures |setup[|setup|-1].threads| == 1 && OutcomeOf(setup[|setup|-1], 0) == Committed(RowOf(p))
    ensures |results| == |s.threads| && Repelled(RowOf(p), results, Stored(run[|run|-1], p.key))
  {
    LoneCommitLands(setup, p);
    SameSize(run);
    forall i | 0 <= i < |s.threads| ensures s.threads[i].proposal.value != RowOf(p).value {
      assert Attacker(i) != Legit;
    }
    AttackIsRepelledIff(run, RowOf(p), order, results);
  }

  /** Every attack round of the drill is clean, whatever the interleaving and the order of arrival. */
  method DrillAttackRound(ghost setup: seq<State>, ghost s: State, ghost address: Document -> nat,
                          ghost run: seq<State>, ghost order: seq<nat>,
                          n: nat, p: Proposal, first: Outcome, results: seq<Outcome>, stored: Option<Row>)
    returns (r: SquatRound)
    requires IsDrillAttack(setup, p, s, address) && n == |s.threads| && Finished(s, run, order, results)
    requires |setup[|setup|-1].threads| == 1 && first == OutcomeOf(setup[|setup|-1], 0)
    requires stored == Stored(run[|run|-1], p.key)
    ensures SquatOk(n, r)
  {
    DrillAttackIsRepelled(setup, p, s, address, run, order, results);
    r := KeySquatRound(n, RowOf(p), first, false, results, stored);
  }

  // ----- the report -----

  datatype DrillReport = DrillReport(
    rounds: nat, branches: nat, winners: nat, conflicts: nat, errors: nat, inconsistent: nat, hung: nat,
    squatRounds: nat, attackers: nat, shadows: nat, blocked: nat, keptRounds: nat, namedRounds: nat,
    squatErrors: nat)

  predicate ParallelBranchOk(r: DrillReport) {
    r.hung == 0 && r.inconsistent == 0 && r.errors == 0
    && r.winners == r.rounds && r.conflicts == r.rounds * (r.branches - 1)
  }

  predicate KeySquatOk(r: DrillReport) {
    r.squatRounds > 0 && r.shadows == 0 && r.squatErrors == 0
    && r.keptRounds == r.squatRounds && r.namedRounds == r.squatRounds
    && r.blocked == r.squatRounds * r.attackers
  }

  /** What `SharedKeyRound` promises of a round. */
  predicate SharedShape(n: nat, r: SharedRound) {
    r.winners + r.conflicts + r.errors <= n
    && (r.hung ==> !r.consistent) && (r.consistent ==> r.winners == 1 && r.errors == 0)
  }

  predicate SquatShape(n: nat, r: SquatRound) {
    r.shadows + r.blocked + r.errors <= n
  }

  lemma OneMore(k: nat, n: int)
    ensures (k + 1) * n == k * n + n
  {
  }

  /** Winners, conflicts, errors, inconsistent rounds and hung rounds of the first `k` rounds. */
  function SharedTotals(shared: seq<SharedRound>, k: nat): (nat, nat, nat, nat, nat)
    requires k <= |shared|
  {
    if k == 0 then (0, 0, 0, 0, 0)
    else
      var t, r := SharedTotals(shared, k - 1), shared[k-1];
      (t.0 + r.winners, t.1 + r.conflicts, t.2 + r.errors,
       if r.hung || r.consistent then t.3 else t.3 + 1, if r.hung then t.4 + 1 else t.4)
  }

  /** Shadows, blocked attackers, errors, rounds that kept the row and rounds that named its author. */
  function SquatTotals(squat: seq<SquatRound>, k: nat): (nat, nat, nat, nat, nat)
    requires k <= |squat|
  {
    if k == 0 then (0, 0, 0, 0, 0)
    else
      var t, r := SquatTotals(squat, k - 1), squat[k-1];
      (t.0 + r.shadows, t.1 + r.blocked, t.2 + r.errors + (if r.hung then 1 else 0),
       if r.kept then t.3 + 1 else t.3, if r.named then t.4 + 1 else t.4)
  }

  lemma {:induction false} SharedTotalsSay(n: nat, shared: seq<SharedRound>, k: nat)
    requires k <= |shared| && forall i :: 0 <= i < |shared| ==> SharedShape(n, shared[i])
    ensures var t := SharedTotals(shared, k);
            && (t.3 + t.4 == 0 <==> forall i :: 0 <= i < k ==> shared[i].consistent)
            && (t.3 + t.4 == 0 ==> t.0 == k && t.1 <= k * (n - 1) && t.2 == 0)
            && (t.3 + t.4 == 0 ==> (t.1 == k * (n - 1) <==> forall i :: 0 <= i < k ==> shared[i].conflicts + 1 == n))
  {
    if k > 0 {
      SharedTotalsSay(n, shared, k - 1);
      OneMore(k - 1, n - 1);
    }
  }

  /** Hung rounds are not counted as inconsistent ones. */
  lemma {:induction false} BadRoundsAre(shared: seq<SharedRound>, k: nat)
    requires k <= |shared|
    ensures SharedTotals(shared, k).3 == |set i: nat | i < k && !shared[i].hung && !shared[i].consistent|
    ensures SharedTotals(shared, k).4 == |set i: nat | i < k && shared[i].hung|
  {
    if k > 0 {
      BadRoundsAre(shared, k - 1);
      var bad, hung := set i: nat | i < k - 1 && !shared[i].hung && !shared[i].consistent,
                       set i: nat | i < k - 1 && shared[i].hung;
      assert (set i: nat | i < k && !shared[i].hung && !shared[i].consistent)
          == if !shared[k-1].hung && !shared[k-1].consistent then bad + {k - 1} else bad;
      assert (set i: nat | i < k && shared[i].hung) == if shared[k-1].hung then hung + {k - 1} else hung;
    }
  }

  predicate Harmless(r: SquatRound) { r.shadows == 0 && r.errors == 0 && !r.hung }

  lemma {:induction false} SquatCountsSay(m: nat, squat: seq<SquatRound>, k: nat)
    requires k <= |squat| && forall i :: 0 <= i < |squat| ==> SquatShape(m, squat[i])
    ensures var t := SquatTotals(squat, k);
            && (t.0 == t.2 == 0 <==> forall i :: 0 <= i < k ==> Harmless(squat[i]))
            && t.1 <= k * m && (t.1 == k * m <==> forall i :: 0 <= i < k ==> squat[i].blocked == m)
  {
    if k > 0 {
      SquatCountsSay(m, squat, k - 1);
      OneMore(k - 1, m);
    }
  }

  lemma {:induction false} SquatFlagsSay(squat: seq<SquatRound>, k: nat)
    requires k <= |squat|
    ensures var t := SquatTotals(squat, k);
            && t.3 <= k && (t.3 == k <==> forall i :: 0 <= i < k ==> squat[i].kept)
            && t.4 <= k && (t.4 == k <==> forall i :: 0 <= i < k ==> squat[i].named)
  {
    if k > 0 { SquatFlagsSay(squat, k - 1); }
  }

  method SumShared(shared: seq<SharedRound>)
    returns (winners: nat, conflicts: nat, errors: nat, inconsistent: nat, hung: nat)
    ensures (winners, conflicts, errors, inconsistent, hung) == SharedTotals(shared, |shared|)
  {
    winners, conflicts, errors, inconsistent, hung := 0, 0, 0, 0, 0;
    for k := 0 to |shared|
      invariant (winners, conflicts, errors, inconsistent, hung) == SharedTotals(shared, k)
    {
      var r := shared[k];
      winners, conflicts, errors := winners + r.winners, conflicts + r.conflicts, errors + r.errors;
      if r.hung {
        hung := hung + 1;
      } else if !r.consistent {
        inconsistent := inconsistent + 1;
      }
    }
  }

  method SumSquat(squat: seq<SquatRound>)
    returns (shadows: nat, blocked: nat, errors: nat, keptRounds: nat, namedRounds: nat)
    ensures (shadows, blocked, errors, keptRounds, namedRounds) == SquatTotals(squat, |squat|)
  {
    shadows, blocked, errors, keptRounds, namedRounds := 0, 0, 0, 0, 0;
    for k := 0 to |squat|
      invariant (shadows, blocked, errors, keptRounds, namedRounds) == SquatTotals(squat, k)
    {
      var r := squat[k];
      shadows, blocked, errors := shadows + r.shadows, blocked + r.blocked, errors + r.errors;
      if r.hung { errors := errors + 1; }
      if r.kept { keptRounds := keptRounds + 1; }
      if r.named { namedRounds := namedRounds + 1; }
    }
  }

  /** The summed report passes exactly when every single round did. */
  method RunContentionDrill(n: nat, shared: seq<SharedRound>, m: nat, squat: seq<SquatRound>)
    returns (r: DrillReport)
    requires forall i :: 0 <= i < |shared| ==> SharedShape(n, shared[i])
    requires forall i :: 0 <= i < |squat| ==> SquatShape(m, squat[i])
    ensures r.rounds == |shared| && r.branches == n && r.squatRounds == |squat| && r.attackers == m
    ensures r.inconsistent == |set i: nat | i < |shared| && !shared[i].hung && !shared[i].consistent|
    ensures r.hung == |set i: nat | i < |shared| && shared[i].hung|
    ensures (r.winners, r.conflicts, r.errors, r.inconsistent, r.hung) == SharedTotals(shared, |shared|)
    ensures (r.shadows, r.blocked, r.squatErrors, r.keptRounds, r.namedRounds) == SquatTotals(squat, |squat|)
    ensures ParallelBranchOk(r) <==> forall i :: 0 <= i < |shared| ==> SharedOk(n, shared[i])
    ensures KeySquatOk(r) <==> squat != [] && forall i :: 0 <= i < |squat| ==> SquatOk(m, squat[i])
  {
    var winners, conflicts, errors, inconsistent, hung := SumShared(shared);
    var shadows, blocked, squatErrors, keptRounds, namedRounds := SumSquat(squat);
    r := DrillReport(|shared|, n, winners, conflicts, errors, inconsistent, hung,
                     |squat|, m, shadows, blocked, keptRounds, namedRounds, squatErrors);
    SharedTotalsSay(n, shared, |shared|);
    BadRoundsAre(shared, |shared|);
    SquatCountsSay(m, squat, |squat|);
    SquatFlagsSay(squat, |squat|);
    assert forall i :: 0 <= i < |squat| ==>
      (SquatOk(m, squat[i]) <==>
         Harmless(squat[i]) && squat[i].blocked == m && squat[i].kept && squat[i].named);
    assert forall i :: 0 <= i < |shared| ==>
      (SharedOk(n, shared[i]) <==> shared[i].consistent && shared[i].conflicts + 1 == n);
  }
}
