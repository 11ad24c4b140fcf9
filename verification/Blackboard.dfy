/**
 * The blackboard store under contention: any number of committers, each a small-step program over
 * one lock and one row table. A commit inserts under the lock; a loser reads back under the lock.
 */
module Blackboard {
  import opened Wrappers

  /** The primary key of `blackboard_entry`. */
  datatype Key = Key(project: nat, run: nat, branch: string, name: string)

  /** A stored row; `value` is the content address. */
  datatype Row = Row(key: Key, author: nat, value: nat)

  datatype Scope = Scope(project: nat, principal: nat)
  datatype Proposal = Proposal(key: Key, author: nat, value: nat)

  datatype Outcome =
    | Refused
    | Committed(row: Row)
    | Converged(row: Row)
    | Conflict(value: nat, author: nat)
    | Unresolved
    | Misread

  /** What a losing commit makes of the row it reads back. */
  function Resolve(p: Proposal, found: Option<Row>): Outcome {
    match found
    case None => Unresolved
    case Some(r) =>
      if r.key != p.key then Misread
      else if r.value == p.value then Converged(r)
      else Conflict(r.value, r.author)
  }

  datatype Pc =
    | Begin
    | AtInsert
    | Checking
    | Writing
    | Inserted(won: Option<Row>)
    | AtSelect
    | Selecting
    | Selected(found: Option<Row>)
    | Done(outcome: Outcome)

  datatype Thread = Thread(scope: Scope, proposal: Proposal, pc: Pc)
  datatype State = State(lock: Option<nat>, rows: map<Key, Row>, threads: seq<Thread>)

  function RowOf(p: Proposal): Row { Row(p.key, p.author, p.value) }

  predicate Authorised(t: Thread) {
    t.proposal.key.project == t.scope.project && t.proposal.author == t.scope.principal
  }

  predicate Holding(pc: Pc) {
    pc.Checking? || pc.Writing? || pc.Inserted? || pc.Selecting? || pc.Selected?
  }

  function Move(s: State, i: nat, pc: Pc): State
    requires i < |s.threads|
  {
    s.(threads := s.threads[i := s.threads[i].(pc := pc)])
  }

  /** A scan of the table for one key: any matching row, or nothing when none matches. */
  ghost predicate Selects(rows: map<Key, Row>, k: Key, found: Option<Row>) {
    match found
    case None => forall j :: j in rows ==> rows[j].key != k
    case Some(r) => r.key == k && exists j :: j in rows && rows[j] == r
  }

  /** One atomic step of thread `i`. */
  ghost predicate Step(s: State, t: State, i: nat)
    requires i < |s.threads|
  {
    var p := s.threads[i].proposal;
    match s.threads[i].pc
    case Begin => t == Move(s, i, if Authorised(s.threads[i]) then AtInsert else Done(Refused))
    case AtInsert => s.lock == None && t == Move(s, i, Checking).(lock := Some(i))
    case Checking => t == Move(s, i, if p.key in s.rows then Inserted(None) else Writing)
    case Writing => t == Move(s, i, Inserted(Some(RowOf(p)))).(rows := s.rows[p.key := RowOf(p)])
    case Inserted(won) =>
      t == Move(s, i, if won.Some? then Done(Committed(won.value)) else AtSelect).(lock := None)
    case AtSelect => s.lock == None && t == Move(s, i, Selecting).(lock := Some(i))
    case Selecting => exists found :: Selects(s.rows, p.key, found) && t == Move(s, i, Selected(found))
    case Selected(found) => t == Move(s, i, Done(Resolve(p, found))).(lock := None)
    case Done(_) => false
  }

  ghost predicate Next(s: State, t: State) {
    exists i: nat :: i < |s.threads| && Step(s, t, i)
  }

  ghost predicate KeyedRows(rows: map<Key, Row>) {
    forall k :: k in rows ==> rows[k].key == k
  }

  ghost predicate Start(s: State) {
    s.lock == None && KeyedRows(s.rows) && forall i :: 0 <= i < |s.threads| ==> s.threads[i].pc == Begin
  }

  /** A run: any interleaving of steps from a start state. */
  ghost predicate IsRun(run: seq<State>) {
    run != [] && Start(run[0]) && forall k :: 0 <= k < |run| - 1 ==> Next(run[k], run[k+1])
  }

  predicate AllDone(s: State) {
    forall i :: 0 <= i < |s.threads| ==> s.threads[i].pc.Done?
  }

  // ----- the invariant -----

  predicate Won(t: Thread) {
    (t.pc.Inserted? && t.pc.won.Some?) || (t.pc.Done? && t.pc.outcome.Committed?)
  }

  ghost predicate ThreadOk(before: map<Key, Row>, rows: map<Key, Row>, t: Thread) {
    var k := t.proposal.key;
    && (Won(t) ==> Authorised(t) && k !in before && k in rows && rows[k] == RowOf(t.proposal))
    && (t.pc.Writing? ==> k !in rows)
    && ((t.pc.Inserted? && t.pc.won == None) || t.pc.AtSelect? || t.pc.Selecting? || t.pc.Selected? ==> k in rows)
    && (t.pc.Selected? ==> t.pc.found == Some(rows[k]))
    && (!t.pc.Begin? && t.pc != Done(Refused) ==> Authorised(t))
    && (t.pc.Inserted? && t.pc.won.Some? ==> t.pc.won.value == RowOf(t.proposal))
    && (t.pc.Done? ==> DoneOk(rows, t))
  }

  ghost predicate DoneOk(rows: map<Key, Row>, t: Thread)
    requires t.pc.Done?
  {
    var k := t.proposal.key;
    if !Authorised(t) then t.pc.outcome == Refused
    else k in rows && (t.pc.outcome == Committed(rows[k]) || t.pc.outcome == Resolve(t.proposal, Some(rows[k])))
  }

  ghost predicate Winner(s: State, k: Key, i: nat) {
    i < |s.threads| && Won(s.threads[i]) && s.threads[i].proposal.key == k
  }

  ghost predicate HasWinner(s: State, k: Key) {
    exists i: nat :: Winner(s, k, i)
  }

  ghost predicate Grows(rows: map<Key, Row>, rows': map<Key, Row>) {
    forall k :: k in rows ==> k in rows' && rows'[k] == rows[k]
  }

  /** Rows are only added, and every added row has exactly one thread that won it. */
  ghost predicate Invariant(before: map<Key, Row>, s: State) {
    && (s.lock.Some? ==> s.lock.value < |s.threads|)
    && (forall i :: 0 <= i < |s.threads| ==> (Holding(s.threads[i].pc) <==> s.lock == Some(i)))
    && KeyedRows(s.rows)
    && Grows(before, s.rows)
    && (forall i :: 0 <= i < |s.threads| ==> ThreadOk(before, s.rows, s.threads[i]))
    && (forall k :: k in s.rows && k !in before ==> HasWinner(s, k))
    && (forall k, i, j :: Winner(s, k, i) && Winner(s, k, j) ==> i == j)
  }

  ghost predicate SameJob(s: State, t: State) {
    |t.threads| == |s.threads|
    && forall i :: 0 <= i < |s.threads| ==>
         t.threads[i].proposal == s.threads[i].proposal && t.threads[i].scope == s.threads[i].scope
  }

  /** What a step leaves alone. */
  ghost predicate Local(s: State, t: State, i: nat)
    requires i < |s.threads|
  {
    && SameJob(s, t)
    && (forall j :: 0 <= j < |s.threads| && j != i ==> t.threads[j] == s.threads[j])
    && t.rows == if s.threads[i].pc.Writing?
                 then s.rows[s.threads[i].proposal.key := RowOf(s.threads[i].proposal)] else s.rows
  }

  lemma StepIsLocal(s: State, t: State, i: nat)
    requires i < |s.threads| && Step(s, t, i)
    ensures Local(s, t, i)
    ensures Won(s.threads[i]) ==> Won(t.threads[i])
    ensures Won(t.threads[i]) ==> Won(s.threads[i]) || s.threads[i].pc.Writing?
    ensures t.rows != s.rows ==> Won(t.threads[i])
  {
  }

  lemma StepKeepsLock(s: State, t: State, i: nat)
    requires i < |s.threads| && Step(s, t, i)
    requires forall j :: 0 <= j < |s.threads| ==> (Holding(s.threads[j].pc) <==> s.lock == Some(j))
    requires s.lock.Some? ==> s.lock.value < |s.threads|
    ensures forall j :: 0 <= j < |t.threads| ==> (Holding(t.threads[j].pc) <==> t.lock == Some(j))
    ensures t.lock.Some? ==> t.lock.value < |t.threads|
  {
    assert Holding(s.threads[i].pc) <==> s.lock == Some(i);
  }

  lemma ScanFindsTheRow(rows: map<Key, Row>, k: Key, found: Option<Row>)
    requires KeyedRows(rows) && k in rows && Selects(rows, k, found)
    ensures found == Some(rows[k])
  {
  }

  lemma StepKeepsMover(before: map<Key, Row>, s: State, t: State, i: nat)
    requires i < |s.threads| && Step(s, t, i) && KeyedRows(s.rows) && Grows(before, s.rows)
    requires ThreadOk(before, s.rows, s.threads[i])
    ensures ThreadOk(before, t.rows, t.threads[i])
  {
    var p := s.threads[i].proposal;
    if s.threads[i].pc.Selecting? {
      var found :| Selects(s.rows, p.key, found) && t == Move(s, i, Selected(found));
      ScanFindsTheRow(s.rows, p.key, found);
    }
  }

  /** The thread holding the lock is the only one that can be about to write. */
  lemma StepKeepsOthers(before: map<Key, Row>, s: State, t: State, i: nat, j: nat)
    requires Invariant(before, s) && i < |s.threads| && Local(s, t, i) && j < |s.threads| && j != i
    ensures ThreadOk(before, t.rows, t.threads[j])
  {
    assert ThreadOk(before, s.rows, s.threads[j]) && ThreadOk(before, s.rows, s.threads[i]);
    assert Holding(s.threads[i].pc) <==> s.lock == Some(i);
    assert Holding(s.threads[j].pc) <==> s.lock == Some(j);
  }

  lemma StepKeepsWinners(before: map<Key, Row>, s: State, t: State, i: nat)
    requires Invariant(before, s) && i < |s.threads| && Step(s, t, i) && Local(s, t, i)
    ensures forall k :: k in t.rows && k !in before ==> HasWinner(t, k)
    ensures forall k, a, b :: Winner(t, k, a) && Winner(t, k, b) ==> a == b
  {
    StepIsLocal(s, t, i);
    forall k | k in t.rows && k !in before ensures HasWinner(t, k) {
      if k in s.rows {
        assert HasWinner(s, k);
        var w: nat :| Winner(s, k, w);
        assert Winner(t, k, w);
      } else {
        assert Winner(t, k, i);
      }
    }
    forall k, a, b | Winner(t, k, a) && Winner(t, k, b) ensures a == b {
      WinnerWasThere(before, s, t, i, k, a);
      WinnerWasThere(before, s, t, i, k, b);
    }
  }

  lemma WinnerWasThere(before: map<Key, Row>, s: State, t: State, i: nat, k: Key, w: nat)
    requires Invariant(before, s) && i < |s.threads| && Step(s, t, i) && Winner(t, k, w)
    ensures Winner(s, k, w) || (w == i && k !in s.rows)
    ensures Winner(s, k, w) ==> k in s.rows
  {
    StepIsLocal(s, t, i);
    assert ThreadOk(before, s.rows, s.threads[w]);
  }

  lemma StepKeepsThreads(before: map<Key, Row>, s: State, t: State, i: nat)
    requires Invariant(before, s) && i < |s.threads| && Step(s, t, i) && Local(s, t, i)
    ensures forall j :: 0 <= j < |t.threads| ==> ThreadOk(before, t.rows, t.threads[j])
    ensures KeyedRows(t.rows) && Grows(s.rows, t.rows) && Grows(before, t.rows)
  {
    assert ThreadOk(before, s.rows, s.threads[i]);
    StepKeepsMover(before, s, t, i);
    forall j | 0 <= j < |t.threads| ensures ThreadOk(before, t.rows, t.threads[j]) {
      if j != i { StepKeepsOthers(before, s, t, i, j); }
    }
  }

  /** Every step of every thread keeps the invariant, and no step changes or removes a row. */
  lemma StepKeeps(before: map<Key, Row>, s: State, t: State, i: nat)
    requires Invariant(before, s) && i < |s.threads| && Step(s, t, i)
    ensures Invariant(before, t) && Grows(s.rows, t.rows) && SameJob(s, t)
  {
    StepIsLocal(s, t, i);
    StepKeepsLock(s, t, i);
    StepKeepsThreads(before, s, t, i);
    StepKeepsWinners(before, s, t, i);
  }

  lemma {:induction false} RunKeeps(run: seq<State>, k: nat)
    requires IsRun(run) && k < |run|
    ensures Invariant(run[0].rows, run[k]) && SameJob(run[0], run[k])
  {
    if k > 0 {
      RunKeeps(run, k - 1);
      assert Next(run[k-1], run[k-1+1]);
      var i: nat :| i < |run[k-1].threads| && Step(run[k-1], run[k], i);
      StepKeeps(run[0].rows, run[k-1], run[k], i);
    }
  }

  /** Once written, a row is the same in every later state of the run. */
  lemma {:induction false} RowsNeverChange(run: seq<State>, j: nat, k: nat)
    requires IsRun(run) && j <= k < |run|
    ensures Grows(run[j].rows, run[k].rows)
  {
    if j < k {
      RowsNeverChange(run, j, k - 1);
      RunKeeps(run, k - 1);
      assert Next(run[k-1], run[k-1+1]);
      NextGrows(run[0].rows, run[k-1], run[k]);
    }
  }

  lemma NextGrows(before: map<Key, Row>, s: State, t: State)
    requires Invariant(before, s) && Next(s, t)
    ensures Grows(s.rows, t.rows)
  {
    var i: nat :| i < |s.threads| && Step(s, t, i);
    StepKeeps(before, s, t, i);
  }

  // ----- no thread hangs -----

  function Work(pc: Pc): nat {
    match pc
    case Begin => 8
    case AtInsert => 7
    case Checking => 6
    case Writing => 5
    case Inserted(_) => 4
    case AtSelect => 3
    case Selecting => 2
    case Selected(_) => 1
    case Done(_) => 0
  }

  function TotalWork(threads: seq<Thread>): nat {
    if threads == [] then 0 else TotalWork(threads[..|threads|-1]) + Work(threads[|threads|-1].pc)
  }

  lemma {:induction false} WorkChanges(threads: seq<Thread>, i: nat, t: Thread)
    requires i < |threads|
    ensures TotalWork(threads[i := t]) == TotalWork(threads) - Work(threads[i].pc) + Work(t.pc)
  {
    var n := |threads| - 1;
    if i == n {
      assert threads[i := t][..n] == threads[..n];
    } else {
      WorkChanges(threads[..n], i, t);
      assert threads[i := t][..n] == threads[..n][i := t];
    }
  }

  lemma {:induction false} WorkBound(threads: seq<Thread>)
    ensures TotalWork(threads) <= 8 * |threads|
  {
    if threads != [] { WorkBound(threads[..|threads|-1]); }
  }

  lemma StepWorks(s: State, t: State, i: nat)
    requires i < |s.threads| && Step(s, t, i)
    ensures TotalWork(t.threads) < TotalWork(s.threads)
  {
    assert t.threads == s.threads[i := t.threads[i]];
    WorkChanges(s.threads, i, t.threads[i]);
  }

  lemma {:induction false} WorkLeft(run: seq<State>, k: nat)
    requires IsRun(run) && k < |run|
    ensures k + TotalWork(run[k].threads) <= TotalWork(run[0].threads)
  {
    if k > 0 {
      WorkLeft(run, k - 1);
      assert Next(run[k-1], run[k-1+1]);
      var i: nat :| i < |run[k-1].threads| && Step(run[k-1], run[k], i);
      StepWorks(run[k-1], run[k], i);
    }
  }

  /** No run takes more than eight steps per committer. */
  lemma RunsAreShort(run: seq<State>)
    requires IsRun(run)
    ensures |run| <= 8 * |run[0].threads| + 1
  {
    WorkLeft(run, |run| - 1);
    WorkBound(run[0].threads);
  }

  lemma EnabledStep(s: State, i: nat) returns (t: State)
    requires i < |s.threads| && !s.threads[i].pc.Done?
    requires s.lock == None || Holding(s.threads[i].pc)
    ensures Step(s, t, i)
  {
    var p := s.threads[i].proposal;
    match s.threads[i].pc
    case Begin => t := Move(s, i, if Authorised(s.threads[i]) then AtInsert else Done(Refused));
    case AtInsert => t := Move(s, i, Checking).(lock := Some(i));
    case Checking => t := Move(s, i, if p.key in s.rows then Inserted(None) else Writing);
    case Writing => t := Move(s, i, Inserted(Some(RowOf(p)))).(rows := s.rows[p.key := RowOf(p)]);
    case Inserted(won) =>
      t := Move(s, i, if won.Some? then Done(Committed(won.value)) else AtSelect).(lock := None);
    case AtSelect => t := Move(s, i, Selecting).(lock := Some(i));
    case Selecting =>
      var found := None;
      if k :| k in s.rows && s.rows[k].key == p.key { found := Some(s.rows[k]); }
      assert Selects(s.rows, p.key, found);
      t := Move(s, i, Selected(found));
    case Selected(found) => t := Move(s, i, Done(Resolve(p, found))).(lock := None);
  }

  /** A reachable state in which some thread is not done always has a next step: no deadlock. */
  lemma NoDeadlock(run: seq<State>) returns (next: State)
    requires IsRun(run) && !AllDone(run[|run|-1])
    ensures Next(run[|run|-1], next) && IsRun(run + [next])
  {
    var s := run[|run|-1];
    RunKeeps(run, |run| - 1);
    var i: nat :| i < |s.threads| && !s.threads[i].pc.Done?;
    var j := if s.lock.Some? then s.lock.value else i;
    assert s.lock.Some? ==> Holding(s.threads[j].pc);
    next := EnabledStep(s, j);
    assert Next(s, next);
    Extend(run, next);
  }

  lemma Extend(run: seq<State>, next: State)
    requires IsRun(run) && Next(run[|run|-1], next)
    ensures IsRun(run + [next])
  {
    var longer := run + [next];
    forall k | 0 <= k < |longer| - 1 ensures Next(longer[k], longer[k+1]) {
      assert k < |run| - 1 ==> Next(run[k], run[k+1]);
    }
  }

  /** Every run can be finished. */
  lemma {:induction false} Finish(run: seq<State>) returns (longer: seq<State>)
    requires IsRun(run)
    ensures IsRun(longer) && run <= longer && AllDone(longer[|longer|-1])
    decreases 8 * |run[0].threads| + 2 - |run|
  {
    RunsAreShort(run);
    if AllDone(run[|run|-1]) {
      longer := run;
    } else {
      var next := NoDeadlock(run);
      RunsAreShort(run + [next]);
      longer := Finish(run + [next]);
    }
  }

  /** Nobody but `i` has moved. */
  ghost predicate Solo(s: State, i: nat) {
    forall j :: 0 <= j < |s.threads| && j != i ==> s.threads[j].pc == Begin
  }

  lemma {:induction false} GoAlone(run: seq<State>, i: nat) returns (longer: seq<State>)
    requires IsRun(run) && i < |run[|run|-1].threads| && Solo(run[|run|-1], i)
    ensures IsRun(longer) && run <= longer && |longer[|longer|-1].threads| == |run[|run|-1].threads|
    ensures Solo(longer[|longer|-1], i) && longer[|longer|-1].threads[i].pc.Done?
    decreases Work(run[|run|-1].threads[i].pc)
  {
    var s := run[|run|-1];
    if s.threads[i].pc.Done? {
      longer := run;
    } else {
      RunKeeps(run, |run| - 1);
      assert s.lock.Some? ==> Holding(s.threads[s.lock.value].pc);
      var next := EnabledStep(s, i);
      StepIsLocal(s, next, i);
      StepAdvances(s, next, i);
      assert Next(s, next);
      Extend(run, next);
      longer := GoAlone(run + [next], i);
    }
  }

  lemma StepAdvances(s: State, t: State, i: nat)
    requires i < |s.threads| && Step(s, t, i)
    ensures |t.threads| == |s.threads| && Work(t.threads[i].pc) < Work(s.threads[i].pc)
  {
  }

  /** A committer that has finished does not change any more. */
  lemma {:induction false} DoneStays(run: seq<State>, j: nat, k: nat, i: nat)
    requires IsRun(run) && j <= k < |run| && i < |run[j].threads| && run[j].threads[i].pc.Done?
    ensures i < |run[k].threads| && run[k].threads[i] == run[j].threads[i]
  {
    if j < k {
      DoneStays(run, j, k - 1, i);
      assert Next(run[k-1], run[k-1+1]);
      NextKeepsDone(run[k-1], run[k], i);
    }
  }

  lemma NextKeepsDone(s: State, t: State, i: nat)
    requires Next(s, t) && i < |s.threads| && s.threads[i].pc.Done?
    ensures i < |t.threads| && t.threads[i] == s.threads[i]
  {
    var m: nat :| m < |s.threads| && Step(s, t, m);
    StepIsLocal(s, t, m);
  }

  /** Any authorised committer of a free key can be the winner: some finished run lets it go first. */
  lemma AnyoneCanWin(s: State, i: nat) returns (run: seq<State>)
    requires Start(s) && i < |s.threads| && Authorised(s.threads[i]) && s.threads[i].proposal.key !in s.rows
    ensures IsRun(run) && run[0] == s && AllDone(run[|run|-1]) && SameJob(s, run[|run|-1])
    ensures run[|run|-1].threads[i].pc.outcome.Committed?
  {
    assert IsRun([s]);
    var first := GoAlone([s], i);
    var t, k := first[|first|-1], s.threads[i].proposal.key;
    assert first[0] == [s][0];
    RunKeeps(first, |first| - 1);
    assert ThreadOk(s.rows, t.rows, t.threads[i]);
    assert HasWinner(t, k);
    var w: nat :| Winner(t, k, w);
    run := Finish(first);
    assert run[0] == first[0] && run[|first|-1] == t;
    DoneStays(run, |first| - 1, |run| - 1, i);
    RunKeeps(run, |run| - 1);
  }

  // ----- what every finished run says -----

  function OutcomeOf(s: State, i: nat): Outcome
    requires i < |s.threads| && AllDone(s)
  {
    s.threads[i].pc.outcome
  }

  /** The key was free: one committer won it, and every other was answered from its row. */
  ghost predicate WonBy(s: State, k: Key, w: nat)
    requires AllDone(s)
  {
    && w < |s.threads| && s.threads[w].proposal.key == k && Authorised(s.threads[w])
    && k in s.rows && s.rows[k] == RowOf(s.threads[w].proposal)
    && OutcomeOf(s, w) == Committed(s.rows[k])
    && forall i: nat :: i < |s.threads| && i != w && s.threads[i].proposal.key == k && Authorised(s.threads[i]) ==>
         OutcomeOf(s, i) == Resolve(s.threads[i].proposal, Some(s.rows[k]))
  }

  /** The key was taken: nobody wins, everyone is answered from the earlier row, which is still there. */
  ghost predicate KeptBy(s: State, row: Row)
    requires AllDone(s)
  {
    && row.key in s.rows && s.rows[row.key] == row
    && forall i: nat :: i < |s.threads| && s.threads[i].proposal.key == row.key && Authorised(s.threads[i]) ==>
         OutcomeOf(s, i) == Resolve(s.threads[i].proposal, Some(row))
  }

  /** A free key that anyone authorised commits to ends with exactly one winner. */
  lemma ExactlyOneWinner(run: seq<State>, i: nat) returns (w: nat)
    requires IsRun(run) && AllDone(run[|run|-1])
    requires i < |run[0].threads| && Authorised(run[0].threads[i])
    requires run[0].threads[i].proposal.key !in run[0].rows
    ensures WonBy(run[|run|-1], run[0].threads[i].proposal.key, w)
    ensures var s := run[|run|-1];
            forall v: nat :: v < |s.threads| && s.threads[v].proposal.key == run[0].threads[i].proposal.key ==>
              (OutcomeOf(s, v).Committed? <==> v == w)
  {
    var s, k := run[|run|-1], run[0].threads[i].proposal.key;
    RunKeeps(run, |run| - 1);
    assert ThreadOk(run[0].rows, s.rows, s.threads[i]);
    assert HasWinner(s, k);
    w :| Winner(s, k, w);
    assert ThreadOk(run[0].rows, s.rows, s.threads[w]);
    forall j: nat | j < |s.threads| && j != w && s.threads[j].proposal.key == k && Authorised(s.threads[j])
      ensures OutcomeOf(s, j) == Resolve(s.threads[j].proposal, Some(s.rows[k]))
    {
      assert ThreadOk(run[0].rows, s.rows, s.threads[j]);
      assert !Winner(s, k, j);
    }
    forall v: nat | v < |s.threads| && s.threads[v].proposal.key == k && OutcomeOf(s, v).Committed?
      ensures v == w
    {
      assert Winner(s, k, v);
    }
  }

  /** A key committed beforehand is never won again and never changes. */
  lemma TakenKeyIsKept(run: seq<State>, k: Key)
    requires IsRun(run) && AllDone(run[|run|-1]) && k in run[0].rows
    ensures KeptBy(run[|run|-1], run[0].rows[k])
  {
    var s := run[|run|-1];
    RunKeeps(run, |run| - 1);
    forall i: nat | i < |s.threads| && s.threads[i].proposal.key == k && Authorised(s.threads[i])
      ensures OutcomeOf(s, i) == Resolve(s.threads[i].proposal, Some(s.rows[k]))
    {
      assert ThreadOk(run[0].rows, s.rows, s.threads[i]);
    }
  }

  /** No run stores a row under a name its committer is not authenticated as; a forged proposal is refused. */
  lemma NoForgedRow(run: seq<State>, k: Key)
    requires IsRun(run) && AllDone(run[|run|-1])
    ensures SameJob(run[0], run[|run|-1])
    ensures forall i: nat :: i < |run[0].threads| && !Authorised(run[0].threads[i]) ==>
              OutcomeOf(run[|run|-1], i) == Refused
    ensures k in run[|run|-1].rows && k !in run[0].rows ==>
              exists i: nat :: i < |run[0].threads| && run[0].threads[i].proposal.key == k
                && run[|run|-1].rows[k].author == run[0].threads[i].scope.principal
                && k.project == run[0].threads[i].scope.project
  {
    var s := run[|run|-1];
    RunKeeps(run, |run| - 1);
    forall i: nat | i < |run[0].threads| && !Authorised(run[0].threads[i]) ensures OutcomeOf(s, i) == Refused {
      assert ThreadOk(run[0].rows, s.rows, s.threads[i]);
    }
    if k in s.rows && k !in run[0].rows {
      assert HasWinner(s, k);
      var w: nat :| Winner(s, k, w);
      assert ThreadOk(run[0].rows, s.rows, s.threads[w]);
    }
  }
}
