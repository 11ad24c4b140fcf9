/** Properties of every run of the controller, stated over the commands it has executed. */
module StackTrace {
  import opened StackWorld

  /** Event `i` obeys its command, and only drift separates it from the event before. */
  predicate LawfulAt(tr: seq<Event>, i: nat)
    requires i < |tr|
  {
    Lawful(tr[i]) && (0 < i ==> Drift(tr[i-1].after, tr[i].before))
  }

  predicate Chained(tr: seq<Event>) {
    forall i: nat :: i < |tr| ==> LawfulAt(tr, i)
  }

  ghost predicate Ran(e: Event, c: Command) { e.ok && e.command == c }

  ghost predicate IsOpening(e: Event) { e.command == Bootstrap(AdmissionOpen) }

  /** Six events `tr[k..k+6]` that make one complete closed probe of the runtime. */
  ghost predicate ClosedProbe(tr: seq<Event>, k: nat)
    requires k + 6 <= |tr|
  {
    && Ran(tr[k], PsRunning) && tr[k].reply.Services? && RUNTIME <= tr[k].reply.services
    && Ran(tr[k+1], Exec(Api, PrepublicationReady))
    && Ran(tr[k+2], Exec(Worker, PrepublicationReady))
    && Ran(tr[k+3], Exec(Erasure, PrepublicationReady))
    && Ran(tr[k+4], Exec(Api, Healthz))
    && Ran(tr[k+5], Exec(Edge, Healthz))
  }

  /** A closed probe behind a closed gate, then no one-shot container left, and then `k`. */
  ghost predicate ProbedUpTo(tr: seq<Event>, k: nat)
    requires k <= |tr|
  {
    && 7 <= k && ClosedProbe(tr, k - 7) && !tr[k-7].before.open
    && Ran(tr[k-1], PsAll) && tr[k-1].reply.Services? && !tr[k-1].reply.oneShot
  }

  /** The opening at `k` directly follows a complete closed probe and finds the gate closed. */
  ghost predicate ProbedOpening(tr: seq<Event>, k: nat)
    requires k < |tr|
  {
    ProbedUpTo(tr, k) && !tr[k].before.open
  }

  ghost predicate DisciplinedAt(tr: seq<Event>, k: nat)
    requires k < |tr|
  {
    IsOpening(tr[k]) ==> ProbedOpening(tr, k)
  }

  ghost predicate Disciplined(tr: seq<Event>) {
    forall k: nat :: k < |tr| ==> DisciplinedAt(tr, k)
  }

  // ----- the steps of a run -----

  /** What was tried, in order, and whether it was reported done; commands that only look are left out. */
  datatype Log = Begin | Step(before: Log, command: Command, ok: bool)

  /** A question, which the controller may have to repeat. */
  predicate IsLook(c: Command) {
    c.PsAll? || c.PsRunning? || c.Exec? || c == Bootstrap(ErasureDrainAssert)
  }

  function Logged(l: Log, c: Command, ok: bool): Log { if IsLook(c) then l else Step(l, c, ok) }

  // ----- openings that may have committed -----

  ghost predicate FailedOpening(e: Event) { IsOpening(e) && !e.ok }

  /**
   After event `k`: stops of the runtime, all of it or up to the first that failed, the request at `j` to close
   the gate, and the independent proof at `m`.
   */
  ghost predicate FencedBy(tr: seq<Event>, k: nat, j: nat, m: nat) {
    && k + 1 < j < m < |tr|
    && tr[k+1].command == Stop(INGRESS)
    && (forall i :: k < i < j ==> tr[i].command in {Stop(INGRESS), Stop({Erasure}), Stop({Worker})})
    && (tr[j-1].ok ==> tr[j-1].command == Stop({Worker}))
    && tr[j].command == Bootstrap(AdmissionClose)
    && (forall i :: j < i < m ==> tr[i].command == PsAll)
    && tr[m].command == Bootstrap(AdmissionAssertClosed)
  }

  ghost predicate FencedAt(tr: seq<Event>, k: nat) { exists j: nat, m: nat :: FencedBy(tr, k, j, m) }

  ghost predicate FencedUnlessOwed(tr: seq<Event>, owed: set<nat>, k: nat) {
    if k < |tr| then FailedOpening(tr[k]) && k !in owed ==> FencedAt(tr, k) else k !in owed
  }

  /** Every opening that reported failure has been fenced, but for the ones that are still owed a fence. */
  ghost predicate OpeningsFenced(tr: seq<Event>, owed: set<nat>) {
    forall k: nat :: FencedUnlessOwed(tr, owed, k)
  }

  lemma FencedStays(tr: seq<Event>, e: Event, k: nat)
    requires k < |tr| && FencedAt(tr, k)
    ensures FencedAt(tr + [e], k)
  {
    var j: nat, m: nat :| FencedBy(tr, k, j, m);
    assert FencedBy(tr + [e], k, j, m);
  }

  lemma FencesExtend(tr: seq<Event>, e: Event, owed: set<nat>)
    requires OpeningsFenced(tr, owed)
    ensures !FailedOpening(e) ==> OpeningsFenced(tr + [e], owed)
    ensures OpeningsFenced(tr + [e], owed + {|tr|}) && |tr| !in owed
  {
    var next := tr + [e];
    assert FencedUnlessOwed(tr, owed, |tr|);
    forall k: nat
      ensures FencedUnlessOwed(next, owed + {|tr|}, k) && (!FailedOpening(e) ==> FencedUnlessOwed(next, owed, k))
    {
      assert FencedUnlessOwed(tr, owed, k);
      if k < |tr| && FencedAt(tr, k) { FencedStays(tr, e, k); }
    }
  }

  /** A fence that is complete is no longer owed. */
  lemma FenceSettles(tr: seq<Event>, owed: set<nat>, k: nat, j: nat, m: nat)
    requires OpeningsFenced(tr, owed) && FencedBy(tr, k, j, m)
    ensures OpeningsFenced(tr, owed - {k})
  {
    assert FencedAt(tr, k);
    forall i: nat ensures FencedUnlessOwed(tr, owed - {k}, i) { assert FencedUnlessOwed(tr, owed, i); }
  }

  lemma AllFenced(tr: seq<Event>, k: nat)
    requires OpeningsFenced(tr, {}) && k < |tr| && FailedOpening(tr[k])
    ensures FencedAt(tr, k)
  {
    assert FencedUnlessOwed(tr, {}, k);
  }

  /** Behind a fence whose request to close was reported done, or whose proof was, the gate is closed. */
  lemma FenceCloses(tr: seq<Event>, k: nat, j: nat, m: nat)
    requires Chained(tr) && FencedBy(tr, k, j, m) && (tr[j].ok || tr[m].ok)
    ensures !tr[m].after.open
  {
    if tr[j].ok {
      CloseCloses(tr, j);
      StaysClosed(tr, j, m);
    }
    assert LawfulAt(tr, m);
  }

  lemma CloseCloses(tr: seq<Event>, j: nat)
    requires Chained(tr) && j < |tr| && Ran(tr[j], Bootstrap(AdmissionClose))
    ensures !tr[j].after.open
  {
    assert LawfulAt(tr, j);
  }

  lemma {:induction false} StaysClosed(tr: seq<Event>, j: nat, m: nat)
    requires Chained(tr) && j <= m < |tr| && !tr[j].after.open && NoOpening(tr, j + 1, m + 1)
    ensures !tr[m].after.open
    decreases m
  {
    if j < m {
      StaysClosed(tr, j, m - 1);
      OneStep(tr, m - 1);
      if tr[m].after.open { OpensAt(tr, m); }
    }
  }

  ghost predicate NoOpening(tr: seq<Event>, lo: nat, hi: nat)
    requires hi <= |tr|
  {
    forall i :: lo <= i < hi ==> !IsOpening(tr[i])
  }

  /** What one event and the drift after it can do to the gate and the queue. */
  lemma OneStep(tr: seq<Event>, i: nat)
    requires Chained(tr) && i + 1 < |tr|
    ensures tr[i+1].before.open == tr[i].after.open
    ensures !tr[i].before.open && tr[i].after.open ==> IsOpening(tr[i])
    ensures !tr[i].after.open ==> tr[i+1].before.admitted == tr[i].before.admitted
    ensures tr[i].before.completed <= tr[i+1].before.completed <= tr[i+1].before.admitted
  {
    assert LawfulAt(tr, i) && LawfulAt(tr, i + 1);
    if !tr[i].before.open && tr[i].after.open { OpensAt(tr, i); }
    QueueUntouched(tr[i]);
  }

  lemma QueueUntouched(e: Event)
    requires Lawful(e)
    ensures e.after.admitted == e.before.admitted && e.after.completed == e.before.completed
  {
    CommandsKeepQueue(e.command, e.before, e.after);
  }

  lemma ListingIsTruthful(tr: seq<Event>, i: nat)
    requires Chained(tr) && i < |tr| && Ran(tr[i], PsRunning)
    ensures tr[i].reply == Services(tr[i].before.running, false)
  {
    assert LawfulAt(tr, i);
  }

  lemma OpensAt(tr: seq<Event>, k: nat)
    requires Chained(tr) && k < |tr| && !tr[k].before.open && tr[k].after.open
    ensures IsOpening(tr[k])
  {
    assert LawfulAt(tr, k);
    OnlyOpenOpens(tr[k]);
  }

  /** An event that finds the gate closed and leaves it open is a probed opening. */
  lemma ProbedAt(tr: seq<Event>, k: nat)
    requires Chained(tr) && Disciplined(tr) && k < |tr| && !tr[k].before.open && tr[k].after.open
    ensures IsOpening(tr[k]) && ProbedOpening(tr, k) && RUNTIME <= tr[k-7].before.running
  {
    OpensAt(tr, k);
    assert DisciplinedAt(tr, k);
    ListingIsTruthful(tr, k - 7);
  }

  /**
   A gate that an event found closed and that the same or a later event left open was opened in between, by
   an opening directly after a complete closed probe that saw all five runtime services running.
   */
  lemma {:induction false} GateOpensOnlyAfterAProbe(tr: seq<Event>, i: nat, j: nat) returns (k: nat)
    requires Chained(tr) && Disciplined(tr)
    requires i <= j < |tr| && !tr[i].before.open && tr[j].after.open
    ensures i <= k <= j && IsOpening(tr[k]) && ProbedOpening(tr, k)
    ensures !tr[k].before.open && tr[k].after.open
    ensures RUNTIME <= tr[k-7].before.running
    decreases j
  {
    if tr[j].before.open {
      OneStep(tr, j - 1);
      k := GateOpensOnlyAfterAProbe(tr, i, j - 1);
    } else {
      k := j;
      ProbedAt(tr, k);
    }
  }

  /** While nothing opens a closed gate, no work is admitted and drained work stays drained. */
  lemma {:induction false} ClosedGateAdmitsNothing(tr: seq<Event>, i: nat, j: nat)
    requires Chained(tr) && i <= j < |tr| && NoOpening(tr, i, j)
    requires !tr[i].before.open
    ensures !tr[j].before.open && tr[j].before.admitted == tr[i].before.admitted
    ensures Drained(tr[i].before) ==> Drained(tr[j].before)
    decreases j
  {
    if i < j {
      ClosedGateAdmitsNothing(tr, i, j - 1);
      OneStep(tr, j - 1);
    }
  }

  lemma OneEvent(e: Event)
    requires Lawful(e)
    ensures Chained([e])
  {
  }

  lemma LastIsLawful(tr: seq<Event>)
    requires Chained(tr) && tr != []
    ensures Lawful(tr[|tr|-1])
  {
    assert LawfulAt(tr, |tr| - 1);
  }

  /** Appending an event that continues the chain. */
  lemma ChainExtends(tr: seq<Event>, e: Event)
    requires Chained(tr) && Chained([e])
    requires tr == [] || Drift(tr[|tr|-1].after, e.before)
    ensures Chained(tr + [e])
  {
    var next := tr + [e];
    LastIsLawful([e]);
    forall i: nat | i < |next|
      ensures LawfulAt(next, i)
    {
      if i < |tr| {
        assert LawfulAt(tr, i);
      }
    }
  }

  lemma DisciplineExtends(tr: seq<Event>, e: Event)
    requires Disciplined(tr)
    requires IsOpening(e) ==> ProbedOpening(tr + [e], |tr|)
    ensures Disciplined(tr + [e])
  {
    var next := tr + [e];
    forall k: nat | k < |next|
      ensures DisciplinedAt(next, k)
    {
      if k < |tr| {
        assert DisciplinedAt(tr, k);
      }
    }
  }

  /** An opening after a closed probe; if it reports failure it is owed a fence. */
  lemma OpeningExtends(tr: seq<Event>, e: Event, owed: set<nat>)
    requires Disciplined(tr) && OpeningsFenced(tr, owed) && IsOpening(e) && ProbedUpTo(tr, |tr|) && !e.before.open
    ensures Disciplined(tr + [e]) && |tr| !in owed
    ensures OpeningsFenced(tr + [e], if e.ok then owed else owed + {|tr|})
  {
    assert ProbedOpening(tr + [e], |tr|);
    DisciplineExtends(tr, e);
    FencesExtend(tr, e, owed);
  }

  /** Appending an event that continues the chain keeps the history in order, unless it is an opening. */
  lemma HistoryExtends(tr: seq<Event>, e: Event, owed: set<nat>)
    requires Chained(tr) && Chained([e]) && (tr == [] || Drift(tr[|tr|-1].after, e.before))
    ensures Chained(tr + [e]) && WellFormed(e.after)
    ensures Disciplined(tr) && OpeningsFenced(tr, owed) && !IsOpening(e) ==>
              Disciplined(tr + [e]) && OpeningsFenced(tr + [e], owed)
  {
    LastIsLawful([e]);
    ChainExtends(tr, e);
    if Disciplined(tr) && OpeningsFenced(tr, owed) && !IsOpening(e) {
      DisciplineExtends(tr, e);
      FencesExtend(tr, e, owed);
    }
  }
}
