/** The simulated soak: discovery schedule, vault driver, weekly report and its verdict. */
module Soak {
  import opened Regression

  // ----- the discovery schedule -----

  const WEEKLY_NEW_TARGETS: seq<nat> := [28, 16, 9, 5]

  /** The total of the first `k` days. */
  function Total(s: seq<nat>, k: nat): nat
    requires k <= |s|
  {
    if k == 0 then 0 else Total(s, k - 1) + s[k-1]
  }

  lemma {:induction false} TotalPrefix(s: seq<nat>, t: seq<nat>, k: nat)
    requires k <= |s|
    ensures Total(s + t, k) == Total(s, k)
  {
    if 0 < k { TotalPrefix(s, t, k - 1); }
  }

  lemma {:induction false} TotalAppend(s: seq<nat>, t: seq<nat>, k: nat)
    requires k <= |t|
    ensures Total(s + t, |s| + k) == Total(s, |s|) + Total(t, k)
  {
    if k == 0 {
      TotalPrefix(s, t, |s|);
    } else {
      TotalAppend(s, t, k - 1);
    }
  }

  /** The total over `n` days, with the remainder on the first days. */
  function DistributeEvenly(total: nat, n: nat): (r: seq<nat>)
    requires 0 < n
    ensures |r| == n
  {
    seq(n, i => if i < total % n then total / n + 1 else total / n)
  }

  lemma {:induction false} EvenPrefix(total: nat, n: nat, k: nat)
    requires 0 < n && k <= n
    ensures Total(DistributeEvenly(total, n), k)
            == k * (total / n) + (if k < total % n then k else total % n)
  {
    if k == 0 {
      assert 0 * (total / n) == 0;
    } else {
      EvenPrefix(total, n, k - 1);
      assert k * (total / n) == (k - 1) * (total / n) + total / n;
    }
  }

  /** Nothing is lost, no two days differ by more than one, and earlier days never get less. */
  lemma EvenDistribution(total: nat, n: nat)
    requires 0 < n
    ensures Total(DistributeEvenly(total, n), n) == total
    ensures 0 < total ==> 0 < DistributeEvenly(total, n)[0]
    ensures forall i, j :: 0 <= i <= j < n ==>
              0 <= DistributeEvenly(total, n)[i] - DistributeEvenly(total, n)[j] <= 1
  {
    EvenPrefix(total, n, n);
    assert n * (total / n) + total % n == total;
  }

  /** New conditions in a full week (weeks count from 0). */
  function WeekTarget(week: nat): nat {
    if week < |WEEKLY_NEW_TARGETS| then WEEKLY_NEW_TARGETS[week] else 1
  }

  ghost predicate WeekOnTarget(schedule: seq<nat>, w: nat)
    requires 7 * w + 7 <= |schedule|
  {
    Total(schedule, 7 * w + 7) == Total(schedule, 7 * w) + WeekTarget(w)
  }

  ghost predicate WeeksOnTarget(schedule: seq<nat>, weeks: nat) {
    7 * weeks <= |schedule| && forall w: nat :: w < weeks ==> WeekOnTarget(schedule, w)
  }

  /** Two new conditions in the days after the last full week, if there are any. */
  ghost predicate TailOnTarget(schedule: seq<nat>) {
    |schedule| % 7 != 0 ==> Total(schedule, |schedule|) == Total(schedule, 7 * (|schedule| / 7)) + 2
  }

  /** Between days `lo` and `hi` no two days differ by more than one, and earlier days never get less. */
  ghost predicate Even(schedule: seq<nat>, lo: nat, hi: nat) {
    forall i, j :: lo <= i <= j < hi && hi <= |schedule| ==> schedule[j] <= schedule[i] <= schedule[j] + 1
  }

  ghost predicate EvenWeeks(schedule: seq<nat>, weeks: nat) {
    forall w: nat :: w < weeks ==> Even(schedule, 7 * w, 7 * w + 7)
  }

  lemma EvenStays(schedule: seq<nat>, next: seq<nat>, weeks: nat)
    requires |schedule| == 7 * weeks && EvenWeeks(schedule, weeks) && Even(next, 0, |next|)
    ensures EvenWeeks(schedule + next, weeks) && Even(schedule + next, |schedule|, |schedule| + |next|)
  {
    forall w: nat | w < weeks ensures Even(schedule + next, 7 * w, 7 * w + 7) {
      assert Even(schedule, 7 * w, 7 * w + 7);
    }
    var all := schedule + next;
    assert forall i :: |schedule| <= i < |all| ==> all[i] == next[i - |schedule|];
  }

  lemma WeeksStayOnTarget(schedule: seq<nat>, more: seq<nat>, weeks: nat)
    requires WeeksOnTarget(schedule, weeks)
    ensures WeeksOnTarget(schedule + more, weeks)
  {
    forall w: nat | w < weeks ensures WeekOnTarget(schedule + more, w) {
      assert WeekOnTarget(schedule, w);
      TotalPrefix(schedule, more, 7 * w);
      TotalPrefix(schedule, more, 7 * w + 7);
    }
  }

  lemma NextWeekOnTarget(schedule: seq<nat>, next: seq<nat>, week: nat)
    requires |schedule| == 7 * week && WeeksOnTarget(schedule, week)
    requires |next| == 7 && Total(next, 7) == WeekTarget(week)
    ensures WeeksOnTarget(schedule + next, week + 1)
  {
    WeeksStayOnTarget(schedule, next, week);
    TotalPrefix(schedule, next, 7 * week);
    TotalAppend(schedule, next, 7);
    assert WeekOnTarget(schedule + next, week);
  }

  lemma DistributedEvenly(total: nat, n: nat)
    requires 0 < n
    ensures Even(DistributeEvenly(total, n), 0, n)
  {
    EvenDistribution(total, n);
  }

  lemma NextWeek(schedule: seq<nat>, week: nat)
    requires |schedule| == 7 * week && WeeksOnTarget(schedule, week) && EvenWeeks(schedule, week)
    ensures var all := schedule + DistributeEvenly(WeekTarget(week), 7);
            WeeksOnTarget(all, week + 1) && EvenWeeks(all, week + 1) && (week == 0 ==> 0 < all[0])
  {
    var next := DistributeEvenly(WeekTarget(week), 7);
    EvenDistribution(WeekTarget(week), 7);
    NextWeekOnTarget(schedule, next, week);
    DistributedEvenly(WeekTarget(week), 7);
    EvenStays(schedule, next, week);
  }

  lemma Tail(schedule: seq<nat>, days: nat)
    requires |schedule| == 7 * (days / 7) && days % 7 != 0
    requires WeeksOnTarget(schedule, days / 7) && EvenWeeks(schedule, days / 7)
    ensures var all := schedule + DistributeEvenly(2, days % 7);
            && |all| == days && WeeksOnTarget(all, days / 7) && EvenWeeks(all, days / 7)
            && TailOnTarget(all) && Even(all, 7 * (days / 7), days) && (days < 7 ==> 0 < all[0])
  {
    var tail := DistributeEvenly(2, days % 7);
    EvenDistribution(2, days % 7);
    WeeksStayOnTarget(schedule, tail, days / 7);
    TotalPrefix(schedule, tail, |schedule|);
    TotalAppend(schedule, tail, |tail|);
    DistributedEvenly(2, days % 7);
    EvenStays(schedule, tail, days / 7);
  }

  /** The schedule: full weeks, then a tail of two new conditions over the remaining days. */
  method DailyNewConditionSchedule(days: nat) returns (schedule: seq<nat>)
    ensures |schedule| == days && WeeksOnTarget(schedule, days / 7)
    ensures TailOnTarget(schedule)
    ensures EvenWeeks(schedule, days / 7) && Even(schedule, 7 * (days / 7), days)
    ensures 0 < days ==> 0 < schedule[0]
  {
    schedule := [];
    for week := 0 to days / 7
      invariant |schedule| == 7 * week && WeeksOnTarget(schedule, week) && EvenWeeks(schedule, week)
      invariant 0 < week ==> 0 < schedule[0]
    {
      NextWeek(schedule, week);
      schedule := schedule + DistributeEvenly(WeekTarget(week), 7);
    }
    if days % 7 != 0 {
      Tail(schedule, days);
      schedule := schedule + DistributeEvenly(2, days % 7);
    }
  }

  // ----- the driver -----

  datatype Status = Candidate | Archived

  /** Repeats on a day, counted from 1. */
  function RepeatCount(day: nat): nat { 10 + 2 * day }

  function RepeatsThrough(day: nat): nat {
    if day == 0 then 0 else RepeatsThrough(day - 1) + RepeatCount(day)
  }

  function Active(rows: map<nat, Status>): nat {
    |set id | id in rows && rows[id] == Candidate|
  }

  /** No sweep can archive a row before the candidate lifetime of 45 days has passed. */
  const CANDIDATE_TTL_DAYS: nat := 45

  class Driver {
    const schedule: seq<nat>
    /** The structural signature of a condition; nothing is assumed about collisions. */
    const signature: nat -> int
    var rows: map<nat, Status>
    var signatures: map<int, nat>
    var discovered: seq<nat>
    var nextIndex: nat
    var day: nat
    var totalNew: nat
    var totalMerged: nat

    ghost predicate Valid()
      reads this
    {
      && (forall id :: id in rows ==> id < nextIndex)
      && (forall i :: 0 <= i < |discovered| ==> signature(discovered[i]) in signatures)
      && (forall g :: g in signatures ==> signatures[g] in rows)
      && |discovered| == totalNew == |rows|
      && (day <= CANDIDATE_TTL_DAYS ==> forall id :: id in rows ==> rows[id] == Candidate)
    }

    constructor (schedule: seq<nat>, signature: nat -> int)
      ensures Ran() && rows == map[] && discovered == [] && nextIndex == day == totalNew == totalMerged == 0
      ensures this.schedule == schedule && this.signature == signature
    {
      this.schedule, this.signature := schedule, signature;
      rows, signatures, discovered := map[], map[], [];
      nextIndex, day, totalNew, totalMerged := 0, 0, 0, 0;
    }

    function NewCount(d: nat): nat {
      if d < |schedule| then schedule[d] else 0
    }

    /** One new condition: one more row, whose signature is from now on known. */
    method Discover()
      requires Valid()
      modifies this
      ensures Valid() && day == old(day) && totalMerged == old(totalMerged)
      ensures totalNew == old(totalNew) + 1 && nextIndex == old(nextIndex) + 1
      ensures rows == old(rows)[old(nextIndex) := Candidate] && old(nextIndex) !in old(rows)
      ensures discovered == old(discovered) + [old(nextIndex)]
    {
      var id := nextIndex;
      nextIndex := nextIndex + 1;
      assert id !in rows;
      assert rows[id := Candidate].Keys == rows.Keys + {id};
      rows := rows[id := Candidate];
      signatures := signatures[signature(id) := id];
      discovered := discovered + [id];
      totalNew := totalNew + 1;
    }

    /** One repeat: the gate finds the known signature, so it merges; a failure would be raised. */
    method Repeat(i: nat) returns (ok: bool)
      requires Valid() && discovered != []
      modifies this
      ensures Valid() && ok
      ensures day == old(day) && totalNew == old(totalNew) && totalMerged == old(totalMerged) + 1
      ensures rows.Keys == old(rows).Keys && discovered == old(discovered) && nextIndex == old(nextIndex)
      ensures signatures == old(signatures)
      ensures var again := discovered[(day * 13 + i) % |discovered|];
              rows == old(rows)[signatures[signature(again)] := Candidate]
    {
      var index := discovered[(day * 13 + i) % |discovered|];
      var g := signature(index);
      ok := g in signatures;
      if ok {
        rows := rows[signatures[g] := Candidate];
        signatures := signatures[g := signatures[g]];
        totalMerged := totalMerged + 1;
      }
    }

    method DiscoverMany(count: nat)
      requires Valid()
      modifies this
      ensures Valid() && day == old(day) && totalMerged == old(totalMerged)
      ensures totalNew == old(totalNew) + count && |rows| == |old(rows)| + count
    {
      for i := 0 to count
        invariant Valid() && day == old(day) && totalMerged == old(totalMerged)
        invariant totalNew == old(totalNew) + i
      {
        Discover();
      }
    }

    method ExtractionJob() returns (ok: bool)
      requires Valid()
      modifies this
      ensures Valid() && ok && day == old(day) + 1
      ensures totalNew == old(totalNew) + NewCount(old(day)) && |rows| == |old(rows)| + NewCount(old(day))
      ensures |schedule| <= old(day) ==> totalNew == old(totalNew)
      ensures totalMerged == old(totalMerged) + (if totalNew == 0 then 0 else RepeatCount(day))
    {
      day := day + 1;
      DiscoverMany(NewCount(day - 1));
      ok := true;
      if discovered == [] { return; }
      ghost var merged, known := totalMerged, totalNew;
      for i := 0 to RepeatCount(day)
        invariant Valid() && ok && day == old(day) + 1 && discovered != []
        invariant totalNew == known && totalMerged == merged + i
      {
        ok := Repeat(i);
      }
    }

    /** The daily sweeps: nothing happens within the lifetime; afterwards any rows may be archived. */
    method SweepsJob()
      requires Valid()
      modifies `rows
      ensures Valid() && rows.Keys == old(rows).Keys
      ensures day <= CANDIDATE_TTL_DAYS ==> rows == old(rows)
    {
      if day > CANDIDATE_TTL_DAYS {
        var swept: set<nat> := *;
        rows := map id | id in rows :: if id in swept then Archived else rows[id];
        assert rows.Keys == old(rows).Keys && |rows| == |rows.Keys| && |old(rows)| == |old(rows).Keys|;
      }
    }

    /** Every day so far has been run: everything scheduled was discovered, every repeat merged. */
    ghost predicate Ran()
      reads this
    {
      && Valid() && day <= |schedule|
      && totalNew == Total(schedule, day) && totalMerged == RepeatsThrough(day)
      && (0 < day ==> 0 < totalNew)
    }

    method RunDay() returns (ok: bool)
      requires Ran() && day < |schedule| && 0 < schedule[0]
      modifies this
      ensures Ran() && ok && day == old(day) + 1
    {
      ok := ExtractionJob();
      SweepsJob();
    }

    method ActiveVaultSize() returns (size: nat)
      requires Valid()
      ensures size == Active(rows)
      ensures day <= CANDIDATE_TTL_DAYS ==> size == |rows|
    {
      size := |set id | id in rows && rows[id] == Candidate|;
      assert day <= CANDIDATE_TTL_DAYS ==> (set id | id in rows && rows[id] == Candidate) == rows.Keys;
    }
  }

  // ----- the plateau projection and the verdict -----

  /** Logarithms enter only through their order. */
  ghost predicate IsLog(log: real -> real) {
    forall x, y :: 0.0 < x < y ==> log(x) < log(y)
  }

  /** Any strictly increasing function will do, the identity for one. */
  lemma SomeLog()
    ensures IsLog(x => x)
  {
  }

  function Weeks(n: nat): (xs: seq<real>)
    ensures |xs| == n && forall i :: 0 <= i < n ==> xs[i] == i as real + 1.0
  {
    seq(n, i => i as real + 1.0)
  }

  function Logs(growths: seq<int>, log: real -> real): (ys: seq<real>)
    ensures |ys| == |growths|
  {
    seq(|growths|, i requires 0 <= i < |growths| => log(growths[i] as real))
  }

  datatype Projection = Raises | NotDecreasing(line: Line) | Projected(line: Line, week: real)

  /** `Raises` is the division by a zero variance. */
  function ProjectPlateau(growths: seq<int>, log: real -> real): Projection
    requires growths != []
  {
    var xs, ys := Weeks(|growths|), Logs(growths, log);
    if Dot(Centred(xs), Centred(xs)) == 0.0 then Raises
    else
      var line := Fit(xs, ys);
      if line.slope >= 0.0 then NotDecreasing(line)
      else Projected(line, (log(1.0) - line.intercept) / line.slope)
  }

  predicate StrictlyDecreasing(growths: seq<int>) {
    2 <= |growths| && forall i :: 0 <= i < |growths| - 1 ==> growths[i] > growths[i+1]
  }

  predicate AllPositive(growths: seq<int>) {
    forall i :: 0 <= i < |growths| ==> growths[i] > 0
  }

  datatype Verdict = Crashes | Passes | Fails

  function SoakVerdict(growths: seq<int>, log: real -> real): Verdict {
    if growths != [] && AllPositive(growths) then
      match ProjectPlateau(growths, log)
      case Raises => Crashes
      case NotDecreasing(_) => Fails
      case Projected(_, _) => if StrictlyDecreasing(growths) then Passes else Fails
    else Fails
  }

  lemma {:induction false} DecreasingPair(growths: seq<int>, i: nat, j: nat)
    requires StrictlyDecreasing(growths) && i < j < |growths|
    ensures growths[i] > growths[j]
    decreases j
  {
    if i + 1 < j {
      DecreasingPair(growths, i, j - 1);
    }
  }

  lemma WeeksVary(n: nat)
    requires 2 <= n
    ensures Increasing(Weeks(n)) && NotAllEqual(Weeks(n)) && 0.0 < Dot(Centred(Weeks(n)), Centred(Weeks(n)))
  {
    assert Weeks(n)[0] != Weeks(n)[1];
    VarianceIsPositive(Weeks(n));
  }

  lemma OneWeekHasNoVariance()
    ensures Dot(Centred(Weeks(1)), Centred(Weeks(1))) == 0.0
  {
    var xs := Weeks(1);
    assert Sum(xs) == Sum(xs[..0]) + xs[0];
    CentredAt(xs, 0);
    assert Centred(xs)[0] == 0.0;
  }

  lemma LogsDecrease(growths: seq<int>, log: real -> real)
    requires IsLog(log) && AllPositive(growths) && StrictlyDecreasing(growths)
    ensures Decreasing(Logs(growths, log))
  {
    forall i, j | 0 <= i < j < |growths|
      ensures Logs(growths, log)[i] > Logs(growths, log)[j]
    {
      DecreasingPair(growths, i, j);
    }
  }

  /** The verdict passes exactly for two or more positive, strictly falling weeks. */
  lemma VerdictIsTheTrend(growths: seq<int>, log: real -> real)
    requires IsLog(log)
    ensures SoakVerdict(growths, log) == Passes <==>
              && 2 <= |growths| && (forall i :: 0 <= i < |growths| ==> growths[i] > 0)
              && (forall i, j :: 0 <= i < j < |growths| ==> growths[i] > growths[j])
    ensures SoakVerdict(growths, log) == Crashes <==> |growths| == 1 && growths[0] > 0
  {
    if StrictlyDecreasing(growths) {
      forall i, j | 0 <= i < j < |growths| ensures growths[i] > growths[j] { DecreasingPair(growths, i, j); }
    }
    if growths != [] && AllPositive(growths) {
      if |growths| == 1 {
        OneWeekHasNoVariance();
      } else {
        WeeksVary(|growths|);
        if StrictlyDecreasing(growths) {
          LogsDecrease(growths, log);
          FallingValuesFallingLine(Weeks(|growths|), Logs(growths, log));
        }
      }
    }
  }

  /** The squared distances of a line from the points (week, logarithm of its growth) of the first `k` weeks. */
  function LogDistance(growths: seq<int>, log: real -> real, l: Line, k: nat): real
    requires k <= |growths|
  {
    if k == 0 then 0.0
    else
      LogDistance(growths, log, l, k - 1)
      + Square(log(growths[k-1] as real) - (l.intercept + l.slope * k as real))
  }

  lemma {:induction false} LogDistanceIs(growths: seq<int>, log: real -> real, l: Line, k: nat)
    requires k <= |growths|
    ensures LogDistance(growths, log, l, k) == SquaredError(Weeks(|growths|), Logs(growths, log), l, k)
  {
    if k > 0 {
      LogDistanceIs(growths, log, l, k - 1);
      assert Weeks(|growths|)[k-1] == k as real;
    }
  }

  /** The projection is undefined for one week; otherwise it rests on the one line closest to the logarithms. */
  lemma ProjectionIsTheBestLine(growths: seq<int>, log: real -> real, l: Line)
    requires growths != []
    ensures var p, n := ProjectPlateau(growths, log), |growths|;
            && (p.Raises? <==> n == 1)
            && (!p.Raises? ==>
                  && LogDistance(growths, log, p.line, n) <= LogDistance(growths, log, l, n)
                  && (LogDistance(growths, log, p.line, n) == LogDistance(growths, log, l, n) ==> l == p.line)
                  && (p.Projected? <==> p.line.slope < 0.0))
  {
    var n := |growths|;
    if n == 1 {
      OneWeekHasNoVariance();
    } else {
      WeeksVary(n);
      FitIsBest(Weeks(n), Logs(growths, log), l);
      LogDistanceIs(growths, log, l, n);
      LogDistanceIs(growths, log, ProjectPlateau(growths, log).line, n);
    }
  }

  /** The projected week is where the fitted growth falls below one item a week, and stays there. */
  lemma PlateauIsTheCrossing(growths: seq<int>, log: real -> real, w: real)
    requires growths != [] && ProjectPlateau(growths, log).Projected?
    ensures var p := ProjectPlateau(growths, log);
            p.line.intercept + p.line.slope * w < log(1.0) <==> p.week < w
  {
  }

  // ----- the run -----

  function Sum0(s: seq<int>): int {
    if s == [] then 0 else Sum0(s[..|s|-1]) + s[|s|-1]
  }

  datatype Report = Report(growths: seq<int>, tail: int, finalSize: nat, totalNew: nat, totalMerged: nat)

  /** Within the candidate lifetime the weekly growth is the declared target. */
  ghost predicate GrowthOnTarget(growths: seq<int>) {
    forall w :: 0 <= w < |growths| && 7 * w + 7 <= CANDIDATE_TTL_DAYS ==> growths[w] == WeekTarget(w)
  }

  lemma Day7(d: nat, w: nat)
    requires 7 * w <= d < 7 * w + 7
    ensures d / 7 == w && ((d + 1) % 7 == 0 <==> d + 1 == 7 * w + 7)
  {
  }

  lemma Sum0Append(s: seq<int>, x: int)
    ensures Sum0(s + [x]) == Sum0(s) + x
  {
    assert (s + [x])[..|s|] == s;
  }

  /** The weekly growths booked after `d` days, the last snapshot having counted `previous`. */
  ghost predicate Booked(schedule: seq<nat>, d: nat, growths: seq<int>, previous: nat) {
    && 7 * |growths| <= d < 7 * |growths| + 7 && d <= |schedule|
    && GrowthOnTarget(growths) && Sum0(growths) == previous
    && (7 * |growths| <= CANDIDATE_TTL_DAYS ==> previous == Total(schedule, 7 * |growths|))
  }

  lemma BookWeek(schedule: seq<nat>, d: nat, growths: seq<int>, previous: nat, size: nat)
    requires WeeksOnTarget(schedule, |schedule| / 7) && Booked(schedule, d, growths, previous)
    requires d < |schedule| && (d + 1) % 7 == 0
    requires d + 1 <= CANDIDATE_TTL_DAYS ==> size == Total(schedule, d + 1)
    ensures Booked(schedule, d + 1, growths + [size - previous], size)
  {
    Day7(d, |growths|);
    assert WeekOnTarget(schedule, |growths|);
    Sum0Append(growths, size - previous);
  }

  lemma BookDay(schedule: seq<nat>, d: nat, growths: seq<int>, previous: nat)
    requires Booked(schedule, d, growths, previous) && d < |schedule| && (d + 1) % 7 != 0
    ensures Booked(schedule, d + 1, growths, previous)
  {
    Day7(d, |growths|);
  }

  /** The days in turn, with a snapshot of the vault every seventh day. */
  method RunDays(driver: Driver) returns (growths: seq<int>, previous: nat)
    requires driver.Ran() && driver.day == 0
    requires WeeksOnTarget(driver.schedule, |driver.schedule| / 7)
    requires driver.schedule != [] ==> 0 < driver.schedule[0]
    modifies driver
    ensures driver.Ran() && driver.day == |driver.schedule|
    ensures Booked(driver.schedule, |driver.schedule|, growths, previous)
  {
    growths, previous := [], 0;
    for d := 0 to |driver.schedule|
      invariant driver.Ran() && driver.day == d
      invariant Booked(driver.schedule, d, growths, previous)
    {
      var ok := driver.RunDay();
      if (d + 1) % 7 == 0 {
        var size := driver.ActiveVaultSize();
        BookWeek(driver.schedule, d, growths, previous, size);
        growths := growths + [size - previous];
        previous := size;
      } else {
        BookDay(driver.schedule, d, growths, previous);
      }
    }
  }

  lemma BookTail(schedule: seq<nat>, growths: seq<int>, previous: nat)
    requires Booked(schedule, |schedule|, growths, previous)
    requires TailOnTarget(schedule)
    ensures |growths| == |schedule| / 7
    ensures |schedule| <= CANDIDATE_TTL_DAYS && |schedule| % 7 != 0 ==> Total(schedule, |schedule|) == previous + 2
  {
    Day7(|schedule|, |growths|);
  }

  /** What the schedule discovers in full weeks. */
  function TargetsThrough(weeks: nat): nat {
    if weeks == 0 then 0 else TargetsThrough(weeks - 1) + WeekTarget(weeks - 1)
  }

  lemma {:induction false} WeeksTotal(schedule: seq<nat>, weeks: nat)
    requires WeeksOnTarget(schedule, weeks)
    ensures Total(schedule, 7 * weeks) == TargetsThrough(weeks)
  {
    if weeks > 0 {
      WeeksTotal(schedule, weeks - 1);
      assert WeekOnTarget(schedule, weeks - 1);
    }
  }

  lemma ScheduleTotal(schedule: seq<nat>)
    requires WeeksOnTarget(schedule, |schedule| / 7) && TailOnTarget(schedule)
    ensures Total(schedule, |schedule|) == TargetsThrough(|schedule| / 7) + (if |schedule| % 7 != 0 then 2 else 0)
  {
    WeeksTotal(schedule, |schedule| / 7);
  }

  method Summarise(driver: Driver, growths: seq<int>, previous: nat) returns (report: Report)
    requires driver.Ran() && driver.day == |driver.schedule| && TailOnTarget(driver.schedule)
    requires Booked(driver.schedule, driver.day, growths, previous)
    ensures |growths| == driver.day / 7 && report.growths == growths
    ensures Sum0(growths) + report.tail == report.finalSize
    ensures driver.day <= CANDIDATE_TTL_DAYS ==>
              report.finalSize == report.totalNew && (driver.day % 7 != 0 ==> report.tail == 2)
    ensures report.totalNew == driver.totalNew && report.totalMerged == driver.totalMerged
  {
    var finalSize: int := driver.ActiveVaultSize();
    BookTail(driver.schedule, growths, previous);
    report := Report(growths, finalSize - previous, finalSize, driver.totalNew, driver.totalMerged);
  }

  lemma {:induction false} TargetsInAll(weeks: nat)
    ensures TargetsThrough(weeks)
            == (match weeks case 0 => 0 case 1 => 28 case 2 => 44 case 3 => 53 case _ => 54 + weeks)
  {
    if weeks > 0 { TargetsInAll(weeks - 1); }
  }

  lemma {:induction false} RepeatsInAll(days: nat)
    ensures RepeatsThrough(days) == days * (days + 11)
  {
    if days > 0 {
      RepeatsInAll(days - 1);
      assert days * (days + 11) == (days - 1) * (days + 10) + 10 + 2 * days;
    }
  }

  /** Runs the soak and reports the weekly growths, the tail and the totals. */
  method RunSoak(days: nat, signature: nat -> int) returns (report: Report)
    ensures |report.growths| == days / 7 && GrowthOnTarget(report.growths)
    ensures Sum0(report.growths) + report.tail == report.finalSize
    ensures days <= CANDIDATE_TTL_DAYS ==>
              report.finalSize == report.totalNew && (days % 7 != 0 ==> report.tail == 2)
    ensures report.totalMerged == days * (days + 11)
    ensures report.totalNew ==
              (match days / 7 case 0 => 0 case 1 => 28 case 2 => 44 case 3 => 53 case weeks => 54 + weeks)
              + (if days % 7 != 0 then 2 else 0)
  {
    RepeatsInAll(days);
    TargetsInAll(days / 7);
    var schedule := DailyNewConditionSchedule(days);
    ScheduleTotal(schedule);
    var driver := new Driver(schedule, signature);
    var growths, previous := RunDays(driver);
    report := Summarise(driver, growths, previous);
  }

  /** What the horizon alone decides: a crash for one week, a pass for two to five, a failure otherwise. */
  lemma VerdictByHorizon(growths: seq<int>, days: nat, log: real -> real)
    requires IsLog(log) && |growths| == days / 7 && GrowthOnTarget(growths)
    ensures SoakVerdict(growths, log) == Crashes <==> 7 <= days <= 13
    ensures SoakVerdict(growths, log) == Passes <==> 14 <= days <= 41
  {
    VerdictIsTheTrend(growths, log);
    if 42 <= days {
      assert growths[4] == WeekTarget(4) && growths[5] == WeekTarget(5);
    }
  }
}
