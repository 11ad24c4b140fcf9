/** Structured incremental deltas: named elements, the consolidator that diffs them, and the log that replays them. */
module Deltas {
  import opened Wrappers

  datatype Element<T> = Element(name: nat, text: T)
  datatype Delta<T> = Add(name: nat, text: T) | Amend(name: nat, text: T) | Remove(name: nat)

  ghost predicate UniqueNames<T>(s: seq<Element<T>>) {
    forall i, j :: 0 <= i < j < |s| ==> s[i].name != s[j].name
  }

  function Names<T>(s: seq<Element<T>>): set<nat> { set i | 0 <= i < |s| :: s[i].name }

  /** What the element set says about each name. */
  ghost function Meaning<T>(s: seq<Element<T>>): map<nat, T> {
    if s == [] then map[] else Meaning(s[..|s|-1])[s[|s|-1].name := s[|s|-1].text]
  }

  lemma NamesAppend<T>(s: seq<Element<T>>, e: Element<T>)
    ensures Names(s + [e]) == Names(s) + {e.name}
  {
    forall x | x in Names(s) + {e.name} ensures x in Names(s + [e]) {
      if x == e.name {
        assert (s + [e])[|s|].name == x;
      } else {
        var i :| 0 <= i < |s| && s[i].name == x;
        assert (s + [e])[i].name == x;
      }
    }
  }

  function Amended<T>(s: seq<Element<T>>, name: nat, text: T): (r: seq<Element<T>>)
    ensures |r| == |s|
  {
    seq(|s|, i requires 0 <= i < |s| => if s[i].name == name then Element(name, text) else s[i])
  }

  function Without<T>(s: seq<Element<T>>, name: nat): seq<Element<T>> {
    if s == [] then []
    else Without(s[..|s|-1], name) + (if s[|s|-1].name == name then [] else [s[|s|-1]])
  }

  /** One delta; `None` is the refusal of an ADD of a present name or an AMEND or REMOVE of an absent one. */
  function ApplyDelta<T>(s: seq<Element<T>>, d: Delta<T>): Option<seq<Element<T>>> {
    match d
    case Add(name, text) => if name in Names(s) then None else Some(s + [Element(name, text)])
    case Amend(name, text) => if name in Names(s) then Some(Amended(s, name, text)) else None
    case Remove(name) => if name in Names(s) then Some(Without(s, name)) else None
  }

  function ApplyDeltas<T>(s: seq<Element<T>>, ds: seq<Delta<T>>): Option<seq<Element<T>>> {
    if ds == [] then Some(s)
    else
      match ApplyDeltas(s, ds[..|ds|-1])
      case None => None
      case Some(t) => ApplyDelta(t, ds[|ds|-1])
  }

  // ----- what one delta means -----

  lemma {:induction false} MeaningIs<T>(s: seq<Element<T>>)
    requires UniqueNames(s)
    ensures Meaning(s).Keys == Names(s)
    ensures forall i :: 0 <= i < |s| ==> Meaning(s)[s[i].name] == s[i].text
  {
    if s != [] {
      MeaningIs(s[..|s|-1]);
      assert Names(s) == Names(s[..|s|-1]) + {s[|s|-1].name};
    }
  }

  lemma MeaningUnique<T>(s: seq<Element<T>>, m: map<nat, T>)
    requires UniqueNames(s) && m.Keys == Names(s)
    requires forall i :: 0 <= i < |s| ==> s[i].name in m && m[s[i].name] == s[i].text
    ensures Meaning(s) == m
  {
    MeaningIs(s);
  }

  lemma AmendMeans<T>(s: seq<Element<T>>, name: nat, text: T)
    requires UniqueNames(s) && name in Names(s)
    ensures var r := Amended(s, name, text);
            UniqueNames(r) && Names(r) == Names(s) && Meaning(r) == Meaning(s)[name := text]
  {
    var r := Amended(s, name, text);
    MeaningIs(s);
    assert forall i :: 0 <= i < |s| ==> r[i].name == s[i].name;
    assert Names(r) == Names(s);
    MeaningUnique(r, Meaning(s)[name := text]);
  }

  /** Appending an element with a new name extends the meaning by it. */
  lemma AppendMeans<T>(s: seq<Element<T>>, e: Element<T>)
    requires UniqueNames(s) && e.name !in Names(s)
    ensures UniqueNames(s + [e]) && Meaning(s + [e]) == Meaning(s)[e.name := e.text]
    ensures Names(s + [e]) == Names(s) + {e.name}
  {
    NamesAppend(s, e);
    assert (s + [e])[..|s|] == s;
    assert forall i :: 0 <= i < |s| ==> s[i].name in Names(s);
  }

  lemma SplitLast<T>(s: seq<Element<T>>)
    requires UniqueNames(s) && s != []
    ensures var front, e := s[..|s|-1], s[|s|-1];
            && UniqueNames(front) && e.name !in Names(front) && e.name !in Meaning(front)
            && Names(s) == Names(front) + {e.name} && Meaning(s) == Meaning(front)[e.name := e.text]
  {
    var front, e := s[..|s|-1], s[|s|-1];
    MeaningIs(front);
    NamesAppend(front, e);
    assert s == front + [e];
  }

  lemma MapMinus<T>(m: map<nat, T>, k: nat, v: T, name: nat)
    requires k !in m
    ensures m[k := v] - {name} == if k == name then m - {name} else (m - {name})[k := v]
  {
  }

  lemma MapPlus<T>(a: map<nat, T>, b: map<nat, T>, k: nat, v: T)
    requires k !in b
    ensures a + b[k := v] == (a + b)[k := v]
    ensures (k in a + b <==> k in a) && (k in a ==> (a + b)[k] == a[k])
  {
  }

  lemma {:induction false} WithoutMeans<T>(s: seq<Element<T>>, name: nat)
    requires UniqueNames(s)
    ensures UniqueNames(Without(s, name)) && Meaning(Without(s, name)) == Meaning(s) - {name}
    ensures Names(Without(s, name)) == Names(s) - {name}
  {
    if s != [] {
      var w, e := Without(s[..|s|-1], name), s[|s|-1];
      SplitLast(s);
      WithoutMeans(s[..|s|-1], name);
      MapMinus(Meaning(s[..|s|-1]), e.name, e.text, name);
      if e.name != name {
        AppendMeans(w, e);
      } else {
        assert w + [] == w;
      }
    }
  }

  ghost function DeltaOn<T>(m: map<nat, T>, d: Delta<T>): map<nat, T> {
    match d
    case Add(name, text) => m[name := text]
    case Amend(name, text) => m[name := text]
    case Remove(name) => m - {name}
  }

  /** A delta that is not refused changes exactly the element it names. */
  lemma DeltaMeans<T>(s: seq<Element<T>>, d: Delta<T>)
    requires UniqueNames(s)
    ensures ApplyDelta(s, d).Some? <==> (d.Add? <==> d.name !in Names(s))
    ensures ApplyDelta(s, d).Some? ==>
              var r := ApplyDelta(s, d).value; UniqueNames(r) && Meaning(r) == DeltaOn(Meaning(s), d)
  {
    match d
    case Add(name, text) =>
      if name !in Names(s) { AppendMeans(s, Element(name, text)); }
    case Amend(name, text) => if name in Names(s) { AmendMeans(s, name, text); }
    case Remove(name) => WithoutMeans(s, name);
  }

  // ----- the consolidator -----

  /** What one observed element adds to the deltas of a sweep. */
  function Difference<T(==)>(m: map<nat, T>, e: Element<T>): seq<Delta<T>> {
    if e.name !in m then [Add(e.name, e.text)] else if m[e.name] != e.text then [Amend(e.name, e.text)] else []
  }

  function Differences<T(==)>(m: map<nat, T>, incoming: seq<Element<T>>): seq<Delta<T>> {
    if incoming == [] then []
    else Differences(m, incoming[..|incoming|-1]) + Difference(m, incoming[|incoming|-1])
  }

  lemma DifferenceApplies<T>(s: seq<Element<T>>, m: map<nat, T>, e: Element<T>, ds: seq<Delta<T>>, t: seq<Element<T>>)
    requires ApplyDeltas(s, ds) == Some(t) && UniqueNames(t)
    requires e.name in m <==> e.name in Meaning(t)
    requires e.name in m ==> Meaning(t)[e.name] == m[e.name]
    ensures var r := ApplyDeltas(s, ds + Difference(m, e));
            r.Some? && UniqueNames(r.value) && Meaning(r.value) == Meaning(t)[e.name := e.text]
  {
    MeaningIs(t);
    if Difference(m, e) == [] {
      assert ds + [] == ds;
    } else {
      var d := Difference(m, e)[0];
      DeltaMeans(t, d);
      assert (ds + [d])[..|ds|] == ds;
    }
  }

  /** The deltas of a sweep never clash with each other, and bring in exactly what was observed. */
  lemma {:induction false} DifferencesApply<T>(s: seq<Element<T>>, incoming: seq<Element<T>>)
    requires UniqueNames(s) && UniqueNames(incoming)
    ensures var r := ApplyDeltas(s, Differences(Meaning(s), incoming));
            r.Some? && UniqueNames(r.value) && Meaning(r.value) == Meaning(s) + Meaning(incoming)
  {
    if incoming == [] {
      assert Meaning(s) + map[] == Meaning(s);
    } else {
      var n := |incoming| - 1;
      var e, earlier := incoming[n], incoming[..n];
      SplitLast(incoming);
      DifferencesApply(s, earlier);
      MapPlus(Meaning(s), Meaning(earlier), e.name, e.text);
      var ds := Differences(Meaning(s), earlier);
      DifferenceApplies(s, Meaning(s), e, ds, ApplyDeltas(s, ds).value);
    }
  }

  /** A sweep that observes nothing new emits no delta. */
  lemma {:induction false} NothingNewIff<T>(s: seq<Element<T>>, incoming: seq<Element<T>>)
    ensures Differences(Meaning(s), incoming) == [] <==>
              forall i :: 0 <= i < |incoming| ==>
                incoming[i].name in Meaning(s) && Meaning(s)[incoming[i].name] == incoming[i].text
  {
    if incoming != [] {
      NothingNewIff(s, incoming[..|incoming|-1]);
    }
  }

  method FindByName<T>(s: seq<Element<T>>, name: nat) returns (found: Option<T>)
    requires UniqueNames(s)
    ensures found.Some? <==> name in Meaning(s)
    ensures found.Some? ==> found.value == Meaning(s)[name]
  {
    MeaningIs(s);
    for i := 0 to |s|
      invariant forall j :: 0 <= j < i ==> s[j].name != name
    {
      if s[i].name == name { return Some(s[i].text); }
    }
    return None;
  }

  datatype Sweep<T> = Duplicated | Swept(after: seq<Element<T>>, deltas: seq<Delta<T>>)

  /** One sweep: refused exactly for a repeated incoming name; otherwise observed texts win and all else is carried. */
  method Consolidate<T(==)>(s: seq<Element<T>>, incoming: seq<Element<T>>) returns (r: Sweep<T>)
    requires UniqueNames(s)
    ensures r.Swept? <==> UniqueNames(incoming)
    ensures r.Swept? ==> UniqueNames(r.after) && Meaning(r.after) == Meaning(s) + Meaning(incoming)
    ensures r.Swept? ==> r.deltas == Differences(Meaning(s), incoming) && ApplyDeltas(s, r.deltas) == Some(r.after)
  {
    for i := 0 to |incoming|
      invariant UniqueNames(incoming[..i])
    {
      for j := 0 to i
        invariant forall k :: 0 <= k < j ==> incoming[k].name != incoming[i].name
      {
        if incoming[j].name == incoming[i].name { return Duplicated; }
      }
    }
    assert incoming[..|incoming|] == incoming;
    var deltas: seq<Delta<T>> := [];
    for i := 0 to |incoming|
      invariant deltas == Differences(Meaning(s), incoming[..i])
    {
      var e := incoming[i];
      assert incoming[..i+1][..i] == incoming[..i];
      var current := FindByName(s, e.name);
      assert deltas + [] == deltas;
      if current.None? {
        deltas := deltas + [Add(e.name, e.text)];
      } else if current.value != e.text {
        deltas := deltas + [Amend(e.name, e.text)];
      }
    }
    DifferencesApply(s, incoming);
    r := Swept(ApplyDeltas(s, deltas).value, deltas);
  }

  // ----- the log -----

  datatype Record<T> = Record(sweep: nat, delta: Delta<T>)

  /** The state after the longest prefix of the log whose records come before `upto`. */
  function Reconstruct<T>(log: seq<Record<T>>, upto: Option<nat>): Option<seq<Element<T>>> {
    ReplayFrom([], log, upto)
  }

  function ReplayFrom<T>(s: seq<Element<T>>, log: seq<Record<T>>, upto: Option<nat>): Option<seq<Element<T>>>
    decreases log
  {
    if log == [] || (upto.Some? && log[0].sweep >= upto.value) then Some(s)
    else
      match ApplyDelta(s, log[0].delta)
      case None => None
      case Some(t) => ReplayFrom(t, log[1..], upto)
  }

  function Stamp<T>(sweep: nat, ds: seq<Delta<T>>): seq<Record<T>> {
    seq(|ds|, i requires 0 <= i < |ds| => Record(sweep, ds[i]))
  }

  /** The number and the deltas of one sweep of a history. */
  datatype Entry<T> = Entry(sweep: nat, deltas: seq<Delta<T>>)

  /** What a history leaves, each sweep applied to the state the one before left. */
  function StateAfter<T>(h: seq<Entry<T>>): Option<seq<Element<T>>> {
    if h == [] then Some([])
    else
      match StateAfter(h[..|h|-1])
      case None => None
      case Some(s) => ApplyDeltas(s, h[|h|-1].deltas)
  }

  function LogOf<T>(h: seq<Entry<T>>): seq<Record<T>> {
    if h == [] then [] else LogOf(h[..|h|-1]) + Stamp(h[|h|-1].sweep, h[|h|-1].deltas)
  }

  /** Sweep numbers only go up. */
  ghost predicate Ordered<T>(h: seq<Entry<T>>) {
    forall i, j :: 0 <= i < j < |h| ==> h[i].sweep < h[j].sweep
  }

  ghost predicate AllBefore<T>(log: seq<Record<T>>, upto: Option<nat>) {
    forall i :: 0 <= i < |log| ==> upto.None? || log[i].sweep < upto.value
  }

  lemma {:induction false} LogIsBefore<T>(h: seq<Entry<T>>, n: nat)
    requires forall i :: 0 <= i < |h| ==> h[i].sweep < n
    ensures AllBefore(LogOf(h), Some(n))
  {
    if h != [] { LogIsBefore(h[..|h|-1], n); }
  }

  lemma {:induction false} ReplayAppend<T>(s: seq<Element<T>>, a: seq<Record<T>>, b: seq<Record<T>>, upto: Option<nat>)
    requires AllBefore(a, upto)
    requires ReplayFrom(s, a, upto).Some?
    ensures ReplayFrom(s, a + b, upto) == ReplayFrom(ReplayFrom(s, a, upto).value, b, upto)
    decreases a
  {
    if a == [] {
      assert a + b == b;
    } else {
      assert (a + b)[1..] == a[1..] + b;
      ReplayAppend(ApplyDelta(s, a[0].delta).value, a[1..], b, upto);
    }
  }

  lemma {:induction false} ReplayStamp<T>(s: seq<Element<T>>, sweep: nat, ds: seq<Delta<T>>, upto: Option<nat>)
    requires upto.None? || sweep < upto.value
    ensures ReplayFrom(s, Stamp(sweep, ds), upto) == ApplyDeltas(s, ds)
  {
    if ds != [] {
      var n := |ds| - 1;
      ReplayStamp(s, sweep, ds[..n], upto);
      assert Stamp(sweep, ds) == Stamp(sweep, ds[..n]) + [Record(sweep, ds[n])];
      if ApplyDeltas(s, ds[..n]).Some? {
        ReplayAppend(s, Stamp(sweep, ds[..n]), [Record(sweep, ds[n])], upto);
        var t := ApplyDeltas(s, ds[..n]).value;
        assert [Record(sweep, ds[n])][1..] == [];
      } else {
        ReplayRefused(s, Stamp(sweep, ds[..n]), [Record(sweep, ds[n])], upto);
      }
    }
  }

  lemma {:induction false} ReplayRefused<T>(s: seq<Element<T>>, a: seq<Record<T>>, b: seq<Record<T>>, upto: Option<nat>)
    requires ReplayFrom(s, a, upto) == None
    ensures ReplayFrom(s, a + b, upto) == None
    decreases a
  {
    if ApplyDelta(s, a[0].delta).Some? {
      assert (a + b)[1..] == a[1..] + b;
      ReplayRefused(ApplyDelta(s, a[0].delta).value, a[1..], b, upto);
    }
  }

  /** Replaying the whole log gives the state the history left, and no replayed delta is refused. */
  lemma {:induction false} LogIsTheState<T>(h: seq<Entry<T>>, upto: Option<nat>)
    requires StateAfter(h).Some? && AllBefore(LogOf(h), upto)
    ensures Reconstruct(LogOf(h), upto) == StateAfter(h)
  {
    if h != [] {
      var before, last := h[..|h|-1], h[|h|-1];
      var a, b := LogOf(before), Stamp(last.sweep, last.deltas);
      assert LogOf(h) == a + b;
      forall i | 0 <= i < |a| ensures upto.None? || a[i].sweep < upto.value { assert LogOf(h)[i] == a[i]; }
      LogIsTheState(before, upto);
      ReplayAppend([], a, b, upto);
      if last.deltas == [] {
        assert a + b == a;
      } else {
        assert LogOf(h)[|a|] == b[0];
        ReplayStamp(StateAfter(before).value, last.sweep, last.deltas, upto);
      }
    }
  }

  /** The log goes on, from any sweep, with records of that sweep and later ones. */
  lemma {:induction false} LaterRecords<T>(h: seq<Entry<T>>, i: nat) returns (rest: seq<Record<T>>)
    requires Ordered(h) && i < |h|
    ensures LogOf(h) == LogOf(h[..i]) + rest
    ensures forall k :: 0 <= k < |rest| ==> rest[k].sweep >= h[i].sweep
    decreases |h|
  {
    var before, last := h[..|h|-1], h[|h|-1];
    if i == |h| - 1 {
      rest := Stamp(last.sweep, last.deltas);
    } else {
      var r := LaterRecords(before, i);
      assert before[..i] == h[..i];
      rest := r + Stamp(last.sweep, last.deltas);
      assert LogOf(h) == LogOf(h[..i]) + rest;
    }
  }

  lemma {:induction false} StatesExist<T>(h: seq<Entry<T>>, i: nat)
    requires StateAfter(h).Some? && i <= |h|
    ensures StateAfter(h[..i]).Some?
    decreases |h|
  {
    if i == |h| {
      assert h[..i] == h;
    } else {
      StatesExist(h[..|h|-1], i);
      assert h[..|h|-1][..i] == h[..i];
    }
  }

  /** From the log alone: the state just before any sweep that was ever run. */
  lemma LogIsTheStateBefore<T>(h: seq<Entry<T>>, i: nat)
    requires Ordered(h) && i < |h| && StateAfter(h).Some?
    ensures Reconstruct(LogOf(h), Some(h[i].sweep)) == StateAfter(h[..i])
  {
    StatesExist(h, i);
    LogIsBefore(h[..i], h[i].sweep);
    var rest := LaterRecords(h, i);
    LogIsTheState(h[..i], Some(h[i].sweep));
    ReplayAppend([], LogOf(h[..i]), rest, Some(h[i].sweep));
  }
}
