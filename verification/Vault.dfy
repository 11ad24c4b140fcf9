/** The in-memory vault that five workers share: rows updated in place beside two append-only logs. */
module Vault {
  import opened Wrappers

  datatype Status =
    Quarantined | Candidate | Validated | Superseded | Stale | Retired | Archived | Pinned | Tombstoned

  predicate Retrievable(s: Status) { s == Validated || s == Candidate || s == Pinned }

  /** Three of the nine statuses can be retrieved; the other six never are. */
  lemma RetrievableIff(s: Status)
    ensures Retrievable(s) <==> s !in {Quarantined, Superseded, Stale, Retired, Archived, Tombstoned}
  {
  }

  datatype Row = Row(
    project: nat, status: Status, content: string, changedAt: int, runs: seq<nat>,
    embedding: Option<seq<real>>, modelId: Option<string>, modelVersion: Option<string>,
    q: real, uses: nat, events: set<nat>, updatesToday: nat)

  datatype StatusWrite = StatusWrite(id: nat, before: Status, after: Status)
  datatype QUpdate = QUpdate(id: nat, event: nat, newQ: real)

  datatype Append = NotEligible | AlreadyPresent | Appended

  // ----- replaying the logs -----

  function ReplayStatus(born: Status, log: seq<StatusWrite>, id: nat): Status {
    if log == [] then born
    else if log[|log|-1].id == id then log[|log|-1].after
    else ReplayStatus(born, log[..|log|-1], id)
  }

  /** Value, uses and events of a row after its Q updates. */
  function ReplayQ(log: seq<QUpdate>, id: nat): (real, nat, set<nat>) {
    if log == [] then (0.5, 0, {})
    else
      var u, t := log[|log|-1], ReplayQ(log[..|log|-1], id);
      if u.id == id then (u.newQ, t.1 + 1, t.2 + {u.event}) else t
  }

  ghost predicate Distinct(s: seq<nat>) {
    forall i, j :: 0 <= i < j < |s| ==> s[i] != s[j]
  }

  ghost predicate RowOk(r: Row, born: Status, writes: seq<StatusWrite>, updates: seq<QUpdate>, id: nat) {
    && r.status == ReplayStatus(born, writes, id)
    && (r.q, r.uses, r.events) == ReplayQ(updates, id) && r.updatesToday == r.uses
    && Distinct(r.runs)
    && (r.embedding.Some? <==> r.modelId.Some?) && (r.embedding.Some? <==> r.modelVersion.Some?)
  }

  lemma {:induction false} UntouchedReplay(born: Status, writes: seq<StatusWrite>, updates: seq<QUpdate>, id: nat)
    requires forall k :: 0 <= k < |writes| ==> writes[k].id != id
    requires forall k :: 0 <= k < |updates| ==> updates[k].id != id
    ensures ReplayStatus(born, writes, id) == born && ReplayQ(updates, id) == (0.5, 0, {})
    decreases |writes| + |updates|
  {
    if writes != [] {
      UntouchedReplay(born, writes[..|writes|-1], updates, id);
    } else if updates != [] {
      UntouchedReplay(born, writes, updates[..|updates|-1], id);
    }
  }

  lemma ReplayAppend(born: Status, writes: seq<StatusWrite>, w: StatusWrite, id: nat)
    ensures ReplayStatus(born, writes + [w], id) == if w.id == id then w.after else ReplayStatus(born, writes, id)
  {
    assert (writes + [w])[..|writes|] == writes;
  }

  lemma ReplayQAppend(updates: seq<QUpdate>, u: QUpdate, id: nat)
    ensures var t := ReplayQ(updates, id);
            ReplayQ(updates + [u], id) == if u.id == id then (u.newQ, t.1 + 1, t.2 + {u.event}) else t
  {
    assert (updates + [u])[..|updates|] == updates;
  }

  /** Every logged transition started from the status its row then had. */
  ghost predicate Chained(born: map<nat, Status>, writes: seq<StatusWrite>) {
    forall k :: 0 <= k < |writes| ==> LinkOk(born, writes, k)
  }

  ghost predicate LinkOk(born: map<nat, Status>, writes: seq<StatusWrite>, k: nat)
    requires k < |writes|
  {
    writes[k].id in born && writes[k].before == ReplayStatus(born[writes[k].id], writes[..k], writes[k].id)
  }

  lemma ChainedAppend(born: map<nat, Status>, writes: seq<StatusWrite>, w: StatusWrite)
    requires Chained(born, writes) && w.id in born && w.before == ReplayStatus(born[w.id], writes, w.id)
    ensures Chained(born, writes + [w])
  {
    var log := writes + [w];
    forall k | 0 <= k < |log| ensures LinkOk(born, log, k) {
      assert log[..k] == writes[..k];
      if k < |writes| { assert LinkOk(born, writes, k); } else { assert writes[..k] == writes; }
    }
  }

  lemma ChainedBirth(born: map<nat, Status>, writes: seq<StatusWrite>, id: nat, status: Status)
    requires Chained(born, writes) && id !in born
    ensures Chained(born[id := status], writes)
    ensures forall k :: 0 <= k < |writes| ==> writes[k].id != id
  {
    forall k | 0 <= k < |writes| ensures LinkOk(born[id := status], writes, k) && writes[k].id != id {
      assert LinkOk(born, writes, k);
    }
  }

  function Scored(r: Row, u: QUpdate): Row {
    r.(q := u.newQ, uses := r.uses + 1, events := r.events + {u.event}, updatesToday := r.updatesToday + 1)
  }

  lemma ScoredRowOk(r: Row, born: Status, writes: seq<StatusWrite>, updates: seq<QUpdate>, u: QUpdate, id: nat)
    requires RowOk(r, born, writes, updates, id)
    ensures RowOk(if u.id == id then Scored(r, u) else r, born, writes, updates + [u], id)
  {
    ReplayQAppend(updates, u, id);
  }

  predicate NeedsEmbedding(r: Row, project: nat, model: string, version: string) {
    r.project == project && Retrievable(r.status)
    && (r.embedding == None || r.modelId != Some(model) || r.modelVersion != Some(version))
  }

  function Needing(rows: map<nat, Row>, project: nat, model: string, version: string): set<nat> {
    set id | id in rows && NeedsEmbedding(rows[id], project, model, version)
  }

  function Embedded(r: Row, vector: seq<real>, model: string, version: string): Row {
    r.(embedding := Some(vector), modelId := Some(model), modelVersion := Some(version))
  }

  lemma NeedingWithout(rows: map<nat, Row>, project: nat, id: nat, vector: seq<real>, model: string, version: string)
    requires id in rows
    ensures Needing(rows[id := Embedded(rows[id], vector, model, version)], project, model, version)
            == Needing(rows, project, model, version) - {id}
  {
  }

  ghost function Left(rows: map<nat, Row>, project: nat, model: string, version: string): nat {
    |Needing(rows, project, model, version)|
  }

  lemma Smaller(a: set<nat>, b: set<nat>, x: nat)
    requires a <= b && x in b && x !in a
    ensures |a| < |b|
  {
    Fewer(a, b - {x});
  }

  lemma {:induction false} Fewer(a: set<nat>, b: set<nat>)
    requires a <= b
    ensures |a| <= |b|
  {
    if a != {} {
      var x :| x in a;
      Fewer(a - {x}, b - {x});
    }
  }

  /** Everything but the three embedding fields. */
  function Bare(r: Row): Row { r.(embedding := None, modelId := None, modelVersion := None) }

  ghost predicate SameButEmbeddings(a: map<nat, Row>, b: map<nat, Row>) {
    a.Keys == b.Keys && forall id :: id in a ==> Bare(a[id]) == Bare(b[id])
  }

  ghost predicate OthersUntouched(a: map<nat, Row>, b: map<nat, Row>, project: nat) {
    forall id :: id in a && a[id].project != project ==> id in b && b[id] == a[id]
  }

  /** Only embeddings of the project changed. */
  ghost predicate OnlyEmbedded(a: map<nat, Row>, b: map<nat, Row>, project: nat) {
    OthersUntouched(a, b, project) && SameButEmbeddings(a, b)
  }

  lemma EmbeddedTwice(a: map<nat, Row>, b: map<nat, Row>, c: map<nat, Row>, project: nat)
    requires OnlyEmbedded(a, b, project) && OnlyEmbedded(b, c, project)
    ensures OnlyEmbedded(a, c, project)
  {
    forall id | id in a ensures id in c && Bare(c[id]) == Bare(a[id]) && (a[id].project != project ==> c[id] == a[id]) {
      assert id in b && Bare(b[id]) == Bare(a[id]) && Bare(c[id]) == Bare(b[id]);
      assert b[id].project == Bare(b[id]).project == a[id].project;
    }
  }

  /** No confirming run is lost or added. */
  ghost predicate SameRuns(a: map<nat, Row>, b: map<nat, Row>) {
    forall id :: id in a ==> id in b && b[id].runs == a[id].runs
  }

  lemma {:induction false} LeastExists(s: set<nat>) returns (m: nat)
    requires s != {}
    ensures m in s && forall x :: x in s ==> m <= x
  {
    m :| m in s;
    if s != {m} {
      assert s - {m} != {} && s == (s - {m}) + {m};
      var rest := LeastExists(s - {m});
      if rest < m { m := rest; }
    }
  }

  method InOrder(s: set<nat>) returns (out: seq<nat>)
    ensures (forall x :: x in out <==> x in s) && (forall i, j :: 0 <= i < j < |out| ==> out[i] < out[j])
    ensures |out| == |s|
  {
    out := [];
    var left := s;
    while left != {}
      invariant left <= s && (forall x :: x in out <==> x in s - left) && |out| + |left| == |s|
      invariant forall i, j :: 0 <= i < j < |out| ==> out[i] < out[j]
      invariant forall i, x :: 0 <= i < |out| && x in left ==> out[i] < x
      decreases |left|
    {
      ghost var least := LeastExists(left);
      var m :| m in left && forall x :: x in left ==> m <= x;
      out, left := out + [m], left - {m};
    }
  }

  function SliceLength(n: nat, limit: int): nat {
    if limit >= n then n else if limit >= 0 then limit else if n + limit >= 0 then n + limit else 0
  }

  /** Python's `out[:limit]`. */
  function Slice<T>(s: seq<T>, limit: int): seq<T> {
    if limit >= |s| then s else if limit >= 0 then s[..limit] else if |s| + limit >= 0 then s[..|s| + limit] else []
  }

  // ----- sequences of operations -----

  datatype Operation =
    | Insertion(project: nat, id: nat, status: Status, content: string, now: int)
    | Embedding(project: nat, id: nat, vector: seq<real>, model: string, version: string)
    | EmbeddingPass(project: nat, model: string, version: string, limit: int)
    | Confirmation(project: nat, id: nat, run: nat)
    | Transition(project: nat, write: StatusWrite, now: int)
    | Scoring(project: nat, update: QUpdate)

  ghost predicate RowGrew(a: Row, b: Row) {
    && a.project == b.project && a.content == b.content
    && a.runs <= b.runs && a.uses <= b.uses && a.events <= b.events
  }

  /** No row is lost, and no row loses its project, its content, a confirming run or a scored event. */
  ghost predicate Grew(a: map<nat, Row>, b: map<nat, Row>) {
    forall id :: id in a ==> id in b && RowGrew(a[id], b[id])
  }

  /** Nothing outside the given projects changed, and no row was added there. */
  ghost predicate Confined(a: map<nat, Row>, b: map<nat, Row>, projects: set<nat>) {
    && (forall id :: id in a && a[id].project !in projects ==> id in b && b[id] == a[id])
    && (forall id :: id in b && id !in a ==> b[id].project in projects)
  }

  ghost predicate Extends(a: map<nat, Status>, b: map<nat, Status>) {
    forall id :: id in a ==> id in b && b[id] == a[id]
  }

  lemma EmbeddingGrows(a: map<nat, Row>, b: map<nat, Row>, project: nat)
    requires OnlyEmbedded(a, b, project)
    ensures Grew(a, b) && Confined(a, b, {project})
  {
    forall id | id in a ensures id in b && RowGrew(a[id], b[id]) {
      assert Bare(a[id]) == Bare(b[id]);
      assert a[id].runs == Bare(a[id]).runs && a[id].uses == Bare(a[id]).uses && a[id].events == Bare(a[id]).events;
      assert a[id].project == Bare(a[id]).project && a[id].content == Bare(a[id]).content;
    }
  }

  lemma OneRowGrows(a: map<nat, Row>, id: nat, r: Row)
    requires id in a && RowGrew(a[id], r)
    ensures Grew(a, a[id := r]) && Confined(a, a[id := r], {r.project})
  {
  }

  lemma GrewTwice(a: map<nat, Row>, b: map<nat, Row>, c: map<nat, Row>)
    requires Grew(a, b) && Grew(b, c)
    ensures Grew(a, c)
  {
  }

  lemma ConfinedTwice(a: map<nat, Row>, b: map<nat, Row>, c: map<nat, Row>, p: set<nat>, q: set<nat>)
    requires Grew(a, b) && Grew(b, c) && Confined(a, b, p) && Confined(b, c, q)
    ensures Confined(a, c, p + q)
  {
  }

  lemma {:induction false} ReplaySplits(born: Status, a: seq<StatusWrite>, b: seq<StatusWrite>, id: nat)
    ensures ReplayStatus(born, a + b, id) == ReplayStatus(ReplayStatus(born, a, id), b, id)
  {
    if b == [] {
      assert a + b == a;
    } else {
      ReplaySplits(born, a, b[..|b|-1], id);
      assert (a + b)[..|a + b|-1] == a + b[..|b|-1];
    }
  }

  class Store {
    var rows: map<nat, Row>
    var statusWrites: seq<StatusWrite>
    var qUpdates: seq<QUpdate>
    /** The status each row was created with. */
    ghost var born: map<nat, Status>

    /** Every row is what its logs say, and every logged transition started from the status then current. */
    ghost predicate Valid()
      reads this
    {
      && born.Keys == rows.Keys
      && (forall id :: id in rows ==> RowOk(rows[id], born[id], statusWrites, qUpdates, id))
      && Chained(born, statusWrites)
      && (forall k :: 0 <= k < |qUpdates| ==> qUpdates[k].id in rows)
    }

    constructor ()
      ensures Valid() && rows == map[] && statusWrites == [] && qUpdates == []
    {
      rows, statusWrites, qUpdates, born := map[], [], [], map[];
    }

    /** A new row under an identifier not used before. */
    method Insert(id: nat, project: nat, status: Status, content: string, now: int)
      requires Valid() && id !in rows
      modifies this
      ensures Valid() && statusWrites == old(statusWrites) && qUpdates == old(qUpdates)
      ensures rows == old(rows)[id := Row(project, status, content, now, [], None, None, None, 0.5, 0, {}, 0)]
      ensures born == old(born)[id := status]
    {
      ChainedBirth(born, statusWrites, id, status);
      UntouchedReplay(status, statusWrites, qUpdates, id);
      rows := rows[id := Row(project, status, content, now, [], None, None, None, 0.5, 0, {}, 0)];
      born := born[id := status];
    }

    /** The three embedding fields together, or nothing for a missing row or another project. */
    method WriteEmbedding(project: nat, id: nat, vector: seq<real>, model: string, version: string) returns (ok: bool)
      requires Valid()
      modifies `rows
      ensures Valid() && OnlyEmbedded(old(rows), rows, project)
      ensures ok <==> id in old(rows) && old(rows)[id].project == project
      ensures rows == if ok then old(rows)[id := Embedded(old(rows)[id], vector, model, version)] else old(rows)
    {
      ok := id in rows && rows[id].project == project;
      if ok {
        rows := rows[id := Embedded(rows[id], vector, model, version)];
      }
    }

    /** Eligibility and membership decided together. */
    method AppendConfirmingRun(project: nat, id: nat, run: nat) returns (r: Append)
      requires Valid()
      modifies `rows
      ensures Valid() && OthersUntouched(old(rows), rows, project)
      ensures r == NotEligible <==>
                !(id in old(rows) && old(rows)[id].project == project && old(rows)[id].status == Quarantined)
      ensures r == AlreadyPresent ==> id in old(rows) && run in old(rows)[id].runs
      ensures r == Appended ==> id in old(rows) && run !in old(rows)[id].runs
                                && rows == old(rows)[id := old(rows)[id].(runs := old(rows)[id].runs + [run])]
      ensures r != Appended ==> rows == old(rows)
    {
      if id !in rows || rows[id].project != project || rows[id].status != Quarantined { return NotEligible; }
      if run in rows[id].runs { return AlreadyPresent; }
      rows := rows[id := rows[id].(runs := rows[id].runs + [run])];
      return Appended;
    }

    /** The one way a status changes: refused for a missing row, another project or a stale starting status. */
    method Persist(project: nat, w: StatusWrite, now: int) returns (ok: bool)
      requires Valid()
      modifies `rows, `statusWrites
      ensures Valid() && OthersUntouched(old(rows), rows, project) && SameRuns(old(rows), rows)
      ensures ok <==> w.id in old(rows) && old(rows)[w.id].project == project && old(rows)[w.id].status == w.before
      ensures ok ==> rows == old(rows)[w.id := old(rows)[w.id].(status := w.after, changedAt := now)]
                     && statusWrites == old(statusWrites) + [w]
      ensures !ok ==> rows == old(rows) && statusWrites == old(statusWrites)
    {
      ok := w.id in rows && rows[w.id].project == project && rows[w.id].status == w.before;
      if ok {
        ghost var log := statusWrites;
        ChainedAppend(born, log, w);
        forall id | id in rows ensures ReplayStatus(born[id], log + [w], id)
                                       == if w.id == id then w.after else ReplayStatus(born[id], log, id) {
          ReplayAppend(born[id], log, w, id);
        }
        rows := rows[w.id := rows[w.id].(status := w.after, changedAt := now)];
        statusWrites := statusWrites + [w];
      }
    }

    method ApplyQUpdate(project: nat, u: QUpdate) returns (ok: bool)
      requires Valid()
      modifies `rows, `qUpdates
      ensures Valid() && OthersUntouched(old(rows), rows, project) && SameRuns(old(rows), rows)
      ensures ok <==> u.id in old(rows) && old(rows)[u.id].project == project
      ensures ok ==> qUpdates == old(qUpdates) + [u] && rows == old(rows)[u.id := Scored(old(rows)[u.id], u)]
      ensures !ok ==> rows == old(rows) && qUpdates == old(qUpdates)
    {
      ok := u.id in rows && rows[u.id].project == project;
      if ok {
        ghost var was := rows;
        rows := rows[u.id := Scored(rows[u.id], u)];
        forall id | id in rows ensures RowOk(rows[id], born[id], statusWrites, qUpdates + [u], id) {
          ScoredRowOk(was[id], born[id], statusWrites, qUpdates, u, id);
        }
        qUpdates := qUpdates + [u];
      }
    }

    /** In identifier order, the first `limit` rows that need an embedding; a negative limit drops from the end. */
    method SelectNeedingEmbedding(project: nat, model: string, version: string, limit: int) returns (ids: seq<nat>)
      ensures forall i :: 0 <= i < |ids| ==> ids[i] in Needing(rows, project, model, version)
      ensures forall i, j :: 0 <= i < j < |ids| ==> ids[i] < ids[j]
      ensures |ids| == SliceLength(|Needing(rows, project, model, version)|, limit)
      ensures limit >= 0 ==> |ids| <= limit
      ensures limit > 0 && Needing(rows, project, model, version) != {} ==> ids != []
      ensures forall x, y :: x in ids && y in Needing(rows, project, model, version) && y < x ==> y in ids
    {
      var all := InOrder(Needing(rows, project, model, version));
      ids := Slice(all, limit);
      if Needing(rows, project, model, version) != {} {
        ghost var x :| x in Needing(rows, project, model, version);
        assert x in all;
      }
      assert ids <= all;
    }

    method EmbedOne(project: nat, id: nat, model: string, version: string, embed: string -> seq<real>)
      requires Valid() && id in rows && rows[id].project == project
      modifies `rows
      ensures Valid() && OnlyEmbedded(old(rows), rows, project)
      ensures Needing(rows, project, model, version) == Needing(old(rows), project, model, version) - {id}
      ensures rows[id].embedding == Some(embed(rows[id].content))
    {
      ghost var was := rows;
      var vector := embed(rows[id].content);
      var ok := WriteEmbedding(project, id, vector, model, version);
      NeedingWithout(was, project, id, vector, model, version);
    }

    /** One pass: what was selected gets the pinned embedding of its content. */
    method EmbedPass(project: nat, model: string, version: string, limit: int, embed: string -> seq<real>)
      returns (written: nat)
      requires Valid()
      modifies `rows
      ensures Valid() && OnlyEmbedded(old(rows), rows, project)
      ensures written > 0 ==> Left(rows, project, model, version) < Left(old(rows), project, model, version)
      ensures written == 0 ==> rows == old(rows)
      ensures written == 0 && limit > 0 ==> Needing(rows, project, model, version) == {}
    {
      var ids := SelectNeedingEmbedding(project, model, version, limit);
      written := 0;
      ghost var need := Needing(rows, project, model, version);
      for i := 0 to |ids|
        invariant Valid() && OnlyEmbedded(old(rows), rows, project)
        invariant written == i
        invariant Needing(rows, project, model, version) <= need
        invariant i == 0 ==> rows == old(rows)
        invariant i > 0 ==> ids[0] !in Needing(rows, project, model, version)
      {
        assert ids[i] in need;
        assert Bare(rows[ids[i]]) == Bare(old(rows)[ids[i]]);
        ghost var was := rows;
        EmbedOne(project, ids[i], model, version, embed);
        EmbeddedTwice(old(rows), was, rows, project);
        written := written + 1;
      }
      if written > 0 { Smaller(Needing(rows, project, model, version), need, ids[0]); }
    }

    /** Passes with a positive limit and a fixed pin end, with nothing left to embed. */
    method EmbedAll(project: nat, model: string, version: string, limit: int, embed: string -> seq<real>)
      requires Valid()
      modifies `rows
      ensures Valid() && OnlyEmbedded(old(rows), rows, project)
      ensures limit > 0 ==> Needing(rows, project, model, version) == {}
    {
      var written := EmbedPass(project, model, version, limit, embed);
      ghost var left := Left(rows, project, model, version);
      while written > 0
        invariant Valid() && OnlyEmbedded(old(rows), rows, project)
        invariant left == Left(rows, project, model, version)
        invariant written == 0 && limit > 0 ==> Needing(rows, project, model, version) == {}
        decreases left, written
      {
        ghost var was := rows;
        written := EmbedPass(project, model, version, limit, embed);
        EmbeddedTwice(old(rows), was, rows, project);
        left := Left(rows, project, model, version);
      }
    }

    /** What an operation on rows already there leaves as it was. */
    method Change(op: Operation, embed: string -> seq<real>)
      requires Valid() && !op.Insertion?
      modifies `rows, `statusWrites, `qUpdates
      ensures Valid() && Grew(old(rows), rows) && Confined(old(rows), rows, {op.project})
      ensures old(statusWrites) <= statusWrites && old(qUpdates) <= qUpdates
    {
      match op
      case Embedding(project, id, vector, model, version) =>
        var ok := WriteEmbedding(project, id, vector, model, version);
        EmbeddingGrows(old(rows), rows, project);
      case EmbeddingPass(project, model, version, limit) =>
        var written := EmbedPass(project, model, version, limit, embed);
        EmbeddingGrows(old(rows), rows, project);
      case Confirmation(project, id, run) =>
        var r := AppendConfirmingRun(project, id, run);
        if r == Appended { OneRowGrows(old(rows), id, rows[id]); }
      case Transition(project, write, now) =>
        var ok := Persist(project, write, now);
        if ok { OneRowGrows(old(rows), write.id, rows[write.id]); }
      case Scoring(project, update) =>
        var ok := ApplyQUpdate(project, update);
        if ok { OneRowGrows(old(rows), update.id, rows[update.id]); }
    }

    /** One operation of any kind; an identifier in use is not drawn a second time. */
    method Apply(op: Operation, embed: string -> seq<real>)
      requires Valid()
      modifies this
      ensures Valid() && Grew(old(rows), rows) && Confined(old(rows), rows, {op.project})
      ensures old(statusWrites) <= statusWrites && old(qUpdates) <= qUpdates && Extends(old(born), born)
    {
      if !op.Insertion? {
        Change(op, embed);
      } else if op.id !in rows {
        Insert(op.id, op.project, op.status, op.content, op.now);
      }
    }

    /**
     * Any sequence of operations keeps the store valid, loses nothing and stays within the projects it names.
     * The new status of a row is its old one, moved by just the transitions logged meanwhile.
     */
    method ApplyAll(ops: seq<Operation>, embed: string -> seq<real>)
      requires Valid()
      modifies this
      ensures Valid() && Grew(old(rows), rows)
      ensures Confined(old(rows), rows, set op | op in ops :: op.project)
      ensures old(statusWrites) <= statusWrites && old(qUpdates) <= qUpdates
      ensures forall id :: id in old(rows) ==>
                rows[id].status == ReplayStatus(old(rows)[id].status, statusWrites[|old(statusWrites)|..], id)
    {
      ghost var projects: set<nat> := {};
      for i := 0 to |ops|
        invariant Valid() && Grew(old(rows), rows) && Confined(old(rows), rows, projects)
        invariant projects == set op | op in ops[..i] :: op.project
        invariant old(statusWrites) <= statusWrites && old(qUpdates) <= qUpdates && Extends(old(born), born)
      {
        ghost var was := rows;
        Apply(ops[i], embed);
        GrewTwice(old(rows), was, rows);
        ConfinedTwice(old(rows), was, rows, projects, {ops[i].project});
        assert ops[..i+1] == ops[..i] + [ops[i]];
        projects := projects + {ops[i].project};
      }
      assert ops[..|ops|] == ops;
      forall id | id in old(rows)
        ensures rows[id].status == ReplayStatus(old(rows)[id].status, statusWrites[|old(statusWrites)|..], id)
      {
        assert statusWrites == old(statusWrites) + statusWrites[|old(statusWrites)|..];
        ReplaySplits(born[id], old(statusWrites), statusWrites[|old(statusWrites)|..], id);
        assert RowOk(rows[id], born[id], statusWrites, qUpdates, id);
      }
    }
  }
}
