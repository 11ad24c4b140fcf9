/** The spend ledger: a list of rows that is updated in place, one row per day, worker and model. */
module Ledger {
  datatype Cell = Cell(day: int, worker: string, model: string)
  datatype Amount = Amount(tokensIn: int, tokensOut: int, cost: real)
  datatype Row = Row(cell: Cell, amount: Amount)

  function Plus(a: Amount, b: Amount): Amount {
    Amount(a.tokensIn + b.tokensIn, a.tokensOut + b.tokensOut, a.cost + b.cost)
  }

  const ZERO: Amount := Amount(0, 0, 0.0)

  /** Which rows a total is taken over. */
  datatype Filter = OfDay(day: int) | OfCell(cell: Cell)

  predicate Covers(f: Filter, c: Cell) {
    match f
    case OfDay(day) => c.day == day
    case OfCell(cell) => c == cell
  }

  function TotalOf(rows: seq<Row>, f: Filter): Amount {
    if rows == [] then ZERO
    else
      var n := |rows| - 1;
      if Covers(f, rows[n].cell) then Plus(TotalOf(rows[..n], f), rows[n].amount) else TotalOf(rows[..n], f)
  }

  function OnDay(rows: seq<Row>, day: int): seq<Row> {
    if rows == [] then []
    else OnDay(rows[..|rows|-1], day) + (if rows[|rows|-1].cell.day == day then [rows[|rows|-1]] else [])
  }

  ghost predicate OneRowPerCell(rows: seq<Row>) {
    forall i, j :: 0 <= i < j < |rows| ==> rows[i].cell != rows[j].cell
  }

  ghost predicate Has(rows: seq<Row>, c: Cell) {
    exists i :: 0 <= i < |rows| && rows[i].cell == c
  }

  lemma AppendTotal(rows: seq<Row>, r: Row, f: Filter)
    ensures TotalOf(rows + [r], f) == if Covers(f, r.cell) then Plus(TotalOf(rows, f), r.amount) else TotalOf(rows, f)
  {
    assert (rows + [r])[..|rows|] == rows;
  }

  /** Adding to one row in place changes a total exactly like appending the amount. */
  lemma {:induction false} UpdateTotal(rows: seq<Row>, i: nat, a: Amount, f: Filter)
    requires i < |rows|
    ensures var rows' := rows[i := Row(rows[i].cell, Plus(rows[i].amount, a))];
            TotalOf(rows', f) == if Covers(f, rows[i].cell) then Plus(TotalOf(rows, f), a) else TotalOf(rows, f)
  {
    var n := |rows| - 1;
    var rows' := rows[i := Row(rows[i].cell, Plus(rows[i].amount, a))];
    if i == n {
      assert rows'[..n] == rows[..n];
    } else {
      UpdateTotal(rows[..n], i, a, f);
      assert rows'[..n] == rows[..n][i := Row(rows[i].cell, Plus(rows[i].amount, a))];
    }
  }

  lemma {:induction false} OnDayTotal(rows: seq<Row>, day: int)
    ensures TotalOf(OnDay(rows, day), OfDay(day)) == TotalOf(rows, OfDay(day))
    ensures forall i :: 0 <= i < |OnDay(rows, day)| ==>
              OnDay(rows, day)[i].cell.day == day && OnDay(rows, day)[i] in rows
    ensures forall r :: r in rows && r.cell.day == day ==> r in OnDay(rows, day)
  {
    if rows != [] {
      var n := |rows| - 1;
      OnDayTotal(rows[..n], day);
      assert rows == rows[..n] + [rows[n]];
      if rows[n].cell.day == day {
        AppendTotal(OnDay(rows[..n], day), rows[n], OfDay(day));
      } else {
        assert OnDay(rows[..n], day) + [] == OnDay(rows[..n], day);
      }
    }
  }

  lemma {:induction false} CellTotal(rows: seq<Row>, i: nat)
    requires OneRowPerCell(rows) && i < |rows|
    ensures TotalOf(rows, OfCell(rows[i].cell)) == rows[i].amount
  {
    var n := |rows| - 1;
    if i < n {
      CellTotal(rows[..n], i);
      assert rows[i].cell != rows[n].cell;
    } else {
      NoTotal(rows[..n], rows[n].cell);
    }
  }

  lemma {:induction false} NoTotal(rows: seq<Row>, c: Cell)
    requires !Has(rows, c)
    ensures TotalOf(rows, OfCell(c)) == ZERO
  {
    if rows != [] {
      var n := |rows| - 1;
      assert rows[n].cell != c;
      assert forall i :: 0 <= i < n ==> rows[..n][i] == rows[i];
      NoTotal(rows[..n], c);
    }
  }

  class SpendRepo {
    var rows: seq<Row>
    var calls: nat
    /** Everything that was ever added, in order. */
    ghost var added: seq<Row>

    ghost predicate Valid()
      reads this
    {
      && calls == |added| && OneRowPerCell(rows)
      && (forall c :: Has(rows, c) <==> Has(added, c))
      && (forall f :: TotalOf(rows, f) == TotalOf(added, f))
    }

    constructor ()
      ensures Valid() && added == [] && rows == []
    {
      rows, calls, added := [], 0, [];
    }

    /** The position of the row of a cell, or the length when there is none. */
    method Find(c: Cell) returns (i: nat)
      ensures i <= |rows| && (i < |rows| ==> rows[i].cell == c) && (i == |rows| ==> !Has(rows, c))
    {
      i := 0;
      while i < |rows|
        invariant i <= |rows| && forall j :: 0 <= j < i ==> rows[j].cell != c
      {
        if rows[i].cell == c { return; }
        i := i + 1;
      }
    }

    ghost method Record(was: seq<Row>, r: Row)
      requires calls == |added| + 1 && OneRowPerCell(rows)
      requires forall c :: Has(was, c) <==> Has(added, c)
      requires forall f :: TotalOf(was, f) == TotalOf(added, f)
      requires forall c :: Has(rows, c) <==> Has(was, c) || c == r.cell
      requires forall f :: TotalOf(rows, f)
                           == if Covers(f, r.cell) then Plus(TotalOf(was, f), r.amount) else TotalOf(was, f)
      modifies `added
      ensures Valid() && added == old(added) + [r]
    {
      ghost var now := added + [r];
      forall f ensures TotalOf(rows, f) == TotalOf(now, f) { AppendTotal(added, r, f); }
      forall c ensures Has(rows, c) <==> Has(now, c) {
        assert now[|added|] == r;
        if Has(added, c) {
          ghost var i :| 0 <= i < |added| && added[i].cell == c;
          assert now[i].cell == c;
        }
        if Has(now, c) && c != r.cell {
          ghost var i :| 0 <= i < |now| && now[i].cell == c;
          assert added[i].cell == c;
        }
      }
      added := now;
    }

    /** One more amount for a cell, whether or not the cell has a row already. */
    method SpendAdd(c: Cell, a: Amount)
      requires Valid()
      modifies this
      ensures Valid() && calls == old(calls) + 1 && added == old(added) + [Row(c, a)]
      ensures |rows| == |old(rows)| + (if Has(old(rows), c) then 0 else 1)
      ensures forall i :: 0 <= i < |old(rows)| && old(rows)[i].cell != c ==> rows[i] == old(rows)[i]
    {
      ghost var was := rows;
      calls := calls + 1;
      var i := Find(c);
      if i < |rows| {
        rows := rows[i := Row(c, Plus(rows[i].amount, a))];
        forall f ensures TotalOf(rows, f) == if Covers(f, c) then Plus(TotalOf(was, f), a) else TotalOf(was, f) {
          UpdateTotal(was, i, a, f);
        }
        assert forall j :: 0 <= j < |rows| ==> rows[j].cell == was[j].cell;
        assert forall d :: Has(rows, d) <==> Has(was, d);
        assert was[i].cell == c;
      } else {
        rows := rows + [Row(c, a)];
        forall f ensures TotalOf(rows, f) == if Covers(f, c) then Plus(TotalOf(was, f), a) else TotalOf(was, f) {
          AppendTotal(was, Row(c, a), f);
        }
        forall d ensures Has(rows, d) <==> Has(was, d) || d == c {
          assert rows[|was|].cell == c;
          if Has(was, d) {
            ghost var j :| 0 <= j < |was| && was[j].cell == d;
            assert rows[j].cell == d;
          }
        }
      }
      Record(was, Row(c, a));
    }

    /** The rows of a day: exactly those of the ledger, and together exactly what was added that day. */
    method SpendByDay(day: int) returns (out: seq<Row>)
      requires Valid()
      ensures out == OnDay(rows, day)
      ensures forall r :: r in out <==> r in rows && r.cell.day == day
      ensures TotalOf(out, OfDay(day)) == TotalOf(added, OfDay(day))
    {
      out := [];
      for i := 0 to |rows|
        invariant out == OnDay(rows[..i], day)
      {
        assert rows[..i+1][..i] == rows[..i];
        if rows[i].cell.day == day { out := out + [rows[i]]; }
      }
      assert rows[..|rows|] == rows;
      OnDayTotal(rows, day);
    }
  }

  /** A row holds exactly what was added to its cell. */
  lemma RowIsItsCell(repo: SpendRepo, i: nat)
    requires repo.Valid() && i < |repo.rows|
    ensures repo.rows[i].amount == TotalOf(repo.added, OfCell(repo.rows[i].cell))
  {
    CellTotal(repo.rows, i);
  }
}
