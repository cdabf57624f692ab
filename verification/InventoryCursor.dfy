/** The cursor that spreads inspection of attachment shadows over many inventory replies. */
module InventoryCursor {
  import opened Basics

  datatype Row = Row(id: nat, fields: seq<string>)

  /** A round inspects the rows from `next` to the frontier `through`. */
  datatype Cursor = Cursor(next: nat, through: nat, active: bool)

  const Unused := Cursor(0, 0, false)

  /** Rows are sorted by their distinct identities. */
  ghost predicate Sorted(rows: seq<Row>) {
    forall i, k :: 0 <= i < k < |rows| ==> rows[i].id < rows[k].id
  }

  /** The first row at or above `next`. */
  function Search(rows: seq<Row>, next: nat, from: nat): (start: nat)
    requires from <= |rows|
    ensures from <= start <= |rows| && (start < |rows| ==> rows[start].id >= next)
    ensures forall i :: from <= i < start ==> rows[i].id < next
    decreases |rows| - from
  {
    if from < |rows| && rows[from].id < next then Search(rows, next, from + 1) else from
  }

  /** Where the rows from `start` leave the budget or pass the frontier. */
  function Stop(rows: seq<Row>, start: nat, budget: int, through: nat): (end: nat)
    requires start <= |rows|
    ensures start <= end <= |rows|
    ensures end > start ==> rows[end - 1].id <= through
    ensures end - start <= Max(budget, 0)
    decreases |rows| - start
  {
    if start < |rows| && budget > 0 && rows[start].id <= through then Stop(rows, start + 1, budget - 1, through)
    else start
  }

  /** Whether a call starts a round: none is under way, or the rest of the old one has disappeared. */
  predicate Begins(c: Cursor, rows: seq<Row>) {
    !c.active || Search(rows, c.next, 0) == |rows| || rows[Search(rows, c.next, 0)].id > c.through
  }

  /** The round a call works on: a fresh one up to the highest row, or the one under way. */
  function RoundOf(c: Cursor, rows: seq<Row>): Cursor
    requires rows != []
  {
    if Begins(c, rows) then Cursor(0, rows[|rows| - 1].id, true) else c
  }

  /** The cursor behind the last row a call returned. */
  function Behind(round: Cursor, last: nat): Cursor {
    if last == round.through then round.(active := false) else round.(next := last + 1)
  }

  function Take(c: Cursor, rows: seq<Row>, budget: int): (Cursor, seq<Row>) {
    if rows == [] || budget <= 0 then (c, [])
    else
      var round := RoundOf(c, rows);
      var start := Search(rows, round.next, 0);
      var end := Stop(rows, start, budget, round.through);
      if start == end then (round, []) else (Behind(round, rows[end - 1].id), rows[start..end])
  }

  ghost predicate Inv(c: Cursor) {
    c.active ==> c.next <= c.through
  }

  /** How many identities the round may still visit. */
  function Remaining(c: Cursor): nat
    requires Inv(c)
  {
    if c.active then c.through - c.next + 1 else 0
  }

  ghost predicate Returned(c: Cursor, rows: seq<Row>, budget: int, id: nat) {
    exists row :: row in Take(c, rows, budget).1 && row.id == id
  }

  ghost predicate Present(rows: seq<Row>, id: nat) {
    exists row :: row in rows && row.id == id
  }

  /** One call keeps the frontier of its round, so rows above it cannot extend the round, and takes something off what
      remains. */
  lemma CallMoves(c: Cursor, rows: seq<Row>, budget: int)
    requires Inv(c) && Sorted(rows) && rows != [] && budget > 0
    ensures var (t, out) := Take(c, rows, budget);
            && Inv(t) && 1 <= |out| <= budget
            && t.through == (if Begins(c, rows) then rows[|rows| - 1].id else c.through)
            && (!Begins(c, rows) ==> c.active && Remaining(t) < Remaining(c) && (t.active ==> t.next >= c.next))
  {
    var start, end := TakeShape(c, rows, budget);
    InOrder(rows, start, end - 1);
    hide Take, Search, Stop, Sorted;
    assert !Begins(c, rows) ==> c.active;
  }

  lemma InOrder(rows: seq<Row>, i: nat, k: nat)
    requires Sorted(rows) && i <= k < |rows|
    ensures rows[i].id <= rows[k].id
  {
  }

  /** A returned row lies in the round's range, which then starts behind it; a present row of the range that the call
      did not return is still ahead. */
  lemma CallReturns(c: Cursor, rows: seq<Row>, budget: int, row: Row)
    requires Inv(c) && Sorted(rows) && rows != [] && budget > 0
    ensures var (t, out) := Take(c, rows, budget);
            var low := if Begins(c, rows) then 0 else c.next;
            && (row in out ==> row in rows && low <= row.id <= t.through && (t.active ==> row.id < t.next))
            && (row in rows && low <= row.id <= t.through && row !in out ==> t.active && row.id >= t.next)
  {
    var start, end := TakeShape(c, rows, budget);
    hide Take, Search, Stop, Begins, Sorted;
    if row in rows[start..end] {
      SliceBounds(rows, start, end, row);
    } else if row in rows && row.id >= RoundOf(c, rows).next {
      SliceMisses(rows, start, end, row, RoundOf(c, rows).next);
    }
  }

  lemma SliceBounds(rows: seq<Row>, start: nat, end: nat, row: Row)
    requires Sorted(rows) && start < end <= |rows| && row in rows[start..end]
    ensures row in rows && rows[start].id <= row.id <= rows[end - 1].id
  {
    hide Sorted;
    var i :| 0 <= i < |rows[start..end]| && rows[start..end][i] == row;
    InOrder(rows, start, start + i);
    InOrder(rows, start + i, end - 1);
  }

  lemma SliceMisses(rows: seq<Row>, start: nat, end: nat, row: Row, low: nat)
    requires Sorted(rows) && start < end <= |rows| && row in rows && row !in rows[start..end] && row.id >= low
    requires forall i :: 0 <= i < start ==> rows[i].id < low
    ensures row.id > rows[end - 1].id
  {
    Inside(rows, start, end);
    var i :| 0 <= i < |rows| && rows[i] == row;
    assert i >= end;
  }

  lemma Inside(rows: seq<Row>, start: nat, end: nat)
    requires start <= end <= |rows|
    ensures forall i :: start <= i < end ==> rows[i] in rows[start..end]
  {
    forall i | start <= i < end ensures rows[i] in rows[start..end] {
      assert rows[start..end][i - start] == rows[i];
    }
  }

  /** The rows a call returns lie side by side: behind those below the round, at most up to its frontier. */
  lemma TakeShape(c: Cursor, rows: seq<Row>, budget: int) returns (start: nat, end: nat)
    requires Sorted(rows) && rows != [] && budget > 0
    ensures start == Search(rows, RoundOf(c, rows).next, 0)
    ensures end == Stop(rows, start, budget, RoundOf(c, rows).through)
    ensures start < end <= |rows| && end - start <= budget
    ensures Take(c, rows, budget) == (Behind(RoundOf(c, rows), rows[end - 1].id), rows[start..end])
    ensures forall i :: 0 <= i < start ==> rows[i].id < RoundOf(c, rows).next
    ensures rows[start].id >= RoundOf(c, rows).next && rows[end - 1].id <= RoundOf(c, rows).through
  {
    var round := RoundOf(c, rows);
    start := Search(rows, round.next, 0);
    end := Stop(rows, start, budget, round.through);
    StopAfter(rows, start, budget, round.through);
  }

  lemma StopAfter(rows: seq<Row>, start: nat, budget: int, through: nat)
    requires start < |rows| && budget > 0 && rows[start].id <= through
    ensures Stop(rows, start, budget, through) > start
  {
  }

  // ---- Rounds ----------------------------------------------------------------------------------------------

  /** Successive calls, each with the rows of its moment. */
  ghost predicate Calls(trace: seq<Cursor>, rows: seq<seq<Row>>, budgets: seq<int>) {
    && |trace| == |rows| + 1 && |budgets| == |rows|
    && Inv(trace[0])
    && (forall i :: 0 <= i < |rows| ==> Sorted(rows[i]) && budgets[i] > 0)
    && forall i :: 0 <= i < |rows| ==> trace[i + 1] == Take(trace[i], rows[i], budgets[i]).0
  }

  lemma {:induction false} CallsKeepInv(trace: seq<Cursor>, rows: seq<seq<Row>>, budgets: seq<int>, i: nat)
    requires Calls(trace, rows, budgets) && i < |trace|
    ensures Inv(trace[i])
    ensures i < |rows| ==> Sorted(rows[i]) && budgets[i] > 0 && trace[i + 1] == Take(trace[i], rows[i], budgets[i]).0
  {
    if i > 0 {
      CallsKeepInv(trace, rows, budgets, i - 1);
      hide Take, Sorted, Inv;
      TakeKeepsInv(trace[i - 1], rows[i - 1], budgets[i - 1]);
    }
  }

  lemma TakeKeepsInv(c: Cursor, rows: seq<Row>, budget: int)
    requires Inv(c) && Sorted(rows)
    ensures Inv(Take(c, rows, budget).0)
  {
    if rows != [] && budget > 0 {
      CallMoves(c, rows, budget);
    }
  }

  /** No call after the one at `a` and before `b` starts a round, and every call finds rows. */
  ghost predicate OneRound(trace: seq<Cursor>, rows: seq<seq<Row>>, a: nat, b: nat)
    requires |trace| == |rows| + 1
  {
    a < b <= |rows| && (forall i :: a <= i < b ==> rows[i] != []) &&
    forall i :: a < i < b ==> !Begins(trace[i], rows[i])
  }

  /** Inside one round the frontier is fixed, the range only moves up and every call shortens what remains. */
  lemma {:induction false} RoundMovesUp(trace: seq<Cursor>, rows: seq<seq<Row>>, budgets: seq<int>, a: nat, b: nat)
    requires Calls(trace, rows, budgets) && OneRound(trace, rows, a, b)
    ensures trace[b].through == trace[a + 1].through && Inv(trace[b])
    ensures trace[b].active ==> trace[a + 1].active && trace[b].next >= trace[a + 1].next
    ensures Inv(trace[a + 1]) && Remaining(trace[b]) + (b - a - 1) <= Remaining(trace[a + 1])
  {
    CallsKeepInv(trace, rows, budgets, a + 1);
    if b > a + 1 {
      RoundMovesUp(trace, rows, budgets, a, b - 1);
      CallsKeepInv(trace, rows, budgets, b - 1);
      hide Take, Sorted, Begins, Calls;
      CallMoves(trace[b - 1], rows[b - 1], budgets[b - 1]);
    }
  }

  /** A round returns each identity at most once, whatever comes and goes between its calls. */
  lemma NoneTwice(trace: seq<Cursor>, rows: seq<seq<Row>>, budgets: seq<int>, a: nat, b: nat, i: nat, k: nat, id: nat)
    requires Calls(trace, rows, budgets) && OneRound(trace, rows, a, b) && a <= i < k < b
    requires Returned(trace[i], rows[i], budgets[i], id)
    ensures !Returned(trace[k], rows[k], budgets[k], id)
  {
    CallsKeepInv(trace, rows, budgets, i);
    CallsKeepInv(trace, rows, budgets, k);
    RoundMovesUp(trace, rows, budgets, i, k);
    CallMoves(trace[k], rows[k], budgets[k]);
    hide Take, Sorted, Begins, Calls;
    var row :| row in Take(trace[i], rows[i], budgets[i]).1 && row.id == id;
    CallReturns(trace[i], rows[i], budgets[i], row);
    forall other | other in Take(trace[k], rows[k], budgets[k]).1
      ensures other.id != id
    {
      CallReturns(trace[k], rows[k], budgets[k], other);
    }
  }

  /** A row present at every call of a round that started with it is returned, at the call `at`, or still ahead. */
  lemma {:induction false} AheadOrReturned(trace: seq<Cursor>, rows: seq<seq<Row>>, budgets: seq<int>, a: nat, b: nat,
                                           id: nat) returns (at: nat)
    requires Calls(trace, rows, budgets) && OneRound(trace, rows, a, b) && Begins(trace[a], rows[a])
    requires forall i :: a <= i < b ==> Present(rows[i], id)
    ensures a <= at <= b && (at < b ==> Returned(trace[at], rows[at], budgets[at], id))
    ensures at == b ==> trace[b].active && trace[b].next <= id <= trace[b].through
  {
    var i := b - 1;
    CallsKeepInv(trace, rows, budgets, i);
    assert Present(rows[i], id);
    at := b;
    if i > a {
      at := AheadOrReturned(trace, rows, budgets, a, i, id);
      if at < i {
        return;
      }
    }
    hide Take, Inv, Begins, Sorted, Calls, OneRound;
    var returned := AheadOrReturnedNow(trace[i], rows[i], budgets[i], id);
    at := if returned then i else b;
  }

  /** One call on rows that hold `id`, at the start of a round or with `id` still ahead. */
  lemma AheadOrReturnedNow(c: Cursor, rows: seq<Row>, budget: int, id: nat) returns (returned: bool)
    requires Inv(c) && Sorted(rows) && rows != [] && budget > 0 && Present(rows, id)
    requires Begins(c, rows) || c.next <= id <= c.through
    ensures var t := Take(c, rows, budget).0;
            if returned then Returned(c, rows, budget, id) else t.active && t.next <= id <= t.through
  {
    hide Take, Inv, Begins, Sorted;
    var row :| row in rows && row.id == id;
    HighestLast(rows, row);
    CallMoves(c, rows, budget);
    CallReturns(c, rows, budget, row);
    returned := row in Take(c, rows, budget).1;
  }

  lemma HighestLast(rows: seq<Row>, row: Row)
    requires Sorted(rows) && row in rows
    ensures row.id <= rows[|rows| - 1].id
  {
    var k :| 0 <= k < |rows| && rows[k] == row;
    InOrder(rows, k, |rows| - 1);
  }

  /** A full round, from the call that starts it to the next one that starts a round, returns every row present
      throughout. */
  lemma RoundReturns(trace: seq<Cursor>, rows: seq<seq<Row>>, budgets: seq<int>, a: nat, b: nat, id: nat)
    requires Calls(trace, rows, budgets) && OneRound(trace, rows, a, b) && b < |rows|
    requires Begins(trace[a], rows[a]) && Begins(trace[b], rows[b])
    requires forall i :: a <= i <= b ==> Present(rows[i], id)
    ensures exists i :: a <= i < b && Returned(trace[i], rows[i], budgets[i], id)
  {
    var at := AheadOrReturned(trace, rows, budgets, a, b, id);
    CallsKeepInv(trace, rows, budgets, b);
    NothingAhead(trace[b], rows[b], id);
  }

  /** A round that has to be started leaves no present row inside the old one. */
  lemma NothingAhead(c: Cursor, rows: seq<Row>, id: nat)
    requires Begins(c, rows) && Sorted(rows) && Present(rows, id)
    ensures !(c.active && c.next <= id <= c.through)
  {
    var row :| row in rows && row.id == id;
    var k :| 0 <= k < |rows| && rows[k] == row;
    var first := Search(rows, c.next, 0);
    if first <= k {
      InOrder(rows, first, k);
    }
  }

  /** The first call from `a` that starts a round, or `limit`. */
  lemma {:induction false} NextRound(trace: seq<Cursor>, rows: seq<seq<Row>>, a: nat, limit: nat) returns (b: nat)
    requires |trace| == |rows| + 1 && a <= limit <= |rows|
    ensures a <= b <= limit && (b < limit ==> Begins(trace[b], rows[b]))
    ensures forall i :: a <= i < b ==> !Begins(trace[i], rows[i])
    decreases limit - a
  {
    if a == limit || Begins(trace[a], rows[a]) {
      b := a;
    } else {
      b := NextRound(trace, rows, a + 1, limit);
    }
  }

  /** When no identity exceeds `top`, a row that stays present is returned within two rounds, at most 2 * top + 4
      calls, from any moment on. */
  lemma Fair(trace: seq<Cursor>, rows: seq<seq<Row>>, budgets: seq<int>, from: nat, top: nat, id: nat)
    requires Calls(trace, rows, budgets) && from + 2 * top + 4 <= |rows|
    requires forall i, row :: from <= i < |rows| && row in rows[i] ==> row.id <= top
    requires trace[from].active ==> trace[from].through <= top
    requires forall i :: from <= i < |rows| ==> Present(rows[i], id)
    ensures exists i :: from <= i < from + 2 * top + 4 && Returned(trace[i], rows[i], budgets[i], id)
  {
    hide Take, Sorted, Begins, Search;
    forall i | from <= i < |rows| ensures rows[i] != [] {
      assert Present(rows[i], id);
    }
    CallsKeepInv(trace, rows, budgets, from);
    var a := NextRound(trace, rows, from, |rows|);
    StartsWithin(trace, rows, budgets, from, a);
    assert a <= from + top + 1;
    var b := NextRound(trace, rows, a + 1, |rows|);
    RoundMovesUp(trace, rows, budgets, a, b);
    CallsKeepInv(trace, rows, budgets, a);
    CallMoves(trace[a], rows[a], budgets[a]);
    assert rows[a][|rows[a]| - 1] in rows[a];
    assert b - a - 1 <= top + 1;
    RoundReturns(trace, rows, budgets, a, b, id);
  }

  /** Without a new round, the calls are as many as the round had identities left. */
  lemma {:induction false} StartsWithin(trace: seq<Cursor>, rows: seq<seq<Row>>, budgets: seq<int>, from: nat, a: nat)
    requires Calls(trace, rows, budgets) && from <= a <= |rows| && Inv(trace[from])
    requires forall i :: from <= i < a ==> rows[i] != [] && !Begins(trace[i], rows[i])
    ensures Inv(trace[a]) && Remaining(trace[a]) + (a - from) <= Remaining(trace[from])
  {
    if a > from {
      StartsWithin(trace, rows, budgets, from, a - 1);
      CallsKeepInv(trace, rows, budgets, a - 1);
      hide Take, Sorted, Begins, Calls;
      CallMoves(trace[a - 1], rows[a - 1], budgets[a - 1]);
    }
  }

  lemma TakeIs(c: Cursor, rows: seq<Row>, budget: int)
    requires Sorted(rows) && rows != [] && budget > 0
    ensures var round := RoundOf(c, rows);
            var start := Search(rows, round.next, 0);
            var end := Stop(rows, start, budget, round.through);
            start < end <= |rows| && Take(c, rows, budget) == (Behind(round, rows[end - 1].id), rows[start..end])
  {
    var _, _ := TakeShape(c, rows, budget);
  }

  lemma FromZero(rows: seq<Row>)
    ensures Search(rows, 0, 0) == 0
  {
  }

  lemma StopStep(rows: seq<Row>, end: nat, budget: int, through: nat)
    requires end < |rows| && budget > 0 && rows[end].id <= through
    ensures Stop(rows, end, budget, through) == Stop(rows, end + 1, budget - 1, through)
  {
  }

  lemma StopHere(rows: seq<Row>, end: nat, budget: int, through: nat)
    requires end <= |rows| && (end == |rows| || budget <= 0 || rows[end].id > through)
    ensures Stop(rows, end, budget, through) == end
  {
  }

  // ---- The cursor object -----------------------------------------------------------------------------------

  class CursorObject {
    var next: nat
    var through: nat
    var active: bool

    ghost function View(): Cursor
      reads this
    {
      Cursor(next, through, active)
    }

    constructor ()
      ensures View() == Unused
    {
      next, through, active := 0, 0, false;
    }

    /** Walks on while the budget and the frontier allow. */
    static method Scan(rows: seq<Row>, start: nat, budget: int, through: nat) returns (end: nat)
      requires start <= |rows| && budget > 0
      ensures end == Stop(rows, start, budget, through)
    {
      hide Stop;
      end := start;
      while end < |rows| && end - start < budget && rows[end].id <= through
        invariant start <= end <= |rows| && end - start <= budget
        invariant Stop(rows, start, budget, through) == Stop(rows, end, budget - (end - start), through)
      {
        StopStep(rows, end, budget - (end - start), through);
        end := end + 1;
      }
      StopHere(rows, end, budget - (end - start), through);
    }

    /** Starts a round unless one is under way with rows left, and finds its first row. */
    method OpenRound(rows: seq<Row>) returns (start: nat)
      requires rows != []
      modifies this
      ensures View() == RoundOf(old(View()), rows) && start == Search(rows, next, 0)
    {
      if !active {
        next, through, active := 0, rows[|rows| - 1].id, true;
      }
      start := Search(rows, next, 0);
      if start == |rows| || rows[start].id > through {
        next, through := 0, rows[|rows| - 1].id;
        start := 0;
      }
      FromZero(rows);
    }

    method TakeRows(rows: seq<Row>, budget: int) returns (taken: seq<Row>)
      requires Sorted(rows) && Inv(View())
      modifies this
      ensures (View(), taken) == Take(old(View()), rows, budget) && Inv(View())
    {
      hide Sorted, Begins, Search, Stop;
      TakeKeepsInv(View(), rows, budget);
      if rows == [] || budget <= 0 {
        return [];
      }
      TakeIs(View(), rows, budget);
      ghost var before := View();
      hide Take, RoundOf;
      var start := OpenRound(rows);
      assert start == Search(rows, RoundOf(before, rows).next, 0);
      var end := Scan(rows, start, budget, through);
      var last := rows[end - 1].id;
      if last == through {
        active := false;
      } else {
        next := last + 1;
      }
      taken := rows[start..end];
    }
  }
}
