/** The fixed ring behind the runtime's command queue, against the sequence it stands for. */
module RetentionQueue {
  import opened Basics
  import opened Retention

  /** Where the command after the first `i` of a ring sits. */
  function Slot(head: nat, i: nat, cells: nat): (slot: nat)
    requires cells > 0
    ensures slot < cells
  {
    (head + i) % cells
  }

  /** Different positions inside one turn of the ring use different cells. */
  lemma SlotsDistinct(head: nat, i: nat, j: nat, cells: nat)
    requires i < j < cells && head < cells
    ensures Slot(head, i, cells) != Slot(head, j, cells)
  {
    WrapOnce(head + i, cells);
    WrapOnce(head + j, cells);
  }

  lemma WrapOnce(n: nat, cells: nat)
    requires cells > 0 && n < 2 * cells
    ensures n % cells == if n < cells then n else n - cells
  {
  }

  /** Advancing the head by one moves every later position one to the front. */
  lemma SlotShift(head: nat, i: nat, cells: nat)
    requires head < cells && i < cells
    ensures Slot((head + 1) % cells, i, cells) == Slot(head, i + 1, cells)
  {
    WrapOnce(head + 1, cells);
    WrapOnce(head + i + 1, cells);
    if head + 1 == cells {
      WrapOnce(i, cells);
    }
  }

  class CommandQueue {
    var cells: array<Option<Command>>
    var head: nat
    var count: nat

    /** The window of `count` cells from `head` holds commands and every other cell is empty. */
    ghost predicate Valid()
      reads this, cells
    {
      && cells.Length > 0 && head < cells.Length && count <= cells.Length
      && (forall i :: 0 <= i < count ==> cells[Slot(head, i, cells.Length)].Some?)
      && (forall i :: count <= i < cells.Length ==> cells[Slot(head, i, cells.Length)].None?)
    }

    ghost function Contents(): (s: seq<Command>)
      requires Valid()
      reads this, cells
      ensures |s| == count
      ensures forall i :: 0 <= i < count ==> cells[Slot(head, i, cells.Length)] == Some(s[i])
    {
      seq(count, i requires 0 <= i < count && Valid() reads this, cells => cells[Slot(head, i, cells.Length)].value)
    }

    constructor (options: Options)
      requires options.Valid()
      ensures Valid() && fresh(cells) && Contents() == [] && cells.Length == RingCells(options)
    {
      head, count := 0, 0;
      cells := new Option<Command>[RingCells(options)](_ => None);
    }

    method Len() returns (n: nat)
      requires Valid()
      ensures n == |Contents()|
    {
      n := count;
    }

    method Front() returns (command: Option<Command>)
      requires Valid()
      ensures command == if Contents() == [] then None else Some(Contents()[0])
    {
      if count == 0 {
        return None;
      }
      WrapOnce(head, cells.Length);
      assert Slot(head, 0, cells.Length) == head;
      command := cells[head];
    }

    method Back() returns (command: Option<Command>)
      requires Valid()
      ensures command == if Contents() == [] then None else Some(Contents()[|Contents()| - 1])
    {
      if count == 0 {
        return None;
      }
      assert Slot(head, count - 1, cells.Length) == (head + count - 1) % cells.Length;
      command := cells[(head + count - 1) % cells.Length];
    }

    /** Refuses exactly when every cell is taken. */
    method Push(command: Command) returns (ok: bool)
      requires Valid()
      modifies this`count, cells
      ensures Valid()
      ensures ok <==> |old(Contents())| < cells.Length
      ensures Contents() == if ok then old(Contents()) + [command] else old(Contents())
    {
      if count == cells.Length {
        return false;
      }
      forall i, j | 0 <= i < j < cells.Length
        ensures Slot(head, i, cells.Length) != Slot(head, j, cells.Length)
      {
        SlotsDistinct(head, i, j, cells.Length);
      }
      cells[Slot(head, count, cells.Length)] := Some(command);
      count := count + 1;
      ok := true;
    }

    method Pop() returns (command: Option<Command>)
      requires Valid()
      modifies this`head, this`count, cells
      ensures Valid()
      ensures old(Contents()) == [] ==> command.None? && Contents() == []
      ensures old(Contents()) != [] ==> command == Some(old(Contents())[0]) && Contents() == old(Contents())[1..]
    {
      command := Front();
      if command.None? {
        return;
      }
      ghost var size := cells.Length;
      forall i, j | 0 <= i < j < size ensures Slot(head, i, size) != Slot(head, j, size) {
        SlotsDistinct(head, i, j, size);
      }
      ghost var next := (head + 1) % size;
      forall i | 0 <= i < size ensures Slot(next, i, size) == Slot(head, i + 1, size) {
        SlotShift(head, i, size);
      }
      WrapOnce(head, size);
      WrapOnce(head + size, size);
      assert Slot(head, size, size) == head == Slot(head, 0, size);
      cells[head] := None;
      head := (head + 1) % cells.Length;
      count := count - 1;
    }

    /** The command at the back is rewritten in place when rejected output or a fence joins its control run. */
    method ReplaceBack(command: Command)
      requires Valid() && Contents() != []
      modifies cells
      ensures Valid() && Contents() == old(Contents())[|old(Contents())| - 1 := command]
    {
      forall i | 0 <= i < cells.Length && i != count - 1
        ensures Slot(head, i, cells.Length) != Slot(head, count - 1, cells.Length)
      {
        SlotsDistinct(head, if i < count - 1 then i else count - 1, if i < count - 1 then count - 1 else i, cells.Length);
      }
      cells[Slot(head, count - 1, cells.Length)] := Some(command);
    }
  }
}
