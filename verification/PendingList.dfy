/** The intrusive doubly linked list each generation keeps of its unreleased reservations. */
module PendingList {
  import opened Retention
  import opened RetentionLedger

  /** The link fields a reservation carries. */
  class Node {
    const reservation: nat
    var previous: Node?
    var next: Node?

    constructor (reservation: nat)
      ensures this.reservation == reservation && previous == null && next == null
    {
      this.reservation := reservation;
      previous, next := null, null;
    }
  }

  function Numbers(nodes: seq<Node>): (s: seq<nat>)
    ensures |s| == |nodes| && forall i :: 0 <= i < |s| ==> s[i] == nodes[i].reservation
  {
    seq(|nodes|, i requires 0 <= i < |nodes| => nodes[i].reservation)
  }

  /** Removing a value that occurs once drops its one position. */
  lemma {:induction false} RemoveAt(s: seq<nat>, i: nat)
    requires i < |s|
    requires forall j :: 0 <= j < |s| && j != i ==> s[j] != s[i]
    ensures Remove(s, s[i]) == s[..i] + s[i + 1..]
  {
    var last := |s| - 1;
    if i < last {
      RemoveAt(s[..last], i);
      assert s[..last][..i] == s[..i];
      assert s[i + 1..] == s[..last][i + 1..] + [s[last]];
    } else {
      RemoveAbsent(s[..last], s[i]);
      assert s[..i] + s[i + 1..] == s[..last];
    }
  }

  class LinkedList {
    var head: Node?
    var tail: Node?
    ghost var nodes: seq<Node>

    ghost predicate Valid()
      reads this, nodes
    {
      && (forall i, j :: 0 <= i < j < |nodes| ==> nodes[i] != nodes[j])
      && (forall i, j :: 0 <= i < j < |nodes| && j == i + 1 ==>
            nodes[i].next == nodes[j] && nodes[j].previous == nodes[i])
      && (if nodes == [] then head == null && tail == null
          else head == nodes[0] && tail == nodes[|nodes| - 1] && head.previous == null && tail.next == null)
    }

    /** The reservations it links, oldest first. */
    ghost function Contents(): seq<nat>
      reads this
    {
      Numbers(nodes)
    }

    /** No reservation is linked twice. */
    ghost predicate Distinct()
      reads this
    {
      forall i, j :: 0 <= i < j < |nodes| ==> nodes[i].reservation != nodes[j].reservation
    }

    constructor ()
      ensures Valid() && nodes == [] && Contents() == []
    {
      head, tail, nodes := null, null, [];
    }

    /** A granted reservation joins at the tail. */
    method Append(node: Node)
      requires Valid() && node !in nodes && node.previous == null && node.next == null
      modifies this, nodes, node
      ensures Valid() && nodes == old(nodes) + [node]
      ensures Contents() == old(Contents()) + [node.reservation]
    {
      assert nodes != [] ==> tail == nodes[|nodes| - 1];
      node.previous := tail;
      if tail != null {
        tail.next := node;
      } else {
        head := node;
      }
      tail := node;
      nodes := nodes + [node];
    }

    /** unlinkPendingLocked: take exactly this node out, and change nothing when it is not linked. */
    method Unlink(node: Node)
      requires Valid() && Distinct()
      requires node !in nodes ==> node.previous == null && node.next == null && node.reservation !in Contents()
      modifies this, nodes, node
      ensures Valid() && Distinct()
      ensures Contents() == Remove(old(Contents()), node.reservation)
      ensures node !in nodes && node.previous == null && node.next == null
    {
      ghost var was := nodes;
      if node in was {
        ghost var i := Position(was, node);
        RemoveAt(Numbers(was), i);
        assert Numbers(Without(was, i)) == Numbers(was)[..i] + Numbers(was)[i + 1..];
      } else {
        RemoveAbsent(Numbers(was), node.reservation);
      }
      Relink(node);
    }

    method Relink(node: Node)
      requires Valid() && (node !in nodes ==> node.previous == null && node.next == null)
      modifies this, nodes, node
      ensures Valid() && node.previous == null && node.next == null
      ensures nodes == if node in old(nodes) then Without(old(nodes), Position(old(nodes), node)) else old(nodes)
    {
      ghost var was := nodes;
      ghost var i := if node in was then Position(was, node) else 0;
      assert node in was && i > 0 ==> was[i - 1].next == node && node.previous == was[i - 1];
      assert node in was && i + 1 < |was| ==> node.next == was[i + 1] && was[i + 1].previous == node;
      if node.previous != null {
        node.previous.next := node.next;
      } else if head == node {
        head := node.next;
      }
      if node.next != null {
        node.next.previous := node.previous;
      } else if tail == node {
        tail := node.previous;
      }
      node.previous, node.next := null, null;
      if node in was {
        nodes := Without(was, i);
      }
    }
  }

  ghost function Without(nodes: seq<Node>, i: nat): (rest: seq<Node>)
    requires i < |nodes|
    ensures |rest| == |nodes| - 1
    ensures forall k :: 0 <= k < |rest| ==> rest[k] == nodes[if k < i then k else k + 1]
  {
    nodes[..i] + nodes[i + 1..]
  }

  ghost function Position(nodes: seq<Node>, node: Node): (i: nat)
    requires node in nodes
    ensures i < |nodes| && nodes[i] == node
  {
    var i :| 0 <= i < |nodes| && nodes[i] == node;
    i
  }
}
