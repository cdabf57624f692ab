/** A subscriber's queue: linked nodes, a one-token wake channel and the catch-up flag. */
module RecordingTail {
  import opened Basics
  import opened Journal

  /** What the queue stands for. Closing also closes the wake channel, which is then always ready. */
  datatype Tail = Tail(events: seq<Event>, closed: bool, catchingUp: bool, wake: bool) {
    predicate Ready() {
      closed || wake
    }

    /** Something waits for the consumer. */
    predicate Work() {
      events != [] || closed || catchingUp
    }
  }

  datatype Turn = Received(event: Event) | CatchUpTurn | ClosedTurn | Wait

  function PushEvent(t: Tail, e: Event): Tail {
    t.(events := t.events + [e], wake := true)
  }

  /** Take the head, leaving wake armed exactly while events remain. */
  function TakeHead(t: Tail): Tail
    requires t.events != []
  {
    t.(events := t.events[1..], wake := if t.closed then t.wake else |t.events| > 1)
  }

  /** One look of the consumer: a queued event first, then closure, then a catch-up turn, else it waits. */
  function Look(t: Tail): (Tail, Turn) {
    if t.events != [] then (TakeHead(t), Received(t.events[0]))
    else if t.closed then (t, ClosedTurn)
    else if t.catchingUp then (t, CatchUpTurn)
    else (t, Wait)
  }

  function EnterCatchUp(t: Tail): Tail {
    if t.closed || t.catchingUp then t else t.(catchingUp := true, wake := true)
  }

  /** A waiting consumer that is woken takes the token; a closed channel stays ready. */
  function Wake(t: Tail): Tail {
    if t.closed then t else t.(wake := false)
  }

  /** A consumer that decided to wait is woken by everything that arrives afterwards. */
  predicate NoLostWake(t: Tail) {
    t.Work() ==> t.Ready()
  }

  /** Whatever happens between a consumer's look and its sleep, work leaves the wake ready. */
  lemma WaitingIsWoken(t: Tail, e: Event)
    ensures Look(t).1.Wait? ==> NoLostWake(t)
    ensures NoLostWake(t) && !t.closed ==> NoLostWake(PushEvent(t, e))
    ensures NoLostWake(t) ==> NoLostWake(EnterCatchUp(t)) && NoLostWake(t.(closed := true))
    ensures Look(t).1 == Wait <==> !t.Work()
  {
  }

  class Node {
    const event: Event
    var next: Node?

    constructor (event: Event)
      ensures this.event == event && next == null
    {
      this.event, next := event, null;
    }
  }

  function Carried(nodes: seq<Node>): (events: seq<Event>)
    ensures |events| == |nodes| && forall i :: 0 <= i < |nodes| ==> events[i] == nodes[i].event
  {
    seq(|nodes|, i requires 0 <= i < |nodes| => nodes[i].event)
  }

  class TailQueue {
    var head: Node?
    var last: Node?
    var count: nat
    var closed: bool
    var catchingUp: bool
    var wake: bool
    ghost var nodes: seq<Node>

    ghost predicate Valid()
      reads this, nodes
    {
      && count == |nodes|
      && (forall i, j :: 0 <= i < j < |nodes| ==> nodes[i] != nodes[j])
      && (forall i, j :: 0 <= i < j < |nodes| && j == i + 1 ==> nodes[i].next == nodes[j])
      && (if nodes == [] then head == null && last == null
          else head == nodes[0] && last == nodes[|nodes| - 1] && last.next == null)
    }

    ghost function View(): Tail
      reads this
    {
      Tail(Carried(nodes), closed, catchingUp, wake)
    }

    constructor ()
      ensures Valid() && View() == Tail([], false, false, false) && nodes == []
    {
      head, last, count, closed, catchingUp, wake := null, null, 0, false, false, false;
      nodes := [];
    }

    /** The source panics on a publication after close; publication never does that to a registered tail. */
    method Push(event: Event)
      requires Valid() && !closed
      modifies this, nodes
      ensures Valid() && View() == PushEvent(old(View()), event)
      ensures forall n :: n in nodes ==> n in old(nodes) || fresh(n)
    {
      var node := new Node(event);
      if last == null {
        head := node;
      } else {
        last.next := node;
      }
      last := node;
      count := count + 1;
      wake := true;
      nodes := nodes + [node];
    }

    method TakeLocked() returns (event: Event)
      requires Valid() && head != null
      modifies this, nodes
      ensures Valid() && old(View()).events != []
      ensures event == old(nodes)[0].event && View() == TakeHead(old(View()))
      ensures nodes == old(nodes)[1..]
    {
      ghost var was := nodes;
      var node := head;
      assert |nodes| > 1 ==> node.next == nodes[1];
      head := node.next;
      node.next := null;
      count := count - 1;
      if head == null {
        last := null;
      }
      if !closed {
        wake := false;
        if head != null {
          wake := true;
        }
      }
      event := node.event;
      nodes := nodes[1..];
      assert forall i :: 0 <= i < |nodes| ==> nodes[i] == was[i + 1];
    }

    /** One turn of the consumer's receive loop, up to the point where it would wait on the channel. */
    method Next() returns (turn: Turn)
      requires Valid()
      modifies this, nodes
      ensures Valid() && (View(), turn) == Look(old(View()))
      ensures forall n :: n in nodes ==> n in old(nodes)
    {
      if head != null {
        var event := TakeLocked();
        return Received(event);
      }
      if closed {
        return ClosedTurn;
      }
      if catchingUp {
        return CatchUpTurn;
      }
      turn := Wait;
    }

    method StartCatchUp()
      requires Valid()
      modifies this`catchingUp, this`wake
      ensures Valid() && View() == EnterCatchUp(old(View()))
    {
      if closed || catchingUp {
        return;
      }
      catchingUp := true;
      wake := true;
    }

    method LeaveCatchUp()
      requires Valid()
      modifies this`catchingUp
      ensures Valid() && View() == old(View()).(catchingUp := false)
    {
      catchingUp := false;
    }

    method Close()
      requires Valid()
      modifies this`closed
      ensures Valid() && View() == old(View()).(closed := true)
    {
      closed := true;
    }

    lemma HeadTellsEmpty()
      requires Valid()
      ensures head == null <==> nodes == []
    {
    }

    /** drainClosed: take every remaining event, so that its charge can be refunded. */
    method Drain() returns (drained: seq<Event>)
      requires Valid() && closed
      modifies this, nodes
      ensures Valid() && drained == old(View()).events
      ensures View() == old(View()).(events := [])
    {
      hide TailQueue.Valid;
      drained := [];
      ghost var was := nodes;
      ghost var n := 0;
      while head != null
        invariant Valid() && closed && catchingUp == old(catchingUp) && wake == old(wake)
        invariant n <= |was| && nodes == was[n..] && drained == Carried(was)[..n]
        decreases |was| - n
      {
        HeadTellsEmpty();
        OneFurther(was, n);
        OneFurther(Carried(was), n);
        assert forall o :: o in nodes ==> o in was;
        var event := TakeLocked();
        drained := drained + [event];
        n := n + 1;
      }
      HeadTellsEmpty();
      assert n == |was| && Carried(was)[..|was|] == Carried(was);
      assert View().events == [];
    }
  }
}
