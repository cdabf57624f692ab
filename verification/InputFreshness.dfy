/** The gate that accepts a page's input only while the page has consumed everything published one window ago. */
module InputFreshness {
  import opened Basics
  import opened FrontierClock
  import RetentionQueue

  /** The first `frames` attachment frames complete every event up to `sequence`. */
  datatype Delivery = Delivery(frames: nat, sequence: nat)

  const MaxDeliveries := 128

  /** One attachment's consumption and pause state; `marks` are deliveries not yet receipted. */
  datatype Gate = Gate(live: bool, marks: seq<Delivery>, receipted: nat, consumed: nat, paused: bool, refusedAt: int)

  const Closed := Gate(false, [], 0, 0, false, 0)

  /** Consumption advances over every mark the receipted frame count covers. */
  function Apply(g: Gate): (t: Gate)
    ensures t == g.(marks := t.marks, consumed := t.consumed)
    decreases |g.marks|
  {
    if g.marks != [] && g.marks[0].frames <= g.receipted
    then Apply(g.(consumed := g.marks[0].sequence, marks := g.marks[1..])) else g
  }

  function Deliver(g: Gate, frames: nat, sequence: nat): Gate {
    if g.marks != [] && sequence <= g.marks[|g.marks| - 1].sequence then g
    else if sequence <= g.consumed then g
    else
      var room := if |g.marks| == MaxDeliveries then g.marks[1..] else g.marks;
      Apply(g.(marks := room + [Delivery(frames, sequence)]))
  }

  /** A count that does not advance, or exceeds the frames written, is a protocol violation. */
  function Receipt(g: Gate, frames: nat, written: nat): (Gate, bool) {
    if frames <= g.receipted || frames > written then (g, false)
    else (Apply(g.(receipted := frames)), true)
  }

  /** `required` is the sequence the page must have consumed, or none when its generation has no authority left. */
  function Admit(g: Gate, now: int, quiet: int, required: Option<nat>): (Gate, bool) {
    if !g.live then (g, true)
    else
      var current := required.Some? && g.consumed >= required.value;
      if g.paused then
        if current && now - g.refusedAt >= quiet then (g.(paused := false), true)
        else (g.(refusedAt := now), false)
      else if !current then (g.(paused := true, refusedAt := now), false)
      else (g, true)
  }

  // ---- The attachment, its generation's clock and its page -------------------------------------------------

  /** An input frame between the query of its generation's clock and its decision. */
  datatype Ask = Ask(at: int, sampled: int, required: Option<nat>)

  /** `deliveries` and `refusals` are history: what the writer completed with how many frames, and when input was
      refused. `clock` is none once the generation has retired. */
  datatype World = World(gate: Gate, clock: Option<seq<Sample>>, window: nat, quiet: int, now: int, written: nat,
                         asked: Option<Ask>, deliveries: seq<Delivery>, refusals: seq<int>)

  datatype Op =
    | Publish(at: int, sequence: nat)
    | Start
    | Write(frames: nat)
    | Complete(sequence: nat)
    | PageReceipt(frames: nat)
    | Query(at: int, sampled: int)
    | Decide
    | Retire

  /** One attachment's input frames are admitted one at a time, each with a clock reading from before its query. */
  predicate Enabled(w: World, op: Op) {
    match op
    case Publish(at, sequence) =>
      at >= w.now && w.clock.Some? && (w.clock.value == [] || sequence > w.clock.value[|w.clock.value| - 1].sequence)
    case Start => true
    case Write(_) => true
    case Complete(sequence) => w.deliveries == [] || sequence >= w.deliveries[|w.deliveries| - 1].sequence
    case PageReceipt(_) => true
    case Query(at, sampled) => w.gate.live && w.asked.None? && at <= sampled && w.now <= sampled
    case Decide => w.asked.Some?
    case Retire => true
  }

  /** requiredConsumption at a time sampled under the publication lock. */
  function Required(w: World, sampled: int): Option<nat> {
    if w.clock.None? then None
    else
      var (marks, pruned) := Pruned(w.clock.value, w.window);
      Some(At(marks, pruned, sampled - w.window))
  }

  function Step(w: World, op: Op): World {
    match op
    case Publish(at, sequence) =>
      w.(clock := if w.clock.Some? then Some(w.clock.value + [Sample(at, sequence)]) else None, now := Max(w.now, at))
    case Start => w.(gate := w.gate.(live := true))
    case Write(frames) => w.(written := w.written + frames)
    case Complete(sequence) =>
      w.(gate := Deliver(w.gate, w.written, sequence), deliveries := w.deliveries + [Delivery(w.written, sequence)])
    case PageReceipt(frames) => w.(gate := Receipt(w.gate, frames, w.written).0)
    case Query(at, sampled) => w.(asked := Some(Ask(at, sampled, Required(w, sampled))), now := Max(w.now, sampled))
    case Decide =>
      if w.asked.None? then w
      else
        var (gate, accepted) := Admit(w.gate, w.asked.value.at, w.quiet, w.asked.value.required);
        w.(gate := gate, asked := None, refusals := if accepted then w.refusals else w.refusals + [w.asked.value.at])
    case Retire => w.(clock := None)
  }

  function Opening(window: nat, quiet: int, now: int): World {
    World(Closed, Some([]), window, quiet, now, 0, None, [], [])
  }

  // ---- What every reachable state keeps --------------------------------------------------------------------

  /** Every mark, and whatever was consumed, is a delivery the writer recorded; consumption is covered by a receipt. */
  ghost predicate GateOk(w: World) {
    && |w.gate.marks| <= MaxDeliveries
    && (forall i :: 0 <= i < |w.gate.marks| ==> w.gate.marks[i] in w.deliveries)
    && (w.gate.consumed == 0 || Covered(w, w.gate.consumed))
    && w.gate.receipted <= w.written
    && (forall i :: 0 <= i < |w.deliveries| ==> w.deliveries[i].frames <= w.written)
  }

  /** The frames the page has receipted complete every event up to `sequence`. */
  ghost predicate Covered(w: World, sequence: nat) {
    exists i :: 0 <= i < |w.deliveries| && w.deliveries[i].frames <= w.gate.receipted && w.deliveries[i].sequence == sequence
  }

  /** A paused gate remembers its last refusal. */
  ghost predicate PauseOk(w: World) {
    w.gate.paused ==> w.refusals != [] && w.gate.refusedAt == w.refusals[|w.refusals| - 1]
  }

  ghost predicate ClockOk(w: World) {
    w.clock.Some? ==>
      && Ordered(w.clock.value)
      && forall i :: 0 <= i < |w.clock.value| ==> w.clock.value[i].at <= w.now
  }

  ghost predicate Inv(w: World) {
    GateOk(w) && PauseOk(w) && ClockOk(w)
  }

  lemma {:induction false} ApplyKeeps(w: World, g: Gate)
    requires GateOk(w.(gate := g))
    ensures GateOk(w.(gate := Apply(g)))
    decreases |g.marks|
  {
    if g.marks != [] && g.marks[0].frames <= g.receipted {
      var next := g.(consumed := g.marks[0].sequence, marks := g.marks[1..]);
      assert g.marks[0] in w.deliveries;
      var i :| 0 <= i < |w.deliveries| && w.deliveries[i] == g.marks[0];
      assert w.deliveries[i].sequence == next.consumed;
      assert Covered(w.(gate := next), next.consumed);
      ApplyKeeps(w, next);
    }
  }

  lemma DeliverKeeps(w: World, sequence: nat)
    requires GateOk(w)
    ensures GateOk(Step(w, Complete(sequence)))
  {
    var d := Delivery(w.written, sequence);
    var t := w.(deliveries := w.deliveries + [d]);
    assert t.deliveries[|w.deliveries|] == d;
    CoveredGrows(w, d);
    var g := w.gate;
    var room := if |g.marks| == MaxDeliveries then g.marks[1..] else g.marks;
    assert forall x :: x in w.deliveries ==> x in t.deliveries;
    assert GateOk(t.(gate := g));
    assert GateOk(t.(gate := g.(marks := room + [d]))) by {
      assert Covered(t, g.consumed) ==> Covered(t.(gate := g.(marks := room + [d])), g.consumed);
    }
    ApplyKeeps(t, g.(marks := room + [d]));
  }

  lemma CoveredGrows(w: World, d: Delivery)
    ensures Covered(w, w.gate.consumed) ==> Covered(w.(deliveries := w.deliveries + [d]), w.gate.consumed)
  {
    if Covered(w, w.gate.consumed) {
      var i :| 0 <= i < |w.deliveries| && w.deliveries[i].frames <= w.gate.receipted &&
               w.deliveries[i].sequence == w.gate.consumed;
      assert (w.deliveries + [d])[i] == w.deliveries[i];
    }
  }

  lemma ReceiptKeeps(w: World, frames: nat)
    requires GateOk(w)
    ensures GateOk(Step(w, PageReceipt(frames)))
  {
    if frames > w.gate.receipted && frames <= w.written {
      var g := w.gate.(receipted := frames);
      if w.gate.consumed != 0 {
        var i :| 0 <= i < |w.deliveries| && w.deliveries[i].frames <= w.gate.receipted &&
                 w.deliveries[i].sequence == w.gate.consumed;
        assert w.deliveries[i].frames <= g.receipted;
      }
      ApplyKeeps(w, g);
    }
  }

  lemma SameCovered(w: World, t: World)
    requires GateOk(w) && t.deliveries == w.deliveries && t.written >= w.written
    requires t.gate == w.gate.(live := t.gate.live, paused := t.gate.paused, refusedAt := t.gate.refusedAt)
    ensures GateOk(t)
  {
    if w.gate.consumed != 0 {
      var i :| 0 <= i < |w.deliveries| && w.deliveries[i].frames <= w.gate.receipted &&
               w.deliveries[i].sequence == w.gate.consumed;
      assert t.deliveries[i].frames <= t.gate.receipted;
    }
  }

  lemma StepKeepsInv(w: World, op: Op)
    requires Inv(w) && Enabled(w, op)
    ensures Inv(Step(w, op))
  {
    hide GateOk, Required;
    match op {
      case Complete(sequence) => DeliverKeeps(w, sequence);
      case PageReceipt(frames) => ReceiptKeeps(w, frames);
      case _ => SameCovered(w, Step(w, op));
    }
  }

  ghost predicate Run(window: nat, quiet: int, start: int, trace: seq<World>, ops: seq<Op>) {
    && |trace| == |ops| + 1 && trace[0] == Opening(window, quiet, start)
    && forall i :: 0 <= i < |ops| ==> Enabled(trace[i], ops[i]) && trace[i + 1] == Step(trace[i], ops[i])
  }

  lemma {:induction false} RunKeepsInv(window: nat, quiet: int, start: int, trace: seq<World>, ops: seq<Op>, i: nat)
    requires Run(window, quiet, start, trace, ops) && i < |trace|
    ensures Inv(trace[i]) && trace[i].window == window && trace[i].quiet == quiet
  {
    if i > 0 {
      RunKeepsInv(window, quiet, start, trace, ops, i - 1);
      hide Inv, Enabled;
      assert trace[i] == Step(trace[i - 1], ops[i - 1]);
      StepKeepsInv(trace[i - 1], ops[i - 1]);
    }
  }

  // ---- Freshness, end to end -------------------------------------------------------------------------------

  /** The query at `q` is the one decided at `i`: no other input is decided in between. */
  ghost predicate Decides(trace: seq<World>, ops: seq<Op>, q: nat, i: nat)
    requires |trace| == |ops| + 1
  {
    q < i < |ops| && ops[q].Query? && ops[i].Decide? && forall k :: q < k < i ==> !ops[k].Decide?
  }

  /** Whenever a live gate accepts an input, the page's generation had authority when it was queried, the frames the
      page has receipted complete every event published by then at least one window before the query, and after a
      pause the quiet period has passed since the last refused input. Publications, deliveries, receipts and the
      generation's retirement may all come between query and decision. */
  lemma AcceptedIsFresh(window: nat, quiet: int, start: int, trace: seq<World>, ops: seq<Op>, q: nat, i: nat)
    requires Run(window, quiet, start, trace, ops) && Decides(trace, ops, q, i)
    requires trace[i + 1].refusals == trace[i].refusals
    ensures var queried, w := trace[q], trace[i];
            && queried.clock.Some?
            && (forall k :: 0 <= k < |queried.clock.value| && queried.clock.value[k].at <= ops[q].sampled - window ==>
                  queried.clock.value[k].sequence == 0 ||
                  exists d :: d in w.deliveries && d.frames <= w.gate.receipted <= w.written &&
                              d.sequence >= queried.clock.value[k].sequence)
            && (w.gate.paused ==> w.refusals != [] && ops[q].at - w.refusals[|w.refusals| - 1] >= quiet)
  {
    RunKeepsInv(window, quiet, start, trace, ops, q);
    RunKeepsInv(window, quiet, start, trace, ops, i);
    assert trace[i + 1] == Step(trace[i], ops[i]);
    AskStays(window, quiet, start, trace, ops, q, i);
    hide Inv, Required;
    AdmittedIsFresh(trace[q], trace[i], ops[q].at, ops[q].sampled);
  }

  /** What was asked waits unchanged for its decision, by a gate that stays live. */
  lemma {:induction false} AskStays(window: nat, quiet: int, start: int, trace: seq<World>, ops: seq<Op>, q: nat, k: nat)
    requires Run(window, quiet, start, trace, ops) && q < k <= |ops| && ops[q].Query?
    requires forall n :: q < n < k ==> !ops[n].Decide?
    ensures trace[k].asked == Some(Ask(ops[q].at, ops[q].sampled, Required(trace[q], ops[q].sampled)))
    ensures trace[k].gate.live
  {
    hide Required, Admit, Apply;
    assert trace[k] == Step(trace[k - 1], ops[k - 1]) && Enabled(trace[k - 1], ops[k - 1]);
    if k > q + 1 {
      AskStays(window, quiet, start, trace, ops, q, k - 1);
      StaysLive(trace[k - 1], ops[k - 1]);
    }
  }

  lemma StaysLive(w: World, op: Op)
    requires w.gate.live
    ensures Step(w, op).gate.live
  {
    hide Required;
  }

  /** One admission: asked in `before`, decided by the live gate of `w`. */
  lemma AdmittedIsFresh(before: World, w: World, at: int, sampled: int)
    requires Inv(before) && Inv(w) && w.window == before.window && w.quiet == before.quiet && w.gate.live
    requires Admit(w.gate, at, w.quiet, Required(before, sampled)).1
    ensures before.clock.Some?
    ensures forall k :: 0 <= k < |before.clock.value| && before.clock.value[k].at <= sampled - w.window ==>
              before.clock.value[k].sequence == 0 ||
              exists d :: d in w.deliveries && d.frames <= w.gate.receipted <= w.written &&
                          d.sequence >= before.clock.value[k].sequence
    ensures w.gate.paused ==> w.refusals != [] && at - w.refusals[|w.refusals| - 1] >= w.quiet
  {
    hide Pruned, At, Frontier;
    var h := before.clock.value;
    NeverUnderstates(h, w.window, sampled - w.window);
    forall k | 0 <= k < |h| && h[k].at <= sampled - w.window && h[k].sequence > 0
      ensures exists d :: d in w.deliveries && d.frames <= w.gate.receipted <= w.written && d.sequence >= h[k].sequence
    {
      FrontierCovers(h, sampled - w.window, k);
      var n :| 0 <= n < |w.deliveries| && w.deliveries[n].frames <= w.gate.receipted &&
               w.deliveries[n].sequence == w.gate.consumed;
      assert w.deliveries[n] in w.deliveries;
    }
  }

  lemma {:induction false} FrontierCovers(h: seq<Sample>, instant: int, k: nat)
    requires k < |h| && h[k].at <= instant
    ensures h[k].sequence <= Frontier(h, instant)
  {
    if k < |h| - 1 {
      FrontierCovers(h[..|h| - 1], instant, k);
    }
  }

  /** With the production window a fresh page is not refused for more than the clock's resolution: whatever is
      required had been published one resolution after that instant. */
  lemma RequiredIsTight(w: World, sampled: int)
    requires Inv(w) && w.clock.Some? && w.clock.value != [] && sampled >= w.now && Fine(w.window)
    ensures Required(w, sampled).value <= Frontier(w.clock.value, sampled - w.window + FrontierClock.Step(w.window))
  {
    WindowIsExact(w.clock.value, w.window, sampled - w.window);
  }

  // ---- The gate object -------------------------------------------------------------------------------------

  /** The `count` cells of a ring from its head on, in order. */
  function Unrolled(cells: seq<Delivery>, head: nat, count: nat): (s: seq<Delivery>)
    requires |cells| == MaxDeliveries && head < MaxDeliveries && count <= MaxDeliveries
    ensures |s| == count
    ensures forall i :: 0 <= i < count ==> s[i] == cells[RetentionQueue.Slot(head, i, MaxDeliveries)]
  {
    seq(count, i requires 0 <= i < count => cells[RetentionQueue.Slot(head, i, MaxDeliveries)])
  }

  lemma HeadSlot(head: nat)
    requires head < MaxDeliveries
    ensures RetentionQueue.Slot(head, 0, MaxDeliveries) == head
  {
  }

  lemma UnrolledTail(cells: seq<Delivery>, head: nat, count: nat)
    requires |cells| == MaxDeliveries && head < MaxDeliveries && 0 < count <= MaxDeliveries
    ensures Unrolled(cells, head, count)[0] == cells[head]
    ensures Unrolled(cells, (head + 1) % MaxDeliveries, count - 1) == Unrolled(cells, head, count)[1..]
  {
    hide RetentionQueue.Slot;
    var next := (head + 1) % MaxDeliveries;
    forall i | 0 <= i < count - 1
      ensures Unrolled(cells, next, count - 1)[i] == Unrolled(cells, head, count)[1..][i]
    {
      RetentionQueue.SlotShift(head, i, MaxDeliveries);
    }
    HeadSlot(head);
  }

  /** The deliveries live in a fixed ring; a full ring drops its oldest. */
  class FreshnessGate {
    var live: bool
    const ring: array<Delivery>
    var head: nat
    var count: nat
    var receipted: nat
    var consumed: nat
    var paused: bool
    var refusedAt: int

    ghost predicate Valid()
      reads this
    {
      ring.Length == MaxDeliveries && head < MaxDeliveries && count <= MaxDeliveries
    }

    ghost function Marks(): (s: seq<Delivery>)
      requires Valid()
      reads this, ring
    {
      Unrolled(ring[..], head, count)
    }

    ghost function View(): Gate
      requires Valid()
      reads this, ring
    {
      Gate(live, Marks(), receipted, consumed, paused, refusedAt)
    }

    constructor ()
      ensures Valid() && View() == Closed && fresh(ring)
    {
      live, head, count, receipted, consumed, paused, refusedAt := false, 0, 0, 0, 0, false, 0;
      ring := new Delivery[MaxDeliveries](_ => Delivery(0, 0));
    }

    method Start()
      requires Valid()
      modifies this`live
      ensures Valid() && View() == old(View()).(live := true)
    {
      live := true;
    }

    /** Forget the oldest mark. */
    method DropHead()
      requires Valid() && count > 0
      modifies this`head, this`count
      ensures Valid() && View() == old(View()).(marks := old(Marks())[1..])
    {
      UnrolledTail(ring[..], head, count);
      head := (head + 1) % MaxDeliveries;
      count := count - 1;
    }

    method ApplyReceiptedLocked()
      requires Valid()
      modifies this`head, this`count, this`consumed
      ensures Valid() && View() == Apply(old(View()))
      ensures count > 0 ==> ring[head].frames > receipted
    {
      ghost var result := Apply(View());
      while count > 0 && ring[head].frames <= receipted
        invariant Valid() && Apply(View()) == result
        decreases count
      {
        UnrolledTail(ring[..], head, count);
        consumed := ring[head].sequence;
        DropHead();
      }
      if count > 0 {
        UnrolledTail(ring[..], head, count);
      }
    }

    method PushBack(d: Delivery)
      requires Valid() && count < MaxDeliveries
      modifies this`count, ring
      ensures Valid() && View() == old(View()).(marks := old(Marks()) + [d])
    {
      forall i | 0 <= i < count
        ensures RetentionQueue.Slot(head, i, MaxDeliveries) != RetentionQueue.Slot(head, count, MaxDeliveries)
      {
        RetentionQueue.SlotsDistinct(head, i, count, MaxDeliveries);
      }
      ring[RetentionQueue.Slot(head, count, MaxDeliveries)] := d;
      count := count + 1;
    }

    method Delivered(frames: nat, sequence: nat)
      requires Valid()
      modifies this, ring
      ensures Valid() && View() == Deliver(old(View()), frames, sequence)
    {
      if count > 0 {
        var last := ring[RetentionQueue.Slot(head, count - 1, MaxDeliveries)];
        assert last == Marks()[count - 1];
        if sequence <= last.sequence {
          return;
        }
      }
      if sequence <= consumed {
        return;
      }
      if count == MaxDeliveries {
        DropHead();
      }
      PushBack(Delivery(frames, sequence));
      ApplyReceiptedLocked();
    }

    method ReceiptFrames(frames: nat, written: nat) returns (ok: bool)
      requires Valid()
      modifies this
      ensures Valid() && (View(), ok) == Receipt(old(View()), frames, written)
      ensures (ok <==> old(receipted) < frames <= written) && (ok ==> receipted == frames)
      ensures ok && count > 0 ==> ring[head].frames > receipted
    {
      if frames <= receipted || frames > written {
        return false;
      }
      receipted := frames;
      ApplyReceiptedLocked();
      ok := true;
    }

    method AdmitInput(now: int, quiet: int, required: Option<nat>) returns (accepted: bool, pausing: bool)
      requires Valid()
      modifies this`paused, this`refusedAt
      ensures Valid() && (View(), accepted) == Admit(old(View()), now, quiet, required)
      ensures pausing <==> !old(paused) && paused
      ensures accepted <==> !live || (required.Some? && required.value <= consumed && (old(paused) ==> now >= old(refusedAt) + quiet))
      ensures live ==> (paused <==> !accepted) && refusedAt == if accepted then old(refusedAt) else now
    {
      if !live {
        return true, false;
      }
      var current := required.Some? && consumed >= required.value;
      if paused {
        if current && now - refusedAt >= quiet {
          paused := false;
          return true, false;
        }
        refusedAt := now;
        return false, false;
      }
      if !current {
        paused, refusedAt := true, now;
        return false, true;
      }
      return true, false;
    }
  }
}
