/** That the gate lets a fresh page in: exactly when an input is refused, what a receipt and a delivery change, and that
    a page which has receipted what was published is not kept out. */
module FreshnessProgress {
  import opened Basics
  import FrontierClock
  import opened InputFreshness

  // ---- One decision ------------------------------------------------------------------------------------------

  /** The page has consumed what is required of it, and a paused gate has been left alone for the quiet period. */
  predicate Lets(g: Gate, now: int, quiet: int, required: Option<nat>) {
    required.Some? && required.value <= g.consumed && (g.paused ==> now >= g.refusedAt + quiet)
  }

  /** A live gate refuses if and only if the generation has no authority, consumption is behind, or it is paused and was
      refused too recently. A refusal pauses it and starts its quiet period over; an acceptance leaves it open. */
  lemma Decision(g: Gate, now: int, quiet: int, required: Option<nat>)
    ensures var (t, accepted) := Admit(g, now, quiet, required);
            && (accepted <==> !g.live || Lets(g, now, quiet, required))
            && (g.live ==> (t.paused <==> !accepted) && t.refusedAt == if accepted then g.refusedAt else now)
            && (!g.live ==> t == g)
            && t == g.(paused := t.paused, refusedAt := t.refusedAt)
  {
  }

  // ---- Receipts and deliveries -------------------------------------------------------------------------------

  /** The marks in front that the receipted count covers are consumed, the last of them gives the position, and the
      rest wait. */
  lemma {:induction false} Applies(g: Gate) returns (k: nat)
    ensures k <= |g.marks| && (forall i :: 0 <= i < k ==> g.marks[i].frames <= g.receipted)
    ensures k < |g.marks| ==> g.marks[k].frames > g.receipted
    ensures Apply(g) == g.(marks := g.marks[k..], consumed := if k == 0 then g.consumed else g.marks[k - 1].sequence)
    decreases |g.marks|
  {
    if g.marks != [] && g.marks[0].frames <= g.receipted {
      var rest := Applies(g.(consumed := g.marks[0].sequence, marks := g.marks[1..]));
      k := rest + 1;
      assert g.marks[1..][rest..] == g.marks[k..];
    } else {
      k := 0;
    }
  }

  /** A receipt is taken exactly when it advances and counts no more than was written; the count is then the page's. */
  lemma ReceiptIff(g: Gate, frames: nat, written: nat)
    ensures var (t, ok) := Receipt(g, frames, written);
            && (ok <==> g.receipted < frames <= written)
            && (ok ==> t.receipted == frames && t == Apply(g.(receipted := frames)))
            && (!ok ==> t == g)
  {
  }

  // ---- What the gate remembers -------------------------------------------------------------------------------

  ghost predicate Rising(ds: seq<Delivery>) {
    forall i, j :: 0 <= i < j < |ds| ==> ds[i].frames <= ds[j].frames && ds[i].sequence <= ds[j].sequence
  }

  /** Marks rise, lie ahead of consumption, and no receipt covers them yet. */
  ghost predicate MarksOk(g: Gate) {
    && Rising(g.marks) && |g.marks| <= MaxDeliveries
    && (forall i, j :: 0 <= i < j < |g.marks| ==> g.marks[i].sequence < g.marks[j].sequence)
    && (forall i :: 0 <= i < |g.marks| ==> g.marks[i].sequence > g.consumed && g.marks[i].frames > g.receipted)
  }

  /** Mark `m` is the record of a delivery no later than the `last`-th. */
  ghost predicate Placed(ds: seq<Delivery>, m: Delivery, last: int) {
    exists t :: 0 <= t < |ds| && t <= last && ds[t] == m
  }

  ghost predicate AllPlaced(g: Gate, ds: seq<Delivery>) {
    forall i :: 0 <= i < |g.marks| ==> Placed(ds, g.marks[i], |ds| - |g.marks| + i)
  }

  /** The page's consumption is known to reach delivery `d`, or will be once its frames are receipted. */
  ghost predicate Kept(g: Gate, d: Delivery) {
    g.consumed >= d.sequence || exists m :: m in g.marks && m.sequence >= d.sequence && m.frames <= d.frames
  }

  /** The last 128 deliveries are kept. */
  ghost predicate Recent(g: Gate, ds: seq<Delivery>) {
    forall t :: 0 <= t < |ds| && t >= |ds| - MaxDeliveries ==> Kept(g, ds[t])
  }

  ghost predicate Remembers(w: World) {
    && Rising(w.deliveries) && MarksOk(w.gate) && AllPlaced(w.gate, w.deliveries) && Recent(w.gate, w.deliveries)
    && (forall i :: 0 <= i < |w.deliveries| ==> w.deliveries[i].frames <= w.written)
    && (forall i :: 0 <= i < |w.gate.marks| ==> w.gate.marks[i].frames <= w.written)
  }

  /** Marks that rise and lie ahead of consumption, covered or not. */
  ghost predicate Ahead(g: Gate) {
    && Rising(g.marks) && |g.marks| <= MaxDeliveries
    && (forall i, j :: 0 <= i < j < |g.marks| ==> g.marks[i].sequence < g.marks[j].sequence)
    && (forall i :: 0 <= i < |g.marks| ==> g.marks[i].sequence > g.consumed)
  }

  /** `t` has consumed the first `k` marks of `g`. */
  ghost predicate Ate(g: Gate, k: nat, t: Gate) {
    && k <= |g.marks|
    && t == g.(marks := g.marks[k..], consumed := if k == 0 then g.consumed else g.marks[k - 1].sequence)
  }

  lemma AtePlaced(g: Gate, k: nat, t: Gate, ds: seq<Delivery>)
    requires Ate(g, k, t) && AllPlaced(g, ds)
    ensures AllPlaced(t, ds)
  {
    forall i | 0 <= i < |t.marks| ensures Placed(ds, t.marks[i], |ds| - |t.marks| + i) {
      assert Placed(ds, g.marks[i + k], |ds| - |g.marks| + (i + k));
    }
  }

  lemma AteKept(g: Gate, k: nat, t: Gate, d: Delivery)
    requires Ate(g, k, t) && Ahead(g) && Kept(g, d)
    ensures Kept(t, d)
  {
    if g.consumed < d.sequence {
      var m :| m in g.marks && m.sequence >= d.sequence && m.frames <= d.frames;
      var i :| 0 <= i < |g.marks| && g.marks[i] == m;
      if i >= k {
        assert t.marks[i - k] == m;
      } else {
        assert i < k - 1 ==> g.marks[i].sequence < g.marks[k - 1].sequence;
      }
    } else if k > 0 {
      assert g.marks[k - 1].sequence > g.consumed;
    }
  }

  lemma AteAhead(g: Gate, k: nat, t: Gate)
    requires Ate(g, k, t) && Ahead(g)
    ensures Ahead(t)
  {
    forall i | 0 <= i < |t.marks| ensures t.marks[i].sequence > t.consumed {
      assert t.marks[i] == g.marks[i + k];
    }
    forall i, j | 0 <= i < j < |t.marks|
      ensures t.marks[i].sequence < t.marks[j].sequence && t.marks[i].frames <= t.marks[j].frames
    {
      assert t.marks[i] == g.marks[i + k] && t.marks[j] == g.marks[j + k];
    }
  }

  lemma Waiting(t: Gate)
    requires Ahead(t) && (t.marks != [] ==> t.marks[0].frames > t.receipted)
    ensures MarksOk(t)
  {
    forall i | 0 <= i < |t.marks| ensures t.marks[i].frames > t.receipted {
      assert i > 0 ==> t.marks[0].frames <= t.marks[i].frames;
    }
  }

  /** Applying receipts forgets nothing that was kept. */
  lemma ApplyRemembers(g: Gate, ds: seq<Delivery>)
    requires Ahead(g) && AllPlaced(g, ds)
    ensures MarksOk(Apply(g)) && AllPlaced(Apply(g), ds)
    ensures forall d :: Kept(g, d) ==> Kept(Apply(g), d)
    ensures forall i :: 0 <= i < |Apply(g).marks| ==> Apply(g).marks[i] in g.marks
  {
    var k := Applies(g);
    var t := Apply(g);
    AtePlaced(g, k, t, ds);
    AteAhead(g, k, t);
    Waiting(t);
    forall d | Kept(g, d) ensures Kept(t, d) {
      AteKept(g, k, t, d);
    }
    hide Kept, Ahead, MarksOk, AllPlaced, Apply;
    assert forall i :: 0 <= i < |t.marks| ==> t.marks[i] == g.marks[i + k];
  }

  /** A delivery at most 127 behind the newest lies after the oldest mark of a full ring. */
  lemma OldestIsOlder(g: Gate, ds: seq<Delivery>, t: nat)
    requires Ahead(g) && AllPlaced(g, ds) && Rising(ds) && |g.marks| == MaxDeliveries
    requires t < |ds| && t >= |ds| + 1 - MaxDeliveries
    ensures ds[t].sequence > g.marks[0].sequence
  {
    assert Placed(ds, g.marks[1], |ds| - |g.marks| + 1);
    var p :| 0 <= p < |ds| && p <= |ds| - |g.marks| + 1 && ds[p] == g.marks[1];
    assert p < t ==> ds[p].sequence <= ds[t].sequence;
  }

  /** A full ring forgets a mark only 128 deliveries later. */
  lemma DropRemembers(g: Gate, ds: seq<Delivery>, t: nat)
    requires Ahead(g) && AllPlaced(g, ds) && Rising(ds) && |g.marks| == MaxDeliveries
    requires t < |ds| && t >= |ds| + 1 - MaxDeliveries && Kept(g, ds[t])
    ensures Kept(g.(marks := g.marks[1..]), ds[t])
  {
    OldestIsOlder(g, ds, t);
    hide Ahead, AllPlaced, Rising;
    if g.consumed < ds[t].sequence {
      var m :| m in g.marks && m.sequence >= ds[t].sequence && m.frames <= ds[t].frames;
      assert m in g.marks[1..];
    }
  }

  lemma MarksAhead(g: Gate, h: Gate)
    requires MarksOk(g) && h.marks == g.marks && h.consumed == g.consumed
    ensures Ahead(h)
  {
  }

  /** The history with one more delivery, behind the others in frames and in sequence. */
  lemma RisingAppend(ds: seq<Delivery>, d: Delivery)
    requires Rising(ds) && (ds != [] ==> ds[|ds| - 1].sequence <= d.sequence)
    requires forall i :: 0 <= i < |ds| ==> ds[i].frames <= d.frames
    ensures Rising(ds + [d])
  {
    forall i | 0 <= i < |ds| ensures ds[i].sequence <= d.sequence {
      assert i < |ds| - 1 ==> ds[i].sequence <= ds[|ds| - 1].sequence;
    }
  }

  /** A delivery that makes no mark is covered by the newest mark, or consumed already. */
  lemma NoMark(w: World, sequence: nat)
    requires Remembers(w)
    requires (w.gate.marks != [] && sequence <= w.gate.marks[|w.gate.marks| - 1].sequence) || sequence <= w.gate.consumed
    ensures var more := w.deliveries + [Delivery(w.written, sequence)];
            AllPlaced(w.gate, more) && Recent(w.gate, more)
  {
    var g, ds := w.gate, w.deliveries;
    var d := Delivery(w.written, sequence);
    PlacedLater(g, ds, d);
    hide Placed;
    assert AllPlaced(g, ds + [d]) by {
      forall i | 0 <= i < |g.marks| ensures Placed(ds + [d], g.marks[i], |ds| + 1 - |g.marks| + i) {
        PlacedWeaker(ds + [d], g.marks[i], |ds| - |g.marks| + i, |ds| + 1 - |g.marks| + i);
      }
    }
    hide AllPlaced, MarksOk, Rising;
    forall t | 0 <= t < |ds + [d]| && t >= |ds + [d]| - MaxDeliveries ensures Kept(g, (ds + [d])[t]) {
      if t < |ds| {
        assert Kept(g, ds[t]);
      } else if sequence > g.consumed {
        assert g.marks[|g.marks| - 1] in g.marks;
      }
    }
  }

  lemma PlacedWeaker(ds: seq<Delivery>, m: Delivery, a: int, b: int)
    requires Placed(ds, m, a) && a <= b
    ensures Placed(ds, m, b)
  {
  }

  /** One that makes a mark is kept by it. */
  lemma NewMark(w: World, d: Delivery, room: seq<Delivery>, h: Gate)
    requires Remembers(w) && d.frames == w.written && d.sequence > w.gate.consumed
    requires w.gate.marks != [] ==> d.sequence > w.gate.marks[|w.gate.marks| - 1].sequence
    requires room == if |w.gate.marks| == MaxDeliveries then w.gate.marks[1..] else w.gate.marks
    requires h == w.gate.(marks := room + [d])
    ensures Recent(Apply(h), w.deliveries + [d]) && MarksOk(Apply(h)) && AllPlaced(Apply(h), w.deliveries + [d])
    ensures forall i :: 0 <= i < |Apply(h).marks| ==> Apply(h).marks[i].frames <= w.written
  {
    hide Ahead, MarksOk, AllPlaced, Rising, Apply, Kept;
    var g, ds := w.gate, w.deliveries;
    MarkAppended(w, d, room, h);
    ApplyRemembers(h, ds + [d]);
    assert forall m :: m in h.marks ==> m.frames <= w.written;
    MarksAhead(g, g);
    forall t | 0 <= t < |ds + [d]| && t >= |ds + [d]| - MaxDeliveries ensures Kept(Apply(h), (ds + [d])[t]) {
      assert t < |ds| ==> Kept(g, ds[t]);
      NewKept(g, ds, d, room, h, t);
    }
  }

  lemma NewKept(g: Gate, ds: seq<Delivery>, d: Delivery, room: seq<Delivery>, h: Gate, t: nat)
    requires Ahead(g) && AllPlaced(g, ds) && Rising(ds)
    requires room == if |g.marks| == MaxDeliveries then g.marks[1..] else g.marks
    requires h == g.(marks := room + [d]) && t <= |ds| && t >= |ds| + 1 - MaxDeliveries
    requires t < |ds| ==> Kept(g, ds[t])
    ensures Kept(h, (ds + [d])[t])
  {
    hide Ahead, AllPlaced, Rising;
    if t < |ds| {
      if |g.marks| == MaxDeliveries {
        DropRemembers(g, ds, t);
      }
      hide Kept;
      assert g.(marks := g.marks) == g;
      KeptMore(g.(marks := room), d, ds[t]);
    } else {
      assert d in h.marks;
    }
  }

  /** The room a new mark has: all of the ring, without its oldest mark if it is full. */
  function Room(g: Gate): seq<Delivery> {
    if |g.marks| == MaxDeliveries then g.marks[1..] else g.marks
  }

  predicate Skipped(g: Gate, sequence: nat) {
    (g.marks != [] && sequence <= g.marks[|g.marks| - 1].sequence) || sequence <= g.consumed
  }

  lemma CompleteStep(w: World, sequence: nat)
    ensures var d := Delivery(w.written, sequence);
            Step(w, Complete(sequence)) ==
              w.(gate := if Skipped(w.gate, sequence) then w.gate else Apply(w.gate.(marks := Room(w.gate) + [d])),
                 deliveries := w.deliveries + [d])
  {
    hide Apply;
  }

  lemma DeliverRemembers(w: World, sequence: nat)
    requires Remembers(w) && (w.deliveries == [] || sequence >= w.deliveries[|w.deliveries| - 1].sequence)
    ensures Remembers(Step(w, Complete(sequence)))
  {
    hide Rising, MarksOk, AllPlaced, Recent, Apply, Step, Skipped, Room;
    var g, ds := w.gate, w.deliveries;
    var d := Delivery(w.written, sequence);
    CompleteStep(w, sequence);
    RisingAppend(ds, d);
    assert forall i :: 0 <= i < |ds + [d]| ==> (ds + [d])[i].frames <= w.written;
    if Skipped(g, sequence) {
      SkipUnfolds(g, sequence);
      NoMark(w, sequence);
    } else {
      SkipUnfolds(g, sequence);
      NewMark(w, d, Room(g), g.(marks := Room(g) + [d]));
    }
  }

  lemma SkipUnfolds(g: Gate, sequence: nat)
    ensures Skipped(g, sequence) <==>
              (g.marks != [] && sequence <= g.marks[|g.marks| - 1].sequence) || sequence <= g.consumed
    ensures Room(g) == if |g.marks| == MaxDeliveries then g.marks[1..] else g.marks
  {
  }

  lemma KeptMore(g: Gate, m: Delivery, d: Delivery)
    requires Kept(g, d)
    ensures Kept(g.(marks := g.marks + [m]), d)
  {
    if g.consumed < d.sequence {
      var x :| x in g.marks && x.sequence >= d.sequence && x.frames <= d.frames;
      assert x in g.marks + [m];
    }
  }

  lemma PlacedLater(g: Gate, ds: seq<Delivery>, d: Delivery)
    requires AllPlaced(g, ds)
    ensures forall i :: 0 <= i < |g.marks| ==> Placed(ds + [d], g.marks[i], |ds| - |g.marks| + i)
  {
    forall i | 0 <= i < |g.marks| ensures Placed(ds + [d], g.marks[i], |ds| - |g.marks| + i) {
      assert Placed(ds, g.marks[i], |ds| - |g.marks| + i);
      var t :| 0 <= t < |ds| && t <= |ds| - |g.marks| + i && ds[t] == g.marks[i];
      assert (ds + [d])[t] == g.marks[i];
    }
  }

  lemma MarkAppended(w: World, d: Delivery, room: seq<Delivery>, h: Gate)
    requires Remembers(w) && d.frames == w.written && d.sequence > w.gate.consumed
    requires w.gate.marks != [] ==> d.sequence > w.gate.marks[|w.gate.marks| - 1].sequence
    requires room == if |w.gate.marks| == MaxDeliveries then w.gate.marks[1..] else w.gate.marks
    requires h == w.gate.(marks := room + [d])
    ensures Ahead(h) && AllPlaced(h, w.deliveries + [d])
  {
    AppendAhead(w.gate, d, room, h);
    PlacedAppended(w.gate, w.deliveries, d, room, h);
    hide Ahead, AllPlaced, Rising, Recent, MarksOk;
  }

  lemma PlacedAppended(g: Gate, ds: seq<Delivery>, d: Delivery, room: seq<Delivery>, h: Gate)
    requires AllPlaced(g, ds)
    requires room == if |g.marks| == MaxDeliveries then g.marks[1..] else g.marks
    requires h == g.(marks := room + [d])
    ensures AllPlaced(h, ds + [d])
  {
    var off := |g.marks| - |room|;
    PlacedLater(g, ds, d);
    hide AllPlaced;
    forall i | 0 <= i < |h.marks| ensures Placed(ds + [d], h.marks[i], |ds| + 1 - |h.marks| + i) {
      if i < |room| {
        assert Placed(ds + [d], g.marks[i + off], |ds| - |g.marks| + (i + off));
      } else {
        assert (ds + [d])[|ds|] == d;
      }
    }
    PlacedAll(h, ds + [d]);
  }

  lemma PlacedAll(g: Gate, ds: seq<Delivery>)
    requires forall i :: 0 <= i < |g.marks| ==> Placed(ds, g.marks[i], |ds| - |g.marks| + i)
    ensures AllPlaced(g, ds)
  {
  }

  lemma AppendAhead(g: Gate, d: Delivery, room: seq<Delivery>, h: Gate)
    requires MarksOk(g) && d.sequence > g.consumed
    requires forall i :: 0 <= i < |g.marks| ==> g.marks[i].frames <= d.frames
    requires g.marks != [] ==> d.sequence > g.marks[|g.marks| - 1].sequence
    requires room == if |g.marks| == MaxDeliveries then g.marks[1..] else g.marks
    requires h == g.(marks := room + [d])
    ensures Ahead(h)
  {
    forall i | 0 <= i < |g.marks| ensures g.marks[i].sequence < d.sequence {
      assert i < |g.marks| - 1 ==> g.marks[i].sequence < g.marks[|g.marks| - 1].sequence;
    }
  }

  lemma ReceiptRemembers(w: World, frames: nat)
    requires Remembers(w)
    ensures Remembers(w.(gate := Apply(w.gate.(receipted := frames))))
  {
    var g := w.gate.(receipted := frames);
    MarksAhead(w.gate, g);
    assert AllPlaced(g, w.deliveries);
    ApplyRemembers(g, w.deliveries);
    hide Ahead, MarksOk, AllPlaced, Rising, Apply;
    forall t | 0 <= t < |w.deliveries| && t >= |w.deliveries| - MaxDeliveries ensures Kept(Apply(g), w.deliveries[t]) {
      assert Kept(w.gate, w.deliveries[t]);
      assert Kept(g, w.deliveries[t]);
    }
  }

  lemma StepRemembers(w: World, op: Op)
    requires Remembers(w) && Enabled(w, op)
    ensures Remembers(Step(w, op))
  {
    hide Required, Remembers;
    match op {
      case Complete(sequence) => DeliverRemembers(w, sequence);
      case PageReceipt(frames) =>
        ReceiptIff(w.gate, frames, w.written);
        ReceiptRemembers(w, frames);
        assert w.(gate := w.gate) == w;
      case _ => SameRemembers(w, Step(w, op));
    }
  }

  lemma SameRemembers(w: World, t: World)
    requires Remembers(w) && t.deliveries == w.deliveries && t.written >= w.written
    requires t.gate == w.gate.(live := t.gate.live, paused := t.gate.paused, refusedAt := t.gate.refusedAt)
    ensures Remembers(t)
  {
    forall n | 0 <= n < |t.deliveries| && n >= |t.deliveries| - MaxDeliveries ensures Kept(t.gate, t.deliveries[n]) {
      assert Kept(w.gate, w.deliveries[n]);
    }
  }

  lemma {:induction false} RunRemembers(window: nat, quiet: int, start: int, trace: seq<World>, ops: seq<Op>, i: nat)
    requires Run(window, quiet, start, trace, ops) && i < |trace|
    ensures Remembers(trace[i])
  {
    if i > 0 {
      RunRemembers(window, quiet, start, trace, ops, i - 1);
      hide Remembers, Enabled;
      assert Enabled(trace[i - 1], ops[i - 1]) && trace[i] == Step(trace[i - 1], ops[i - 1]);
      StepRemembers(trace[i - 1], ops[i - 1]);
    }
  }

  /** A recent delivery whose frames have been receipted is consumed. */
  lemma ReceiptedIsConsumed(w: World, t: nat)
    requires Remembers(w) && t < |w.deliveries| && t >= |w.deliveries| - MaxDeliveries
    requires w.deliveries[t].frames <= w.gate.receipted
    ensures w.gate.consumed >= w.deliveries[t].sequence
  {
    assert Kept(w.gate, w.deliveries[t]);
  }

  // ---- Fresh pages are let in --------------------------------------------------------------------------------

  /** The page has receipted one of the last 128 deliveries that reaches `sequence`, or nothing is asked of it. */
  ghost predicate HasReceipted(w: World, sequence: nat) {
    sequence == 0 ||
    exists t :: 0 <= t < |w.deliveries| && t >= |w.deliveries| - MaxDeliveries &&
                w.deliveries[t].frames <= w.gate.receipted && w.deliveries[t].sequence >= sequence
  }

  /** The quiet period since the last refusal has passed, if the gate is paused at all. */
  predicate Quiet(w: World, at: int) {
    w.gate.paused ==> w.refusals != [] && at >= w.refusals[|w.refusals| - 1] + w.quiet
  }

  /** Every decision, by what was asked and where the page is then. */
  lemma DecidedIff(window: nat, quiet: int, start: int, trace: seq<World>, ops: seq<Op>, q: nat, i: nat)
    requires Run(window, quiet, start, trace, ops) && Decides(trace, ops, q, i)
    ensures trace[i + 1].refusals == trace[i].refusals || trace[i + 1].refusals == trace[i].refusals + [ops[q].at]
    ensures var required := Required(trace[q], ops[q].sampled);
            && (trace[i + 1].refusals == trace[i].refusals <==>
                  required.Some? && required.value <= trace[i].gate.consumed && Quiet(trace[i], ops[q].at))
            && (trace[i + 1].refusals == trace[i].refusals <==> !trace[i + 1].gate.paused)
  {
    RunKeepsInv(window, quiet, start, trace, ops, i);
    AskStays(window, quiet, start, trace, ops, q, i);
    assert trace[i + 1] == Step(trace[i], ops[i]);
    Decision(trace[i].gate, ops[q].at, quiet, Required(trace[q], ops[q].sampled));
    hide Required, GateOk, ClockOk, Run, Decides, Admit;
    assert |trace[i].refusals + [ops[q].at]| == |trace[i].refusals| + 1;
  }

  /** A page whose generation is alive when it is asked, and that has receipted the frames covering everything published
      up to one resolution after the window's start, is accepted if the gate is not paused, and accepted again as soon
      as the quiet period has passed. */
  lemma FreshIsAccepted(window: nat, quiet: int, start: int, trace: seq<World>, ops: seq<Op>, q: nat, i: nat)
    requires Run(window, quiet, start, trace, ops) && Decides(trace, ops, q, i)
    requires trace[q].clock.Some? && FrontierClock.Fine(window)
    requires HasReceipted(trace[i], FrontierClock.Frontier(trace[q].clock.value,
                                                           ops[q].sampled - window + FrontierClock.Step(window)))
    ensures trace[i + 1].refusals == trace[i].refusals <==> Quiet(trace[i], ops[q].at)
    ensures trace[i + 1].gate.paused <==> !Quiet(trace[i], ops[q].at)
  {
    DecidedIff(window, quiet, start, trace, ops, q, i);
    RunRemembers(window, quiet, start, trace, ops, i);
    RunKeepsInv(window, quiet, start, trace, ops, q);
    assert Enabled(trace[q], ops[q]);
    Demanded(trace[q], ops[q].sampled);
    var frontier := FrontierClock.Frontier(trace[q].clock.value, ops[q].sampled - window + FrontierClock.Step(window));
    if frontier > 0 {
      var t :| 0 <= t < |trace[i].deliveries| && t >= |trace[i].deliveries| - MaxDeliveries &&
               trace[i].deliveries[t].frames <= trace[i].gate.receipted && trace[i].deliveries[t].sequence >= frontier;
      ReceiptedIsConsumed(trace[i], t);
    }
  }

  lemma Demanded(w: World, sampled: int)
    requires Inv(w) && w.clock.Some? && sampled >= w.now && FrontierClock.Fine(w.window)
    ensures Required(w, sampled).Some?
    ensures Required(w, sampled).value <= FrontierClock.Frontier(w.clock.value, sampled - w.window + FrontierClock.Step(w.window))
  {
    if w.clock.value != [] {
      RequiredIsTight(w, sampled);
    }
  }
}
