/** What became of each input frame: outcomes recorded in any order and reported in frame order, in runs. */
module InputLedger {
  import opened Basics

  datatype Outcome = Unsettled | Written | Paused | Refused | Dropped | Partial

  const MaxBacklog := 1024

  /** Frames up to `through` that follow the run before had this outcome. */
  datatype InputRun = InputRun(through: nat, result: Outcome)

  /** `window` holds the outcomes of the frames after `reported`. */
  datatype Ledger = Ledger(received: nat, reported: nat, written: nat, window: seq<Outcome>)

  const Empty := Ledger(0, 0, 0, [])

  /** The name of an outcome on the wire; written has none. */
  function Code(o: Outcome): string {
    match o
    case Paused => "input_paused"
    case Refused => "input_refused"
    case Dropped => "input_dropped"
    case Partial => "input_partial"
    case _ => ""
  }

  function Receive(l: Ledger): (Ledger, Option<nat>) {
    if l.received - l.written >= MaxBacklog then (l, None)
    else (l.(received := l.received + 1, window := l.window + [Unsettled]), Some(l.received + 1))
  }

  /** The first outcome of a frame stands. The second part says whether this one did. */
  function Settle(l: Ledger, id: nat, result: Outcome): (Ledger, bool) {
    if l.reported < id <= l.received && id - l.reported - 1 < |l.window| && l.window[id - l.reported - 1].Unsettled?
    then (l.(window := l.window[id - l.reported - 1 := result]), true)
    else (l, false)
  }

  /** How many frames at the front are settled. */
  function Prefix(window: seq<Outcome>): (n: nat)
    ensures n <= |window| && (n < |window| ==> window[n].Unsettled?)
    ensures forall i :: 0 <= i < n ==> !window[i].Unsettled?
  {
    if window == [] || window[0].Unsettled? then 0 else 1 + Prefix(window[1..])
  }

  /** Adjacent equal outcomes of the frames after `base` make one run. */
  function Runs(base: nat, settled: seq<Outcome>): seq<InputRun> {
    if settled == [] then [] else Extend(Runs(base, settled[..|settled| - 1]), base + |settled|, settled[|settled| - 1])
  }

  function Extend(runs: seq<InputRun>, through: nat, result: Outcome): seq<InputRun> {
    if runs != [] && runs[|runs| - 1].result == result
    then runs[|runs| - 1 := InputRun(through, result)]
    else runs + [InputRun(through, result)]
  }

  function Take(l: Ledger): (Ledger, seq<InputRun>) {
    var n := Prefix(l.window);
    (l.(window := l.window[n..], reported := l.reported + n), Runs(l.reported, l.window[..n]))
  }

  // ---- What the runs say -----------------------------------------------------------------------------------

  function Repeat(o: Outcome, n: int): seq<Outcome> {
    if n <= 0 then [] else seq(n, _ => o)
  }

  /** The last frame `runs` covers. */
  function Through(base: nat, runs: seq<InputRun>): nat {
    if runs == [] then base else runs[|runs| - 1].through
  }

  /** The runs frame by frame, as the page reads them: one outcome for each frame after `base`. */
  function Expand(base: nat, runs: seq<InputRun>): seq<Outcome>
    decreases |runs|
  {
    if runs == [] then []
    else Repeat(runs[0].result, runs[0].through - base) + Expand(runs[0].through, runs[1..])
  }

  /** Every run covers at least one frame after the run before. */
  predicate Rising(base: nat, runs: seq<InputRun>)
    decreases |runs|
  {
    runs == [] || (runs[0].through > base && Rising(runs[0].through, runs[1..]))
  }

  lemma {:induction false} RisingReach(base: nat, runs: seq<InputRun>)
    requires Rising(base, runs)
    ensures Through(base, runs) >= base && |Expand(base, runs)| == Through(base, runs) - base
    decreases |runs|
  {
    if runs != [] {
      RisingReach(runs[0].through, runs[1..]);
    }
  }

  lemma {:induction false} ExpandLast(base: nat, runs: seq<InputRun>, last: InputRun)
    ensures Expand(base, runs + [last]) == Expand(base, runs) + Repeat(last.result, last.through - Through(base, runs))
    ensures Rising(base, runs + [last]) <==> Rising(base, runs) && last.through > Through(base, runs)
    decreases |runs|
  {
    if runs == [] {
      assert [last][1..] == [];
      assert Repeat(last.result, last.through - base) + [] == [] + Repeat(last.result, last.through - base);
    } else {
      assert (runs + [last])[1..] == runs[1..] + [last];
      ExpandLast(runs[0].through, runs[1..], last);
      hide Repeat;
      var head := Repeat(runs[0].result, runs[0].through - base);
      var tail := Repeat(last.result, last.through - Through(base, runs));
      assert head + (Expand(runs[0].through, runs[1..]) + tail) == head + Expand(runs[0].through, runs[1..]) + tail;
    }
  }

  lemma ExtendExpands(base: nat, runs: seq<InputRun>, result: Outcome)
    requires Rising(base, runs)
    ensures Through(base, runs) >= base
    ensures var e := Extend(runs, Through(base, runs) + 1, result);
            Expand(base, e) == Expand(base, runs) + [result] && Through(base, e) == Through(base, runs) + 1 && Rising(base, e)
  {
    RisingReach(base, runs);
    var through := Through(base, runs) + 1;
    hide Expand, Rising, Repeat;
    if runs != [] && runs[|runs| - 1].result == result {
      var before, last := runs[..|runs| - 1], runs[|runs| - 1];
      assert runs == before + [last];
      ExtendRun(base, before, last);
      assert Extend(runs, through, result) == before + [last.(through := through)];
    } else {
      ExpandLast(base, runs, InputRun(through, result));
      RepeatOneMore(result, 0);
    }
  }

  /** One more frame in the last run. */
  lemma ExtendRun(base: nat, before: seq<InputRun>, last: InputRun)
    requires Rising(base, before + [last])
    ensures Expand(base, before + [last.(through := last.through + 1)]) == Expand(base, before + [last]) + [last.result]
    ensures Rising(base, before + [last.(through := last.through + 1)])
  {
    hide Expand, Rising, Repeat;
    ExpandLast(base, before, last);
    ExpandLast(base, before, last.(through := last.through + 1));
    var n := last.through - Through(base, before);
    RepeatOneMore(last.result, n);
    var front := Expand(base, before);
    assert front + (Repeat(last.result, n) + [last.result]) == front + Repeat(last.result, n) + [last.result];
  }

  lemma RepeatOneMore(o: Outcome, n: nat)
    ensures Repeat(o, n + 1) == Repeat(o, n) + [o]
    ensures Repeat(o, 1) == [o]
  {
  }

  /** Coalescing loses nothing: the runs say exactly the outcomes they were made from. */
  lemma {:induction false} RunsExpand(base: nat, settled: seq<Outcome>)
    ensures var runs := Runs(base, settled);
            Expand(base, runs) == settled && Through(base, runs) == base + |settled| && Rising(base, runs)
  {
    if settled != [] {
      var head := settled[..|settled| - 1];
      RunsExpand(base, head);
      ExtendExpands(base, Runs(base, head), settled[|settled| - 1]);
      hide Expand, Rising, Extend;
      assert settled == head + [settled[|settled| - 1]];
    }
  }

  /** Neighbouring runs of one report differ, so there are as few as possible. */
  lemma {:induction false} RunsAlternate(base: nat, settled: seq<Outcome>)
    ensures var runs := Runs(base, settled);
            && (settled != [] ==> runs != [] && runs[|runs| - 1].result == settled[|settled| - 1])
            && forall i :: 0 < i < |runs| ==> runs[i - 1].result != runs[i].result
  {
    if settled != [] {
      RunsAlternate(base, settled[..|settled| - 1]);
    }
  }

  /** The page tells every outcome from every other by its code. */
  lemma CodesDiffer(a: Outcome, b: Outcome)
    requires !a.Unsettled? && !b.Unsettled? && Code(a) == Code(b)
    ensures a == b
  {
    assert |"input_paused"| == 12 && |"input_refused"| == 13 && |"input_dropped"| == 13 && |"input_partial"| == 13;
    assert "input_refused"[6] == 'r' && "input_dropped"[6] == 'd' && "input_partial"[6] == 'p';
  }

  // ---- The ledger, its reporter and the frames' history ----------------------------------------------------

  datatype Phase = Waiting | Taking | Writing(runs: seq<InputRun>) | Ended

  /** `outcomes` is each received frame's first settled outcome and `said` what the page has read, both history.
      `signals` counts settlers between recording an outcome and offering the wake. */
  datatype World = World(ledger: Ledger, wake: bool, signals: nat, phase: Phase, said: seq<Outcome>,
                         outcomes: seq<Outcome>)

  const Opening := World(Empty, false, 0, Waiting, [], [])

  datatype Op = Arrive | Decide(id: nat, result: Outcome) | Signal | Wake | TakeRuns | WriteRun | Stop

  predicate Enabled(w: World, op: Op) {
    match op
    case Arrive => true
    case Decide(_, _) => true
    case Signal => w.signals > 0
    case Wake => w.phase.Waiting? && w.wake
    case TakeRuns => w.phase.Taking?
    case WriteRun => w.phase.Writing? && w.phase.runs != []
    case Stop => true
  }

  function Reporting(runs: seq<InputRun>): Phase {
    if runs == [] then Waiting else Writing(runs)
  }

  function Step(w: World, op: Op): World
    requires Enabled(w, op)
  {
    match op
    case Arrive =>
      var (l, id) := Receive(w.ledger);
      w.(ledger := l, outcomes := if id.Some? then w.outcomes + [Unsettled] else w.outcomes)
    case Decide(id, result) =>
      var (l, settled) := Settle(w.ledger, id, result);
      var first := 1 <= id <= |w.outcomes| && w.outcomes[id - 1].Unsettled?;
      w.(ledger := l, signals := if settled then w.signals + 1 else w.signals,
         outcomes := if first then w.outcomes[id - 1 := result] else w.outcomes)
    case Signal => w.(signals := w.signals - 1, wake := true)
    case Wake => w.(wake := false, phase := Taking)
    case TakeRuns => var (l, runs) := Take(w.ledger); w.(ledger := l, phase := Reporting(runs))
    case WriteRun =>
      var run := w.phase.runs[0];
      w.(ledger := w.ledger.(written := run.through), phase := Reporting(w.phase.runs[1..]),
         said := w.said + Repeat(run.result, run.through - |w.said|))
    case Stop => w.(phase := Ended)
  }

  /** Runs taken and not yet written. */
  function Pending(p: Phase): seq<InputRun> {
    if p.Writing? then p.runs else []
  }

  ghost predicate Counted(w: World) {
    var l := w.ledger;
    && l.written <= l.reported <= l.received == |w.outcomes| && l.received - l.written <= MaxBacklog
    && l.window == w.outcomes[l.reported..]
    && forall i :: 0 <= i < l.reported ==> !w.outcomes[i].Unsettled?
  }

  /** What the page has read is the outcomes written, and the runs in hand say the ones reported since. */
  ghost predicate Faithful(w: World)
    requires Counted(w)
  {
    && w.said == w.outcomes[..w.ledger.written]
    && (!w.phase.Ended? ==>
          && Rising(w.ledger.written, Pending(w.phase))
          && Expand(w.ledger.written, Pending(w.phase)) == w.outcomes[w.ledger.written..w.ledger.reported])
  }

  /** A settled head is never forgotten. */
  ghost predicate Noticed(w: World) {
    w.ledger.window != [] && !w.ledger.window[0].Unsettled? && !w.phase.Ended? ==>
      w.wake || w.signals > 0 || w.phase.Taking?
  }

  ghost predicate Inv(w: World) {
    Counted(w) && Faithful(w) && Noticed(w)
  }

  lemma ArriveKeeps(w: World)
    requires Inv(w)
    ensures Inv(Step(w, Arrive))
  {
    hide Expand, Rising;
    var t := Step(w, Arrive);
    var l := w.ledger;
    if l.received - l.written < MaxBacklog {
      assert t.outcomes[l.written..l.reported] == w.outcomes[l.written..l.reported];
      assert t.outcomes[..l.written] == w.outcomes[..l.written];
    }
  }

  lemma DecideKeeps(w: World, id: nat, result: Outcome)
    requires Inv(w)
    ensures Inv(Step(w, Decide(id, result)))
  {
    hide Expand, Rising;
    var t := Step(w, Decide(id, result));
    var l := w.ledger;
    if 1 <= id <= |w.outcomes| && w.outcomes[id - 1].Unsettled? {
      assert id > l.reported;
      assert l.window[id - l.reported - 1] == w.outcomes[id - 1];
      assert t.outcomes[l.written..l.reported] == w.outcomes[l.written..l.reported];
      assert t.outcomes[..l.written] == w.outcomes[..l.written];
    } else if l.reported < id <= l.received {
      assert l.window[id - l.reported - 1] == w.outcomes[id - 1];
    }
  }

  /** Between takes everything reported has been written. */
  lemma AllWritten(w: World)
    requires Inv(w) && !w.phase.Ended? && Pending(w.phase) == []
    ensures w.ledger.written == w.ledger.reported
  {
    assert |w.outcomes[w.ledger.written..w.ledger.reported]| == 0;
  }

  lemma TakeKeeps(w: World)
    requires Inv(w) && w.phase.Taking?
    ensures Inv(Step(w, TakeRuns))
  {
    hide Inv, Runs, Expand, Rising, Through;
    AllWritten(w);
    var l := w.ledger;
    var n := Prefix(l.window);
    RunsExpand(l.reported, l.window[..n]);
    TakenKeeps(w, n, Runs(l.reported, l.window[..n]));
  }

  lemma TakenKeeps(w: World, n: nat, runs: seq<InputRun>)
    requires Inv(w) && w.phase.Taking? && w.ledger.written == w.ledger.reported && n <= |w.ledger.window|
    requires Rising(w.ledger.reported, runs) && Expand(w.ledger.reported, runs) == w.ledger.window[..n]
    requires forall i :: 0 <= i < n ==> !w.ledger.window[i].Unsettled?
    requires n < |w.ledger.window| ==> w.ledger.window[n].Unsettled?
    ensures Inv(w.(ledger := w.ledger.(window := w.ledger.window[n..], reported := w.ledger.reported + n),
                   phase := Reporting(runs)))
  {
    hide Expand, Rising;
    var l := w.ledger;
    Slices(w.outcomes, l.reported, l.window, n);
    if n < |l.window| {
      OneFurther(l.window, n);
    }
  }

  lemma Slices(s: seq<Outcome>, a: nat, window: seq<Outcome>, n: nat)
    requires a <= |s| && window == s[a..] && n <= |window|
    requires forall i :: 0 <= i < n ==> !window[i].Unsettled?
    ensures window[..n] == s[a..a + n] && window[n..] == s[a + n..]
    ensures forall i :: a <= i < a + n ==> !s[i].Unsettled?
  {
    forall i | a <= i < a + n ensures !s[i].Unsettled? {
      assert window[i - a] == s[i];
    }
  }

  lemma WriteKeeps(w: World)
    requires Inv(w) && w.phase.Writing? && w.phase.runs != []
    ensures Inv(Step(w, WriteRun))
  {
    var l := w.ledger;
    var run, rest := w.phase.runs[0], w.phase.runs[1..];
    var first := Repeat(run.result, run.through - l.written);
    var all := w.outcomes[l.written..l.reported];
    assert all == first + Expand(run.through, rest);
    hide Expand, Rising, Repeat;
    RepeatLength(run.result, run.through - l.written);
    SplitAt(w.outcomes, l.written, run.through, l.reported, first, Expand(run.through, rest));
  }

  lemma RepeatLength(o: Outcome, n: nat)
    ensures |Repeat(o, n)| == n
  {
  }

  lemma SplitAt(s: seq<Outcome>, a: nat, b: nat, c: nat, x: seq<Outcome>, y: seq<Outcome>)
    requires a <= c <= |s| && a <= b && s[a..c] == x + y && |x| == b - a
    ensures b <= c && s[..b] == s[..a] + x && s[b..c] == y
  {
    assert |x + y| == c - a;
    assert x == (x + y)[..b - a] && y == (x + y)[b - a..];
  }

  lemma StepKeepsInv(w: World, op: Op)
    requires Inv(w) && Enabled(w, op)
    ensures Inv(Step(w, op))
  {
    match op {
      case Arrive => ArriveKeeps(w);
      case Decide(id, result) => DecideKeeps(w, id, result);
      case TakeRuns => TakeKeeps(w);
      case WriteRun => WriteKeeps(w);
      case _ =>
        hide Expand, Rising;
    }
  }

  ghost predicate Run(trace: seq<World>, ops: seq<Op>) {
    && |trace| == |ops| + 1 && trace[0] == Opening
    && forall i :: 0 <= i < |ops| ==> Enabled(trace[i], ops[i]) && trace[i + 1] == Step(trace[i], ops[i])
  }

  lemma {:induction false} RunKeepsInv(trace: seq<World>, ops: seq<Op>, i: nat)
    requires Run(trace, ops) && i < |trace|
    ensures Inv(trace[i])
  {
    if i > 0 {
      RunKeepsInv(trace, ops, i - 1);
      hide Inv, Enabled, Step;
      assert trace[i] == Step(trace[i - 1], ops[i - 1]);
      StepKeepsInv(trace[i - 1], ops[i - 1]);
    }
  }

  /** A frame's recorded outcome never changes once it is settled. */
  lemma {:induction false} FirstOutcomeStands(trace: seq<World>, ops: seq<Op>, i: nat, k: nat, f: nat)
    requires Run(trace, ops) && i <= k < |trace| && f < |trace[i].outcomes| && !trace[i].outcomes[f].Unsettled?
    ensures f < |trace[k].outcomes| && trace[k].outcomes[f] == trace[i].outcomes[f]
  {
    if i < k {
      FirstOutcomeStands(trace, ops, i, k - 1, f);
      hide Take, Settle;
      assert trace[k] == Step(trace[k - 1], ops[k - 1]);
    }
  }

  /** In every run the page has read, frame by frame and in order, exactly the first settled outcomes of the frames
      written, with at most 1024 frames waiting, and a settled head has a wake pending or a take under way. */
  lemma PageReadsOutcomes(trace: seq<World>, ops: seq<Op>, i: nat)
    requires Run(trace, ops) && i < |trace|
    ensures var w := trace[i];
            && w.ledger.written <= w.ledger.reported <= w.ledger.received == |w.outcomes|
            && w.ledger.received - w.ledger.written <= MaxBacklog
            && w.said == w.outcomes[..w.ledger.written]
            && (forall f :: 0 <= f < |w.said| ==> !w.said[f].Unsettled?)
            && (!w.phase.Ended? && w.ledger.reported < |w.outcomes| && !w.outcomes[w.ledger.reported].Unsettled? ==>
                  w.wake || w.signals > 0 || w.phase.Taking?)
  {
    RunKeepsInv(trace, ops, i);
    hide Expand, Rising;
  }

  // ---- The ledger object -----------------------------------------------------------------------------------

  class LedgerObject {
    var received: nat
    var reported: nat
    var written: nat
    var window: seq<Outcome>
    var wake: bool

    ghost predicate Valid()
      reads this
    {
      written <= reported && received == reported + |window|
    }

    ghost function View(): Ledger
      reads this
    {
      Ledger(received, reported, written, window)
    }

    constructor ()
      ensures Valid() && View() == Empty && !wake
    {
      received, reported, written, window, wake := 0, 0, 0, [], false;
    }

    method ReceiveFrame() returns (id: Option<nat>)
      requires Valid()
      modifies this`received, this`window
      ensures Valid() && (View(), id) == Receive(old(View()))
      ensures id == if old(received) - old(written) < 1024 then Some(old(received) + 1) else None
      ensures received == old(received) + |window| - |old(window)| && |window| == |old(window)| + (if id.Some? then 1 else 0)
    {
      if received - written >= MaxBacklog {
        return None;
      }
      received := received + 1;
      window := window + [Unsettled];
      id := Some(received);
    }

    /** Offers the wake after recording an outcome, without waiting for anyone to take it. */
    method SettleFrame(id: nat, result: Outcome)
      requires Valid()
      modifies this`window, this`wake
      ensures Valid() && View() == Settle(old(View()), id, result).0
      ensures wake == (old(wake) || Settle(old(View()), id, result).1)
      ensures reported < id <= received && old(window)[id - reported - 1].Unsettled? ==>
                wake && window == old(window)[id - reported - 1 := result]
    {
      var settled := false;
      if id > reported && id <= received {
        if window[id - reported - 1].Unsettled? {
          window := window[id - reported - 1 := result];
          settled := true;
        }
      }
      if settled {
        wake := true;
      }
    }

    /** The writer's word is taken as it is; what it names was reported as long as the writer tells the truth. */
    method Wrote(through: nat)
      requires Valid()
      modifies this`written
      ensures View() == old(View()).(written := through)
      ensures Valid() <==> through <= reported
    {
      written := through;
    }

    /** Removes the settled prefix and returns it as runs of one result. */
    method TakeSettled() returns (runs: seq<InputRun>)
      requires Valid()
      modifies this`window, this`reported
      ensures Valid() && (View(), runs) == Take(old(View()))
      ensures (window != [] ==> window[0].Unsettled?) && reported + |window| == received
    {
      runs := [];
      var n := 0;
      while n < |window| && !window[n].Unsettled?
        invariant Valid() && View() == old(View())
        invariant 0 <= n <= Prefix(window)
        invariant runs == Runs(reported, window[..n])
      {
        hide Runs, Prefix;
        PrefixBeyond(window, n);
        RunsStep(reported, window, n);
        var through := reported + n + 1;
        var last := |runs| - 1;
        if last >= 0 && runs[last].result == window[n] {
          runs := runs[last := InputRun(through, window[n])];
        } else {
          runs := runs + [InputRun(through, window[n])];
        }
        n := n + 1;
      }
      PrefixIs(window, n);
      hide Runs, Prefix;
      window := window[n..];
      reported := reported + n;
    }
  }

  lemma RunsStep(base: nat, window: seq<Outcome>, n: nat)
    requires n < |window|
    ensures Runs(base, window[..n + 1]) == Extend(Runs(base, window[..n]), base + n + 1, window[n])
  {
    assert window[..n + 1][..n] == window[..n];
  }

  lemma PrefixBeyond(window: seq<Outcome>, n: nat)
    requires n < |window| && n <= Prefix(window) && !window[n].Unsettled?
    ensures n + 1 <= Prefix(window)
  {
  }

  lemma PrefixIs(window: seq<Outcome>, n: nat)
    requires n <= Prefix(window) && (n == |window| || window[n].Unsettled?)
    ensures Prefix(window) == n
  {
  }
}
