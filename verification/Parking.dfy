/** Output that arrives while a rotation is under way: parked within fixed caps, then replayed to the winner. */
module Parking {
  import opened Basics

  const ReplayBatchBytes := 0x1_0000
  const PendingCapBytes := 0x10_0000
  const PendingCapRecords := 16

  /** What a generation receives: the bootstrap the server authored, or the n-th byte the observer read. Naming a
      byte by its place in the observer's stream makes order and loss visible. */
  datatype Item = Bootstrap | Byte(position: nat)

  function Range(from: nat, to: nat): (s: seq<Item>)
    requires from <= to
    ensures |s| == to - from && forall i :: 0 <= i < |s| ==> s[i] == Byte(from + i)
  {
    seq(to - from, i requires 0 <= i => Byte(from + i))
  }

  lemma RangeSplit(a: nat, b: nat, c: nat)
    requires a <= b <= c
    ensures Range(a, b) + Range(b, c) == Range(a, c)
  {
  }

  /** Whether so many parked bytes stay within both caps. */
  predicate WithinCaps(bytes: nat) {
    bytes <= PendingCapBytes && CeilDiv(bytes, ReplayBatchBytes) <= PendingCapRecords
  }

  /** The two caps are one: sixteen pieces of 64 KiB are the megabyte. */
  lemma CapsAgree(bytes: nat)
    ensures WithinCaps(bytes) <==> bytes <= PendingCapBytes
  {
  }

  datatype AppendError = PendingOverflow | NoMemory

  /** unifiedRotationPending.append: a buffer holding `parked` bytes refuses an event that breaks the caps, and its
      first event when the account denies the whole buffer's memory. */
  function Refusal(parked: nat, bytes: nat, granted: bool): Option<AppendError> {
    if bytes == 0 then None
    else if !WithinCaps(parked + bytes) then Some(PendingOverflow)
    else if parked == 0 && !granted then Some(NoMemory)
    else None
  }

  /** Where output goes: to the predecessor, into the parking buffer, to the predecessor again after an abort, to the
      successor, or nowhere after a fatal end. */
  datatype Phase = Flowing | Parked | Restored | Committed | Dead

  /** What became of the first event that could not be taken and of the rest of its decoded batch. */
  datatype Setback = Nothing | Kept | Dropped

  /** `seen` counts the observer's bytes and `flipped` is where parking began. An overflow keeps the refused event and
      the rest of its batch aside in `extra`; any other refusal drops them. `waiting` says the settlement wait has begun
      to read again, `late` that it parked something behind kept events, `failed` that it met an error. `refusedFrom`,
      `refusedTo` and `restoredAt` are history: which bytes were kept aside or dropped, and how far the observer was
      at the end. */
  datatype State = State(phase: Phase, seen: nat, flipped: nat, predecessor: seq<Item>, successor: seq<Item>,
                         parked: seq<Item>, extra: seq<Item>, setback: Setback, waiting: bool, late: bool, failed: bool,
                         bootstrapped: bool, refusedFrom: nat, refusedTo: nat, restoredAt: nat)

  /** `granted` is what the unit's memory account answers should the buffer need it. CutShort ends the composite
      before the flip: a response its account refuses, or a predecessor that refuses output, takes the rest of the
      decoded batch along. */
  datatype Op =
    | Output(bytes: nat, granted: bool)
    | BatchRest(bytes: nat)
    | CutShort(bytes: nat)
    | Flip
    | WriteBootstrap
    | BeginWait
    | Commit
    | Restore
    | Fail

  const Start := State(Flowing, 0, 0, [], [], [], [], Nothing, false, false, false, false, 0, 0, 0)

  predicate Enabled(s: State, op: Op) {
    match op
    case Output(bytes, _) => bytes > 0 && (s.phase.Parked? && !s.setback.Nothing? ==> s.waiting)
    case BatchRest(bytes) => bytes > 0 && s.phase.Parked? && !s.setback.Nothing? && !s.waiting
    case CutShort(bytes) => bytes > 0 && s.phase.Flowing?
    case Flip => s.phase.Flowing?
    case WriteBootstrap => s.phase.Parked? && !s.bootstrapped
    case BeginWait => s.phase.Parked? && !s.setback.Nothing?
    case Commit => s.phase.Parked? && s.setback.Nothing? && s.bootstrapped
    case Restore => s.phase.Parked? || s.phase.Flowing?
    case Fail => s.phase.Parked? || s.phase.Restored?
  }

  /** observe: an event of output is routed by the holder's state; a refused one is kept aside, dropped, or fatal. */
  function Observe(s: State, bytes: nat, granted: bool): State {
    var t := s.(seen := s.seen + bytes);
    var data := Range(s.seen, s.seen + bytes);
    match s.phase
    case Flowing => t.(predecessor := s.predecessor + data)
    case Restored => t.(predecessor := s.predecessor + data)
    case Committed => t.(successor := s.successor + data)
    case Dead => t
    case Parked => Park(s, bytes, Refusal(|s.parked|, bytes, granted))
  }

  function Park(s: State, bytes: nat, refusal: Option<AppendError>): State {
    var t := s.(seen := s.seen + bytes);
    var data := Range(s.seen, s.seen + bytes);
    if refusal.None? then t.(parked := s.parked + data, late := s.late || s.setback.Kept?)
    else if !s.setback.Nothing? then t.(failed := true)
    else
      var cut := t.(refusedFrom := s.seen, refusedTo := t.seen);
      if refusal.value.PendingOverflow? then cut.(setback := Kept, extra := data) else cut.(setback := Dropped)
  }

  function Apply(s: State, op: Op): State
    requires Enabled(s, op)
  {
    match op
    case Output(bytes, granted) => Observe(s, bytes, granted)
    case BatchRest(bytes) =>
      s.(seen := s.seen + bytes, refusedTo := s.seen + bytes,
         extra := if s.setback.Kept? then s.extra + Range(s.seen, s.seen + bytes) else s.extra)
    case CutShort(bytes) =>
      s.(phase := Restored, seen := s.seen + bytes, setback := Dropped, refusedFrom := s.seen,
         refusedTo := s.seen + bytes, restoredAt := s.seen + bytes)
    case Flip => s.(phase := Parked, flipped := s.seen)
    case WriteBootstrap => s.(bootstrapped := true, successor := s.successor + [Bootstrap])
    case BeginWait => s.(waiting := true)
    case Commit => s.(phase := Committed, successor := s.successor + s.parked, parked := [])
    case Restore =>
      // An error met while settling makes the rotation fatal; otherwise the predecessor gets the buffer, then the
      // kept events.
      if s.failed then s.(phase := Dead, parked := [], extra := [])
      else s.(phase := Restored, predecessor := s.predecessor + s.parked + s.extra, parked := [], extra := [],
              restoredAt := s.seen)
    case Fail => s.(phase := Dead, parked := [], extra := [])
  }

  // ---- What every reachable state keeps --------------------------------------------------------------------

  /** Bytes parked before the first refusal, the refused ones, and those parked after it, by their places. */
  ghost predicate BufferOk(s: State) {
    && s.flipped <= s.seen
    && match s.setback
       case Nothing => s.parked == Range(s.flipped, s.seen) && s.extra == [] && !s.late && !s.failed && !s.waiting
       case Kept => Cut(s)
       case Dropped => Hole(s)
  }

  ghost predicate Cut(s: State) {
    && s.flipped <= s.refusedFrom < s.refusedTo <= s.seen && s.extra == Range(s.refusedFrom, s.refusedTo)
    && |s.parked| >= s.refusedFrom - s.flipped
    && s.parked[..s.refusedFrom - s.flipped] == Range(s.flipped, s.refusedFrom)
    && (!s.waiting ==> !s.late && !s.failed && s.refusedTo == s.seen)
    && (s.late <==> |s.parked| > s.refusedFrom - s.flipped)
    && (!s.failed ==> s.parked[s.refusedFrom - s.flipped..] == Range(s.refusedTo, s.seen))
  }

  /** Only the buffer's first event can be refused its memory, so what is parked came after the dropped bytes. */
  ghost predicate Hole(s: State) {
    && s.flipped == s.refusedFrom < s.refusedTo <= s.seen && s.extra == [] && !s.late
    && (!s.waiting ==> !s.failed && s.refusedTo == s.seen)
    && (!s.failed ==> s.parked == Range(s.refusedTo, s.seen))
  }

  ghost predicate Inv(s: State) {
    && s.flipped <= s.seen && |s.parked| <= PendingCapBytes
    && (s.phase.Flowing? ==>
          s.predecessor == Range(0, s.seen) && s.successor == [] && s.setback.Nothing? && !s.late && !s.waiting &&
          !s.failed && s.parked == [] && s.extra == [] && !s.bootstrapped)
    && (s.phase.Parked? ==>
          s.predecessor == Range(0, s.flipped) && BufferOk(s) &&
          s.successor == if s.bootstrapped then [Bootstrap] else [])
    && (s.phase.Restored? ==> RestoredOk(s))
    && (s.phase.Committed? ==>
          s.predecessor == Range(0, s.flipped) && s.successor == [Bootstrap] + Range(s.flipped, s.seen))
  }

  ghost predicate RestoredOk(s: State) {
    if s.setback.Dropped? then !s.late && Missing(s)
    else if s.late then Displaced(s)
    else s.predecessor == Range(0, s.seen)
  }

  /** The late bytes stand in front of the refused ones: everything is there, out of order. */
  ghost predicate Displaced(s: State) {
    && s.refusedFrom < s.refusedTo < s.restoredAt <= s.seen
    && s.predecessor == Range(0, s.refusedFrom) + Range(s.refusedTo, s.restoredAt) +
                        Range(s.refusedFrom, s.refusedTo) + Range(s.restoredAt, s.seen)
  }

  /** Exactly the dropped bytes are missing. */
  ghost predicate Missing(s: State) {
    && s.refusedFrom < s.refusedTo <= s.seen
    && s.predecessor == Range(0, s.refusedFrom) + Range(s.refusedTo, s.seen)
  }

  lemma StepKeepsInv(s: State, op: Op)
    requires Inv(s) && Enabled(s, op)
    ensures Inv(Apply(s, op))
  {
    match op {
      case Output(bytes, granted) => ObserveKeeps(s, bytes, granted);
      case BatchRest(bytes) => RestKeeps(s, bytes);
      case CutShort(bytes) => assert Range(0, s.seen) + Range(s.seen + bytes, s.seen + bytes) == Range(0, s.seen);
      case Flip => assert Range(s.seen, s.seen) == [];
      case WriteBootstrap => assert [] + [Bootstrap] == [Bootstrap];
      case BeginWait =>
      case Commit =>
      case Restore => RestoreKeeps(s);
      case Fail =>
    }
  }

  lemma ObserveKeeps(s: State, bytes: nat, granted: bool)
    requires Inv(s) && Enabled(s, Output(bytes, granted))
    ensures Inv(Observe(s, bytes, granted))
  {
    if s.phase.Parked? {
      ParkKeeps(s, bytes, granted);
    } else if s.phase.Restored? && s.late {
      DisplacedKeeps(s, bytes, granted);
    } else {
      FlowKeeps(s, bytes, granted);
    }
  }

  lemma FlowKeeps(s: State, bytes: nat, granted: bool)
    requires Inv(s) && bytes > 0 && !s.phase.Parked? && !(s.phase.Restored? && s.late)
    ensures Inv(Observe(s, bytes, granted))
  {
    hide WithinCaps, Park;
    RangeSplit(0, s.seen, s.seen + bytes);
    if s.phase.Committed? {
      RangeSplit(s.flipped, s.seen, s.seen + bytes);
      Regroup([Bootstrap], Range(s.flipped, s.seen), Range(s.seen, s.seen + bytes));
    }
    if s.phase.Restored? && s.setback.Dropped? {
      RangeSplit(s.refusedTo, s.seen, s.seen + bytes);
      Regroup(Range(0, s.refusedFrom), Range(s.refusedTo, s.seen), Range(s.seen, s.seen + bytes));
    }
  }

  lemma DisplacedKeeps(s: State, bytes: nat, granted: bool)
    requires Inv(s) && bytes > 0 && s.phase.Restored? && s.late
    ensures Inv(Observe(s, bytes, granted))
  {
    hide WithinCaps, Park;
    RangeSplit(s.restoredAt, s.seen, s.seen + bytes);
    Regroup(Range(0, s.refusedFrom) + Range(s.refusedTo, s.restoredAt) + Range(s.refusedFrom, s.refusedTo),
            Range(s.restoredAt, s.seen), Range(s.seen, s.seen + bytes));
  }

  lemma Regroup(a: seq<Item>, b: seq<Item>, c: seq<Item>)
    ensures (a + b) + c == a + (b + c)
  {
  }

  lemma ParkKeeps(s: State, bytes: nat, granted: bool)
    requires Inv(s) && s.phase.Parked? && Enabled(s, Output(bytes, granted))
    ensures Inv(Observe(s, bytes, granted))
  {
    CapsAgree(|s.parked| + bytes);
    var refusal := Refusal(|s.parked|, bytes, granted);
    assert refusal.None? ==> |s.parked| + bytes <= PendingCapBytes;
    assert refusal == Some(NoMemory) ==> s.parked == [];
    hide CeilDiv, Refusal, WithinCaps;
    match s.setback {
      case Nothing => FirstKeeps(s, bytes, refusal);
      case Kept => LateKeeps(s, bytes, refusal);
      case Dropped => HoleKeeps(s, bytes, refusal);
    }
  }

  /** Before any refusal: parked, or the first refusal. */
  lemma FirstKeeps(s: State, bytes: nat, refusal: Option<AppendError>)
    requires Inv(s) && s.phase.Parked? && bytes > 0 && s.setback.Nothing?
    requires refusal.None? ==> |s.parked| + bytes <= PendingCapBytes
    requires refusal == Some(NoMemory) ==> s.parked == []
    ensures Inv(Park(s, bytes, refusal))
  {
    var t := Park(s, bytes, refusal);
    RangeSplit(s.flipped, s.seen, t.seen);
    if t.setback.Kept? {
      assert t.parked[..s.seen - s.flipped] == t.parked;
      assert t.parked[s.seen - s.flipped..] == [] == Range(t.seen, t.seen);
    } else if t.setback.Dropped? {
      assert |Range(s.flipped, s.seen)| == 0;
      assert Range(t.seen, t.seen) == [];
    }
  }

  /** While the rotation settles: parked behind the gap, or an error. */
  lemma LateKeeps(s: State, bytes: nat, refusal: Option<AppendError>)
    requires Inv(s) && s.phase.Parked? && bytes > 0 && s.setback.Kept? && s.waiting
    requires refusal.None? ==> |s.parked| + bytes <= PendingCapBytes
    ensures Inv(Park(s, bytes, refusal))
  {
    var t := Park(s, bytes, refusal);
    var split := s.refusedFrom - s.flipped;
    assert t.parked[..split] == s.parked[..split];
    if !t.failed {
      RangeSplit(s.refusedTo, s.seen, t.seen);
      assert t.parked[split..] == s.parked[split..] + Range(s.seen, t.seen);
    }
  }

  lemma HoleKeeps(s: State, bytes: nat, refusal: Option<AppendError>)
    requires Inv(s) && s.phase.Parked? && bytes > 0 && s.setback.Dropped? && s.waiting
    requires refusal.None? ==> |s.parked| + bytes <= PendingCapBytes
    ensures Inv(Park(s, bytes, refusal))
  {
    RangeSplit(s.refusedTo, s.seen, s.seen + bytes);
  }

  lemma RestKeeps(s: State, bytes: nat)
    requires Inv(s) && Enabled(s, BatchRest(bytes))
    ensures Inv(Apply(s, BatchRest(bytes)))
  {
    var t := Apply(s, BatchRest(bytes));
    RangeSplit(s.refusedFrom, s.seen, t.seen);
    assert Range(t.seen, t.seen) == [] == Range(s.seen, s.seen);
  }

  lemma RestoreKeeps(s: State)
    requires Inv(s) && Enabled(s, Restore)
    ensures Inv(Apply(s, Restore))
  {
    var t := Apply(s, Restore);
    if s.phase.Flowing? {
      assert t.predecessor == s.predecessor;
    } else if !s.failed {
      match s.setback {
        case Nothing =>
          RangeSplit(0, s.flipped, s.seen);
          assert t.predecessor == s.predecessor + s.parked;
        case Kept => RestoreKept(s);
        case Dropped => assert t.predecessor == s.predecessor + s.parked;
      }
    }
  }

  lemma RestoreKept(s: State)
    requires Inv(s) && s.phase.Parked? && s.setback.Kept? && !s.failed
    ensures Inv(Apply(s, Restore))
  {
    var t := Apply(s, Restore);
    var split := s.refusedFrom - s.flipped;
    RangeSplit(0, s.flipped, s.refusedFrom);
    assert s.parked == s.parked[..split] + s.parked[split..];
    Regroup(s.predecessor, s.parked[..split], s.parked[split..]);
    assert s.predecessor + s.parked == Range(0, s.refusedFrom) + Range(s.refusedTo, s.seen);
    if s.late {
      assert t.predecessor + Range(s.seen, s.seen) == t.predecessor;
    } else {
      RangeSplit(0, s.refusedFrom, s.seen);
      assert s.predecessor + s.parked == Range(0, s.refusedFrom);
    }
  }

  // ---- Every run -------------------------------------------------------------------------------------------

  ghost predicate Run(trace: seq<State>, ops: seq<Op>) {
    && |trace| == |ops| + 1 && trace[0] == Start
    && forall i :: 0 <= i < |ops| ==> Enabled(trace[i], ops[i]) && trace[i + 1] == Apply(trace[i], ops[i])
  }

  lemma {:induction false} RunKeepsInv(trace: seq<State>, ops: seq<Op>, i: nat)
    requires Run(trace, ops) && i < |trace|
    ensures Inv(trace[i])
  {
    if i == 0 {
      assert Range(0, 0) == [];
    } else {
      RunKeepsInv(trace, ops, i - 1);
      hide Inv, Apply;
      assert trace[i] == Apply(trace[i - 1], ops[i - 1]);
      StepKeepsInv(trace[i - 1], ops[i - 1]);
    }
  }

  /** The buffer's first event is denied its memory, or the composite ends before the flip with output still in its
      decoded batch. */
  predicate Drops(s: State, op: Op) {
    || op.CutShort?
    || (op.Output? && s.phase.Parked? && s.setback.Nothing? && Refusal(|s.parked|, op.bytes, op.granted) == Some(NoMemory))
  }

  /** Something is parked while overflowed events are kept aside. */
  predicate Overtakes(s: State, op: Op) {
    op.Output? && s.phase.Parked? && s.setback.Kept? && Refusal(|s.parked|, op.bytes, op.granted).None?
  }

  /** The two guards are the only ways to lose or displace a byte. */
  lemma {:induction false} SetbacksHaveCauses(trace: seq<State>, ops: seq<Op>, i: nat)
    requires Run(trace, ops) && i < |trace|
    ensures trace[i].setback.Dropped? <==> exists k :: 0 <= k < i && Drops(trace[k], ops[k])
    ensures trace[i].late <==> exists k :: 0 <= k < i && Overtakes(trace[k], ops[k])
  {
    hide Apply, Enabled, Drops, Overtakes;
    if i > 0 {
      SetbacksHaveCauses(trace, ops, i - 1);
      StepCauses(trace[i - 1], ops[i - 1]);
    }
  }

  lemma StepCauses(s: State, op: Op)
    requires Enabled(s, op)
    ensures Apply(s, op).setback.Dropped? <==> s.setback.Dropped? || Drops(s, op)
    ensures Apply(s, op).late <==> s.late || Overtakes(s, op)
  {
    hide Range, WithinCaps, Refusal;
    match op {
      case Output(_, _) =>
      case CutShort(_) =>
      case _ => hide Observe;
    }
  }

  /** Parked output stays within its caps. If the rotation commits, the predecessor has every byte before the flip and
      the successor the bootstrap, then every byte since. If it aborts, the predecessor has every byte in order if and
      only if no step of the run dropped an event and none parked one past kept events. Without a drop every byte is
      there; with one, exactly the refused event and the rest of its batch are missing. */
  lemma NoByteLost(trace: seq<State>, ops: seq<Op>, i: nat)
    requires Run(trace, ops) && i < |trace|
    ensures var s := trace[i];
            && WithinCaps(|s.parked|) && s.flipped <= s.seen
            && (s.phase.Committed? ==>
                  s.predecessor == Range(0, s.flipped) && s.successor == [Bootstrap] + Range(s.flipped, s.seen))
            && (s.phase.Restored? ==>
                  (s.predecessor == Range(0, s.seen) <==>
                     forall k :: 0 <= k < i ==> !Drops(trace[k], ops[k]) && !Overtakes(trace[k], ops[k])))
            && (s.phase.Restored? && (forall k :: 0 <= k < i ==> !Drops(trace[k], ops[k])) ==>
                  multiset(s.predecessor) == multiset(Range(0, s.seen)))
            && (s.phase.Restored? && !(forall k :: 0 <= k < i ==> !Drops(trace[k], ops[k])) ==>
                  && s.refusedFrom < s.refusedTo <= s.seen
                  && s.predecessor == Range(0, s.refusedFrom) + Range(s.refusedTo, s.seen))
  {
    RunKeepsInv(trace, ops, i);
    SetbacksHaveCauses(trace, ops, i);
    var s := trace[i];
    CapsAgree(|s.parked|);
    hide Drops, Overtakes, WithinCaps;
    if s.phase.Restored? && s.late {
      DisplacedBytes(s);
    }
    if s.phase.Restored? && s.setback.Dropped? {
      assert |s.predecessor| < s.seen;
    }
  }

  lemma DisplacedBytes(s: State)
    requires Displaced(s)
    ensures s.predecessor != Range(0, s.seen) && multiset(s.predecessor) == multiset(Range(0, s.seen))
  {
    var g, h, m := s.refusedFrom, s.refusedTo, s.restoredAt;
    assert s.predecessor[g] == Byte(h) && Range(0, s.seen)[g] == Byte(g);
    RangeSplit(0, g, h);
    RangeSplit(0, h, m);
    RangeSplit(0, m, s.seen);
    assert multiset(Range(0, g) + Range(h, m) + Range(g, h) + Range(m, s.seen)) ==
           multiset(Range(0, g) + Range(g, h) + Range(h, m) + Range(m, s.seen));
  }

  /** The displacement happens: a megabyte less ten bytes is parked, twenty bytes are refused, and five more, read
      while the rotation settles, still fit and are replayed first. */
  lemma LateOutputOvertakes()
    ensures exists trace: seq<State>, ops: seq<Op> :: Run(trace, ops) && |ops| == 6 && trace[6].phase.Restored? &&
                                 trace[6].predecessor != Range(0, trace[6].seen)
  {
    var n := PendingCapBytes - 10;
    CapsAgree(n);
    CapsAgree(n + 20);
    CapsAgree(n + 5);
    hide CeilDiv;
    var s1 := Apply(Start, Flip);
    var s2 := Apply(s1, Output(n, true));
    var s3 := Apply(s2, Output(20, true));
    var s4 := Apply(s3, BeginWait);
    assert |s2.parked| == n && s3.setback.Kept? && s4.waiting;
    var s5 := Apply(s4, Output(5, true));
    var s6 := Apply(s5, Restore);
    var trace := [Start, s1, s2, s3, s4, s5, s6];
    var ops := [Flip, Output(n, true), Output(20, true), BeginWait, Output(5, true), Restore];
    assert Run(trace, ops);
    assert s6.predecessor[n] == Byte(n + 20);
    assert Range(0, s6.seen)[n] == Byte(n);
  }

  /** The loss happens: seven bytes follow the flip in the composite's last batch, with five more behind them, and the
      shared account has no megabyte to spare. The rotation aborts, the observer goes on, and the next three bytes
      follow the twelve that are gone. */
  lemma DeniedMemoryLoses()
    ensures exists trace: seq<State>, ops: seq<Op> :: Run(trace, ops) && |ops| == 6 && trace[6].phase.Restored? &&
                                 trace[6].predecessor == Range(0, 4) + Range(16, 19) && trace[6].seen == 19
  {
    CapsAgree(7);
    hide CeilDiv;
    var s1 := Apply(Start, Output(4, true));
    var s2 := Apply(s1, Flip);
    var s3 := Apply(s2, Output(7, false));
    var s4 := Apply(s3, BatchRest(5));
    var s5 := Apply(s4, Restore);
    var s6 := Apply(s5, Output(3, true));
    var trace := [Start, s1, s2, s3, s4, s5, s6];
    var ops := [Output(4, true), Flip, Output(7, false), BatchRest(5), Restore, Output(3, true)];
    assert s3.setback.Dropped? && s3.parked == [];
    assert s5.predecessor == Range(0, 4);
    assert Run(trace, ops);
  }

  // ---- The buffer and its replay ---------------------------------------------------------------------------

  /** unifiedRotationPending: its one buffer is charged whole before the first byte. */
  class RotationPending {
    var data: seq<Item>
    var charge: nat

    ghost predicate Valid()
      reads this
    {
      WithinCaps(|data|) && charge == if data == [] then 0 else PendingCapBytes
    }

    constructor ()
      ensures Valid() && data == [] && charge == 0
    {
      data, charge := [], 0;
      CapsAgree(0);
    }

    /** Append an output event whole, or refuse it whole; `memoryGrants` is what its owner's account answers. */
    method Append(payload: seq<Item>, memoryGrants: bool) returns (err: Option<AppendError>)
      requires Valid()
      modifies this
      ensures Valid()
      ensures data == if err.None? then old(data) + payload else old(data)
      ensures err == Refusal(|old(data)|, |payload|, memoryGrants)
    {
      hide WithinCaps;
      if |payload| == 0 {
        assert data + payload == data;
        return None;
      }
      if !WithinCaps(|data| + |payload|) {
        return Some(PendingOverflow);
      }
      if charge == 0 {
        if !memoryGrants {
          return Some(NoMemory);
        }
        charge := PendingCapBytes;
      }
      data := data + payload;
      err := None;
    }
  }

  function Joined(pieces: seq<seq<Item>>): seq<Item> {
    if pieces == [] then [] else Joined(pieces[..|pieces| - 1]) + pieces[|pieces| - 1]
  }

  lemma JoinedAppend(pieces: seq<seq<Item>>, piece: seq<Item>)
    ensures Joined(pieces + [piece]) == Joined(pieces) + piece
  {
    assert (pieces + [piece])[..|pieces|] == pieces;
  }

  /** writePending: the buffer in order, in pieces of at most 64 KiB and never more than the cap allows, until the pane
      refuses one; `accepts` is how many it takes. */
  method WritePending(pending: seq<Item>, accepts: nat) returns (pieces: seq<seq<Item>>, ok: bool)
    requires WithinCaps(|pending|)
    ensures ok <==> CeilDiv(|pending|, ReplayBatchBytes) <= accepts
    ensures |pieces| == Min(CeilDiv(|pending|, ReplayBatchBytes), accepts) <= PendingCapRecords
    ensures forall i :: 0 <= i < |pieces| ==> 0 < |pieces[i]| <= ReplayBatchBytes
    ensures Joined(pieces) <= pending && (ok ==> Joined(pieces) == pending)
  {
    var rest := pending;
    pieces := [];
    CapsAgree(|pending|);
    while |rest| != 0
      invariant |rest| <= |pending| && Joined(pieces) + rest == pending && |pieces| <= accepts
      invariant forall i :: 0 <= i < |pieces| ==> 0 < |pieces[i]| <= ReplayBatchBytes
      invariant |pieces| + CeilDiv(|rest|, ReplayBatchBytes) == CeilDiv(|pending|, ReplayBatchBytes)
    {
      var count := Min(|rest|, ReplayBatchBytes);
      CeilStep(|rest|, ReplayBatchBytes);
      CeilStep(|rest| - count, ReplayBatchBytes);
      if |pieces| == accepts {
        return pieces, false;
      }
      JoinedAppend(pieces, rest[..count]);
      assert rest == rest[..count] + rest[count..];
      Regroup(Joined(pieces), rest[..count], rest[count..]);
      pieces := pieces + [rest[..count]];
      rest := rest[count..];
    }
    CeilStep(0, ReplayBatchBytes);
    ok := true;
  }
}
