/** What the runtime's transitions get done, and what becomes of everything a run is given: accepted commands reach the
    manager in order, finished reservations are released, due generations retire. */
module RetentionProgress {
  import opened Basics
  import opened Credits
  import opened Journal
  import opened Retention
  import opened RetentionLedger
  import opened RetentionSteps
  import opened RetentionInvariant
  import opened RetentionRuns
  import opened RetentionReach

  // ---- What enters the queue, and in which order it leaves -----------------------------------------------------

  /** The commands whose order matters: ordinary ones and cleanups. */
  function Lasting(c: Command): seq<Command> {
    if c.Ordinary? || c.Cleanup? then [c] else []
  }

  function InOrder(queue: seq<Command>): seq<Command> {
    if queue == [] then [] else InOrder(queue[..|queue| - 1]) + Lasting(queue[|queue| - 1])
  }

  /** Bytes of rejected output a command reports. */
  function Reported(): Command -> int {
    (c: Command) => if c.Control? then c.bytes else 0
  }

  lemma InOrderAppend(queue: seq<Command>, c: Command)
    ensures InOrder(queue + [c]) == InOrder(queue) + Lasting(c)
  {
    assert (queue + [c])[..|queue|] == queue;
  }

  lemma {:induction false} InOrderFront(queue: seq<Command>)
    requires queue != []
    ensures InOrder(queue) == Lasting(queue[0]) + InOrder(queue[1..])
  {
    var last := |queue| - 1;
    if last > 0 {
      InOrderFront(queue[..last]);
      assert queue[1..][..last - 1] == queue[..last][1..];
    }
  }

  lemma {:induction false} ReportedFront(queue: seq<Command>)
    requires queue != []
    ensures Sum(queue, Reported()) == Reported()(queue[0]) + Sum(queue[1..], Reported())
  {
    var last := |queue| - 1;
    if last > 0 {
      ReportedFront(queue[..last]);
      assert queue[1..][..last - 1] == queue[..last][1..];
    }
  }

  /** What a step hands to the manager: an ordinary command submitted before close began, or a cleanup. */
  function Handed(s: State, op: Op): seq<Command> {
    match op
    case Submit(r) => if s.closing || s.closed then [] else [Ordinary(r)]
    case AppendCleanup(key) => [Cleanup(key)]
    case _ => []
  }

  /** Bytes of output a step rejects before close began. */
  function Rejected(s: State, op: Op): int {
    if op.RejectOutput? && !s.closing && !s.closed then op.bytes else 0
  }

  /** What a step leaves in the manager's hand. */
  function Arrived(op: Op, t: State): seq<Command> {
    if op.Pop? && t.current.Some? then [t.current.value] else []
  }

  /** Retiring and settling do not look at the queue. */
  lemma RetiringLeavesQueue(s: State, g: nat)
    requires g < |s.gens|
    ensures TryRetire(s, g).queue == s.queue && TryRetire(s, g).closed == s.closed
  {
    hide ChargeAccount, DropSource, Credit.Plus;
  }

  lemma SettlingLeavesQueue(s: State, r: nat, x: Reservation)
    requires r < |s.res| && s.res[r].generation < |s.gens| && x.generation == s.res[r].generation
    ensures var t := Settle(s, r, x);
            t.queue == s.queue && t.closed == s.closed && t.res == s.res[r := x] && |t.gens| == |s.gens|
  {
    hide ChargeAccount, ChargeOf, Remove, Credit.Plus, Credit.Minus;
  }

  lemma CompletingLeavesQueue(s: State, r: nat)
    requires r < |s.res| && s.res[r].generation < |s.gens|
    ensures var t := TryRetire(Complete(s, r), s.res[r].generation); t.queue == s.queue && t.closed == s.closed
  {
    hide Settle, TryRetire, ChargeOf, Credit.Plus;
    var x := s.res[r];
    SettlingLeavesQueue(s, r, x.(released := true, refunded := x.refunded.Plus(ChargeOf(x))));
    RetiringLeavesQueue(Complete(s, r), x.generation);
  }

  lemma ReservationsLeaveQueue(s: State, r: nat)
    requires r < |s.res| && s.res[r].generation < |s.gens|
    ensures Cancel(s, r).queue == s.queue && Cancel(s, r).closed == s.closed
    ensures ReleaseCommand(s, r).queue == s.queue && ReleaseCommand(s, r).closed == s.closed
    ensures CompletePart(s, r).queue == s.queue && CompletePart(s, r).closed == s.closed
  {
    hide Settle, TryRetire, Complete, ChargeOf, Credit.Plus;
    var x := s.res[r];
    var cancelled := x.(released := true, stage := Cancelled, refunded := x.refunded.Plus(ChargeOf(x)));
    SettlingLeavesQueue(s, r, cancelled);
    RetiringLeavesQueue(Settle(s, r, cancelled), x.generation);
    var done := x.(q := 0, stage := Done, refunded := x.refunded.Plus(Credit(x.q, 0, 0, 0, 0)));
    if x.released {
      CompletingLeavesQueue(Overdraw(s, r, done), r);
    } else {
      SettlingLeavesQueue(s, r, done);
      CompletingLeavesQueue(Settle(s, r, done), r);
    }
    var settled := x.(doneParts := x.doneParts + 1, settled := x.settled + 1);
    SettlingLeavesQueue(s, r, settled);
    CompletingLeavesQueue(Settle(s, r, settled), r);
  }

  lemma RejectLeavesQueue(s: State, r: nat)
    requires r < |s.res| && s.res[r].generation < |s.gens|
    ensures Reject(s, r).queue == s.queue && Reject(s, r).closed == s.closed
  {
    hide Cancel;
    var g := s.res[r].generation;
    ReservationsLeaveQueue(s.(gens := s.gens[g := s.gens[g].(admitted := false, retireRequested := true)]), r);
  }

  lemma ReservationStepLeavesQueue(s: State, op: Op)
    requires WellFormed(s) && Enabled(s, op)
    requires op.GiveBack? || op.Finish? || op.Dispatch? || op.RejectReservation? || (op.Submit? && s.closing)
    ensures Apply(s, op).queue == s.queue && !Apply(s, op).closed
  {
    hide Cancel, ReleaseCommand, CompletePart, Reject;
    match op {
      case GiveBack(r) => ReservationsLeaveQueue(s, r);
      case Submit(r) => ReservationsLeaveQueue(s, r);
      case RejectReservation(r) => RejectLeavesQueue(s, r);
      case Finish =>
        if s.current.value.Ordinary? {
          ReservationsLeaveQueue(s.(current := None), s.current.value.reservation);
        }
      case Dispatch => ReservationsLeaveQueue(s.(outbox := s.outbox[1..]), s.outbox[0].reservation);
    }
  }

  lemma GenerationsLeaveQueue(s: State, op: Op)
    requires WellFormed(s) && Enabled(s, op)
    requires op.Ensure? || op.ReleaseUnadmitted? || op.Fault? || op.CheckedFault? || op.SpendCleanup? ||
             op.RequestRetire? || op.MarkDurable? || op.DurableSettled? || op.SettleAbort? || op.MarkAdmitted? ||
             op.RestoreUnadmitted? || op.BindSource? || op.InheritSource?
    ensures Apply(s, op).queue == s.queue && !Apply(s, op).closed
  {
    hide ChargeAccount, DropSource, Credit.Plus, Credit.Minus, FaultSite, WellFormed;
  }

  /** The queue after each kind of step. */
  lemma QueueAfter(s: State, op: Op)
    requires WellFormed(s) && Enabled(s, op)
    ensures var t := Apply(s, op);
            var n := |s.queue|;
            match op
            case Submit(r) => !t.closed && t.queue == if s.closing then s.queue else s.queue + [Ordinary(r)]
            case AppendCleanup(key) => !t.closed && t.queue == s.queue + [Cleanup(key)]
            case RejectOutput(bytes) =>
              !t.closed && t.queue == if s.closing then s.queue
                         else if n > 0 && s.queue[n - 1].Control?
                         then s.queue[n - 1 := Control(s.queue[n - 1].bytes + bytes, s.queue[n - 1].fenced)]
                         else s.queue + [Control(bytes, false)]
            case Fence =>
              !t.closed && t.queue == if s.closing then s.queue
                         else if n > 0 && s.queue[n - 1].Control?
                         then s.queue[n - 1 := Control(s.queue[n - 1].bytes, true)]
                         else s.queue + [Control(0, true)]
            case Close => !t.closed && t.queue == if s.closing then s.queue else s.queue + [CloseMarker]
            case FinishClose => t.queue == (if n > 0 then s.queue + [CloseMarker] else s.queue) && (t.closed ==> n == 0)
            case Pop => n > 0 && t.queue == s.queue[1..] && t.current == Some(s.queue[0]) && !t.closed
            case _ => t.queue == s.queue && !t.closed
  {
    hide Cancel, ReleaseCommand, CompletePart, Reject, Reserve, DispatchPart, FaultSite;
    match op {
      case GiveBack(_) => ReservationStepLeavesQueue(s, op);
      case Submit(_) => if s.closing { ReservationStepLeavesQueue(s, op); }
      case RejectReservation(_) => ReservationStepLeavesQueue(s, op);
      case Finish => ReservationStepLeavesQueue(s, op);
      case Dispatch => ReservationStepLeavesQueue(s, op);
      case Take(key, bytes, admitted, existing) => TakingLeavesQueue(s, key, bytes, admitted, existing);
      case DeclareParts(_, _) =>
      case Publish(_, _) =>
      case AppendCleanup(_) =>
      case RejectOutput(_) =>
      case Fence =>
      case Close =>
      case FinishClose =>
      case Pop =>
      case _ => GenerationsLeaveQueue(s, op);
    }
  }

  lemma TakingLeavesQueue(s: State, key: PaneKey, bytes: nat, requireAdmitted: bool, requireExisting: bool)
    requires s.options.maxBatch > 0 && (key in s.table ==> s.table[key] < |s.gens|)
    ensures var t := Reserve(s, key, bytes, requireAdmitted, requireExisting).0; t.queue == s.queue && t.closed == s.closed
  {
    hide EnvelopeNeed, Shortage, ChargeAccount, Credit.Plus;
  }

  /** What replacing the run at the back, or adding a command behind it, does to the order and to the reports. */
  lemma BackOfQueue(queue: seq<Command>, c: Command)
    ensures InOrder(queue + [c]) == InOrder(queue) + Lasting(c)
    ensures Sum(queue + [c], Reported()) == Sum(queue, Reported()) + Reported()(c)
    ensures queue != [] && queue[|queue| - 1].Control? && c.Control? ==>
              && InOrder(queue[|queue| - 1 := c]) == InOrder(queue)
              && Sum(queue[|queue| - 1 := c], Reported()) == Sum(queue, Reported()) - queue[|queue| - 1].bytes + c.bytes
  {
    InOrderAppend(queue, c);
    SumAppend(queue, c, Reported());
    if queue != [] {
      assert queue[|queue| - 1 := c][..|queue| - 1] == queue[..|queue| - 1];
    }
  }

  /** A pop moves the front of the queue into the hand. Every other step leaves what waits in its order, with what it
      hands over behind it. */
  lemma StepQueues(s: State, op: Op)
    requires WellFormed(s) && Enabled(s, op)
    ensures var t := Apply(s, op);
            && InOrder(s.queue) + Handed(s, op) == InOrder(Arrived(op, t)) + InOrder(t.queue)
            && Sum(s.queue, Reported()) + Rejected(s, op) == Sum(Arrived(op, t), Reported()) + Sum(t.queue, Reported())
            && (t.closed ==> t.queue == [])
  {
    hide InOrder, Sum, WellFormed, Enabled, Apply;
    QueueAfter(s, op);
    StepOpen(s, op);
    NothingInOrder();
    var t := Apply(s, op);
    match op {
      case Submit(r) => BackOfQueue(s.queue, Ordinary(r));
      case AppendCleanup(key) => BackOfQueue(s.queue, Cleanup(key));
      case RejectOutput(bytes) =>
        BackOfQueue(s.queue, if t.queue != [] then t.queue[|t.queue| - 1] else CloseMarker);
      case Fence => BackOfQueue(s.queue, if t.queue != [] then t.queue[|t.queue| - 1] else CloseMarker);
      case Close => BackOfQueue(s.queue, CloseMarker);
      case FinishClose => BackOfQueue(s.queue, CloseMarker);
      case Pop =>
        InOrderFront(s.queue);
        ReportedFront(s.queue);
        BackOfQueue([], s.queue[0]);
        assert [] + [s.queue[0]] == [s.queue[0]];
      case _ =>
    }
  }

  lemma NothingInOrder()
    ensures InOrder([]) == [] && Sum([], Reported()) == 0
  {
  }

  lemma StepOpen(s: State, op: Op)
    requires Enabled(s, op)
    ensures !s.closed
  {
  }

  /** Everything the first `i` steps handed to the manager, in order. */
  function HandedOver(trace: seq<State>, ops: seq<Op>, i: nat): seq<Command>
    requires i <= |ops| <= |trace|
  {
    if i == 0 then [] else HandedOver(trace, ops, i - 1) + Handed(trace[i - 1], ops[i - 1])
  }

  function RejectedBytes(trace: seq<State>, ops: seq<Op>, i: nat): int
    requires i <= |ops| <= |trace|
  {
    if i == 0 then 0 else RejectedBytes(trace, ops, i - 1) + Rejected(trace[i - 1], ops[i - 1])
  }

  /** Everything that came into the manager's hand in the first `i` steps, in order. */
  function TakenUp(trace: seq<State>, ops: seq<Op>, i: nat): seq<Command>
    requires i <= |ops| < |trace|
  {
    if i == 0 then [] else TakenUp(trace, ops, i - 1) + Arrived(ops[i - 1], trace[i])
  }

  /** In every run the manager takes up every ordinary command submitted before close and every cleanup, each once and
      in the order they were accepted; what it has not taken up yet is in the queue, and when close completes that is
      nothing. The bytes of rejected output it reports are the bytes rejected. */
  lemma {:induction false} AcceptedInOrder(options: Options, trace: seq<State>, ops: seq<Op>, i: nat)
    requires options.Valid() && Run(options, trace, ops) && i <= |ops|
    ensures HandedOver(trace, ops, i) == InOrder(TakenUp(trace, ops, i)) + InOrder(trace[i].queue)
    ensures RejectedBytes(trace, ops, i) == Sum(TakenUp(trace, ops, i), Reported()) + Sum(trace[i].queue, Reported())
    ensures trace[i].closed ==> trace[i].queue == []
  {
    hide InOrder, Sum, Books, WellFormed, Apply, Handed, Rejected, Arrived;
    NothingInOrder();
    if i > 0 {
      AcceptedInOrder(options, trace, ops, i - 1);
      RunKeepsBooks(options, trace, ops);
      var s := trace[i - 1];
      assert Stepped(s, ops[i - 1], trace[i]);
      StepOpen(s, ops[i - 1]);
      assert Books(s);
      InvWellFormed(s);
      StepQueues(s, ops[i - 1]);
      var t := trace[i];
      var taken := TakenUp(trace, ops, i - 1);
      InOrderConcat(taken, Arrived(ops[i - 1], t));
      SumConcat(taken, Arrived(ops[i - 1], t), Reported());
      assert TakenUp(trace, ops, i) == taken + Arrived(ops[i - 1], t);
      Moved(InOrder(taken), InOrder(s.queue), Handed(s, ops[i - 1]), InOrder(Arrived(ops[i - 1], t)), InOrder(t.queue));
    }
  }

  lemma Moved(taken: seq<Command>, queue: seq<Command>, handed: seq<Command>, arrived: seq<Command>, waiting: seq<Command>)
    requires queue + handed == arrived + waiting
    ensures (taken + queue) + handed == (taken + arrived) + waiting
  {
    assert (taken + queue) + handed == taken + (queue + handed);
    assert taken + (arrived + waiting) == (taken + arrived) + waiting;
  }

  lemma {:induction false} InOrderConcat(a: seq<Command>, b: seq<Command>)
    ensures InOrder(a + b) == InOrder(a) + InOrder(b)
  {
    if b == [] {
      assert a + b == a;
    } else {
      assert (a + b)[..|a + b| - 1] == a + b[..|b| - 1];
      InOrderConcat(a, b[..|b| - 1]);
    }
  }

  lemma {:induction false} SumConcat<T>(a: seq<T>, b: seq<T>, f: T -> int)
    ensures Sum(a + b, f) == Sum(a, f) + Sum(b, f)
  {
    if b == [] {
      assert a + b == a;
    } else {
      assert (a + b)[..|a + b| - 1] == a + b[..|b| - 1];
      SumConcat(a, b[..|b| - 1], f);
    }
  }

  // ---- What one call gets done -----------------------------------------------------------------------------------

  /** Nothing keeps the generation any more. */
  predicate Due(gen: Generation) {
    gen.retireRequested && gen.refs == 0 && !gen.durableRequested && (gen.failed ==> gen.cleanupSpent)
  }

  predicate SameFlags(a: Generation, b: Generation) {
    && a.key == b.key && a.admitted == b.admitted && a.failed == b.failed && a.cleanupSpent == b.cleanupSpent
    && a.retireRequested == b.retireRequested && a.durableRequested == b.durableRequested && a.abandoned == b.abandoned
  }

  /** Every generation but `g` is as it was. */
  ghost predicate Others(s: State, t: State, g: nat) {
    && |t.gens| == |s.gens| && t.options == s.options
    && forall h :: 0 <= h < |s.gens| && h != g ==> t.gens[h] == s.gens[h]
  }

  /** A live generation retires when, and only when, it is due: its two commands and its slot come back and its key
      is free. */
  lemma RetiresWhenDue(s: State, g: nat)
    requires Accounting(s) && g < |s.gens| && s.gens[g].live
    ensures var t := TryRetire(s, g);
            && Others(s, t, g) && t.res == s.res && t.gens[g].refs == s.gens[g].refs
            && SameFlags(t.gens[g], s.gens[g])
            && (t.gens[g].live <==> !Due(s.gens[g]))
            && (if Due(s.gens[g]) then
                  && t.table == s.table - {s.gens[g].key} && t.gens[g].source.None?
                  && forall d :: t.used.Get(d) == s.used.Get(d) - LifetimeShare(d)
                else t == s)
  {
    hide Sum, PendingOf, Reservations, Accounts, DropSource, ChargeAccount;
    if s.gens[g].refs == 0 {
      assert s.gens[g].pending == [];
      QuiescentUsage(s, g);
      assert s.gens[g].usage.Get(Commands) == 2;
    }
  }

  /** Reservation `r` has become `y`: its generation's list and every counter moved by exactly what it gave up. */
  ghost predicate Settled(s: State, t: State, r: nat, y: Reservation)
    requires r < |s.res| && s.res[r].generation < |s.gens|
  {
    var g := s.res[r].generation;
    && t.res == s.res[r := y] && Others(s, t, g) && t.table == s.table
    && SameFlags(t.gens[g], s.gens[g]) && t.gens[g].live == s.gens[g].live
    && t.gens[g].refs == s.gens[g].refs - (if y.released && !s.res[r].released then 1 else 0)
    && forall d :: t.used.Get(d) == s.used.Get(d) + ChargeOf(y).Get(d) - ChargeOf(s.res[r]).Get(d)
  }

  /** And then its generation retired if it was due. */
  ghost predicate SettledAndRetired(s: State, t: State, r: nat, y: Reservation)
    requires r < |s.res| && s.res[r].generation < |s.gens|
  {
    var g := s.res[r].generation;
    var refs := s.gens[g].refs - (if y.released && !s.res[r].released then 1 else 0);
    && t.res == s.res[r := y] && Others(s, t, g) && SameFlags(t.gens[g], s.gens[g]) && t.gens[g].refs == refs
    && (t.gens[g].live <==> !Due(s.gens[g].(refs := refs)))
    && forall d :: t.used.Get(d) == s.used.Get(d) + ChargeOf(y).Get(d) - ChargeOf(s.res[r]).Get(d) -
                                    if t.gens[g].live then 0 else LifetimeShare(d)
  }

  lemma SettleMoves(s: State, r: nat, y: Reservation)
    requires r < |s.res| && s.res[r].generation < |s.gens| && y.generation == s.res[r].generation
    ensures Settled(s, Settle(s, r, y), r, y)
  {
    hide Remove, ChargeAccount;
    SettleFrame(s, r, y);
  }

  lemma SettledTwice(s: State, t: State, u: State, r: nat, y: Reservation, z: Reservation)
    requires r < |s.res| && s.res[r].generation < |s.gens| && y.generation == s.res[r].generation
    requires Settled(s, t, r, y) && Settled(t, u, r, z) && y.released == s.res[r].released
    ensures Settled(s, u, r, z)
  {
    hide ChargeOf;
    assert s.res[r := y][r := z] == s.res[r := z];
  }

  lemma ThenRetires(s: State, t: State, r: nat, y: Reservation)
    requires r < |s.res| && s.res[r].generation < |s.gens| && s.gens[s.res[r].generation].live
    requires Settled(s, t, r, y) && Accounting(t)
    ensures SettledAndRetired(s, TryRetire(t, s.res[r].generation), r, y)
  {
    hide Accounting, ChargeOf, TryRetire;
    RetiresWhenDue(t, s.res[r].generation);
  }

  /** A finished part or command refunds what is left of the reservation exactly when it completes it. */
  function Completed(y: Reservation): Reservation {
    if !y.released && y.q == 0 && y.doneParts >= y.parts
    then y.(released := true, refunded := y.refunded.Plus(ChargeOf(y))) else y
  }

  lemma CompleteSettles(s: State, t: State, r: nat, y: Reservation)
    requires r < |s.res| && s.res[r].generation < |s.gens| && s.gens[s.res[r].generation].live
    requires y.generation == s.res[r].generation && y.stage.Started() && !y.released && !s.res[r].released
    requires Settled(s, t, r, y) && Accounting(t)
    ensures SettledAndRetired(s, TryRetire(Complete(t, r), y.generation), r, Completed(y))
  {
    hide Accounting, ChargeOf, TryRetire, Settle, Credit.Plus;
    CompleteKeepsAccounting(t, r);
    if Completed(y) != y {
      SettleMoves(t, r, Completed(y));
      SettledTwice(s, t, Complete(t, r), r, y, Completed(y));
    }
    ThenRetires(s, Complete(t, r), r, Completed(y));
  }

  /** Giving a reservation back releases it, refunds all it held, and nothing else moves but its own generation. */
  lemma CancelGivesBack(s: State, r: nat)
    requires Accounting(s) && IsHeld(s, r)
    ensures var t := Cancel(s, r);
            r < |t.res| && t.res[r].released && t.res[r].stage.Cancelled? && SettledAndRetired(s, t, r, t.res[r])
  {
    hide Ledger, Table, PendingLists, Lifecycle;
    ReservationHolds(s, r);
    hide Reservations, TryRetire, Settle;
    var x := s.res[r];
    var y := x.(released := true, stage := Cancelled, refunded := x.refunded.Plus(ChargeOf(x)));
    SettleMoves(s, r, y);
    SettleKeepsAccounting(s, r, y);
    ThenRetires(s, Settle(s, r, y), r, y);
  }

  /** Before close a submitted command is the newest in the queue and still holds its credit, and nothing else has
      moved; after, its reservation is given back whole. */
  lemma SubmitQueues(s: State, r: nat)
    requires Accounting(s) && IsHeld(s, r) && !s.closed
    ensures var t := SubmitOrdinary(s, r);
            && r < |t.res| && |t.res| == |s.res| && forall k :: 0 <= k < |s.res| && k != r ==> t.res[k] == s.res[k]
    ensures var t := SubmitOrdinary(s, r);
            if s.closing then
              t.queue == s.queue && t.res[r].released && t.res[r].stage.Cancelled? && SettledAndRetired(s, t, r, t.res[r])
            else
              && t.queue == s.queue + [Ordinary(r)] && t.res[r] == s.res[r].(stage := Queued)
              && t == s.(queue := t.queue, res := t.res)
  {
    hide Accounting, Cancel, SettledAndRetired;
    if s.closing {
      CancelGivesBack(s, r);
      ReservationsLeaveQueue(s, r);
      assert Cancel(s, r).res == s.res[r := Cancel(s, r).res[r]] by {
        GivenBackAlone(s, Cancel(s, r), r, Cancel(s, r).res[r]);
      }
    }
  }

  lemma GivenBackAlone(s: State, t: State, r: nat, y: Reservation)
    requires r < |s.res| && s.res[r].generation < |s.gens| && SettledAndRetired(s, t, r, y)
    ensures t.res == s.res[r := y]
  {
  }

  /** The manager's last act on a command: its credit goes back, and if every part is done already so does the rest. */
  lemma FinishReleases(s: State, r: nat)
    requires Accounting(s) && r < |s.res| && s.res[r].stage.Processing?
    ensures s.res[r].generation < |s.gens|
    ensures var x := s.res[r];
            var t := ReleaseCommand(s, r);
            && r < |t.res| && t.res[r].stage.Done? && t.res[r].q == 0 && t.res[r].settled == x.settled && t.res[r].parts == x.parts
            && (t.res[r].released <==> x.doneParts >= x.parts) && SettledAndRetired(s, t, r, t.res[r])
  {
    hide Ledger, Table, PendingLists, Lifecycle;
    ReservationHolds(s, r);
    hide Reservations, TryRetire, Settle, Complete;
    var x := s.res[r];
    var y := x.(q := 0, stage := Done, refunded := x.refunded.Plus(Credit(x.q, 0, 0, 0, 0)));
    SettleMoves(s, r, y);
    SettleKeepsAccounting(s, r, y);
    CompleteSettles(s, Settle(s, r, y), r, y);
    hide SettledAndRetired;
    GivenBackAlone(s, ReleaseCommand(s, r), r, Completed(y));
  }

  /** The dispatcher settles one part; the last one needed gives the payload's credit back. */
  lemma DispatchSettles(s: State)
    requires Accounting(s) && s.outbox != [] && IsStarted(s, s.outbox[0].reservation)
    ensures var r := s.outbox[0].reservation;
            var x := s.res[r];
            var t := DispatchPart(s);
            && t.outbox == s.outbox[1..] && r < |t.res| && t.res[r].settled == x.settled + 1 && t.res[r].stage == x.stage
            && t.res[r].parts == x.parts
            && (if x.released then t == s.(outbox := t.outbox, res := s.res[r := x.(settled := x.settled + 1)])
                else && (t.res[r].released <==> x.stage.Done? && x.doneParts + 1 >= x.parts)
                     && SettledAndRetired(s, t, r, t.res[r]))
  {
    hide Accounting, CompletePart, SettledAndRetired;
    var r := s.outbox[0].reservation;
    var s0 := s.(outbox := s.outbox[1..]);
    SameTables(s, s0);
    if s.res[r].released {
      PartOfReleased(s0, r);
    } else {
      PartSettles(s0, r);
    }
    SameSettled(s, s0, CompletePart(s0, r), r);
  }

  lemma SameSettled(s: State, s0: State, t: State, r: nat)
    requires r < |s.res| && s.res[r].generation < |s.gens| && r < |t.res|
    requires s0 == s.(outbox := s0.outbox)
    ensures SettledAndRetired(s0, t, r, t.res[r]) ==> SettledAndRetired(s, t, r, t.res[r])
  {
  }

  lemma PartOfReleased(s: State, r: nat)
    requires IsStarted(s, r) && s.res[r].released
    ensures CompletePart(s, r) == s.(res := s.res[r := s.res[r].(settled := s.res[r].settled + 1)])
  {
  }

  lemma SameHoldings(s: State, x: Reservation, y: Reservation)
    requires ReservationOk(s, x) && !x.released && y == x.(doneParts := x.doneParts + 1, settled := x.settled + 1)
    ensures ReservationOk(s, y) && (x.stage.Started() ==> (y.q == 0 <==> x.stage.Done?))
  {
  }

  lemma PartIs(s: State, r: nat, y: Reservation)
    requires r < |s.res| && s.res[r].generation < |s.gens| && !s.res[r].released
    requires y == s.res[r].(doneParts := s.res[r].doneParts + 1, settled := s.res[r].settled + 1)
    ensures CompletePart(s, r) == TryRetire(Complete(Settle(s, r, y), r), y.generation)
  {
    hide TryRetire, Complete, Settle;
  }

  lemma PartSettles(s: State, r: nat)
    requires Accounting(s) && IsStarted(s, r) && !s.res[r].released
    ensures var x := s.res[r];
            var t := CompletePart(s, r);
            && t.outbox == s.outbox && r < |t.res| && t.res[r].settled == x.settled + 1 && t.res[r].stage == x.stage
            && t.res[r].parts == x.parts && (t.res[r].released <==> x.stage.Done? && x.doneParts + 1 >= x.parts)
            && SettledAndRetired(s, t, r, t.res[r])
  {
    hide Ledger, Table, PendingLists, Lifecycle;
    var x := s.res[r];
    ReservationHolds(s, r);
    hide Reservations, TryRetire, Settle, Complete, SettledAndRetired, Settled, ChargeOf, Credit.Plus;
    var y := x.(doneParts := x.doneParts + 1, settled := x.settled + 1);
    SameHoldings(s, x, y);
    PartIs(s, r, y);
    hide ReservationOk, CompletePart;
    SettleMoves(s, r, y);
    SettleKeepsAccounting(s, r, y);
    CompleteSettles(s, Settle(s, r, y), r, y);
    OutboxKept(s, r, y);
    GivenBackAlone(s, CompletePart(s, r), r, Completed(y));
  }

  lemma OutboxKept(s: State, r: nat, y: Reservation)
    requires r < |s.res| && s.res[r].generation < |s.gens| && y.generation == s.res[r].generation
    ensures TryRetire(Complete(Settle(s, r, y), r), y.generation).outbox == s.outbox
  {
    hide ChargeAccount, ChargeOf, Remove, DropSource, Credit.Plus, Credit.Minus;
  }

  // ---- Nothing lingers -------------------------------------------------------------------------------------------

  /** A reservation is over when it was given back, or its command is done and its declared parts have settled. */
  predicate Over(r: Reservation) {
    r.stage.Cancelled? || (r.stage.Done? && r.settled >= r.parts)
  }

  ghost predicate Prompt(s: State) {
    && (forall r :: 0 <= r < |s.res| ==> (s.res[r].released <==> Over(s.res[r])))
    && (forall g :: 0 <= g < |s.gens| ==> !(s.gens[g].live && Due(s.gens[g])))
  }

  /** Changing one reservation to one that is as it should be, with its generation retired if due, keeps all prompt. */
  lemma RetiredPrompt(s: State, t: State, r: nat, y: Reservation)
    requires Prompt(s) && r < |s.res| && s.res[r].generation < |s.gens| && SettledAndRetired(s, t, r, y)
    requires y.released <==> Over(y)
    ensures Prompt(t)
  {
    hide ChargeOf;
  }

  /** So does a change of one generation's flags that is followed by its retirement if due. */
  lemma FlaggedPrompt(s: State, g: nat, x: Generation)
    requires g < |s.gens| && Prompt(s) && Accounting(s.(gens := s.gens[g := x])) && x.live
    ensures Prompt(TryRetire(s.(gens := s.gens[g := x]), g))
  {
    hide TryRetire, Accounting;
    RetiresWhenDue(s.(gens := s.gens[g := x]), g);
  }

  lemma ReservationStepPrompt(s: State, op: Op)
    requires Books(s) && Prompt(s) && WellFormed(s) && Enabled(s, op)
    requires op.GiveBack? || op.Submit? || op.Finish? || op.Dispatch?
    ensures Prompt(Apply(s, op))
  {
    hide Accounting, Limits, SettledAndRetired, Prompt, SubmitOrdinary, Cancel, DispatchPart, ReleaseCommand, CompletePart;
    match op {
      case GiveBack(r) =>
        CancelGivesBack(s, r);
        RetiredPrompt(s, Cancel(s, r), r, Cancel(s, r).res[r]);
      case Submit(r) =>
        SubmitQueues(s, r);
        SubmittedPrompt(s, r);
      case Finish =>
        var s0 := s.(current := None);
        SameTables(s, s0);
        SamePrompt(s, s0);
        if s.current.value.Ordinary? {
          var r := s.current.value.reservation;
          InvCurrent(s, r);
          FinishReleases(s0, r);
          DoneOver(s0, r);
          RetiredPrompt(s0, ReleaseCommand(s0, r), r, ReleaseCommand(s0, r).res[r]);
        }
      case Dispatch => DispatchPrompt(s);
    }
  }

  lemma SamePrompt(s: State, t: State)
    requires Prompt(s) && t.gens == s.gens && t.res == s.res
    ensures Prompt(t)
  {
  }

  lemma SubmittedPrompt(s: State, r: nat)
    requires Books(s) && !s.closed && Prompt(s) && IsHeld(s, r)
    ensures Prompt(SubmitOrdinary(s, r))
  {
    hide Ledger, Reservations, Table, PendingLists, Lifecycle, Work, Limits, SettledAndRetired, Cancel;
    SubmitQueues(s, r);
    if s.closing {
      CancelGivesBack(s, r);
      RetiredPrompt(s, Cancel(s, r), r, Cancel(s, r).res[r]);
    }
  }

  lemma DoneOver(s: State, r: nat)
    requires Accounting(s) && r < |s.res| && s.res[r].stage.Processing?
    requires r < |ReleaseCommand(s, r).res|
    ensures var y := ReleaseCommand(s, r).res[r]; y.released <==> Over(y)
  {
    hide Ledger, Table, PendingLists, Lifecycle;
    FinishReleases(s, r);
    ReservationHolds(s, r);
    hide Reservations, SettledAndRetired;
  }

  /** What the accounting says of one reservation. */
  lemma InHand(s: State, r: nat)
    requires Accounting(s) && r < |s.res|
    ensures ReservationOk(s, s.res[r])
  {
    hide Ledger, Table, PendingLists, Lifecycle;
    ReservationHolds(s, r);
  }

  lemma DispatchPrompt(s: State)
    requires Books(s) && !s.closed && Prompt(s) && s.outbox != [] && WellFormed(s)
    ensures Prompt(DispatchPart(s))
  {
    hide Accounting, Limits, SettledAndRetired, DispatchPart;
    InvOldest(s);
    hide Work;
    var r := s.outbox[0].reservation;
    InHand(s, r);
    DispatchSettles(s);
    if !s.res[r].released {
      RetiredPrompt(s, DispatchPart(s), r, DispatchPart(s).res[r]);
    }
  }

  /** A step that leaves the reservations alone and makes no live generation due keeps all prompt. */
  lemma NothingDuePrompt(s: State, t: State)
    requires Prompt(s) && t.res == s.res
    requires forall g :: 0 <= g < |t.gens| && t.gens[g].live && Due(t.gens[g]) ==>
               g < |s.gens| && s.gens[g].live && Due(s.gens[g])
    ensures Prompt(t)
  {
  }

  lemma RetiringStepPrompt(s: State, op: Op)
    requires Books(s) && Prompt(s) && WellFormed(s) && Enabled(s, op)
    requires op.SpendCleanup? || op.RequestRetire? || op.SettleAbort? || op.RestoreUnadmitted?
    ensures Prompt(Apply(s, op))
  {
    TableKeys(s);
    hide Work, Limits, TryRetire, Prompt;
    match op {
      case SpendCleanup =>
        var key := s.current.value.key;
        var s0 := s.(current := None);
        SamePrompt(s, s0);
        if key in s.table {
          SpentKeepsAccounting(s, s.table[key]);
          FlaggedPrompt(s0, s.table[key], s.gens[s.table[key]].(cleanupSpent := true, retireRequested := true));
        }
      case RequestRetire(key) =>
        if key in s.table {
          ChangePrompt(s, s.table[key], s.gens[s.table[key]].(retireRequested := true, admitted := false));
        }
      case RestoreUnadmitted(key) =>
        if key in s.table {
          ChangePrompt(s, s.table[key], s.gens[s.table[key]].(admitted := false));
        }
      case SettleAbort(oldKey, predecessor, newKey, successor, created) =>
        if newKey in s.table && s.table[newKey] == successor {
          ChangePrompt(s, successor, s.gens[successor].(abandoned := true, retireRequested := true));
        }
    }
  }

  lemma ChangePrompt(s: State, g: nat, x: Generation)
    requires Accounting(s) && Prompt(s) && g < |s.gens| && s.gens[g].live && FlagChange(s.gens[g], x) && x.live
    ensures Prompt(TryRetire(s.(gens := s.gens[g := x]), g))
  {
    FlagsKeepAccounting(s, g, x);
    FlaggedPrompt(s, g, x);
  }

  /** The generation a rejected reservation revokes still has that reservation. */
  lemma RevokedPrompt(s: State, r: nat)
    requires Accounting(s) && Prompt(s) && IsHeld(s, r)
    ensures var g := s.res[r].generation;
            var x := s.gens[g].(admitted := false, retireRequested := true);
            Prompt(s.(gens := s.gens[g := x])) && Accounting(s.(gens := s.gens[g := x]))
  {
    InHand(s, r);
    HeldIsPending(s, r);
    var g := s.res[r].generation;
    var x := s.gens[g].(admitted := false, retireRequested := true);
    FlagsKeepAccounting(s, g, x);
    hide Accounting, Prompt;
    NothingDuePrompt(s, s.(gens := s.gens[g := x]));
  }

  lemma RejectPrompt(s: State, r: nat)
    requires Books(s) && !s.closed && Prompt(s) && IsHeld(s, r)
    ensures Prompt(Reject(s, r))
  {
    hide Work, Limits, Accounting, Prompt, SettledAndRetired, Cancel;
    RevokedPrompt(s, r);
    var g := s.res[r].generation;
    var s0 := s.(gens := s.gens[g := s.gens[g].(admitted := false, retireRequested := true)]);
    CancelGivesBack(s0, r);
    RetiredPrompt(s0, Cancel(s0, r), r, Cancel(s0, r).res[r]);
  }

  /** An unreleased reservation keeps its generation referenced. */
  lemma HeldIsPending(s: State, r: nat)
    requires Accounting(s) && r < |s.res| && !s.res[r].released && s.res[r].generation < |s.gens|
    ensures s.gens[s.res[r].generation].refs > 0
  {
    hide Ledger, Reservations, Table, Lifecycle;
    PendingHas(s.res, s.res[r].generation, r);
  }

  lemma RemovalPrompt(s: State, key: PaneKey)
    requires Prompt(s) && (key in s.table ==> s.table[key] < |s.gens|)
    ensures Prompt(ReleaseGeneration(s, key)) && Prompt(SettleDurable(s, key))
  {
    hide ChargeAccount, DropSource, Credit.Plus, Prompt;
    NothingDuePrompt(s, ReleaseGeneration(s, key));
    NothingDuePrompt(s, SettleDurable(s, key));
  }

  lemma FaultPrompt(s: State, key: PaneKey)
    requires Prompt(s) && key in s.table && s.table[key] < |s.gens|
    ensures Prompt(CommitFault(s, key).0)
  {
    hide Prompt;
    NothingDuePrompt(s, CommitFault(s, key).0);
  }

  lemma BindingPrompt(s: State, g: nat, source: SourceKey, account: Credit)
    requires Prompt(s) && g < |s.gens|
    ensures Prompt(Attach(s, g, source, account))
  {
    hide Prompt, Credit.Plus;
    NothingDuePrompt(s, Attach(s, g, source, account));
  }

  lemma SourcePrompt(s: State, op: Op)
    requires Prompt(s) && WellFormed(s) && Enabled(s, op) && (op.BindSource? || op.InheritSource?)
    ensures Prompt(Apply(s, op))
  {
    hide Prompt, Attach, Credit.Plus, Options.FitsSource;
    if op.BindSource? {
      if op.key in s.table {
        BindingPrompt(s, s.table[op.key], op.source, if op.source in s.accounts then s.accounts[op.source] else Zero);
      }
    } else if op.oldKey in s.table && op.newKey in s.table {
      var source := s.gens[s.table[op.oldKey]].source;
      if source.Some? && source.value in s.accounts {
        BindingPrompt(s, s.table[op.newKey], source.value, s.accounts[source.value]);
      }
    }
  }

  lemma FlagPrompt(s: State, op: Op)
    requires Prompt(s) && WellFormed(s) && Enabled(s, op) && (op.Ensure? || op.MarkDurable? || op.MarkAdmitted?)
    ensures Prompt(Apply(s, op))
  {
    hide Prompt;
    NothingDuePrompt(s, Apply(s, op));
  }

  lemma GenerationStepPrompt(s: State, op: Op)
    requires Books(s) && Prompt(s) && WellFormed(s) && Enabled(s, op)
    requires op.Ensure? || op.ReleaseUnadmitted? || op.Fault? || op.CheckedFault? || op.MarkDurable? ||
             op.DurableSettled? || op.MarkAdmitted? || op.BindSource? || op.InheritSource?
    ensures Prompt(Apply(s, op))
  {
    if op.Fault? {
      FaultFindsGeneration(s, op.key);
    }
    hide Books, FaultSite, Prompt, ReleaseGeneration, SettleDurable, CommitFault, Bind, Inherit, EnsureGeneration, Admit;
    if op.BindSource? || op.InheritSource? {
      SourcePrompt(s, op);
    } else if op.ReleaseUnadmitted? || op.DurableSettled? {
      RemovalPrompt(s, op.key);
    } else if op.Fault? {
      FaultPrompt(s, op.key);
    } else if op.CheckedFault? {
      if op.key in s.table {
        FaultPrompt(s, op.key);
      }
    } else {
      FlagPrompt(s, op);
    }
  }

  lemma QueueStepPrompt(s: State, op: Op)
    requires Books(s) && Prompt(s) && WellFormed(s) && Enabled(s, op)
    requires op.DeclareParts? || op.RejectOutput? || op.Fence? || op.Close? || op.Pop? || op.Publish? ||
             op.FinishClose? || op.AppendCleanup?
    ensures Prompt(Apply(s, op))
  {
    hide Accounting, Limits;
    if op.DeclareParts? {
      InHand(s, op.r);
    }
  }

  lemma TakePrompt(s: State, key: PaneKey, bytes: nat, requireAdmitted: bool, requireExisting: bool)
    requires Books(s) && !s.closed && Prompt(s) && WellFormed(s)
    ensures Prompt(Reserve(s, key, bytes, requireAdmitted, requireExisting).0)
  {
    TableKeys(s);
    hide Books, ChargeAccount, EnvelopeNeed, Shortage, Credit.Plus;
  }

  lemma StepPrompt(s: State, op: Op)
    requires Books(s) && Prompt(s) && WellFormed(s) && Enabled(s, op)
    ensures Prompt(Apply(s, op))
  {
    StepOpen(s, op);
    if op.GiveBack? || op.Submit? || op.Finish? || op.Dispatch? {
      ReservationStepPrompt(s, op);
    } else if op.SpendCleanup? || op.RequestRetire? || op.SettleAbort? || op.RestoreUnadmitted? {
      RetiringStepPrompt(s, op);
    } else if op.RejectReservation? {
      RejectIsHeld(s, op.r);
      RejectPrompt(s, op.r);
    } else if op.Take? {
      TakePrompt(s, op.key, op.bytes, op.requireAdmitted, op.requireExisting);
    } else if op.DeclareParts? || op.RejectOutput? || op.Fence? || op.Close? || op.Pop? || op.Publish? ||
              op.FinishClose? || op.AppendCleanup? {
      QueueStepPrompt(s, op);
    } else {
      GenerationStepPrompt(s, op);
    }
  }

  lemma RejectIsHeld(s: State, r: nat)
    requires Enabled(s, RejectReservation(r))
    ensures IsHeld(s, r)
  {
  }

  /** In every run, before close completes, a reservation is released exactly when it was given back or its command is
      done and every part it declared has settled; and no generation that was asked to retire is still in the table
      once nothing refers to it, no unlink of its journal is awaited and its cleanup, if it failed, has run. */
  lemma {:induction false} NothingLingers(options: Options, trace: seq<State>, ops: seq<Op>, i: nat)
    requires options.Valid() && Run(options, trace, ops) && i < |trace|
    ensures var s := trace[i];
            && (forall r :: 0 <= r < |s.res| ==>
                  (s.res[r].released <==>
                     s.res[r].stage.Cancelled? || (s.res[r].stage.Done? && s.res[r].settled >= s.res[r].parts)))
            && (forall g :: 0 <= g < |s.gens| && s.gens[g].retireRequested && s.gens[g].refs == 0 &&
                            !s.gens[g].durableRequested && (s.gens[g].failed ==> s.gens[g].cleanupSpent) ==>
                  !s.gens[g].live)
  {
    EveryPrompt(options, trace, ops, i);
  }

  lemma {:induction false} EveryPrompt(options: Options, trace: seq<State>, ops: seq<Op>, i: nat)
    requires options.Valid() && Run(options, trace, ops) && i < |trace|
    ensures Prompt(trace[i])
  {
    hide Books, Enabled, Apply, Prompt, WellFormed;
    if i == 0 {
      InitialPrompt(options);
    } else {
      EveryPrompt(options, trace, ops, i - 1);
      RunKeepsBooks(options, trace, ops);
      var s := trace[i - 1];
      assert Stepped(s, ops[i - 1], trace[i]);
      StepOpen(s, ops[i - 1]);
      assert Books(s);
      InvWellFormed(s);
      StepPrompt(s, ops[i - 1]);
    }
  }

  lemma InitialPrompt(options: Options)
    ensures Prompt(Retention.Initial(options))
  {
  }
}
