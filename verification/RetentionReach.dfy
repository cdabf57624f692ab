/** What holds of every run of the retention runtime, from its constructor to the completion of close. */
module RetentionReach {
  import opened Basics
  import opened Credits
  import opened Journal
  import opened Retention
  import opened RetentionLedger
  import opened RetentionSteps
  import opened RetentionInvariant
  import opened RetentionRuns

  /** Any interleaving of enabled transitions. */
  ghost predicate Run(options: Options, trace: seq<State>, ops: seq<Op>) {
    && |trace| == |ops| + 1 && trace[0] == Retention.Initial(options)
    && forall i :: 0 <= i < |ops| ==> Stepped(trace[i], ops[i], trace[i + 1])
  }

  ghost predicate Stepped(s: State, op: Op, t: State) {
    Enabled(s, op) && (WellFormed(s) ==> t == Apply(s, op))
  }

  lemma {:induction false} RunKeepsBooks(options: Options, trace: seq<State>, ops: seq<Op>)
    requires options.Valid() && Run(options, trace, ops)
    ensures forall i :: 0 <= i < |trace| ==> Books(trace[i]) && trace[i].options == options
  {
    hide Books, Funded, Enabled, Apply;
    if ops == [] {
      InitialInv(options);
    } else {
      var n := |ops| - 1;
      RunKeepsBooks(options, trace[..n + 1], ops[..n]);
      var s := trace[n];
      assert s == trace[..n + 1][n];
      assert Stepped(s, ops[n], trace[n + 1]);
      EnabledOpen(s, ops[n]);
      InvWellFormed(s);
      StepKeepsBooks(s, ops[n]);
      TableKeys(s);
      StepKept(s, ops[n]);
      assert forall i :: 0 <= i <= n ==> trace[i] == trace[..n + 1][i];
    }
  }

  /** No step up to `i` rolled back a failed generation whose cleanup had not run. */
  ghost predicate NoneStranded(trace: seq<State>, ops: seq<Op>, i: nat)
    requires i <= |ops| <= |trace|
  {
    forall j :: 0 <= j < i ==> !Strands(trace[j], ops[j])
  }

  /** A generation gone before its cleanup: nothing will ever spend it. */
  ghost predicate Gone(s: State, g: nat) {
    g < |s.gens| && !s.gens[g].live && s.gens[g].failed && !s.gens[g].cleanupSpent
  }

  /** In every run, every cleanup is paid for by its own live failed generation exactly as long as no rollback has
      stranded one; after that, never again before close. */
  lemma {:induction false} FundedIffNoneStranded(options: Options, trace: seq<State>, ops: seq<Op>, i: nat)
    requires options.Valid() && Run(options, trace, ops) && i <= |ops| && !trace[i].closed
    ensures Funded(trace[i]) <==> NoneStranded(trace, ops, i)
    ensures Funded(trace[i]) || exists g :: Gone(trace[i], g)
  {
    hide Books, Funded, Enabled, Apply, Strands, Gone;
    if i == 0 {
      InitialInv(options);
    } else {
      var s := trace[i - 1];
      RunKeepsBooks(options, trace, ops);
      assert Stepped(s, ops[i - 1], trace[i]);
      EnabledOpen(s, ops[i - 1]);
      FundedIffNoneStranded(options, trace, ops, i - 1);
      InvWellFormed(s);
      FundingStep(s, ops[i - 1]);
    }
  }

  lemma FundingStep(s: State, op: Op)
    requires Books(s) && WellFormed(s) && Enabled(s, op)
    requires Funded(s) || exists g :: Gone(s, g)
    ensures var t := Apply(s, op);
            !t.closed ==> (Funded(t) <==> Funded(s) && !Strands(s, op)) && (Funded(t) || exists g :: Gone(t, g))
  {
    hide Books, Enabled, Apply, Strands, Backed;
    var t := Apply(s, op);
    EnabledOpen(s, op);
    StepKeepsBooks(s, op);
    TableKeys(s);
    StepKept(s, op);
    if !t.closed {
      if g :| Gone(s, g) {
        assert Gone(t, g);
        Unspendable(s, g);
        Unspendable(t, g);
      } else if Strands(s, op) {
        StrandedIsGone(s, op);
      }
    }
  }

  lemma StrandedIsGone(s: State, op: Op)
    requires Books(s) && WellFormed(s) && Enabled(s, op) && Strands(s, op)
    ensures exists g :: Gone(Apply(s, op), g)
  {
    hide Books;
    assert Gone(Apply(s, op), s.table[op.key]);
  }

  lemma TableKeys(s: State)
    requires Books(s) && !s.closed
    ensures forall k :: k in s.table ==>
              s.table[k] < |s.gens| && s.gens[s.table[k]].key == k && s.gens[s.table[k]].live
  {
  }

  lemma EnabledOpen(s: State, op: Op)
    requires Enabled(s, op)
    ensures !s.closed
  {
  }

  // ---- What no transition does ---------------------------------------------------------------------------

  /** Options and keys never change, dead generations stay dead and as clean as they were, failure and retirement
      are never taken back, and nothing but the named key is admitted. */
  ghost predicate KeptFlags(s: State, t: State, key: Option<PaneKey> := None) {
    && t.options == s.options && |t.gens| >= |s.gens|
    && (forall g :: 0 <= g < |s.gens| ==>
         && t.gens[g].key == s.gens[g].key
         && (!s.gens[g].live ==> !t.gens[g].live && t.gens[g].cleanupSpent == s.gens[g].cleanupSpent)
         && (s.gens[g].failed ==> t.gens[g].failed)
         && (s.gens[g].retireRequested ==> t.gens[g].retireRequested)
         && (t.gens[g].admitted ==> s.gens[g].admitted || Some(s.gens[g].key) == key))
    && forall g :: |s.gens| <= g < |t.gens| && t.gens[g].admitted ==> Some(t.gens[g].key) == key
  }

  /** And a live generation whose durable retirement is requested stays live. */
  ghost predicate Kept(s: State, t: State, key: Option<PaneKey> := None) {
    && KeptFlags(s, t, key)
    && forall g :: 0 <= g < |s.gens| && s.gens[g].live && s.gens[g].durableRequested ==>
         t.gens[g].live && t.gens[g].durableRequested
  }

  /** The key a transition may admit. */
  function Admits(op: Op): Option<PaneKey> {
    match op
    case Ensure(key, admitted) => if admitted then Some(key) else None
    case MarkAdmitted(key) => Some(key)
    case _ => None
  }

  lemma SettleKept(s: State, r: nat, x: Reservation)
    requires r < |s.res| && s.res[r].generation < |s.gens| && x.generation == s.res[r].generation
    ensures Kept(s, Settle(s, r, x))
    ensures |Settle(s, r, x).gens| == |s.gens| && Settle(s, r, x).res == s.res[r := x]
  {
    hide ChargeOf, Remove;
  }

  lemma FinishRetireKept(s: State, g: nat)
    requires g < |s.gens|
    ensures KeptFlags(s, FinishRetire(s, g)) && |FinishRetire(s, g).gens| == |s.gens|
    ensures forall h :: 0 <= h < |s.gens| && h != g ==> FinishRetire(s, g).gens[h] == s.gens[h]
    ensures FinishRetire(s, g).gens[g].admitted == s.gens[g].admitted
  {
    hide ChargeAccount, DropSource, Credit.Plus;
  }

  lemma TryRetireKept(s: State, g: nat)
    requires g < |s.gens|
    ensures Kept(s, TryRetire(s, g))
  {
    hide FinishRetire;
    FinishRetireKept(s, g);
  }

  lemma CompleteKept(s: State, r: nat)
    requires r < |s.res| && s.res[r].generation < |s.gens|
    ensures var t := TryRetire(Complete(s, r), s.res[r].generation); Kept(s, t)
  {
    hide ChargeOf, Settle, TryRetire;
    var x := s.res[r];
    SettleKept(s, r, x.(released := true, refunded := x.refunded.Plus(ChargeOf(x))));
    TryRetireKept(Complete(s, r), x.generation);
  }

  lemma CancelKept(s: State, r: nat)
    requires r < |s.res| && s.res[r].generation < |s.gens|
    ensures Kept(s, Cancel(s, r))
  {
    hide ChargeOf, Settle, TryRetire;
    var x := s.res[r];
    var y := x.(released := true, stage := Cancelled, refunded := x.refunded.Plus(ChargeOf(x)));
    SettleKept(s, r, y);
    TryRetireKept(Settle(s, r, y), x.generation);
  }

  lemma FinishKept(s: State, r: nat)
    requires r < |s.res| && s.res[r].generation < |s.gens|
    ensures Kept(s, ReleaseCommand(s, r))
  {
    hide ChargeOf, Settle, TryRetire, Complete, Overdraw;
    var x := s.res[r];
    var y := x.(q := 0, stage := Done, refunded := x.refunded.Plus(Credit(x.q, 0, 0, 0, 0)));
    if x.released {
      OverdrawKept(s, r, y);
      CompleteKept(Overdraw(s, r, y), r);
    } else {
      SettleKept(s, r, y);
      CompleteKept(Settle(s, r, y), r);
    }
  }

  lemma OverdrawKept(s: State, r: nat, y: Reservation)
    requires r < |s.res| && s.res[r].generation < |s.gens| && y.generation == s.res[r].generation
    ensures Kept(s, Overdraw(s, r, y))
    ensures |Overdraw(s, r, y).gens| == |s.gens| && Overdraw(s, r, y).res == s.res[r := y]
  {
  }

  lemma DispatchKept(s: State)
    requires s.outbox != [] && s.outbox[0].reservation < |s.res|
    requires s.res[s.outbox[0].reservation].generation < |s.gens|
    ensures Kept(s, DispatchPart(s))
  {
    hide ChargeOf, Settle, TryRetire, Complete;
    var s0 := s.(outbox := s.outbox[1..]);
    var r := s.outbox[0].reservation;
    var x := s.res[r];
    var y := x.(doneParts := x.doneParts + 1, settled := x.settled + 1);
    SettleKept(s0, r, y);
    CompleteKept(Settle(s0, r, y), r);
  }

  lemma ReserveKept(s: State, key: PaneKey, bytes: nat, requireAdmitted: bool, requireExisting: bool)
    requires s.options.maxBatch > 0 && (key in s.table ==> s.table[key] < |s.gens|)
    ensures Kept(s, Reserve(s, key, bytes, requireAdmitted, requireExisting).0)
  {
    hide Shortage, EnvelopeNeed;
  }

  lemma FlagsThenRetireKept(s: State, g: nat, x: Generation)
    requires g < |s.gens| && x.live == s.gens[g].live && x.key == s.gens[g].key
    requires !x.live ==> x.cleanupSpent == s.gens[g].cleanupSpent
    requires (s.gens[g].durableRequested ==> x.durableRequested) && (s.gens[g].failed ==> x.failed)
    requires (s.gens[g].retireRequested ==> x.retireRequested) && (x.admitted ==> s.gens[g].admitted)
    ensures Kept(s, TryRetire(s.(gens := s.gens[g := x]), g))
  {
    hide TryRetire;
    TryRetireKept(s.(gens := s.gens[g := x]), g);
  }

  lemma RejectKept(s: State, r: nat)
    requires r < |s.res| && s.res[r].generation < |s.gens|
    ensures Kept(s, Reject(s, r))
  {
    hide Cancel;
    var g := s.res[r].generation;
    CancelKept(s.(gens := s.gens[g := s.gens[g].(admitted := false, retireRequested := true)]), r);
  }

  lemma SpendKept(s: State, key: PaneKey)
    requires key in s.table ==> s.table[key] < |s.gens| && s.gens[s.table[key]].live
    ensures Kept(s, SpendFaultCleanup(s, key))
  {
    hide TryRetire;
    if key in s.table {
      var g := s.table[key];
      FlagsThenRetireKept(s.(current := None), g, s.gens[g].(cleanupSpent := true, retireRequested := true));
    }
  }

  lemma AskKept(s: State, key: PaneKey)
    requires key in s.table ==> s.table[key] < |s.gens|
    ensures Kept(s, AskRetire(s, key)) && Kept(s, Unadmit(s, key))
  {
    hide TryRetire;
    if key in s.table {
      var g := s.table[key];
      FlagsThenRetireKept(s, g, s.gens[g].(retireRequested := true, admitted := false));
      FlagsThenRetireKept(s, g, s.gens[g].(admitted := false));
    }
  }

  lemma AbortKept(s: State, oldKey: PaneKey, predecessor: nat, newKey: PaneKey, successor: nat, created: bool)
    requires forall k :: k in s.table ==> s.table[k] < |s.gens|
    ensures Kept(s, AbortRotation(s, oldKey, predecessor, newKey, successor, created).0)
  {
    hide TryRetire;
    if newKey in s.table && s.table[newKey] == successor {
      FlagsThenRetireKept(s, successor, s.gens[successor].(abandoned := true, retireRequested := true));
    }
  }

  lemma RetiringStepKept(s: State, op: Op)
    requires WellFormed(s) && Enabled(s, op) && forall k :: k in s.table ==> s.gens[s.table[k]].live
    requires op.SpendCleanup? || op.RequestRetire? || op.SettleAbort? || op.RestoreUnadmitted?
    ensures Kept(s, Apply(s, op))
  {
    hide SpendFaultCleanup, AskRetire, AbortRotation, Unadmit, Kept;
    match op {
      case SpendCleanup => SpendKept(s, s.current.value.key);
      case RequestRetire(key) => AskKept(s, key);
      case SettleAbort(oldKey, predecessor, newKey, successor, created) =>
        AbortKept(s, oldKey, predecessor, newKey, successor, created);
      case RestoreUnadmitted(key) => AskKept(s, key);
    }
  }

  lemma ReservationStepKept(s: State, op: Op)
    requires WellFormed(s) && Enabled(s, op)
    requires op.Take? || op.GiveBack? || op.Submit? || op.Finish? || op.Dispatch? || op.RejectReservation?
    ensures Kept(s, Apply(s, op))
  {
    hide Reserve, Cancel, ReleaseCommand, DispatchPart, Reject;
    match op {
      case Take(key, bytes, admitted, existing) => ReserveKept(s, key, bytes, admitted, existing);
      case GiveBack(r) => CancelKept(s, r);
      case Submit(r) => CancelKept(s, r);
      case Finish => if s.current.value.Ordinary? { FinishKept(s.(current := None), s.current.value.reservation); }
      case Dispatch => DispatchKept(s);
      case RejectReservation(r) => RejectKept(s, r);
    }
  }

  lemma CreateKept(s: State, key: PaneKey, admitted: bool)
    ensures Kept(s, Create(s, key, admitted), if admitted then Some(key) else None)
  {
  }

  lemma OneGenerationKept(s: State, g: nat, x: Generation, key: Option<PaneKey>)
    requires g < |s.gens| && x.key == s.gens[g].key && x.live == s.gens[g].live
    requires x.cleanupSpent == s.gens[g].cleanupSpent
    requires (s.gens[g].durableRequested ==> x.durableRequested) && (s.gens[g].failed ==> x.failed)
    requires s.gens[g].retireRequested ==> x.retireRequested
    requires x.admitted ==> s.gens[g].admitted || Some(x.key) == key
    ensures forall t: State :: t.options == s.options && t.gens == s.gens[g := x] ==> Kept(s, t, key)
  {
  }

  lemma TableStepKept(s: State, op: Op)
    requires WellFormed(s) && Enabled(s, op)
    requires forall k :: k in s.table ==> s.gens[s.table[k]].key == k
    requires op.Ensure? || op.Fault? || op.CheckedFault? || op.MarkDurable? || op.MarkAdmitted? || op.BindSource? || op.InheritSource?
    ensures Kept(s, Apply(s, op), Admits(op))
  {
    hide RoomForGeneration, ChargeAccount, Credit.Plus, Options.FitsSource, Kept, KeptFlags, Create;
    SelfKept(s, Admits(op));
    match op {
      case Ensure(key, admitted) =>
        CreateKept(s, key, admitted);
        if key in s.table && admitted {
          OneGenerationKept(s, s.table[key], s.gens[s.table[key]].(admitted := true), Admits(op));
        }
      case Fault(key) => FaultKept(s, key);
      case CheckedFault(key, _) => FaultKept(s, key);
      case MarkDurable(key) =>
        if key in s.table {
          OneGenerationKept(s, s.table[key], s.gens[s.table[key]].(durableRequested := true), None);
        }
      case MarkAdmitted(key) =>
        if key in s.table {
          OneGenerationKept(s, s.table[key], s.gens[s.table[key]].(admitted := true), Some(key));
        }
      case BindSource(key, _, source) =>
        if key in s.table {
          OneGenerationKept(s, s.table[key], s.gens[s.table[key]].(source := Some(source)), None);
        }
      case InheritSource(oldKey, newKey) =>
        if newKey in s.table && oldKey in s.table {
          OneGenerationKept(s, s.table[newKey],
                            s.gens[s.table[newKey]].(source := s.gens[s.table[oldKey]].source), None);
        }
    }
  }

  lemma SelfKept(s: State, key: Option<PaneKey>)
    ensures Kept(s, s, key)
  {
  }

  lemma FaultKept(s: State, key: PaneKey)
    requires key in s.table ==> s.table[key] < |s.gens|
    ensures Kept(s, CommitFault(s, key).0)
  {
    hide Credit.Adjust;
  }

  lemma RemovalStepKept(s: State, op: Op)
    requires WellFormed(s) && Enabled(s, op) && (op.DurableSettled? || op.ReleaseUnadmitted?)
    ensures KeptFlags(s, Apply(s, op))
    ensures forall g :: 0 <= g < |s.gens| && g != (if op.key in s.table then s.table[op.key] else |s.gens|) ==>
              Apply(s, op).gens[g] == s.gens[g]
  {
    hide FinishRetire;
    if op.key in s.table {
      var g := s.table[op.key];
      FinishRetireKept(s, g);
      FinishRetireKept(s.(gens := s.gens[g := s.gens[g].(durableRequested := false)]), g);
    }
  }

  lemma QueueStepKept(s: State, op: Op)
    requires WellFormed(s) && Enabled(s, op)
    requires op.DeclareParts? || op.RejectOutput? || op.Fence? || op.Close? || op.Pop? || op.Publish? ||
             op.FinishClose? || op.AppendCleanup?
    ensures Kept(s, Apply(s, op))
  {
  }

  /** Only a settled durable unlink or its creator's rollback ends a generation whose durable retirement is
      requested, and nothing brings a dead one back. */
  lemma StepKept(s: State, op: Op)
    requires WellFormed(s) && Enabled(s, op)
    requires forall k :: k in s.table ==> s.gens[s.table[k]].key == k && s.gens[s.table[k]].live
    ensures op.DurableSettled? || op.ReleaseUnadmitted? || Kept(s, Apply(s, op), Admits(op))
    ensures KeptFlags(s, Apply(s, op), Admits(op))
  {
    hide Apply, Enabled, WellFormed;
    match op {
      case DurableSettled(_) => RemovalStepKept(s, op);
      case ReleaseUnadmitted(_) => RemovalStepKept(s, op);
      case Ensure(_, _) => TableStepKept(s, op);
      case Fault(_) => TableStepKept(s, op);
      case MarkDurable(_) => TableStepKept(s, op);
      case MarkAdmitted(_) => TableStepKept(s, op);
      case CheckedFault(_, _) => TableStepKept(s, op);
      case BindSource(_, _, _) => TableStepKept(s, op);
      case InheritSource(_, _) => TableStepKept(s, op);
      case SpendCleanup => RetiringStepKept(s, op);
      case RequestRetire(_) => RetiringStepKept(s, op);
      case SettleAbort(_, _, _, _, _) => RetiringStepKept(s, op);
      case RestoreUnadmitted(_) => RetiringStepKept(s, op);
      case Take(_, _, _, _) => ReservationStepKept(s, op);
      case GiveBack(_) => ReservationStepKept(s, op);
      case Submit(_) => ReservationStepKept(s, op);
      case Finish => ReservationStepKept(s, op);
      case Dispatch => ReservationStepKept(s, op);
      case RejectReservation(_) => ReservationStepKept(s, op);
      case _ => QueueStepKept(s, op);
    }
  }

  /** In every reachable state before close completes, the five counters are the sums of what live generations
      and unreleased reservations hold and stay within their limits, every source account is the sum of its
      generations, every generation's pending list is its unreleased reservations in acceptance order, and every
      reservation's refunds add up to its grant exactly when it is released. */
  lemma EveryRun(options: Options, trace: seq<State>, ops: seq<Op>, i: nat)
    requires options.Valid() && Run(options, trace, ops) && i < |trace| && !trace[i].closed
    ensures var s := trace[i];
            && (forall d :: s.used.Get(d) == Sum(s.gens, Lifetime(d)) + Sum(s.res, Charge(d)))
            && (forall d :: s.used.Get(d) <= options.Limit().Get(d))
            && (forall k, d :: k in s.accounts ==> s.accounts[k].Get(d) == Sum(s.gens, Bound(k, d)))
            && (forall g :: 0 <= g < |s.gens| ==>
                  s.gens[g].pending == PendingOf(s.res, g) && s.gens[g].refs == |s.gens[g].pending|)
            && (forall r :: 0 <= r < |s.res| && s.res[r].released ==>
                  forall d :: s.res[r].refunded.Get(d) == s.res[r].granted.Get(d))
  {
    hide Sum, PendingOf, Count, Work;
    RunKeepsBooks(options, trace, ops);
    var s := trace[i];
    assert Books(s);
    forall r | 0 <= r < |s.res| && s.res[r].released
      ensures forall d :: s.res[r].refunded.Get(d) == s.res[r].granted.Get(d)
    {
      RefundedExactlyOnce(s, r);
    }
  }

  /** While no rollback has stranded a cleanup, the fixed ring holds every queued command. */
  lemma RingHoldsRun(options: Options, trace: seq<State>, ops: seq<Op>, i: nat)
    requires options.Valid() && Run(options, trace, ops) && i <= |ops| && NoneStranded(trace, ops, i)
    ensures !trace[i].closed ==> |trace[i].queue| <= RingCells(options)
  {
    hide Books, Funded, RingCells, NoneStranded;
    if !trace[i].closed {
      RunKeepsBooks(options, trace, ops);
      FundedIffNoneStranded(options, trace, ops, i);
      QueueFitsRing(trace[i]);
    }
  }

  /** Room in the ring before a push: the step that queues a command starts with a free cell, so no capacity
      check on the ring can fail. */
  lemma PushFindsRoom(s: State, op: Op)
    requires Inv(s) && WellFormed(s) && Enabled(s, op) && !Apply(s, op).closed
    requires |Apply(s, op).queue| > |s.queue|
    ensures |s.queue| < RingCells(s.options)
  {
    hide Books, Funded, Enabled, Apply, WellFormed, RingCells;
    StepKeepsBooks(s, op);
    EnabledOpen(s, op);
    TableKeys(s);
    StepKept(s, op);
    if op.ReleaseUnadmitted? {
      RollbackQueuesNothing(s, op);
    }
    QueueFitsRing(Apply(s, op));
  }

  lemma RollbackQueuesNothing(s: State, op: Op)
    requires op.ReleaseUnadmitted? && WellFormed(s) && Enabled(s, op)
    ensures Apply(s, op).queue == s.queue
  {
  }

  // ---- Retirement --------------------------------------------------------------------------------------

  lemma {:induction false} NothingPending(res: seq<Reservation>, g: nat)
    requires forall r :: 0 <= r < |res| && res[r].generation == g ==> res[r].released
    ensures PendingOf(res, g) == []
  {
    if res != [] {
      NothingPending(res[..|res| - 1], g);
    }
  }

  /** A generation that has left the table holds nothing: no reference, no pending reservation, and no unspent
      cleanup unless one was stranded. Its usage is nothing, and its two commands and its table slot are back in the pool. */
  lemma RetiredHoldsNothing(s: State, g: nat)
    requires Books(s) && !s.closed && g < |s.gens| && !s.gens[g].live
    ensures s.gens[g].refs == 0 && s.gens[g].pending == []
    ensures Funded(s) ==> (s.gens[g].failed ==> s.gens[g].cleanupSpent)
    ensures s.gens[g].source.None?
    ensures forall d :: s.gens[g].usage.Get(d) == 0
  {
    hide Sum, Count;
    assert forall r :: 0 <= r < |s.res| ==> ReservationOk(s, s.res[r]);
    NothingPending(s.res, g);
    NothingPendingNothingHeld(s.res, g);
    forall d ensures s.gens[g].usage.Get(d) == 0 {
      assert s.gens[g].usage.Get(d) == OwnUsage(s, g, d);
    }
  }

  /** A live generation without references uses exactly its two commands. */
  lemma QuietUsesTwoCommands(s: State, g: nat)
    requires Books(s) && !s.closed && g < |s.gens| && s.gens[g].live
    ensures s.gens[g].refs == 0 ==> s.gens[g].pending == []
    ensures s.gens[g].refs == 0 ==> forall d :: s.gens[g].usage.Get(d) == OwnShare(d)
  {
    hide Sum, PendingOf, Count;
    if s.gens[g].refs == 0 {
      assert s.gens[g].pending == [];
      QuiescentUsage(s, g);
    }
  }

  /** While a durable retirement of `g` is requested, only its own settled unlink or its creator's rollback
      removes it. */
  lemma DurableWaits(s: State, op: Op, g: nat)
    requires Books(s) && WellFormed(s) && Enabled(s, op) && g < |s.gens| && s.gens[g].live && s.gens[g].durableRequested
    requires op != DurableSettled(s.gens[g].key) && op != ReleaseUnadmitted(s.gens[g].key)
    ensures g < |Apply(s, op).gens| && Apply(s, op).gens[g].live
  {
    hide Work, Limits, Ledger, PendingLists, Lifecycle, Reservations, Apply;
    TableKeys(s);
    StepKept(s, op);
    if op.DurableSettled? || op.ReleaseUnadmitted? {
      assert op.key in s.table ==> s.gens[s.table[op.key]].key == op.key;
      RemovalStepKept(s, op);
    }
  }

  // ---- Rolling back a creation ---------------------------------------------------------------------------

  /** Create a generation, fault it, queue its cleanup, roll it back: nothing is left but the cleanup. */
  function Cycle(key: PaneKey): seq<Op> {
    [Ensure(key, false), CheckedFault(key, None), AppendCleanup(key), ReleaseUnadmitted(key)]
  }

  function Cycles(key: PaneKey, n: nat): seq<Op> {
    if n == 0 then [] else Cycles(key, n - 1) + Cycle(key)
  }

  /** Nothing is live, owed or in hand; `n` commands wait. */
  ghost predicate Idle(s: State, n: nat, key: PaneKey) {
    && Books(s) && !s.closed && !s.closing && s.table == map[] && s.owed == multiset{} && s.current.None?
    && s.used.generations == 0 && s.used.commands == 0 && |s.queue| == n
    && forall i :: 0 <= i < n ==> s.queue[i] == Cleanup(key)
  }

  /** What the first three steps of a cycle make of an idle runtime. */
  ghost predicate Faulted(s: State, n: nat, key: PaneKey) {
    && Books(s) && !s.closed && !s.closing && s.table == map[key := |s.gens| - 1] && |s.gens| > 0 && s.current.None?
    && s.owed == multiset{} && s.used.generations == 1 && s.used.commands == 2 && |s.queue| == n
    && (forall i :: 0 <= i < n ==> s.queue[i] == Cleanup(key))
    && s.gens[|s.gens| - 1] == NewGeneration(key, false).(failed := true, cleanupQueued := true)
    && n > 0
  }

  lemma IdleFaulted(s: State, n: nat, key: PaneKey)
    requires Idle(s, n, key) && s.options.Valid() && WellFormed(s)
    ensures var s1 := Create(s, key, false);
            var s2 := CommitFault(s1, key).0;
            var s3 := QueueCleanup(s2, key);
            && Stepped(s, Ensure(key, false), s1) && Stepped(s1, CheckedFault(key, None), s2)
            && Stepped(s2, AppendCleanup(key), s3) && Faulted(s3, n + 1, key) && s3.options == s.options
  {
    hide Books;
    var s1 := Create(s, key, false);
    StepKeepsBooks(s, Ensure(key, false));
    InvWellFormed(s1);
    StepKeepsBooks(s1, CheckedFault(key, None));
    var s2 := CommitFault(s1, key).0;
    InvWellFormed(s2);
    StepKeepsBooks(s2, AppendCleanup(key));
  }

  lemma FaultedIdle(s: State, n: nat, key: PaneKey)
    requires Faulted(s, n, key) && WellFormed(s)
    ensures var t := ReleaseGeneration(s, key);
            && Stepped(s, ReleaseUnadmitted(key), t) && Strands(s, ReleaseUnadmitted(key))
            && Idle(t, n, key) && t.options == s.options
  {
    hide Books;
    StepKeepsBooks(s, ReleaseUnadmitted(key));
  }

  /** No ring is large enough once rollbacks may strand cleanups: creating, faulting and rolling back one key `n` times
      leaves `n` queued cleanups and nothing that pays for them. */
  lemma {:induction false} NoRingIsEnough(options: Options, key: PaneKey, n: nat)
    requires options.Valid()
    ensures exists trace :: Run(options, trace, Cycles(key, n)) && Idle(trace[|trace| - 1], n, key)
  {
    hide Books, Stepped, Idle, Faulted;
    if n == 0 {
      InitialInv(options);
      InitialIdle(options, key);
      assert Run(options, [Retention.Initial(options)], []);
    } else {
      NoRingIsEnough(options, key, n - 1);
      var trace :| Run(options, trace, Cycles(key, n - 1)) && Idle(trace[|trace| - 1], n - 1, key);
      OneMoreCycle(options, key, n - 1, trace);
    }
  }

  lemma InitialIdle(options: Options, key: PaneKey)
    requires Books(Retention.Initial(options))
    ensures Idle(Retention.Initial(options), 0, key)
  {
    hide Books;
  }

  lemma OneMoreCycle(options: Options, key: PaneKey, n: nat, trace: seq<State>)
    requires options.Valid() && Run(options, trace, Cycles(key, n)) && Idle(trace[|trace| - 1], n, key)
    ensures exists longer :: Run(options, longer, Cycles(key, n + 1)) && Idle(longer[|longer| - 1], n + 1, key)
  {
    hide Books, Stepped, Faulted, Cycles, CommitFault, QueueCleanup, ReleaseGeneration;
    RunKeepsBooks(options, trace, Cycles(key, n));
    var s := trace[|trace| - 1];
    IdleWellFormed(s, n, key);
    IdleFaulted(s, n, key);
    var s1 := Create(s, key, false);
    var s2 := CommitFault(s1, key).0;
    var s3 := QueueCleanup(s2, key);
    FaultedWellFormed(s3, n + 1, key);
    FaultedIdle(s3, n + 1, key);
    var s4 := ReleaseGeneration(s3, key);
    Joined(options, trace, Cycles(key, n), [s1, s2, s3, s4], Cycle(key));
    CyclesUp(key, n);
  }

  lemma CyclesUp(key: PaneKey, n: nat)
    ensures Cycles(key, n + 1) == Cycles(key, n) + Cycle(key)
  {
  }

  lemma IdleWellFormed(s: State, n: nat, key: PaneKey)
    requires Idle(s, n, key)
    ensures WellFormed(s)
  {
    hide Books;
    InvWellFormed(s);
  }

  lemma FaultedWellFormed(s: State, n: nat, key: PaneKey)
    requires Faulted(s, n, key)
    ensures WellFormed(s)
  {
    hide Books;
    InvWellFormed(s);
  }

  /** Two runs end to end. */
  lemma Joined(options: Options, trace: seq<State>, ops: seq<Op>, states: seq<State>, more: seq<Op>)
    requires Run(options, trace, ops) && |states| == |more|
    requires forall i :: 0 <= i < |more| ==>
               Stepped(([trace[|trace| - 1]] + states)[i], more[i], states[i])
    ensures Run(options, trace + states, ops + more)
  {
    hide Stepped;
    var long := trace + states;
    forall i | 0 <= i < |ops + more| ensures Stepped(long[i], (ops + more)[i], long[i + 1]) {
      if i < |ops| {
        assert Stepped(trace[i], ops[i], trace[i + 1]);
      } else {
        var j := i - |ops|;
        assert Stepped(([trace[|trace| - 1]] + states)[j], more[j], states[j]);
      }
    }
  }

  /** A stranded cleanup hits whoever takes the key next: a generation that never failed is made to retire. */
  lemma StrandedCleanupRetiresStranger(options: Options, key: PaneKey)
    requires options.Valid()
    ensures exists trace :: Run(options, trace, Cycles(key, 1) + [Ensure(key, true), Pop, SpendCleanup]) &&
                            OutAndIn(trace[|trace| - 3], trace[|trace| - 1], key)
  {
    hide Books, Stepped, OutAndIn, Cycles, Create, PopCommand, SpendFaultCleanup, Idle;
    NoRingIsEnough(options, key, 1);
    var trace :| Run(options, trace, Cycles(key, 1)) && Idle(trace[|trace| - 1], 1, key);
    var s := trace[|trace| - 1];
    RunKeepsBooks(options, trace, Cycles(key, 1));
    IdleWellFormed(s, 1, key);
    var states := StrangerRetires(s, key);
    Joined(options, trace, Cycles(key, 1), states, [Ensure(key, true), Pop, SpendCleanup]);
    var longer := trace + states;
    assert longer[|longer| - 3] == states[0] && longer[|longer| - 1] == states[2];
  }

  lemma StrangerRetires(s: State, key: PaneKey) returns (states: seq<State>)
    requires Idle(s, 1, key) && s.options.Valid() && WellFormed(s)
    ensures |states| == 3 && OutAndIn(states[0], states[2], key)
    ensures Stepped(s, Ensure(key, true), states[0]) && Stepped(states[0], Pop, states[1])
    ensures Stepped(states[1], SpendCleanup, states[2])
  {
    hide Books, OutAndIn;
    var s1 := Create(s, key, true);
    var s2 := s1.(queue := s.queue[1..], current := Some(Cleanup(key)));
    assert s2 == PopCommand(s1);
    states := [s1, s2, SpendFaultCleanup(s2, key)];
    StrangerGone(s1, s2, key);
  }

  /** The stranger retires as soon as the cleanup is spent on it. */
  lemma StrangerSpends(s: State, key: PaneKey)
    requires |s.gens| > 0 && s.table == map[key := |s.gens| - 1] && s.gens[|s.gens| - 1] == NewGeneration(key, true)
    ensures var t := SpendFaultCleanup(s, key);
            && |t.gens| == |s.gens| && !t.gens[|s.gens| - 1].live && !t.gens[|s.gens| - 1].failed && t.table == map[]
  {
  }

  lemma StrangerGone(s: State, s2: State, key: PaneKey)
    requires |s.gens| > 0 && s.table == map[key := |s.gens| - 1] && s.gens[|s.gens| - 1] == NewGeneration(key, true)
    requires s2.gens == s.gens && s2.table == s.table
    ensures OutAndIn(s, SpendFaultCleanup(s2, key), key)
  {
    hide SpendFaultCleanup;
    StrangerSpends(s2, key);
  }

  /** The newest generation of `key` was live, admitted and healthy, and is now gone though it never failed. */
  ghost predicate OutAndIn(before: State, after: State, key: PaneKey) {
    var g := |before.gens| - 1;
    && g >= 0 && |after.gens| == g + 1 && before.gens[g] == NewGeneration(key, true) && before.table == map[key := g]
    && !after.gens[g].live && !after.gens[g].failed && after.table == map[]
  }
}
