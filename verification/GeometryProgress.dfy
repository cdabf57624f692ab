/** What an explicit Fit gets done: what each of its steps leaves behind, when its fault is queued, and the whole Fit. */
module GeometryProgress {
  import opened Basics
  import opened GeometryBracket

  // ---- One step ----------------------------------------------------------------------------------------------

  predicate OwnedBy(s: State, a: nat) {
    s.owner == Some(a) && a < |s.fits|
  }

  /** Everything but the owner's own Fit, the queue and the gate stays. */
  predicate OnlyFit(s: State, t: State, a: nat) {
    && |t.fits| == |s.fits| && (forall b :: 0 <= b < |s.fits| && b != a ==> t.fits[b] == s.fits[b])
    && t.processed == s.processed && t.applied == s.applied && t.failed == s.failed && t.durable == s.durable
    && t.closing == s.closing
  }

  /** The gate is taken by a new Fit with nothing reserved. A slot or a place in the queue is the Fit's when it is
      granted; when it is not, or the pause is refused, or the Fit is cancelled, the Fit is over and the gate open,
      with every slot it took given back. */
  lemma StartsAndStops(s: State, op: Op, a: nat)
    requires Inv(s) && Enabled(s, op)
    requires op.Acquire? || (OwnedBy(s, a) && (op.TakeSlot? || op.QueueStart? || op.PauseRefused? || op.PauseHeld? || op.Cancel?))
    ensures var t := Apply(s, op);
            if op.Acquire? then
              && t == s.(owner := Some(|s.fits|), fits := t.fits) && |t.fits| == |s.fits| + 1 && t.fits[..|s.fits|] == s.fits
              && t.fits[|s.fits|].phase.Reserving? && t.fits[|s.fits|].taken == 0
            else
              && OnlyFit(s, t, a) && t.fits[a].issued == s.fits[a].issued && t.fits[a].committed == s.fits[a].committed
              && (t.fits[a].phase.Gone? <==>
                    op.PauseRefused? || op.Cancel? || op == TakeSlot(false) || op == QueueStart(false))
              && (t.owner == if t.fits[a].phase.Gone? then None else s.owner)
              && (t.fits[a].taken == s.fits[a].taken + if op == TakeSlot(true) then 1 else 0)
              && (op == QueueStart(true) ==> t.fits[a].phase.Starting?) && (op.PauseHeld? ==> t.fits[a].phase.Holding?)
              && t.queue == s.queue + (if op == QueueStart(true) && !s.closing then [Start(a)]
                                       else if op.Cancel? && !s.closing then [End(a)] else [])
              && (t.fits[a].phase.Gone? ==>
                    && t.fits[a].commitUses == (if s.fits[a].taken > 0 then 1 else 0)
                    && t.fits[a].releaseUses == (if s.fits[a].taken > 1 then 1 else 0)
                    && t.fits[a].faultUses == (if s.fits[a].taken > 2 then 1 else 0))
  {
    if s.owner.Some? {
      CurrentOf(s);
    }
    hide Inv;
    assert s.queue + [] == s.queue;
  }

  lemma CurrentOf(s: State)
    requires Inv(s) && s.owner.Some?
    ensures s.owner.value < |s.fits| && SlotsOk(Current(s))
  {
    hide Holder, Bracketed;
  }

  /** What a ticket's holder does with it: the command is noted as issued once it was reached, the geometry goes into
      the queue on the commit slot, a durable one is noted, and the three parts of a release spend what is left. */
  lemma HoldsAndReleases(s: State, op: Op, a: nat)
    requires Enabled(s, op) && OwnedBy(s, a)
    requires op.Issue? || op.SubmitGeometry? || op.CommitReturns? || op.ReleaseCommitSlot? || op.ReleaseFaultSlot? || op.ReleasePause?
    ensures var t := Apply(s, op);
            var f, g := s.fits[a], t.fits[a];
            && OnlyFit(s, t, a) && g.taken == f.taken
            && (g.issued <==> f.issued || op == Issue(true)) && (g.committed <==> f.committed || op.CommitReturns?)
            && g.phase == (if op.ReleaseCommitSlot? then Releasing else if op.ReleaseFaultSlot? then Ending
                           else if op.ReleasePause? then Gone else f.phase)
            && (t.owner == if op.ReleasePause? then None else s.owner)
            && t.queue == s.queue +
                 (if s.closing then []
                  else if op.SubmitGeometry? then [Commit(a)]
                  else if op.ReleaseFaultSlot? && f.issued && !f.committed then [Fault(a)]
                  else if op.ReleasePause? then [End(a)] else [])
  {
    assert s.queue + [] == s.queue;
  }

  /** The manager takes entries one at a time: a pause applies or fails, a geometry is durable if the journal took it,
      and nothing else is recorded. */
  lemma ManagerTakes(s: State, ok: bool)
    requires s.processed < |s.queue|
    ensures var t := Apply(s, Process(ok));
            var e := s.queue[s.processed];
            && t == s.(processed := s.processed + 1, applied := t.applied, failed := t.failed, durable := t.durable)
            && t.applied == s.applied + (if e.Start? && ok then {e.owner} else {})
            && t.failed == s.failed + (if e.Start? && !ok then {e.owner} else {})
            && t.durable == s.durable + (if e.Commit? && ok then {e.owner} else {})
  {
  }

  // ---- Over runs ---------------------------------------------------------------------------------------------

  ghost predicate Did(trace: seq<State>, ops: seq<Op>, n: nat, a: nat, op: Op)
    requires |trace| == |ops| + 1 && n < |ops|
  {
    ops[n] == op && trace[n].owner == Some(a)
  }

  /** A Fit is on record as issued exactly when its command was reached, and as committed exactly when its geometry came
      back durable. */
  lemma {:induction false} RecordsIff(trace: seq<State>, ops: seq<Op>, t: nat, a: nat)
    requires Run(trace, ops) && t < |trace| && a < |trace[t].fits|
    ensures trace[t].fits[a].issued <==> exists n :: 0 <= n < t && Did(trace, ops, n, a, Issue(true))
    ensures trace[t].fits[a].committed <==> exists n :: 0 <= n < t && Did(trace, ops, n, a, CommitReturns)
  {
    if t > 0 {
      RunKeepsInv(trace, ops, t - 1);
      assert Enabled(trace[t - 1], ops[t - 1]) && trace[t] == Apply(trace[t - 1], ops[t - 1]);
      FlagStep(trace[t - 1], ops[t - 1], a);
      hide Inv, Apply, Enabled;
      if a < |trace[t - 1].fits| {
        RecordsIff(trace, ops, t - 1, a);
        assert Did(trace, ops, t - 1, a, Issue(true)) <==> ops[t - 1] == Issue(true) && trace[t - 1].owner == Some(a);
        assert Did(trace, ops, t - 1, a, CommitReturns) <==> ops[t - 1] == CommitReturns && trace[t - 1].owner == Some(a);
      } else {
        forall n, op | 0 <= n < t ensures !Did(trace, ops, n, a, op) {
          OwnerKnown(trace, ops, n, t - 1);
        }
      }
    }
  }

  lemma FlagStep(s: State, op: Op, a: nat)
    requires Inv(s) && Enabled(s, op) && a < |Apply(s, op).fits|
    ensures var g := Apply(s, op).fits[a];
            if a < |s.fits| then
              && (g.issued <==> s.fits[a].issued || (op == Issue(true) && s.owner == Some(a)))
              && (g.committed <==> s.fits[a].committed || (op == CommitReturns && s.owner == Some(a)))
            else op.Acquire? && !g.issued && !g.committed
  {
    hide Inv;
  }

  /** The owner at any time is one of the Fits there are at any later time. */
  lemma {:induction false} OwnerKnown(trace: seq<State>, ops: seq<Op>, n: nat, t: nat)
    requires Run(trace, ops) && n <= t < |trace|
    ensures trace[n].owner.Some? ==> trace[n].owner.value < |trace[t].fits|
  {
    if n == t {
      RunKeepsInv(trace, ops, n);
      hide Holder, Bracketed;
    } else {
      OwnerKnown(trace, ops, n, t - 1);
      RunKeepsInv(trace, ops, t - 1);
      assert Enabled(trace[t - 1], ops[t - 1]) && trace[t] == Apply(trace[t - 1], ops[t - 1]);
      FitsStay(trace[t - 1], ops[t - 1]);
    }
  }

  lemma FitsStay(s: State, op: Op)
    requires Enabled(s, op)
    ensures |Apply(s, op).fits| >= |s.fits|
  {
  }

  /** A queued fault belongs to a Fit past its fault slot whose command was issued and never came back durable. */
  ghost predicate FaultsMeant(s: State) {
    forall n :: 0 <= n < |s.queue| && s.queue[n].Fault? && s.queue[n].owner < |s.fits| ==>
      var fit := s.fits[s.queue[n].owner];
      fit.issued && !fit.committed && (fit.phase.Ending? || fit.phase.Gone?)
  }

  lemma StepMeans(s: State, op: Op)
    requires Inv(s) && Enabled(s, op) && FaultsMeant(s)
    ensures FaultsMeant(Apply(s, op))
  {
    if s.owner.Some? {
      CurrentOf(s);
    }
    assert forall n :: 0 <= n < |s.queue| ==> s.queue[n].owner < |s.fits|;
    hide Inv, GiveBack, Processed;
    if op.Process? {
      ManagerTakes(s, op.ok);
    } else if op.Cancel? || op.TakeSlot? || op.QueueStart? || op.PauseRefused? {
      GiveBackGone(Current(s));
    }
  }

  lemma IdleMeans()
    ensures FaultsMeant(Idle())
  {
  }

  lemma {:induction false} RunMeans(trace: seq<State>, ops: seq<Op>, t: nat)
    requires Run(trace, ops) && t < |trace|
    ensures FaultsMeant(trace[t])
  {
    hide Inv, Apply, Enabled, FaultsMeant;
    if t == 0 {
      IdleMeans();
    } else {
      RunMeans(trace, ops, t - 1);
      RunKeepsInv(trace, ops, t - 1);
      assert Enabled(trace[t - 1], ops[t - 1]) && trace[t] == Apply(trace[t - 1], ops[t - 1]);
      StepMeans(trace[t - 1], ops[t - 1]);
    }
  }

  /** Once a Fit's end is queued, its fault is queued in front of it exactly when its command was reached and its
      geometry never came back durable. */
  lemma FaultIff(trace: seq<State>, ops: seq<Op>, t: nat, k: nat)
    requires Run(trace, ops) && t < |trace| && k < |trace[t].queue| && trace[t].queue[k].End?
    ensures var a := trace[t].queue[k].owner;
            Fault(a) in trace[t].queue[..k] <==>
              && (exists n :: 0 <= n < t && Did(trace, ops, n, a, Issue(true)))
              && !(exists n :: 0 <= n < t && Did(trace, ops, n, a, CommitReturns))
  {
    var a := trace[t].queue[k].owner;
    FaultBeforeEnd(trace, ops, t, k);
    RecordsIff(trace, ops, t, a);
    RunMeans(trace, ops, t);
    hide Run, Did;
    if Fault(a) in trace[t].queue[..k] {
      var n :| 0 <= n < k && trace[t].queue[..k][n] == Fault(a);
      assert trace[t].queue[n] == Fault(a);
    }
  }

  // ---- A whole Fit -------------------------------------------------------------------------------------------

  ghost predicate Leads(s: State, ops: seq<Op>, t: State)
    decreases |ops|
  {
    if ops == [] then s == t else Enabled(s, ops[0]) && Leads(Apply(s, ops[0]), ops[1..], t)
  }

  lemma {:induction false} LeadsOn(s: State, ops: seq<Op>, t: State, op: Op)
    requires Leads(s, ops, t) && Enabled(t, op)
    ensures Leads(s, ops + [op], Apply(t, op))
    decreases |ops|
  {
    hide Enabled, Apply;
    if ops == [] {
      assert ([] + [op])[1..] == [];
    } else {
      LeadsOn(Apply(s, ops[0]), ops[1..], t, op);
      assert (ops + [op])[1..] == ops[1..] + [op];
    }
  }

  /** The pause is asked for, applied and held. */
  lemma Pauses(s: State) returns (ops: seq<Op>, t: State)
    requires s.owner.None? && !s.closing && s.processed == |s.queue|
    ensures Leads(s, ops, t)
    ensures var a := |s.fits|;
            t == s.(queue := s.queue + [Start(a)], processed := s.processed + 1, applied := s.applied + {a}, owner := Some(a),
                    fits := s.fits + [Fit(Holding, 3, 0, 0, 0, false, false)])
  {
    var a := |s.fits|;
    ops, t := [], s;
    assert Leads(s, ops, t);
    LeadsOn(s, ops, t, Acquire);
    ops, t := ops + [Acquire], Apply(t, Acquire);
    assert t.fits == s.fits + [Fit(Reserving, 0, 0, 0, 0, false, false)];
    t := Takes(s, ops, t);
    ops := ops + [TakeSlot(true)] + [TakeSlot(true)] + [TakeSlot(true)];
    LeadsOn(s, ops, t, QueueStart(true));
    ops, t := ops + [QueueStart(true)], Apply(t, QueueStart(true));
    hide Leads;
    assert t.fits == s.fits + [Fit(Starting, 3, 0, 0, 0, false, false)] && t.queue == s.queue + [Start(a)];
    LeadsOn(s, ops, t, Process(true));
    ops, t := ops + [Process(true)], Apply(t, Process(true));
    LeadsOn(s, ops, t, PauseHeld);
    ops, t := ops + [PauseHeld], Apply(t, PauseHeld);
    assert t.fits == s.fits + [Fit(Holding, 3, 0, 0, 0, false, false)] && t.queue == s.queue + [Start(a)];
  }

  lemma Takes(s: State, ops: seq<Op>, t: State) returns (u: State)
    requires Leads(s, ops, t) && !t.closing && t.fits != [] && t.owner == Some(|t.fits| - 1)
    requires t.fits[|t.fits| - 1] == Fit(Reserving, 0, 0, 0, 0, false, false)
    ensures Leads(s, ops + [TakeSlot(true)] + [TakeSlot(true)] + [TakeSlot(true)], u)
    ensures u == t.(fits := t.fits[|t.fits| - 1 := Fit(Reserving, 3, 0, 0, 0, false, false)])
  {
    hide Leads;
    var a := |t.fits| - 1;
    u := t;
    LeadsOn(s, ops, u, TakeSlot(true));
    u := Apply(u, TakeSlot(true));
    assert u == t.(fits := t.fits[a := Fit(Reserving, 1, 0, 0, 0, false, false)]);
    LeadsOn(s, ops + [TakeSlot(true)], u, TakeSlot(true));
    u := Apply(u, TakeSlot(true));
    assert u == t.(fits := t.fits[a := Fit(Reserving, 2, 0, 0, 0, false, false)]);
    LeadsOn(s, ops + [TakeSlot(true)] + [TakeSlot(true)], u, TakeSlot(true));
    u := Apply(u, TakeSlot(true));
  }

  /** Whenever the gate is free and the manager has caught up, a Fit can run from its pause through its geometry to its
      end: the three entries join the queue in that order and are processed, the geometry is durable, nothing is
      faulted, each slot is used once and the gate is open again. */
  lemma FitCompletes(s: State) returns (ops: seq<Op>, t: State)
    requires s.owner.None? && !s.closing && s.processed == |s.queue|
    ensures Leads(s, ops, t)
    ensures var a := |s.fits|;
            t == s.(queue := s.queue + [Start(a), Commit(a), End(a)], processed := s.processed + 3,
                    applied := s.applied + {a}, durable := s.durable + {a},
                    fits := s.fits + [Fit(Gone, 3, 1, 1, 1, true, true)])
  {
    hide Leads;
    var a := |s.fits|;
    ops, t := Pauses(s);
    LeadsOn(s, ops, t, Issue(true));
    ops, t := ops + [Issue(true)], Apply(t, Issue(true));
    LeadsOn(s, ops, t, SubmitGeometry);
    ops, t := ops + [SubmitGeometry], Apply(t, SubmitGeometry);
    assert t.fits == s.fits + [Fit(Holding, 3, 1, 0, 0, true, false)] && t.queue == s.queue + [Start(a), Commit(a)];
    LeadsOn(s, ops, t, Process(true));
    ops, t := ops + [Process(true)], Apply(t, Process(true));
    LeadsOn(s, ops, t, CommitReturns);
    ops, t := ops + [CommitReturns], Apply(t, CommitReturns);
    assert t.fits == s.fits + [Fit(Holding, 3, 1, 0, 0, true, true)] && t.queue == s.queue + [Start(a), Commit(a)];
    ops, t := Ends(s, ops, t, a);
  }

  lemma Ends(s: State, before: seq<Op>, u: State, a: nat) returns (ops: seq<Op>, t: State)
    requires Leads(s, before, u) && OwnedBy(u, a) && !u.closing && u.processed == |u.queue|
    requires u.fits[a] == Fit(Holding, 3, 1, 0, 0, true, true)
    ensures Leads(s, ops, t)
    ensures t == u.(queue := u.queue + [End(a)], processed := u.processed + 1, owner := None,
                    fits := u.fits[a := Fit(Gone, 3, 1, 1, 1, true, true)])
  {
    hide Leads;
    ops, t := before, u;
    LeadsOn(s, ops, t, ReleaseCommitSlot);
    ops, t := ops + [ReleaseCommitSlot], Apply(t, ReleaseCommitSlot);
    LeadsOn(s, ops, t, ReleaseFaultSlot);
    ops, t := ops + [ReleaseFaultSlot], Apply(t, ReleaseFaultSlot);
    assert t == u.(fits := u.fits[a := Fit(Ending, 3, 1, 0, 1, true, true)]);
    LeadsOn(s, ops, t, ReleasePause);
    ops, t := ops + [ReleasePause], Apply(t, ReleasePause);
    LeadsOn(s, ops, t, Process(true));
    ops, t := ops + [Process(true)], Apply(t, Process(true));
  }
}
