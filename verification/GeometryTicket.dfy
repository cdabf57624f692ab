/** The owner gate and the ticket's methods, each changing the pane's shared state in place. */
module GeometryTicket {
  import opened Basics
  import opened GeometryBracket

  class PaneFits {
    var queue: seq<Entry>
    var processed: nat
    var applied: set<nat>
    var failed: set<nat>
    var durable: set<nat>
    var owner: Option<nat>
    var fits: seq<Fit>
    var closing: bool

    ghost function View(): State
      reads this
    {
      State(queue, processed, applied, failed, durable, owner, fits, closing)
    }

    constructor ()
      ensures View() == Idle() && Inv(View())
    {
      queue, processed, applied, failed, durable, owner, fits, closing := [], 0, {}, {}, {}, None, [], false;
      new;
      IdleInv();
    }

    /** acquireGeometryOwner: refused while another Fit owns the pane, or once close has begun. */
    method AcquireGeometryOwner() returns (a: Option<nat>)
      requires Inv(View())
      modifies this
      ensures Inv(View())
      ensures a.Some? <==> !old(closing) && old(owner).None?
      ensures View() == if a.Some? then Apply(old(View()), Acquire) else old(View())
      ensures a.Some? ==> owner == a && a == Some(|old(fits)|) && |fits| == |old(fits)| + 1 && fits[..|old(fits)|] == old(fits)
      ensures a.Some? ==> fits[|old(fits)|].phase.Reserving? && fits[|old(fits)|].taken == 0
    {
      hide Inv;
      if closing || owner.Some? {
        return None;
      }
      StepKeepsInv(View(), Acquire);
      a := Some(|fits|);
      owner := a;
      fits := fits + [Fit(Reserving, 0, 0, 0, 0, false, false)];
    }

    /** submitBoundary and submitGeometry: refused exactly when close has begun. */
    method SubmitEntry(e: Entry) returns (ok: bool)
      modifies this`queue
      ensures ok <==> !closing
      ensures queue == old(queue) + if ok then [e] else []
    {
      if closing {
        assert queue + [] == queue;
        return false;
      }
      queue := queue + [e];
      ok := true;
    }

    /** The cancelled Fit queues its own end before it opens the gate and gives back its other slots. */
    method CancelFit(a: nat)
      requires Inv(View()) && owner == Some(a) && Enabled(View(), Cancel)
      modifies this
      ensures Inv(View()) && View() == Apply(old(View()), Cancel)
      ensures owner == None && a < |fits| && fits[a].phase.Gone? && queue == old(queue) + (if closing then [] else [End(a)])
    {
      hide Inv;
      StepKeepsInv(View(), Cancel);
      var ok := SubmitEntry(End(a));
      owner := None;
      fits := fits[a := GiveBack(fits[a])];
    }

    /** The geometry goes to the manager on the commit slot; whatever the queue answers, the slot is spent. */
    method CommitGeometry(a: nat) returns (ok: bool)
      requires Inv(View()) && owner == Some(a) && Enabled(View(), SubmitGeometry)
      modifies this
      ensures Inv(View()) && View() == Apply(old(View()), SubmitGeometry)
      ensures (ok <==> !closing) && queue == old(queue) + (if ok then [Commit(a)] else [])
    {
      hide Inv;
      StepKeepsInv(View(), SubmitGeometry);
      ok := SubmitEntry(Commit(a));
      fits := fits[a := fits[a].(commitUses := fits[a].commitUses + 1)];
    }

    /** Release: the unused commit slot, then the fault if the command may have taken effect without a record, then
        the end of the pause, then the gate. */
    method Release(a: nat)
      requires Inv(View()) && owner == Some(a) && a < |fits| && fits[a].phase.Holding?
      modifies this
      ensures Inv(View()) && owner == None && a < |fits| && fits[a].phase.Gone?
      ensures var fit := old(fits)[a];
              queue == old(queue) +
                       if closing then []
                       else (if fit.issued && !fit.committed then [Fault(a)] else []) + [End(a)]
      ensures var fit := old(fits)[a];
              fits == old(fits)[a := Fit(Gone, 3, 1, 1, 1, fit.issued, fit.committed)]
    {
      hide Inv;
      CurrentOk(View());
      ghost var s1 := Apply(View(), ReleaseCommitSlot);
      StepKeepsInv(View(), ReleaseCommitSlot);
      StepKeepsInv(s1, ReleaseFaultSlot);
      ghost var s2 := Apply(s1, ReleaseFaultSlot);
      StepKeepsInv(s2, ReleasePause);
      var fit := fits[a];
      if fit.issued && !fit.committed {
        var queued := SubmitEntry(Fault(a));
      }
      var ended := SubmitEntry(End(a));
      fits := fits[a := Fit(Gone, 3, 1, 1, 1, fit.issued, fit.committed)];
      owner := None;
      assert View() == Apply(s2, ReleasePause);
    }
  }
}
