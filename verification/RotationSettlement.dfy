/** Settlement of a rotation: once, all or nothing, and never an abort past the seal. */
module RotationSettlement {
  import opened Basics
  import opened Credits
  import opened Journal
  import opened Retention
  import opened RetentionLedger
  import opened RetentionSteps
  import opened RetentionInvariant
  import opened RetentionRuns
  import opened RetentionReach
  import opened PaneRotation

  // ---- Single calls ----------------------------------------------------------------------------------------

  /** An abort that succeeds found the exact predecessor admitted, healthy and not retiring, and leaves it so; the
      registry keeps every route, coordinate and session, and the provider keeps publishing it. */
  lemma AbortKeepsPredecessor(w: World)
    requires Books(w.runtime) && !w.runtime.closed && forall k :: k in w.runtime.table ==> w.runtime.table[k] < |w.runtime.gens|
    requires !w.txn.settled && AbortTxn(w).1 && w.txn.previous != w.txn.next
    ensures var a := AbortTxn(w).0;
            && a.txn.settled && a.txn.disposition == Aborted && a.txn.settlements == w.txn.settlements + 1
            && PredecessorLive(w) && !w.runtime.gens[w.txn.predecessor].retireRequested
            && PredecessorLive(a) && a.runtime.gens[w.txn.predecessor] == w.runtime.gens[w.txn.predecessor]
            && a.provider == w.provider
            && a.registry == RemoveOwnership(w.registry, w.txn)
            && (w.txn.next in a.runtime.table ==>
                  a.runtime.table[w.txn.next] < |a.runtime.gens| && !a.runtime.gens[a.runtime.table[w.txn.next]].admitted)
  {
    hide Accounting, Work, Limits, Funded;
    var r := w.runtime;
    var p := w.txn.predecessor;
    InvTable(r, w.txn.previous);
    if w.txn.next in r.table {
      InvTable(r, w.txn.next);
      var n := w.txn.successor;
      assert n != p;
      var marked := r.(gens := r.gens[n := r.gens[n].(abandoned := true, retireRequested := true)]);
      RetireTouchesOne(marked, n);
    }
  }

  lemma RetireTouchesOne(r: State, g: nat)
    requires g < |r.gens|
    ensures var t := TryRetire(r, g);
            && |t.gens| == |r.gens| && t.gens[g].admitted == r.gens[g].admitted
            && (forall h :: 0 <= h < |r.gens| && h != g ==> t.gens[h] == r.gens[h])
            && (t.table == r.table || t.table == r.table - {r.gens[g].key})
  {
    hide FinishRetire;
    FinishRetireKept(r, g);
    FinishTable(r, g);
  }

  lemma FinishTable(r: State, g: nat)
    requires g < |r.gens|
    ensures FinishRetire(r, g).table == r.table - {r.gens[g].key}
  {
    hide ChargeAccount, DropSource;
  }

  /** Once the seal has been processed, the predecessor is retiring or gone and every abort is refused. */
  lemma NoAbortPastSeal(w: World)
    requires forall k :: k in w.runtime.table ==> w.runtime.table[k] < |w.runtime.gens|
    requires !w.txn.settled
    requires w.txn.sealed || w.txn.previous !in w.runtime.table || w.runtime.table[w.txn.previous] != w.txn.predecessor ||
             w.runtime.gens[w.txn.predecessor].retireRequested
    ensures AbortTxn(w) == (w, false)
  {
  }

  /** A fault of a successor the transaction still owns stays local: no admission is marked, no breaker trips. */
  lemma SuccessorFaultLocal(w: World)
    requires Owned(w) && !w.txn.settled && forall k :: k in w.runtime.table ==> w.runtime.table[k] < |w.runtime.gens|
    ensures FaultSuccessor(w).registry == w.registry && FaultSuccessor(w).provider == w.provider
    ensures FaultSuccessor(w).txn == w.txn
  {
  }

  ghost predicate Owned(w: World) {
    w.registry.broken || (w.txn.next in w.registry.rotationGenerations && w.registry.rotationGenerations[w.txn.next] == w.txn.id)
  }

  /** The whole successor shows in `c` and nothing of the predecessor does: route, admission, coordinate, active key
      and tails. */
  ghost predicate WhollyInstalled(w: World, c: World) {
    && c.registry.sessions == w.registry.sessions[SessionOf(w.txn.next) := w.txn.successorRouter]
    && RouteOf(w.txn.next) in c.registry.admitted && RouteOf(w.txn.previous) !in c.registry.admitted
    && c.registry.admitted[RouteOf(w.txn.next)] == Admission(w.txn.next, false)
    && CoordinateOf(w.txn.next) in c.registry.panes
    && c.registry.panes[CoordinateOf(w.txn.next)] == w.txn.coordinator
    && c.provider.active == Some(w.txn.next)
    && (forall tail :: tail in c.provider.tails ==> tail in w.provider.tails && tail.1 != w.txn.previous)
    && w.txn.successor < |c.runtime.gens| && c.runtime.gens[w.txn.successor].admitted
  }

  /** Commit installs the whole successor or nothing: router, admission, active key and witness switch together
      with the predecessor's tails closed, or every one of them stays as it was and the outcome is fatal. */
  lemma CommitAllOrNothing(w: World)
    requires Owned(w) && !w.txn.settled && w.txn.previous != w.txn.next
    requires forall k :: k in w.runtime.table ==> w.runtime.table[k] < |w.runtime.gens|
    requires RouteOf(w.txn.previous) != RouteOf(w.txn.next)
    ensures var c := Commit(w);
            && c.txn.settled && c.txn.settlements == w.txn.settlements + 1
            && if CommitValid(w) then c.txn.disposition == Committed && WhollyInstalled(w, c)
               else c.txn.disposition == Fatal && c.provider == w.provider && c.registry == RemoveOwnership(w.registry, w.txn)
  {
    hide SingleSessionRoute, Eligible, CommitFault, PublishFailure, WhollyInstalled;
    SuccessorFaultLocal(w);
    if CommitValid(w) {
      InstallIsWhole(w);
    } else {
      hide FaultSuccessor;
    }
  }

  lemma InstallIsWhole(w: World)
    requires CommitValid(w) && forall k :: k in w.runtime.table ==> w.runtime.table[k] < |w.runtime.gens|
    requires RouteOf(w.txn.previous) != RouteOf(w.txn.next)
    ensures WhollyInstalled(w, Install(w))
  {
    hide SingleSessionRoute, Eligible;
    CommitCloses(w);
  }

  lemma CommitCloses(w: World)
    requires CommitValid(w) && forall k :: k in w.runtime.table ==> w.runtime.table[k] < |w.runtime.gens|
    ensures CoordinateOf(w.txn.next) in Install(w).registry.panes
    ensures Install(w).registry.panes[CoordinateOf(w.txn.next)] == w.txn.coordinator
  {
    hide SingleSessionRoute, Eligible;
  }

  // ---- What every reachable state keeps --------------------------------------------------------------------

  predicate SuccessorRouted(w: World) {
    SessionOf(w.txn.previous) in w.registry.sessions &&
    w.registry.sessions[SessionOf(w.txn.previous)].id == w.txn.successorRouter.id
  }

  /** No part of the successor shows before the commit. */
  ghost predicate NoMixture(w: World) {
    var t := w.txn;
    var committed := t.settled && t.disposition == Committed;
    && (w.provider.active == Some(t.next) ==> committed)
    && (RouteOf(t.next) in w.registry.admitted ==> committed)
    && (SuccessorRouted(w) ==> committed)
    && (forall g :: 0 <= g < |w.runtime.gens| && w.runtime.gens[g].key == t.next && w.runtime.gens[g].admitted ==> committed)
    && (committed && w.provider.active.Some? ==> w.provider.active == Some(t.next))
    && (!committed && w.provider.active.Some? ==> w.provider.active == Some(t.previous))
  }

  /** No tail stays open on one generation while another is published. */
  ghost predicate TailsOk(w: World) {
    forall tail :: tail in w.provider.tails ==> w.provider.active in {None, Some(tail.1)}
  }

  /** The transaction settles at most once, and until it does it owns its route and its key. */
  ghost predicate SettledOnce(w: World) {
    && w.txn.settlements == (if w.txn.settled then 1 else 0)
    && (w.txn.settled ==> w.txn.begun)
    && (w.txn.begun && !w.txn.settled ==> Owned(w))
  }

  ghost predicate WorldInv(w: World) {
    && Books(w.runtime)
    && w.txn.previous != w.txn.next && RouteOf(w.txn.previous) != RouteOf(w.txn.next)
    && SessionOf(w.txn.previous) == SessionOf(w.txn.next)
    && SettledOnce(w) && NoMixture(w) && TailsOk(w)
  }

  // ---- Each step keeps it ----------------------------------------------------------------------------------

  lemma RuntimeKeeps(w: World, op: Op)
    requires WorldInv(w) && Possible(w, Runtime(op)) && WellFormed(w.runtime)
    ensures WorldInv(Happen(w, Runtime(op)))
  {
    hide Books, Apply, Enabled;
    TableKeys(w.runtime);
    StepKept(w.runtime, op);
    StepKeepsBooks(w.runtime, op);
    if !(w.txn.settled && w.txn.disposition == Committed) {
      SuccessorStaysOut(w.runtime, op, w.txn.next);
    }
    hide KeptFlags;
  }

  /** A step that does not admit `key` leaves no generation of that key admitted. */
  lemma SuccessorStaysOut(s: State, op: Op, key: PaneKey)
    requires WellFormed(s) && Enabled(s, op) && KeptFlags(s, Apply(s, op), Admits(op))
    requires Admits(op) != Some(key)
    requires forall g :: 0 <= g < |s.gens| && s.gens[g].key == key ==> !s.gens[g].admitted
    ensures var t := Apply(s, op);
            forall g :: 0 <= g < |t.gens| && t.gens[g].key == key ==> !t.gens[g].admitted
  {
    hide Apply, Enabled, WellFormed;
  }

  /** Publishing a failure touches the registry alone, and never shows a route or a session it did not have. */
  lemma PublishFrame(w: World, key: PaneKey)
    ensures var p := PublishFailure(w, key);
            && p == w.(registry := p.registry)
            && p.registry.sessions == w.registry.sessions && p.registry.panes == w.registry.panes
            && p.registry.closing == w.registry.closing
            && (forall route :: route in p.registry.admitted ==> route in w.registry.admitted)
            && (Owned(w) ==> Owned(p))
  {
  }

  lemma FaultedRuntime(w: World, key: PaneKey, only: Option<nat>)
    requires Books(w.runtime) && !w.runtime.closed
    requires forall k :: k in w.runtime.table ==> w.runtime.table[k] < |w.runtime.gens|
    ensures var r := FaultIfPresent(w.runtime, key, only).0;
            && Books(r) && !r.closed && |r.gens| == |w.runtime.gens| && r.table == w.runtime.table
            && r.options == w.runtime.options
            && forall g :: 0 <= g < |r.gens| ==>
                 && r.gens[g].key == w.runtime.gens[g].key && r.gens[g].admitted == w.runtime.gens[g].admitted
                 && r.gens[g].live == w.runtime.gens[g].live
  {
    hide Accounting, Work, Limits, Funded;
    if key in w.runtime.table {
      InvTable(w.runtime, key);
      FaultKeeps(w.runtime, key);
    }
  }

  /** A fault, wherever it lands, leaves the provider and the transaction alone and shows nothing new. */
  lemma FaultKeyKeeps(w: World, key: PaneKey, only: Option<nat>)
    requires WorldInv(w) && !w.runtime.closed
    requires forall k :: k in w.runtime.table ==> w.runtime.table[k] < |w.runtime.gens|
    ensures var f := FaultKey(w, key, only);
            && WorldInv(f) && !f.runtime.closed && f.provider == w.provider && f.txn == w.txn
            && f.runtime.table == w.runtime.table && |f.runtime.gens| == |w.runtime.gens|
            && (forall route :: route in f.registry.admitted ==> route in w.registry.admitted)
            && f.registry.sessions == w.registry.sessions
  {
    hide Books;
    FaultedRuntime(w, key, only);
    PublishFrame(w.(runtime := FaultIfPresent(w.runtime, key, only).0), key);
    hide FaultIfPresent, PublishFailure;
  }

  lemma SettleFatallyKeeps(w: World)
    requires WorldInv(w) && !w.runtime.closed && w.txn.begun && !w.txn.settled
    requires forall k :: k in w.runtime.table ==> w.runtime.table[k] < |w.runtime.gens|
    ensures WorldInv(SettleFatally(w)) && !SettleFatally(w).runtime.closed
    ensures SettleFatally(w).runtime.table == w.runtime.table && |SettleFatally(w).runtime.gens| == |w.runtime.gens|
    ensures SettleFatally(w).provider == w.provider
  {
    hide Books;
    SuccessorFaultLocal(w);
    FaultKeyKeeps(w, w.txn.next, Some(w.txn.successor));
    hide FaultKey;
  }

  lemma InstallKeeps(w: World)
    requires WorldInv(w) && !w.runtime.closed && w.txn.begun && !w.txn.settled && CommitValid(w)
    requires forall k :: k in w.runtime.table ==> w.runtime.table[k] < |w.runtime.gens|
    ensures WorldInv(Install(w))
  {
    hide Accounting, Work, Limits, Funded, SingleSessionRoute, Eligible;
    var n := w.txn.successor;
    FlagsKeep(w.runtime, n, w.runtime.gens[n].(admitted := true));
  }

  lemma AbortTxnKeeps(w: World)
    requires WorldInv(w) && !w.runtime.closed && w.txn.begun
    requires forall k :: k in w.runtime.table ==> w.runtime.table[k] < |w.runtime.gens|
    ensures WorldInv(AbortTxn(w).0)
  {
    hide Accounting, Work, Limits, Funded;
    if !w.txn.settled && AbortTxn(w).1 {
      AbortKeeps(w.runtime, w.txn.previous, w.txn.predecessor, w.txn.next, w.txn.successor, true);
      if w.txn.next in w.runtime.table {
        InvTable(w.runtime, w.txn.next);
        var r := w.runtime;
        var n := w.txn.successor;
        RetireTouchesOne(r.(gens := r.gens[n := r.gens[n].(abandoned := true, retireRequested := true)]), n);
      }
    }
  }

  lemma CommitKeeps(w: World)
    requires WorldInv(w) && !w.runtime.closed && w.txn.begun
    requires forall k :: k in w.runtime.table ==> w.runtime.table[k] < |w.runtime.gens|
    ensures WorldInv(Commit(w)) && Commit(w).txn.settled
  {
    hide Books, CommitValid, Install, SettleFatally;
    if !w.txn.settled {
      if CommitValid(w) {
        InstallKeeps(w);
      } else {
        SettleFatallyKeeps(w);
      }
    }
    SettlesIn(w);
  }

  lemma SettlesIn(w: World)
    requires forall k :: k in w.runtime.table ==> w.runtime.table[k] < |w.runtime.gens|
    ensures Install(w).txn.settled && SettleFatally(w).txn.settled
  {
    hide Admit, Routed, FaultSuccessor;
  }

  lemma EnvKeeps(w: World, step: Env)
    requires WorldInv(w) && Possible(w, step) && WellFormed(w.runtime)
    ensures WorldInv(Happen(w, step))
  {
    hide Books;
    match step {
      case Runtime(op) => RuntimeKeeps(w, op);
      case CloseRegistry => RegistryStepKeeps(w, step);
      case AdmitSibling(_) => RegistryStepKeeps(w, step);
      case Readmit(_) => RegistryStepKeeps(w, step);
      case Reroute(_) => RegistryStepKeeps(w, step);
      case FailurePublished(key) => PublishFrame(w, key); hide PublishFailure;
      case _ => ProviderStepKeeps(w, step);
    }
  }

  /** What other sessions and a closing broker do to the registry. */
  lemma RegistryStepKeeps(w: World, step: Env)
    requires WorldInv(w) && Possible(w, step) && WellFormed(w.runtime)
    requires step.CloseRegistry? || step.AdmitSibling? || step.Readmit? || step.Reroute?
    ensures WorldInv(Happen(w, step))
  {
    hide Books, WellFormed, Apply, Enabled;
  }

  /** What attachments, the unit and the initial recording do around the transaction. */
  lemma ProviderStepKeeps(w: World, step: Env)
    requires WorldInv(w) && Possible(w, step) && WellFormed(w.runtime)
    requires step.InitialSettles? || step.Attach? || step.Detach? || step.UnitDies? || step.Reap? || step.CloseTails?
    ensures WorldInv(Happen(w, step))
  {
    hide Books, WellFormed, Apply, Enabled, PublishFailure;
  }

  // ---- Beginning -------------------------------------------------------------------------------------------

  /** A transaction that begins starts from its assumptions with nothing of its successor visible; one that does not
      changes nothing. */
  lemma BeginStarts(w: World)
    requires WorldInv(w) && WellFormed(w.runtime) && !w.txn.begun
    ensures var b := Begin(w);
            && WorldInv(b)
            && (b.txn.begun ==> AssumptionsHold(b) && !b.runtime.gens[b.txn.successor].admitted && !b.txn.settled)
            && (!b.txn.begun ==> b == w)
  {
    hide WorldInv, AssumptionsHold, Captured, Inherit, Create, WellFormed;
    if CanBegin(w) {
      ProvisionalRuntime(w);
      var shared := Inherit(Create(w.runtime, w.txn.next, false), w.txn.previous, w.txn.next);
      ProvisionalKeeps(w, shared);
    }
  }

  lemma ProvisionalRuntime(w: World)
    requires WorldInv(w) && CanBegin(w)
    ensures forall k :: k in Create(w.runtime, w.txn.next, false).table ==>
              Create(w.runtime, w.txn.next, false).table[k] < |Create(w.runtime, w.txn.next, false).gens|
    ensures var s := Inherit(Create(w.runtime, w.txn.next, false), w.txn.previous, w.txn.next);
            && Books(s) && |s.gens| == |w.runtime.gens| + 1 && !s.gens[|w.runtime.gens|].admitted
            && forall g :: 0 <= g < |s.gens| && s.gens[g].key == w.txn.next ==> !s.gens[g].admitted
  {
    hide Accounting, Work, Limits, Funded, SoleWitness;
    CreateKeeps(w.runtime, w.txn.next, false);
    var created := Create(w.runtime, w.txn.next, false);
    InvWellFormed(created);
    InheritKeeps(created, w.txn.previous, w.txn.next);
    InheritAdmits(created, w.txn.previous, w.txn.next);
    hide Inherit;
  }

  lemma ProvisionalKeeps(w: World, shared: State)
    requires WorldInv(w) && !w.txn.begun && CanBegin(w) && Books(shared)
    requires forall g :: 0 <= g < |shared.gens| && shared.gens[g].key == w.txn.next ==> !shared.gens[g].admitted
    ensures var owned := w.registry.(rotations := w.registry.rotations[RouteOf(w.txn.previous) := w.txn.id],
                                     rotationGenerations := w.registry.rotationGenerations[w.txn.next := w.txn.id]);
            WorldInv(w.(runtime := shared, registry := owned, txn := Captured(w)))
            && !Captured(w).settled && Captured(w).begun && Captured(w).successor == |w.runtime.gens|
  {
    hide Books, SoleWitness, SameRefitCoordinate, SameRotationCoordinate, RoomForGeneration;
  }

  lemma InheritAdmits(s: State, previous: PaneKey, next: PaneKey)
    requires forall k :: k in s.table ==> s.table[k] < |s.gens|
    ensures var t := Inherit(s, previous, next);
            && t.closed == s.closed && |t.gens| == |s.gens|
            && forall g :: 0 <= g < |s.gens| ==> t.gens[g].key == s.gens[g].key && t.gens[g].admitted == s.gens[g].admitted
  {
    hide Credit.Plus, Options.FitsSource;
  }
}
