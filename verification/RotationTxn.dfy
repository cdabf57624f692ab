/** The transaction object's methods, each changing the registry, the provider and its own flags in place. */
module RotationTxn {
  import opened Basics
  import opened Journal
  import opened Retention
  import opened RetentionLedger
  import opened RetentionSteps
  import opened RetentionInvariant
  import opened RetentionRuns
  import opened PaneRotation
  import opened RotationSettlement
  import opened RotationDriver
  import opened RotationProgress

  class PaneTxn {
    const begun: bool
    const id: nat
    const previous: PaneKey
    const next: PaneKey
    const refit: bool
    const session: nat
    const successorRouter: Router
    const coordinator: nat
    const predecessor: nat
    const successor: nat
    const witnesses: seq<PaneKey>
    var bootstrapAttempted: bool
    var initial: Option<bool>
    var published: bool
    var validated: bool
    var sealed: bool
    var settled: bool
    var disposition: Disposition
    var settlements: nat
    var runtime: State
    var registry: Registry
    var provider: Provider

    function View(): World
      reads this
    {
      World(runtime, registry, provider,
            Txn(begun, id, previous, next, refit, session, successorRouter, coordinator, predecessor, successor, witnesses,
                bootstrapAttempted, initial, published, validated, sealed, settled, disposition, settlements))
    }

    ghost predicate Valid()
      reads this
    {
      WorldInv(View()) && !runtime.closed
    }

    constructor (w: World)
      requires WorldInv(w) && !w.runtime.closed
      ensures Valid() && View() == w
    {
      var t := w.txn;
      begun, id, previous, next, refit, session := t.begun, t.id, t.previous, t.next, t.refit, t.session;
      successorRouter, coordinator, predecessor, successor := t.successorRouter, t.coordinator, t.predecessor, t.successor;
      witnesses, bootstrapAttempted, initial, published := t.witnesses, t.bootstrapAttempted, t.initial, t.published;
      validated, sealed, settled, disposition := t.validated, t.sealed, t.settled, t.disposition;
      settlements, runtime, registry, provider := t.settlements, w.runtime, w.registry, w.provider;
    }

    method ValidateTxn() returns (ok: bool)
      requires Valid()
      modifies this`validated
      ensures Valid() && View() == Validate(old(View())) && (ok <==> MayValidate(old(View()))) && (ok ==> validated)
    {
      MayValidateIff(View());
      hide Books, AssumptionsHold, ProviderValid, MayValidate;
      if settled || !bootstrapAttempted || !ProviderValid(View()) || initial != Some(true) || !AssumptionsHold(View()) {
        return false;
      }
      validated := true;
      ok := true;
    }

    /** Record the retiring boundary that came back green. */
    method MarkSealed()
      requires Valid()
      modifies this`sealed
      ensures Valid() && View() == RecordSeal(old(View()))
    {
      hide Books;
      if validated && !settled {
        sealed := true;
      }
    }

    method RemoveOwnershipLocked()
      modifies this`registry
      ensures registry == RemoveOwnership(old(registry), View().txn)
    {
      registry := registry.(rotations := registry.rotations - {RouteOf(previous)},
                            rotationGenerations := registry.rotationGenerations - {next});
    }

    /** The outcome is recorded once. */
    method SettleAs(d: Disposition)
      modifies this`settled, this`disposition, this`settlements
      ensures View() == old(View()).(txn := PaneRotation.Settle(old(View()).txn, d))
    {
      settled := true;
      disposition := d;
      settlements := settlements + 1;
    }

    /** Fault the key that still has a generation, or the one meant, and publish it under the same locks. */
    method FaultKeyLocked(key: PaneKey, only: Option<nat>) returns (winner: bool)
      requires TableOk(View())
      modifies this`runtime, this`registry
      ensures View() == FaultKey(old(View()), key, only)
    {
      hide CommitFault, PublishFailure;
      winner := false;
      if key in runtime.table && (only.None? || only.value == runtime.table[key]) {
        var (faulted, won) := CommitFault(runtime, key);
        runtime := faulted;
        winner := won;
        if winner {
          PublishFrame(View(), key);
          registry := PublishFailure(View(), key).registry;
        }
      }
    }

    /** Classify the fault of the successor while the transaction still owns it, then let go. */
    method SettleFatal()
      requires Valid() && begun && !settled
      modifies this
      ensures Valid() && View() == SettleFatally(old(View())) && disposition == Fatal && settled
    {
      hide Books, FaultKey;
      TableOfWorld(View());
      SettleFatallyKeeps(View());
      var _ := FaultKeyLocked(next, Some(successor));
      SettleAs(Fatal);
      RemoveOwnershipLocked();
    }

    /** Fatal is idempotent: a settled transaction keeps its outcome. */
    method FatalTxn() returns (d: Disposition)
      requires Valid() && begun
      modifies this
      ensures Valid() && View() == FatalSettle(old(View())) && d == disposition
    {
      hide WorldInv, SettleFatally;
      TableOfWorld(View());
      if !settled {
        SettleFatal();
      }
      d := disposition;
    }

    /** Commit: recheck everything under the locks, then install the whole successor or fault it. */
    method CommitTxn() returns (d: Disposition)
      requires Valid() && begun
      modifies this
      ensures Valid() && View() == Commit(old(View())) && d == disposition
      ensures old(settled) ==> View() == old(View())
      ensures !old(settled) ==> (d == Committed <==> MayCommit(old(View()))) && (d == Fatal <==> !MayCommit(old(View())))
      ensures !old(settled) ==> if d == Committed then WhollyInstalled(old(View()), View()) else provider == old(provider)
    {
      TableOfWorld(View());
      if !settled {
        CommitsIff(View());
      }
      hide WorldInv, CommitValid, MayCommit, WhollyInstalled, SettleFatally, Install, Admit;
      if settled {
        return disposition;
      }
      if !CommitValid(View()) {
        SettleFatal();
        return Fatal;
      }
      InstallKeeps(View());
      InstallOpen(View());
      InstallLocked();
      d := Committed;
    }

    /** The successor's admission, routes, active key and witness switch and the predecessor's tails close, all under
        the same locks. */
    method InstallLocked()
      requires next in runtime.table ==> runtime.table[next] < |runtime.gens|
      modifies this
      ensures View() == Install(old(View())) && disposition == Committed
    {
      hide Admit, Routed, TailsWithout, RemoveOwnership, Install;
      ghost var begun := View();
      runtime := Admit(runtime, next);
      RouteSuccessorLocked();
      published := true;
      provider := provider.(witnesses := provider.witnesses + [next], active := Some(next),
                            tails := TailsWithout(provider.tails, previous));
      SettleAs(Committed);
      SameOwnership(registry, begun.txn, View().txn);
      RemoveOwnershipLocked();
      Installed(begun, View());
    }

    method RouteSuccessorLocked()
      modifies this`registry
      ensures registry == Routed(old(registry), View().txn)
    {
      var panes := registry.panes;
      if refit {
        panes := panes - {CoordinateOf(previous)};
        panes := panes[CoordinateOf(next) := coordinator];
      }
      var admitted := registry.admitted - {RouteOf(previous)};
      admitted := admitted[RouteOf(next) := Admission(next, false)];
      registry := registry.(sessions := registry.sessions[SessionOf(next) := successorRouter], panes := panes,
                            admitted := admitted);
    }

    /** Abort: only while retention proves the exact predecessor abortable. */
    method AbortPaneTxn() returns (ok: bool)
      requires Valid() && begun
      modifies this
      ensures Valid() && (View(), ok) == AbortTxn(old(View()))
      ensures !old(settled) ==> (ok <==> MayAbort(old(View())))
    {
      hide Books;
      TableInside(runtime);
      AbortOpen(runtime, previous, predecessor, next, successor);
      AbortTxnKeeps(View());
      hide WorldInv, AbortRotation;
      if settled {
        return disposition == Aborted;
      }
      if sealed {
        return false;
      }
      var (abandoned, allowed) := AbortRotation(runtime, previous, predecessor, next, successor, true);
      if !allowed {
        return false;
      }
      runtime := abandoned;
      SettleAs(Aborted);
      RemoveOwnershipLocked();
      ok := true;
    }
  }

  lemma SameOwnership(g: Registry, t: Txn, u: Txn)
    requires t.previous == u.previous && t.next == u.next
    ensures RemoveOwnership(g, t) == RemoveOwnership(g, u)
  {
  }

  /** The installed state, part by part. */
  lemma Installed(w: World, t: World)
    requires w.txn.next in w.runtime.table ==> w.runtime.table[w.txn.next] < |w.runtime.gens|
    requires t.runtime == Admit(w.runtime, w.txn.next)
    requires t.registry == RemoveOwnership(Routed(w.registry, w.txn), w.txn)
    requires t.provider == w.provider.(active := Some(w.txn.next), witnesses := w.provider.witnesses + [w.txn.next],
                                       tails := TailsWithout(w.provider.tails, w.txn.previous))
    requires t.txn == w.txn.(settled := true, disposition := Committed, settlements := w.txn.settlements + 1,
                             published := true)
    ensures t == Install(w)
  {
    hide Admit, Routed, RemoveOwnership, TailsWithout;
  }

  lemma InstallOpen(w: World)
    requires forall k :: k in w.runtime.table ==> w.runtime.table[k] < |w.runtime.gens|
    ensures Install(w).runtime.closed == w.runtime.closed
  {
    AdmitOpen(w.runtime, w.txn.next);
  }

  lemma AdmitOpen(r: State, key: PaneKey)
    requires key in r.table ==> r.table[key] < |r.gens|
    ensures Admit(r, key).closed == r.closed
  {
  }

  lemma TableInside(s: State)
    requires Books(s) && !s.closed
    ensures forall k :: k in s.table ==> s.table[k] < |s.gens|
  {
    hide Accounting, Work, Limits;
    InvWellFormed(s);
  }

  lemma TableOfWorld(w: World)
    requires WorldInv(w) && !w.runtime.closed
    ensures forall k :: k in w.runtime.table ==> w.runtime.table[k] < |w.runtime.gens|
  {
    hide Books;
    TableInside(w.runtime);
  }

  lemma AbortOpen(r: State, oldKey: PaneKey, predecessor: nat, newKey: PaneKey, successor: nat)
    requires forall k :: k in r.table ==> r.table[k] < |r.gens|
    ensures AbortRotation(r, oldKey, predecessor, newKey, successor, true).0.closed == r.closed
  {
  }
}
