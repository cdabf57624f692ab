/** The unit's rotation object: its deferred restore and its fatal settlement, step by step on the transaction object
    and on its own fields. */
module RotationUnit {
  import opened Basics
  import opened Journal
  import opened Retention
  import opened RetentionLedger
  import opened RetentionSteps
  import opened RetentionInvariant
  import opened RetentionRuns
  import opened PaneRotation
  import opened RotationSettlement
  import opened RotationDriver
  import opened RotationReach
  import opened RotationProgress
  import opened RotationTxn

  class UnitRotation {
    const txn: PaneTxn
    var flipped: bool
    var held: bool
    var ponr: bool
    var sealing: bool
    var streamFailed: bool
    var installed: bool
    var journal: JournalTxn
    var phase: Phase
    var outcome: Outcome
    var settlements: nat

    function View(): Drive
      reads this, txn
    {
      Drive(txn.View(), Driver(flipped, held, ponr, sealing, streamFailed, installed, journal, phase, outcome, settlements))
    }

    ghost predicate Valid()
      reads this, txn
    {
      DriveInv(View()) && !txn.runtime.closed
    }

    constructor (txn: PaneTxn, v: Driver)
      requires DriveInv(Drive(txn.View(), v)) && !txn.runtime.closed
      ensures Valid() && this.txn == txn && View() == Drive(txn.View(), v)
    {
      this.txn := txn;
      flipped, held, ponr, sealing, streamFailed := v.flipped, v.held, v.ponr, v.sealing, v.streamFailed;
      installed, journal, phase, outcome, settlements := v.installed, v.journal, v.phase, v.outcome, v.settlements;
    }

    method EndAs(o: Outcome)
      modifies this`phase, this`outcome, this`settlements
      ensures View() == old(View()).(driver := End(old(View()).driver, o))
    {
      phase := Ended;
      outcome := o;
      settlements := settlements + 1;
    }

    /** Ask the registry to let go; nothing registered is nothing to abort. A refusal passes the point of no return. */
    method DecideRestore()
      requires Valid() && phase.Undoing?
      modifies this, txn
      ensures Valid() && TableOk(old(txn.View())) && View() == Decide(old(View()))
    {
      hide DriveInv, AbortTxn, WorldInv, TableOk;
      ghost var d := View();
      DriveFacts(d);
      DecideOpen(d);
      DecideKeeps(d);
      if ponr || streamFailed {
        phase := Failing;
      } else if !held {
        phase := Replaying;
      } else {
        var ok := txn.AbortPaneTxn();
        if ok {
          phase := Replaying;
          held := false;
        } else {
          AbortFrame(d.world);
          ponr := true;
          phase := Failing;
        }
      }
    }

    /** Abort the journal or arm its rollback, and write what was parked to the predecessor. */
    method ReplayPredecessor(lost: bool, armed: bool, written: bool)
      requires Valid() && phase.Replaying?
      modifies this
      ensures Valid() && View() == Replay(Losing(old(View()), lost), armed, written)
    {
      hide DriveInv, WorldInv;
      ReplayKeeps(View(), lost, armed, written);
      streamFailed := streamFailed || lost;
      if streamFailed {
        phase := Failing;
        return;
      }
      if !flipped {
        EndAs(Restored);
        return;
      }
      if journal.Reserved? {
        journal := JournalAborted;
      } else if journal.NoJournal? && !armed {
        EndAs(Unreplayed);
        return;
      }
      if written {
        phase := Waiting;
      } else {
        EndAs(Unreplayed);
      }
    }

    /** The last boundary of the restored predecessor. */
    method RejoinPredecessor(lost: bool, ok: bool)
      requires Valid() && phase.Waiting?
      modifies this
      ensures Valid() && View() == Rejoin(Losing(old(View()), lost), ok)
    {
      hide DriveInv, WorldInv;
      RejoinKeeps(View(), lost, ok);
      streamFailed := streamFailed || lost;
      if streamFailed {
        phase := Failing;
      } else {
        EndAs(if ok then Restored else Unreplayed);
      }
    }

    /** Hide the route and withdraw the key, fault what is left of it, and end its tails. */
    method FailKey(key: PaneKey, gone: set<PaneKey>, only: Option<nat>)
      requires TableOk(txn.View())
      modifies txn`runtime, txn`registry, txn`provider
      ensures var w := old(txn.View());
              var hidden := w.(provider := Withdraw(w.provider, key), registry := Ineligible(w.registry, key, gone));
              var f := FaultKey(hidden, key, only);
              txn.View() == f.(provider := f.provider.(tails := TailsWithout(f.provider.tails, key)))
    {
      hide Ineligible, FaultIfPresent, PublishFailure, TailsWithout;
      if txn.provider.active == Some(key) {
        txn.provider := txn.provider.(active := None);
      }
      txn.registry := Ineligible(txn.registry, key, gone);
      var _ := txn.FaultKeyLocked(key, only);
      txn.provider := txn.provider.(tails := TailsWithout(txn.provider.tails, key));
    }

    method FailCommittedSuccessor()
      requires TableOk(txn.View())
      modifies txn`runtime, txn`registry, txn`provider
      ensures txn.View() == FailInstalled(old(txn.View()))
    {
      hide Ineligible, FaultKey, TailsWithout, Withdraw, TableOk;
      FailKey(txn.next, {txn.next}, Some(txn.successor));
    }

    method FailRefitPredecessor(fate: SourceFate)
      requires TableOk(txn.View())
      modifies txn`runtime, txn`registry, txn`provider
      ensures txn.View() == FailPredecessor(old(txn.View()), fate)
    {
      hide Ineligible, FaultKey, TailsWithout, Withdraw;
      var key := txn.previous;
      var name := SessionOf(key);
      var gone := match fate
                  case Replaced(taker) => {key, taker}
                  case _ => if name in txn.registry.sessions then txn.registry.sessions[name].routed else {};
      FailKey(key, gone, None);
      if key in txn.runtime.table {
        var g := txn.runtime.table[key];
        txn.runtime := txn.runtime.(gens := txn.runtime.gens[g := txn.runtime.gens[g].(durableRequested := true)]);
      }
    }

    /** Both generations are marked failed where they exist; nothing is cleaned up. */
    method RetainUncertainRefit()
      requires TableOk(txn.View())
      modifies this`held, txn
      ensures View() == old(View()).(world := RetainBoth(old(txn.View()), old(held)),
                                     driver := old(View()).driver.(held := false))
    {
      hide FaultKey, TailsWithout;
      var _ := txn.FaultKeyLocked(txn.previous, None);
      var _ := txn.FaultKeyLocked(txn.next, None);
      if held && !txn.settled {
        txn.SettleAs(Fatal);
        txn.RemoveOwnershipLocked();
      }
      held := false;
      EndAttachments();
    }

    method EndAttachments()
      modifies txn`provider
      ensures var w := old(txn.View());
              var tails := TailsWithout(TailsWithout(w.provider.tails, w.txn.previous), w.txn.next);
              txn.View() == w.(provider := w.provider.(active := None, live := false, tails := tails))
    {
      hide TailsWithout;
      var tails := TailsWithout(TailsWithout(txn.provider.tails, txn.previous), txn.next);
      txn.provider := txn.provider.(active := None, live := false, tails := tails);
    }

    method FailAuthorityLocked(fate: SourceFate)
      requires WorldInv(txn.View()) && !txn.runtime.closed && (held ==> txn.begun)
      modifies txn
      ensures TableOk(old(txn.View())) && txn.View() == FailAuthority(old(txn.View()), installed, held, fate)
    {
      hide WorldInv, FailInstalled, FailPredecessor, FatalSettle;
      ghost var w := txn.View();
      TableOfWorld(w);
      if installed {
        FailCommittedSuccessor();
        return;
      }
      if held {
        FatalSettleKeeps(w);
        var _ := txn.FatalTxn();
      }
      if txn.refit {
        FailRefitPredecessor(fate);
      }
    }

    /** settleFatal: one end for the registry transaction, the journal reservation, the runtimes and the attachments. */
    method SettleFatal(fate: SourceFate)
      requires Valid() && phase.Failing?
      modifies this, txn
      ensures Valid() && phase.Ended? && outcome.Fatal()
      ensures TableOk(old(txn.View())) && View() == Terminated(old(View()), fate)
    {
      hide DriveInv, WorldInv, RetainBoth, FailAuthority, TailsWithout, TableOk;
      ghost var d := View();
      DriveFacts(d);
      TerminatedKeeps(d, fate);
      if txn.refit && fate.Uncertain? {
        RetainUncertainRefit();
        EndAs(Retained);
        return;
      }
      FailAuthorityLocked(fate);
      held := false;
      journal := FatalJournal(journal);
      phase := Reaping;
      EndAttachments();
      EndAs(Reaped);
    }

    /** The deferred restore, from its first test to the end. */
    method RestoreRotation(k: Weather)
      requires Valid() && phase.Undoing?
      modifies this, txn
      ensures Valid() && phase.Ended?
      ensures TableOk(old(txn.View())) && View() == Restore(old(View()), k)
      ensures outcome.Restored? <==> MayRestore(old(View()), k)
      ensures outcome.Retained? ==> old(txn.View()).txn.refit && k.fate.Uncertain?
    {
      hide DriveInv, WorldInv, Decide, Replay, Rejoin, Terminated, TableOk, MayRestore;
      DriveFacts(View());
      RestoredIff(View(), k);
      var waits := held;
      DecideRestore();
      if phase.Replaying? {
        ReplayPredecessor(waits && k.lostAborting, k.armed, k.written);
      }
      if phase.Waiting? {
        RejoinPredecessor(k.lostReplaying, k.ok);
      }
      if phase.Failing? {
        SettleFatal(k.fate);
      }
    }
  }

  /** Nothing stands in the way of bringing the predecessor back: the registry lets go of it, and what a flipped
      holder had parked is written back to it. */
  predicate MayRestore(d: Drive, k: Weather) {
    LetsGo(d, k) &&
    (d.driver.flipped ==> (d.driver.journal.Reserved? || k.armed) && k.written && !k.lostReplaying && k.ok)
  }

  lemma RestoredIff(d: Drive, k: Weather)
    requires DriveInv(d) && d.driver.phase.Undoing? && TableOk(d.world) && !d.world.runtime.closed
    ensures var r := Restore(d, k).driver;
            && r.phase.Ended? && (r.outcome.Restored? <==> MayRestore(d, k))
            && (r.outcome.Retained? ==> d.world.txn.refit && k.fate.Uncertain?)
  {
    RestoreOutcome(d, k);
    hide WorldInv, Restore, MayAbort;
  }

  lemma DriveFacts(d: Drive)
    requires DriveInv(d) && !d.world.runtime.closed
    ensures TableOk(d.world) && WorldInv(d.world) && (d.driver.held ==> d.world.txn.begun)
  {
    hide WorldInv;
    TableOfWorld(d.world);
  }

  lemma TerminatedKeeps(d: Drive, fate: SourceFate)
    requires DriveInv(d) && d.driver.phase.Failing? && !d.world.runtime.closed && TableOk(d.world)
    ensures DriveInv(Terminated(d, fate)) && !Terminated(d, fate).world.runtime.closed
  {
    hide DriveInv, SettleAllFatally, ReapUnit, TableOk;
    TerminateKeeps(d, fate);
    TerminatedOpen(d, fate);
    if SettleAllFatally(d, fate).driver.phase.Reaping? {
      ReapKeeps(SettleAllFatally(d, fate));
      ReapOpen(SettleAllFatally(d, fate));
    }
  }
}
