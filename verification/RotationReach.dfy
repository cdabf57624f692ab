/** What holds of every run of a rotation's driver: one settlement, one outcome everything agrees on, and a restore
    that always ends. */
module RotationReach {
  import opened Basics
  import opened Retention
  import opened RetentionSteps
  import opened RetentionInvariant
  import opened PaneRotation
  import opened RotationSettlement
  import opened RotationDriver

  // ---- Every run -----------------------------------------------------------------------------------------------

  /** A rotation about to start: nothing captured, nothing registered, nothing settled. */
  ghost predicate Starts(d: Drive) {
    && WorldInv(d.world) && !d.world.txn.begun && !d.world.txn.sealed
    && d.driver == Driver(false, false, false, false, false, false, NoJournal, Working, Restored, 0)
  }

  ghost predicate Run(trace: seq<Drive>, moves: seq<Move>) {
    && |trace| == |moves| + 1 && Starts(trace[0])
    && forall i :: 0 <= i < |moves| ==> Moved(trace[i], moves[i], trace[i + 1])
  }

  ghost predicate Moved(d: Drive, m: Move, e: Drive) {
    CanMove(d, m) && (WellFormed(d.world.runtime) ==> e == Advance(d, m))
  }

  lemma {:induction false} RunKeepsDrive(trace: seq<Drive>, moves: seq<Move>, i: nat)
    requires Run(trace, moves) && i < |trace|
    ensures DriveInv(trace[i])
    ensures i < |moves| ==> WellFormed(trace[i].world.runtime)
  {
    hide Books, WellFormed, Advance;
    if i > 0 {
      RunKeepsDrive(trace, moves, i - 1);
      assert Moved(trace[i - 1], moves[i - 1], trace[i]);
      MoveKeeps(trace[i - 1], moves[i - 1]);
    }
    if i < |moves| {
      assert Moved(trace[i], moves[i], trace[i + 1]);
      InvWellFormed(trace[i].world.runtime);
    }
  }

  /** In every run the driver settles at most once, and when it has, everything it began has one end and they agree.
      It succeeded, and the registry and the journal committed; or it restored the predecessor, which was never
      sealed and is still the only one published, with the registry's transaction aborted, the journal's undone and no
      failure of the stream recorded while settling; or it failed, and then nothing is published any more, unless only
      the replay failed. No part of the successor ever shows unless the whole commit happened. */
  lemma EveryRotation(trace: seq<Drive>, moves: seq<Move>, i: nat)
    requires Run(trace, moves) && i < |trace|
    ensures var w := trace[i].world;
            var v := trace[i].driver;
            && v.settlements == (if v.phase.Ended? then 1 else 0) && w.txn.settlements == (if w.txn.settled then 1 else 0)
            && (v.phase.Ended? ==> (w.txn.begun ==> w.txn.settled) && (v.journal.Open() ==> v.outcome.Succeeded? || v.outcome.Retained?))
            && (v.phase.Ended? && v.outcome.Succeeded? ==> WasCommitted(w) && v.journal.JournalCommitted?)
            && (v.phase.Ended? && v.outcome.Restored? ==> !v.streamFailed)
            && (v.phase.Ended? && (v.outcome.Restored? || v.outcome.Unreplayed?) ==>
                  && !v.ponr && (w.txn.begun ==> WasAborted(w)) && v.journal.Undone()
                  && (w.provider.active.Some? ==> w.provider.active == Some(w.txn.previous)))
            && (v.phase.Ended? && (v.outcome.Reaped? || v.outcome.Retained?) ==> Detached(w))
            && (w.provider.active == Some(w.txn.next) || RouteOf(w.txn.next) in w.registry.admitted || SuccessorRouted(w) ==>
                  WasCommitted(w))
            && (WasCommitted(w) && w.provider.active.Some? ==> w.provider.active == Some(w.txn.next))
            && TailsOk(w)
  {
    hide Books;
    RunKeepsDrive(trace, moves, i);
  }

  // ---- The deferred restore always ends ------------------------------------------------------------------------

  /** The most moves of its own a settling driver still makes. */
  function Rank(p: Phase): nat {
    match p
    case Working => 6
    case Undoing => 5
    case Replaying => 4
    case Waiting => 3
    case Failing => 2
    case Reaping => 1
    case Ended => 0
  }

  /** Where each of its own moves takes a settling driver. */
  lemma OwnPhases(d: Drive, armed: bool, written: bool, ok: bool, fate: SourceFate)
    requires TableOk(d.world)
    ensures var p := Decide(d).driver.phase; p.Replaying? || p.Failing?
    ensures var p := Replay(d, armed, written).driver.phase; p.Waiting? || p.Failing? || p.Ended?
    ensures var p := Rejoin(d, ok).driver.phase; p.Failing? || p.Ended?
    ensures var p := SettleAllFatally(d, fate).driver.phase; p.Reaping? || p.Ended?
  {
    hide AbortTxn, RetainBoth, FailAuthority;
  }

  lemma OwnMoveAdvances(d: Drive, m: Move)
    requires CanMove(d, m) && WellFormed(d.world.runtime) && Settling(m)
    ensures Rank(Advance(d, m).driver.phase) < Rank(d.driver.phase) && !Advance(d, m).driver.phase.Working?
    ensures !d.driver.phase.Ended?
  {
    hide Decide, Replay, Rejoin, SettleAllFatally, Happen, Possible;
    match m {
      case TryAbort => OwnPhases(d, true, true, true, Uncertain);
      case TryReplay(armed, written) => OwnPhases(d, armed, written, true, Uncertain);
      case TryRejoin(ok) => OwnPhases(d, true, true, ok, Uncertain);
      case Terminate(fate) => OwnPhases(d, true, true, true, fate);
      case ReapNow =>
    }
  }

  lemma OthersStay(d: Drive, m: Move)
    requires CanMove(d, m) && WellFormed(d.world.runtime) && !Settling(m) && !d.driver.phase.Working?
    ensures Advance(d, m).driver.phase == d.driver.phase && (d.driver.phase.Ended? ==> Advance(d, m).driver == d.driver)
  {
    hide Happen, Possible, WellFormed;
  }

  /** Its own moves bring a settling driver nearer to its end; nobody else's move it. */
  lemma SettlingAdvances(d: Drive, m: Move)
    requires CanMove(d, m) && WellFormed(d.world.runtime) && !d.driver.phase.Working?
    ensures var e := Advance(d, m);
            && (if Settling(m) then Rank(e.driver.phase) < Rank(d.driver.phase) else e.driver.phase == d.driver.phase)
            && (d.driver.phase.Ended? ==> e.driver == d.driver)
            && !e.driver.phase.Working?
  {
    hide CanMove, Advance, WellFormed;
    if Settling(m) {
      OwnMoveAdvances(d, m);
    } else {
      OthersStay(d, m);
    }
  }

  /** Some settling move is open to a driver that has left its work and not ended. */
  lemma NeverStuck(d: Drive)
    requires !d.world.runtime.closed && !d.driver.phase.Working? && !d.driver.phase.Ended?
    ensures exists m :: Settling(m) && CanMove(d, m)
  {
    var m := match d.driver.phase
             case Undoing => TryAbort
             case Replaying => TryReplay(true, true)
             case Waiting => TryRejoin(true)
             case Failing => Terminate(Uncertain)
             case _ => ReapNow;
    assert Settling(m) && CanMove(d, m);
  }

  function OwnMoves(): Move -> bool {
    (m: Move) => Settling(m)
  }

  /** Whatever everyone else does meanwhile, a driver that has entered its deferred restore ends within five of its own
      moves, is never stuck before, and never changes its outcome after. */
  lemma {:induction false} RestoreEnds(trace: seq<Drive>, moves: seq<Move>, i: nat, j: nat)
    requires Run(trace, moves) && i <= j < |trace| && !trace[i].driver.phase.Working?
    ensures !trace[j].driver.phase.Working?
    ensures Count(moves[i..j], OwnMoves()) + Rank(trace[j].driver.phase) <= Rank(trace[i].driver.phase) <= 5
    ensures trace[i].driver.phase.Ended? ==> trace[j].driver == trace[i].driver
    ensures !trace[j].driver.phase.Ended? && !trace[j].world.runtime.closed ==>
              exists m :: Settling(m) && CanMove(trace[j], m)
  {
    hide Books, DriveInv, Advance, CanMove, WellFormed, Rank;
    if i < j {
      RestoreEnds(trace, moves, i, j - 1);
      RunKeepsDrive(trace, moves, j - 1);
      assert Moved(trace[j - 1], moves[j - 1], trace[j]);
      SettlingAdvances(trace[j - 1], moves[j - 1]);
      assert moves[i..j] == moves[i..j - 1] + [moves[j - 1]];
      CountAppend(moves[i..j - 1], moves[j - 1], OwnMoves());
    } else {
      RankBound(trace[i].driver.phase);
      assert moves[i..j] == [];
    }
    if !trace[j].driver.phase.Ended? && !trace[j].world.runtime.closed {
      NeverStuck(trace[j]);
    }
  }

  lemma RankBound(p: Phase)
    requires !p.Working?
    ensures Rank(p) <= 5
  {
  }

  // ---- When a restore restores ---------------------------------------------------------------------------------

  /** What a restore meets on its way: the stream's failures while the abort and the replay settle, the journal's and
      the registry's answers, and the fate of a refit's source. */
  datatype Weather = Weather(lostAborting: bool, armed: bool, written: bool, lostReplaying: bool, ok: bool, fate: SourceFate)

  function Losing(d: Drive, lost: bool): Drive {
    d.(driver := d.driver.(streamFailed := d.driver.streamFailed || lost))
  }

  /** The restore up to its verdict, with nobody in between. Without a transaction to settle it waits for nothing. */
  function Verdict(d: Drive, k: Weather): (e: Drive)
    requires TableOk(d.world)
    ensures TableOk(e.world)
  {
    var one := Decide(d);
    var two := if one.driver.phase.Replaying? then Replay(Losing(one, d.driver.held && k.lostAborting), k.armed, k.written)
               else one;
    if two.driver.phase.Waiting? then Rejoin(Losing(two, k.lostReplaying), k.ok) else two
  }

  function Terminated(d: Drive, fate: SourceFate): Drive
    requires TableOk(d.world)
  {
    var settled := SettleAllFatally(d, fate);
    if settled.driver.phase.Reaping? then ReapUnit(settled) else settled
  }

  /** The whole deferred restore. */
  function Restore(d: Drive, k: Weather): Drive
    requires TableOk(d.world)
  {
    var v := Verdict(d, k);
    if v.driver.phase.Failing? then Terminated(v, k.fate) else v
  }

  /** A restore brings the predecessor back exactly when the point of no return was not passed, no failure of the
      stream was recorded while settling, the registry let go of what it had begun, and what a flipped holder had
      parked was written back. */
  lemma RestoresIff(d: Drive, k: Weather)
    requires DriveInv(d) && d.driver.phase.Undoing? && TableOk(d.world)
    ensures var v := d.driver;
            var r := Restore(d, k).driver;
            r.phase.Ended? && (r.outcome.Restored? <==>
              && !v.ponr && !v.streamFailed && (v.held ==> AbortTxn(d.world).1 && !k.lostAborting)
              && (v.flipped ==> (v.journal.Reserved? || k.armed) && k.written && !k.lostReplaying && k.ok))
  {
    hide WorldInv, AbortTxn, Terminated;
    if Verdict(d, k).driver.phase.Failing? {
      TerminatedEnds(Verdict(d, k), k.fate);
    }
  }

  lemma TerminatedEnds(d: Drive, fate: SourceFate)
    requires TableOk(d.world)
    ensures Terminated(d, fate).driver.phase.Ended? && Terminated(d, fate).driver.outcome.Fatal()
  {
    hide RetainBoth, FailAuthority;
  }

  /** A failure of the stream recorded while a granted abort settles ends the rotation fatally all the same: the
      registry's transaction stays aborted, the journal's reservation is failed and the unit is reaped. */
  lemma LostStreamOverridesAbort(d: Drive, k: Weather)
    requires DriveInv(d) && d.driver.phase.Undoing? && !d.world.runtime.closed && TableOk(d.world)
    requires !d.driver.ponr && !d.driver.streamFailed && d.driver.held && AbortTxn(d.world).1 && k.lostAborting
    ensures var r := Restore(d, k);
            && r.driver.phase.Ended? && r.driver.outcome.Reaped? && WasAborted(r.world)
            && r.driver.journal.JournalFatal? && Detached(r.world)
  {
    AbortTxnKeeps(d.world);
    AbortFrame(d.world);
    hide AbortTxn, FailPredecessor, FailInstalled;
    assert !d.world.txn.refit;
    ClosedKeeps(AbortTxn(d.world).0);
  }

  lemma AbortOpens(w: World)
    requires TableOk(w)
    ensures AbortTxn(w).0.runtime.closed == w.runtime.closed
  {
  }

  lemma RestoreKeeps(d: Drive, k: Weather)
    requires DriveInv(d) && d.driver.phase.Undoing? && !d.world.runtime.closed && TableOk(d.world)
    ensures DriveInv(Restore(d, k)) && !Restore(d, k).world.runtime.closed
  {
    hide DriveInv, Verdict, SettleAllFatally, ReapUnit, TableOk;
    VerdictKeeps(d, k);
    var v := Verdict(d, k);
    if v.driver.phase.Failing? {
      TerminateKeeps(v, k.fate);
      TerminatedOpen(v, k.fate);
      if SettleAllFatally(v, k.fate).driver.phase.Reaping? {
        ReapKeeps(SettleAllFatally(v, k.fate));
        ReapOpen(SettleAllFatally(v, k.fate));
      }
    }
  }

  lemma DecideOpen(d: Drive)
    requires TableOk(d.world)
    ensures Decide(d).world.runtime.closed == d.world.runtime.closed
  {
    AbortOpens(d.world);
    hide AbortTxn;
  }

  lemma ReplayKeeps(d: Drive, lost: bool, armed: bool, written: bool)
    requires DriveInv(d) && d.driver.phase.Replaying?
    ensures DriveInv(Replay(Losing(d, lost), armed, written))
  {
    hide WorldInv;
  }

  lemma RejoinKeeps(d: Drive, lost: bool, ok: bool)
    requires DriveInv(d) && d.driver.phase.Waiting?
    ensures DriveInv(Rejoin(Losing(d, lost), ok))
  {
    hide WorldInv;
  }

  lemma VerdictKeeps(d: Drive, k: Weather)
    requires DriveInv(d) && d.driver.phase.Undoing? && !d.world.runtime.closed && TableOk(d.world)
    ensures DriveInv(Verdict(d, k)) && !Verdict(d, k).world.runtime.closed
  {
    hide DriveInv, Decide, TableOk;
    OwnPhases(d, true, true, true, Uncertain);
    DecideOpen(d);
    DecideKeeps(d);
    var one := Decide(d);
    if one.driver.phase.Replaying? {
      var lost := d.driver.held && k.lostAborting;
      ReplayKeeps(one, lost, k.armed, k.written);
      if Replay(Losing(one, lost), k.armed, k.written).driver.phase.Waiting? {
        RejoinKeeps(Replay(Losing(one, lost), k.armed, k.written), k.lostReplaying, k.ok);
      }
    }
  }

  lemma TerminatedOpen(d: Drive, fate: SourceFate)
    requires DriveInv(d) && d.driver.phase.Failing? && !d.world.runtime.closed && TableOk(d.world)
    ensures !SettleAllFatally(d, fate).world.runtime.closed
  {
    hide WorldInv, RetainBoth, FailInstalled, FailPredecessor, FatalSettle;
    var w := d.world;
    var v := d.driver;
    if w.txn.refit && fate.Uncertain? {
      RetainBothKeeps(w, v.held);
    } else if v.installed {
      FailInstalledKeeps(w);
    } else {
      if v.held {
        FatalSettleKeeps(w);
      }
      if w.txn.refit {
        FailPredecessorKeeps(if v.held then FatalSettle(w) else w, fate);
      }
    }
  }

  lemma ReapOpen(d: Drive)
    ensures ReapUnit(d).world.runtime == d.world.runtime
  {
  }
}
