/** The unit's rotation driver: it captures, materialises, begins, validates, seals and commits, and on any error its
    deferred restore brings the registry transaction and the journal reservation to one common end. */
module RotationDriver {
  import opened Basics
  import opened Credits
  import opened Journal
  import opened Retention
  import opened RetentionLedger
  import opened RetentionSteps
  import opened RetentionInvariant
  import opened RetentionRuns
  import opened RetentionReach
  import opened PaneRotation
  import opened RotationSettlement

  // ---- State -----------------------------------------------------------------------------------------------

  /** The reservation of the successor's journal. */
  datatype JournalTxn = NoJournal | Reserved | JournalCommitted | JournalAborted | JournalFatal | JournalFailed {
    /** Nobody has undone or failed it. */
    predicate Intact() {
      NoJournal? || Reserved? || JournalCommitted?
    }

    /** The predecessor's journal is the only one left, by an abort or because there never was another. */
    predicate Undone() {
      NoJournal? || JournalAborted?
    }

    /** It still owes an end. */
    predicate Open() {
      Reserved? || JournalCommitted?
    }
  }

  /** Where the driver is: at its work, in its deferred restore, in its fatal settlement, or settled. */
  datatype Phase = Working | Undoing | Replaying | Waiting | Failing | Reaping | Ended

  /** Retained is the end of a refit whose source stayed uncertain; Unreplayed one whose abort could not be replayed. */
  datatype Outcome = Succeeded | Restored | Reaped | Retained | Unreplayed {
    predicate Fatal() {
      Reaped? || Retained? || Unreplayed?
    }
  }

  /** `held` is the driver's own pointer to the registry transaction, `ponr` its point of no return, `installed` its
      record of the registry commit, and `streamFailed` says that the settlement has recorded a failure of the stream
      it still reads. A failure the boundary wait meets itself starts the restore without being recorded there. */
  datatype Driver = Driver(flipped: bool, held: bool, ponr: bool, sealing: bool, streamFailed: bool, installed: bool,
                           journal: JournalTxn, phase: Phase, outcome: Outcome, settlements: nat)

  datatype Drive = Drive(world: World, driver: Driver)

  /** What became of a refit's source once its control transport has failed. */
  datatype SourceFate = Uncertain | OwnerGone | Replaced(taker: PaneKey)

  predicate TableOk(w: World) {
    forall k :: k in w.runtime.table ==> w.runtime.table[k] < |w.runtime.gens|
  }

  // ---- The restore and the fatal settlement ------------------------------------------------------------------

  function End(d: Driver, outcome: Outcome): Driver {
    d.(phase := Ended, outcome := outcome, settlements := d.settlements + 1)
  }

  /** restore, up to the registry's answer: past the point of no return, after a recorded failure of the stream, or when the
      abort is refused, only the fatal settlement is left. */
  function Decide(d: Drive): (e: Drive)
    requires TableOk(d.world)
    ensures TableOk(e.world)
  {
    var v := d.driver;
    if v.ponr || v.streamFailed then d.(driver := v.(phase := Failing))
    else if !v.held then d.(driver := v.(phase := Replaying))
    else
      var (aborted, ok) := AbortTxn(d.world);
      if ok then Drive(aborted, v.(phase := Replaying, held := false))
      else d.(driver := v.(phase := Failing, ponr := true))
  }

  /** restore, after the abort: the stream is asked again; then the journal is aborted or its rollback armed, and
      what was parked is written to the predecessor. */
  function Replay(d: Drive, armed: bool, written: bool): Drive {
    var v := d.driver;
    if v.streamFailed then d.(driver := v.(phase := Failing))
    else if !v.flipped then d.(driver := End(v, Restored))
    else if v.journal.NoJournal? && !armed then d.(driver := End(v, Unreplayed))
    else
      var u := if v.journal.Reserved? then v.(journal := JournalAborted) else v;
      d.(driver := if written then u.(phase := Waiting) else End(u, Unreplayed))
  }

  /** restore, at its end: nothing is restored once a failure was recorded while the replay settled. */
  function Rejoin(d: Drive, ok: bool): Drive {
    var v := d.driver;
    d.(driver := if v.streamFailed then v.(phase := Failing) else End(v, if ok then Restored else Unreplayed))
  }

  /** The session's router no longer routes `key`, if it is the admitted route. */
  function Ineligible(g: Registry, key: PaneKey, gone: set<PaneKey>): Registry {
    var name := SessionOf(key);
    if RouteOf(key) in g.admitted && g.admitted[RouteOf(key)].pane == key && name in g.sessions &&
       Eligible(g.sessions[name], key)
    then g.(sessions := g.sessions[name := g.sessions[name].(routed := g.sessions[name].routed - gone)])
    else g
  }

  function Withdraw(p: Provider, key: PaneKey): Provider {
    if p.active == Some(key) then p.(active := None) else p
  }

  /** failCommittedSuccessor: no attachment, no route and no healthy runtime is left of the installed successor. */
  function FailInstalled(w: World): World
    requires TableOk(w)
  {
    var key := w.txn.next;
    var hidden := w.(provider := Withdraw(w.provider, key), registry := Ineligible(w.registry, key, {key}));
    var f := FaultKey(hidden, key, Some(w.txn.successor));
    f.(provider := f.provider.(tails := TailsWithout(f.provider.tails, key)))
  }

  function RequestDurable(r: State, key: PaneKey): State
    requires key in r.table ==> r.table[key] < |r.gens|
  {
    if key in r.table then r.(gens := r.gens[r.table[key] := r.gens[r.table[key]].(durableRequested := true)]) else r
  }

  /** failRefitPredecessor: the predecessor of a refit past its composite is gone or replaced; it retires durably. */
  function FailPredecessor(w: World, fate: SourceFate): World
    requires TableOk(w)
  {
    var key := w.txn.previous;
    var gone := match fate
                case Replaced(taker) => {key, taker}
                case _ => if SessionOf(key) in w.registry.sessions then w.registry.sessions[SessionOf(key)].routed else {};
    var hidden := w.(provider := Withdraw(w.provider, key), registry := Ineligible(w.registry, key, gone));
    var f := FaultKey(hidden, key, None);
    f.(runtime := RequestDurable(f.runtime, key), provider := f.provider.(tails := TailsWithout(f.provider.tails, key)))
  }

  /** retainUncertainRefitFailure: both generations are marked failed and every attachment ends, but nothing is
      cleaned up and the journal reservation is kept. */
  function RetainBoth(w: World, held: bool): World
    requires TableOk(w)
  {
    var both := FaultKey(FaultKey(w, w.txn.previous, None), w.txn.next, None);
    var settled := if held && !both.txn.settled
                   then both.(registry := RemoveOwnership(both.registry, w.txn), txn := PaneRotation.Settle(both.txn, Fatal))
                   else both;
    settled.(provider := settled.provider.(active := None, live := false,
                                           tails := TailsWithout(TailsWithout(settled.provider.tails, w.txn.previous),
                                                                 w.txn.next)))
  }

  /** The journal reservation's fatal end: a committed one is failed. */
  function FatalJournal(j: JournalTxn): JournalTxn {
    match j
    case Reserved => JournalFatal
    case JournalCommitted => JournalFailed
    case _ => j
  }

  /** Whoever is routed, the successor once installed or else the predecessor of a refit, loses its authority; a
      transaction still held settles first. */
  function FailAuthority(w: World, installed: bool, held: bool, fate: SourceFate): World
    requires TableOk(w)
  {
    if installed then FailInstalled(w)
    else
      var settled := if held then FatalSettle(w) else w;
      if w.txn.refit then FailPredecessor(settled, fate) else settled
  }

  /** settleFatal: one end for the registry transaction, the journal reservation and the attachments. */
  function SettleAllFatally(d: Drive, fate: SourceFate): Drive
    requires TableOk(d.world)
  {
    var w := d.world;
    var v := d.driver;
    if w.txn.refit && fate.Uncertain? then Drive(RetainBoth(w, v.held), End(v.(held := false), Retained))
    else
      Drive(FailAuthority(w, v.installed, v.held, fate),
            v.(held := false, journal := FatalJournal(v.journal), phase := Reaping))
  }

  /** The last act of settleFatal: the unit is reaped and its attachments end. */
  function ReapUnit(d: Drive): Drive {
    var w := d.world;
    var tails := TailsWithout(TailsWithout(w.provider.tails, w.txn.previous), w.txn.next);
    Drive(w.(provider := w.provider.(active := None, live := false, tails := tails)), End(d.driver, Reaped))
  }

  // ---- The machine -------------------------------------------------------------------------------------------

  datatype Move =
    | Elsewhere(step: Env)
    | StreamFails
    | SubmitComposite
    | Flip
    | Materialise
    | BeginTxn
    | Bootstrap
    | TryValidate
    | SubmitSeal
    | RecordSealed
    | CommitRegistry
    | CommitJournal
    | Finish
    | ReturnError
    | TryAbort
    | TryReplay(armed: bool, written: bool)
    | TryRejoin(ok: bool)
    | Terminate(fate: SourceFate)
    | ReapNow

  /** The driver's own settlement, as against its work and everyone else's. */
  predicate Settling(m: Move) {
    m.TryAbort? || m.TryReplay? || m.TryRejoin? || m.Terminate? || m.ReapNow?
  }

  ghost predicate CanMove(d: Drive, m: Move) {
    var v := d.driver;
    var working := v.phase.Working?;
    !d.world.runtime.closed &&
    match m
    case Elsewhere(step) => Possible(d.world, step)
    case StreamFails => !v.phase.Ended?
    case SubmitComposite => working && !v.flipped
    case Flip => working && !v.flipped && (d.world.txn.refit ==> v.ponr)
    case Materialise => working && v.flipped && v.journal.NoJournal?
    case BeginTxn => working && v.journal.Reserved? && !d.world.txn.begun
    case Bootstrap => working && v.held
    case TryValidate => working && v.held
    case SubmitSeal => working && v.held && d.world.txn.validated
    case RecordSealed => working && v.held && v.sealing
    case CommitRegistry => working && v.held && v.sealing && d.world.txn.sealed && !v.installed
    case CommitJournal => working && v.installed && v.journal.Reserved?
    case Finish => working && v.journal.JournalCommitted?
    case ReturnError => working && !(v.installed && v.journal.Reserved?)
    case TryAbort => v.phase.Undoing?
    case TryReplay(_, _) => v.phase.Replaying?
    case TryRejoin(_) => v.phase.Waiting?
    case Terminate(_) => v.phase.Failing?
    case ReapNow => v.phase.Reaping?
  }

  /** CommitRegistry: the driver goes on only if the transaction was committed, and otherwise returns an error. */
  function TakeCommit(d: Drive): Drive
    requires TableOk(d.world)
  {
    var c := Commit(d.world);
    if c.txn.settled && c.txn.disposition == Committed then Drive(c, d.driver.(installed := true))
    else Drive(c, d.driver.(phase := Undoing))
  }

  function Advance(d: Drive, m: Move): Drive
    requires CanMove(d, m) && WellFormed(d.world.runtime)
  {
    var w := d.world;
    var v := d.driver;
    match m
    case Elsewhere(step) => d.(world := Happen(w, step))
    case StreamFails => d.(driver := v.(streamFailed := true))
    case SubmitComposite => d.(driver := v.(ponr := v.ponr || w.txn.refit))
    case Flip => d.(driver := v.(flipped := true))
    case Materialise => d.(driver := v.(journal := Reserved))
    case BeginTxn =>
      var b := Begin(w);
      Drive(b, v.(held := b.txn.begun, phase := if b.txn.begun then Working else Undoing))
    case Bootstrap => d.(world := WriteBootstrap(w))
    case TryValidate => d.(world := Validate(w))
    case SubmitSeal => d.(driver := v.(ponr := true, sealing := true))
    case RecordSealed => d.(world := RecordSeal(w))
    case CommitRegistry => TakeCommit(d)
    case CommitJournal => d.(driver := v.(journal := JournalCommitted, held := false))
    case Finish => d.(driver := End(v, Succeeded))
    case ReturnError => d.(driver := v.(phase := Undoing))
    case TryAbort => Decide(d)
    case TryReplay(armed, written) => Replay(d, armed, written)
    case TryRejoin(ok) => Rejoin(d, ok)
    case Terminate(fate) => SettleAllFatally(d, fate)
    case ReapNow => ReapUnit(d)
  }

  // ---- What every reachable state keeps ----------------------------------------------------------------------

  predicate WasCommitted(w: World) {
    w.txn.settled && w.txn.disposition == Committed
  }

  predicate WasAborted(w: World) {
    w.txn.settled && w.txn.disposition == Aborted
  }

  /** The driver holds exactly the transaction that is not settled yet, and knows what it installed. */
  ghost predicate Holding(d: Drive) {
    var w := d.world;
    var v := d.driver;
    && (v.held ==> w.txn.begun && v.journal.Reserved?)
    && (w.txn.settled ==> w.txn.begun) && (w.txn.begun && !w.txn.settled ==> v.held)
    && (v.installed <==> WasCommitted(w))
    && (v.installed ==> v.ponr && v.flipped)
    && (v.journal.JournalCommitted? || v.journal.JournalFailed? ==> v.installed)
    && (v.journal.NoJournal? ==> !w.txn.begun)
    && (!v.flipped ==> v.journal.NoJournal?)
    && (w.txn.refit && v.flipped ==> v.ponr)
    && (v.sealing ==> v.ponr) && (w.txn.sealed ==> v.sealing)
    && (WasAborted(w) ==> !v.ponr)
  }

  /** Nothing of the rotation is left in the registry, and the predecessor was never sealed. */
  predicate RolledBack(d: Drive) {
    !d.driver.ponr && !d.driver.held && (d.world.txn.begun ==> WasAborted(d.world))
  }

  /** Where each phase leaves the registry transaction and the journal reservation. */
  ghost predicate PhaseOk(d: Drive) {
    var w := d.world;
    var v := d.driver;
    && v.settlements == (if v.phase.Ended? then 1 else 0)
    && match v.phase
       case Working => v.journal.Intact() && (w.txn.settled ==> v.installed)
       case Undoing => v.journal.Intact() && (v.installed ==> v.journal.JournalCommitted?) && (w.txn.settled ==> v.ponr)
       case Replaying => RolledBack(d) && (v.journal.NoJournal? || v.journal.Reserved?)
       case Waiting => RolledBack(d) && v.flipped && v.journal.Undone()
       case Failing => (v.installed ==> v.journal.JournalCommitted?)
       case Reaping => !v.held && !v.journal.Open()
       case Ended => !v.held && EndOk(d)
  }

  /** How an ended rotation leaves the registry transaction, the journal reservation and the attachments. */
  ghost predicate EndOk(d: Drive) {
    var w := d.world;
    var v := d.driver;
    match v.outcome
    case Succeeded => v.installed && v.journal.JournalCommitted?
    case Restored => RolledBack(d) && v.journal.Undone() && !v.streamFailed
    case Unreplayed => RolledBack(d) && v.journal.Undone()
    case Reaped => (w.txn.begun ==> w.txn.settled) && !v.journal.Open() && Detached(w)
    case Retained => (w.txn.begun ==> w.txn.settled) && w.txn.refit && Detached(w)
  }

  /** Nothing is published, and no tail reads the predecessor or the successor. */
  ghost predicate Detached(w: World) {
    w.provider.active.None? &&
    forall tail :: tail in w.provider.tails ==> tail.1 != w.txn.previous && tail.1 != w.txn.next
  }

  ghost predicate DriveInv(d: Drive) {
    WorldInv(d.world) && Holding(d) && PhaseOk(d)
  }

  // ---- Each piece of the settlement keeps the world ------------------------------------------------------------

  /** Hiding a route and withdrawing a key show nothing new. */
  lemma HideKeeps(w: World, key: PaneKey, gone: set<PaneKey>)
    requires WorldInv(w)
    ensures var h := w.(provider := Withdraw(w.provider, key), registry := Ineligible(w.registry, key, gone));
            WorldInv(h) && h.provider.active != Some(key)
  {
    hide Books;
  }

  lemma TailsKeep(w: World, key: PaneKey)
    requires WorldInv(w)
    ensures var t := w.(provider := w.provider.(tails := TailsWithout(w.provider.tails, key)));
            WorldInv(t) && forall tail :: tail in t.provider.tails ==> tail.1 != key
  {
    hide Books;
  }

  /** Nothing of the installed successor is left to attach to, to route to or to record into. */
  lemma FailInstalledKeeps(w: World)
    requires WorldInv(w) && !w.runtime.closed && TableOk(w)
    ensures var f := FailInstalled(w);
            && WorldInv(f) && !f.runtime.closed && TableOk(f) && f.txn == w.txn
            && f.provider.active != Some(w.txn.next) && forall tail :: tail in f.provider.tails ==> tail.1 != w.txn.next
  {
    hide WorldInv, FaultKey, TailsWithout, Withdraw, Ineligible;
    var key := w.txn.next;
    HideKeeps(w, key, {key});
    var hidden := w.(provider := Withdraw(w.provider, key), registry := Ineligible(w.registry, key, {key}));
    FaultKeyKeeps(hidden, key, Some(w.txn.successor));
    TailsKeep(FaultKey(hidden, key, Some(w.txn.successor)), key);
  }

  lemma DurableKeeps(w: World, key: PaneKey)
    requires WorldInv(w) && !w.runtime.closed && TableOk(w)
    ensures WorldInv(w.(runtime := RequestDurable(w.runtime, key)))
    ensures var r := RequestDurable(w.runtime, key);
            !r.closed && r.table == w.runtime.table && |r.gens| == |w.runtime.gens|
  {
    hide Accounting, Work, Limits, Funded;
    if key in w.runtime.table {
      var g := w.runtime.table[key];
      FlagsKeep(w.runtime, g, w.runtime.gens[g].(durableRequested := true));
    }
  }

  lemma FailPredecessorKeeps(w: World, fate: SourceFate)
    requires WorldInv(w) && !w.runtime.closed && TableOk(w)
    ensures var f := FailPredecessor(w, fate);
            WorldInv(f) && !f.runtime.closed && TableOk(f) && f.txn == w.txn
  {
    hide WorldInv, FaultKey, TailsWithout, Withdraw, Ineligible, RequestDurable;
    var key := w.txn.previous;
    var gone := match fate
                case Replaced(taker) => {key, taker}
                case _ => if SessionOf(key) in w.registry.sessions then w.registry.sessions[SessionOf(key)].routed else {};
    HideKeeps(w, key, gone);
    var hidden := w.(provider := Withdraw(w.provider, key), registry := Ineligible(w.registry, key, gone));
    FaultKeyKeeps(hidden, key, None);
    var f := FaultKey(hidden, key, None);
    DurableKeeps(f, key);
    TailsKeep(f.(runtime := RequestDurable(f.runtime, key)), key);
  }

  lemma ClosedKeeps(w: World)
    requires WorldInv(w)
    ensures var tails := TailsWithout(TailsWithout(w.provider.tails, w.txn.previous), w.txn.next);
            var c := w.(provider := w.provider.(active := None, live := false, tails := tails));
            WorldInv(c) && Detached(c)
  {
    hide Books;
  }

  lemma RetainBothKeeps(w: World, held: bool)
    requires WorldInv(w) && !w.runtime.closed && TableOk(w) && (held ==> w.txn.begun)
    ensures var r := RetainBoth(w, held);
            && WorldInv(r) && !r.runtime.closed && TableOk(r) && Detached(r)
            && r.txn == (if held && !w.txn.settled then PaneRotation.Settle(w.txn, Fatal) else w.txn)
  {
    hide WorldInv, FaultKey, TailsWithout;
    FaultKeyKeeps(w, w.txn.previous, None);
    var one := FaultKey(w, w.txn.previous, None);
    FaultKeyKeeps(one, w.txn.next, None);
    var both := FaultKey(one, w.txn.next, None);
    if held && !w.txn.settled {
      SettledKeeps(both);
      ClosedKeeps(both.(registry := RemoveOwnership(both.registry, w.txn), txn := PaneRotation.Settle(both.txn, Fatal)));
    } else {
      ClosedKeeps(both);
    }
  }

  lemma SettledKeeps(w: World)
    requires WorldInv(w) && w.txn.begun && !w.txn.settled
    ensures WorldInv(w.(registry := RemoveOwnership(w.registry, w.txn), txn := PaneRotation.Settle(w.txn, Fatal)))
  {
    hide Books;
  }

  // ---- Each move keeps it --------------------------------------------------------------------------------------

  lemma EnvFrame(w: World, step: Env)
    requires Possible(w, step) && WellFormed(w.runtime)
    ensures var e := Happen(w, step);
            && e.txn == w.txn.(initial := e.txn.initial)
            && (w.provider.active.None? ==> e.provider.active.None? && e.provider.tails <= w.provider.tails)
  {
    hide Apply, Enabled, PublishFailure, WellFormed;
    if step.FailurePublished? {
      PublishFrame(w, step.key);
    }
  }

  lemma ElsewhereKeeps(d: Drive, step: Env)
    requires DriveInv(d) && CanMove(d, Elsewhere(step)) && WellFormed(d.world.runtime)
    ensures DriveInv(d.(world := Happen(d.world, step)))
  {
    hide WorldInv, Happen, Possible, WellFormed;
    EnvFrame(d.world, step);
    EnvKeeps(d.world, step);
  }

  lemma BeginKeeps(d: Drive)
    requires DriveInv(d) && CanMove(d, BeginTxn) && WellFormed(d.world.runtime)
    ensures DriveInv(Advance(d, BeginTxn))
  {
    hide WorldInv, Begin, WellFormed, Happen, Possible;
    BeginStarts(d.world);
    BeginFrame(d.world);
  }

  lemma BeginFrame(w: World)
    requires WellFormed(w.runtime) && !w.txn.begun
    ensures var b := Begin(w).txn;
            && b.refit == w.txn.refit && b.settled == w.txn.settled && b.sealed == w.txn.sealed
            && b.previous == w.txn.previous && b.next == w.txn.next
  {
    hide CanBegin, AssumptionsHold, Inherit, Create;
  }

  lemma CommitMoveKeeps(d: Drive)
    requires DriveInv(d) && CanMove(d, CommitRegistry) && TableOk(d.world)
    ensures DriveInv(TakeCommit(d))
  {
    CommitKeeps(d.world);
    CommitFrame(d.world);
    hide WorldInv, Commit;
  }

  lemma CommitFrame(w: World)
    requires TableOk(w)
    ensures var c := Commit(w).txn;
            && c == w.txn.(settled := c.settled, disposition := c.disposition, settlements := c.settlements,
                           published := c.published)
            && (!w.txn.settled ==> c.disposition == Committed || c.disposition == Fatal)
  {
    hide CommitValid;
    assert Install(w).txn == PaneRotation.Settle(w.txn, Committed).(published := true) by {
      hide Admit, Routed, RemoveOwnership, TailsWithout;
    }
    assert SettleFatally(w).txn == PaneRotation.Settle(w.txn, Fatal) by {
      hide FaultSuccessor, RemoveOwnership;
    }
    hide Install, SettleFatally;
  }

  /** The driver's work on the transaction's own flags. */
  lemma TxnWorkKeeps(d: Drive, m: Move)
    requires DriveInv(d) && CanMove(d, m) && WellFormed(d.world.runtime)
    requires m.Bootstrap? || m.TryValidate? || m.RecordSealed?
    ensures DriveInv(Advance(d, m))
  {
    hide Books, ProviderValid, AssumptionsHold, WellFormed;
  }

  /** The driver's work on its own record. */
  lemma OwnWorkKeeps(d: Drive, m: Move)
    requires DriveInv(d) && CanMove(d, m) && WellFormed(d.world.runtime)
    requires m.StreamFails? || m.SubmitComposite? || m.Flip? || m.Materialise? || m.SubmitSeal? || m.CommitJournal? ||
             m.Finish? || m.ReturnError?
    ensures DriveInv(Advance(d, m))
  {
    hide WorldInv, WellFormed;
  }

  lemma DecideKeeps(d: Drive)
    requires DriveInv(d) && CanMove(d, TryAbort) && TableOk(d.world)
    ensures DriveInv(Decide(d))
  {
    hide WorldInv, AbortTxn;
    if !d.driver.ponr && !d.driver.streamFailed && d.driver.held {
      AbortTxnKeeps(d.world);
      AbortFrame(d.world);
    }
  }

  lemma AbortFrame(w: World)
    requires TableOk(w)
    ensures var (a, ok) := AbortTxn(w);
            && a.txn == w.txn.(settled := a.txn.settled, disposition := a.txn.disposition, settlements := a.txn.settlements)
            && (ok ==> WasAborted(a)) && (!ok ==> a == w)
  {
    hide AbortRotation;
  }

  lemma RestoreMoveKeeps(d: Drive, m: Move)
    requires DriveInv(d) && CanMove(d, m) && (m.TryReplay? || m.TryRejoin?)
    ensures m.TryReplay? ==> DriveInv(Replay(d, m.armed, m.written))
    ensures m.TryRejoin? ==> DriveInv(Rejoin(d, m.ok))
  {
    hide WorldInv;
  }

  lemma TerminateKeeps(d: Drive, fate: SourceFate)
    requires DriveInv(d) && CanMove(d, Terminate(fate)) && TableOk(d.world)
    ensures DriveInv(SettleAllFatally(d, fate))
  {
    hide WorldInv, RetainBoth, FailInstalled, FailPredecessor, FatalSettle;
    var w := d.world;
    var v := d.driver;
    if w.txn.refit && fate.Uncertain? {
      RetainBothKeeps(w, v.held);
    } else {
      if v.installed {
        FailInstalledKeeps(w);
      } else {
        if v.held {
          FatalSettleKeeps(w);
        }
        var settled := if v.held then FatalSettle(w) else w;
        if w.txn.refit {
          FailPredecessorKeeps(settled, fate);
        }
      }
    }
  }

  lemma FatalSettleKeeps(w: World)
    requires WorldInv(w) && !w.runtime.closed && TableOk(w) && w.txn.begun
    ensures var f := FatalSettle(w);
            && WorldInv(f) && !f.runtime.closed
            && f.txn == (if w.txn.settled then w.txn else PaneRotation.Settle(w.txn, Fatal))
  {
    hide WorldInv, FaultSuccessor;
    if !w.txn.settled {
      SettleFatallyKeeps(w);
    }
  }

  lemma ReapKeeps(d: Drive)
    requires DriveInv(d) && CanMove(d, ReapNow)
    ensures DriveInv(ReapUnit(d))
  {
    hide WorldInv, TailsWithout;
    ClosedKeeps(d.world);
  }

  lemma MoveKeeps(d: Drive, m: Move)
    requires DriveInv(d) && CanMove(d, m) && WellFormed(d.world.runtime)
    ensures DriveInv(Advance(d, m))
  {
    hide DriveInv;
    match m {
      case Elsewhere(step) => ElsewhereKeeps(d, step);
      case BeginTxn => BeginKeeps(d);
      case CommitRegistry => CommitMoveKeeps(d);
      case Bootstrap => TxnWorkKeeps(d, m);
      case TryValidate => TxnWorkKeeps(d, m);
      case RecordSealed => TxnWorkKeeps(d, m);
      case TryAbort => DecideKeeps(d);
      case TryReplay(_, _) => RestoreMoveKeeps(d, m);
      case TryRejoin(_) => RestoreMoveKeeps(d, m);
      case Terminate(fate) => TerminateKeeps(d, fate);
      case ReapNow => ReapKeeps(d);
      case _ => OwnWorkKeeps(d, m);
    }
  }
}
