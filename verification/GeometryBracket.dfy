/** Explicit Fits of one pane: the owner gate, the three slots each Fit takes beforehand, and the order in which its
    pause, its geometry, its fault and its end enter the manager's queue. */
module GeometryBracket {
  import opened Basics

  /** What the queue holds of one pane's Fits, by owner. */
  datatype Entry = Start(owner: nat) | Commit(owner: nat) | Fault(owner: nat) | End(owner: nat)

  /** Where a Fit is: taking slots, waiting for its pause, holding the ticket, or part-way through Release. */
  datatype Phase = Reserving | Starting | Holding | Releasing | Ending | Gone

  /** `taken` of the three slots are reserved, in the order commit, release, fault; each counter says how often
      that slot was given to a command or given back. */
  datatype Fit = Fit(phase: Phase, taken: nat, commitUses: nat, releaseUses: nat, faultUses: nat,
                     issued: bool, committed: bool)

  /** `processed` entries have been through the manager; it decided which pauses applied and which geometries
      reached the journal. */
  datatype State = State(queue: seq<Entry>, processed: nat, applied: set<nat>, failed: set<nat>, durable: set<nat>,
                         owner: Option<nat>, fits: seq<Fit>, closing: bool)

  datatype Op =
    | Acquire
    | TakeSlot(granted: bool)
    | QueueStart(granted: bool)
    | PauseRefused
    | PauseHeld
    | Cancel
    | Issue(reached: bool)
    | SubmitGeometry
    | CommitReturns
    | ReleaseCommitSlot
    | ReleaseFaultSlot
    | ReleasePause
    | Process(ok: bool)
    | BeginClose

  /** The ticket is out: the pause is in force. */
  predicate Ticketed(phase: Phase) {
    phase.Holding? || phase.Releasing? || phase.Ending?
  }

  function Idle(): State {
    State([], 0, {}, {}, {}, None, [], false)
  }

  /** The Fit that holds the owner gate; every other one is gone. */
  function Current(s: State): Fit
    requires s.owner.Some? && s.owner.value < |s.fits|
  {
    s.fits[s.owner.value]
  }

  /** Give back whatever slots are still unused. */
  function GiveBack(fit: Fit): Fit {
    fit.(phase := Gone,
         commitUses := if fit.taken > 0 && fit.commitUses == 0 then 1 else fit.commitUses,
         releaseUses := if fit.taken > 1 && fit.releaseUses == 0 then 1 else fit.releaseUses,
         faultUses := if fit.taken > 2 && fit.faultUses == 0 then 1 else fit.faultUses)
  }

  ghost predicate Enabled(s: State, op: Op) {
    match op
    case Acquire => !s.closing && s.owner.None?
    case BeginClose => true
    case Process(_) => s.processed < |s.queue|
    case _ => s.owner.Some? && s.owner.value < |s.fits| && FitEnabled(s, s.owner.value, Current(s), op)
  }

  ghost predicate FitEnabled(s: State, a: nat, fit: Fit, op: Op) {
    match op
    case TakeSlot(granted) => fit.phase.Reserving? && fit.taken < 3 && (granted ==> !s.closing)
    case QueueStart(granted) => fit.phase.Reserving? && fit.taken == 3 && (granted ==> !s.closing)
    case PauseRefused => fit.phase.Starting? && a in s.failed
    case PauseHeld => fit.phase.Starting? && a in s.applied
    case Cancel => fit.phase.Starting? && a !in s.failed
    case Issue(_) => fit.phase.Holding?
    case SubmitGeometry => fit.phase.Holding? && fit.commitUses == 0
    case CommitReturns => fit.phase.Holding? && a in s.durable
    case ReleaseCommitSlot => fit.phase.Holding?
    case ReleaseFaultSlot => fit.phase.Releasing?
    case ReleasePause => fit.phase.Ending?
    case _ => false
  }

  /** What the current Fit becomes. */
  function NextFit(fit: Fit, op: Op): Fit {
    match op
    case TakeSlot(granted) => if granted then fit.(taken := fit.taken + 1) else GiveBack(fit)
    case QueueStart(granted) => if granted then fit.(phase := Starting) else GiveBack(fit)
    case PauseRefused => GiveBack(fit)
    case PauseHeld => fit.(phase := Holding)
    case Cancel => GiveBack(fit)
    case Issue(reached) => fit.(issued := fit.issued || reached)
    case SubmitGeometry => fit.(commitUses := fit.commitUses + 1)
    case CommitReturns => fit.(committed := true)
    case ReleaseCommitSlot => fit.(phase := Releasing, commitUses := Max(fit.commitUses, 1))
    case ReleaseFaultSlot => fit.(phase := Ending, faultUses := fit.faultUses + 1)
    case ReleasePause => fit.(phase := Gone, releaseUses := fit.releaseUses + 1)
    case _ => fit
  }

  /** What its step submits to the manager. A cancelled Fit cannot recall its queued pause: the end is queued
      before the owner gate opens again. */
  function Submitted(fit: Fit, a: nat, op: Op): seq<Entry> {
    match op
    case QueueStart(granted) => if granted then [Start(a)] else []
    case Cancel => [End(a)]
    case SubmitGeometry => [Commit(a)]
    case ReleaseFaultSlot => if fit.issued && !fit.committed then [Fault(a)] else []
    case ReleasePause => [End(a)]
    case _ => []
  }

  /** An accepted submission enters the queue; one refused by close has already given its reservation back. The
      owner gate opens when the Fit is gone, after its submission. */
  function Move(s: State, fit: Fit, submitted: seq<Entry>): State
    requires s.owner.Some? && s.owner.value < |s.fits|
  {
    s.(queue := s.queue + if s.closing then [] else submitted, fits := s.fits[s.owner.value := fit],
       owner := if fit.phase.Gone? then None else s.owner)
  }

  function Apply(s: State, op: Op): State
    requires Enabled(s, op)
  {
    match op
    case Acquire => s.(owner := Some(|s.fits|), fits := s.fits + [Fit(Reserving, 0, 0, 0, 0, false, false)])
    case Process(ok) => Processed(s, ok)
    case BeginClose => s.(closing := true)
    case _ => Move(s, NextFit(Current(s), op), Submitted(Current(s), s.owner.value, op))
  }

  /** The manager takes the next entry: a pause applies unless its flush failed, a geometry is durable unless the
      journal refused it. */
  function Processed(s: State, ok: bool): State
    requires s.processed < |s.queue|
  {
    var e := s.queue[s.processed];
    var t := s.(processed := s.processed + 1);
    match e
    case Start(a) => if ok then t.(applied := s.applied + {a}) else t.(failed := s.failed + {a})
    case Commit(a) => if ok then t.(durable := s.durable + {a}) else t
    case _ => t
  }

  // ---- The bracket -----------------------------------------------------------------------------------------

  /** Whose pause is in force after a stretch of the queue, counting only pauses that did not fail. */
  function Holder(queue: seq<Entry>, failed: set<nat>): Option<nat> {
    if queue == [] then None
    else HolderAfter(queue[|queue| - 1], Holder(queue[..|queue| - 1], failed), failed)
  }

  function HolderAfter(e: Entry, before: Option<nat>, failed: set<nat>): Option<nat> {
    match e
    case Start(a) => if a in failed then before else Some(a)
    case End(_) => None
    case _ => before
  }

  /** A pause starts only when none is in force; only its own owner ends it; geometry and fault lie inside it. */
  ghost predicate Bracketed(queue: seq<Entry>, failed: set<nat>) {
    forall n :: 0 <= n < |queue| ==> Fits(queue[n], Holder(queue[..n], failed))
  }

  predicate Fits(e: Entry, holder: Option<nat>) {
    match e
    case Start(_) => holder == None
    case End(a) => holder == None || holder == Some(a)
    case Commit(a) => holder == Some(a)
    case Fault(a) => holder == Some(a)
  }

  lemma BracketAppend(queue: seq<Entry>, failed: set<nat>, e: Entry)
    requires Bracketed(queue, failed) && Fits(e, Holder(queue, failed))
    ensures Bracketed(queue + [e], failed)
    ensures Holder(queue + [e], failed) == HolderAfter(e, Holder(queue, failed), failed)
  {
    assert (queue + [e])[..|queue|] == queue;
    assert forall n :: 0 <= n < |queue| ==> (queue + [e])[..n] == queue[..n];
  }

  /** A pause that turns out to have failed was never in force; nothing else changes. */
  lemma {:induction false} FailedPause(queue: seq<Entry>, failed: set<nat>, a: nat)
    requires Bracketed(queue, failed)
    requires forall n :: 0 <= n < |queue| ==> queue[n] != Commit(a) && queue[n] != Fault(a)
    ensures Bracketed(queue, failed + {a})
    ensures Holder(queue, failed + {a}) == if Holder(queue, failed) == Some(a) then None else Holder(queue, failed)
  {
    hide Bracketed, Holder, Fits;
    if queue == [] {
      NothingQueued(failed, a);
    } else {
      var init, e := queue[..|queue| - 1], queue[|queue| - 1];
      BracketFront(queue, failed);
      FailedPause(init, failed, a);
      FailedEntry(e, Holder(init, failed), failed, a);
      assert queue == init + [e];
      BracketAppend(init, failed + {a}, e);
    }
  }

  lemma NothingQueued(failed: set<nat>, a: nat)
    ensures Bracketed([], failed + {a}) && Holder([], failed + {a}) == Holder([], failed) == None
  {
  }

  lemma BracketFront(queue: seq<Entry>, failed: set<nat>)
    requires Bracketed(queue, failed) && queue != []
    ensures var init, e := queue[..|queue| - 1], queue[|queue| - 1];
            && Bracketed(init, failed) && Fits(e, Holder(init, failed))
            && Holder(queue, failed) == HolderAfter(e, Holder(init, failed), failed)
  {
    var init := queue[..|queue| - 1];
    assert forall n :: 0 <= n < |init| ==> init[..n] == queue[..n];
  }

  /** An entry that fits after some pause still fits once `a`'s pause counts as never in force. */
  lemma FailedEntry(e: Entry, before: Option<nat>, failed: set<nat>, a: nat)
    requires Fits(e, before) && e != Commit(a) && e != Fault(a)
    ensures var without := if before == Some(a) then None else before;
            var after := HolderAfter(e, before, failed);
            && Fits(e, without)
            && HolderAfter(e, without, failed + {a}) == if after == Some(a) then None else after
  {
  }

  /** Every pause in force is ended by its own owner before any other pause starts. */
  lemma {:induction false} OwnEndFirst(queue: seq<Entry>, failed: set<nat>, i: nat, j: nat)
    requires Bracketed(queue, failed) && i < j < |queue|
    requires queue[i].Start? && queue[i].owner !in failed && queue[j].Start?
    ensures exists k :: i < k < j && queue[k] == End(queue[i].owner)
  {
    var a := queue[i].owner;
    assert queue[..i + 1][..i] == queue[..i];
    assert Holder(queue[..i + 1], failed) == Some(a);
    var k := i + 1;
    while k < j && queue[k] != End(a)
      invariant i < k <= j && Holder(queue[..k], failed) == Some(a)
    {
      assert Fits(queue[k], Holder(queue[..k], failed));
      assert queue[..k + 1][..k] == queue[..k];
      k := k + 1;
    }
    assert Fits(queue[j], Holder(queue[..j], failed));
  }

  // ---- What every reachable state keeps --------------------------------------------------------------------

  /** How often each slot has been used matches how far the Fit is; a gone Fit used each slot it took once. */
  ghost predicate SlotsOk(fit: Fit) {
    && fit.taken <= 3
    && (fit.phase.Gone? ==>
          && fit.commitUses == (if fit.taken > 0 then 1 else 0)
          && fit.releaseUses == (if fit.taken > 1 then 1 else 0)
          && fit.faultUses == (if fit.taken > 2 then 1 else 0))
    && (!fit.phase.Gone? ==> fit.releaseUses == 0)
    && (fit.phase.Reserving? || fit.phase.Starting? ==> fit.commitUses == 0 && fit.faultUses == 0 && !fit.issued)
    && (fit.phase.Starting? || Ticketed(fit.phase) ==> fit.taken == 3)
    && (fit.phase.Holding? ==> fit.commitUses <= 1 && fit.faultUses == 0)
    && (fit.phase.Releasing? ==> fit.commitUses == 1 && fit.faultUses == 0)
    && (fit.phase.Ending? ==> fit.commitUses == 1 && fit.faultUses == 1)
  }

  /** The owner gate and the pause in force agree. */
  ghost predicate GateOk(s: State) {
    && (forall a :: 0 <= a < |s.fits| ==> SlotsOk(s.fits[a]) && (s.fits[a].phase.Gone? <==> s.owner != Some(a)))
    && (s.owner.Some? ==> s.owner.value < |s.fits|)
    && (s.owner.None? && !s.closing ==> Holder(s.queue, s.failed) == None)
    && (s.owner.Some? ==>
          var holder := Holder(s.queue, s.failed);
          match Current(s).phase
          case Reserving => s.closing || holder == None
          case Starting => holder == (if s.owner.value in s.failed then None else s.owner)
          case _ => holder == s.owner)
  }

  /** What the queue says of each Fit. */
  ghost predicate EntriesOk(s: State) {
    && s.processed <= |s.queue| && s.applied !! s.failed
    && (forall n :: 0 <= n < |s.queue| ==> s.queue[n].owner < |s.fits|)
    && (forall i, j :: 0 <= i < j < |s.queue| && s.queue[i].Start? && s.queue[j].Start? ==>
          s.queue[i].owner != s.queue[j].owner)
    && (forall n :: 0 <= n < |s.queue| && (s.queue[n].Commit? || s.queue[n].Fault?) ==> s.queue[n].owner in s.applied)
    && (forall n :: s.processed <= n < |s.queue| && s.queue[n].Start? ==>
          s.queue[n].owner !in s.applied && s.queue[n].owner !in s.failed)
    && (forall a :: a in s.applied || a in s.failed ==> a < |s.fits|)
    && (s.owner.Some? && s.owner.value < |s.fits| && Current(s).phase.Reserving? ==>
          Start(s.owner.value) !in s.queue && s.owner.value !in s.applied && s.owner.value !in s.failed)
    && (s.owner.Some? && s.owner.value < |s.fits| && Ticketed(Current(s).phase) ==>
          s.owner.value in s.applied)
  }

  predicate FaultDue(fit: Fit) {
    fit.phase.Ending? && fit.issued && !fit.committed
  }

  /** A Fit whose command was issued and never durably committed queues its fault before its end. */
  ghost predicate FaultFirst(s: State) {
    && (forall k :: 0 <= k < |s.queue| && s.queue[k].End? && s.queue[k].owner < |s.fits| ==>
          var fit := s.fits[s.queue[k].owner];
          fit.phase.Gone? && (fit.issued && !fit.committed ==> Fault(s.queue[k].owner) in s.queue[..k]))
    && (s.owner.Some? && s.owner.value < |s.fits| && FaultDue(Current(s)) && !s.closing ==>
          Fault(s.owner.value) in s.queue)
  }

  ghost predicate Inv(s: State) {
    Bracketed(s.queue, s.failed) && GateOk(s) && EntriesOk(s) && FaultFirst(s)
  }

  // ---- Each step keeps it ----------------------------------------------------------------------------------

  lemma EntriesKeep(s: State, fit: Fit, entries: seq<Entry>)
    requires EntriesOk(s) && s.owner.Some? && s.owner.value < |s.fits| && Sound(s, fit, entries)
    ensures EntriesOk(Move(s, fit, entries))
  {
    var t := Move(s, fit, entries);
    forall i, j | 0 <= i < j < |t.queue| && t.queue[i].Start? && t.queue[j].Start?
      ensures t.queue[i].owner != t.queue[j].owner
    {
      if j == |s.queue| {
        assert t.queue[i] in s.queue;
      }
    }
  }

  /** What a step must respect about the entry it queues and the Fit it leaves. */
  ghost predicate Sound(s: State, fit: Fit, entries: seq<Entry>)
    requires s.owner.Some? && s.owner.value < |s.fits|
  {
    var a := s.owner.value;
    && |entries| <= 1
    && (forall e :: e in entries ==>
          && e.owner == a
          && (e.Start? ==> Start(a) !in s.queue && a !in s.applied && a !in s.failed) && (e.Commit? || e.Fault? ==> a in s.applied)
          && (e.End? ==> fit.phase.Gone? && (fit.issued && !fit.committed && !s.closing ==> Fault(a) in s.queue)))
    && (fit.phase.Reserving? ==> entries == [] && Current(s).phase.Reserving?)
    && (Ticketed(fit.phase) ==> a in s.applied)
    && (FaultDue(fit) && !s.closing ==> Fault(a) in s.queue + entries)
  }

  lemma FaultFirstKeep(s: State, fit: Fit, entries: seq<Entry>)
    requires FaultFirst(s) && s.owner.Some? && s.owner.value < |s.fits| && Sound(s, fit, entries)
    requires !Current(s).phase.Gone?
    ensures FaultFirst(Move(s, fit, entries))
  {
    var t := Move(s, fit, entries);
    assert forall k :: 0 <= k <= |s.queue| ==> t.queue[..k] == s.queue[..k];
    forall k | 0 <= k < |t.queue| && t.queue[k].End? && t.queue[k].owner < |t.fits|
      ensures var f := t.fits[t.queue[k].owner];
              f.phase.Gone? && (f.issued && !f.committed ==> Fault(t.queue[k].owner) in t.queue[..k])
    {
      if k == |s.queue| {
        assert t.queue[k] in entries && t.queue[..k] == s.queue;
      } else {
        assert t.queue[k] == s.queue[k];
      }
    }
  }

  /** Whose pause is in force once a step's entry is queued. */
  function NextHolder(s: State, entries: seq<Entry>): Option<nat> {
    if s.closing || entries == [] then Holder(s.queue, s.failed)
    else HolderAfter(entries[0], Holder(s.queue, s.failed), s.failed)
  }

  /** What the gate requires of the Fit a step leaves. */
  ghost predicate GateStep(s: State, fit: Fit, entries: seq<Entry>) {
    && SlotsOk(fit) && s.owner.Some?
    && (forall e :: e in entries ==> Fits(e, Holder(s.queue, s.failed)))
    && var holder := NextHolder(s, entries);
       match fit.phase
       case Gone => s.closing || holder == None
       case Reserving => s.closing || holder == None
       case Starting => holder == (if s.owner.value in s.failed then None else s.owner)
       case _ => holder == s.owner
  }

  lemma BracketKeep(s: State, fit: Fit, entries: seq<Entry>)
    requires s.owner.Some? && s.owner.value < |s.fits| && |entries| <= 1 && Bracketed(s.queue, s.failed)
    requires forall e :: e in entries ==> Fits(e, Holder(s.queue, s.failed))
    ensures Bracketed(Move(s, fit, entries).queue, s.failed)
    ensures Holder(Move(s, fit, entries).queue, s.failed) == NextHolder(s, entries)
  {
    if entries == [] || s.closing {
      assert s.queue + [] == s.queue;
    } else {
      assert entries == [entries[0]];
      BracketAppend(s.queue, s.failed, entries[0]);
    }
  }

  lemma GateKeep(s: State, fit: Fit, entries: seq<Entry>)
    requires GateOk(s) && s.owner.Some? && s.owner.value < |s.fits| && |entries| <= 1 && GateStep(s, fit, entries)
    requires Bracketed(s.queue, s.failed)
    ensures GateOk(Move(s, fit, entries)) && Bracketed(Move(s, fit, entries).queue, s.failed)
  {
    hide Holder, NextHolder, Bracketed, SlotsOk;
    BracketKeep(s, fit, entries);
  }

  lemma MoveKeeps(s: State, fit: Fit, entries: seq<Entry>)
    requires Inv(s) && s.owner.Some? && s.owner.value < |s.fits|
    requires Sound(s, fit, entries) && GateStep(s, fit, entries)
    ensures Inv(Move(s, fit, entries))
  {
    assert !Current(s).phase.Gone?;
    hide GateOk, EntriesOk, FaultFirst, GateStep, Bracketed, Move;
    EntriesKeep(s, fit, entries);
    FaultFirstKeep(s, fit, entries);
    assert |entries| <= 1;
    hide Sound;
    GateKeep(s, fit, entries);
    MoveFailed(s, fit, entries);
  }

  lemma MoveFailed(s: State, fit: Fit, entries: seq<Entry>)
    requires s.owner.Some? && s.owner.value < |s.fits|
    ensures Move(s, fit, entries).failed == s.failed
  {
  }

  /** What the current Fit of a reachable state looks like. */
  lemma CurrentOk(s: State)
    requires Inv(s) && s.owner.Some?
    ensures s.owner.value < |s.fits| && SlotsOk(Current(s)) && !Current(s).phase.Gone?
    ensures var holder := Holder(s.queue, s.failed);
            match Current(s).phase
            case Reserving => s.closing || holder == None
            case Starting => holder == (if s.owner.value in s.failed then None else s.owner)
            case _ => holder == s.owner
    ensures Current(s).phase.Reserving? ==>
              Start(s.owner.value) !in s.queue && s.owner.value !in s.applied && s.owner.value !in s.failed
    ensures Ticketed(Current(s).phase) ==> s.owner.value in s.applied
    ensures FaultDue(Current(s)) && !s.closing ==> Fault(s.owner.value) in s.queue
    ensures s.applied !! s.failed
  {
  }

  lemma GiveBackGone(fit: Fit)
    ensures GiveBack(fit).phase.Gone? && GiveBack(fit).issued == fit.issued && GiveBack(fit).committed == fit.committed
  {
  }

  lemma FitStepSound(s: State, op: Op)
    requires Inv(s) && s.owner.Some? && s.owner.value < |s.fits| && FitEnabled(s, s.owner.value, Current(s), op)
    ensures Sound(s, NextFit(Current(s), op), Submitted(Current(s), s.owner.value, op))
  {
    CurrentOk(s);
    var fit := Current(s);
    GiveBackGone(fit);
    hide Inv, Holder, SlotsOk, GiveBack, Sound;
    var next, entries := NextFit(fit, op), Submitted(fit, s.owner.value, op);
    if entries == [] {
      SoundNone(s, next);
    } else {
      SoundOne(s, next, entries[0]);
      assert entries == [entries[0]];
    }
  }

  lemma SoundNone(s: State, fit: Fit)
    requires s.owner.Some? && s.owner.value < |s.fits|
    requires fit.phase.Reserving? ==> Current(s).phase.Reserving?
    requires Ticketed(fit.phase) ==> s.owner.value in s.applied
    requires FaultDue(fit) && !s.closing ==> Fault(s.owner.value) in s.queue
    ensures Sound(s, fit, [])
  {
    assert s.queue + [] == s.queue;
  }

  lemma SoundOne(s: State, fit: Fit, e: Entry)
    requires s.owner.Some? && s.owner.value < |s.fits| && e.owner == s.owner.value && !fit.phase.Reserving?
    requires e.Start? ==> Start(e.owner) !in s.queue && e.owner !in s.applied && e.owner !in s.failed
    requires e.Commit? || e.Fault? ==> e.owner in s.applied
    requires e.End? ==> fit.phase.Gone? && (fit.issued && !fit.committed && !s.closing ==> Fault(e.owner) in s.queue)
    requires Ticketed(fit.phase) ==> e.owner in s.applied
    requires FaultDue(fit) && !s.closing ==> e == Fault(e.owner) || Fault(e.owner) in s.queue
    ensures Sound(s, fit, [e])
  {
  }

  lemma FitStepGate(s: State, op: Op)
    requires Inv(s) && s.owner.Some? && s.owner.value < |s.fits| && FitEnabled(s, s.owner.value, Current(s), op)
    ensures GateStep(s, NextFit(Current(s), op), Submitted(Current(s), s.owner.value, op))
  {
    FitStepSlots(s, op);
    CurrentOk(s);
    GiveBackGone(Current(s));
    hide Inv, Holder, SlotsOk, GiveBack, FaultDue;
    match op {
      case TakeSlot(_) =>
      case QueueStart(_) =>
      case Cancel =>
      case SubmitGeometry =>
      case ReleaseFaultSlot =>
      case ReleasePause =>
      case _ =>
    }
  }

  lemma FitStepSlots(s: State, op: Op)
    requires Inv(s) && s.owner.Some? && s.owner.value < |s.fits| && FitEnabled(s, s.owner.value, Current(s), op)
    ensures SlotsOk(NextFit(Current(s), op))
  {
    CurrentOk(s);
    hide Inv, Holder;
  }

  lemma AcquireKeeps(s: State)
    requires Inv(s) && Enabled(s, Acquire)
    ensures Inv(Apply(s, Acquire))
  {
    hide Holder, Bracketed;
    var t := Apply(s, Acquire);
    assert Start(|s.fits|) !in s.queue;
  }

  /** The gate and the faults do not look at what the manager has processed. */
  lemma GateFrame(s: State, t: State)
    requires GateOk(s) && FaultFirst(s)
    requires t == s.(processed := t.processed, applied := t.applied, durable := t.durable)
    ensures GateOk(t) && FaultFirst(t)
  {
    hide Holder;
  }

  lemma ProcessEntries(s: State, ok: bool)
    requires EntriesOk(s) && s.processed < |s.queue|
    ensures EntriesOk(Processed(s, ok))
  {
    var e := s.queue[s.processed];
    assert e.owner < |s.fits|;
  }

  lemma ProcessKeeps(s: State, ok: bool)
    requires Inv(s) && Enabled(s, Process(ok))
    ensures Inv(Apply(s, Process(ok)))
  {
    hide EntriesOk, GateOk, FaultFirst, Bracketed;
    ProcessEntries(s, ok);
    if s.queue[s.processed].Start? && !ok {
      PauseFails(s, s.queue[s.processed].owner);
    } else {
      GateFrame(s, Processed(s, ok));
    }
  }

  lemma NoEntryInside(s: State, a: nat)
    requires EntriesOk(s) && s.processed < |s.queue| && s.queue[s.processed] == Start(a)
    ensures forall n :: 0 <= n < |s.queue| ==> s.queue[n] != Commit(a) && s.queue[n] != Fault(a)
    ensures s.owner.Some? && s.owner.value < |s.fits| && Ticketed(Current(s).phase) ==> s.owner.value != a
    ensures s.owner.Some? && s.owner.value < |s.fits| && Current(s).phase.Reserving? ==> s.owner.value != a
  {
  }

  lemma PauseFails(s: State, a: nat)
    requires Bracketed(s.queue, s.failed) && GateOk(s) && EntriesOk(s) && FaultFirst(s)
    requires s.processed < |s.queue| && s.queue[s.processed] == Start(a)
    ensures var t := s.(processed := s.processed + 1, failed := s.failed + {a});
            Bracketed(t.queue, t.failed) && GateOk(t) && FaultFirst(t)
  {
    NoEntryInside(s, a);
    FailedPause(s.queue, s.failed, a);
    hide Holder, Bracketed, SlotsOk, EntriesOk;
  }

  lemma CloseKeeps(s: State)
    requires Inv(s)
    ensures Inv(Apply(s, BeginClose))
  {
    hide Holder, Bracketed;
  }

  lemma StepKeepsInv(s: State, op: Op)
    requires Inv(s) && Enabled(s, op)
    ensures Inv(Apply(s, op))
  {
    hide Inv, Processed, Move, NextFit, Submitted, FitEnabled, Sound, GateStep;
    match op {
      case Acquire => AcquireKeeps(s);
      case Process(ok) => ProcessKeeps(s, ok);
      case BeginClose => CloseKeeps(s);
      case _ =>
        FitStepSound(s, op);
        FitStepGate(s, op);
        MoveKeeps(s, NextFit(Current(s), op), Submitted(Current(s), s.owner.value, op));
    }
  }

  // ---- Every run -------------------------------------------------------------------------------------------

  ghost predicate Run(trace: seq<State>, ops: seq<Op>) {
    && |trace| == |ops| + 1 && trace[0] == Idle()
    && forall i :: 0 <= i < |ops| ==> Enabled(trace[i], ops[i]) && trace[i + 1] == Apply(trace[i], ops[i])
  }

  lemma {:induction false} RunKeepsInv(trace: seq<State>, ops: seq<Op>, i: nat)
    requires Run(trace, ops) && i < |trace|
    ensures Inv(trace[i])
  {
    hide Inv, Apply, Enabled;
    if i == 0 {
      IdleInv();
    } else {
      RunKeepsInv(trace, ops, i - 1);
      assert Enabled(trace[i - 1], ops[i - 1]) && trace[i] == Apply(trace[i - 1], ops[i - 1]);
      StepKeepsInv(trace[i - 1], ops[i - 1]);
    }
  }

  lemma IdleInv()
    ensures Inv(Idle())
  {
  }

  /** In every run, every pause that takes effect is ended by its own owner before any other pause starts. */
  lemma EveryPauseEndsItself(trace: seq<State>, ops: seq<Op>, t: nat, i: nat, j: nat)
    requires Run(trace, ops) && t < |trace| && i < j < |trace[t].queue|
    requires trace[t].queue[i].Start? && trace[t].queue[i].owner !in trace[t].failed && trace[t].queue[j].Start?
    ensures exists k :: i < k < j && trace[t].queue[k] == End(trace[t].queue[i].owner)
  {
    RunKeepsInv(trace, ops, t);
    OwnEndFirst(trace[t].queue, trace[t].failed, i, j);
  }

  /** A Fit whose command was issued and never durably committed has its fault in the queue before its end. */
  lemma FaultBeforeEnd(trace: seq<State>, ops: seq<Op>, t: nat, k: nat)
    requires Run(trace, ops) && t < |trace| && k < |trace[t].queue| && trace[t].queue[k].End?
    ensures var a := trace[t].queue[k].owner;
            a < |trace[t].fits| &&
            (trace[t].fits[a].issued && !trace[t].fits[a].committed ==> Fault(a) in trace[t].queue[..k])
  {
    RunKeepsInv(trace, ops, t);
  }

  /** A Fit that is over has used each slot it took exactly once. */
  lemma SlotsUsedOnce(trace: seq<State>, ops: seq<Op>, t: nat, a: nat)
    requires Run(trace, ops) && t < |trace| && a < |trace[t].fits| && trace[t].fits[a].phase.Gone?
    ensures var fit := trace[t].fits[a];
            && fit.commitUses == (if fit.taken > 0 then 1 else 0)
            && fit.releaseUses == (if fit.taken > 1 then 1 else 0)
            && fit.faultUses == (if fit.taken > 2 then 1 else 0)
  {
    RunKeepsInv(trace, ops, t);
    assert SlotsOk(trace[t].fits[a]);
  }

  /** When no Fit is under way and close has not begun, no pause is left in force. */
  lemma NothingStranded(trace: seq<State>, ops: seq<Op>, t: nat)
    requires Run(trace, ops) && t < |trace| && trace[t].owner.None? && !trace[t].closing
    ensures Holder(trace[t].queue, trace[t].failed) == None
  {
    RunKeepsInv(trace, ops, t);
  }
}