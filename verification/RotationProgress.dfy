/** Exactly when a rotation's transaction begins, validates, commits and aborts, what each end leaves behind, and that
    an undisturbed rotation succeeds. */
module RotationProgress {
  import opened Basics
  import opened Credits
  import opened Journal
  import opened Retention
  import opened RetentionLedger
  import opened RetentionSteps
  import opened RetentionInvariant
  import opened RetentionRuns
  import opened RetentionReach
  import opened RetentionProgress
  import opened RetentionEffects
  import opened PaneRotation
  import opened RotationSettlement
  import opened RotationDriver
  import opened RotationReach

  // ---- What the settlement looks for -------------------------------------------------------------------------

  /** The session's router routes the predecessor, and no other admitted route of that session is live. */
  ghost predicate Alone(g: Registry, previous: PaneKey) {
    && SessionOf(previous) in g.sessions
    && g.sessions[SessionOf(previous)].generation == previous.controlGeneration
    && previous in g.sessions[SessionOf(previous)].routed
    && RouteOf(previous) in g.admitted && g.admitted[RouteOf(previous)] == Admission(previous, false)
    && forall route :: route in g.admitted && route != RouteOf(previous) ==>
         || SessionOf(g.admitted[route].pane) != SessionOf(previous)
         || g.admitted[route].pane.controlGeneration != previous.controlGeneration
         || g.admitted[route].pane !in g.sessions[SessionOf(previous)].routed
  }

  /** The registry is open, the transaction owns its route and its key, and the session, the coordinates and the
      admissions are the ones it captured. */
  ghost predicate Unmoved(w: World) {
    var g := w.registry;
    var t := w.txn;
    && !g.closing && !g.broken && Alone(g, t.previous) && RouteOf(t.next) !in g.admitted
    && RouteOf(t.previous) in g.rotations && g.rotations[RouteOf(t.previous)] == t.id
    && t.next in g.rotationGenerations && g.rotationGenerations[t.next] == t.id
    && g.sessions[SessionOf(t.previous)].id == t.session
    && CoordinateOf(t.previous) in g.panes && g.panes[CoordinateOf(t.previous)] == t.coordinator
    && (if t.refit then CoordinateOf(t.next) !in g.panes
        else CoordinateOf(t.next) in g.panes && g.panes[CoordinateOf(t.next)] == t.coordinator)
  }

  /** The generation `n` is the one the key stands for. */
  predicate Is(r: State, key: PaneKey, n: nat) {
    key in r.table && r.table[key] == n && n < |r.gens|
  }

  /** The published key and its unit are still the ones the transaction started from. */
  predicate StillPublished(w: World) {
    w.provider.active == Some(w.txn.previous) && w.provider.live && w.provider.witnesses == w.txn.witnesses
  }

  ghost predicate MayValidate(w: World) {
    var r := w.runtime;
    var t := w.txn;
    && !t.settled && t.bootstrapAttempted && t.initial == Some(true) && StillPublished(w) && Unmoved(w)
    && Is(r, t.previous, t.predecessor) && r.gens[t.predecessor].admitted && !r.gens[t.predecessor].failed
    && Is(r, t.next, t.successor) && !r.gens[t.successor].admitted && !r.gens[t.successor].failed
  }

  /** Everything a commit needs: the predecessor is live before the seal, and after it gone or retiring; the successor
      is the exact one and nothing has happened to it. */
  ghost predicate MayCommit(w: World) {
    var r := w.runtime;
    var t := w.txn;
    && t.validated && t.initial == Some(true) && StillPublished(w) && Unmoved(w)
    && Is(r, t.next, t.successor)
    && !r.gens[t.successor].admitted && !r.gens[t.successor].failed
    && !r.gens[t.successor].abandoned && !r.gens[t.successor].retireRequested
    && (if t.sealed
        then t.previous in r.table ==>
               && Is(r, t.previous, t.predecessor) && r.gens[t.predecessor].retireRequested
               && !r.gens[t.predecessor].admitted && !r.gens[t.predecessor].failed
        else Is(r, t.previous, t.predecessor) && r.gens[t.predecessor].admitted && !r.gens[t.predecessor].failed)
  }

  /** One live route is the predecessor's own. */
  lemma LiveRoute(w: World)
    requires RouteOf(w.txn.previous) in w.registry.admitted
    requires w.registry.admitted[RouteOf(w.txn.previous)] == Admission(w.txn.previous, false)
    requires SessionOf(w.txn.previous) in w.registry.sessions
    requires Eligible(w.registry.sessions[SessionOf(w.txn.previous)], w.txn.previous)
    ensures SingleSessionRoute(w) <==> Alone(w.registry, w.txn.previous)
  {
    var name := SessionOf(w.txn.previous);
    var mine := RouteOf(w.txn.previous);
    var live := set route | route in w.registry.admitted &&
                            SessionOf(w.registry.admitted[route].pane) == name &&
                            Eligible(w.registry.sessions[name], w.registry.admitted[route].pane);
    assert mine in live;
    if forall route :: route in live ==> route == mine {
      assert live == {mine};
      assert SingleSessionRoute(w);
      forall route | route in w.registry.admitted && route != mine
        ensures SessionOf(w.registry.admitted[route].pane) != name ||
                !Eligible(w.registry.sessions[name], w.registry.admitted[route].pane)
      {
        assert route !in live;
      }
    } else {
      var other :| other in live && other != mine;
      assert {mine, other} <= live;
      SubsetSize({mine, other}, live);
      assert !SingleSessionRoute(w);
    }
  }

  lemma SubsetSize<T>(a: set<T>, b: set<T>)
    requires a <= b
    ensures |a| <= |b|
  {
    assert b == a + (b - a);
  }

  lemma ExactIff(w: World)
    ensures RegistryExact(w) <==> Unmoved(w)
  {
    var g := w.registry;
    var t := w.txn;
    if && RouteOf(t.previous) in g.admitted && g.admitted[RouteOf(t.previous)] == Admission(t.previous, false)
       && SessionOf(t.previous) in g.sessions && Eligible(g.sessions[SessionOf(t.previous)], t.previous) {
      LiveRoute(w);
    }
    hide SingleSessionRoute;
  }

  // ---- Validating and committing -----------------------------------------------------------------------------

  lemma MayValidateIff(w: World)
    ensures MayValidate(w) <==>
              && !w.txn.settled && w.txn.bootstrapAttempted && ProviderValid(w) && w.txn.initial == Some(true)
              && AssumptionsHold(w)
  {
    ExactIff(w);
    hide RegistryExact, Unmoved;
  }

  /** The transaction is validated exactly when everything it captured still holds after a successful bootstrap; the
      bootstrap starts once, and only a validated transaction can be sealed. Nothing else moves. */
  lemma ValidatesIff(w: World)
    ensures Validate(w) == w.(txn := w.txn.(validated := w.txn.validated || MayValidate(w)))
    ensures WriteBootstrap(w) == w.(txn := w.txn.(bootstrapAttempted := w.txn.bootstrapAttempted || !w.txn.settled))
    ensures RecordSeal(w) == w.(txn := w.txn.(sealed := w.txn.sealed || (w.txn.validated && !w.txn.settled)))
  {
    ExactIff(w);
    hide RegistryExact, Unmoved;
  }

  /** A transaction not settled before ends committed if and only if everything the commit needs is there, with the
      whole successor in place of the predecessor, and otherwise fatally with no part of it; either way it lets go of
      its route and its key. */
  lemma CommitsIff(w: World)
    requires WorldInv(w) && !w.runtime.closed && w.txn.begun && !w.txn.settled && TableOk(w)
    ensures var c := Commit(w);
            && c.txn.settled && c.txn.settlements == 1
            && (c.txn.disposition == Committed <==> MayCommit(w)) && (c.txn.disposition == Fatal <==> !MayCommit(w))
            && (if MayCommit(w) then WhollyInstalled(w, c) else c.provider == w.provider)
            && RouteOf(w.txn.previous) !in c.registry.rotations && w.txn.next !in c.registry.rotationGenerations
  {
    ExactIff(w);
    hide RegistryExact, Unmoved, Books, Admit, Routed, FaultSuccessor, SingleSessionRoute;
    CommitAllOrNothing(w);
    CommitLetsGo(w);
    hide Commit, WhollyInstalled;
  }

  lemma CommitLetsGo(w: World)
    requires TableOk(w) && !w.txn.settled
    ensures RouteOf(w.txn.previous) !in Commit(w).registry.rotations
    ensures w.txn.next !in Commit(w).registry.rotationGenerations
  {
    hide CommitValid, FaultSuccessor, Routed, Admit, TailsWithout;
  }

  /** A settled transaction keeps its end. */
  lemma SettledStays(w: World)
    requires TableOk(w) && w.txn.settled
    ensures Commit(w) == w && FatalSettle(w) == w && AbortTxn(w).0 == w
    ensures AbortTxn(w).1 <==> w.txn.disposition == Aborted
  {
  }

  // ---- Aborting ----------------------------------------------------------------------------------------------

  /** Retention proves the exact predecessor abortable, and the successor is gone or the exact unadmitted one. */
  predicate MayAbort(w: World) {
    var r := w.runtime;
    var t := w.txn;
    && !t.sealed
    && Is(r, t.previous, t.predecessor) && r.gens[t.predecessor].admitted
    && !r.gens[t.predecessor].retireRequested && !r.gens[t.predecessor].failed
    && (t.next in r.table ==> Is(r, t.next, t.successor) && !r.gens[t.successor].admitted)
  }

  /** An abort is granted exactly then. It abandons the successor, which retires once due, lets go of the route and the
      key, and leaves every route, coordinate and session and the provider as they were; a refusal changes nothing. */
  lemma AbortsIff(w: World)
    requires WorldInv(w) && !w.runtime.closed && !w.txn.settled && TableOk(w)
    ensures var (a, ok) := AbortTxn(w);
            var t := w.txn;
            && (ok <==> MayAbort(w))
            && (if ok then
                  && a.txn == PaneRotation.Settle(t, Aborted) && a.registry == RemoveOwnership(w.registry, t)
                  && a.provider == w.provider
                  && (if t.next in w.runtime.table
                      then ChangedAndRetired(w.runtime, a.runtime, t.successor,
                                             w.runtime.gens[t.successor].(abandoned := true, retireRequested := true))
                      else a.runtime == w.runtime)
                else a == w)
  {
    InvWellFormed(w.runtime);
    AbortIff(w.runtime, w.txn.previous, w.txn.predecessor, w.txn.next, w.txn.successor, true);
    hide Books, AbortRotation, ChangedAndRetired, RemoveOwnership, WellFormed, NoMixture;
  }

  // ---- Failures ----------------------------------------------------------------------------------------------

  /** What publishing a failure does, by whom the key belongs to: nothing of a broken registry or of an owned or
      abandoned generation; otherwise the exact healthy admission is marked and counted; with no exact admission, or
      none left to count, the registry breaks. */
  lemma PublishOutcome(w: World, key: PaneKey)
    ensures var g := w.registry;
            var p := PublishFailure(w, key);
            var owned := key in g.rotationGenerations && g.rotationGenerations[key] == w.txn.id && !w.txn.settled;
            var dropped := key in w.runtime.table && w.runtime.table[key] < |w.runtime.gens| &&
                           w.runtime.gens[w.runtime.table[key]].abandoned && !w.runtime.gens[w.runtime.table[key]].admitted;
            var exact := RouteOf(key) in g.admitted && g.admitted[RouteOf(key)].pane.incarnation == key.incarnation;
            && p == w.(registry := p.registry)
            && (g.broken || owned || dropped ==> p == w)
            && (!g.broken && !owned && !dropped && exact && (g.admitted[RouteOf(key)].failed || g.failures < w.runtime.options.maxPanes) ==>
                  && p.registry.admitted == g.admitted[RouteOf(key) := g.admitted[RouteOf(key)].(failed := true)]
                  && p.registry.failures == g.failures + (if g.admitted[RouteOf(key)].failed then 0 else 1)
                  && p.registry == g.(admitted := p.registry.admitted, failures := p.registry.failures))
            && (!g.broken && !owned && !dropped && !(exact && (g.admitted[RouteOf(key)].failed || g.failures < w.runtime.options.maxPanes)) ==>
                  p.registry.broken && p.registry.admitted == map[] && p.registry.rotations == map[])
  {
    var g := w.registry;
    var exact := RouteOf(key) in g.admitted && g.admitted[RouteOf(key)].pane.incarnation == key.incarnation;
    if exact && g.admitted[RouteOf(key)].failed {
      assert g.admitted[RouteOf(key) := g.admitted[RouteOf(key)].(failed := true)] == g.admitted;
    }
  }

  /** A faulted key that has a generation, the one meant if one is named, has a failed one afterwards. */
  lemma FaultMarks(w: World, key: PaneKey, only: Option<nat>)
    requires TableOk(w)
    ensures var f := FaultKey(w, key, only);
            && (key in w.runtime.table && (only.None? || only.value == w.runtime.table[key]) ==>
                  f.runtime.gens[w.runtime.table[key]].failed)
            && forall g :: 0 <= g < |w.runtime.gens| && w.runtime.gens[g].failed ==> f.runtime.gens[g].failed
  {
    hide PublishFailure;
    PublishFrame(w.(runtime := FaultIfPresent(w.runtime, key, only).0), key);
  }

  /** Whether an admission or a router still leads to `key`. */
  predicate Routable(g: Registry, key: PaneKey) {
    && RouteOf(key) in g.admitted && g.admitted[RouteOf(key)].pane == key && !g.admitted[RouteOf(key)].failed
    && SessionOf(key) in g.sessions && Eligible(g.sessions[SessionOf(key)], key)
  }

  /** A fatal settlement ends the transaction once, fails its exact successor, and lets go of the route and the key. */
  lemma FatalOutcome(w: World)
    requires TableOk(w) && !w.txn.settled
    ensures var f := FatalSettle(w);
            && f.txn == PaneRotation.Settle(w.txn, Fatal) && f.provider == w.provider
            && RouteOf(w.txn.previous) !in f.registry.rotations && w.txn.next !in f.registry.rotationGenerations
            && (Is(w.runtime, w.txn.next, w.txn.successor) ==> f.runtime.gens[w.txn.successor].failed)
  {
    FaultMarks(w, w.txn.next, Some(w.txn.successor));
    hide FaultKey;
  }

  /** A failed key is no longer published, routed or attached to. */
  ghost predicate CutOff(w: World, key: PaneKey) {
    && w.provider.active != Some(key) && !Routable(w.registry, key)
    && forall tail :: tail in w.provider.tails ==> tail.1 != key
  }

  lemma HiddenIsCut(w: World, key: PaneKey, gone: set<PaneKey>)
    requires key in gone
    ensures var h := w.(provider := Withdraw(w.provider, key), registry := Ineligible(w.registry, key, gone));
            h.provider.active != Some(key) && !Routable(h.registry, key)
  {
  }

  lemma FaultStaysCut(w: World, key: PaneKey, only: Option<nat>)
    requires TableOk(w) && w.provider.active != Some(key) && !Routable(w.registry, key)
    ensures var f := FaultKey(w, key, only);
            f.provider == w.provider && !Routable(f.registry, key)
  {
    hide FaultIfPresent;
  }

  /** The installed successor is failed if it still has its generation, and cut off. */
  lemma InstalledFails(w: World)
    requires TableOk(w)
    ensures var f := FailInstalled(w);
            && CutOff(f, w.txn.next) && f.txn == w.txn
            && (Is(w.runtime, w.txn.next, w.txn.successor) ==> f.runtime.gens[w.txn.successor].failed)
  {
    var key := w.txn.next;
    var hidden := w.(provider := Withdraw(w.provider, key), registry := Ineligible(w.registry, key, {key}));
    HiddenIsCut(w, key, {key});
    hide Withdraw, Ineligible;
    FaultMarks(hidden, key, Some(w.txn.successor));
    FaultStaysCut(hidden, key, Some(w.txn.successor));
    hide FaultKey, Routable;
  }

  /** So is the predecessor of a refit, which then waits for the unlink of its journal; its route goes because it is
      the key replaced, or because the session routes nothing any more. */
  lemma PredecessorFails(w: World, fate: SourceFate)
    requires TableOk(w)
    ensures var f := FailPredecessor(w, fate);
            && CutOff(f, w.txn.previous) && f.txn == w.txn
            && (w.txn.previous in w.runtime.table ==>
                  var g := w.runtime.table[w.txn.previous];
                  f.runtime.gens[g].failed && f.runtime.gens[g].durableRequested)
  {
    var key := w.txn.previous;
    var gone := match fate
                case Replaced(taker) => {key, taker}
                case _ => if SessionOf(key) in w.registry.sessions then w.registry.sessions[SessionOf(key)].routed else {};
    var hidden := w.(provider := Withdraw(w.provider, key), registry := Ineligible(w.registry, key, gone));
    if key in gone {
      HiddenIsCut(w, key, gone);
    }
    assert hidden.provider.active != Some(key) && !Routable(hidden.registry, key);
    hide Withdraw, Ineligible;
    FaultMarks(hidden, key, None);
    FaultStaysCut(hidden, key, None);
    hide FaultKey, Routable;
  }

  lemma BothDetached(w: World, held: bool)
    requires TableOk(w)
    ensures Detached(RetainBoth(w, held))
  {
    hide FaultKey, RemoveOwnership;
  }

  /** An uncertain refit fails both generations where they exist, ends every attachment and settles what is held. */
  lemma BothFail(w: World, held: bool)
    requires TableOk(w)
    ensures var r := RetainBoth(w, held);
            && (forall key :: key in {w.txn.previous, w.txn.next} && key in w.runtime.table ==>
                  r.runtime.gens[w.runtime.table[key]].failed)
            && Detached(r) && !r.provider.live
            && (r.txn.settled <==> w.txn.settled || held)
  {
    FaultMarks(w, w.txn.previous, None);
    var one := FaultKey(w, w.txn.previous, None);
    FaultMarks(one, w.txn.next, None);
    hide FaultKey, RemoveOwnership, TailsWithout, Detached;
    BothDetached(w, held);
  }

  // ---- The deferred restore ----------------------------------------------------------------------------------

  /** The rotation can still be undone, and the registry lets go of it with the stream intact. */
  predicate LetsGo(d: Drive, k: Weather) {
    && !d.driver.ponr && !d.driver.streamFailed
    && (d.driver.held ==> MayAbort(d.world) && !k.lostAborting)
  }

  /** The first move of a restore: refused, or past the point of no return, it turns to the fatal settlement. */
  lemma DecideOutcome(d: Drive)
    requires WorldInv(d.world) && (d.driver.held && !d.driver.ponr ==> !d.world.txn.settled)
    requires TableOk(d.world) && !d.world.runtime.closed
    ensures var v := d.driver;
            var e := Decide(d);
            && e.world.txn.refit == d.world.txn.refit
            && e.driver == if v.ponr || v.streamFailed then v.(phase := Failing)
                           else if v.held && !MayAbort(d.world) then v.(phase := Failing, ponr := true)
                           else v.(phase := Replaying, held := false)
  {
    if d.driver.held && !d.driver.ponr {
      AbortsIff(d.world);
    }
    AbortFrame(d.world);
    hide WorldInv, AbortTxn, MayAbort, ChangedAndRetired;
  }

  lemma TerminatedOutcome(d: Drive, fate: SourceFate)
    requires TableOk(d.world)
    ensures var r := Terminated(d, fate).driver;
            && r.phase.Ended? && r.settlements == d.driver.settlements + 1 && !r.held
            && r.outcome == if d.world.txn.refit && fate.Uncertain? then Retained else Reaped
  {
    hide RetainBoth, FailAuthority;
  }

  /** How a deferred restore ends, by what it meets. */
  lemma RestoreOutcome(d: Drive, k: Weather)
    requires DriveInv(d) && d.driver.phase.Undoing? && TableOk(d.world) && !d.world.runtime.closed
    ensures var v := d.driver;
            var r := Restore(d, k).driver;
            r.phase.Ended? && r.settlements == v.settlements + 1 && !r.held &&
            r.outcome ==
              if LetsGo(d, k) && !v.flipped then Restored
              else if LetsGo(d, k) && ((v.journal.NoJournal? && !k.armed) || !k.written) then Unreplayed
              else if LetsGo(d, k) && !k.lostReplaying then (if k.ok then Restored else Unreplayed)
              else if d.world.txn.refit && k.fate.Uncertain? then Retained
              else Reaped
  {
    DecideOutcome(d);
    var e := Verdict(d, k);
    TerminatedOutcome(e, k.fate);
    hide WorldInv, Decide, MayAbort, Terminated;
  }
}
