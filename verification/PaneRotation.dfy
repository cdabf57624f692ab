/** The registry transaction that hands a session from one generation to its successor: validated, sealed, then
    settled once as committed, aborted or fatal. */
module PaneRotation {
  import opened Basics
  import opened Credits
  import opened Journal
  import opened Retention
  import opened RetentionLedger
  import opened RetentionSteps
  import opened RetentionInvariant
  import opened RetentionRuns

  // ---- Names: a pane witness carries the same six facts as its journal key ---------------------------------

  datatype SessionName = SessionName(server: string, session: string)
  datatype Coordinate = Coordinate(server: string, session: string, window: string, pane: string, incarnation: string)
  datatype Route = Route(server: string, session: string, controlGeneration: nat, window: string, pane: string)

  function SessionOf(w: PaneKey): SessionName {
    SessionName(w.server, w.session)
  }

  function CoordinateOf(w: PaneKey): Coordinate {
    Coordinate(w.server, w.session, w.window, w.pane, w.incarnation)
  }

  function RouteOf(w: PaneKey): Route {
    Route(w.server, w.session, w.controlGeneration, w.window, w.pane)
  }

  /** A rotation keeps the pane and changes only the control generation. */
  predicate SameRotationCoordinate(previous: PaneKey, next: PaneKey) {
    CoordinateOf(previous) == CoordinateOf(next) && previous.controlGeneration != next.controlGeneration
  }

  /** A refit also changes the incarnation, which names the geometry. */
  predicate SameRefitCoordinate(previous: PaneKey, next: PaneKey) {
    && previous.server == next.server && previous.session == next.session
    && previous.window == next.window && previous.pane == next.pane
    && previous.incarnation != "" && next.incarnation != "" && previous.incarnation != next.incarnation
    && previous.controlGeneration != next.controlGeneration
  }

  // ---- State -----------------------------------------------------------------------------------------------

  /** A session's router; `id` stands for its identity, `routed` for the panes it can route. */
  datatype Router = Router(id: nat, generation: nat, routed: set<PaneKey>)

  datatype Admission = Admission(pane: PaneKey, failed: bool)

  /** `failures` counts the admissions marked failed, which the breaker bounds by the number of panes. */
  datatype Registry = Registry(closing: bool, broken: bool, failures: nat, sessions: map<SessionName, Router>,
                               panes: map<Coordinate, nat>, admitted: map<Route, Admission>,
                               rotations: map<Route, nat>, rotationGenerations: map<PaneKey, nat>)

  /** The provider: the published key, its unit's witnesses, and the keys open tails were registered on. */
  datatype Provider = Provider(active: Option<PaneKey>, live: bool, witnesses: seq<PaneKey>, tails: set<(nat, PaneKey)>)

  datatype Disposition = Committed | Aborted | Fatal

  /** `begun` says the registry has registered the transaction; before, only its two names and its identities count. */
  datatype Txn = Txn(begun: bool, id: nat, previous: PaneKey, next: PaneKey, refit: bool, session: nat, successorRouter: Router,
                     coordinator: nat, predecessor: nat, successor: nat, witnesses: seq<PaneKey>,
                     bootstrapAttempted: bool, initial: Option<bool>, published: bool, validated: bool, sealed: bool,
                     settled: bool, disposition: Disposition, settlements: nat)

  datatype World = World(runtime: State, registry: Registry, provider: Provider, txn: Txn)

  predicate Eligible(router: Router, w: PaneKey) {
    w.controlGeneration == router.generation && w in router.routed
  }

  /** Exactly one live route of the session is admitted, and it is the predecessor's. */
  predicate SingleSessionRoute(w: World) {
    var name := SessionOf(w.txn.previous);
    name in w.registry.sessions &&
    var live := set route | route in w.registry.admitted &&
                            SessionOf(w.registry.admitted[route].pane) == name &&
                            Eligible(w.registry.sessions[name], w.registry.admitted[route].pane);
    |live| == 1 && forall route :: route in live ==> w.registry.admitted[route].pane == w.txn.previous
  }

  predicate SuccessorCoordinateAvailable(w: World) {
    var at := CoordinateOf(w.txn.next);
    if w.txn.refit then at !in w.registry.panes
    else at in w.registry.panes && w.registry.panes[at] == w.txn.coordinator
  }

  /** What both predicates demand of the registry. */
  predicate RegistryExact(w: World) {
    var g := w.registry;
    var t := w.txn;
    && !g.closing && !g.broken
    && RouteOf(t.previous) in g.rotations && g.rotations[RouteOf(t.previous)] == t.id
    && t.next in g.rotationGenerations && g.rotationGenerations[t.next] == t.id
    && SessionOf(t.previous) in g.sessions && g.sessions[SessionOf(t.previous)].id == t.session
    && CoordinateOf(t.previous) in g.panes && g.panes[CoordinateOf(t.previous)] == t.coordinator
    && SuccessorCoordinateAvailable(w)
    && Eligible(g.sessions[SessionOf(t.previous)], t.previous)
    && RouteOf(t.previous) in g.admitted && g.admitted[RouteOf(t.previous)] == Admission(t.previous, false)
    && RouteOf(t.next) !in g.admitted
    && SingleSessionRoute(w)
  }

  predicate SuccessorExact(w: World) {
    var r := w.runtime;
    && w.txn.next in r.table && r.table[w.txn.next] == w.txn.successor && w.txn.successor < |r.gens|
    && !r.gens[w.txn.successor].admitted && !r.gens[w.txn.successor].failed
  }

  predicate PredecessorLive(w: World) {
    var r := w.runtime;
    && w.txn.previous in r.table && r.table[w.txn.previous] == w.txn.predecessor && w.txn.predecessor < |r.gens|
    && r.gens[w.txn.predecessor].admitted && !r.gens[w.txn.predecessor].failed
  }

  /** After the seal the predecessor is gone, or is the exact one and retiring. */
  predicate PredecessorSealed(w: World) {
    var r := w.runtime;
    w.txn.previous !in r.table ||
    (&& r.table[w.txn.previous] == w.txn.predecessor && w.txn.predecessor < |r.gens|
     && r.gens[w.txn.predecessor].retireRequested && !r.gens[w.txn.predecessor].admitted
     && !r.gens[w.txn.predecessor].failed)
  }

  predicate AssumptionsHold(w: World) {
    RegistryExact(w) && PredecessorLive(w) && SuccessorExact(w)
  }

  predicate SealedAssumptionsHold(w: World) {
    RegistryExact(w) && PredecessorSealed(w) && SuccessorExact(w)
  }

  /** The provider still publishes the predecessor through the same live unit. */
  predicate ProviderValid(w: World) {
    w.provider.active == Some(w.txn.previous) && w.provider.live && w.provider.witnesses == w.txn.witnesses
  }

  // ---- Settlement ------------------------------------------------------------------------------------------

  function RemoveOwnership(g: Registry, t: Txn): Registry {
    g.(rotations := g.rotations - {RouteOf(t.previous)}, rotationGenerations := g.rotationGenerations - {t.next})
  }

  function Settle(t: Txn, d: Disposition): Txn {
    t.(settled := true, disposition := d, settlements := t.settlements + 1)
  }

  /** publishRetentionFailureLocked: a fault of a generation an unsettled transaction owns, or of an abandoned
      successor, stays local; otherwise it marks the exact admission once, or breaks the registry. */
  function PublishFailure(w: World, key: PaneKey): World {
    var g := w.registry;
    var exact := RouteOf(key) in g.admitted && g.admitted[RouteOf(key)].pane.incarnation == key.incarnation;
    if g.broken then w
    else if key in g.rotationGenerations && g.rotationGenerations[key] == w.txn.id && !w.txn.settled then w
    else if key in w.runtime.table && w.runtime.table[key] < |w.runtime.gens| &&
            w.runtime.gens[w.runtime.table[key]].abandoned && !w.runtime.gens[w.runtime.table[key]].admitted then w
    else if exact && g.admitted[RouteOf(key)].failed then w
    else if exact && g.failures < w.runtime.options.maxPanes then
      w.(registry := g.(failures := g.failures + 1,
                        admitted := g.admitted[RouteOf(key) := g.admitted[RouteOf(key)].(failed := true)]))
    else w.(registry := g.(broken := true, failures := 0, admitted := map[], rotations := map[],
                           rotationGenerations := map[]))
  }

  /** Fault a key that still has a generation, or the one meant, and publish what that means for its route. */
  function FaultKey(w: World, key: PaneKey, only: Option<nat>): (f: World)
    requires forall k :: k in w.runtime.table ==> w.runtime.table[k] < |w.runtime.gens|
    ensures f.runtime.table == w.runtime.table && |f.runtime.gens| == |w.runtime.gens|
    ensures f.provider == w.provider && f.txn == w.txn
  {
    var (r, winner) := FaultIfPresent(w.runtime, key, only);
    if winner then PublishFailure(w.(runtime := r), key) else w.(runtime := r)
  }

  /** The successor is faulted while the transaction still owns it, if it is still the exact one. */
  function FaultSuccessor(w: World): World
    requires forall k :: k in w.runtime.table ==> w.runtime.table[k] < |w.runtime.gens|
  {
    FaultKey(w, w.txn.next, Some(w.txn.successor))
  }

  function SettleFatally(w: World): (f: World)
    requires forall k :: k in w.runtime.table ==> w.runtime.table[k] < |w.runtime.gens|
    ensures f.runtime.table == w.runtime.table && |f.runtime.gens| == |w.runtime.gens| && f.provider == w.provider
    ensures f.txn.settled && f.txn.disposition == Fatal && f.txn.settlements == w.txn.settlements + 1
  {
    var f := FaultSuccessor(w);
    f.(registry := RemoveOwnership(f.registry, w.txn), txn := Settle(w.txn, Fatal))
  }

  /** markAdmittedLocked against the exact expected successor. */
  predicate CanAdmit(r: State, key: PaneKey, expected: nat) {
    && key in r.table && r.table[key] == expected && expected < |r.gens|
    && !r.gens[expected].abandoned && !r.gens[expected].retireRequested && !r.gens[expected].failed
  }

  predicate CommitValid(w: World) {
    && ProviderValid(w) && w.txn.validated
    && (if w.txn.sealed then SealedAssumptionsHold(w) else AssumptionsHold(w))
    && w.txn.initial == Some(true)
    && CanAdmit(w.runtime, w.txn.next, w.txn.successor)
  }

  /** The successor's router, coordinate and admission in place of the predecessor's. */
  function Routed(g: Registry, t: Txn): Registry {
    var moved := if t.refit then (g.panes - {CoordinateOf(t.previous)})[CoordinateOf(t.next) := t.coordinator] else g.panes;
    g.(sessions := g.sessions[SessionOf(t.next) := t.successorRouter], panes := moved,
       admitted := (g.admitted - {RouteOf(t.previous)})[RouteOf(t.next) := Admission(t.next, false)])
  }

  /** The open tails that read another generation. */
  function TailsWithout(tails: set<(nat, PaneKey)>, key: PaneKey): set<(nat, PaneKey)> {
    set tail | tail in tails && tail.1 != key
  }

  /** Install the successor: router, coordinate, admission, active key and witness together, and close the
      predecessor's tails before anything can attach. */
  function Install(w: World): World
    requires w.txn.next in w.runtime.table ==> w.runtime.table[w.txn.next] < |w.runtime.gens|
  {
    var t := w.txn;
    w.(runtime := Admit(w.runtime, t.next), registry := RemoveOwnership(Routed(w.registry, t), t),
       provider := w.provider.(active := Some(t.next), witnesses := w.provider.witnesses + [t.next],
                               tails := TailsWithout(w.provider.tails, t.previous)),
       txn := Settle(t, Committed).(published := true))
  }

  function Commit(w: World): World
    requires forall k :: k in w.runtime.table ==> w.runtime.table[k] < |w.runtime.gens|
  {
    if w.txn.settled then w else if CommitValid(w) then Install(w) else SettleFatally(w)
  }

  function FatalSettle(w: World): (f: World)
    requires forall k :: k in w.runtime.table ==> w.runtime.table[k] < |w.runtime.gens|
    ensures f.runtime.table == w.runtime.table && |f.runtime.gens| == |w.runtime.gens| && f.provider == w.provider
  {
    if w.txn.settled then w else SettleFatally(w)
  }

  /** Abort: refused once sealed, or unless retention proves the exact predecessor abortable. */
  function AbortTxn(w: World): (World, bool)
    requires forall k :: k in w.runtime.table ==> w.runtime.table[k] < |w.runtime.gens|
  {
    var t := w.txn;
    if t.settled then (w, t.disposition == Aborted)
    else if t.sealed then (w, false)
    else
      var (r, allowed) := AbortRotation(w.runtime, t.previous, t.predecessor, t.next, t.successor, true);
      if !allowed then (w, false)
      else (w.(runtime := r, registry := RemoveOwnership(w.registry, t), txn := Settle(t, Aborted)), true)
  }

  /** Validate: the final fallible step, after the bootstrap has settled. */
  function Validate(w: World): World {
    if !w.txn.settled && w.txn.bootstrapAttempted && ProviderValid(w) && w.txn.initial == Some(true) && AssumptionsHold(w)
    then w.(txn := w.txn.(validated := true)) else w
  }

  /** WriteBootstrap starts the successor's initial recording, once. */
  function WriteBootstrap(w: World): World {
    if w.txn.settled || w.txn.bootstrapAttempted then w else w.(txn := w.txn.(bootstrapAttempted := true))
  }

  /** markSealed records the retiring boundary that came back green. */
  function RecordSeal(w: World): World {
    if w.txn.validated && !w.txn.settled then w.(txn := w.txn.(sealed := true)) else w
  }

  // ---- Beginning -------------------------------------------------------------------------------------------

  /** The unit's witnesses of the active control generation are the predecessor, once. */
  predicate SoleWitness(witnesses: seq<PaneKey>, previous: PaneKey, next: PaneKey) {
    && next !in witnesses
    && Count(witnesses, (x: PaneKey) => x == previous) == 1
    && forall i :: 0 <= i < |witnesses| && witnesses[i].controlGeneration == previous.controlGeneration ==>
         witnesses[i] == previous
  }

  predicate CanBegin(w: World) {
    var t := w.txn;
    && (if t.refit then SameRefitCoordinate(t.previous, t.next) else SameRotationCoordinate(t.previous, t.next))
    && w.provider.active == Some(t.previous) && w.provider.live && SoleWitness(w.provider.witnesses, t.previous, t.next)
    && t.next !in w.runtime.table && !w.runtime.closing && !w.runtime.closed && RoomForGeneration(w.runtime)
    && SessionOf(t.previous) in w.registry.sessions && CoordinateOf(t.previous) in w.registry.panes
    && t.previous in w.runtime.table
    && RouteOf(t.previous) !in w.registry.rotations && t.next !in w.registry.rotationGenerations
  }

  /** What beginPaneRollover captures: the identities of everything the settlement will test again. */
  function Captured(w: World): Txn
    requires CanBegin(w)
  {
    var t := w.txn;
    t.(begun := true, session := w.registry.sessions[SessionOf(t.previous)].id,
       coordinator := w.registry.panes[CoordinateOf(t.previous)], predecessor := w.runtime.table[t.previous],
       successor := |w.runtime.gens|, witnesses := w.provider.witnesses,
       successorRouter := t.successorRouter.(generation := t.next.controlGeneration, routed := {t.next}))
  }

  /** beginPaneRollover: a fresh unadmitted successor that inherits the predecessor's source, every assumption
      captured under the registry lock, and ownership of the route and of the new key; or nothing. */
  function Begin(w: World): World
    requires WellFormed(w.runtime)
  {
    if !CanBegin(w) then w
    else
      var t := w.txn;
      var owned := w.registry.(rotations := w.registry.rotations[RouteOf(t.previous) := t.id],
                               rotationGenerations := w.registry.rotationGenerations[t.next := t.id]);
      var shared := Inherit(Create(w.runtime, t.next, false), t.previous, t.next);
      var b := w.(runtime := shared, registry := owned, txn := Captured(w));
      if (w.runtime.options.sourceRealm ==> shared.gens[|w.runtime.gens|].source.Some?) && AssumptionsHold(b) then b else w
  }

  // ---- What everyone else does meanwhile -------------------------------------------------------------------

  datatype Env =
    | Runtime(op: Op)
    | InitialSettles(ok: bool)
    | Attach(id: nat)
    | Detach(id: nat)
    | UnitDies
    | Reap
    | CloseTails
    | CloseRegistry
    | AdmitSibling(pane: PaneKey)
    | Readmit(pane: PaneKey)
    | Reroute(router: Router)
    | FailurePublished(key: PaneKey)

  /** The runtime moves on its own, except that only the driver's transaction touches its own successor's
      admission and abandonment. */
  ghost predicate Independent(w: World, op: Op) {
    match op
    case SettleAbort(oldKey, _, newKey, _, _) => oldKey != w.txn.previous && newKey != w.txn.next
    case MarkAdmitted(key) => key != w.txn.next
    case Ensure(key, admitted) => key == w.txn.next ==> !admitted
    case _ => true
  }

  ghost predicate Possible(w: World, step: Env) {
    !w.runtime.closed &&
    match step
    case Runtime(op) => Enabled(w.runtime, op) && Independent(w, op)
    case InitialSettles(_) => w.txn.bootstrapAttempted && w.txn.initial.None?
    case Attach(id) => w.provider.active.Some? && forall k :: (id, k) !in w.provider.tails
    case Detach(_) => true
    case UnitDies => true
    case Reap => true
    case CloseTails => w.provider.active.None?
    case CloseRegistry => true
    case AdmitSibling(pane) =>
      !w.registry.closing && RouteOf(pane) !in w.registry.admitted && RouteOf(pane) != RouteOf(w.txn.next)
    case Readmit(pane) =>
      && RouteOf(pane) in w.registry.admitted && w.registry.admitted[RouteOf(pane)].failed && w.registry.failures > 0
      && w.registry.admitted[RouteOf(pane)].pane.incarnation != pane.incarnation
    case Reroute(router) =>
      (w.txn.settled && w.txn.disposition == Committed) || router.id != w.txn.successorRouter.id
    case FailurePublished(_) => true
  }

  function Happen(w: World, step: Env): World
    requires Possible(w, step) && WellFormed(w.runtime)
  {
    match step
    case Runtime(op) => w.(runtime := Apply(w.runtime, op))
    case InitialSettles(ok) => w.(txn := w.txn.(initial := Some(ok)))
    case Attach(id) => w.(provider := w.provider.(tails := w.provider.tails + {(id, w.provider.active.value)}))
    case Detach(id) => w.(provider := w.provider.(tails := set tail | tail in w.provider.tails && tail.0 != id))
    case UnitDies => w.(provider := w.provider.(live := false))
    case Reap => w.(provider := w.provider.(active := None, live := false))
    case CloseTails => w.(provider := w.provider.(tails := {}))
    case CloseRegistry => w.(registry := w.registry.(closing := true))
    case AdmitSibling(pane) =>
      w.(registry := w.registry.(admitted := w.registry.admitted[RouteOf(pane) := Admission(pane, false)]))
    case Readmit(pane) =>
      w.(registry := w.registry.(admitted := w.registry.admitted[RouteOf(pane) := Admission(pane, false)],
                                 failures := w.registry.failures - 1))
    case Reroute(router) => w.(registry := w.registry.(sessions := w.registry.sessions[SessionOf(w.txn.previous) := router]))
    case FailurePublished(key) => PublishFailure(w, key)
  }
}
