/** A rotation that nothing disturbs succeeds: exactly when its transaction begins, and the run that takes it from
    there to a committed successor. */
module RotationSuccess {
  import opened Basics
  import opened Credits
  import opened Journal
  import opened Retention
  import opened RetentionLedger
  import opened RetentionSteps
  import opened RetentionInvariant
  import opened RetentionRuns
  import opened RetentionReach
  import opened RetentionEffects
  import opened PaneRotation
  import opened RotationSettlement
  import opened RotationDriver
  import opened RotationReach
  import opened RotationProgress

  // ---- Beginning ---------------------------------------------------------------------------------------------

  /** The successor can share the predecessor's source account, where sources are accounted for at all. */
  predicate Inheritable(r: State, previous: PaneKey)
    requires previous in r.table && r.table[previous] < |r.gens|
  {
    var source := r.gens[r.table[previous]].source;
    r.options.sourceRealm ==>
      && source.Some? && source.value in r.accounts
      && r.options.FitsSource(r.accounts[source.value].Plus(LifetimeCommands))
  }

  /** A live, admitted, unowned predecessor, published alone by its unit, an open registry and room for one generation
      more under a key and a coordinate nobody has. */
  ghost predicate Startable(w: World) {
    var t := w.txn;
    var g := w.registry;
    var r := w.runtime;
    && (if t.refit then SameRefitCoordinate(t.previous, t.next) else SameRotationCoordinate(t.previous, t.next))
    && w.provider.active == Some(t.previous) && w.provider.live && SoleWitness(w.provider.witnesses, t.previous, t.next)
    && !g.closing && !g.broken && Alone(g, t.previous) && RouteOf(t.next) !in g.admitted
    && RouteOf(t.previous) !in g.rotations && t.next !in g.rotationGenerations
    && CoordinateOf(t.previous) in g.panes && (t.refit ==> CoordinateOf(t.next) !in g.panes)
    && t.previous in r.table && r.table[t.previous] < |r.gens|
    && r.gens[r.table[t.previous]].admitted && !r.gens[r.table[t.previous]].failed
    && t.next !in r.table && !r.closing && !r.closed
    && r.used.generations < r.options.maxPanes && r.used.commands + 2 <= r.options.maxCommands
    && Inheritable(r, t.previous)
  }

  /** The successor is there, with nothing done to it yet. */
  predicate Untouched(r: State, key: PaneKey, n: nat) {
    && Is(r, key, n) && !r.gens[n].admitted && !r.gens[n].failed && !r.gens[n].abandoned && !r.gens[n].retireRequested
  }

  /** The transaction owns a healthy predecessor's route and an untouched successor. */
  ghost predicate UnderWay(w: World) {
    var t := w.txn;
    && t.begun && !t.settled && StillPublished(w) && Unmoved(w) && !w.runtime.closed
    && Is(w.runtime, t.previous, t.predecessor) && w.runtime.gens[t.predecessor].admitted && !w.runtime.gens[t.predecessor].failed
    && Untouched(w.runtime, t.next, t.successor)
  }

  /** The generation a transaction creates, with the source it inherits. */
  lemma SharedRuntime(w: World)
    requires Books(w.runtime) && WellFormed(w.runtime) && !w.runtime.closed
    requires w.txn.previous in w.runtime.table && w.txn.next !in w.runtime.table
    ensures TableAfter(w.runtime, w.txn.next)
    ensures var n := |w.runtime.gens|;
            var s := Inherit(Create(w.runtime, w.txn.next, false), w.txn.previous, w.txn.next);
            && s.table == w.runtime.table[w.txn.next := n] && |s.gens| == n + 1 && s.gens[..n] == w.runtime.gens
            && Untouched(s, w.txn.next, n) && s.closed == w.runtime.closed
            && (w.runtime.options.sourceRealm && s.gens[n].source.None? <==> !Inheritable(w.runtime, w.txn.previous))
  {
    hide Books, Options.FitsSource;
  }

  ghost predicate TableAfter(r: State, key: PaneKey) {
    var c := Create(r, key, false);
    forall k :: k in c.table ==> c.table[k] < |c.gens|
  }

  /** The world with the successor created, the source shared and everything captured. */
  ghost function Built(w: World): World
    requires CanBegin(w) && WellFormed(w.runtime)
  {
    var t := w.txn;
    w.(runtime := Inherit(Create(w.runtime, t.next, false), t.previous, t.next),
       registry := w.registry.(rotations := w.registry.rotations[RouteOf(t.previous) := t.id],
                               rotationGenerations := w.registry.rotationGenerations[t.next := t.id]),
       txn := Captured(w))
  }

  lemma BuiltExact(w: World)
    requires CanBegin(w) && WellFormed(w.runtime)
    ensures RegistryExact(Built(w)) == Unmoved(Built(w))
    ensures var t := w.txn;
            var g := w.registry;
            RegistryExact(Built(w)) <==>
              && !g.closing && !g.broken && Alone(g, t.previous) && RouteOf(t.next) !in g.admitted
              && (t.refit ==> CoordinateOf(t.next) !in g.panes)
  {
    ExactIff(Built(w));
    SameAlone(w.registry, Built(w).registry, w.txn.previous);
    hide RegistryExact, Alone, Inherit, Create, SoleWitness;
  }

  lemma BuiltRuntime(w: World)
    requires Books(w.runtime) && CanBegin(w) && WellFormed(w.runtime)
    ensures var b := Built(w);
            var n := |w.runtime.gens|;
            && n < |b.runtime.gens| && SuccessorExact(b) && Untouched(b.runtime, b.txn.next, n) && !b.runtime.closed
            && w.runtime.table[w.txn.previous] < n
            && (PredecessorLive(b) <==> w.runtime.gens[w.runtime.table[w.txn.previous]].admitted &&
                                        !w.runtime.gens[w.runtime.table[w.txn.previous]].failed)
            && Is(b.runtime, b.txn.previous, b.txn.predecessor)
            && ((w.runtime.options.sourceRealm ==> b.runtime.gens[n].source.Some?) <==> Inheritable(w.runtime, w.txn.previous))
  {
    SharedRuntime(w);
    hide Inherit, Create, Books, SoleWitness, Inheritable;
    var p := w.runtime.table[w.txn.previous];
    assert Built(w).runtime.gens[p] == Built(w).runtime.gens[..|w.runtime.gens|][p];
  }

  lemma BeginsBuilt(w: World)
    requires Books(w.runtime) && WellFormed(w.runtime) && CanBegin(w)
    ensures |w.runtime.gens| < |Built(w).runtime.gens|
    ensures Begin(w) ==
              if (w.runtime.options.sourceRealm ==> Built(w).runtime.gens[|w.runtime.gens|].source.Some?) &&
                 AssumptionsHold(Built(w))
              then Built(w) else w
  {
    SharedRuntime(w);
    hide Inherit, Create, AssumptionsHold, Books;
  }

  /** A transaction begins exactly when that holds, and is then under way; otherwise nothing changes. */
  lemma BeginsIff(w: World)
    requires WorldInv(w) && WellFormed(w.runtime) && !w.runtime.closed && !w.txn.begun
    ensures var b := Begin(w);
            && (b.txn.begun <==> Startable(w)) && (!b.txn.begun ==> b == w)
            && (b.txn.begun ==>
                  && UnderWay(b) && b.provider == w.provider && b.txn.successor == |w.runtime.gens|
                  && b.txn.predecessor == w.runtime.table[w.txn.previous]
                  && b.txn == w.txn.(begun := true, session := b.txn.session, coordinator := b.txn.coordinator,
                                     predecessor := b.txn.predecessor, successor := b.txn.successor,
                                     witnesses := b.txn.witnesses, successorRouter := b.txn.successorRouter))
  {
    hide Books, SoleWitness, Inheritable, Alone, Unmoved, RegistryExact, SuccessorExact, NoMixture, TailsOk;
    if CanBegin(w) {
      BuiltExact(w);
      BuiltRuntime(w);
      BeginsBuilt(w);
      hide Begin, Inherit, Create;
    } else {
      SameAlone(w.registry, w.registry, w.txn.previous);
    }
  }

  lemma SameAlone(g: Registry, h: Registry, previous: PaneKey)
    requires h.sessions == g.sessions && h.admitted == g.admitted
    ensures Alone(h, previous) == Alone(g, previous)
    ensures Alone(g, previous) ==> SessionOf(previous) in g.sessions
  {
  }

  // ---- From there to the end ---------------------------------------------------------------------------------

  /** `moves` take `d` to `e`, each of them possible in its turn. */
  ghost predicate Leads(d: Drive, moves: seq<Move>, e: Drive)
    decreases |moves|
  {
    if moves == [] then d == e
    else
      CanMove(d, moves[0]) && WellFormed(d.world.runtime) && Leads(Advance(d, moves[0]), moves[1..], e)
  }

  lemma {:induction false} LeadsOn(d: Drive, moves: seq<Move>, e: Drive, m: Move)
    requires Leads(d, moves, e) && CanMove(e, m) && WellFormed(e.world.runtime)
    ensures Leads(d, moves + [m], Advance(e, m))
    decreases |moves|
  {
    hide CanMove, Advance, WellFormed;
    if moves == [] {
      assert ([] + [m])[1..] == [];
    } else {
      LeadsOn(Advance(d, moves[0]), moves[1..], e, m);
      assert (moves + [m])[1..] == moves[1..] + [m];
    }
  }

  lemma Go(d: Drive, moves: seq<Move>, e: Drive, m: Move)
    requires Leads(d, moves, e) && DriveInv(e) && CanMove(e, m)
    ensures WellFormed(e.world.runtime) && Leads(d, moves + [m], Advance(e, m)) && DriveInv(Advance(e, m))
  {
    OpenNow(e, m);
    hide CanMove, Advance, DriveInv, Leads, WellFormed;
    LeadsOn(d, moves, e, m);
    MoveKeeps(e, m);
  }

  lemma OpenNow(d: Drive, m: Move)
    requires DriveInv(d) && CanMove(d, m)
    ensures WellFormed(d.world.runtime)
  {
    InvWellFormed(d.world.runtime);
  }

  /** A path from a start is a run. */
  lemma {:induction false} LeadsRuns(d: Drive, moves: seq<Move>, e: Drive) returns (trace: seq<Drive>)
    requires Leads(d, moves, e)
    ensures |trace| == |moves| + 1 && trace[0] == d && trace[|moves|] == e
    ensures forall i :: 0 <= i < |moves| ==> Moved(trace[i], moves[i], trace[i + 1])
    decreases |moves|
  {
    hide CanMove, Advance, WellFormed;
    if moves == [] {
      trace := [d];
    } else {
      var rest := LeadsRuns(Advance(d, moves[0]), moves[1..], e);
      trace := [d] + rest;
      assert Moved(d, moves[0], rest[0]);
      forall i | 0 <= i < |moves| ensures Moved(trace[i], moves[i], trace[i + 1]) {
        if i > 0 {
          assert Moved(rest[i - 1], moves[1..][i - 1], rest[i]);
        }
      }
    }
  }

  /** The driver is at its work with its journal reserved and the transaction under way. */
  ghost predicate AtWork(d: Drive) {
    && DriveInv(d) && UnderWay(d.world) && !d.world.runtime.closed
    && d.driver.phase.Working? && d.driver.held && d.driver.flipped && d.driver.journal.Reserved? && !d.driver.installed
  }

  ghost predicate Fresh(t: Txn) {
    !t.bootstrapAttempted && t.initial.None?
  }

  /** The journal is materialised and the transaction begun. */
  lemma Opens(d: Drive) returns (moves: seq<Move>, e: Drive)
    requires Starts(d) && Startable(d.world) && Fresh(d.world.txn)
    ensures Leads(d, moves, e) && AtWork(e) && Fresh(e.world.txn)
    ensures e.world.txn.previous == d.world.txn.previous && e.world.txn.next == d.world.txn.next
  {
    hide Books, Alone, Unmoved, Inheritable, SoleWitness, NoMixture, TailsOk, WellFormed, Begin;
    moves, e := [], d;
    if d.world.txn.refit {
      Go(d, moves, e, SubmitComposite);
      moves, e := moves + [SubmitComposite], Advance(e, SubmitComposite);
    }
    Go(d, moves, e, Flip);
    moves, e := moves + [Flip], Advance(e, Flip);
    Go(d, moves, e, Materialise);
    moves, e := moves + [Materialise], Advance(e, Materialise);
    Go(d, moves, e, BeginTxn);
    BeginsIff(d.world);
    moves, e := moves + [BeginTxn], Advance(e, BeginTxn);
  }

  /** The bootstrap succeeds and the transaction is validated. */
  lemma Validates(d: Drive, moves: seq<Move>, e: Drive) returns (more: seq<Move>, v: Drive)
    requires Leads(d, moves, e) && AtWork(e) && Fresh(e.world.txn)
    ensures Leads(d, more, v) && AtWork(v) && v.world.txn.validated && v.world.txn.initial == Some(true)
    ensures v.world.txn.previous == e.world.txn.previous && v.world.txn.next == e.world.txn.next
  {
    hide WorldInv, Unmoved, WellFormed, Leads, Validate, WriteBootstrap;
    more, v := moves, e;
    Go(d, more, v, Bootstrap);
    ValidatesIff(v.world);
    more, v := more + [Bootstrap], Advance(v, Bootstrap);
    Unchanged(e.world, v.world);
    Go(d, more, v, Elsewhere(InitialSettles(true)));
    more, v := more + [Elsewhere(InitialSettles(true))], Advance(v, Elsewhere(InitialSettles(true)));
    Unchanged(e.world, v.world);
    Go(d, more, v, TryValidate);
    ValidatesIff(v.world);
    more, v := more + [TryValidate], Advance(v, TryValidate);
    Unchanged(e.world, v.world);
  }

  /** Neither the bootstrap nor its outcome nor the flags move what the transaction tests. */
  lemma Unchanged(w: World, v: World)
    requires v.runtime == w.runtime && v.registry == w.registry && v.provider == w.provider
    requires v.txn == w.txn.(bootstrapAttempted := v.txn.bootstrapAttempted, initial := v.txn.initial,
                             validated := v.txn.validated, sealed := v.txn.sealed)
    ensures Unmoved(v) == Unmoved(w) && StillPublished(v) == StillPublished(w) && UnderWay(v) == UnderWay(w)
  {
  }

  /** The predecessor is retiring or gone, and all else is as it was. */
  ghost predicate Sealable(d: Drive) {
    var w := d.world;
    var t := w.txn;
    && DriveInv(d) && !w.runtime.closed && !t.settled && StillPublished(w) && Unmoved(w) && Untouched(w.runtime, t.next, t.successor)
    && (t.previous in w.runtime.table ==>
          && Is(w.runtime, t.previous, t.predecessor) && w.runtime.gens[t.predecessor].retireRequested
          && !w.runtime.gens[t.predecessor].admitted && !w.runtime.gens[t.predecessor].failed)
    && t.validated && t.initial == Some(true)
    && d.driver.phase.Working? && d.driver.held && d.driver.sealing && d.driver.journal.Reserved? && !d.driver.installed
  }

  /** The retirement request revokes the predecessor and leaves the successor alone. */
  lemma RetiringSpares(r: State, previous: PaneKey, p: nat, next: PaneKey, n: nat)
    requires Books(r) && WellFormed(r) && !r.closed && previous != next
    requires Is(r, previous, p) && !r.gens[p].failed && Untouched(r, next, n)
    ensures var t := AskRetire(r, previous);
            && Untouched(t, next, n) && t.closed == r.closed
            && (previous in t.table ==> Is(t, previous, p) && t.gens[p].retireRequested && !t.gens[p].admitted && !t.gens[p].failed)
  {
    RequestsRetire(r, previous);
    TableKeys(r);
    hide Books, AskRetire;
  }

  /** The seal is submitted and processed: the manager retires the predecessor, and the driver records the boundary. */
  lemma Seals(d: Drive, moves: seq<Move>, e: Drive) returns (more: seq<Move>, v: Drive)
    requires Leads(d, moves, e) && AtWork(e) && e.world.txn.validated && e.world.txn.initial == Some(true)
    ensures Leads(d, more, v) && Sealable(v) && v.world.txn.sealed
    ensures v.world.txn.previous == e.world.txn.previous && v.world.txn.next == e.world.txn.next
  {
    hide Unmoved, Leads, AskRetire, RecordSeal, Books, NoMixture, SettledOnce, TailsOk, Holding, PhaseOk, WellFormed;
    more, v := moves, e;
    Go(d, more, v, SubmitSeal);
    more, v := more + [SubmitSeal], Advance(v, SubmitSeal);
    var retire := Elsewhere(Runtime(RequestRetire(e.world.txn.previous)));
    Go(d, more, v, retire);
    RetiringSpares(v.world.runtime, v.world.txn.previous, v.world.txn.predecessor, v.world.txn.next, v.world.txn.successor);
    more, v := more + [retire], Advance(v, retire);
    assert v.world == e.world.(runtime := v.world.runtime);
    SameButRuntime(e.world, v.world);
    Go(d, more, v, RecordSealed);
    ValidatesIff(v.world);
    ghost var u := v;
    more, v := more + [RecordSealed], Advance(v, RecordSealed);
    Unchanged(u.world, v.world);
  }

  lemma SameButRuntime(w: World, v: World)
    requires v == w.(runtime := v.runtime)
    ensures Unmoved(v) == Unmoved(w) && StillPublished(v) == StillPublished(w)
  {
  }

  lemma TableNow(d: Drive)
    requires DriveInv(d) && !d.world.runtime.closed
    ensures TableOk(d.world) && WorldInv(d.world) && (d.driver.held ==> d.world.txn.begun)
  {
    InvWellFormed(d.world.runtime);
  }

  lemma InstallsOpen(w: World)
    requires TableOk(w) && !w.txn.settled && !w.runtime.closed
    ensures Commit(w).txn.disposition == Committed ==> !Commit(w).runtime.closed
  {
    hide CommitValid;
  }

  /** The registry and the journal commit, and the driver ends. */
  lemma Settles(d: Drive, moves: seq<Move>, e: Drive) returns (more: seq<Move>, v: Drive)
    requires Leads(d, moves, e) && Sealable(e) && e.world.txn.sealed
    ensures Leads(d, more, v) && DriveInv(v) && v.driver.phase.Ended? && v.driver.outcome.Succeeded?
    ensures WhollyInstalled(e.world, v.world) && v.driver.journal.JournalCommitted?
    ensures v.world.txn.previous == e.world.txn.previous && v.world.txn.next == e.world.txn.next
  {
    hide Unmoved, Leads, WorldInv, WellFormed, Commit, WhollyInstalled;
    TableNow(e);
    InstallsOpen(e.world);
    CommitsIff(e.world);
    CommitFrame(e.world);
    more, v := moves, e;
    Go(d, more, v, CommitRegistry);
    more, v := more + [CommitRegistry], Advance(v, CommitRegistry);
    ghost var u := v;
    Go(d, more, v, CommitJournal);
    more, v := more + [CommitJournal], Advance(v, CommitJournal);
    Go(d, more, v, Move.Finish);
    more, v := more + [Move.Finish], Advance(v, Move.Finish);
    assert v.world == u.world;
  }

  /** From every start that may begin there is a run that ends succeeded, with the journal committed, the successor
      published, routed and admitted in the predecessor's place, and no tail left on the predecessor. */
  lemma Succeeds(d: Drive) returns (trace: seq<Drive>, moves: seq<Move>)
    requires Starts(d) && Startable(d.world) && Fresh(d.world.txn)
    ensures RotationReach.Run(trace, moves) && trace[0] == d
    ensures var e := trace[|moves|];
            var t := d.world.txn;
            && e.driver.phase.Ended? && e.driver.outcome.Succeeded? && e.driver.journal.JournalCommitted?
            && e.world.provider.active == Some(t.next) && (forall tail :: tail in e.world.provider.tails ==> tail.1 != t.previous)
            && RouteOf(t.next) in e.world.registry.admitted && RouteOf(t.previous) !in e.world.registry.admitted
            && e.world.registry.admitted[RouteOf(t.next)] == Admission(t.next, false)
  {
    hide Starts, Startable, Leads, DriveInv, AtWork, Sealable, CanMove, Advance;
    var a, b := Opens(d);
    a, b := Validates(d, a, b);
    a, b := Seals(d, a, b);
    a, b := Settles(d, a, b);
    trace := LeadsRuns(d, a, b);
    moves := a;
  }

  // ---- There is something to rotate --------------------------------------------------------------------------

  /** A runtime with one admitted generation. */
  lemma OneGeneration(key: PaneKey) returns (r: State)
    ensures Books(r) && !r.closed && !r.closing && !r.options.sourceRealm
    ensures r.table == map[key := 0] && |r.gens| == 1 && r.gens[0].key == key && r.gens[0].admitted && !r.gens[0].failed
    ensures r.used.generations + 1 <= r.options.maxPanes && r.used.commands + 2 <= r.options.maxCommands
  {
    r := EnsureGeneration(Retention.Initial(Small()), key, true);
    SmallBooks(key);
    hide Books;
  }

  function Small(): Options {
    Options(8, 8, 2, 8, 8, 1, false, Zero)
  }

  lemma SmallBooks(key: PaneKey)
    ensures Books(EnsureGeneration(Retention.Initial(Small()), key, true))
  {
    var s := Retention.Initial(Small());
    InitialInv(Small());
    hide Books, Funded, EnsureGeneration;
    EnsureKeeps(s, key, true);
  }

  lemma OnlyWitness(previous: PaneKey, next: PaneKey)
    requires next != previous
    ensures SoleWitness([previous], previous, next)
  {
    var mine := (x: PaneKey) => x == previous;
    CountAppend([], previous, mine);
    assert [] + [previous] == [previous];
    assert Count([previous], mine) == 1;
  }

  /** A rotation, or a refit, of one pane with one sibling-free session. */
  lemma StartExists(refit: bool) returns (d: Drive)
    ensures Starts(d) && Startable(d.world) && Fresh(d.world.txn) && d.world.txn.refit == refit
  {
    var previous := PaneKey("server", "session", 1, "window", "pane", "a");
    var next := PaneKey("server", "session", 2, "window", "pane", if refit then "b" else "a");
    assert previous.controlGeneration != next.controlGeneration;
    var r := OneGeneration(previous);
    var g := Registry(false, false, 0, map[SessionOf(previous) := Router(1, 1, {previous})],
                      map[CoordinateOf(previous) := 0], map[RouteOf(previous) := Admission(previous, false)],
                      map[], map[]);
    var t := Txn(false, 0, previous, next, refit, 0, Router(2, 2, {next}), 0, 0, 0, [], false, None, false, false, false,
                 false, Aborted, 0);
    var w := World(r, g, Provider(Some(previous), true, [previous], {}), t);
    d := Drive(w, Driver(false, false, false, false, false, false, NoJournal, Working, Restored, 0));
    hide Books;
    assert "a"[0] == 'a' && "b"[0] == 'b';
    assert RouteOf(previous).controlGeneration == 1 && RouteOf(next).controlGeneration == 2;
    assert WorldInv(w);
    OnlyWitness(previous, next);
    assert Alone(g, previous);
  }
}
