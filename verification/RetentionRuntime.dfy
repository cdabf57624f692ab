/** The runtime object itself: its counters, table and ring change in place, method by method, as the locked
    transitions say. */
module RetentionRuntime {
  import opened Basics
  import opened Credits
  import opened Journal
  import opened Retention
  import opened RetentionLedger
  import opened RetentionSteps
  import opened RetentionInvariant
  import opened RetentionRuns
  import opened RetentionReach
  import opened RetentionProgress
  import opened RetentionQueue

  /** Retirement, field by field. */
  lemma RetiredState(s: State, g: nat, t: State)
    requires g < |s.gens|
    requires t == s.(gens := t.gens, table := t.table, used := t.used, accounts := t.accounts)
    requires var gen := s.gens[g];
             && t.gens == s.gens[g := Departed(gen)] && t.table == s.table - {gen.key}
             && t.used == (if gen.lifetimeReleased then s.used else s.used.Adjust(-2, -1))
             && t.accounts == DropSource(if gen.lifetimeReleased then s.accounts
                                         else ChargeAccount(s.accounts, gen.source, LifetimeRefund), gen.source)
    ensures t == FinishRetire(s, g)
  {
    hide DropSource, ChargeAccount;
    var gen := s.gens[g];
    assert FinishRetire(s, g).gens == s.gens[g := Departed(gen)];
  }

  lemma GrantedState(s: State, g: nat, bytes: nat, t: State)
    requires g < |s.gens| && s.options.maxBatch > 0
    requires t == s.(gens := t.gens, res := t.res, used := t.used, accounts := t.accounts)
    requires var e := EnvelopeNeed(bytes, s.options.maxBatch);
             var charge := Credit(1, e, 0, bytes, bytes);
             var gen := s.gens[g];
             && t.res == s.res + [Reservation(g, 1, e, bytes, bytes, 1, 0, false, Held, 0, charge, Zero)]
             && t.used == s.used.Plus(charge) && t.accounts == ChargeAccount(s.accounts, gen.source, charge)
             && t.gens == s.gens[g := gen.(pending := gen.pending + [|s.res|], refs := gen.refs + 1,
                                           usage := gen.usage.Plus(charge))]
    ensures t == Grant(s, g, bytes)
  {
    hide ChargeAccount, EnvelopeNeed;
    assert Grant(s, g, bytes).gens == t.gens;
  }

  /** One settled reservation, field by field. */
  lemma SettledState(s: State, r: nat, x: Reservation, t: State)
    requires r < |s.res| && s.res[r].generation < |s.gens| && x.generation == s.res[r].generation
    requires t == s.(gens := t.gens, res := t.res, used := t.used, accounts := t.accounts) && t.res == s.res[r := x]
    requires var gen := s.gens[x.generation];
             var delta := ChargeOf(x).Minus(ChargeOf(s.res[r]));
             var kept := if x.released && !s.res[r].released then Detached(gen, r) else gen;
             && t.used == s.used.Plus(delta) && t.accounts == ChargeAccount(s.accounts, gen.source, delta)
             && t.gens == s.gens[x.generation := kept.(usage := gen.usage.Plus(delta))]
    ensures t == Settle(s, r, x)
  {
    hide ChargeAccount, ChargeOf, Remove;
    assert Settle(s, r, x).gens == t.gens;
  }

  /** Returning a command's credit, field by field. */
  lemma CommandReturned(s: State, r: nat, y: Reservation, t: State)
    requires r < |s.res| && s.res[r].generation < |s.gens|
    requires var x := s.res[r];
             var delta := Credit(-x.q, 0, 0, 0, 0);
             var gen := s.gens[x.generation];
             && y == x.(q := 0, stage := Done, refunded := x.refunded.Plus(Credit(x.q, 0, 0, 0, 0)))
             && t == s.(gens := t.gens, res := s.res[r := y], used := s.used.Plus(delta), accounts := t.accounts)
             && t.gens == s.gens[x.generation := gen.(usage := gen.usage.Plus(delta))]
             && t.accounts == ChargeAccount(s.accounts, gen.source, delta)
    ensures t == if s.res[r].released then Overdraw(s, r, y) else Settle(s, r, y)
  {
    hide ChargeAccount;
    if !s.res[r].released {
      SettledState(s, r, y, t);
    }
  }

  /** Settling without a change of charge changes the reservation alone. */
  lemma UnchargedState(s: State, r: nat, x: Reservation)
    requires r < |s.res| && s.res[r].generation < |s.gens| && x.generation == s.res[r].generation
    requires ChargeOf(x) == ChargeOf(s.res[r]) && x.released == s.res[r].released
    ensures Settle(s, r, x) == s.(res := s.res[r := x])
  {
    var gen := s.gens[x.generation];
    var delta := ChargeOf(x).Minus(ChargeOf(s.res[r]));
    hide ChargeOf;
    assert gen.usage.Plus(delta) == gen.usage && s.used.Plus(delta) == s.used;
    assert s.gens[x.generation := gen] == s.gens;
    if gen.source.Some? && gen.source.value in s.accounts {
      assert s.accounts[gen.source.value].Plus(delta) == s.accounts[gen.source.value];
      assert s.accounts[gen.source.value := s.accounts[gen.source.value]] == s.accounts;
    }
  }

  /** Releasing a reservation gives its whole charge back. */
  lemma WholeCharge(x: Reservation, y: Reservation)
    requires !x.released && y.released
    ensures ChargeOf(y).Minus(ChargeOf(x)) == Credit(-x.q, -x.e, 0, -x.b, -x.o)
  {
    assert forall d :: ChargeOf(y).Minus(ChargeOf(x)).Get(d) == -ChargeOf(x).Get(d);
  }

  function Detached(gen: Generation, r: nat): Generation {
    gen.(pending := Remove(gen.pending, r), refs := gen.refs - 1)
  }

  function Departed(gen: Generation): Generation {
    gen.(live := false, lifetimeReleased := true, source := None,
         usage := if gen.lifetimeReleased then gen.usage else gen.usage.Plus(LifetimeRefund))
  }

  /** The ring has a free cell whenever the state after a push is one the runtime can reach. */
  lemma RoomToPush(s: State, t: State)
    requires Inv(t) && !t.closed && t.options == s.options && |t.queue| > |s.queue|
    ensures |s.queue| < RingCells(s.options)
  {
    hide Books, Funded;
    QueueFitsRing(t);
  }

  /** Joining the run at the back, or starting one. */
  lemma RejectedState(s: State, bytes: nat)
    requires !s.closing
    ensures var n := |s.queue|;
            QueueRejected(s, bytes) ==
            if s.queue != [] && s.queue[n - 1].Control?
            then s.(queue := s.queue[n - 1 := Control(s.queue[n - 1].bytes + bytes, s.queue[n - 1].fenced)])
            else s.(queue := s.queue + [Control(bytes, false)])
  {
  }

  lemma FencedState(s: State)
    requires !s.closing
    ensures var n := |s.queue|;
            QueueFence(s) ==
            if s.queue != [] && s.queue[n - 1].Control?
            then s.(queue := s.queue[n - 1 := Control(s.queue[n - 1].bytes, true)])
            else s.(queue := s.queue + [Control(0, true)])
  {
  }

  lemma LastUpdateWins<T>(s: seq<T>, i: nat, x: T, y: T)
    requires i < |s|
    ensures s[i := x][i := y] == s[i := y]
  {
  }

  /** Nothing but the settled unlink of its journal still keeps the generation in the table. */
  predicate AwaitsUnlink(s: State, g: nat)
    requires g < |s.gens|
  {
    var gen := s.gens[g];
    && gen.refs == 0 && gen.usage.commands == 2 && gen.retireRequested && gen.durableRequested
    && (gen.failed ==> gen.cleanupQueued && gen.cleanupSpent)
  }

  /** Retiring leaves no generation waiting for an unlink that was not waiting before, and none that was goes. */
  lemma TryRetireAwaits(s: State, g: nat)
    requires g < |s.gens|
    ensures |TryRetire(s, g).gens| == |s.gens| && (AwaitsUnlink(TryRetire(s, g), g) <==> AwaitsUnlink(s, g))
  {
    hide DropSource, ChargeAccount;
  }

  lemma BooksAccounting(s: State)
    requires Inv(s) && !s.closed
    ensures Accounting(s)
  {
    hide Funded;
  }

  class Runtime {
    const options: Options
    var commandsUsed: int
    var envelopesUsed: int
    var panesUsed: int
    var ingressUsed: int
    var outboxUsed: int
    var gens: seq<Generation>
    var table: map<PaneKey, nat>
    var res: seq<Reservation>
    var accounts: map<SourceKey, Credit>
    const queue: CommandQueue
    var current: Option<Command>
    var owed: multiset<PaneKey>
    var outbox: seq<Part>
    var closing: bool
    var closed: bool

    ghost function View(): State
      requires queue.Valid()
      reads this, queue, queue.cells
    {
      State(options, gens, table, res, Credit(commandsUsed, envelopesUsed, panesUsed, ingressUsed, outboxUsed),
            accounts, queue.Contents(), current, owed, outbox, closing, closed)
    }

    /** The ring is the promised size and the state is one the runtime can reach. */
    ghost predicate Valid()
      reads this, queue, queue.cells
    {
      queue.Valid() && queue.cells.Length == RingCells(options) && Inv(View())
    }

    constructor (options: Options)
      requires options.Valid()
      ensures Valid() && fresh(queue) && fresh(queue.cells) && View() == Retention.Initial(options)
    {
      this.options := options;
      commandsUsed, envelopesUsed, panesUsed, ingressUsed, outboxUsed := 0, 0, 0, 0, 0;
      gens, table, res, accounts := [], map[], [], map[];
      current, owed, outbox, closing, closed := None, multiset{}, [], false, false;
      queue := new CommandQueue(options);
      new;
      hide Books, Funded;
      InitialInv(options);
    }

    // ---- Source accounts and retirement --------------------------------------------------------------

    method SourceChargeLocked(g: nat, delta: Credit)
      requires g < |gens|
      modifies this`gens, this`accounts
      ensures gens == old(gens)[g := old(gens)[g].(usage := old(gens)[g].usage.Plus(delta))]
      ensures accounts == ChargeAccount(old(accounts), old(gens)[g].source, delta)
    {
      var gen := gens[g];
      gens := gens[g := gen.(usage := gen.usage.Plus(delta))];
      if gen.source.Some? && gen.source.value in accounts {
        accounts := accounts[gen.source.value := accounts[gen.source.value].Plus(delta)];
      }
    }

    /** Drop one generation from its source's account, and the account with its last generation. */
    method ReleaseSourceLocked(g: nat)
      requires g < |gens|
      modifies this`gens, this`accounts
      ensures gens == old(gens)[g := old(gens)[g].(source := None)]
      ensures accounts == DropSource(old(accounts), old(gens)[g].source)
    {
      var k := gens[g].source;
      gens := gens[g := gens[g].(source := None)];
      if k.Some? && k.value in accounts {
        var left := accounts[k.value].generations - 1;
        accounts := if left == 0 then accounts - {k.value}
                    else accounts[k.value := accounts[k.value].(generations := left)];
      }
    }

    /** The lifetime credit goes back once. */
    method ReturnLifetimeLocked(g: nat)
      requires g < |gens|
      modifies this`panesUsed, this`commandsUsed, this`gens, this`accounts
      ensures var gen := old(gens)[g];
              && gens == old(gens)[g := Departed(gen).(live := gen.live, source := gen.source)]
              && accounts == (if gen.lifetimeReleased then old(accounts)
                              else ChargeAccount(old(accounts), gen.source, LifetimeRefund))
              && panesUsed == old(panesUsed) - (if gen.lifetimeReleased then 0 else 1)
              && commandsUsed == old(commandsUsed) - (if gen.lifetimeReleased then 0 else 2)
    {
      hide ChargeAccount;
      if !gens[g].lifetimeReleased {
        gens := gens[g := gens[g].(lifetimeReleased := true)];
        panesUsed := panesUsed - 1;
        commandsUsed := commandsUsed - 2;
        SourceChargeLocked(g, LifetimeRefund);
      }
    }

    method FinishRetireLocked(g: nat)
      requires queue.Valid() && g < |gens|
      modifies this`panesUsed, this`commandsUsed, this`gens, this`accounts, this`table
      ensures View() == FinishRetire(old(View()), g)
    {
      hide DropSource, ChargeAccount, FinishRetire, Books, Funded;
      ghost var gen := gens[g];
      ghost var was := gens;
      ReturnLifetimeLocked(g);
      table := table - {gens[g].key};
      gens := gens[g := gens[g].(live := false)];
      LastUpdateWins(was, g, Departed(gen).(live := gen.live, source := gen.source), Departed(gen).(source := gen.source));
      ReleaseSourceLocked(g);
      LastUpdateWins(was, g, Departed(gen).(source := gen.source), Departed(gen));
      RetiredState(old(View()), g, View());
    }

    method TryRetireLocked(g: nat) returns (ready: bool)
      requires queue.Valid() && g < |gens|
      modifies this
      ensures View() == TryRetire(old(View()), g)
      ensures ready <==> AwaitsUnlink(old(View()), g)
    {
      var gen := gens[g];
      if gen.refs != 0 || gen.usage.commands != 2 || !gen.retireRequested {
        return false;
      }
      if gen.failed && (!gen.cleanupQueued || !gen.cleanupSpent) {
        return false;
      }
      if gen.durableRequested {
        return true;
      }
      FinishRetireLocked(g);
      ready := false;
    }

    // ---- Reservations --------------------------------------------------------------------------------

    method CreateLocked(key: PaneKey)
      requires queue.Valid()
      modifies this
      ensures View() == Create(old(View()), key, false)
    {
      table := table[key := |gens|];
      gens := gens + [NewGeneration(key, false)];
      panesUsed := panesUsed + 1;
      commandsUsed := commandsUsed + 2;
    }

    /** A refused reservation takes its new generation back, exactly. */
    method UndoCreateLocked(key: PaneKey, ghost before: State)
      requires queue.Valid() && key !in before.table && View() == Create(before, key, false)
      modifies this
      ensures View() == before
    {
      table := table - {key};
      gens := gens[..|gens| - 1];
      panesUsed := panesUsed - 1;
      commandsUsed := commandsUsed - 2;
    }

    method ReserveWithAdmission(key: PaneKey, bytes: nat, requireAdmitted: bool, requireExisting: bool)
      returns (result: Result<nat, Refusal>)
      requires queue.Valid() && options.maxBatch > 0 && (key in table ==> table[key] < |gens|)
      modifies this
      ensures (View(), result) == Retention.Reserve(old(View()), key, bytes, requireAdmitted, requireExisting)
    {
      hide Shortage, Grant;
      if closing || closed {
        return Err(Closed);
      }
      if (requireExisting && key !in table) || (requireAdmitted && (key !in table || !gens[table[key]].admitted)) {
        return Err(Authority);
      }
      ghost var before := View();
      var created := key !in table;
      if created {
        if panesUsed >= options.maxPanes || commandsUsed + 2 > options.maxCommands {
          return Err(Exhausted(if panesUsed >= options.maxPanes then Generations else Commands));
        }
        CreateLocked(key);
      }
      var g := table[key];
      ghost var charged := if created then Create(before, key, false) else before;
      assert View() == charged;
      if gens[g].abandoned || gens[g].retireRequested {
        return Err(Authority);
      }
      var shortage := FindShortage(g, bytes);
      hide Create;
      if shortage.Some? {
        if created {
          UndoCreateLocked(key, before);
        }
        return Err(shortage.value);
      }
      result := Ok(|res|);
      GrantLocked(g, bytes);
    }

    method FindShortage(g: nat, bytes: nat) returns (shortage: Option<Refusal>)
      requires queue.Valid() && g < |gens| && options.maxBatch > 0
      ensures shortage == Shortage(View(), g, bytes)
    {
      var e := EnvelopeNeed(bytes, options.maxBatch);
      var source := gens[g].source;
      if (options.sourceRealm && bytes > 0 && source.None?) ||
         (source.Some? && source.value in accounts &&
          !options.FitsSource(accounts[source.value].Plus(Credit(1, e, 0, bytes, bytes)))) {
        return Some(SourceQuota);
      }
      if bytes > options.maxIngress || bytes > options.maxOutbox ||
         commandsUsed + 1 > options.maxCommands || envelopesUsed + e > options.maxEnvelopes ||
         ingressUsed + bytes > options.maxIngress || outboxUsed + bytes > options.maxOutbox {
        if bytes > options.maxIngress || ingressUsed + bytes > options.maxIngress {
          return Some(Exhausted(Ingress));
        }
        if bytes > options.maxOutbox || outboxUsed + bytes > options.maxOutbox {
          return Some(Exhausted(Outbox));
        }
        if commandsUsed + 1 > options.maxCommands {
          return Some(Exhausted(Commands));
        }
        return Some(Exhausted(Envelopes));
      }
      shortage := None;
    }

    method GrantLocked(g: nat, bytes: nat)
      requires queue.Valid() && g < |gens| && options.maxBatch > 0
      modifies this
      ensures View() == Grant(old(View()), g, bytes) && |res| == old(|res|) + 1
    {
      hide ChargeAccount, EnvelopeNeed, Books, Funded;
      var e := EnvelopeNeed(bytes, options.maxBatch);
      var charge := Credit(1, e, 0, bytes, bytes);
      ghost var gen := gens[g];
      var linked := gens[g].(pending := gens[g].pending + [|res|], refs := gens[g].refs + 1);
      gens := gens[g := linked];
      res := res + [Reservation(g, 1, e, bytes, bytes, 1, 0, false, Held, 0, charge, Zero)];
      commandsUsed := commandsUsed + 1;
      envelopesUsed := envelopesUsed + e;
      ingressUsed := ingressUsed + bytes;
      outboxUsed := outboxUsed + bytes;
      SourceChargeLocked(g, charge);
      LastUpdateWins(old(gens), g, linked, linked.(usage := gen.usage.Plus(charge)));
      GrantedState(old(View()), g, bytes, View());
    }

    /** Unlink a released reservation from its generation's list and drop its reference. */
    method DetachLocked(r: nat)
      requires r < |res| && res[r].generation < |gens|
      modifies this`gens
      ensures gens == old(gens)[res[r].generation := Detached(old(gens)[res[r].generation], r)]
    {
      var g := res[r].generation;
      var gen := gens[g];
      gens := gens[g := gen.(pending := Remove(gen.pending, r), refs := gen.refs - 1)];
    }

    /** What cancelling and completing share: the reservation leaves its list and its whole charge goes back. */
    method RefundLocked(r: nat, released: Reservation)
      requires queue.Valid() && r < |res| && res[r].generation < |gens| && !res[r].released
      requires released.released && released.generation == res[r].generation
      modifies this`res, this`gens, this`accounts, this`commandsUsed, this`envelopesUsed, this`ingressUsed, this`outboxUsed
      ensures View() == Settle(old(View()), r, released) && |gens| == old(|gens|) && |res| == old(|res|)
    {
      hide ChargeAccount, Books, Funded, Remove, ChargeOf;
      var x := res[r];
      var g := x.generation;
      ghost var gen := gens[g];
      var delta := Credit(-x.q, -x.e, 0, -x.b, -x.o);
      WholeCharge(x, released);
      res := res[r := released];
      DetachLocked(r);
      commandsUsed := commandsUsed - x.q;
      envelopesUsed := envelopesUsed - x.e;
      ingressUsed := ingressUsed - x.b;
      outboxUsed := outboxUsed - x.o;
      SourceChargeLocked(g, delta);
      LastUpdateWins(old(gens), g, Detached(gen, r), Detached(gen, r).(usage := gen.usage.Plus(delta)));
      SettledState(old(View()), r, released, View());
    }

    /** The caller that finds the retirement ready goes on to unlink the journal. */
    method CancelReservation(r: nat) returns (ready: bool)
      requires queue.Valid() && r < |res| && res[r].generation < |gens|
      modifies this
      ensures View() == Cancel(old(View()), r) && |gens| == old(|gens|)
      ensures ready <==> !old(res[r].released) && AwaitsUnlink(View(), old(res[r].generation))
    {
      hide Books, Funded, TryRetire, Settle, AwaitsUnlink;
      ready := false;
      if !res[r].released {
        var x := res[r];
        RefundLocked(r, x.(released := true, stage := Cancelled, refunded := x.refunded.Plus(ChargeOf(x))));
        TryRetireAwaits(View(), x.generation);
        ready := TryRetireLocked(x.generation);
      }
    }

    method ReleaseCommand(r: nat) returns (ready: bool)
      requires queue.Valid() && r < |res| && res[r].generation < |gens|
      modifies this
      ensures View() == Retention.ReleaseCommand(old(View()), r) && |gens| == old(|gens|)
      ensures ready <==> old(res[r].q) != 0 && AwaitsUnlink(View(), old(res[r].generation))
    {
      hide ChargeAccount, Books, Funded, TryRetire, Complete, AwaitsUnlink;
      ready := false;
      if res[r].q != 0 {
        var x := res[r];
        var y := x.(q := 0, stage := Done, refunded := x.refunded.Plus(Credit(x.q, 0, 0, 0, 0)));
        commandsUsed := commandsUsed - x.q;
        SourceChargeLocked(x.generation, Credit(-x.q, 0, 0, 0, 0));
        res := res[r := y];
        CommandReturned(old(View()), r, y, View());
        hide Settle, Overdraw;
        ReleaseCompletedReservationLocked(r);
        TryRetireAwaits(View(), x.generation);
        ready := TryRetireLocked(x.generation);
      }
    }

    method CompletePart(r: nat) returns (ready: bool)
      requires queue.Valid() && r < |res| && res[r].generation < |gens|
      modifies this
      ensures View() == Retention.CompletePart(old(View()), r) && |gens| == old(|gens|)
      ensures ready <==> !old(res[r].released) && AwaitsUnlink(View(), old(res[r].generation))
    {
      hide ChargeAccount, Books, Funded, TryRetire, Complete, AwaitsUnlink;
      ready := false;
      var x := res[r];
      if x.released {
        res := res[r := x.(settled := x.settled + 1)];
        return;
      }
      res := res[r := x.(doneParts := x.doneParts + 1, settled := x.settled + 1)];
      assert View() == Settle(old(View()), r, res[r]) by {
        UnchargedState(old(View()), r, res[r]);
      }
      SettleKept(old(View()), r, res[r]);
      hide Settle;
      ReleaseCompletedReservationLocked(r);
      TryRetireAwaits(View(), x.generation);
      ready := TryRetireLocked(x.generation);
    }

    method ReleaseCompletedReservationLocked(r: nat)
      requires queue.Valid() && r < |res| && res[r].generation < |gens|
      modifies this
      ensures View() == Complete(old(View()), r) && |gens| == old(|gens|) && |res| == old(|res|)
    {
      hide Books, Funded, Settle;
      var x := res[r];
      if !x.released && x.q == 0 && x.doneParts >= x.parts {
        RefundLocked(r, x.(released := true, refunded := x.refunded.Plus(ChargeOf(x))));
      }
    }

    // ---- The queue: every push finds room ------------------------------------------------------------

    /** An ordinary command is queued, or cancelled once close has begun. */
    method Enqueue(r: nat) returns (accepted: bool)
      requires Valid() && !closed && IsHeld(View(), r)
      modifies this, queue, queue.cells
      ensures Valid() && View() == SubmitOrdinary(old(View()), r)
      ensures accepted <==> !old(closing)
      ensures r < |old(res)| == |res| && forall k :: 0 <= k < |res| && k != r ==> res[k] == old(res)[k]
      ensures accepted ==> queue.Contents() == old(queue.Contents()) + [Ordinary(r)] && res[r] == old(res)[r].(stage := Queued)
      ensures !accepted ==> queue.Contents() == old(queue.Contents()) && res[r].released && res[r].stage.Cancelled?
    {
      hide CommandQueue.Valid, CommandQueue.Contents, Books, Funded, Cancel, RingCells, SettledAndRetired;
      BooksAccounting(View());
      SubmitQueues(View(), r);
      SubmitKeeps(View(), r);
      if closing || closed {
        var _ := CancelReservation(r);
        return false;
      }
      RoomToPush(View(), SubmitOrdinary(View(), r));
      res := res[r := res[r].(stage := Queued)];
      var ok := queue.Push(Ordinary(r));
      assert ok;
      accepted := true;
    }

    /** Rejected output joins the control run at the back, or starts one. */
    method EnqueueRejectedOutput(bytes: nat) returns (accepted: bool)
      requires Valid() && !closed && bytes > 0
      modifies this, queue, queue.cells
      ensures Valid() && View() == QueueRejected(old(View()), bytes)
      ensures accepted <==> !old(closing)
    {
      hide CommandQueue.Valid, CommandQueue.Contents, Books, Funded, RingCells;
      PushRejectedKeeps(View(), bytes);
      if closing || closed {
        return false;
      }
      RejectedState(View(), bytes);
      hide QueueRejected;
      accepted := true;
      var last := queue.Back();
      if last.Some? && last.value.Control? {
        queue.ReplaceBack(Control(last.value.bytes + bytes, last.value.fenced));
        return;
      }
      RoomToPush(View(), QueueRejected(View(), bytes));
      var ok := queue.Push(Control(bytes, false));
      assert ok;
    }

    /** A fence shares the control run at the back, or starts one. */
    method StartDispatchFence() returns (accepted: bool)
      requires Valid() && !closed
      modifies this, queue, queue.cells
      ensures Valid() && View() == QueueFence(old(View()))
      ensures accepted <==> !old(closing)
    {
      hide CommandQueue.Valid, CommandQueue.Contents, Books, Funded, RingCells;
      PushFenceKeeps(View());
      if closing || closed {
        return false;
      }
      FencedState(View());
      hide QueueFence;
      accepted := true;
      var last := queue.Back();
      if last.Some? && last.value.Control? {
        queue.ReplaceBack(Control(last.value.bytes, true));
        return;
      }
      RoomToPush(View(), QueueFence(View()));
      var ok := queue.Push(Control(0, true));
      assert ok;
    }

    method BeginClose()
      requires Valid() && !closed
      modifies this, queue, queue.cells
      ensures Valid() && View() == StartClose(old(View()))
    {
      hide CommandQueue.Valid, CommandQueue.Contents, Books, Funded, RingCells;
      CloseKeeps(View());
      if !closing {
        RoomToPush(View(), StartClose(View()));
        closing := true;
        var ok := queue.Push(CloseMarker);
        assert ok;
      }
    }

    /** The manager's close re-queues its marker while other commands are still waiting. */
    method FinishCloseCommand() returns (done: bool)
      requires Valid() && !closed && current == Some(CloseMarker)
      modifies this, queue, queue.cells
      ensures Valid() && View() == EndClose(old(View()))
      ensures done <==> old(queue.Contents()) == []
    {
      hide CommandQueue.Valid, CommandQueue.Contents, Books, Funded, RingCells;
      FinishCloseKeeps(View());
      var waiting := queue.Len();
      if waiting != 0 {
        RoomToPush(View(), EndClose(View()));
        current := None;
        var ok := queue.Push(CloseMarker);
        assert ok;
        return false;
      }
      current := None;
      closed := true;
      done := true;
    }

    method AppendCleanupCommand(key: PaneKey)
      requires Valid() && !closed && key in owed
      modifies this, queue, queue.cells
      ensures Valid() && View() == QueueCleanup(old(View()), key)
    {
      hide CommandQueue.Valid, CommandQueue.Contents, Books, Funded, RingCells;
      PushKeeps(View(), QueueCleanup(View(), key), Cleanup(key));
      RoomToPush(View(), QueueCleanup(View(), key));
      owed := owed - multiset{key};
      var ok := queue.Push(Cleanup(key));
      assert ok;
    }

    method PopNext() returns (command: Option<Command>)
      requires Valid() && !closed && current.None?
      modifies this, queue, queue.cells
      ensures Valid()
      ensures old(queue.Contents()) == [] ==> command.None? && View() == old(View())
      ensures old(queue.Contents()) != [] ==>
                && command == Some(old(queue.Contents())[0])
                && (command.value.Ordinary? ==> command.value.reservation < |old(res)|)
                && View() == PopCommand(old(View()))
    {
      hide CommandQueue.Valid, CommandQueue.Contents, Books, Funded, RingCells;
      if queue.Contents() != [] {
        PopKeeps(View());
      }
      command := queue.Pop();
      current := command;
      if command.Some? && command.value.Ordinary? {
        var r := command.value.reservation;
        res := res[r := res[r].(stage := Processing)];
      }
    }

    // ---- Faults and cleanup --------------------------------------------------------------------------

    /** A creator takes a generation back while nothing refers to it, whether or not it has failed. The ring stays
        large enough exactly when no cleanup is stranded by it. */
    method ReleaseUnadmittedLocked(key: PaneKey, created: bool)
      requires Valid() && !closed
      modifies this
      ensures forall k :: k in old(table) ==> old(table)[k] < |old(gens)|
      ensures View() == if created then ReleaseGeneration(old(View()), key) else old(View())
      ensures queue.Valid() && queue.cells.Length == RingCells(options) && Books(View())
      ensures Valid() <==> !(created && Strands(old(View()), ReleaseUnadmitted(key)))
    {
      hide CommandQueue.Valid, CommandQueue.Contents, Books, Funded, RingCells, FinishRetire, Strands;
      TableInRange(View());
      if !created {
        return;
      }
      ReleaseKeeps(View(), key);
      if key in table && !gens[table[key]].admitted && gens[table[key]].refs == 0 {
        var g := table[key];
        var released := gens[g].lifetimeReleased;
        FinishRetireKept(View(), g);
        FinishRetireLocked(g);
        gens := gens[g := gens[g].(lifetimeReleased := released)];
      }
    }

    method MakeUpLocked(key: PaneKey)
      requires queue.Valid()
      modifies this`table, this`gens, this`commandsUsed
      ensures View() == Create(old(View()), key, false).(used := old(View()).used.Adjust(2, 0))
      ensures key in table && table[key] == |gens| - 1
    {
      hide Books, Funded;
      table := table[key := |gens|];
      gens := gens + [NewGeneration(key, false)];
      commandsUsed := commandsUsed + 2;
    }

    /** Elect one cleanup for a fault. A missing generation would be made up with commands that no generation's
        slot pays for, but every fault classified unchecked finds its generation in the table. */
    method CommitFaultLocked(key: PaneKey) returns (winner: bool)
      requires Valid() && !closed
      modifies this
      ensures key in old(table) ==> old(table)[key] < |old(gens)|
      ensures (View(), winner) == CommitFault(old(View()), key)
      ensures key in old(table) ==> Valid()
      ensures FaultSite(old(View()), key) ==> key in old(table)
    {
      hide CommandQueue.Valid, CommandQueue.Contents, Books, Funded, RingCells, FaultSite;
      if FaultSite(View(), key) {
        FaultFindsGeneration(View(), key);
      }
      if key in table {
        InvTable(View(), key);
        FaultKeeps(View(), key);
      } else {
        MakeUpLocked(key);
        hide Create;
      }
      var g := table[key];
      if gens[g].failed {
        return false;
      }
      gens := gens[g := gens[g].(failed := true, cleanupQueued := true)];
      owed := owed + multiset{key};
      winner := true;
    }

    /** The cleanup in hand is spent and its generation asked to retire. */
    method SpendCleanupCommand() returns (ready: bool)
      requires Valid() && !closed && current.Some? && current.value.Cleanup?
      modifies this
      ensures Valid() && forall k :: k in old(table) ==> old(table)[k] < |old(gens)|
      ensures View() == SpendFaultCleanup(old(View()), old(current).value.key)
    {
      hide CommandQueue.Valid, CommandQueue.Contents, Books, Funded, RingCells, TryRetire;
      TableInRange(View());
      SpendKeeps(View());
      ready := false;
      var key := current.value.key;
      current := None;
      if key in table {
        var g := table[key];
        gens := gens[g := gens[g].(cleanupSpent := true, retireRequested := true)];
        ready := TryRetireLocked(g);
      }
    }

    /** An abort abandons the successor only against the exact live, abortable predecessor. */
    method SettleRotationAbort(oldKey: PaneKey, predecessor: nat, newKey: PaneKey, successor: nat, created: bool)
      returns (aborted: bool)
      requires Valid() && !closed
      modifies this
      ensures Valid() && forall k :: k in old(table) ==> old(table)[k] < |old(gens)|
      ensures (View(), aborted) == AbortRotation(old(View()), oldKey, predecessor, newKey, successor, created)
    {
      hide CommandQueue.Valid, CommandQueue.Contents, Books, Funded, RingCells, TryRetire;
      TableInRange(View());
      AbortKeeps(View(), oldKey, predecessor, newKey, successor, created);
      if oldKey !in table || table[oldKey] != predecessor || !gens[predecessor].admitted ||
         gens[predecessor].retireRequested || gens[predecessor].failed {
        return false;
      }
      aborted := true;
      if created {
        if newKey !in table {
          return;
        }
        if table[newKey] != successor || gens[successor].admitted {
          return false;
        }
        gens := gens[successor := gens[successor].(abandoned := true, retireRequested := true)];
        var _ := TryRetireLocked(successor);
      }
    }

    /** Bind the ensured generation to its physical source, joining or opening the source's account. Whether it may
        stay is the caller's affair: a creator rolls a refused generation back. */
    method BindSourceLocked(key: PaneKey, generation: nat, source: SourceKey) returns (outcome: Binding)
      requires Valid() && !closed
      modifies this
      ensures Valid() && (key in old(table) ==> old(table)[key] < |old(gens)|)
      ensures View() == Bind(old(View()), key, generation, source)
      ensures outcome == BindingOf(old(View()), key, generation, source)
    {
      hide CommandQueue.Valid, CommandQueue.Contents, Books, Funded, RingCells, Credit.Plus, Options.FitsSource;
      TableInRange(View());
      BindKeeps(View(), key, generation, source);
      if !options.sourceRealm {
        return Unbound;
      }
      if key !in table || table[key] != generation || closing || closed {
        return Invalidated;
      }
      var g := table[key];
      if gens[g].failed || gens[g].abandoned || gens[g].lifetimeReleased {
        return Invalidated;
      }
      if gens[g].source.Some? {
        return if gens[g].source.value == source then Bound else Mismatch;
      }
      if source !in accounts && |accounts| >= options.maxPanes {
        return Quota;
      }
      var account := if source in accounts then accounts[source] else Zero;
      if !options.FitsSource(account.Plus(gens[g].usage)) {
        return Quota;
      }
      accounts := accounts[source := account.Plus(gens[g].usage).(generations := account.generations + 1)];
      gens := gens[g := gens[g].(source := Some(source))];
      outcome := Bound;
    }
  }

  /** Why a source was not bound, or that it is. */
  datatype Binding = Unbound | Bound | Invalidated | Mismatch | Quota

  function BindingOf(s: State, key: PaneKey, generation: nat, source: SourceKey): Binding
    requires key in s.table ==> s.table[key] < |s.gens|
  {
    if !s.options.sourceRealm then Unbound
    else if key !in s.table || s.table[key] != generation || s.closing || s.closed || s.gens[generation].failed ||
            s.gens[generation].abandoned || s.gens[generation].lifetimeReleased then Invalidated
    else if s.gens[generation].source.Some? && s.gens[generation].source.value != source then Mismatch
    else if s.gens[generation].source == Some(source) || Bind(s, key, generation, source).gens[generation].source.Some? then Bound
    else Quota
  }

  lemma TableInRange(s: State)
    requires Inv(s) && !s.closed
    ensures forall k :: k in s.table ==> s.table[k] < |s.gens|
  {
    hide Books, Funded;
    InvWellFormed(s);
  }
}
