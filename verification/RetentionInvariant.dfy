/** What every reachable state of the retention runtime keeps until close completes. */
module RetentionInvariant {
  import opened Basics
  import opened Credits
  import opened Journal
  import opened Retention
  import opened RetentionLedger
  import opened RetentionSteps

  function Ordinaries(): Command -> bool {
    (c: Command) => c.Ordinary?
  }

  function Cleanups(): Command -> bool {
    (c: Command) => c.Cleanup?
  }

  function Closes(): Command -> bool {
    (c: Command) => c.CloseMarker?
  }

  function AtStage(stage: Stage): Reservation -> bool {
    (r: Reservation) => r.stage == stage
  }

  /** A failed generation whose funded cleanup has not run yet. */
  predicate Unspent(g: Generation) {
    g.live && g.failed && !g.cleanupSpent
  }

  function UnspentOnes(): Generation -> bool {
    (g: Generation) => Unspent(g)
  }

  ghost predicate Limits(s: State) {
    forall d :: s.used.Get(d) <= s.options.Limit().Get(d)
  }

  ghost predicate NoAdjacentControls(queue: seq<Command>) {
    forall i :: 0 <= i && i + 1 < |queue| ==> !(queue[i].Control? && queue[i + 1].Control?)
  }

  /** Each ordinary command in the queue is the one command of a distinct reservation. */
  ghost predicate OrdinaryOk(s: State) {
    && (forall i :: 0 <= i < |s.queue| && s.queue[i].Ordinary? ==>
          s.queue[i].reservation < |s.res| && s.res[s.queue[i].reservation].stage == Queued)
    && (forall i, j :: 0 <= i < j < |s.queue| && s.queue[i].Ordinary? && s.queue[j].Ordinary? ==>
          s.queue[i].reservation != s.queue[j].reservation)
    && Count(s.queue, Ordinaries()) == Count(s.res, AtStage(Queued))
    && (forall r :: 0 <= r < |s.res| ==> (s.res[r].stage == Processing <==> s.current == Some(Ordinary(r))))
    && (s.current.Some? && s.current.value.Ordinary? ==> s.current.value.reservation < |s.res|)
  }

  /** One close marker exists from the moment close begins. */
  ghost predicate CloseOk(s: State) {
    Count(s.queue, Closes()) + (if s.current == Some(CloseMarker) then 1 else 0) == (if s.closing then 1 else 0)
  }

  ghost predicate Token(s: State, key: PaneKey) {
    key in s.table && s.table[key] < |s.gens| && Unspent(s.gens[s.table[key]])
  }

  /** Queued cleanups belong to distinct live failed generations, and are neither in hand nor still to be queued. */
  ghost predicate CleanupsQueued(s: State) {
    && (forall i :: 0 <= i < |s.queue| && s.queue[i].Cleanup? ==>
          Token(s, s.queue[i].key) && s.queue[i].key !in s.owed && s.current != Some(s.queue[i]))
    && (forall i, j :: 0 <= i < j < |s.queue| && s.queue[i].Cleanup? && s.queue[j].Cleanup? ==>
          s.queue[i].key != s.queue[j].key)
  }

  /** So do the cleanups still to be queued and the one in hand. */
  ghost predicate CleanupsOwed(s: State) {
    && (forall k :: k in s.owed ==> Token(s, k) && s.current != Some(Cleanup(k)) && s.owed[k] == 1)
    && (s.current.Some? && s.current.value.Cleanup? ==> Token(s, s.current.value.key))
  }

  /** And there is one for each such generation. */
  ghost predicate CleanupsCounted(s: State) {
    Count(s.queue, Cleanups()) + |s.owed| + (if s.current.Some? && s.current.value.Cleanup? then 1 else 0)
      == Count(s.gens, UnspentOnes())
  }

  ghost predicate CleanupOk(s: State) {
    CleanupsQueued(s) && CleanupsOwed(s) && CleanupsCounted(s)
  }

  /** A payload part in the outbox is among the first `parts` occurrences of its reservation. */
  ghost predicate OutboxOk(s: State) {
    forall j :: 0 <= j < |s.outbox| ==>
      var r := s.outbox[j].reservation;
      && r < |s.res| && s.res[r].stage.Started()
      && (s.outbox[j].payload ==> s.res[r].settled + Count(s.outbox[..j], PartOf(r)) < s.res[r].parts)
  }

  ghost predicate Work(s: State) {
    OrdinaryOk(s) && NoAdjacentControls(s.queue) && CloseOk(s) && OutboxOk(s)
  }

  /** What every run keeps: the books balance within their limits, and every accepted command and part is somewhere. */
  ghost predicate Books(s: State) {
    s.closed || (s.options.Valid() && Accounting(s) && Limits(s) && Work(s))
  }

  /** A failed generation leaves the table only after its cleanup, and a cleanup is only spent for a failed one. */
  ghost predicate Spending(s: State) {
    forall g :: 0 <= g < |s.gens| ==>
      && (s.gens[g].failed && !s.gens[g].live ==> s.gens[g].cleanupSpent)
      && (s.gens[g].cleanupSpent ==> s.gens[g].failed)
  }

  /** What every run keeps in which no rollback strands a cleanup: each cleanup is paid for by its generation. */
  ghost predicate Funded(s: State) {
    s.closed || Backed(s)
  }

  ghost predicate Backed(s: State) {
    Spending(s) && CleanupOk(s)
  }

  ghost predicate Inv(s: State) {
    Books(s) && Funded(s)
  }

  /** The books are still kept in `t`, and every cleanup still paid for if it was in `s`. */
  ghost predicate Keeps(s: State, t: State) {
    Books(t) && (Funded(s) ==> Funded(t))
  }

  ghost predicate KeepsWork(s: State, t: State) {
    Work(t) && (Backed(s) ==> Backed(t))
  }

  lemma InvWellFormed(s: State)
    requires Books(s) && !s.closed
    ensures WellFormed(s)
  {
    forall r | 0 <= r < |s.res| ensures s.res[r].generation < |s.gens| {
      assert ReservationOk(s, s.res[r]);
    }
  }

  lemma InitialInv(options: Options)
    requires options.Valid()
    ensures Inv(Retention.Initial(options))
  {
    var s := Retention.Initial(options);
    assert forall d :: s.used.Get(d) == 0;
  }

  // ---- The capacity argument -----------------------------------------------------------------------

  /** Without two control runs in a row, control runs fit between and around the other commands. */
  lemma {:induction false} ControlsInterleave(queue: seq<Command>)
    requires NoAdjacentControls(queue)
    ensures |queue| <= 2 * (Count(queue, Ordinaries()) + Count(queue, Cleanups()) + Count(queue, Closes()))
                       + (if queue != [] && queue[|queue| - 1].Control? then 1 else 0)
  {
    if queue != [] {
      ControlsInterleave(queue[..|queue| - 1]);
      assert queue[..|queue| - 1] != [] ==> queue[..|queue| - 1][|queue| - 2] == queue[|queue| - 2];
    }
  }

  /** Queued commands still hold their command credit. */
  lemma {:induction false} QueuedCharge(res: seq<Reservation>)
    requires forall x :: x in res ==> ChargeOf(x).commands >= 0 && (x.stage == Queued ==> ChargeOf(x).commands == 1)
    ensures Count(res, AtStage(Queued)) <= Sum(res, Charge(Commands))
  {
    if res != [] {
      QueuedCharge(res[..|res| - 1]);
    }
  }

  lemma {:induction false} UnspentLive(gens: seq<Generation>)
    ensures Count(gens, UnspentOnes()) <= Sum(gens, Lifetime(Generations))
    ensures 0 <= Sum(gens, Lifetime(Commands))
  {
    if gens != [] {
      UnspentLive(gens[..|gens| - 1]);
    }
  }

  /** The fixed ring holds every command any producer can have queued before close completes. */
  lemma QueueFitsRing(s: State)
    requires Inv(s) && !s.closed
    ensures |s.queue| <= RingCells(s.options)
  {
    hide Sum, Count, PendingOf;
    ControlsInterleave(s.queue);
    forall x | x in s.res
      ensures ChargeOf(x).commands >= 0 && (x.stage == Queued ==> ChargeOf(x).commands == 1)
    {
      assert ReservationOk(s, x);
    }
    QueuedCharge(s.res);
    UnspentLive(s.gens);
    forall x | x in s.res ensures Charge(Generations)(x) == 0 {
    }
    SumZero(s.res, Charge(Generations));
    assert s.used.Get(Commands) == Sum(s.gens, Lifetime(Commands)) + Sum(s.res, Charge(Commands));
    assert s.used.Get(Generations) == Sum(s.gens, Lifetime(Generations)) + Sum(s.res, Charge(Generations));
    assert s.used.Get(Commands) <= s.options.Limit().Get(Commands);
    assert s.used.Get(Generations) <= s.options.Limit().Get(Generations);
  }

  // ---- Two consequences a reader can use ------------------------------------------------------------

  /** A fault never finds its generation missing, so commitFaultLocked never materialises an unfunded one. */
  lemma FaultFindsGeneration(s: State, key: PaneKey)
    requires Books(s) && !s.closed && FaultSite(s, key)
    ensures key in s.table && s.gens[s.table[key]].key == key
  {
    if s.current.Some? && s.current.value.Ordinary? && Concerns(s, s.current.value.reservation, key) {
      assert ReservationOk(s, s.res[s.current.value.reservation]);
    } else if s.outbox != [] && s.outbox[0].payload && Concerns(s, s.outbox[0].reservation, key) {
      assert s.outbox[..0] == [];
      assert ReservationOk(s, s.res[s.outbox[0].reservation]);
    } else if r :| 0 <= r < |s.res| && Waiting(s, r) && Concerns(s, r, key) {
      assert ReservationOk(s, s.res[r]);
    }
  }

  /** Payload credit comes back only after every published payload part has settled, even when the dispatcher
      settles one more occurrence than the reservation declared. */
  lemma PayloadSettledBeforeRefund(s: State, r: nat)
    requires Books(s) && !s.closed && r < |s.res| && s.res[r].released
    ensures forall j :: 0 <= j < |s.outbox| && s.outbox[j].reservation == r ==> !s.outbox[j].payload
  {
    assert ReservationOk(s, s.res[r]);
  }

  /** A released reservation has been refunded exactly what it was granted, and an unreleased one exactly what
      it no longer holds. */
  lemma RefundedExactlyOnce(s: State, r: nat)
    requires Books(s) && !s.closed && r < |s.res|
    ensures forall d :: s.res[r].refunded.Get(d) == s.res[r].granted.Get(d) - ChargeOf(s.res[r]).Get(d)
    ensures s.res[r].released ==> forall d :: s.res[r].refunded.Get(d) == s.res[r].granted.Get(d)
  {
    assert ReservationOk(s, s.res[r]);
  }
}
