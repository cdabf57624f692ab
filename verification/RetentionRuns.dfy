/** Every transition keeps the invariant, so every run does. */
module RetentionRuns {
  import opened Basics
  import opened Credits
  import opened Journal
  import opened Retention
  import opened RetentionLedger
  import opened RetentionSteps
  import opened RetentionInvariant

  lemma InvCurrent(s: State, r: nat)
    requires Work(s) && s.current == Some(Ordinary(r))
    ensures r < |s.res| && s.res[r].stage == Processing
  {
  }

  lemma InvOldest(s: State)
    requires Work(s) && s.outbox != []
    ensures s.outbox[0].reservation < |s.res| && s.res[s.outbox[0].reservation].stage.Started()
  {
  }

  // ---- Frames: what the duties do not look at --------------------------------------------------------

  /** Reservations that keep their stage keep the ordinary-command duty. */
  lemma StagesKeep(s: State, t: State)
    requires OrdinaryOk(s) && |t.res| == |s.res| && t.queue == s.queue && t.current == s.current
    requires forall r :: 0 <= r < |s.res| ==> t.res[r].stage == s.res[r].stage
    ensures OrdinaryOk(t)
  {
    hide Count;
    CountSame(s.res, t.res, AtStage(Queued), AtStage(Queued));
  }

  /** The cleanup state is the same, and a generation that left the table had no cleanup to wait for. */
  ghost predicate SameDuty(old_: Generation, new_: Generation) {
    && new_.failed == old_.failed && new_.cleanupSpent == old_.cleanupSpent
    && (new_.live == old_.live || (!new_.live && !Unspent(old_)))
  }

  /** Generations that keep their table entry and their cleanup state keep the cleanup duty. */
  lemma TokensKeep(s: State, t: State)
    requires |t.gens| == |s.gens| && t.queue == s.queue && t.current == s.current && t.owed == s.owed
    requires forall g :: 0 <= g < |s.gens| ==> SameDuty(s.gens[g], t.gens[g])
    requires forall k :: Token(s, k) ==> k in t.table && t.table[k] == s.table[k]
    ensures Backed(s) ==> Backed(t)
  {
    hide Count;
    CountSame(s.gens, t.gens, UnspentOnes(), UnspentOnes());
    assert forall k :: Token(s, k) ==> Token(t, k);
  }

  lemma OutboxKeeps(s: State, t: State)
    requires OutboxOk(s) && |t.res| >= |s.res| && t.outbox == s.outbox
    requires forall r :: 0 <= r < |s.res| && s.res[r].stage.Started() ==>
               t.res[r].stage.Started() && t.res[r].settled == s.res[r].settled && t.res[r].parts == s.res[r].parts
    ensures OutboxOk(t)
  {
    hide Count;
  }

  ghost predicate FlagChange(old_: Generation, new_: Generation) {
    new_ == old_.(admitted := new_.admitted, retireRequested := new_.retireRequested,
                  durableRequested := new_.durableRequested, abandoned := new_.abandoned,
                  lifetimeReleased := new_.lifetimeReleased)
    && (old_.live ==> new_.lifetimeReleased == old_.lifetimeReleased)
  }

  lemma FlagsKeepAccounting(s: State, g: nat, x: Generation)
    requires Accounting(s) && g < |s.gens| && FlagChange(s.gens[g], x)
    ensures Accounting(s.(gens := s.gens[g := x]))
  {
    hide Sum, PendingOf;
    var t := s.(gens := s.gens[g := x]);
    RelinkSums(s.gens, g, x);
    forall r | 0 <= r < |t.res| ensures ReservationOk(t, t.res[r]) {
      assert ReservationOk(s, s.res[r]);
    }
    forall h, d | 0 <= h < |t.gens| ensures t.gens[h].usage.Get(d) == OwnUsage(t, h, d) {
      assert s.gens[h].usage.Get(d) == OwnUsage(s, h, d);
    }
  }

  /** Changing only a generation's admission and retirement flags keeps the invariant. */
  lemma FlagsKeep(s: State, g: nat, x: Generation)
    requires Books(s) && !s.closed && g < |s.gens| && FlagChange(s.gens[g], x)
    ensures Keeps(s, s.(gens := s.gens[g := x]))
  {
    hide Count, Ledger, Reservations, Table, PendingLists, Lifecycle;
    var t := s.(gens := s.gens[g := x]);
    FlagsKeepAccounting(s, g, x);
    StagesKeep(s, t);
    TokensKeep(s, t);
    OutboxKeeps(s, t);
  }

  // ---- Retirement ------------------------------------------------------------------------------------

  /** Leaving the table costs nobody a duty, unless the generation that leaves still waits for its cleanup. */
  lemma RetireKeepsDuties(s: State, g: nat)
    requires Accounting(s) && Work(s) && g < |s.gens| && s.gens[g].live
    ensures Work(FinishRetire(s, g)) && (!Unspent(s.gens[g]) ==> KeepsWork(s, FinishRetire(s, g)))
    ensures forall d :: FinishRetire(s, g).used.Get(d) <= s.used.Get(d)
  {
    hide Sum, Count, PendingOf;
    var t := FinishRetire(s, g);
    RetireShape(s, g);
    StagesKeep(s, t);
    OutboxKeeps(s, t);
    if !Unspent(s.gens[g]) {
      TokensKeep(s, t);
    }
  }

  lemma TryRetireKeepsDuties(s: State, g: nat)
    requires Accounting(s) && Work(s) && g < |s.gens| && s.gens[g].live
    ensures KeepsWork(s, TryRetire(s, g))
    ensures forall d :: TryRetire(s, g).used.Get(d) <= s.used.Get(d)
  {
    hide Sum, Count, PendingOf;
    if TryRetire(s, g) != s {
      RetireKeepsDuties(s, g);
    }
  }

  lemma TryRetireKeeps(s: State, g: nat)
    requires Books(s) && !s.closed && g < |s.gens| && s.gens[g].live
    ensures Keeps(s, TryRetire(s, g))
  {
    hide Sum, Count, PendingOf;
    TryRetireKeepsAccounting(s, g);
    TryRetireKeepsDuties(s, g);
  }

  lemma FinishRetireKeeps(s: State, g: nat)
    requires Books(s) && !s.closed && g < |s.gens| && s.gens[g].live && s.gens[g].refs == 0
    ensures Books(FinishRetire(s, g)) && (!Unspent(s.gens[g]) ==> Keeps(s, FinishRetire(s, g)))
  {
    hide Sum, Count, PendingOf;
    RetireKeepsAccounting(s, g);
    RetireKeepsDuties(s, g);
  }

  // ---- Reservations ----------------------------------------------------------------------------------

  /** Settling a reservation touches nothing the cleanup and close duties look at. */
  lemma SettleFrame(s: State, r: nat, x: Reservation)
    requires r < |s.res| && s.res[r].generation < |s.gens| && x.generation == s.res[r].generation
    ensures var t := Settle(s, r, x);
            && t.res == s.res[r := x] && t.table == s.table && |t.gens| == |s.gens|
            && t.queue == s.queue && t.current == s.current && t.owed == s.owed && t.outbox == s.outbox
            && t.closing == s.closing && t.closed == s.closed && t.options == s.options
            && (forall g :: 0 <= g < |s.gens| ==> SameDuty(s.gens[g], t.gens[g]) && t.gens[g].live == s.gens[g].live)
            && (forall d :: t.used.Get(d) == s.used.Get(d) + ChargeOf(x).Get(d) - ChargeOf(s.res[r]).Get(d))
  {
  }

  lemma SettleKeepsDuties(s: State, r: nat, x: Reservation)
    requires r < |s.res| && s.res[r].generation < |s.gens| && x.generation == s.res[r].generation
    requires Work(s) && x.stage == s.res[r].stage && x.settled == s.res[r].settled && x.parts == s.res[r].parts
    ensures KeepsWork(s, Settle(s, r, x))
  {
    hide Sum, Count, PendingOf;
    SettleFrame(s, r, x);
    var t := Settle(s, r, x);
    StagesKeep(s, t);
    TokensKeep(s, t);
    OutboxKeeps(s, t);
  }

  lemma CompleteKeepsDuties(s: State, r: nat)
    requires Accounting(s) && Work(s) && r < |s.res| && s.res[r].stage.Started()
    ensures KeepsWork(s, Complete(s, r)) && Complete(s, r).closed == s.closed
    ensures forall d :: Complete(s, r).used.Get(d) <= s.used.Get(d)
  {
    hide Sum, Count, PendingOf;
    var x := s.res[r];
    assert ReservationOk(s, x);
    if Complete(s, r) != s {
      var y := x.(released := true, refunded := x.refunded.Plus(ChargeOf(x)));
      SettleFrame(s, r, y);
      SettleKeepsDuties(s, r, y);
    }
  }

  /** A reservation that leaves its caller's hands unused never had a duty. */
  lemma DropHeldDuties(s: State, r: nat, x: Reservation)
    requires r < |s.res| && s.res[r].generation < |s.gens| && x.generation == s.res[r].generation
    requires Work(s) && s.res[r].stage == Held && x.stage == Cancelled
    ensures KeepsWork(s, Settle(s, r, x))
  {
    hide Count;
    SettleFrame(s, r, x);
    var t := Settle(s, r, x);
    CountUpdate(s.res, r, x, AtStage(Queued));
    TokensKeep(s, t);
    OutboxKeeps(s, t);
  }

  lemma CancelKeeps(s: State, r: nat)
    requires Books(s) && !s.closed && r < |s.res| && s.res[r].stage == Held
    ensures Keeps(s, Cancel(s, r))
  {
    hide Ledger, Reservations, Table, PendingLists, Lifecycle, Work, Backed;
    CancelKeepsAccounting(s, r);
    var x := s.res[r];
    ReservationHolds(s, r);
    var y := x.(released := true, stage := Cancelled, refunded := x.refunded.Plus(ChargeOf(x)));
    SettleFrame(s, r, y);
    SettleKeepsAccounting(s, r, y);
    DropHeldDuties(s, r, y);
    TryRetireKeepsDuties(Settle(s, r, y), x.generation);
  }

  /** The manager puts an ordinary command down. */
  lemma PutDownDuties(s: State, r: nat, x: Reservation)
    requires r < |s.res| && s.res[r].generation < |s.gens| && x.generation == s.res[r].generation
    requires Work(s) && s.current == Some(Ordinary(r))
    requires x.stage == Done && x.settled == s.res[r].settled && x.parts == s.res[r].parts
    ensures KeepsWork(s, Settle(s.(current := None), r, x))
  {
    hide Count;
    var s0 := s.(current := None);
    SettleFrame(s0, r, x);
    var t := Settle(s0, r, x);
    CountUpdate(s.res, r, x, AtStage(Queued));
    TokensDropOrdinary(s, t);
    OutboxKeeps(s, t);
  }

  /** What every settled part or finished command does next: refund if complete, retire if asked. */
  lemma CompleteAndRetireKeeps(s: State, r: nat)
    requires Books(s) && !s.closed && r < |s.res| && s.res[r].stage.Started()
    requires s.res[r].generation < |s.gens| && s.gens[s.res[r].generation].live
    ensures Keeps(s, TryRetire(Complete(s, r), s.res[r].generation))
  {
    CompleteKeepsAccounting(s, r);
    CompleteKeepsDuties(s, r);
    hide Ledger, Reservations, Table, PendingLists, Lifecycle, Work, Backed;
    TryRetireKeeps(Complete(s, r), s.res[r].generation);
  }

  /** The manager's last act on a command: its command credit returns, and its payload credit if every part is done. */
  lemma FinishKeeps(s: State, r: nat)
    requires Books(s) && !s.closed && s.current == Some(Ordinary(r))
    ensures r < |s.res| && s.res[r].generation < |s.gens| && Keeps(s, ReleaseCommand(s.(current := None), r))
  {
    hide Ledger, Reservations, Table, PendingLists, Lifecycle, Work, Backed;
    InvCurrent(s, r);
    var x := s.res[r];
    ReservationHolds(s, r);
    var s0 := s.(current := None);
    SameTables(s, s0);
    var y := x.(q := 0, stage := Done, refunded := x.refunded.Plus(Credit(x.q, 0, 0, 0, 0)));
    SettleFrame(s0, r, y);
    SettleKeepsAccounting(s0, r, y);
    PutDownDuties(s, r, y);
    CompleteAndRetireKeeps(Settle(s0, r, y), r);
  }

  /** The accounting looks only at the generations, the table, the reservations, the accounts and the counters. */
  lemma SameTables(s: State, t: State)
    requires Accounting(s) && t.gens == s.gens && t.table == s.table && t.res == s.res && t.used == s.used && t.accounts == s.accounts
    ensures Accounting(t)
  {
    hide Sum, PendingOf;
    forall r | 0 <= r < |t.res| ensures ReservationOk(t, t.res[r]) {
      assert ReservationOk(s, s.res[r]);
    }
    forall h, d | 0 <= h < |t.gens| ensures t.gens[h].usage.Get(d) == OwnUsage(t, h, d) {
      assert s.gens[h].usage.Get(d) == OwnUsage(s, h, d);
    }
  }

  /** Putting down a command that is not a cleanup keeps the cleanup duty. */
  lemma TokensDropOrdinary(s: State, t: State)
    requires |t.gens| == |s.gens| && t.queue == s.queue && t.owed == s.owed && t.table == s.table
    requires forall g :: 0 <= g < |s.gens| ==> SameDuty(s.gens[g], t.gens[g])
    requires t.current.None? && (s.current.Some? ==> !s.current.value.Cleanup?)
    ensures Backed(s) ==> Backed(t)
  {
    hide Count;
    CountSame(s.gens, t.gens, UnspentOnes(), UnspentOnes());
    assert forall k :: Token(s, k) ==> Token(t, k);
  }

  /** The dispatcher puts the oldest occurrence down. */
  lemma SettleOldestDuties(s: State, x: Reservation)
    requires s.outbox != [] && s.outbox[0].reservation < |s.res|
    requires var r := s.outbox[0].reservation;
             && s.res[r].generation < |s.gens| && x.generation == s.res[r].generation
             && x.stage == s.res[r].stage && x.settled == s.res[r].settled + 1 && x.parts == s.res[r].parts
    requires Work(s)
    ensures KeepsWork(s, Settle(s.(outbox := s.outbox[1..]), s.outbox[0].reservation, x))
  {
    hide Count;
    var r := s.outbox[0].reservation;
    var s0 := s.(outbox := s.outbox[1..]);
    SettleFrame(s0, r, x);
    var t := Settle(s0, r, x);
    StagesKeep(s, t);
    TokensKeep(s, t);
    ShiftOutbox(s, t, r);
  }

  lemma DispatchKeeps(s: State)
    requires Books(s) && !s.closed && s.outbox != []
    ensures s.outbox[0].reservation < |s.res| && s.res[s.outbox[0].reservation].generation < |s.gens|
    ensures Keeps(s, DispatchPart(s))
  {
    hide Ledger, Reservations, Table, PendingLists, Lifecycle, Work, Backed;
    InvOldest(s);
    var r := s.outbox[0].reservation;
    var x := s.res[r];
    ReservationHolds(s, r);
    var s0 := s.(outbox := s.outbox[1..]);
    SameTables(s, s0);
    var y := if x.released then x.(settled := x.settled + 1)
             else x.(doneParts := x.doneParts + 1, settled := x.settled + 1);
    SettleFrame(s0, r, y);
    SettleKeepsAccounting(s0, r, y);
    SettleOldestDuties(s, y);
    if x.released {
      CompletePartOfReleased(s0, r);
    } else {
      CompleteAndRetireKeeps(Settle(s0, r, y), r);
    }
  }

  /** Settling the oldest occurrence moves it from the outbox to the settled count. */
  lemma ShiftOutbox(s: State, t: State, r: nat)
    requires OutboxOk(s) && s.outbox != [] && r == s.outbox[0].reservation && t.outbox == s.outbox[1..]
    requires r < |s.res| && |t.res| == |s.res| && t.res[r].settled == s.res[r].settled + 1
    requires forall i :: 0 <= i < |s.res| ==> t.res[i].stage == s.res[i].stage && t.res[i].parts == s.res[i].parts
    requires forall i :: 0 <= i < |s.res| && i != r ==> t.res[i].settled == s.res[i].settled
    ensures OutboxOk(t)
  {
    hide Count;
    forall j | 0 <= j < |t.outbox|
      ensures var i := t.outbox[j].reservation;
              && i < |t.res| && t.res[i].stage.Started()
              && (t.outbox[j].payload ==> t.res[i].settled + Count(t.outbox[..j], PartOf(i)) < t.res[i].parts)
    {
      var i := s.outbox[j + 1].reservation;
      assert s.outbox[..j + 1][1..] == t.outbox[..j];
      CountFront(s.outbox[..j + 1], PartOf(i));
    }
  }

  // ---- New generations and new reservations ----------------------------------------------------------

  lemma CreateKeepsAccounting(s: State, key: PaneKey, admitted: bool)
    requires Accounting(s) && key !in s.table
    ensures Accounting(Create(s, key, admitted))
  {
    hide Sum, PendingOf;
    var t := Create(s, key, admitted);
    var fresh_ := NewGeneration(key, admitted);
    forall d ensures t.used.Get(d) == Sum(t.gens, Lifetime(d)) + Sum(t.res, Charge(d)) {
      SumAppend(s.gens, fresh_, Lifetime(d));
    }
    NoReservations(s, |s.gens|);
    forall h, d | 0 <= h < |t.gens| ensures t.gens[h].usage.Get(d) == OwnUsage(t, h, d) {
      if h < |s.gens| {
        assert s.gens[h].usage.Get(d) == OwnUsage(s, h, d);
      }
    }
    forall k, d | k in t.accounts ensures t.accounts[k].Get(d) == Sum(t.gens, Bound(k, d)) {
      SumAppend(s.gens, fresh_, Bound(k, d));
    }
    forall r | 0 <= r < |t.res| ensures ReservationOk(t, t.res[r]) {
      assert ReservationOk(s, s.res[r]);
    }
  }

  /** No reservation belongs to a generation that does not exist yet. */
  lemma NoReservations(s: State, g: nat)
    requires Reservations(s) && g >= |s.gens|
    ensures PendingOf(s.res, g) == [] && forall d :: Sum(s.res, ChargeIn(g, d)) == 0
  {
    PendingRange(s.res, g);
    assert forall r :: 0 <= r < |s.res| ==> ReservationOk(s, s.res[r]);
    assert |PendingOf(s.res, g)| > 0 ==> PendingOf(s.res, g)[0] in PendingOf(s.res, g);
    NothingPendingNothingHeld(s.res, g);
  }

  lemma CreateKeepsCleanups(s: State, key: PaneKey, admitted: bool)
    requires key !in s.table
    ensures Backed(s) ==> Backed(Create(s, key, admitted))
  {
    hide Count;
    var t := Create(s, key, admitted);
    CountAppend(s.gens, NewGeneration(key, admitted), UnspentOnes());
    assert forall k :: Token(s, k) ==> Token(t, k);
  }

  lemma CreateKeeps(s: State, key: PaneKey, admitted: bool)
    requires Books(s) && !s.closed && key !in s.table && RoomForGeneration(s)
    ensures Keeps(s, Create(s, key, admitted))
  {
    hide Accounting, CleanupOk;
    CreateKeepsAccounting(s, key, admitted);
    CreateKeepsCleanups(s, key, admitted);
    var t := Create(s, key, admitted);
    StagesKeep(s, t);
    OutboxKeeps(s, t);
    hide OrdinaryOk, OutboxOk, NoAdjacentControls;
    forall d ensures t.used.Get(d) <= t.options.Limit().Get(d) {
      assert s.used.Get(d) <= s.options.Limit().Get(d);
    }
  }

  /** The generation a grant links its reservation into, before it is charged. */
  function Linked(s: State, g: nat): State
    requires g < |s.gens|
  {
    s.(gens := s.gens[g := s.gens[g].(pending := s.gens[g].pending + [|s.res|], refs := s.gens[g].refs + 1)])
  }

  lemma GrantShape(s: State, g: nat, bytes: nat)
    requires g < |s.gens| && s.options.maxBatch > 0
    ensures var t := Grant(s, g, bytes);
            var charge := Credit(1, EnvelopeNeed(bytes, s.options.maxBatch), 0, bytes, bytes);
            && |t.res| == |s.res| + 1 && t.res[..|s.res|] == s.res && t.res == s.res + [t.res[|s.res|]]
            && t.res[|s.res|].generation == g && t.res[|s.res|].stage == Held && ReservationOk(t, t.res[|s.res|]) == t.gens[g].live
            && (forall d :: ChargeOf(t.res[|s.res|]).Get(d) == charge.Get(d))
            && t.used == s.used.Plus(charge)
            && t.gens == SourceCharge(Linked(s, g), g, charge).gens
            && t.accounts == SourceCharge(Linked(s, g), g, charge).accounts
            && t.table == s.table && t.queue == s.queue && t.current == s.current && t.owed == s.owed
            && t.outbox == s.outbox && t.closing == s.closing && t.closed == s.closed && t.options == s.options
  {
  }

  lemma GrantKeepsLedger(s: State, g: nat, bytes: nat)
    requires Ledger(s) && g < |s.gens| && s.options.maxBatch > 0
    ensures Ledger(Grant(s, g, bytes))
  {
    hide Sum, PendingOf;
    GrantShape(s, g, bytes);
    var t := Grant(s, g, bytes);
    var x := t.res[|s.res|];
    var charge := Credit(1, EnvelopeNeed(bytes, s.options.maxBatch), 0, bytes, bytes);
    RelinkSums(s.gens, g, Linked(s, g).gens[g]);
    SourceChargeKeepsAccounts(Linked(s, g), g, charge);
    hide Grant, EnvelopeNeed, Accounts;
    forall d ensures t.used.Get(d) == Sum(t.gens, Lifetime(d)) + Sum(t.res, Charge(d)) {
      SumAppend(s.res, x, Charge(d));
    }
    forall h, d | 0 <= h < |t.gens| ensures t.gens[h].usage.Get(d) == OwnUsage(t, h, d) {
      SumAppend(s.res, x, ChargeIn(h, d));
      assert s.gens[h].usage.Get(d) == OwnUsage(s, h, d);
    }
    assert Accounts(t) by {
      AccountsSame(SourceCharge(Linked(s, g), g, charge), t);
    }
  }

  lemma AccountsSame(s: State, t: State)
    requires Accounts(s) && t.gens == s.gens && t.accounts == s.accounts
    ensures Accounts(t)
  {
  }

  lemma GrantKeepsAccounting(s: State, g: nat, bytes: nat)
    requires Accounting(s) && g < |s.gens| && s.gens[g].live && s.options.maxBatch > 0
    ensures Accounting(Grant(s, g, bytes))
  {
    hide Sum, PendingOf, Ledger;
    GrantShape(s, g, bytes);
    GrantKeepsLedger(s, g, bytes);
    var t := Grant(s, g, bytes);
    var x := t.res[|s.res|];
    hide Grant, EnvelopeNeed;
    forall r | 0 <= r < |t.res| ensures ReservationOk(t, t.res[r]) {
      if r < |s.res| {
        assert ReservationOk(s, s.res[r]) && t.res[r] == s.res[r];
      }
    }
    forall h | 0 <= h < |t.gens|
      ensures t.gens[h].pending == PendingOf(t.res, h) && t.gens[h].refs == |t.gens[h].pending|
    {
      PendingAppend(s.res, x, h);
      assert s.gens[h].pending == PendingOf(s.res, h);
    }
  }

  lemma GrantKeepsDuties(s: State, g: nat, bytes: nat)
    requires Work(s) && g < |s.gens| && s.options.maxBatch > 0
    ensures KeepsWork(s, Grant(s, g, bytes))
  {
    GrantShape(s, g, bytes);
    var t := Grant(s, g, bytes);
    assert forall r :: 0 <= r < |s.res| ==> t.res[r] == t.res[..|s.res|][r];
    assert forall h :: 0 <= h < |s.gens| ==> Unspent(t.gens[h]) == Unspent(s.gens[h]);
    hide Sum, Count, Grant, SourceCharge;
    CountAppend(s.res, t.res[|s.res|], AtStage(Queued));
    TokensKeep(s, t);
    OutboxKeeps(s, t);
  }

  lemma GrantKeeps(s: State, g: nat, bytes: nat)
    requires Books(s) && !s.closed && g < |s.gens| && s.gens[g].live && Shortage(s, g, bytes).None?
    ensures Keeps(s, Grant(s, g, bytes))
  {
    hide Work, Backed, Ledger, Reservations, Table, PendingLists, Lifecycle;
    GrantKeepsAccounting(s, g, bytes);
    GrantKeepsDuties(s, g, bytes);
    var t := Grant(s, g, bytes);
    forall d ensures t.used.Get(d) <= t.options.Limit().Get(d) {
      assert s.used.Get(d) <= s.options.Limit().Get(d);
    }
  }

  lemma ReserveKeeps(s: State, key: PaneKey, bytes: nat, requireAdmitted: bool, requireExisting: bool)
    requires Books(s) && !s.closed && (key in s.table ==> s.table[key] < |s.gens|)
    ensures Keeps(s, Reserve(s, key, bytes, requireAdmitted, requireExisting).0)
  {
    hide Accounting, Work, Backed, Limits, Grant;
    if Reserve(s, key, bytes, requireAdmitted, requireExisting).1.Ok? {
      if key !in s.table {
        CreateKeeps(s, key, false);
        GrantKeeps(Create(s, key, false), |s.gens|, bytes);
      } else {
        InvTable(s, key);
        GrantKeeps(s, s.table[key], bytes);
      }
    }
  }

  lemma InvTable(s: State, key: PaneKey)
    requires Books(s) && !s.closed && key in s.table
    ensures s.table[key] < |s.gens| && s.gens[s.table[key]].live && s.gens[s.table[key]].key == key
  {
  }

  lemma EnsureKeeps(s: State, key: PaneKey, admitted: bool)
    requires Books(s) && !s.closed && (key in s.table ==> s.table[key] < |s.gens|)
    ensures Keeps(s, EnsureGeneration(s, key, admitted))
  {
    hide Accounting, Work, Backed, Limits;
    if key in s.table {
      InvTable(s, key);
      FlagsKeep(s, s.table[key], s.gens[s.table[key]].(admitted := true));
    } else if RoomForGeneration(s) {
      CreateKeeps(s, key, admitted);
    }
  }

  // ---- Flags, then perhaps retirement ----------------------------------------------------------------

  lemma FlagsThenRetire(s: State, g: nat, x: Generation)
    requires Books(s) && !s.closed && g < |s.gens| && s.gens[g].live && FlagChange(s.gens[g], x)
    ensures Keeps(s, TryRetire(s.(gens := s.gens[g := x]), g))
  {
    hide Accounting, Work, Backed, Limits;
    FlagsKeep(s, g, x);
    TryRetireKeeps(s.(gens := s.gens[g := x]), g);
  }

  lemma SettleDurableKeeps(s: State, key: PaneKey)
    requires Books(s) && !s.closed && (key in s.table ==> s.table[key] < |s.gens|)
    ensures Keeps(s, SettleDurable(s, key))
  {
    hide Accounting, Work, Backed, Limits;
    if key in s.table && SettleDurable(s, key) != s {
      InvTable(s, key);
      var x := s.gens[s.table[key]].(durableRequested := false);
      FlagsKeep(s, s.table[key], x);
      FinishRetireKeeps(s.(gens := s.gens[s.table[key] := x]), s.table[key]);
    }
  }

  lemma AbortKeeps(s: State, oldKey: PaneKey, predecessor: nat, newKey: PaneKey, successor: nat, created: bool)
    requires Books(s) && !s.closed && forall k :: k in s.table ==> s.table[k] < |s.gens|
    ensures Keeps(s, AbortRotation(s, oldKey, predecessor, newKey, successor, created).0)
  {
    hide Accounting, Work, Backed, Limits;
    if AbortRotation(s, oldKey, predecessor, newKey, successor, created).0 != s {
      InvTable(s, newKey);
      FlagsThenRetire(s, successor, s.gens[successor].(abandoned := true, retireRequested := true));
    }
  }

  lemma RejectKeeps(s: State, r: nat)
    requires Books(s) && !s.closed && IsHeld(s, r)
    ensures Keeps(s, Reject(s, r))
  {
    hide Accounting, Work, Backed, Limits;
    var g := s.res[r].generation;
    var x := s.gens[g].(admitted := false, retireRequested := true);
    FlagsKeep(s, g, x);
    CancelKeeps(s.(gens := s.gens[g := x]), r);
  }

  // ---- Source accounts ---------------------------------------------------------------------------------

  lemma AttachKeeps(s: State, g: nat, source: SourceKey)
    requires Books(s) && !s.closed && g < |s.gens| && s.gens[g].live && s.gens[g].source.None?
    ensures Keeps(s, Attach(s, g, source, if source in s.accounts then s.accounts[source] else Zero))
  {
    AttachKeepsAccounting(s, g, source);
    hide Sum, Count, Ledger, Reservations, Table, PendingLists, Lifecycle;
    var t := Attach(s, g, source, if source in s.accounts then s.accounts[source] else Zero);
    StagesKeep(s, t);
    TokensKeep(s, t);
    OutboxKeeps(s, t);
  }

  lemma AttachKeepsAccounting(s: State, g: nat, source: SourceKey)
    requires Accounting(s) && g < |s.gens| && s.gens[g].live && s.gens[g].source.None?
    ensures Accounting(Attach(s, g, source, if source in s.accounts then s.accounts[source] else Zero))
  {
    hide Sum, PendingOf;
    var t := Attach(s, g, source, if source in s.accounts then s.accounts[source] else Zero);
    forall d ensures Sum(t.gens, Lifetime(d)) == Sum(s.gens, Lifetime(d)) {
      SumUpdate(s.gens, g, t.gens[g], Lifetime(d));
    }
    forall k, d | k in t.accounts ensures t.accounts[k].Get(d) == Sum(t.gens, Bound(k, d)) {
      SumUpdate(s.gens, g, t.gens[g], Bound(k, d));
      if k !in s.accounts {
        NotBound(s, k, d);
      }
      assert s.gens[g].usage.Get(Generations) == OwnUsage(s, g, Generations);
      NoGenerationCharge(s, g);
    }
    forall h, d | 0 <= h < |t.gens| ensures t.gens[h].usage.Get(d) == OwnUsage(t, h, d) {
      assert s.gens[h].usage.Get(d) == OwnUsage(s, h, d);
    }
    forall r | 0 <= r < |t.res| ensures ReservationOk(t, t.res[r]) {
      assert ReservationOk(s, s.res[r]);
    }
  }

  /** A source without an account has no bound generation. */
  lemma NotBound(s: State, k: SourceKey, d: Dimension)
    requires Accounts(s) && k !in s.accounts
    ensures Sum(s.gens, Bound(k, d)) == 0
  {
    forall x | x in s.gens ensures Bound(k, d)(x) == 0 {
      var i :| 0 <= i < |s.gens| && s.gens[i] == x;
      assert s.gens[i].source.Some? ==> s.gens[i].source.value in s.accounts;
    }
    SumZero(s.gens, Bound(k, d));
  }

  lemma NoGenerationCharge(s: State, g: nat)
    ensures Sum(s.res, ChargeIn(g, Generations)) == 0
  {
    SumZero(s.res, ChargeIn(g, Generations));
  }

  // ---- The queue -----------------------------------------------------------------------------------------

  /** A transition that only moves commands keeps the accounting and the limits. */
  ghost predicate OnlyQueue(s: State, t: State) {
    && t.gens == s.gens && t.table == s.table && t.used == s.used && t.accounts == s.accounts
    && t.options == s.options && t.outbox == s.outbox && !t.closed && |t.res| == |s.res|
    && forall r :: 0 <= r < |s.res| ==> t.res[r] == s.res[r].(stage := t.res[r].stage)
  }

  lemma QueueKeepsAccounting(s: State, t: State)
    requires Books(s) && !s.closed && OnlyQueue(s, t)
    requires forall r :: 0 <= r < |s.res| && t.res[r].stage != s.res[r].stage ==>
               (s.res[r].stage.Held? || s.res[r].stage.Queued?) && (t.res[r].stage.Queued? || t.res[r].stage.Processing?)
    ensures Accounting(t) && Limits(t) && OutboxOk(t)
  {
    hide Sum, PendingOf, Count;
    assert Accounting(s);
    forall d ensures Sum(t.res, Charge(d)) == Sum(s.res, Charge(d)) {
      SumSame(s.res, t.res, Charge(d));
    }
    forall h, d ensures Sum(t.res, ChargeIn(h, d)) == Sum(s.res, ChargeIn(h, d)) {
      SumSame(s.res, t.res, ChargeIn(h, d));
    }
    forall h, d | 0 <= h < |t.gens| ensures t.gens[h].usage.Get(d) == OwnUsage(t, h, d) {
      assert s.gens[h].usage.Get(d) == OwnUsage(s, h, d);
    }
    forall r | 0 <= r < |t.res| ensures ReservationOk(t, t.res[r]) {
      assert ReservationOk(s, s.res[r]);
    }
    forall h | 0 <= h < |t.gens| ensures PendingOf(t.res, h) == PendingOf(s.res, h) {
      PendingSame(s.res, t.res, h);
    }
    OutboxKeeps(s, t);
  }

  lemma {:induction false} PendingSame(a: seq<Reservation>, b: seq<Reservation>, g: nat)
    requires |a| == |b|
    requires forall r :: 0 <= r < |a| ==> b[r].generation == a[r].generation && b[r].released == a[r].released
    ensures PendingOf(a, g) == PendingOf(b, g)
  {
    if a != [] {
      PendingSame(a[..|a| - 1], b[..|b| - 1], g);
    }
  }

  /** What pushing `c` does to the counts of each kind. */
  lemma PushCounts(queue: seq<Command>, c: Command)
    ensures Count(queue + [c], Ordinaries()) == Count(queue, Ordinaries()) + if c.Ordinary? then 1 else 0
    ensures Count(queue + [c], Cleanups()) == Count(queue, Cleanups()) + if c.Cleanup? then 1 else 0
    ensures Count(queue + [c], Closes()) == Count(queue, Closes()) + if c.CloseMarker? then 1 else 0
  {
    CountAppend(queue, c, Ordinaries());
    CountAppend(queue, c, Cleanups());
    CountAppend(queue, c, Closes());
  }

  lemma PushControls(queue: seq<Command>, c: Command)
    requires NoAdjacentControls(queue)
    requires c.Control? ==> queue == [] || !queue[|queue| - 1].Control?
    ensures NoAdjacentControls(queue + [c])
  {
  }

  /** Pushing a command that is no cleanup, or the cleanup that was owed, keeps the cleanup duty. */
  lemma PushCleanups(s: State, t: State, c: Command)
    requires t.queue == s.queue + [c] && t.gens == s.gens && t.table == s.table
    requires t.current == s.current || (t.current.None? && s.current == Some(CloseMarker))
    requires if c.Cleanup? then c.key in s.owed && t.owed == s.owed - multiset{c.key} else t.owed == s.owed
    ensures Backed(s) ==> Backed(t)
  {
    hide Count;
    if Backed(s) {
      PushCounts(s.queue, c);
      assert forall k :: Token(s, k) <==> Token(t, k);
      PushKeepsQueued(s, t, c);
      hide CleanupsQueued;
    }
  }

  lemma PushKeepsQueued(s: State, t: State, c: Command)
    requires CleanupsQueued(s) && CleanupsOwed(s) && t.queue == s.queue + [c] && t.gens == s.gens && t.table == s.table
    requires t.current == s.current || (t.current.None? && s.current == Some(CloseMarker))
    requires if c.Cleanup? then c.key in s.owed && t.owed == s.owed - multiset{c.key} else t.owed == s.owed
    ensures CleanupsQueued(t)
  {
    assert forall k :: Token(s, k) <==> Token(t, k);
    assert c.Cleanup? ==> Token(s, c.key) && s.owed[c.key] == 1;
  }

  /** Pushing anything but an ordinary command keeps the ordinary-command duty. */
  lemma PushOthers(s: State, t: State, c: Command)
    requires OrdinaryOk(s) && t.queue == s.queue + [c] && t.res == s.res && !c.Ordinary?
    requires t.current == s.current || (t.current.None? && s.current == Some(CloseMarker))
    ensures OrdinaryOk(t)
  {
    hide Count;
    PushCounts(s.queue, c);
  }

  lemma SubmitKeeps(s: State, r: nat)
    requires Books(s) && !s.closed && IsHeld(s, r)
    ensures Keeps(s, SubmitOrdinary(s, r))
  {
    if s.closing {
      CancelKeeps(s, r);
    } else {
      var t := SubmitOrdinary(s, r);
      QueueKeepsAccounting(s, t);
      SubmitKeepsOrdinary(s, r);
      hide Count, Accounting, OrdinaryOk, CleanupOk, NoAdjacentControls;
      PushCounts(s.queue, Ordinary(r));
      PushControls(s.queue, Ordinary(r));
      PushCleanups(s, t, Ordinary(r));
    }
  }

  lemma SubmitKeepsOrdinary(s: State, r: nat)
    requires OrdinaryOk(s) && !s.closing && !s.closed && IsHeld(s, r)
    ensures OrdinaryOk(SubmitOrdinary(s, r))
  {
    hide Count;
    var t := SubmitOrdinary(s, r);
    PushCounts(s.queue, Ordinary(r));
    CountUpdate(s.res, r, t.res[r], AtStage(Queued));
  }

  lemma PushKeeps(s: State, t: State, c: Command)
    requires Books(s) && !s.closed && OnlyQueue(s, t) && t.res == s.res && t.queue == s.queue + [c]
    requires c.Control? ==> s.queue == [] || !s.queue[|s.queue| - 1].Control?
    requires if c.Cleanup? then c.key in s.owed && t.owed == s.owed - multiset{c.key} else t.owed == s.owed
    requires if c.CloseMarker? then t.closing && (if s.current == Some(CloseMarker) then t.current == None && s.closing
                                                   else t.current == s.current && !s.closing)
             else t.current == s.current && t.closing == s.closing
    requires !c.Ordinary?
    ensures Keeps(s, t)
  {
    QueueKeepsAccounting(s, t);
    hide Count, Accounting, OrdinaryOk, CleanupOk, NoAdjacentControls;
    PushCounts(s.queue, c);
    PushControls(s.queue, c);
    PushCleanups(s, t, c);
    PushOthers(s, t, c);
  }

  /** Joining the control run at the back changes only what that run carries. */
  lemma MergeKeeps(s: State, t: State, c: Command)
    requires Books(s) && !s.closed && OnlyQueue(s, t) && t.res == s.res && c.Control?
    requires s.queue != [] && s.queue[|s.queue| - 1].Control? && t.queue == s.queue[|s.queue| - 1 := c]
    requires t.owed == s.owed && t.current == s.current && t.closing == s.closing
    ensures Keeps(s, t)
  {
    hide Count, Accounting, OrdinaryOk, CleanupOk, NoAdjacentControls;
    QueueKeepsAccounting(s, t);
    MergeKeepsDuties(s, t, c);
    CountUpdate(s.queue, |s.queue| - 1, c, Closes());
  }

  lemma MergeKeepsDuties(s: State, t: State, c: Command)
    requires OrdinaryOk(s) && NoAdjacentControls(s.queue) && c.Control?
    requires s.queue != [] && s.queue[|s.queue| - 1].Control? && t.queue == s.queue[|s.queue| - 1 := c]
    requires t.owed == s.owed && t.current == s.current && t.res == s.res && t.gens == s.gens && t.table == s.table
    ensures OrdinaryOk(t) && NoAdjacentControls(t.queue) && (Backed(s) ==> Backed(t))
  {
    hide Count;
    CountUpdate(s.queue, |s.queue| - 1, c, Ordinaries());
    CountUpdate(s.queue, |s.queue| - 1, c, Cleanups());
    assert forall k :: Token(s, k) <==> Token(t, k);
  }

  lemma PopCounts(queue: seq<Command>)
    requires queue != []
    ensures Count(queue[1..], Ordinaries()) == Count(queue, Ordinaries()) - if queue[0].Ordinary? then 1 else 0
    ensures Count(queue[1..], Cleanups()) == Count(queue, Cleanups()) - if queue[0].Cleanup? then 1 else 0
    ensures Count(queue[1..], Closes()) == Count(queue, Closes()) - if queue[0].CloseMarker? then 1 else 0
  {
    CountFront(queue, Ordinaries());
    CountFront(queue, Cleanups());
    CountFront(queue, Closes());
  }

  lemma PopControls(queue: seq<Command>)
    requires NoAdjacentControls(queue) && queue != []
    ensures NoAdjacentControls(queue[1..])
  {
    assert forall i :: 0 <= i < |queue[1..]| ==> queue[1..][i] == queue[i + 1];
  }

  lemma PopKeepsOrdinary(s: State)
    requires OrdinaryOk(s) && s.current.None? && s.queue != []
    ensures s.queue[0].Ordinary? ==> s.queue[0].reservation < |s.res|
    ensures OrdinaryOk(PopCommand(s))
  {
    hide Count;
    var t := PopCommand(s);
    PopCounts(s.queue);
    if s.queue[0].Ordinary? {
      CountUpdate(s.res, s.queue[0].reservation, t.res[s.queue[0].reservation], AtStage(Queued));
    }
  }

  lemma PopKeepsCleanups(s: State)
    requires s.current.None? && s.queue != []
    requires s.queue[0].Ordinary? ==> s.queue[0].reservation < |s.res|
    ensures Backed(s) ==> Backed(PopCommand(s))
  {
    hide Count;
    if Backed(s) {
      PopCounts(s.queue);
      PopKeepsQueued(s);
      hide CleanupsQueued;
      assert forall k :: Token(s, k) <==> Token(PopCommand(s), k);
    }
  }

  lemma PopKeepsQueued(s: State)
    requires CleanupsQueued(s) && s.current.None? && s.queue != []
    requires s.queue[0].Ordinary? ==> s.queue[0].reservation < |s.res|
    ensures CleanupsQueued(PopCommand(s))
    ensures s.queue[0].Cleanup? ==> Token(s, s.queue[0].key) && s.queue[0].key !in s.owed
  {
    var t := PopCommand(s);
    assert forall k :: Token(s, k) <==> Token(t, k);
    assert forall i :: 0 <= i < |t.queue| ==> t.queue[i] == s.queue[i + 1];
  }

  lemma PopKeeps(s: State)
    requires Books(s) && !s.closed && s.current.None? && s.queue != []
    ensures s.queue[0].Ordinary? ==> s.queue[0].reservation < |s.res|
    ensures Keeps(s, PopCommand(s))
  {
    hide Count, Accounting, CleanupOk, OutboxOk;
    PopKeepsOrdinary(s);
    PopKeepsCleanups(s);
    PopCounts(s.queue);
    PopControls(s.queue);
    assert s.queue[0].Ordinary? ==> s.res[s.queue[0].reservation].stage == Queued;
    hide OrdinaryOk, NoAdjacentControls;
    QueueKeepsAccounting(s, PopCommand(s));
  }

  /** Putting down a control run or a close marker whose queue has drained. */
  lemma DropCurrentKeeps(s: State)
    requires Books(s) && !s.closed && s.current.Some? && s.current.value.Control?
    ensures Keeps(s, s.(current := None))
  {
    hide Count, Accounting, OutboxOk;
    var t := s.(current := None);
    QueueKeepsAccounting(s, t);
    TokensDropOrdinary(s, t);
    hide CleanupOk;
  }

  lemma PublishKeepsOutbox(s: State, r: nat, payload: bool)
    requires OutboxOk(s) && IsStarted(s, r) && (payload ==> Sent(s, r) < s.res[r].parts)
    ensures OutboxOk(s.(outbox := s.outbox + [Part(r, payload)]))
  {
    hide Count;
    var t := s.(outbox := s.outbox + [Part(r, payload)]);
    assert t.outbox[..|s.outbox|] == s.outbox;
    assert forall j :: 0 <= j < |s.outbox| ==> t.outbox[..j] == s.outbox[..j];
  }

  lemma PublishKeeps(s: State, r: nat, payload: bool)
    requires Books(s) && !s.closed && IsStarted(s, r) && (payload ==> Sent(s, r) < s.res[r].parts)
    ensures Keeps(s, s.(outbox := s.outbox + [Part(r, payload)]))
  {
    hide Count, Accounting, OutboxOk, NoAdjacentControls, CleanupOk, OrdinaryOk;
    var t := s.(outbox := s.outbox + [Part(r, payload)]);
    SameTables(s, t);
    PublishKeepsOutbox(s, r, payload);
    StagesKeep(s, t);
    TokensKeep(s, t);
  }

  lemma DeclareKeepsOutbox(s: State, r: nat, parts: nat)
    requires OutboxOk(s) && r < |s.res| && Sent(s, r) == 0
    ensures OutboxOk(s.(res := s.res[r := s.res[r].(parts := parts)]))
  {
    hide Count;
    var t := s.(res := s.res[r := s.res[r].(parts := parts)]);
    forall j | 0 <= j < |t.outbox|
      ensures var i := t.outbox[j].reservation;
              && i < |t.res| && t.res[i].stage.Started()
              && (t.outbox[j].payload ==> t.res[i].settled + Count(t.outbox[..j], PartOf(i)) < t.res[i].parts)
    {
      if s.outbox[j].reservation == r {
        CountHas(s.outbox, j, PartOf(r));
      }
    }
  }

  lemma DeclareKeeps(s: State, r: nat, parts: nat)
    requires Books(s) && !s.closed && IsUncut(s, r) && Sent(s, r) == 0 && parts >= 1
    ensures Keeps(s, s.(res := s.res[r := s.res[r].(parts := parts)]))
  {
    var t := s.(res := s.res[r := s.res[r].(parts := parts)]);
    hide Ledger, Table, PendingLists, Lifecycle, OrdinaryOk, CleanupOk, OutboxOk, NoAdjacentControls, Count;
    ReservationHolds(s, r);
    hide Reservations;
    DeclareIsSettle(s, r, parts);
    SettleKeepsAccounting(s, r, t.res[r]);
    StagesKeep(s, t);
    TokensKeep(s, t);
    DeclareKeepsOutbox(s, r, parts);
  }

  lemma DeclareIsSettle(s: State, r: nat, parts: nat)
    requires r < |s.res| && s.res[r].generation < |s.gens|
    ensures s.(res := s.res[r := s.res[r].(parts := parts)]) == Settle(s, r, s.res[r].(parts := parts))
  {
    var x := s.res[r].(parts := parts);
    var gen := s.gens[x.generation];
    var delta := ChargeOf(x).Minus(ChargeOf(s.res[r]));
    hide ChargeOf;
    assert gen.usage.Plus(delta) == gen.usage && s.used.Plus(delta) == s.used;
    assert s.gens[x.generation := gen] == s.gens;
    if gen.source.Some? && gen.source.value in s.accounts {
      assert s.accounts[gen.source.value].Plus(delta) == s.accounts[gen.source.value];
      assert s.accounts[gen.source.value := s.accounts[gen.source.value]] == s.accounts;
    }
  }

  // ---- Faults --------------------------------------------------------------------------------------------

  lemma FaultKeeps(s: State, key: PaneKey)
    requires Books(s) && !s.closed && key in s.table && s.table[key] < |s.gens|
    ensures Keeps(s, CommitFault(s, key).0)
  {
    InvTable(s, key);
    SoleEntry(s, key);
    hide Accounting, OrdinaryOk, OutboxOk, Sum, PendingOf, Count, Backed;
    var g := s.table[key];
    var t := CommitFault(s, key).0;
    if t != s {
      FaultKeepsAccounting(s, g);
      FaultKeepsCleanups(s, key);
      StagesKeep(s, t);
      OutboxKeeps(s, t);
    }
  }

  lemma SoleEntry(s: State, key: PaneKey)
    requires Accounting(s) && key in s.table && s.table[key] < |s.gens|
    ensures forall k :: k in s.table && s.table[k] == s.table[key] ==> k == key
  {
  }

  lemma FaultKeepsCleanups(s: State, key: PaneKey)
    requires key in s.table && s.table[key] < |s.gens|
    requires !s.gens[s.table[key]].failed && s.gens[s.table[key]].live
    requires forall k :: k in s.table && s.table[k] == s.table[key] ==> k == key
    ensures Backed(s) ==> Backed(CommitFault(s, key).0)
  {
    hide Count;
    if Backed(s) {
      var g := s.table[key];
      var t := CommitFault(s, key).0;
      CountUpdate(s.gens, g, t.gens[g], UnspentOnes());
      assert !Token(s, key) && Token(t, key);
      assert forall k :: Token(s, k) ==> Token(t, k);
      assert forall k :: k in t.owed ==> k == key || k in s.owed;
    }
  }

  lemma FaultKeepsAccounting(s: State, g: nat)
    requires Accounting(s) && g < |s.gens| && s.gens[g].live && !s.gens[g].failed
    ensures Accounting(s.(gens := s.gens[g := s.gens[g].(failed := true, cleanupQueued := true)],
                          owed := s.owed + multiset{s.gens[g].key}))
  {
    hide Sum, PendingOf;
    var x := s.gens[g].(failed := true, cleanupQueued := true);
    var t := s.(gens := s.gens[g := x], owed := s.owed + multiset{s.gens[g].key});
    RelinkSums(s.gens, g, x);
    forall r | 0 <= r < |t.res| ensures ReservationOk(t, t.res[r]) {
      assert ReservationOk(s, s.res[r]);
    }
    forall h, d | 0 <= h < |t.gens| ensures t.gens[h].usage.Get(d) == OwnUsage(t, h, d) {
      assert s.gens[h].usage.Get(d) == OwnUsage(s, h, d);
    }
  }

  /** Spending the cleanup in hand discharges its generation's duty and lets it retire. A cleanup whose generation
      is gone spends nothing; one whose key was taken again makes a stranger retire. */
  lemma SpendKeeps(s: State)
    requires Books(s) && !s.closed && s.current.Some? && s.current.value.Cleanup?
    requires forall k :: k in s.table ==> s.table[k] < |s.gens|
    ensures Keeps(s, SpendFaultCleanup(s, s.current.value.key))
  {
    var key := s.current.value.key;
    if key in s.table {
      InvTable(s, key);
      var g := s.table[key];
      var x := s.gens[g].(cleanupSpent := true, retireRequested := true);
      var t := s.(current := None, gens := s.gens[g := x]);
      SpentKeepsAccounting(s, g);
      SpentKeepsDuties(s, g);
      hide Accounting, Work, Backed;
      TryRetireKeeps(t, g);
    } else {
      MissingSpends(s, key);
    }
  }

  lemma MissingSpends(s: State, key: PaneKey)
    requires Books(s) && !s.closed && s.current == Some(Cleanup(key)) && key !in s.table
    ensures Keeps(s, s.(current := None))
  {
    hide Sum, PendingOf, Count;
    var t := s.(current := None);
    SameTables(s, t);
    OutboxKeeps(s, t);
    assert Backed(s) ==> Token(s, key);
  }

  lemma SpentKeepsAccounting(s: State, g: nat)
    requires Accounting(s) && g < |s.gens|
    ensures Accounting(s.(current := None, gens := s.gens[g := s.gens[g].(cleanupSpent := true, retireRequested := true)]))
  {
    hide Sum, PendingOf;
    var x := s.gens[g].(cleanupSpent := true, retireRequested := true);
    var t := s.(current := None, gens := s.gens[g := x]);
    RelinkSums(s.gens, g, x);
    forall r | 0 <= r < |t.res| ensures ReservationOk(t, t.res[r]) {
      assert ReservationOk(s, s.res[r]);
    }
    forall h, d | 0 <= h < |t.gens| ensures t.gens[h].usage.Get(d) == OwnUsage(t, h, d) {
      assert s.gens[h].usage.Get(d) == OwnUsage(s, h, d);
    }
  }

  lemma SpentKeepsDuties(s: State, g: nat)
    requires Table(s) && Work(s) && g < |s.gens|
    requires s.current == Some(Cleanup(s.gens[g].key)) && s.gens[g].key in s.table && s.table[s.gens[g].key] == g
    ensures KeepsWork(s, s.(current := None, gens := s.gens[g := s.gens[g].(cleanupSpent := true, retireRequested := true)]))
  {
    hide Count;
    var x := s.gens[g].(cleanupSpent := true, retireRequested := true);
    var t := s.(current := None, gens := s.gens[g := x]);
    OutboxKeeps(s, t);
    if Backed(s) {
      CountUpdate(s.gens, g, x, UnspentOnes());
      assert Token(s, s.gens[g].key);
      assert forall k :: Token(s, k) && k != s.gens[g].key ==> Token(t, k);
    }
  }

  // ---- Every step, every run -----------------------------------------------------------------------------

  lemma FlagStepKeeps(s: State, op: Op)
    requires Books(s) && WellFormed(s) && Enabled(s, op)
    requires op.RequestRetire? || op.MarkDurable? || op.MarkAdmitted? || op.RestoreUnadmitted?
    ensures Keeps(s, Apply(s, op))
  {
    hide Accounting, Work, Backed, Limits;
    if op.key in s.table {
      InvTable(s, op.key);
      var g := s.table[op.key];
      var gen := s.gens[g];
      match op {
        case RequestRetire(_) => FlagsThenRetire(s, g, gen.(retireRequested := true, admitted := false));
        case MarkDurable(_) => FlagsKeep(s, g, gen.(durableRequested := true));
        case MarkAdmitted(_) => FlagsKeep(s, g, gen.(admitted := true));
        case RestoreUnadmitted(_) => FlagsThenRetire(s, g, gen.(admitted := false));
      }
    }
  }

  /** A rollback keeps the books whatever it removes, and the funding exactly when it strands no cleanup. */
  lemma ReleaseKeeps(s: State, key: PaneKey)
    requires Books(s) && !s.closed && (key in s.table ==> s.table[key] < |s.gens|)
    ensures Books(ReleaseGeneration(s, key))
    ensures Funded(s) ==> (Funded(ReleaseGeneration(s, key)) <==> !Strands(s, ReleaseUnadmitted(key)))
  {
    hide Accounting, Work, Limits, Backed;
    var t := ReleaseGeneration(s, key);
    if key in s.table && !s.gens[s.table[key]].admitted && s.gens[s.table[key]].refs == 0 {
      InvTable(s, key);
      var g := s.table[key];
      FinishRetireKeeps(s, g);
      var f := FinishRetire(s, g);
      FlagsKeep(f, g, f.gens[g].(lifetimeReleased := s.gens[g].lifetimeReleased));
      if Strands(s, ReleaseUnadmitted(key)) {
        Unspendable(t, g);
      }
    }
  }

  lemma Unspendable(t: State, g: nat)
    requires !t.closed && g < |t.gens| && t.gens[g].failed && !t.gens[g].live && !t.gens[g].cleanupSpent
    ensures !Funded(t)
  {
  }

  lemma PushRejectedKeeps(s: State, bytes: nat)
    requires Books(s) && !s.closed
    ensures Keeps(s, QueueRejected(s, bytes))
  {
    hide Accounting, Work, Backed, Limits;
    var t := s.(queue := PushRejected(s.queue, bytes));
    if s.queue != [] && s.queue[|s.queue| - 1].Control? {
      MergeKeeps(s, t, t.queue[|s.queue| - 1]);
    } else {
      PushKeeps(s, t, Control(bytes, false));
    }
  }

  lemma PushFenceKeeps(s: State)
    requires Books(s) && !s.closed
    ensures Keeps(s, QueueFence(s))
  {
    hide Accounting, Work, Backed, Limits;
    var t := s.(queue := PushFence(s.queue));
    if s.queue != [] && s.queue[|s.queue| - 1].Control? {
      MergeKeeps(s, t, t.queue[|s.queue| - 1]);
    } else {
      PushKeeps(s, t, Control(0, true));
    }
  }

  lemma InvClosing(s: State)
    requires CloseOk(s)
    ensures s.current == Some(CloseMarker) ==> s.closing
  {
  }

  lemma CloseKeeps(s: State)
    requires Books(s) && !s.closed
    ensures Keeps(s, StartClose(s))
  {
    InvClosing(s);
    hide Accounting, Work, Backed, Limits;
    if !s.closing {
      PushKeeps(s, s.(closing := true, queue := s.queue + [CloseMarker]), CloseMarker);
    }
  }

  lemma FinishCloseKeeps(s: State)
    requires Books(s) && !s.closed && s.current == Some(CloseMarker)
    ensures Keeps(s, EndClose(s))
  {
    InvClosing(s);
    hide Accounting, Work, Backed, Limits;
    if s.queue != [] {
      PushKeeps(s, s.(current := None, queue := s.queue + [CloseMarker]), CloseMarker);
    }
  }

  lemma FinishStepKeeps(s: State)
    requires Books(s) && WellFormed(s) && Enabled(s, Finish)
    ensures Keeps(s, Apply(s, Finish))
  {
    hide Accounting, Work, Backed, Limits;
    if s.current.value.Ordinary? {
      FinishKeeps(s, s.current.value.reservation);
    } else {
      DropCurrentKeeps(s);
    }
  }

  lemma BindKeeps(s: State, key: PaneKey, expected: nat, source: SourceKey)
    requires Books(s) && !s.closed && (key in s.table ==> s.table[key] < |s.gens|)
    ensures Keeps(s, Bind(s, key, expected, source))
  {
    hide Accounting, Work, Backed, Limits, Attach;
    if key in s.table {
      InvTable(s, key);
      if s.gens[s.table[key]].source.None? {
        AttachKeeps(s, s.table[key], source);
      }
    }
  }

  lemma InheritKeeps(s: State, oldKey: PaneKey, newKey: PaneKey)
    requires Books(s) && !s.closed && forall k :: k in s.table ==> s.table[k] < |s.gens|
    ensures Keeps(s, Inherit(s, oldKey, newKey))
  {
    hide Accounting, Work, Backed, Limits, Attach;
    if oldKey in s.table && newKey in s.table {
      InvTable(s, newKey);
      var source := s.gens[s.table[oldKey]].source;
      if source.Some? && source.value in s.accounts && s.gens[s.table[newKey]].source.None? {
        AttachKeeps(s, s.table[newKey], source.value);
      }
    }
  }

  /** Each transition of the runtime keeps the books, and the funding exactly when it strands no cleanup. */
  lemma StepKeepsBooks(s: State, op: Op)
    requires Books(s) && WellFormed(s) && Enabled(s, op)
    ensures Books(Apply(s, op))
    ensures Funded(s) ==> (Funded(Apply(s, op)) <==> !Strands(s, op))
  {
    hide Accounting, Work, Backed, Limits, EnsureGeneration, ReleaseGeneration, Reserve, Cancel, SubmitOrdinary, PopCommand;
    hide ReleaseCommand, DispatchPart, CommitFault, SpendFaultCleanup, AskRetire, SettleDurable, AbortRotation, Admit;
    hide Unadmit, Reject, Bind, Inherit, QueueRejected, QueueFence, StartClose, EndClose;
    match op {
      case Ensure(key, admitted) => EnsureKeeps(s, key, admitted);
      case ReleaseUnadmitted(key) => ReleaseKeeps(s, key);
      case Take(key, bytes, admitted, existing) => ReserveKeeps(s, key, bytes, admitted, existing);
      case GiveBack(r) => CancelKeeps(s, r);
      case Submit(r) => SubmitKeeps(s, r);
      case DeclareParts(r, parts) => DeclareKeeps(s, r, parts);
      case RejectOutput(bytes) => PushRejectedKeeps(s, bytes);
      case Fence => PushFenceKeeps(s);
      case Close => CloseKeeps(s);
      case Pop => PopKeeps(s);
      case Publish(r, payload) => PublishKeeps(s, r, payload);
      case Finish => FinishStepKeeps(s);
      case FinishClose => FinishCloseKeeps(s);
      case Dispatch => DispatchKeeps(s);
      case Fault(key) => FaultFindsGeneration(s, key); FaultKeeps(s, key);
      case CheckedFault(key, _) => if key in s.table { FaultKeeps(s, key); }
      case AppendCleanup(key) => PushKeeps(s, Apply(s, op), Cleanup(key));
      case SpendCleanup => SpendKeeps(s);
      case RequestRetire(key) => FlagStepKeeps(s, op);
      case MarkDurable(key) => FlagStepKeeps(s, op);
      case DurableSettled(key) => SettleDurableKeeps(s, key);
      case SettleAbort(oldKey, p, newKey, n, created) => AbortKeeps(s, oldKey, p, newKey, n, created);
      case MarkAdmitted(key) => FlagStepKeeps(s, op);
      case RestoreUnadmitted(key) => FlagStepKeeps(s, op);
      case RejectReservation(r) => RejectKeeps(s, r);
      case BindSource(key, expected, source) => BindKeeps(s, key, expected, source);
      case InheritSource(oldKey, newKey) => InheritKeeps(s, oldKey, newKey);
    }
  }
}
