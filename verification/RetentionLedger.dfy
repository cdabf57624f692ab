/** Conservation of the runtime's ledger: what every locked transition keeps of the five counters, the
    generations' own usage, the source accounts and the pending lists. */
module RetentionLedger {
  import opened Basics
  import opened Credits
  import opened Retention

  /** Each counter is the sum of what live generations and unreleased reservations hold; a generation's own
      usage is its two commands and its reservations. */
  ghost predicate Ledger(s: State) {
    && (forall d :: s.used.Get(d) == Sum(s.gens, Lifetime(d)) + Sum(s.res, Charge(d)))
    && (forall g, d :: 0 <= g < |s.gens| ==> s.gens[g].usage.Get(d) == OwnUsage(s, g, d))
    && Accounts(s)
  }

  ghost function OwnUsage(s: State, g: nat, d: Dimension): int
    requires g < |s.gens|
  {
    (if s.gens[g].live then OwnShare(d) else 0) + Sum(s.res, ChargeIn(g, d))
  }

  /** Each source account is the sum of its bound generations, which it counts. */
  ghost predicate Accounts(s: State) {
    && (forall k, d :: k in s.accounts ==> s.accounts[k].Get(d) == Sum(s.gens, Bound(k, d)))
    && (forall g :: 0 <= g < |s.gens| && s.gens[g].source.Some? ==>
          s.gens[g].live && s.gens[g].source.value in s.accounts)
  }

  /** One reservation: what it was granted is what it holds plus what was refunded, its command credit is
      one until the command is released, and its generation is live as long as it holds anything. */
  ghost predicate ReservationOk(s: State, r: Reservation) {
    && r.generation < |s.gens|
    && 0 <= r.q <= 1 && r.e >= 0 && r.b >= 0 && r.o >= 0
    && (forall d :: r.granted.Get(d) == ChargeOf(r).Get(d) + r.refunded.Get(d))
    && (r.stage.Pending() ==> r.q == 1 && !r.released)
    && (r.stage == Done ==> r.q == 0)
    && (r.stage == Cancelled ==> r.released)
    && (!r.released ==> s.gens[r.generation].live && r.doneParts == r.settled)
    && (r.released && r.stage == Done ==> r.settled >= r.parts)
  }

  ghost predicate Reservations(s: State) {
    forall r :: 0 <= r < |s.res| ==> ReservationOk(s, s.res[r])
  }

  /** The table holds exactly the live generations, each under its own key. */
  ghost predicate Table(s: State) {
    && (forall k :: k in s.table ==> s.table[k] < |s.gens| && s.gens[s.table[k]].live && s.gens[s.table[k]].key == k)
    && (forall g :: 0 <= g < |s.gens| && s.gens[g].live ==> s.gens[g].key in s.table && s.table[s.gens[g].key] == g)
  }

  /** The reference count is the length of the pending list, which is the unreleased reservations in order. */
  ghost predicate PendingLists(s: State) {
    forall g :: 0 <= g < |s.gens| ==>
      s.gens[g].pending == PendingOf(s.res, g) && s.gens[g].refs == |s.gens[g].pending|
  }

  ghost predicate Lifecycle(s: State) {
    forall g :: 0 <= g < |s.gens| ==>
      && (s.gens[g].lifetimeReleased ==> !s.gens[g].live)
      && (s.gens[g].failed ==> s.gens[g].cleanupQueued)
  }

  ghost predicate Accounting(s: State) {
    Ledger(s) && Reservations(s) && Table(s) && PendingLists(s) && Lifecycle(s)
  }

  lemma ReservationHolds(s: State, r: nat)
    requires Reservations(s) && r < |s.res|
    ensures ReservationOk(s, s.res[r])
  {
  }

  // ---- Pending lists -------------------------------------------------------------------------------

  lemma PendingRange(res: seq<Reservation>, g: nat)
    ensures forall v :: v in PendingOf(res, g) ==> v < |res| && res[v].generation == g && !res[v].released
  {
  }

  lemma PendingHas(res: seq<Reservation>, g: nat, r: nat)
    requires r < |res| && res[r].generation == g && !res[r].released
    ensures r in PendingOf(res, g)
  {
    if r < |res| - 1 {
      PendingHas(res[..|res| - 1], g, r);
    }
  }

  lemma RemoveAbsent(s: seq<nat>, v: nat)
    requires v !in s
    ensures Remove(s, v) == s
  {
  }

  lemma RemoveAppend(s: seq<nat>, x: nat, v: nat)
    ensures Remove(s + [x], v) == Remove(s, v) + if x == v then [] else [x]
  {
    assert (s + [x])[..|s|] == s;
  }

  lemma RemoveTail(s: seq<nat>, tail: seq<nat>, v: nat)
    requires |tail| <= 1 && v !in tail
    ensures Remove(s + tail, v) == Remove(s, v) + tail
  {
    if tail != [] {
      RemoveAppend(s, tail[0], v);
    } else {
      assert s + tail == s;
    }
  }

  /** Releasing `r` unlinks exactly `r`, and only from its own generation's list. */
  lemma {:induction false} PendingReleased(res: seq<Reservation>, r: nat, x: Reservation, g: nat)
    requires r < |res| && !res[r].released && x.released && x.generation == res[r].generation
    ensures g == x.generation ==>
              && PendingOf(res[r := x], g) == Remove(PendingOf(res, g), r)
              && |PendingOf(res[r := x], g)| == |PendingOf(res, g)| - 1
    ensures g != x.generation ==> PendingOf(res[r := x], g) == PendingOf(res, g)
  {
    var last := |res| - 1;
    var init := res[..last];
    if r < last {
      assert res[r := x][..last] == init[r := x];
      PendingReleased(init, r, x, g);
      var tail := if res[last].generation == g && !res[last].released then [last] else [];
      assert PendingOf(res, g) == PendingOf(init, g) + tail;
      assert PendingOf(res[r := x], g) == PendingOf(init[r := x], g) + tail;
      RemoveTail(PendingOf(init, g), tail, r);
    } else {
      assert res[r := x][..last] == init;
      PendingRange(init, g);
      RemoveAbsent(PendingOf(init, g), r);
      if g == x.generation {
        RemoveAppend(PendingOf(init, g), r, r);
      }
    }
  }

  lemma {:induction false} PendingKept(res: seq<Reservation>, r: nat, x: Reservation, g: nat)
    requires r < |res| && x.released == res[r].released && x.generation == res[r].generation
    ensures PendingOf(res[r := x], g) == PendingOf(res, g)
  {
    var last := |res| - 1;
    if r < last {
      assert res[r := x][..last] == res[..last][r := x];
      PendingKept(res[..last], r, x, g);
    } else {
      assert res[r := x][..last] == res[..last];
    }
  }

  lemma PendingAppend(res: seq<Reservation>, x: Reservation, g: nat)
    ensures PendingOf(res + [x], g) == PendingOf(res, g) + if x.generation == g && !x.released then [|res|] else []
  {
    assert (res + [x])[..|res|] == res;
  }

  /** With no pending reservation a generation's usage is exactly its two lifetime commands. */
  lemma NothingPendingNothingHeld(res: seq<Reservation>, g: nat)
    requires PendingOf(res, g) == []
    ensures forall d :: Sum(res, ChargeIn(g, d)) == 0
  {
    forall d ensures Sum(res, ChargeIn(g, d)) == 0 {
      forall x | x in res ensures ChargeIn(g, d)(x) == 0 {
        var i :| 0 <= i < |res| && res[i] == x;
        if x.generation == g && !x.released {
          PendingHas(res, g, i);
        }
      }
      SumZero(res, ChargeIn(g, d));
    }
  }

  // ---- Source accounts -----------------------------------------------------------------------------

  /** Moving one generation's usage and its account together keeps every account's equation. */
  lemma SourceChargeKeepsAccounts(s: State, g: nat, delta: Credit)
    requires g < |s.gens| && delta.generations == 0 && Accounts(s)
    ensures Accounts(SourceCharge(s, g, delta))
    ensures forall d :: Sum(SourceCharge(s, g, delta).gens, Lifetime(d)) == Sum(s.gens, Lifetime(d))
  {
    hide Sum;
    var t := SourceCharge(s, g, delta);
    forall d ensures Sum(t.gens, Lifetime(d)) == Sum(s.gens, Lifetime(d)) {
      SumUpdate(s.gens, g, t.gens[g], Lifetime(d));
    }
    forall k, d | k in t.accounts ensures t.accounts[k].Get(d) == Sum(t.gens, Bound(k, d)) {
      SumUpdate(s.gens, g, t.gens[g], Bound(k, d));
    }
  }

  /** Relinking a pending list changes no sum. */
  lemma RelinkSums(gens: seq<Generation>, g: nat, x: Generation)
    requires g < |gens| && x.live == gens[g].live && x.source == gens[g].source && x.usage == gens[g].usage
    ensures forall d :: Sum(gens[g := x], Lifetime(d)) == Sum(gens, Lifetime(d))
    ensures forall k, d :: Sum(gens[g := x], Bound(k, d)) == Sum(gens, Bound(k, d))
  {
    hide Sum;
    forall d ensures Sum(gens[g := x], Lifetime(d)) == Sum(gens, Lifetime(d)) {
      SumUpdate(gens, g, x, Lifetime(d));
    }
    forall k, d ensures Sum(gens[g := x], Bound(k, d)) == Sum(gens, Bound(k, d)) {
      SumUpdate(gens, g, x, Bound(k, d));
    }
  }

  // ---- Settling one reservation --------------------------------------------------------------------

  lemma SettleKeepsLedger(s: State, r: nat, x: Reservation)
    requires r < |s.res| && s.res[r].generation < |s.gens| && x.generation == s.res[r].generation
    requires Ledger(s)
    ensures Ledger(Settle(s, r, x))
  {
    hide Sum, PendingOf;
    var g := x.generation;
    var delta := ChargeOf(x).Minus(ChargeOf(s.res[r]));
    var gen := s.gens[g];
    var linked := if x.released && !s.res[r].released
                  then gen.(pending := Remove(gen.pending, r), refs := gen.refs - 1) else gen;
    var mid := s.(res := s.res[r := x], used := s.used.Plus(delta), gens := s.gens[g := linked]);
    var t := Settle(s, r, x);
    RelinkSums(s.gens, g, linked);
    assert Accounts(mid);
    SourceChargeKeepsAccounts(mid, g, delta);
    forall d ensures t.used.Get(d) == Sum(t.gens, Lifetime(d)) + Sum(t.res, Charge(d)) {
      SumUpdate(s.res, r, x, Charge(d));
    }
    forall h, d | 0 <= h < |t.gens| ensures t.gens[h].usage.Get(d) == OwnUsage(t, h, d) {
      SumUpdate(s.res, r, x, ChargeIn(h, d));
      assert s.gens[h].usage.Get(d) == OwnUsage(s, h, d);
    }
  }

  lemma SettleKeepsLists(s: State, r: nat, x: Reservation)
    requires r < |s.res| && s.res[r].generation < |s.gens| && x.generation == s.res[r].generation
    requires s.res[r].released ==> x.released
    requires PendingLists(s)
    ensures PendingLists(Settle(s, r, x))
  {
    var t := Settle(s, r, x);
    forall h | 0 <= h < |t.gens|
      ensures t.gens[h].pending == PendingOf(t.res, h) && t.gens[h].refs == |t.gens[h].pending|
    {
      assert s.gens[h].pending == PendingOf(s.res, h);
      if x.released && !s.res[r].released {
        PendingReleased(s.res, r, x, h);
      } else {
        PendingKept(s.res, r, x, h);
      }
    }
  }

  /** Settling a reservation moves counters and one pending list, nothing else of a generation. */
  lemma SettleShape(s: State, r: nat, x: Reservation)
    requires r < |s.res| && s.res[r].generation < |s.gens| && x.generation == s.res[r].generation
    ensures var t := Settle(s, r, x);
            && t.res == s.res[r := x] && t.table == s.table && |t.gens| == |s.gens|
            && forall g :: 0 <= g < |s.gens| ==>
                 t.gens[g] == s.gens[g].(pending := t.gens[g].pending, refs := t.gens[g].refs, usage := t.gens[g].usage)
  {
  }

  lemma SettleKeepsAccounting(s: State, r: nat, x: Reservation)
    requires r < |s.res| && Accounting(s)
    requires x.generation == s.res[r].generation && (s.res[r].released ==> x.released)
    requires ReservationOk(s, x)
    ensures Accounting(Settle(s, r, x))
  {
    hide Sum, PendingOf, Ledger, PendingLists;
    SettleKeepsLedger(s, r, x);
    SettleKeepsLists(s, r, x);
    SettleShape(s, r, x);
    hide Settle;
  }

  // ---- Retirement ----------------------------------------------------------------------------------

  lemma UsageNonnegative(s: State, g: nat, d: Dimension)
    requires Ledger(s) && Reservations(s) && g < |s.gens|
    ensures s.gens[g].usage.Get(d) >= 0
  {
    hide Sum;
    forall x | x in s.res ensures ChargeIn(g, d)(x) >= 0 {
    }
    SumNonnegative(s.res, ChargeIn(g, d));
    assert s.gens[g].usage.Get(d) == OwnUsage(s, g, d);
  }

  /** A source account counts its generations: while two are bound it counts at least two. */
  lemma LastBound(gens: seq<Generation>, g: nat, h: nat, k: SourceKey)
    requires g < |gens| && h < |gens| && g != h
    requires gens[g].source == Some(k) && gens[h].source == Some(k)
    ensures Sum(gens, Bound(k, Generations)) >= 2
  {
    hide Sum;
    var without := gens[g := gens[g].(source := None)];
    SumUpdate(gens, g, gens[g].(source := None), Bound(k, Generations));
    SumAtLeast(without, h, Bound(k, Generations));
  }

  /** The generation that leaves the table. */
  function Dead(gen: Generation): Generation {
    gen.(usage := gen.usage.Plus(LifetimeRefund), live := false, lifetimeReleased := true, source := None)
  }

  lemma RetireShape(s: State, g: nat)
    requires g < |s.gens| && s.gens[g].live && !s.gens[g].lifetimeReleased
    ensures var t := FinishRetire(s, g);
            t.res == s.res && t.used == s.used.Adjust(-2, -1) && t.gens == s.gens[g := Dead(s.gens[g])]
  {
  }

  /** A generation nothing is pending for uses exactly its two lifetime commands. */
  lemma QuiescentUsage(s: State, g: nat)
    requires Ledger(s) && g < |s.gens| && s.gens[g].live && PendingOf(s.res, g) == []
    ensures forall d :: s.gens[g].usage.Get(d) == OwnShare(d)
  {
    hide Sum, PendingOf;
    NothingPendingNothingHeld(s.res, g);
    forall d ensures s.gens[g].usage.Get(d) == OwnShare(d) {
      assert s.gens[g].usage.Get(d) == OwnUsage(s, g, d);
    }
  }

  lemma RetireKeepsAccounts(s: State, g: nat)
    requires Accounting(s) && g < |s.gens| && s.gens[g].live && s.gens[g].pending == []
    ensures Accounts(FinishRetire(s, g))
  {
    hide Sum, PendingOf;
    var t := FinishRetire(s, g);
    RetireShape(s, g);
    QuiescentUsage(s, g);
    forall k, d | k in t.accounts ensures t.accounts[k].Get(d) == Sum(t.gens, Bound(k, d)) {
      SumUpdate(s.gens, g, t.gens[g], Bound(k, d));
      assert s.gens[g].usage.Get(d) == OwnShare(d);
      assert s.accounts[k].Get(d) == Sum(s.gens, Bound(k, d));
    }
    forall h | 0 <= h < |t.gens| && t.gens[h].source.Some?
      ensures t.gens[h].live && t.gens[h].source.value in t.accounts
    {
      if s.gens[g].source == t.gens[h].source {
        var k := t.gens[h].source.value;
        LastBound(s.gens, g, h, k);
        assert s.accounts[k].Get(Generations) == Sum(s.gens, Bound(k, Generations));
      }
    }
  }

  lemma RetireKeepsCounters(s: State, t: State, g: nat, d: Dimension)
    requires g < |s.gens| && s.gens[g].live && t.res == s.res && t.used == s.used.Adjust(-2, -1)
    requires t.gens == s.gens[g := Dead(s.gens[g])]
    requires s.used.Get(d) == Sum(s.gens, Lifetime(d)) + Sum(s.res, Charge(d))
    ensures t.used.Get(d) == Sum(t.gens, Lifetime(d)) + Sum(t.res, Charge(d))
  {
    hide Sum;
    SumUpdate(s.gens, g, Dead(s.gens[g]), Lifetime(d));
  }

  lemma RetireKeepsUsage(s: State, t: State, g: nat, h: nat, d: Dimension)
    requires g < |s.gens| && s.gens[g].live && t.res == s.res && t.gens == s.gens[g := Dead(s.gens[g])]
    requires h < |s.gens| && s.gens[h].usage.Get(d) == OwnUsage(s, h, d)
    ensures t.gens[h].usage.Get(d) == OwnUsage(t, h, d)
  {
    hide Sum;
    assert Dead(s.gens[g]).usage.Get(d) == s.gens[g].usage.Get(d) - OwnShare(d);
  }

  lemma RetireKeepsLedger(s: State, g: nat)
    requires Accounting(s) && g < |s.gens| && s.gens[g].live && s.gens[g].pending == []
    ensures Ledger(FinishRetire(s, g))
  {
    hide Sum, PendingOf, Reservations, Table, PendingLists, Accounts, OwnUsage;
    var t := FinishRetire(s, g);
    RetireShape(s, g);
    RetireKeepsAccounts(s, g);
    hide FinishRetire, Lifecycle, Dead;
    forall d ensures t.used.Get(d) == Sum(t.gens, Lifetime(d)) + Sum(t.res, Charge(d)) {
      RetireKeepsCounters(s, t, g, d);
    }
    forall h, d | 0 <= h < |t.gens| ensures t.gens[h].usage.Get(d) == OwnUsage(t, h, d) {
      RetireKeepsUsage(s, t, g, h, d);
    }
  }

  lemma RetireKeepsAccounting(s: State, g: nat)
    requires Accounting(s) && g < |s.gens| && s.gens[g].live && s.gens[g].pending == []
    ensures Accounting(FinishRetire(s, g))
  {
    hide Sum, PendingOf;
    var t := FinishRetire(s, g);
    RetireShape(s, g);
    RetireKeepsLedger(s, g);
    forall r | 0 <= r < |t.res| ensures ReservationOk(t, t.res[r]) {
      assert ReservationOk(s, s.res[r]);
      if t.res[r].generation == g && !t.res[r].released {
        PendingHas(s.res, g, r);
      }
    }
    assert Table(t);
  }

  lemma TryRetireKeepsAccounting(s: State, g: nat)
    requires Accounting(s) && g < |s.gens| && s.gens[g].live
    ensures Accounting(TryRetire(s, g))
  {
    hide Sum, PendingOf;
    if TryRetire(s, g) != s {
      assert s.gens[g].pending == [];
      RetireKeepsAccounting(s, g);
    }
  }

  // ---- The reservation transitions -----------------------------------------------------------------

  lemma CancelKeepsAccounting(s: State, r: nat)
    requires Accounting(s) && r < |s.res|
    ensures Accounting(Cancel(s, r))
  {
    hide Ledger, Table, PendingLists, Lifecycle;
    var x := s.res[r];
    ReservationHolds(s, r);
    hide Reservations;
    if !x.released {
      var y := x.(released := true, stage := Cancelled, refunded := x.refunded.Plus(ChargeOf(x)));
      SettleKeepsAccounting(s, r, y);
      TryRetireKeepsAccounting(Settle(s, r, y), x.generation);
    }
  }

  lemma CompleteKeepsAccounting(s: State, r: nat)
    requires Accounting(s) && r < |s.res| && s.res[r].stage.Started()
    ensures Accounting(Complete(s, r))
    ensures s.gens[s.res[r].generation].live ==> Complete(s, r).gens[s.res[r].generation].live
  {
    hide Ledger, Table, PendingLists, Lifecycle;
    var x := s.res[r];
    ReservationHolds(s, r);
    hide Reservations;
    if Complete(s, r) != s {
      SettleKeepsAccounting(s, r, x.(released := true, refunded := x.refunded.Plus(ChargeOf(x))));
    }
  }

  lemma ReleaseCommandKeepsAccounting(s: State, r: nat)
    requires Accounting(s) && r < |s.res| && s.res[r].stage == Processing
    ensures Accounting(ReleaseCommand(s, r))
  {
    hide Ledger, Table, PendingLists, Lifecycle;
    var x := s.res[r];
    ReservationHolds(s, r);
    hide Reservations;
    var y := x.(q := 0, stage := Done, refunded := x.refunded.Plus(Credit(x.q, 0, 0, 0, 0)));
    SettleKeepsAccounting(s, r, y);
    var s1 := Settle(s, r, y);
    CompleteKeepsAccounting(s1, r);
    TryRetireKeepsAccounting(Complete(s1, r), x.generation);
  }

  lemma CompletePartKeepsAccounting(s: State, r: nat)
    requires Accounting(s) && r < |s.res| && s.res[r].stage.Started()
    ensures Accounting(CompletePart(s, r))
  {
    hide Ledger, Table, PendingLists, Lifecycle;
    var x := s.res[r];
    ReservationHolds(s, r);
    hide Reservations;
    if x.released {
      var y := x.(settled := x.settled + 1);
      SettleKeepsAccounting(s, r, y);
      CompletePartOfReleased(s, r);
    } else {
      var y := x.(doneParts := x.doneParts + 1, settled := x.settled + 1);
      SettleKeepsAccounting(s, r, y);
      var s1 := Settle(s, r, y);
      CompleteKeepsAccounting(s1, r);
      TryRetireKeepsAccounting(Complete(s1, r), x.generation);
    }
  }

  lemma CompletePartOfReleased(s: State, r: nat)
    requires Accounting(s) && r < |s.res| && s.res[r].released
    ensures CompletePart(s, r) == Settle(s, r, s.res[r].(settled := s.res[r].settled + 1))
  {
    hide Sum, PendingOf;
    var x := s.res[r];
    assert ReservationOk(s, x);
    var t := Settle(s, r, x.(settled := x.settled + 1));
    var gen := s.gens[x.generation];
    assert gen.(usage := gen.usage.Plus(Zero)) == gen;
    assert s.gens[x.generation := gen] == s.gens;
    if gen.source.Some? {
      assert s.accounts[gen.source.value := s.accounts[gen.source.value].Plus(Zero)] == s.accounts;
    }
  }
}
