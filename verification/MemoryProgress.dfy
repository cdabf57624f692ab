/** Exactly when the memory accounts grant a request, and what every grant and every return changes. */
module MemoryProgress {
  import opened Basics
  import opened Credits
  import opened MemoryAccounts

  /** One lease changed, and the readers' budget and the shared account by `delta` with it. */
  ghost predicate LeaseChanged(w: World, t: World, i: nat, m: Lease, delta: int) {
    && i < |w.leases| && t.leases == w.leases[i := m]
    && t.readerBytes == w.readerBytes + delta && t.copies == w.copies + delta
    && t.members == w.members && t.poolBytes == w.poolBytes && t.units == w.units
  }

  /** Both accounts have room for `bytes` more. */
  predicate Room(w: World, bytes: int) {
    0 <= bytes && w.readerBytes + bytes <= ReaderLimit && w.copies + bytes <= CopyLimit
  }

  // ---- Leases ------------------------------------------------------------------------------------------------

  /** A reader gets a lease exactly when fewer than 64 are live and both accounts have room for its writer, its floor,
      its snapshot and its opening frame; it starts attached, with that snapshot and nothing else. */
  lemma LeaseIff(w: World, bytes: int)
    requires Inv(w)
    ensures var t := Step(w, NewLease(bytes));
            var cost := 528 * 1024 + 64 * 1024 + 128 + bytes + 2 * MiB;
            if bytes >= 0 && w.readers < 64 && Room(w, cost) then
              && |t.leases| == |w.leases| + 1 && t.leases[..|w.leases|] == w.leases
              && t.readerBytes == w.readerBytes + cost && t.copies == w.copies + cost && t.readers == w.readers + 1
              && var l := t.leases[|w.leases|];
                 && !l.detached && !l.released && l.owners == 0 && l.events == 0 && l.snapshotBytes == bytes + 2 * MiB
                 && Holding(l) == cost
            else t == w
  {
    hide OwnersOk, Balanced;
  }

  /** What a request for one lease asks both accounts for, and what the lease becomes if it is granted. */
  function Asked(l: Lease, op: Op): (int, Lease)
    requires op.Fund? || op.TakeEvent? || op.TakeSnapshot? || op.TakeCatchUp? || op.TakeTransport?
  {
    match op
    case Fund(_) => (4 * MiB, l.(attachmentBytes := 4 * MiB, owners := 1))
    case TakeEvent(_, bytes) =>
      (Max(l.eventBytes + bytes, FloorBytes) - Max(l.eventBytes, FloorBytes),
       l.(eventBytes := l.eventBytes + bytes, events := l.events + 1))
    case TakeSnapshot(_, bytes) => (bytes + 2 * MiB - l.snapshotBytes, l.(snapshotBytes := bytes + 2 * MiB))
    case TakeCatchUp(_, bytes) => (bytes, l.(catchUpBytes := l.catchUpBytes + bytes))
    case TakeTransport(_, bytes) => (bytes, l.(transportBytes := l.transportBytes + bytes))
  }

  /** An attached lease's request is granted exactly when both accounts have room for it, and a tail event only within
      the tail's own bound; then both accounts and the lease grow by it. A refusal changes nothing. */
  lemma GrantedIff(w: World, op: Op)
    requires Inv(w) && Enabled(w, op)
    requires op.Fund? || op.TakeEvent? || op.TakeSnapshot? || op.TakeCatchUp? || op.TakeTransport?
    ensures var l := w.leases[op.i];
            var (need, grown) := Asked(l, op);
            var t := Step(w, op);
            if && Room(w, need) && (op.Fund? || (!l.detached && op.bytes >= 0))
               && (op.TakeEvent? ==> l.eventBytes + op.bytes <= TailBytes)
            then LeaseChanged(w, t, op.i, grown, need) && Holding(grown) == Holding(l) + need
            else t == w
  {
    LeaseIs(w, op.i);
    assert w.leases[op.i := w.leases[op.i]] == w.leases;
    hide Sum, Balanced, OwnersOk, Bounded;
  }

  /** What the lease becomes by giving something back, before it is looked at for release. */
  function Lightened(w: World, op: Op): Lease
    requires |w.taken| == |w.leases| && Enabled(w, op)
    requires op.GiveEvent? || op.GiveSnapshot? || op.DetachLease? || op.DoneLease? || op.GiveCatchUp? || op.GiveTransport?
  {
    var l := w.leases[op.i];
    match op
    case GiveEvent(i, k) => l.(eventBytes := l.eventBytes - w.taken[i][k], events := l.events - 1)
    case GiveSnapshot(_) => l.(snapshotBytes := 0)
    case DetachLease(_) => l.(detached := true)
    case DoneLease(_) => l.(owners := l.owners - 1)
    case GiveCatchUp(_, bytes) => l.(catchUpBytes := l.catchUpBytes - bytes)
    case GiveTransport(_, bytes) => l.(transportBytes := l.transportBytes - bytes)
  }

  /** Every return takes exactly what it gives off the lease and both accounts; and as soon as a detached lease holds no
      snapshot, no event, no owner, no transport and no catch-up read, it is released, its base charge returned and its
      reader's place free. */
  lemma GivenBack(w: World, op: Op)
    requires Inv(w) && Enabled(w, op)
    requires op.GiveEvent? || op.GiveSnapshot? || op.DetachLease? || op.DoneLease? || op.GiveCatchUp? || op.GiveTransport?
    ensures var l := w.leases[op.i];
            var left := Lightened(w, op);
            var over := && left.detached && left.snapshotBytes == 0 && left.events == 0 && left.owners == 0
                        && left.transportBytes == 0 && left.catchUpBytes == 0;
            var m := left.(released := over);
            var t := Step(w, op);
            && LeaseChanged(w, t, op.i, m, Holding(m) - Holding(l))
            && t.readers == w.readers - (if over && !l.released then 1 else 0)
            && (over ==> Holding(m) == 0)
  {
    LeaseIs(w, op.i);
    var l := w.leases[op.i];
    EmptyTail(l, w.taken[op.i]);
    if op.GiveEvent? {
      ReleaseEventMoves(BudgetOf(w), l, w.taken[op.i], op.k);
    }
    hide Sum, Balanced, OwnersOk, Bounded, Without;
  }

  /** A hold adds one owner. */
  lemma Held(w: World, i: nat)
    requires Inv(w) && Enabled(w, HoldLease(i))
    ensures LeaseChanged(w, Step(w, HoldLease(i)), i, w.leases[i].(owners := w.leases[i].owners + 1), 0)
  {
  }

  // ---- Observer units ----------------------------------------------------------------------------------------

  predicate PoolRoom(w: World, bytes: int) {
    0 <= bytes && w.poolBytes + bytes <= TransientLimit && w.copies + bytes <= CopyLimit
  }

  ghost predicate UnitChanged(w: World, t: World, i: nat, v: Unit, delta: int) {
    && i < |w.members| && t.members == w.members[i := v]
    && t.poolBytes == w.poolBytes + delta && t.copies == w.copies + delta
    && t.leases == w.leases && t.readerBytes == w.readerBytes && t.readers == w.readers
  }

  /** An observer unit starts exactly when fewer than 18 live and there is room for its base, with one reference. A
      referred-to unit's bytes are granted exactly when there is room for them. */
  lemma UnitsGrantedIff(w: World, i: nat, bytes: int)
    requires Inv(w)
    ensures var t := Step(w, NewUnit);
            if w.units < 18 && PoolRoom(w, 1536 * 1024)
            then t.members == w.members + [Unit(1, 0)] && t.poolBytes == w.poolBytes + 1536 * 1024 &&
                 t.copies == w.copies + 1536 * 1024 && t.units == w.units + 1
            else t == w
    ensures i < |w.members| ==>
              var u := w.members[i];
              var t := Step(w, TakeBytes(i, bytes));
              if u.refs > 0 && PoolRoom(w, bytes) then UnitChanged(w, t, i, u.(bytes := u.bytes + bytes), bytes) else t == w
  {
    assert i < |w.members| ==> w.members[i := w.members[i]] == w.members;
    assert (w.members + [Unit(1, 0)])[|w.members| := Unit(1, 0)] == w.members + [Unit(1, 0)];
    hide OwnersOk, Balanced;
  }

  /** A unit is held and let go by one reference at a time, and gives back exactly the bytes it names; once it has no
      reference and no bytes its base is returned and its place free. */
  lemma UnitsGivenBack(w: World, op: Op)
    requires Inv(w) && Enabled(w, op) && (op.HoldUnit? || op.DoneUnit? || op.GiveBytes?)
    ensures var u := w.members[op.i];
            var left := match op
                        case HoldUnit(_) => u.(refs := u.refs + 1)
                        case DoneUnit(_) => u.(refs := u.refs - 1)
                        case GiveBytes(_, bytes) => u.(bytes := u.bytes - bytes)
                        case _ => u;
            var over := left.refs == 0 && left.bytes == 0;
            var v := if over then left.(refs := -1) else left;
            var t := Step(w, op);
            && UnitChanged(w, t, op.i, v, UnitHolding(v) - UnitHolding(u))
            && t.units == w.units - (if over then 1 else 0) && (over ==> UnitHolding(v) == 0)
  {
    assert UnitOk(w.members[op.i]);
    hide Balanced, Bounded;
  }
}
