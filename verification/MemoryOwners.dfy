/** The budgets and their owners as objects. Every method runs under the shared account's mutex, so each is one step
    of the accounts. */
module MemoryOwners {
  import opened Basics
  import opened MemoryAccounts

  class CopyBudget {
    var bytes: int

    constructor ()
      ensures bytes == 0
    {
      bytes := 0;
    }

    /** The caller's charge must not take the account below zero. */
    method Charge(amount: int)
      requires bytes + amount >= 0
      modifies this
      ensures bytes == old(bytes) + amount
    {
      bytes := bytes + amount;
    }
  }

  class ReaderBudget {
    const copies: CopyBudget
    var bytes: int
    var readers: int
    var events: int
    var snapshots: int

    ghost function View(): Budget
      reads this, copies
    {
      Budget(bytes, readers, events, snapshots, copies.bytes)
    }

    constructor (copies: CopyBudget)
      ensures this.copies == copies && bytes == readers == events == snapshots == 0
    {
      this.copies := copies;
      bytes, readers, events, snapshots := 0, 0, 0, 0;
    }

    method Charge(amount: int)
      requires copies.bytes + amount >= 0
      modifies this`bytes, copies
      ensures View() == Charged(old(View()), amount)
    {
      bytes := bytes + amount;
      copies.Charge(amount);
    }

    method Grants(amount: int) returns (ok: bool)
      ensures ok <==> Fits(View(), amount)
    {
      ok := amount <= ReaderLimit - bytes && 0 <= amount <= CopyLimit - copies.bytes;
    }

    method Acquire(snapshotBytes: int) returns (lease: ReaderLease?)
      requires copies.bytes >= 0
      modifies this, copies
      ensures var r := MemoryAccounts.Acquire(old(View()), snapshotBytes);
              if r.None? then lease == null && View() == old(View())
              else lease != null && fresh(lease) && lease.budget == this && (View(), lease.View()) == r.value
    {
      var cost := WriterBytes + FloorBytes + snapshotBytes + PrepareBytes;
      var room := Grants(cost);
      if snapshotBytes < 0 || readers >= MaxReaders || !room {
        return null;
      }
      Charge(cost);
      readers := readers + 1;
      snapshots := snapshots + 1;
      lease := new ReaderLease(this, snapshotBytes + PrepareBytes);
    }

    /** The lease is acquired and funded in two turns of the mutex; a refused second turn gives the first one back. */
    method AcquireAttachment() returns (lease: ReaderLease?)
      requires copies.bytes >= 0
      modifies this, copies
      ensures var r := MemoryAccounts.Acquire(old(View()), 0);
              if r.None? then lease == null && View() == old(View())
              else
                var f := FundAttachment(r.value.0, r.value.1);
                if f.2 then lease != null && fresh(lease) && lease.budget == this && (View(), lease.View()) == (f.0, f.1)
                else lease == null && View() == old(View())
    {
      lease := Acquire(0);
      if lease == null {
        return;
      }
      var room := Grants(AttachmentBytes);
      if !room {
        lease.ReleaseSnapshot();
        lease.Detach();
        return null;
      }
      Charge(AttachmentBytes);
      lease.attachmentBytes, lease.owners := AttachmentBytes, 1;
    }
  }

  class ReaderLease {
    const budget: ReaderBudget
    var snapshotBytes: int
    var eventBytes: int
    var events: int
    var detached: bool
    var released: bool
    var owners: int
    var attachmentBytes: int
    var transportBytes: int
    var catchUpBytes: int

    ghost function View(): Lease
      reads this
    {
      Lease(snapshotBytes, eventBytes, events, detached, released, owners, attachmentBytes, transportBytes, catchUpBytes)
    }

    ghost function Both(): (Budget, Lease)
      reads this, budget, budget.copies
    {
      (budget.View(), View())
    }

    /** The shared account covers what this lease holds, whose events own its event bytes. */
    ghost predicate Funded()
      reads this, budget, budget.copies
    {
      && Holding(View()) <= budget.copies.bytes
      && snapshotBytes >= 0 && attachmentBytes >= 0 && transportBytes >= 0 && catchUpBytes >= 0 && eventBytes >= 0
      && (events == 0 ==> eventBytes == 0)
      && (released <==> Idle(View()))
    }

    constructor (budget: ReaderBudget, snapshotBytes: int)
      ensures this.budget == budget && View() == Lease(snapshotBytes, 0, 0, false, false, 0, 0, 0, 0)
    {
      this.budget := budget;
      this.snapshotBytes := snapshotBytes;
      eventBytes, events, detached, released, owners := 0, 0, false, false, 0;
      attachmentBytes, transportBytes, catchUpBytes := 0, 0, 0;
    }

    method ReleaseLocked()
      requires !released && Idle(View()) ==> budget.copies.bytes >= WriterBytes + FloorBytes + attachmentBytes
      modifies this`released, budget`bytes, budget`readers, budget.copies
      ensures Both() == Settled(old(budget.View()), old(View()))
    {
      if released || !detached || snapshotBytes != 0 || events != 0 || owners != 0 || transportBytes != 0 ||
         catchUpBytes != 0 {
        return;
      }
      released := true;
      budget.Charge(-(WriterBytes + FloorBytes + attachmentBytes));
      budget.readers := budget.readers - 1;
    }

    method ReserveTailEvent(bytes: int) returns (limit: Limit)
      requires Funded()
      modifies this`eventBytes, this`events, budget, budget.copies
      ensures (budget.View(), View(), limit) == ReserveEvent(old(budget.View()), old(View()), bytes)
    {
      var before := Max(eventBytes, FloorBytes);
      var after := Max(eventBytes + bytes, FloorBytes);
      if detached {
        return Detached;
      }
      if bytes < 0 {
        return Invalid;
      }
      if eventBytes + bytes > TailBytes {
        return QueueBytes;
      }
      var room := budget.Grants(after - before);
      if !room {
        return ReaderBytes;
      }
      assert budget.copies.bytes >= 0;
      budget.Charge(after - before);
      budget.events := budget.events + 1;
      eventBytes := eventBytes + bytes;
      events := events + 1;
      limit := Granted;
    }

    /** The caller owns one event of `bytes`. */
    method ReleaseEvent(bytes: int)
      requires Funded() && events > 0 && 0 <= bytes <= eventBytes
      modifies this, budget, budget.copies
      ensures Both() == MemoryAccounts.ReleaseEvent(old(budget.View()), old(View()), bytes)
    {
      var before := Max(eventBytes, FloorBytes);
      eventBytes := eventBytes - bytes;
      budget.Charge(Max(eventBytes, FloorBytes) - before);
      events := events - 1;
      budget.events := budget.events - 1;
      ReleaseLocked();
    }

    method ReserveSnapshotBytes(bytes: int) returns (ok: bool)
      requires Funded()
      modifies this`snapshotBytes, budget, budget.copies
      ensures (budget.View(), View(), ok) == ReserveSnapshot(old(budget.View()), old(View()), bytes)
    {
      var delta := bytes + PrepareBytes - snapshotBytes;
      var room := budget.Grants(delta);
      if detached || bytes < 0 || !room {
        return false;
      }
      if snapshotBytes == 0 {
        budget.snapshots := budget.snapshots + 1;
      }
      budget.Charge(delta);
      snapshotBytes := bytes + PrepareBytes;
      ok := true;
    }

    method ReleaseSnapshot()
      requires Funded()
      modifies this, budget, budget.copies
      ensures Both() == MemoryAccounts.ReleaseSnapshot(old(budget.View()), old(View()))
      ensures old(!detached) ==> Funded()
    {
      if snapshotBytes != 0 {
        budget.Charge(-snapshotBytes);
        snapshotBytes := 0;
        budget.snapshots := budget.snapshots - 1;
      }
      ReleaseLocked();
    }

    method Detach()
      requires Funded()
      modifies this, budget, budget.copies
      ensures Both() == MemoryAccounts.Detach(old(budget.View()), old(View()))
    {
      detached := true;
      ReleaseLocked();
    }

    method Hold()
      requires !released && owners > 0
      modifies this`owners
      ensures View() == MemoryAccounts.Hold(old(View()))
    {
      owners := owners + 1;
    }

    method Done()
      requires Funded() && owners > 0
      modifies this, budget, budget.copies
      ensures Both() == MemoryAccounts.Done(old(budget.View()), old(View()))
    {
      owners := owners - 1;
      ReleaseLocked();
    }

    method ReserveCatchUp(bytes: int) returns (ok: bool)
      requires Funded()
      modifies this`catchUpBytes, budget, budget.copies
      ensures (budget.View(), View(), ok) == MemoryAccounts.ReserveCatchUp(old(budget.View()), old(View()), bytes)
    {
      var room := budget.Grants(bytes);
      if detached || bytes < 0 || !room {
        return false;
      }
      budget.Charge(bytes);
      catchUpBytes := catchUpBytes + bytes;
      ok := true;
    }

    method ReleaseCatchUp(bytes: int)
      requires Funded() && 0 <= bytes <= catchUpBytes
      modifies this, budget, budget.copies
      ensures Both() == MemoryAccounts.ReleaseCatchUp(old(budget.View()), old(View()), bytes)
    {
      budget.Charge(-bytes);
      catchUpBytes := catchUpBytes - bytes;
      ReleaseLocked();
    }

    method ReserveTransport(bytes: int) returns (ok: bool)
      requires Funded()
      modifies this`transportBytes, budget, budget.copies
      ensures (budget.View(), View(), ok) == MemoryAccounts.ReserveTransport(old(budget.View()), old(View()), bytes)
    {
      var room := budget.Grants(bytes);
      if detached || bytes < 0 || !room {
        return false;
      }
      budget.Charge(bytes);
      transportBytes := transportBytes + bytes;
      ok := true;
    }

    method ReleaseTransport(bytes: int)
      requires Funded() && 0 <= bytes <= transportBytes
      modifies this, budget, budget.copies
      ensures Both() == MemoryAccounts.ReleaseTransport(old(budget.View()), old(View()), bytes)
    {
      budget.Charge(-bytes);
      transportBytes := transportBytes - bytes;
      ReleaseLocked();
    }
  }

  class TransientBudget {
    const copies: CopyBudget
    var bytes: int
    var units: int

    ghost function View(): Pool
      reads this, copies
    {
      Pool(bytes, units, copies.bytes)
    }

    constructor (copies: CopyBudget)
      ensures this.copies == copies && bytes == units == 0
    {
      this.copies := copies;
      bytes, units := 0, 0;
    }

    method Charge(amount: int)
      requires copies.bytes + amount >= 0
      modifies this`bytes, copies
      ensures View() == PoolCharged(old(View()), amount)
    {
      bytes := bytes + amount;
      copies.Charge(amount);
    }

    method Acquire() returns (unit: UnitMemory?)
      requires copies.bytes >= 0
      modifies this, copies
      ensures var r := AcquireUnit(old(View()));
              if r.None? then unit == null && View() == old(View())
              else unit != null && fresh(unit) && unit.budget == this && (View(), unit.View()) == r.value
    {
      if units >= MaxUnits || UnitBytes > TransientLimit - bytes || UnitBytes > CopyLimit - copies.bytes {
        return null;
      }
      Charge(UnitBytes);
      units := units + 1;
      unit := new UnitMemory(this);
    }
  }

  class UnitMemory {
    const budget: TransientBudget
    var refs: int
    var bytes: int

    ghost function View(): Unit
      reads this
    {
      Unit(refs, bytes)
    }

    ghost predicate Funded()
      reads this, budget, budget.copies
    {
      UnitOk(View()) && UnitHolding(View()) <= budget.copies.bytes
    }

    constructor (budget: TransientBudget)
      ensures this.budget == budget && View() == Unit(1, 0)
    {
      this.budget := budget;
      refs, bytes := 1, 0;
    }

    method Hold()
      requires refs > 0
      modifies this`refs
      ensures View() == old(View()).(refs := old(refs) + 1)
    {
      refs := refs + 1;
    }

    method ReleaseLocked()
      requires refs == 0 && bytes == 0 ==> budget.copies.bytes >= UnitBytes
      modifies this`refs, budget`bytes, budget`units, budget.copies
      ensures (budget.View(), View()) == UnitSettled(old(budget.View()), old(View()))
    {
      if refs == 0 && bytes == 0 {
        refs := -1;
        budget.Charge(-UnitBytes);
        budget.units := budget.units - 1;
      }
    }

    method Done()
      requires Funded() && refs > 0
      modifies this, budget, budget.copies
      ensures (budget.View(), View()) == UnitDone(old(budget.View()), old(View()))
    {
      refs := refs - 1;
      ReleaseLocked();
    }

    method Reserve(amount: int) returns (ok: bool)
      requires budget.copies.bytes >= 0
      modifies this`bytes, budget`bytes, budget.copies
      ensures (budget.View(), View(), ok) == UnitReserve(old(budget.View()), old(View()), amount)
    {
      if refs <= 0 || amount < 0 || amount > TransientLimit - budget.bytes || amount > CopyLimit - budget.copies.bytes {
        return false;
      }
      bytes := bytes + amount;
      budget.Charge(amount);
      ok := true;
    }

    method Release(amount: int)
      requires Funded() && 0 <= amount <= bytes
      modifies this, budget, budget.copies
      ensures (budget.View(), View()) == UnitRelease(old(budget.View()), old(View()), amount)
    {
      bytes := bytes - amount;
      budget.Charge(-amount);
      ReleaseLocked();
    }
  }
}
