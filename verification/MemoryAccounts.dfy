/** The nested memory accounts: readers and observer units each hold a budget of their own, and every byte either
    holds is also charged to one shared account. */
module MemoryAccounts {
  import opened Basics
  import opened Credits

  const MiB: int := 0x10_0000
  const CopyLimit := 224 * MiB
  const ReaderLimit := 128 * MiB
  const TransientLimit := 128 * MiB
  const MaxReaders := 64
  const MaxUnits := 18
  const WriterBytes := 528 * 1024
  const FloorBytes := 64 * 1024 + 128
  const PrepareBytes := 2 * MiB
  const AttachmentBytes := 4 * MiB
  const TailBytes := 4 * MiB + 64 * 1024
  const UnitBytes := 1536 * 1024

  /** The reader budget with the shared account below it. */
  datatype Budget = Budget(bytes: int, readers: int, events: int, snapshots: int, copies: int)

  datatype Lease = Lease(snapshotBytes: int, eventBytes: int, events: int, detached: bool, released: bool,
                         owners: int, attachmentBytes: int, transportBytes: int, catchUpBytes: int)

  datatype Limit = Granted | Detached | Invalid | QueueBytes | ReaderBytes

  /** What the shared account still grants. */
  predicate Available(copies: int, bytes: int) {
    0 <= bytes <= CopyLimit - copies
  }

  predicate Fits(b: Budget, bytes: int) {
    bytes <= ReaderLimit - b.bytes && Available(b.copies, bytes)
  }

  function Charged(b: Budget, bytes: int): Budget {
    b.(bytes := b.bytes + bytes, copies := b.copies + bytes)
  }

  // ---- Reader leases ---------------------------------------------------------------------------------------

  function Acquire(b: Budget, bytes: int): Option<(Budget, Lease)> {
    var cost := WriterBytes + FloorBytes + bytes + PrepareBytes;
    if bytes < 0 || b.readers >= MaxReaders || !Fits(b, cost) then None
    else
      var charged := Charged(b, cost);
      Some((charged.(readers := b.readers + 1, snapshots := b.snapshots + 1),
            Lease(bytes + PrepareBytes, 0, 0, false, false, 0, 0, 0, 0)))
  }

  predicate Idle(l: Lease) {
    && l.detached && l.snapshotBytes == 0 && l.events == 0 && l.owners == 0
    && l.transportBytes == 0 && l.catchUpBytes == 0
  }

  /** The base charge returns once the lease is detached and holds nothing more. */
  function Settled(b: Budget, l: Lease): (Budget, Lease) {
    if l.released || !Idle(l) then (b, l)
    else (Charged(b, -(WriterBytes + FloorBytes + l.attachmentBytes)).(readers := b.readers - 1), l.(released := true))
  }

  function ReserveEvent(b: Budget, l: Lease, bytes: int): (Budget, Lease, Limit) {
    var delta := Max(l.eventBytes + bytes, FloorBytes) - Max(l.eventBytes, FloorBytes);
    if l.detached then (b, l, Detached)
    else if bytes < 0 then (b, l, Invalid)
    else if l.eventBytes + bytes > TailBytes then (b, l, QueueBytes)
    else if !Fits(b, delta) then (b, l, ReaderBytes)
    else (Charged(b, delta).(events := b.events + 1), l.(eventBytes := l.eventBytes + bytes, events := l.events + 1),
          Granted)
  }

  function ReleaseEvent(b: Budget, l: Lease, bytes: int): (Budget, Lease) {
    var delta := Max(l.eventBytes - bytes, FloorBytes) - Max(l.eventBytes, FloorBytes);
    Settled(Charged(b, delta).(events := b.events - 1), l.(eventBytes := l.eventBytes - bytes, events := l.events - 1))
  }

  function ReserveSnapshot(b: Budget, l: Lease, bytes: int): (Budget, Lease, bool) {
    var delta := bytes + PrepareBytes - l.snapshotBytes;
    if l.detached || bytes < 0 || !Fits(b, delta) then (b, l, false)
    else
      (Charged(b, delta).(snapshots := if l.snapshotBytes == 0 then b.snapshots + 1 else b.snapshots),
       l.(snapshotBytes := bytes + PrepareBytes), true)
  }

  function ReleaseSnapshot(b: Budget, l: Lease): (Budget, Lease) {
    if l.snapshotBytes == 0 then Settled(b, l)
    else Settled(Charged(b, -l.snapshotBytes).(snapshots := b.snapshots - 1), l.(snapshotBytes := 0))
  }

  function Detach(b: Budget, l: Lease): (Budget, Lease) {
    Settled(b, l.(detached := true))
  }

  /** The second half of acquiring an attachment: the same lease takes the attachment's bytes and its first owner. */
  function FundAttachment(b: Budget, l: Lease): (Budget, Lease, bool) {
    if !Fits(b, AttachmentBytes) then (b, l, false)
    else (Charged(b, AttachmentBytes), l.(attachmentBytes := AttachmentBytes, owners := 1), true)
  }

  function Hold(l: Lease): Lease {
    l.(owners := l.owners + 1)
  }

  function Done(b: Budget, l: Lease): (Budget, Lease) {
    Settled(b, l.(owners := l.owners - 1))
  }

  function ReserveCatchUp(b: Budget, l: Lease, bytes: int): (Budget, Lease, bool) {
    if l.detached || bytes < 0 || !Fits(b, bytes) then (b, l, false)
    else (Charged(b, bytes), l.(catchUpBytes := l.catchUpBytes + bytes), true)
  }

  function ReleaseCatchUp(b: Budget, l: Lease, bytes: int): (Budget, Lease) {
    Settled(Charged(b, -bytes), l.(catchUpBytes := l.catchUpBytes - bytes))
  }

  function ReserveTransport(b: Budget, l: Lease, bytes: int): (Budget, Lease, bool) {
    if l.detached || bytes < 0 || !Fits(b, bytes) then (b, l, false)
    else (Charged(b, bytes), l.(transportBytes := l.transportBytes + bytes), true)
  }

  function ReleaseTransport(b: Budget, l: Lease, bytes: int): (Budget, Lease) {
    Settled(Charged(b, -bytes), l.(transportBytes := l.transportBytes - bytes))
  }

  // ---- Observer units --------------------------------------------------------------------------------------

  datatype Pool = Pool(bytes: int, units: int, copies: int)

  /** One observer unit; -1 references mark a unit whose charge has been returned. */
  datatype Unit = Unit(refs: int, bytes: int)

  predicate Grants(p: Pool, bytes: int) {
    bytes <= TransientLimit - p.bytes && Available(p.copies, bytes)
  }

  function PoolCharged(p: Pool, bytes: int): Pool {
    p.(bytes := p.bytes + bytes, copies := p.copies + bytes)
  }

  function AcquireUnit(p: Pool): Option<(Pool, Unit)> {
    if p.units >= MaxUnits || !Grants(p, UnitBytes) then None
    else Some((PoolCharged(p, UnitBytes).(units := p.units + 1), Unit(1, 0)))
  }

  function UnitSettled(p: Pool, u: Unit): (Pool, Unit) {
    if u.refs == 0 && u.bytes == 0 then (PoolCharged(p, -UnitBytes).(units := p.units - 1), u.(refs := -1)) else (p, u)
  }

  function UnitDone(p: Pool, u: Unit): (Pool, Unit) {
    UnitSettled(p, u.(refs := u.refs - 1))
  }

  function UnitReserve(p: Pool, u: Unit, bytes: int): (Pool, Unit, bool) {
    if u.refs <= 0 || bytes < 0 || !Grants(p, bytes) then (p, u, false)
    else (PoolCharged(p, bytes), u.(bytes := u.bytes + bytes), true)
  }

  function UnitRelease(p: Pool, u: Unit, bytes: int): (Pool, Unit) {
    UnitSettled(PoolCharged(p, -bytes), u.(bytes := u.bytes - bytes))
  }

  // ---- Every owner together --------------------------------------------------------------------------------

  /** `taken` is history: the charge of each tail event a lease still owns. */
  datatype World = World(readerBytes: int, readers: int, events: int, snapshots: int, leases: seq<Lease>,
                         taken: seq<seq<int>>, poolBytes: int, units: int, members: seq<Unit>, copies: int)

  const Fresh := World(0, 0, 0, 0, [], [], 0, 0, [], 0)

  function BudgetOf(w: World): Budget {
    Budget(w.readerBytes, w.readers, w.events, w.snapshots, w.copies)
  }

  function PoolOf(w: World): Pool {
    Pool(w.poolBytes, w.units, w.copies)
  }

  function WithLease(w: World, i: nat, b: Budget, l: Lease): World
    requires i < |w.leases|
  {
    w.(readerBytes := b.bytes, readers := b.readers, events := b.events, snapshots := b.snapshots, copies := b.copies,
       leases := w.leases[i := l])
  }

  function WithUnit(w: World, i: nat, p: Pool, u: Unit): World
    requires i < |w.members|
  {
    w.(poolBytes := p.bytes, units := p.units, copies := p.copies, members := w.members[i := u])
  }

  datatype Op =
    | NewLease(bytes: int)
    | Fund(i: nat)
    | TakeEvent(i: nat, bytes: int)
    | GiveEvent(i: nat, k: nat)
    | TakeSnapshot(i: nat, bytes: int)
    | GiveSnapshot(i: nat)
    | DetachLease(i: nat)
    | HoldLease(i: nat)
    | DoneLease(i: nat)
    | TakeCatchUp(i: nat, bytes: int)
    | GiveCatchUp(i: nat, bytes: int)
    | TakeTransport(i: nat, bytes: int)
    | GiveTransport(i: nat, bytes: int)
    | NewUnit
    | HoldUnit(i: nat)
    | DoneUnit(i: nat)
    | TakeBytes(i: nat, bytes: int)
    | GiveBytes(i: nat, bytes: int)

  /** Owners exist and give back only what they took; an attachment is funded by its creator, once. */
  predicate Enabled(w: World, op: Op)
    requires |w.taken| == |w.leases|
  {
    match op
    case NewLease(_) => true
    case Fund(i) =>
      i < |w.leases| && !w.leases[i].detached && w.leases[i].owners == 0 && w.leases[i].attachmentBytes == 0
    case TakeEvent(i, _) => i < |w.leases|
    case GiveEvent(i, k) => i < |w.leases| && k < |w.taken[i]|
    case TakeSnapshot(i, _) => i < |w.leases|
    case GiveSnapshot(i) => i < |w.leases|
    case DetachLease(i) => i < |w.leases|
    case HoldLease(i) => i < |w.leases| && w.leases[i].owners > 0
    case DoneLease(i) => i < |w.leases| && w.leases[i].owners > 0
    case TakeCatchUp(i, _) => i < |w.leases|
    case GiveCatchUp(i, bytes) => i < |w.leases| && 0 <= bytes <= w.leases[i].catchUpBytes
    case TakeTransport(i, _) => i < |w.leases|
    case GiveTransport(i, bytes) => i < |w.leases| && 0 <= bytes <= w.leases[i].transportBytes
    case NewUnit => true
    case HoldUnit(i) => i < |w.members| && w.members[i].refs > 0
    case DoneUnit(i) => i < |w.members| && w.members[i].refs > 0
    case TakeBytes(i, _) => i < |w.members|
    case GiveBytes(i, bytes) => i < |w.members| && 0 <= bytes <= w.members[i].bytes
  }

  function Without<T>(s: seq<T>, k: nat): seq<T>
    requires k < |s|
  {
    s[..k] + s[k + 1..]
  }

  function Step(w: World, op: Op): World
    requires |w.taken| == |w.leases| && Enabled(w, op)
  {
    var b := BudgetOf(w);
    match op
    case NewLease(bytes) =>
      var r := Acquire(b, bytes);
      if r.None? then w
      else
        var t := w.(leases := w.leases + [r.value.1], taken := w.taken + [[]]);
        WithLease(t, |w.leases|, r.value.0, r.value.1)
    case Fund(i) => var (c, l, _) := FundAttachment(b, w.leases[i]); WithLease(w, i, c, l)
    case TakeEvent(i, bytes) =>
      var (c, l, limit) := ReserveEvent(b, w.leases[i], bytes);
      WithLease(w, i, c, l).(taken := if limit.Granted? then w.taken[i := w.taken[i] + [bytes]] else w.taken)
    case GiveEvent(i, k) =>
      var (c, l) := ReleaseEvent(b, w.leases[i], w.taken[i][k]);
      WithLease(w, i, c, l).(taken := w.taken[i := Without(w.taken[i], k)])
    case TakeSnapshot(i, bytes) => var (c, l, _) := ReserveSnapshot(b, w.leases[i], bytes); WithLease(w, i, c, l)
    case GiveSnapshot(i) => var (c, l) := ReleaseSnapshot(b, w.leases[i]); WithLease(w, i, c, l)
    case DetachLease(i) => var (c, l) := Detach(b, w.leases[i]); WithLease(w, i, c, l)
    case HoldLease(i) => WithLease(w, i, b, Hold(w.leases[i]))
    case DoneLease(i) => var (c, l) := Done(b, w.leases[i]); WithLease(w, i, c, l)
    case TakeCatchUp(i, bytes) => var (c, l, _) := ReserveCatchUp(b, w.leases[i], bytes); WithLease(w, i, c, l)
    case GiveCatchUp(i, bytes) => var (c, l) := ReleaseCatchUp(b, w.leases[i], bytes); WithLease(w, i, c, l)
    case TakeTransport(i, bytes) => var (c, l, _) := ReserveTransport(b, w.leases[i], bytes); WithLease(w, i, c, l)
    case GiveTransport(i, bytes) => var (c, l) := ReleaseTransport(b, w.leases[i], bytes); WithLease(w, i, c, l)
    case NewUnit =>
      var r := AcquireUnit(PoolOf(w));
      if r.None? then w
      else WithUnit(w.(members := w.members + [r.value.1]), |w.members|, r.value.0, r.value.1)
    case HoldUnit(i) => WithUnit(w, i, PoolOf(w), w.members[i].(refs := w.members[i].refs + 1))
    case DoneUnit(i) => var (p, u) := UnitDone(PoolOf(w), w.members[i]); WithUnit(w, i, p, u)
    case TakeBytes(i, bytes) => var (p, u, _) := UnitReserve(PoolOf(w), w.members[i], bytes); WithUnit(w, i, p, u)
    case GiveBytes(i, bytes) => var (p, u) := UnitRelease(PoolOf(w), w.members[i], bytes); WithUnit(w, i, p, u)
  }

  /** Where the accounts would stop the process: a release its lease does not cover, or a shared account below zero. */
  predicate Panics(w: World, op: Op)
    requires |w.taken| == |w.leases| && Enabled(w, op)
  {
    || Step(w, op).copies < 0
    || match op
       case GiveEvent(i, k) => w.leases[i].events <= 0 || w.taken[i][k] > w.leases[i].eventBytes
       case HoldLease(i) => w.leases[i].released || w.leases[i].owners == 0
       case DoneLease(i) => w.leases[i].owners <= 0
       case GiveCatchUp(i, bytes) => bytes < 0 || bytes > w.leases[i].catchUpBytes
       case GiveTransport(i, bytes) => bytes < 0 || bytes > w.leases[i].transportBytes
       case HoldUnit(i) => w.members[i].refs <= 0
       case DoneUnit(i) => w.members[i].refs <= 0
       case GiveBytes(i, bytes) => bytes < 0 || bytes > w.members[i].bytes
       case _ => false
  }

  // ---- What every reachable state keeps --------------------------------------------------------------------

  /** What an unreleased lease holds. */
  function Holding(l: Lease): int {
    if l.released then 0
    else WriterBytes + Max(l.eventBytes, FloorBytes) + l.snapshotBytes + l.attachmentBytes + l.transportBytes +
         l.catchUpBytes
  }

  function Live(l: Lease): int {
    if l.released then 0 else 1
  }

  function Queued(l: Lease): int {
    l.events
  }

  function Shot(l: Lease): int {
    if l.snapshotBytes != 0 then 1 else 0
  }

  function UnitHolding(u: Unit): int {
    if u.refs < 0 then 0 else UnitBytes + u.bytes
  }

  function UnitLive(u: Unit): int {
    if u.refs < 0 then 0 else 1
  }

  function Amount(n: int): int {
    n
  }

  /** A lease is released exactly when it is detached and holds nothing, and its event bytes are its events' sum. */
  ghost predicate LeaseOk(l: Lease, taken: seq<int>) {
    && (l.released <==> Idle(l))
    && (l.snapshotBytes == 0 || l.snapshotBytes >= PrepareBytes)
    && l.owners >= 0 && l.transportBytes >= 0 && l.catchUpBytes >= 0 && l.attachmentBytes >= 0
    && l.events == |taken| && l.eventBytes == Sum(taken, Amount) && l.eventBytes <= TailBytes
    && forall n :: n in taken ==> n >= 0
  }

  ghost predicate UnitOk(u: Unit) {
    u.refs >= -1 && u.bytes >= 0 && (u.refs == 0 ==> u.bytes > 0) && (u.refs < 0 ==> u.bytes == 0)
  }

  /** Each budget is what its owners hold and the shared account is both, every limit kept. */
  ghost predicate Balanced(w: World) {
    && w.readerBytes == Sum(w.leases, Holding) && w.readers == Sum(w.leases, Live)
    && w.events == Sum(w.leases, Queued) && w.snapshots == Sum(w.leases, Shot)
    && w.poolBytes == Sum(w.members, UnitHolding) && w.units == Sum(w.members, UnitLive)
    && w.copies == w.readerBytes + w.poolBytes
  }

  ghost predicate Bounded(w: World) {
    && w.readerBytes <= ReaderLimit && w.readers <= MaxReaders
    && w.poolBytes <= TransientLimit && w.units <= MaxUnits && w.copies <= CopyLimit
  }

  ghost predicate OwnersOk(w: World) {
    && |w.taken| == |w.leases|
    && (forall i :: 0 <= i < |w.leases| ==> LeaseOk(w.leases[i], w.taken[i]))
    && forall i :: 0 <= i < |w.members| ==> UnitOk(w.members[i])
  }

  ghost predicate Inv(w: World) {
    OwnersOk(w) && Balanced(w) && Bounded(w)
  }

  // ---- One owner's step ------------------------------------------------------------------------------------

  /** The budget moved by exactly what the lease's holdings did, and no further than it may. */
  ghost predicate Moves(b: Budget, l: Lease, c: Budget, m: Lease) {
    && c.bytes - b.bytes == Holding(m) - Holding(l) && c.copies - b.copies == Holding(m) - Holding(l)
    && c.readers - b.readers == Live(m) - Live(l) && c.events - b.events == m.events - l.events
    && c.snapshots - b.snapshots == Shot(m) - Shot(l)
    && (c.bytes > b.bytes ==> c.bytes <= ReaderLimit && c.copies <= CopyLimit)
    && c.readers <= b.readers
  }

  lemma ReserveEventMoves(b: Budget, l: Lease, taken: seq<int>, bytes: int)
    requires LeaseOk(l, taken)
    ensures var (c, m, limit) := ReserveEvent(b, l, bytes);
            Moves(b, l, c, m) && LeaseOk(m, if limit.Granted? then taken + [bytes] else taken)
  {
    SumAppend(taken, bytes, Amount);
  }

  lemma ReleaseEventMoves(b: Budget, l: Lease, taken: seq<int>, k: nat)
    requires LeaseOk(l, taken) && k < |taken|
    ensures var (c, m) := ReleaseEvent(b, l, taken[k]); Moves(b, l, c, m) && LeaseOk(m, Without(taken, k))
    ensures l.events > 0 && taken[k] <= l.eventBytes
  {
    SumWithout(taken, k);
    RestNonnegative(taken, k);
    hide Sum;
    assert taken[k] in taken;
    if |taken| == 1 {
      assert Without(taken, k) == [];
    }
  }

  lemma RestNonnegative(taken: seq<int>, k: nat)
    requires k < |taken| && forall n :: n in taken ==> n >= 0
    ensures (forall n :: n in Without(taken, k) ==> n >= 0) && Sum(Without(taken, k), Amount) >= 0
    ensures |Without(taken, k)| == 0 ==> Sum(Without(taken, k), Amount) == 0
  {
    forall n | n in Without(taken, k) ensures n >= 0 && Amount(n) >= 0 {
      assert n in taken;
    }
    SumNonnegative(Without(taken, k), Amount);
  }

  lemma {:induction false} SumWithout(s: seq<int>, k: nat)
    requires k < |s|
    ensures Sum(Without(s, k), Amount) == Sum(s, Amount) - s[k]
  {
    var last := |s| - 1;
    if k < last {
      assert Without(s, k)[..last - 1] == Without(s[..last], k);
      SumWithout(s[..last], k);
    } else {
      assert Without(s, k) == s[..last];
    }
  }

  /** The operations that leave the tail events alone. */
  lemma SnapshotOps(b: Budget, l: Lease, taken: seq<int>, bytes: int)
    requires LeaseOk(l, taken)
    ensures var (c, m, _) := ReserveSnapshot(b, l, bytes); Moves(b, l, c, m) && LeaseOk(m, taken)
    ensures var (c, m) := ReleaseSnapshot(b, l); Moves(b, l, c, m) && LeaseOk(m, taken)
    ensures var (c, m) := Detach(b, l); Moves(b, l, c, m) && LeaseOk(m, taken)
    ensures l.owners > 0 ==> Moves(b, l, b, Hold(l)) && LeaseOk(Hold(l), taken) && !l.released
    ensures l.owners > 0 ==> var (c, m) := Done(b, l); Moves(b, l, c, m) && LeaseOk(m, taken)
  {
    EmptyTail(l, taken);
  }

  lemma AttachmentOps(b: Budget, l: Lease, taken: seq<int>, bytes: int)
    requires LeaseOk(l, taken)
    ensures !l.detached && l.owners == 0 && l.attachmentBytes == 0 ==>
              var (c, m, _) := FundAttachment(b, l); Moves(b, l, c, m) && LeaseOk(m, taken)
    ensures var (c, m, _) := ReserveCatchUp(b, l, bytes); Moves(b, l, c, m) && LeaseOk(m, taken)
    ensures 0 <= bytes <= l.catchUpBytes ==>
              var (c, m) := ReleaseCatchUp(b, l, bytes); Moves(b, l, c, m) && LeaseOk(m, taken)
  {
    EmptyTail(l, taken);
  }

  lemma TransportOps(b: Budget, l: Lease, taken: seq<int>, bytes: int)
    requires LeaseOk(l, taken)
    ensures var (c, m, _) := ReserveTransport(b, l, bytes); Moves(b, l, c, m) && LeaseOk(m, taken)
    ensures 0 <= bytes <= l.transportBytes ==>
              var (c, m) := ReleaseTransport(b, l, bytes); Moves(b, l, c, m) && LeaseOk(m, taken)
  {
    EmptyTail(l, taken);
  }

  lemma EmptyTail(l: Lease, taken: seq<int>)
    requires LeaseOk(l, taken)
    ensures l.events == 0 ==> l.eventBytes == 0
  {
  }

  /** A moved lease keeps every balance and bound. */
  lemma WithLeaseKeeps(w: World, i: nat, b: Budget, l: Lease, taken: seq<int>)
    requires Inv(w) && i < |w.leases| && LeaseOk(l, taken) && Moves(BudgetOf(w), w.leases[i], b, l)
    ensures Inv(WithLease(w, i, b, l).(taken := w.taken[i := taken]))
  {
    hide LeaseOk, Sum, Holding, Live, Shot;
    SumUpdate(w.leases, i, l, Holding);
    SumUpdate(w.leases, i, l, Live);
    SumUpdate(w.leases, i, l, Queued);
    SumUpdate(w.leases, i, l, Shot);
  }

  ghost predicate UnitMoves(p: Pool, u: Unit, q: Pool, v: Unit) {
    && q.bytes - p.bytes == UnitHolding(v) - UnitHolding(u) && q.copies - p.copies == q.bytes - p.bytes
    && q.units - p.units == UnitLive(v) - UnitLive(u)
    && (q.bytes > p.bytes ==> q.bytes <= TransientLimit && q.copies <= CopyLimit)
    && q.units <= p.units
  }

  lemma UnitOps(p: Pool, u: Unit, bytes: int)
    requires UnitOk(u)
    ensures u.refs > 0 ==> UnitMoves(p, u, p, u.(refs := u.refs + 1)) && UnitOk(u.(refs := u.refs + 1))
    ensures u.refs > 0 ==> var (q, v) := UnitDone(p, u); UnitMoves(p, u, q, v) && UnitOk(v)
    ensures var (q, v, _) := UnitReserve(p, u, bytes); UnitMoves(p, u, q, v) && UnitOk(v)
    ensures 0 <= bytes <= u.bytes ==> var (q, v) := UnitRelease(p, u, bytes); UnitMoves(p, u, q, v) && UnitOk(v)
  {
  }

  lemma WithUnitKeeps(w: World, i: nat, p: Pool, u: Unit)
    requires Inv(w) && i < |w.members| && UnitOk(u) && UnitMoves(PoolOf(w), w.members[i], p, u)
    ensures Inv(WithUnit(w, i, p, u))
  {
    hide LeaseOk, UnitOk, Sum, UnitHolding, UnitLive;
    SumUpdate(w.members, i, u, UnitHolding);
    SumUpdate(w.members, i, u, UnitLive);
  }

  lemma NewLeaseKeeps(w: World, bytes: int)
    requires Inv(w)
    ensures Inv(Step(w, NewLease(bytes)))
  {
    var r := Acquire(BudgetOf(w), bytes);
    if r.Some? {
      var l := r.value.1;
      SumAppend(w.leases, l, Holding);
      SumAppend(w.leases, l, Live);
      SumAppend(w.leases, l, Queued);
      SumAppend(w.leases, l, Shot);
      assert LeaseOk(l, []);
      hide LeaseOk, Sum;
      assert (w.leases + [l])[|w.leases| := l] == w.leases + [l];
    }
  }

  lemma NewUnitKeeps(w: World)
    requires Inv(w)
    ensures Inv(Step(w, NewUnit))
  {
    hide LeaseOk;
    var r := AcquireUnit(PoolOf(w));
    if r.Some? {
      var u := r.value.1;
      SumAppend(w.members, u, UnitHolding);
      SumAppend(w.members, u, UnitLive);
      hide Sum;
      assert (w.members + [u])[|w.members| := u] == w.members + [u];
    }
  }

  lemma LeaseIs(w: World, i: nat)
    requires Inv(w) && i < |w.leases|
    ensures LeaseOk(w.leases[i], w.taken[i]) && w.taken[i := w.taken[i]] == w.taken
  {
  }

  lemma LeaseStepKeeps(w: World, op: Op)
    requires Inv(w) && Enabled(w, op)
    requires op.Fund? || op.TakeEvent? || op.GiveEvent? || op.TakeSnapshot? || op.GiveSnapshot? || op.DetachLease?
          || op.HoldLease? || op.DoneLease? || op.TakeCatchUp? || op.GiveCatchUp? || op.TakeTransport? || op.GiveTransport?
    ensures Inv(Step(w, op))
  {
    var i := op.i;
    LeaseIs(w, i);
    var b, l, taken := BudgetOf(w), w.leases[i], w.taken[i];
    hide LeaseOk, Moves, Inv, Settled, Fits;
    match op {
      case TakeEvent(_, bytes) =>
        ReserveEventMoves(b, l, taken, bytes);
        hide ReserveEvent;
        var (c, m, limit) := ReserveEvent(b, l, bytes);
        WithLeaseKeeps(w, i, c, m, if limit.Granted? then taken + [bytes] else taken);
      case GiveEvent(_, k) =>
        ReleaseEventMoves(b, l, taken, k);
        hide ReleaseEvent;
        var (c, m) := ReleaseEvent(b, l, taken[k]);
        WithLeaseKeeps(w, i, c, m, Without(taken, k));
      case _ => OtherStepKeeps(w, op);
    }
  }

  lemma OtherStepKeeps(w: World, op: Op)
    requires Inv(w) && Enabled(w, op)
    requires op.Fund? || op.TakeSnapshot? || op.GiveSnapshot? || op.DetachLease? || op.HoldLease? || op.DoneLease?
          || op.TakeCatchUp? || op.GiveCatchUp? || op.TakeTransport? || op.GiveTransport?
    ensures Inv(Step(w, op))
  {
    var i := op.i;
    LeaseIs(w, i);
    var b, l, taken := BudgetOf(w), w.leases[i], w.taken[i];
    var bytes := if op.GiveSnapshot? || op.DetachLease? || op.HoldLease? || op.DoneLease? || op.Fund? then 0 else op.bytes;
    SnapshotOps(b, l, taken, bytes);
    AttachmentOps(b, l, taken, bytes);
    TransportOps(b, l, taken, bytes);
    hide LeaseOk, Moves, Inv, Settled, Fits, ReserveSnapshot, ReleaseSnapshot, Detach, FundAttachment, Hold, Done,
         ReserveCatchUp, ReleaseCatchUp, ReserveTransport, ReleaseTransport;
    var t := Step(w, op);
    WithLeaseKeeps(w, i, BudgetOf(t), t.leases[i], taken);
  }

  lemma UnitStepKeeps(w: World, op: Op)
    requires Inv(w) && Enabled(w, op) && (op.HoldUnit? || op.DoneUnit? || op.TakeBytes? || op.GiveBytes?)
    ensures Inv(Step(w, op))
  {
    var i := op.i;
    var p, u := PoolOf(w), w.members[i];
    assert UnitOk(u);
    UnitOps(p, u, if op.TakeBytes? || op.GiveBytes? then op.bytes else 0);
    hide LeaseOk, UnitOk, UnitMoves, Inv, UnitDone, UnitReserve, UnitRelease;
    var t := Step(w, op);
    WithUnitKeeps(w, i, PoolOf(t), t.members[i]);
  }

  lemma StepKeepsInv(w: World, op: Op)
    requires Inv(w) && Enabled(w, op)
    ensures Inv(Step(w, op))
  {
    hide Inv, Enabled, Step;
    match op {
      case NewLease(bytes) => NewLeaseKeeps(w, bytes);
      case NewUnit => NewUnitKeeps(w);
      case HoldUnit(_) => UnitStepKeeps(w, op);
      case DoneUnit(_) => UnitStepKeeps(w, op);
      case TakeBytes(_, _) => UnitStepKeeps(w, op);
      case GiveBytes(_, _) => UnitStepKeeps(w, op);
      case _ => LeaseStepKeeps(w, op);
    }
  }

  ghost predicate Run(trace: seq<World>, ops: seq<Op>) {
    && |trace| == |ops| + 1 && trace[0] == Fresh
    && forall i :: 0 <= i < |ops| ==>
         |trace[i].taken| == |trace[i].leases| && Enabled(trace[i], ops[i]) && trace[i + 1] == Step(trace[i], ops[i])
  }

  /** In every run by owners that give back only what they took: each budget is what its owners hold, the shared
      account is both, and every limit is kept. */
  lemma {:induction false} RunKeepsInv(trace: seq<World>, ops: seq<Op>, i: nat)
    requires Run(trace, ops) && i < |trace|
    ensures Inv(trace[i])
  {
    if i > 0 {
      RunKeepsInv(trace, ops, i - 1);
      hide Inv;
      assert trace[i] == Step(trace[i - 1], ops[i - 1]);
      StepKeepsInv(trace[i - 1], ops[i - 1]);
    }
  }

  lemma HoldingsNonnegative(w: World)
    requires Inv(w)
    ensures w.readerBytes >= 0 && w.poolBytes >= 0
    ensures forall i :: 0 <= i < |w.leases| ==> 0 <= Holding(w.leases[i]) <= w.readerBytes
    ensures forall i :: 0 <= i < |w.members| ==> 0 <= UnitHolding(w.members[i]) <= w.poolBytes
  {
    forall l | l in w.leases ensures Holding(l) >= 0 {
      var i :| 0 <= i < |w.leases| && w.leases[i] == l;
      assert LeaseOk(w.leases[i], w.taken[i]);
    }
    forall u | u in w.members ensures UnitHolding(u) >= 0 {
      var i :| 0 <= i < |w.members| && w.members[i] == u;
      assert UnitOk(w.members[i]);
    }
    hide LeaseOk, UnitOk, Holding, UnitHolding;
    SumNonnegative(w.leases, Holding);
    SumNonnegative(w.members, UnitHolding);
    forall i | 0 <= i < |w.leases| ensures 0 <= Holding(w.leases[i]) <= w.readerBytes {
      SumAtLeast(w.leases, i, Holding);
    }
    forall i | 0 <= i < |w.members| ensures 0 <= UnitHolding(w.members[i]) <= w.poolBytes {
      SumAtLeast(w.members, i, UnitHolding);
    }
  }

  /** No release stops the process and the shared account never goes below zero. */
  lemma NoPanic(trace: seq<World>, ops: seq<Op>, i: nat)
    requires Run(trace, ops) && i < |ops|
    ensures !Panics(trace[i], ops[i])
  {
    var w, op := trace[i], ops[i];
    RunKeepsInv(trace, ops, i);
    RunKeepsInv(trace, ops, i + 1);
    HoldingsNonnegative(trace[i + 1]);
    if op.GiveEvent? {
      LeaseIs(w, op.i);
      ReleaseEventMoves(BudgetOf(w), w.leases[op.i], w.taken[op.i], op.k);
    } else if op.HoldLease? {
      LeaseIs(w, op.i);
    }
    hide Inv, LeaseOk, Step;
  }

  /** However much the readers hold, they leave the observer 96 MiB: a live unit's request that stays within it is
      granted, and so is a new unit while fewer than 18 live. */
  lemma ObserverHasItsShare(trace: seq<World>, ops: seq<Op>, i: nat, m: nat, bytes: nat)
    requires Run(trace, ops) && i < |trace|
    ensures var w := trace[i];
            && (m < |w.members| && w.members[m].refs > 0 && w.poolBytes + bytes <= 96 * MiB ==>
                  UnitReserve(PoolOf(w), w.members[m], bytes).2)
            && (w.units < MaxUnits && w.poolBytes + UnitBytes <= 96 * MiB ==> AcquireUnit(PoolOf(w)).Some?)
  {
    RunKeepsInv(trace, ops, i);
    HoldingsNonnegative(trace[i]);
    hide OwnersOk, Sum;
  }

  /** Once every lease and unit has been given back, every counter is zero again. */
  lemma AllReturned(trace: seq<World>, ops: seq<Op>, i: nat)
    requires Run(trace, ops) && i < |trace|
    requires forall l :: l in trace[i].leases ==> Idle(l)
    requires forall u :: u in trace[i].members ==> u.refs <= 0 && u.bytes == 0
    ensures var w := trace[i];
            w.readerBytes == w.readers == w.events == w.snapshots == w.poolBytes == w.units == w.copies == 0
  {
    var w := trace[i];
    RunKeepsInv(trace, ops, i);
    forall l | l in w.leases ensures Holding(l) == Live(l) == Queued(l) == Shot(l) == 0 {
      var k :| 0 <= k < |w.leases| && w.leases[k] == l;
      assert LeaseOk(w.leases[k], w.taken[k]);
    }
    forall u | u in w.members ensures UnitHolding(u) == UnitLive(u) == 0 {
      var k :| 0 <= k < |w.members| && w.members[k] == u;
      assert UnitOk(w.members[k]);
    }
    hide LeaseOk, UnitOk, Holding, Live, Queued, Shot, UnitHolding, UnitLive, Idle;
    SumZero(w.leases, Holding);
    SumZero(w.leases, Live);
    SumZero(w.leases, Queued);
    SumZero(w.leases, Shot);
    SumZero(w.members, UnitHolding);
    SumZero(w.members, UnitLive);
  }
}
