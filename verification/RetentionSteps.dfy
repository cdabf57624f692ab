/** The runtime as a state machine: every locked transition its callers, its manager and its dispatcher make,
    and when each of them makes it. */
module RetentionSteps {
  import opened Basics
  import opened Credits
  import opened Journal
  import opened Retention

  datatype Op =
    | Ensure(key: PaneKey, admitted: bool)
    | ReleaseUnadmitted(key: PaneKey)
    | Take(key: PaneKey, bytes: nat, requireAdmitted: bool, requireExisting: bool)
    | GiveBack(r: nat)
    | Submit(r: nat)
    | DeclareParts(r: nat, parts: nat)
    | RejectOutput(bytes: nat)
    | Fence
    | Close
    | Pop
    | Publish(r: nat, payload: bool)
    | Finish
    | FinishClose
    | Dispatch
    | Fault(key: PaneKey)
    | CheckedFault(key: PaneKey, only: Option<nat>)
    | AppendCleanup(key: PaneKey)
    | SpendCleanup
    | RequestRetire(key: PaneKey)
    | MarkDurable(key: PaneKey)
    | DurableSettled(key: PaneKey)
    | SettleAbort(oldKey: PaneKey, predecessor: nat, newKey: PaneKey, successor: nat, created: bool)
    | MarkAdmitted(key: PaneKey)
    | RestoreUnadmitted(key: PaneKey)
    | RejectReservation(r: nat)
    | BindSource(key: PaneKey, generation: nat, source: SourceKey)
    | InheritSource(oldKey: PaneKey, newKey: PaneKey)

  function PartOf(r: nat): Part -> bool {
    (p: Part) => p.reservation == r
  }

  /** Occurrences of `r` published so far: settled ones and those still in the outbox. */
  function Sent(s: State, r: nat): nat
    requires r < |s.res|
  {
    s.res[r].settled + Count(s.outbox, PartOf(r))
  }

  predicate Known(s: State, r: nat) {
    r < |s.res| && s.res[r].generation < |s.gens|
  }

  predicate IsHeld(s: State, r: nat) {
    Known(s, r) && s.res[r].stage.Held?
  }

  predicate IsStarted(s: State, r: nat) {
    Known(s, r) && s.res[r].stage.Started()
  }

  /** Its payload has not been cut into parts yet. */
  predicate IsUncut(s: State, r: nat) {
    Known(s, r) && (s.res[r].stage.Held? || s.res[r].stage.Processing?)
  }

  /** Where a fault is classified without looking at the table: by the manager on the command in its hand, by the
      dispatcher on the feed in its hand, or on a piece still waiting in a pane. */
  ghost predicate FaultSite(s: State, key: PaneKey) {
    || (s.current.Some? && s.current.value.Ordinary? && Concerns(s, s.current.value.reservation, key))
    || (s.outbox != [] && s.outbox[0].payload && Concerns(s, s.outbox[0].reservation, key))
    || (exists r :: 0 <= r < |s.res| && Waiting(s, r) && Concerns(s, r, key))
  }

  ghost predicate Concerns(s: State, r: nat, key: PaneKey) {
    r < |s.res| && s.res[r].generation < |s.gens| && s.gens[s.res[r].generation].key == key
  }

  /** Some declared piece of `r` has not been published yet. */
  predicate Waiting(s: State, r: nat)
    requires r < |s.res|
  {
    s.res[r].stage.Started() && Sent(s, r) < s.res[r].parts
  }

  /** When the source performs each transition. */
  ghost predicate Enabled(s: State, op: Op) {
    !s.closed &&
    match op
    case Ensure(_, _) => true
    case ReleaseUnadmitted(_) => true
    case Take(_, _, _, _) => true
    case GiveBack(r) => IsHeld(s, r)
    case Submit(r) => IsHeld(s, r)
    case DeclareParts(r, parts) => IsUncut(s, r) && Sent(s, r) == 0 && parts >= 1
    case RejectOutput(bytes) => bytes > 0
    case Fence => true
    case Close => true
    case Pop => s.current.None? && s.queue != []
    case Publish(r, payload) => IsStarted(s, r) && (payload ==> Sent(s, r) < s.res[r].parts)
    case Finish => s.current.Some? && (s.current.value.Ordinary? || s.current.value.Control?)
    case FinishClose => s.current == Some(CloseMarker)
    case Dispatch => s.outbox != []
    case Fault(key) => FaultSite(s, key)
    case CheckedFault(_, _) => true
    case AppendCleanup(key) => key in s.owed
    case SpendCleanup => s.current.Some? && s.current.value.Cleanup?
    case RequestRetire(_) => true
    case MarkDurable(_) => true
    case DurableSettled(_) => true
    case SettleAbort(_, _, _, _, _) => true
    case MarkAdmitted(_) => true
    case RestoreUnadmitted(_) => true
    case RejectReservation(r) => IsHeld(s, r)
    case BindSource(_, _, _) => true
    case InheritSource(_, _) => true
  }

  /** A rollback that removes a failed generation before its cleanup has run: the source looks only at admission
      and references. */
  predicate Strands(s: State, op: Op) {
    && op.ReleaseUnadmitted? && op.key in s.table && s.table[op.key] < |s.gens|
    && var gen := s.gens[s.table[op.key]];
       !gen.admitted && gen.refs == 0 && gen.failed && !gen.cleanupSpent
  }

  ghost predicate WellFormed(s: State) {
    && s.options.maxBatch > 0
    && (forall k :: k in s.table ==> s.table[k] < |s.gens|)
    && (forall r :: 0 <= r < |s.res| ==> s.res[r].generation < |s.gens|)
    && (forall i :: 0 <= i < |s.queue| && s.queue[i].Ordinary? ==> s.queue[i].reservation < |s.res|)
    && (s.current.Some? && s.current.value.Ordinary? ==> s.current.value.reservation < |s.res|)
    && (forall i :: 0 <= i < |s.outbox| ==> s.outbox[i].reservation < |s.res|)
  }

  /** ensureGeneration */
  function EnsureGeneration(s: State, key: PaneKey, admitted: bool): State
    requires key in s.table ==> s.table[key] < |s.gens|
  {
    if s.closing || s.closed then s
    else if key in s.table then
      var gen := s.gens[s.table[key]];
      if gen.abandoned || gen.retireRequested then s
      else if admitted && !gen.failed then s.(gens := s.gens[s.table[key] := gen.(admitted := true)])
      else s
    else if !RoomForGeneration(s) then s
    else Create(s, key, admitted)
  }

  /** releaseUnadmitted: remove a generation its creator no longer wants, whatever its failure state. Unlike a
      retirement it leaves the lifetime marker of the removed generation alone. */
  function ReleaseGeneration(s: State, key: PaneKey): State
    requires key in s.table ==> s.table[key] < |s.gens|
  {
    if key !in s.table || s.gens[s.table[key]].admitted || s.gens[s.table[key]].refs != 0 then s
    else
      var g := s.table[key];
      var t := FinishRetire(s, g);
      t.(gens := t.gens[g := t.gens[g].(lifetimeReleased := s.gens[g].lifetimeReleased)])
  }

  /** A caller that holds both locks faults a key only while its generation exists, or is the exact one it means. */
  function FaultIfPresent(s: State, key: PaneKey, only: Option<nat>): (State, bool)
    requires key in s.table ==> s.table[key] < |s.gens|
  {
    if key in s.table && (only.None? || only.value == s.table[key]) then CommitFault(s, key) else (s, false)
  }

  /** An ordinary command enters the queue unless close has begun; then its reservation is cancelled. */
  function SubmitOrdinary(s: State, r: nat): State
    requires r < |s.res| && s.res[r].generation < |s.gens|
  {
    if s.closing || s.closed then Cancel(s, r)
    else s.(res := s.res[r := s.res[r].(stage := Queued)], queue := s.queue + [Ordinary(r)])
  }

  function PopCommand(s: State): State
    requires s.queue != []
    requires s.queue[0].Ordinary? ==> s.queue[0].reservation < |s.res|
  {
    var c := s.queue[0];
    var s1 := s.(queue := s.queue[1..], current := Some(c));
    if c.Ordinary? then s1.(res := s.res[c.reservation := s.res[c.reservation].(stage := Processing)]) else s1
  }

  function QueueRejected(s: State, bytes: nat): State {
    if s.closing then s else s.(queue := PushRejected(s.queue, bytes))
  }

  function QueueFence(s: State): State {
    if s.closing then s else s.(queue := PushFence(s.queue))
  }

  function QueueCleanup(s: State, key: PaneKey): State {
    s.(owed := s.owed - multiset{key}, queue := s.queue + [Cleanup(key)])
  }

  function StartClose(s: State): State {
    if s.closing then s else s.(closing := true, queue := s.queue + [CloseMarker])
  }

  /** The manager re-queues the close marker while other commands still wait. */
  function EndClose(s: State): State {
    if s.queue != [] then s.(current := None, queue := s.queue + [CloseMarker])
    else s.(current := None, closed := true)
  }

  /** The dispatcher finishes the oldest published occurrence. */
  function DispatchPart(s: State): State
    requires s.outbox != [] && s.outbox[0].reservation < |s.res|
    requires s.res[s.outbox[0].reservation].generation < |s.gens|
  {
    CompletePart(s.(outbox := s.outbox[1..]), s.outbox[0].reservation)
  }

  /** processCleanup: the funded cleanup is spent and its generation asked to retire. */
  function SpendFaultCleanup(s: State, key: PaneKey): State
    requires key in s.table ==> s.table[key] < |s.gens|
  {
    var s1 := s.(current := None);
    if key !in s.table then s1
    else
      var g := s.table[key];
      TryRetire(s1.(gens := s1.gens[g := s1.gens[g].(cleanupSpent := true, retireRequested := true)]), g)
  }

  /** requestRetire: revoke admission and retire when nothing is pending. */
  function AskRetire(s: State, key: PaneKey): State
    requires key in s.table ==> s.table[key] < |s.gens|
  {
    if key !in s.table then s
    else
      var g := s.table[key];
      TryRetire(s.(gens := s.gens[g := s.gens[g].(retireRequested := true, admitted := false)]), g)
  }

  /** retireDurable's settled unlink finishes the retirement it was holding back. */
  function SettleDurable(s: State, key: PaneKey): State
    requires key in s.table ==> s.table[key] < |s.gens|
  {
    if key !in s.table then s
    else
      var g := s.table[key];
      var gen := s.gens[g];
      if gen.durableRequested && gen.refs == 0 && gen.retireRequested &&
         (!gen.failed || (gen.cleanupQueued && gen.cleanupSpent))
      then FinishRetire(s.(gens := s.gens[g := gen.(durableRequested := false)]), g) else s
  }

  /** settleRotationAbort: only an exact, live, abortable predecessor lets the successor be abandoned. */
  function AbortRotation(s: State, oldKey: PaneKey, predecessor: nat, newKey: PaneKey, successor: nat, created: bool):
    (State, bool)
    requires forall k :: k in s.table ==> s.table[k] < |s.gens|
  {
    if oldKey !in s.table || s.table[oldKey] != predecessor || !s.gens[predecessor].admitted ||
       s.gens[predecessor].retireRequested || s.gens[predecessor].failed then (s, false)
    else if !created || newKey !in s.table then (s, true)
    else if s.table[newKey] != successor || s.gens[successor].admitted then (s, false)
    else
      (TryRetire(s.(gens := s.gens[successor := s.gens[successor].(abandoned := true, retireRequested := true)]),
                 successor), true)
  }

  /** markAdmittedLocked */
  function Admit(s: State, key: PaneKey): State
    requires key in s.table ==> s.table[key] < |s.gens|
  {
    if key !in s.table then s
    else
      var gen := s.gens[s.table[key]];
      if gen.abandoned || gen.retireRequested || gen.failed then s
      else s.(gens := s.gens[s.table[key] := gen.(admitted := true)])
  }

  /** restoreUnadmitted */
  function Unadmit(s: State, key: PaneKey): State
    requires key in s.table ==> s.table[key] < |s.gens|
  {
    if key !in s.table then s
    else
      var g := s.table[key];
      TryRetire(s.(gens := s.gens[g := s.gens[g].(admitted := false)]), g)
  }

  /** rejectReservation's fallback: revoke the generation and give the reservation back. */
  function Reject(s: State, r: nat): State
    requires r < |s.res| && s.res[r].generation < |s.gens|
  {
    var g := s.res[r].generation;
    Cancel(s.(gens := s.gens[g := s.gens[g].(admitted := false, retireRequested := true)]), r)
  }

  /** bindSource, once its generation is ensured: join or open the source's account if its limits allow. */
  function Bind(s: State, key: PaneKey, generation: nat, source: SourceKey): State
    requires key in s.table ==> s.table[key] < |s.gens|
  {
    if key !in s.table || s.table[key] != generation || s.closing || s.closed || !s.options.sourceRealm then s
    else
      var gen := s.gens[s.table[key]];
      if gen.failed || gen.abandoned || gen.lifetimeReleased || gen.source.Some? then s
      else if source !in s.accounts && |s.accounts| >= s.options.maxPanes then s
      else
        var account := if source in s.accounts then s.accounts[source] else Zero;
        if !s.options.FitsSource(account.Plus(gen.usage)) then s
        else Attach(s, s.table[key], source, account)
  }

  function Attach(s: State, g: nat, source: SourceKey, account: Credit): State
    requires g < |s.gens|
  {
    var joined := account.Plus(s.gens[g].usage).(generations := account.generations + 1);
    s.(accounts := s.accounts[source := joined], gens := s.gens[g := s.gens[g].(source := Some(source))])
  }

  /** inheritSourceLocked: a provisional successor borrows its predecessor's account. */
  function Inherit(s: State, oldKey: PaneKey, newKey: PaneKey): State
    requires forall k :: k in s.table ==> s.table[k] < |s.gens|
  {
    if oldKey !in s.table || newKey !in s.table || !s.options.sourceRealm then s
    else
      var source := s.gens[s.table[oldKey]].source;
      var gen := s.gens[s.table[newKey]];
      if source.None? || gen.source.Some? || source.value !in s.accounts then s
      else if !s.options.FitsSource(s.accounts[source.value].Plus(gen.usage)) then s
      else Attach(s, s.table[newKey], source.value, s.accounts[source.value])
  }

  function Apply(s: State, op: Op): State
    requires WellFormed(s) && Enabled(s, op)
  {
    match op
    case Ensure(key, admitted) => EnsureGeneration(s, key, admitted)
    case ReleaseUnadmitted(key) => ReleaseGeneration(s, key)
    case Take(key, bytes, requireAdmitted, requireExisting) => Reserve(s, key, bytes, requireAdmitted, requireExisting).0
    case GiveBack(r) => Cancel(s, r)
    case Submit(r) => SubmitOrdinary(s, r)
    case DeclareParts(r, parts) => s.(res := s.res[r := s.res[r].(parts := parts)])
    case RejectOutput(bytes) => QueueRejected(s, bytes)
    case Fence => QueueFence(s)
    case Close => StartClose(s)
    case Pop => PopCommand(s)
    case Publish(r, payload) => s.(outbox := s.outbox + [Part(r, payload)])
    case Finish =>
      var s1 := s.(current := None);
      if s.current.value.Ordinary? then ReleaseCommand(s1, s.current.value.reservation) else s1
    case FinishClose => EndClose(s)
    case Dispatch => DispatchPart(s)
    case Fault(key) => CommitFault(s, key).0
    case CheckedFault(key, only) => FaultIfPresent(s, key, only).0
    case AppendCleanup(key) => QueueCleanup(s, key)
    case SpendCleanup => SpendFaultCleanup(s, s.current.value.key)
    case RequestRetire(key) => AskRetire(s, key)
    case MarkDurable(key) =>
      if key in s.table then s.(gens := s.gens[s.table[key] := s.gens[s.table[key]].(durableRequested := true)]) else s
    case DurableSettled(key) => SettleDurable(s, key)
    case SettleAbort(oldKey, p, newKey, n, created) => AbortRotation(s, oldKey, p, newKey, n, created).0
    case MarkAdmitted(key) => Admit(s, key)
    case RestoreUnadmitted(key) => Unadmit(s, key)
    case RejectReservation(r) => Reject(s, r)
    case BindSource(key, generation, source) => Bind(s, key, generation, source)
    case InheritSource(oldKey, newKey) => Inherit(s, oldKey, newKey)
  }
}
