/** The state the retention runtime guards with its mutex, and each locked transition as a function.
    Go pointers to generations and reservations are indices into append-only sequences; the table
    holds the live generations. */
module Retention {
  import opened Basics
  import opened Credits
  import opened Journal

  /** An immutable physical source: two generations of one source share one account. */
  datatype SourceKey = SourceKey(id: nat)

  datatype Options = Options(maxCommands: int, maxEnvelopes: int, maxPanes: int, maxIngress: int, maxOutbox: int,
                             maxBatch: int, sourceRealm: bool, sourceLimit: Credit) {
    /** What the runtime's constructor accepts. */
    predicate Valid() {
      && maxPanes >= 1 && maxCommands >= 2 * maxPanes && maxEnvelopes >= 1 && maxBatch >= 1
      && maxIngress >= maxBatch && maxOutbox >= maxBatch
    }

    function Limit(): Credit {
      Credit(maxCommands, maxEnvelopes, maxPanes, maxIngress, maxOutbox)
    }

    /** The per-source check ignores the number of generations. */
    predicate FitsSource(usage: Credit) {
      && usage.commands <= sourceLimit.commands && usage.envelopes <= sourceLimit.envelopes
      && usage.ingress <= sourceLimit.ingress && usage.outbox <= sourceLimit.outbox
    }
  }

  /** `live` says the generation is still in the runtime's table. */
  datatype Generation = Generation(key: PaneKey, live: bool, admitted: bool, failed: bool, cleanupQueued: bool,
                                   cleanupSpent: bool, retireRequested: bool, durableRequested: bool, abandoned: bool,
                                   lifetimeReleased: bool, refs: int, pending: seq<nat>, usage: Credit,
                                   source: Option<SourceKey>)

  /** Who owns a reservation's command: its caller, the queue, the manager, nobody any more. */
  datatype Stage = Held | Queued | Processing | Done | Cancelled {
    /** The command still holds its credit. */
    predicate Pending() {
      Held? || Queued? || Processing?
    }

    /** The manager has taken the command: its parts may be published. */
    predicate Started() {
      Processing? || Done?
    }
  }

  /** `settled` counts parts the dispatcher has finished; `granted` and `refunded` are the credit history. */
  datatype Reservation = Reservation(generation: nat, q: int, e: int, b: int, o: int, parts: nat, doneParts: nat,
                                     released: bool, stage: Stage, settled: nat, granted: Credit, refunded: Credit)

  /** Rejected-output diagnostics and fences are one kind of control run. */
  datatype Command =
    | Ordinary(reservation: nat)
    | Cleanup(key: PaneKey)
    | CloseMarker
    | Control(bytes: nat, fenced: bool)

  /** One occurrence of a reservation in a published envelope; `payload` marks a feed, not an abort. */
  datatype Part = Part(reservation: nat, payload: bool)

  datatype State = State(options: Options, gens: seq<Generation>, table: map<PaneKey, nat>, res: seq<Reservation>,
                         used: Credit, accounts: map<SourceKey, Credit>, queue: seq<Command>, current: Option<Command>,
                         owed: multiset<PaneKey>, outbox: seq<Part>, closing: bool, closed: bool)

  datatype Refusal = Closed | Authority | SourceQuota | Exhausted(limit: Dimension)

  function Initial(options: Options): State {
    State(options, [], map[], [], Zero, map[], [], None, multiset{}, [], false, false)
  }

  const LifetimeCommands := Credit(2, 0, 0, 0, 0)
  const LifetimeRefund := Credit(-2, 0, 0, 0, 0)

  function NewGeneration(key: PaneKey, admitted: bool): Generation {
    Generation(key, true, admitted, false, false, false, false, false, false, false, 0, [], LifetimeCommands, None)
  }

  /** Envelopes one payload may need: two, plus seven for each batch it can be cut into. */
  function EnvelopeNeed(bytes: nat, batch: int): int
    requires batch > 0
  {
    2 + 7 * (if bytes > 0 then CeilDiv(bytes, batch) + 1 else 1)
  }

  /** What an unreleased reservation still holds. */
  function ChargeOf(r: Reservation): Credit {
    if r.released then Zero else Credit(r.q, r.e, 0, r.b, r.o)
  }

  function Charge(d: Dimension): Reservation -> int {
    (r: Reservation) => ChargeOf(r).Get(d)
  }

  function ChargeIn(g: nat, d: Dimension): Reservation -> int {
    (r: Reservation) => if r.generation == g then ChargeOf(r).Get(d) else 0
  }

  function Lifetime(d: Dimension): Generation -> int {
    (g: Generation) => if g.live then LifetimeShare(d) else 0
  }

  function Bound(k: SourceKey, d: Dimension): Generation -> int {
    (g: Generation) => if g.source == Some(k) then g.usage.(generations := 1).Get(d) else 0
  }

  /** The unreleased reservations of generation `g`, oldest first. */
  function PendingOf(res: seq<Reservation>, g: nat): seq<nat> {
    if res == [] then []
    else
      var last := |res| - 1;
      PendingOf(res[..last], g) + if res[last].generation == g && !res[last].released then [last] else []
  }

  /** `s` without the element `v`: what unlinking one node leaves of a list of distinct nodes. */
  function Remove(s: seq<nat>, v: nat): seq<nat> {
    if s == [] then []
    else
      var last := |s| - 1;
      Remove(s[..last], v) + if s[last] == v then [] else [s[last]]
  }

  function ChargeAccount(accounts: map<SourceKey, Credit>, source: Option<SourceKey>, delta: Credit):
    map<SourceKey, Credit>
  {
    if source.Some? && source.value in accounts then accounts[source.value := accounts[source.value].Plus(delta)]
    else accounts
  }

  /** sourceChargeLocked: the generation's own usage and, when bound, its source account move together. */
  function SourceCharge(s: State, g: nat, delta: Credit): State
    requires g < |s.gens|
  {
    var gen := s.gens[g];
    s.(gens := s.gens[g := gen.(usage := gen.usage.Plus(delta))],
       accounts := ChargeAccount(s.accounts, gen.source, delta))
  }

  /** Replace reservation `r` by `x`, moving the difference of their charges through every account and
      unlinking it from its generation's list when it becomes released. */
  function Settle(s: State, r: nat, x: Reservation): State
    requires r < |s.res| && s.res[r].generation < |s.gens| && x.generation == s.res[r].generation
  {
    var g := x.generation;
    var delta := ChargeOf(x).Minus(ChargeOf(s.res[r]));
    var gen := s.gens[g];
    var linked := if x.released && !s.res[r].released
                  then gen.(pending := Remove(gen.pending, r), refs := gen.refs - 1) else gen;
    SourceCharge(s.(res := s.res[r := x], used := s.used.Plus(delta), gens := s.gens[g := linked]), g, delta)
  }

  /** releaseSourceLocked: one generation fewer, and no account without generations. */
  function DropSource(accounts: map<SourceKey, Credit>, source: Option<SourceKey>): map<SourceKey, Credit> {
    if source.None? || source.value !in accounts then accounts
    else
      var left := accounts[source.value].generations - 1;
      if left == 0 then accounts - {source.value}
      else accounts[source.value := accounts[source.value].(generations := left)]
  }

  /** finishRetireLocked: return the lifetime credit once, leave the table, drop the source binding. */
  function FinishRetire(s: State, g: nat): State
    requires g < |s.gens|
  {
    var gen := s.gens[g];
    var s1 := if gen.lifetimeReleased then s
              else SourceCharge(s.(used := s.used.Adjust(-2, -1)), g, LifetimeRefund);
    var dead := s1.gens[g].(live := false, lifetimeReleased := true, source := None);
    var accounts := DropSource(s1.accounts, gen.source);
    s1.(gens := s1.gens[g := dead], table := s.table - {gen.key}, accounts := accounts)
  }

  /** tryRetireLocked. A durable retirement only reports that it is ready. */
  function TryRetire(s: State, g: nat): State
    requires g < |s.gens|
  {
    var gen := s.gens[g];
    if gen.refs != 0 || gen.usage.commands != 2 || !gen.retireRequested then s
    else if gen.failed && (!gen.cleanupQueued || !gen.cleanupSpent) then s
    else if gen.durableRequested then s
    else FinishRetire(s, g)
  }

  /** Add a generation to the table, funded by one generation and two commands. */
  function Create(s: State, key: PaneKey, admitted: bool): State {
    s.(gens := s.gens + [NewGeneration(key, admitted)], table := s.table[key := |s.gens|],
       used := s.used.Adjust(2, 1))
  }

  predicate RoomForGeneration(s: State) {
    s.used.generations < s.options.maxPanes && s.used.commands + 2 <= s.options.maxCommands
  }

  /** The reservation a successful reserve appends for generation `g`. */
  function Grant(s: State, g: nat, bytes: nat): State
    requires g < |s.gens| && s.options.maxBatch > 0
  {
    var e := EnvelopeNeed(bytes, s.options.maxBatch);
    var charge := Credit(1, e, 0, bytes, bytes);
    var taken := Reservation(g, 1, e, bytes, bytes, 1, 0, false, Held, 0, charge, Zero);
    var gen := s.gens[g];
    SourceCharge(
      s.(res := s.res + [taken], used := s.used.Plus(charge),
         gens := s.gens[g := gen.(pending := gen.pending + [|s.res|], refs := gen.refs + 1)]),
      g, charge)
  }

  /** Why the bounded pool refuses `bytes` for generation `g`, if it does. */
  function Shortage(s: State, g: nat, bytes: nat): Option<Refusal>
    requires g < |s.gens| && s.options.maxBatch > 0
  {
    var o := s.options;
    var gen := s.gens[g];
    var e := EnvelopeNeed(bytes, o.maxBatch);
    if o.sourceRealm && bytes > 0 && gen.source.None? then Some(SourceQuota)
    else if gen.source.Some? && gen.source.value in s.accounts &&
            !o.FitsSource(s.accounts[gen.source.value].Plus(Credit(1, e, 0, bytes, bytes))) then Some(SourceQuota)
    else if bytes > o.maxIngress || s.used.ingress + bytes > o.maxIngress then Some(Exhausted(Ingress))
    else if bytes > o.maxOutbox || s.used.outbox + bytes > o.maxOutbox then Some(Exhausted(Outbox))
    else if s.used.commands + 1 > o.maxCommands then Some(Exhausted(Commands))
    else if s.used.envelopes + e > o.maxEnvelopes then Some(Exhausted(Envelopes))
    else None
  }

  /** reserveWithAdmission. A refusal leaves the state as it was, whether or not the key was new. */
  function Reserve(s: State, key: PaneKey, bytes: nat, requireAdmitted: bool, requireExisting: bool):
    (r: (State, Result<nat, Refusal>))
    requires s.options.maxBatch > 0
    requires key in s.table ==> s.table[key] < |s.gens|
    ensures r.1.Err? ==> r.0 == s
  {
    if s.closing || s.closed then (s, Err(Closed))
    else if (requireExisting && key !in s.table) ||
            (requireAdmitted && (key !in s.table || !s.gens[s.table[key]].admitted)) then (s, Err(Authority))
    else if key !in s.table && !RoomForGeneration(s) then
      (s, Err(Exhausted(if s.used.generations >= s.options.maxPanes then Generations else Commands)))
    else
      var s1 := if key in s.table then s else Create(s, key, false);
      var g := s1.table[key];
      if s1.gens[g].abandoned || s1.gens[g].retireRequested then (s, Err(Authority))
      else
        var shortage := Shortage(s1, g, bytes);
        if shortage.Some? then (s, Err(shortage.value)) else (Grant(s1, g, bytes), Ok(|s.res|))
  }

  /** What a reservation needs: authority over its generation, and room for it in every counter and in its source's
      account. A new generation's two commands and its slot must fit too, and it belongs to no source yet. */
  predicate Grantable(s: State, key: PaneKey, bytes: nat, requireAdmitted: bool, requireExisting: bool)
    requires s.options.maxBatch > 0 && (key in s.table ==> s.table[key] < |s.gens|)
  {
    var o := s.options;
    var charge := Credit(1, EnvelopeNeed(bytes, o.maxBatch), 0, bytes, bytes);
    && !s.closing && !s.closed
    && bytes <= o.maxIngress && bytes <= o.maxOutbox
    && s.used.envelopes + charge.envelopes <= o.maxEnvelopes
    && s.used.ingress + bytes <= o.maxIngress && s.used.outbox + bytes <= o.maxOutbox
    && if key in s.table then
         var gen := s.gens[s.table[key]];
         && !gen.abandoned && !gen.retireRequested && (requireAdmitted ==> gen.admitted)
         && s.used.commands + 1 <= o.maxCommands
         && (o.sourceRealm && bytes > 0 ==> gen.source.Some?)
         && (gen.source.Some? && gen.source.value in s.accounts ==>
               o.FitsSource(s.accounts[gen.source.value].Plus(charge)))
       else
         && !requireAdmitted && !requireExisting && (o.sourceRealm ==> bytes == 0)
         && s.used.generations < o.maxPanes && s.used.commands + 3 <= o.maxCommands
  }

  /** A reservation is granted exactly when it is allowed and fits. It then holds one command, its envelopes and its
      bytes twice, is the newest of its generation's list, and nothing else moved but a new generation's funding. */
  lemma ReserveGrants(s: State, key: PaneKey, bytes: nat, requireAdmitted: bool, requireExisting: bool)
    requires s.options.maxBatch > 0 && (key in s.table ==> s.table[key] < |s.gens|)
    ensures var (t, answer) := Reserve(s, key, bytes, requireAdmitted, requireExisting);
            && (answer.Ok? <==> Grantable(s, key, bytes, requireAdmitted, requireExisting))
            && (answer.Ok? ==>
                  && answer.value == |s.res| && |t.res| == |s.res| + 1 && t.res[..|s.res|] == s.res
                  && key in t.table && t.table == s.table[key := t.table[key]] && t.table[key] < |t.gens|
                  && (key in s.table ==> t.table[key] == s.table[key] && |t.gens| == |s.gens|)
                  && t.res[|s.res|].generation == t.table[key] && t.res[|s.res|].stage.Held?
                  && t.gens[t.table[key]].pending
                       == (if key in s.table then s.gens[s.table[key]].pending else []) + [|s.res|]
                  && (forall d :: ChargeOf(t.res[|s.res|]).Get(d)
                        == Credit(1, EnvelopeNeed(bytes, s.options.maxBatch), 0, bytes, bytes).Get(d))
                  && (forall d :: t.used.Get(d) == s.used.Get(d) + ChargeOf(t.res[|s.res|]).Get(d)
                                                   + if key in s.table then 0 else LifetimeShare(d)))
  {
    hide EnvelopeNeed;
  }

  /** cancelReservation: the caller gives the whole reservation back. */
  function Cancel(s: State, r: nat): State
    requires r < |s.res| && s.res[r].generation < |s.gens|
  {
    var x := s.res[r];
    if x.released then s
    else
      var s1 := Settle(s, r, x.(released := true, stage := Cancelled, refunded := x.refunded.Plus(ChargeOf(x))));
      TryRetire(s1, x.generation)
  }

  /** releaseCompletedReservationLocked: payload credit returns once the command and every declared part are done. */
  function Complete(s: State, r: nat): State
    requires r < |s.res| && s.res[r].generation < |s.gens|
  {
    var x := s.res[r];
    if !x.released && x.q == 0 && x.doneParts >= x.parts
    then Settle(s, r, x.(released := true, refunded := x.refunded.Plus(ChargeOf(x))))
    else s
  }

  /** releaseCommand: the manager is done with the command. It looks at the command credit alone: that of a
      reservation cancelled whole would go back a second time. */
  function ReleaseCommand(s: State, r: nat): State
    requires r < |s.res| && s.res[r].generation < |s.gens|
  {
    var x := s.res[r];
    if x.q == 0 then s
    else
      var refund := Credit(x.q, 0, 0, 0, 0);
      var y := x.(q := 0, stage := Done, refunded := x.refunded.Plus(refund));
      var s1 := if x.released then Overdraw(s, r, y) else Settle(s, r, y);
      TryRetire(Complete(s1, r), x.generation)
  }

  /** The command credit of a released reservation, returned again. */
  function Overdraw(s: State, r: nat, y: Reservation): State
    requires r < |s.res| && s.res[r].generation < |s.gens| && y.generation == s.res[r].generation
  {
    var refund := Credit(-s.res[r].q, 0, 0, 0, 0);
    SourceCharge(s.(res := s.res[r := y], used := s.used.Plus(refund)), y.generation, refund)
  }

  /** completePart: the dispatcher settled one occurrence of the reservation. */
  function CompletePart(s: State, r: nat): State
    requires r < |s.res| && s.res[r].generation < |s.gens|
  {
    var x := s.res[r];
    if x.released then s.(res := s.res[r := x.(settled := x.settled + 1)])
    else
      var s1 := Settle(s, r, x.(doneParts := x.doneParts + 1, settled := x.settled + 1));
      TryRetire(Complete(s1, r), x.generation)
  }

  /** commitFaultLocked: install the failure and elect its one funded cleanup. A missing generation would be
      materialised with commands nobody funded a generation for. */
  function CommitFault(s: State, key: PaneKey): (r: (State, bool))
    requires key in s.table ==> s.table[key] < |s.gens|
  {
    var s1 := if key in s.table then s
              else Create(s, key, false).(used := s.used.Adjust(2, 0));
    var g := s1.table[key];
    if s1.gens[g].failed then (s1, false)
    else (s1.(gens := s1.gens[g := s1.gens[g].(failed := true, cleanupQueued := true)], owed := s1.owed + multiset{key}), true)
  }

  /** Rejected output joins a control run at the back of the queue, or starts one. */
  function PushRejected(queue: seq<Command>, bytes: nat): seq<Command> {
    if queue != [] && queue[|queue| - 1].Control?
    then queue[|queue| - 1 := Control(queue[|queue| - 1].bytes + bytes, queue[|queue| - 1].fenced)]
    else queue + [Control(bytes, false)]
  }

  /** startDispatchFence shares the control run at the back of the queue, or starts one. */
  function PushFence(queue: seq<Command>): seq<Command> {
    if queue != [] && queue[|queue| - 1].Control?
    then queue[|queue| - 1 := Control(queue[|queue| - 1].bytes, true)]
    else queue + [Control(0, true)]
  }

  /** How many cells the fixed ring has. */
  function RingCells(options: Options): int {
    2 * (options.maxCommands + options.maxPanes + 1) + 1
  }
}
