/** When automatic rotations are attempted: pressure arms a session, a cadence floor follows each success and a
    doubling backoff each failure. */
module RotationCadence {
  import opened Basics

  const Second: int := 1_000_000_000
  const Cadence := 60 * Second
  const RetryInitial := Second
  const RetryMaximum := 300 * Second

  datatype Pressure = Pressure(logical: int, logicalCap: int, physical: int, physicalCap: int)

  predicate RatioAtLeast(value: int, cap: int, numerator: int, denominator: int) {
    cap > 0 && value >= 0 && value * denominator >= cap * numerator
  }

  predicate RatioBelow(value: int, cap: int, numerator: int, denominator: int) {
    cap > 0 && value >= 0 && value * denominator < cap * numerator
  }

  /** Three quarters of either cap. */
  predicate High(p: Pressure) {
    RatioAtLeast(p.logical, p.logicalCap, 3, 4) || RatioAtLeast(p.physical, p.physicalCap, 3, 4)
  }

  /** Below three fifths of both caps. */
  predicate BelowLow(p: Pressure) {
    RatioBelow(p.logical, p.logicalCap, 3, 5) && RatioBelow(p.physical, p.physicalCap, 3, 5)
  }

  /** One session's cadence record. A missing time is the zero time; `serial` tells a record from a later one. */
  datatype State = State(serial: nat, key: nat, armed: bool, armedAt: int, lastSuccess: Option<int>,
                         nextAttempt: Option<int>, backoff: int)

  function New(serial: nat): State {
    State(serial, 0, false, 0, None, None, 0)
  }

  /** `at`, or the end of the quiet period after the last success if that is later. */
  function NotBefore(s: State, at: int): int {
    if s.lastSuccess.Some? && s.lastSuccess.value + Cadence > at then s.lastSuccess.value + Cadence else at
  }

  function Assessed(s: State, key: nat, p: Pressure, at: int): State {
    var t := s.(key := key);
    if High(p) then
      if t.armed then t else t.(armed := true, armedAt := at, backoff := 0, nextAttempt := Some(NotBefore(t, at)))
    else if t.armed && BelowLow(p) then t.(armed := false, backoff := 0, nextAttempt := None)
    else t
  }

  /** A resource was released: an armed session may retry at once, but not inside its quiet period. */
  function Eligible(s: State, at: int): State {
    if s.armed && s.nextAttempt.Some? && s.nextAttempt.value > NotBefore(s, at)
    then s.(nextAttempt := Some(NotBefore(s, at))) else s
  }

  function NextBackoff(backoff: int): int {
    if backoff == 0 then RetryInitial else Min(2 * backoff, RetryMaximum)
  }

  function Succeeded(s: State, at: int): State {
    s.(lastSuccess := Some(at), backoff := 0, nextAttempt := Some(at + Cadence))
  }

  function Deferred(s: State, at: int): State {
    s.(backoff := NextBackoff(s.backoff), nextAttempt := Some(at + NextBackoff(s.backoff)))
  }

  /** A session whose attempt may start at `at`: armed, its time come and its record's key still the active one. */
  predicate Due(states: map<nat, State>, active: map<nat, nat>, session: nat, at: int) {
    && session in states && states[session].armed
    && (states[session].nextAttempt.None? || states[session].nextAttempt.value <= at)
    && session in active && active[session] == states[session].key
  }

  /** Longest armed first, then by session. */
  predicate Before(states: map<nat, State>, a: nat, b: nat)
    requires a in states && b in states
  {
    states[a].armedAt < states[b].armedAt || (states[a].armedAt == states[b].armedAt && a <= b)
  }

  ghost predicate First(states: map<nat, State>, active: map<nat, nat>, session: nat, at: int) {
    Due(states, active, session, at) &&
    forall other :: other in states && Due(states, active, other, at) ==> Before(states, session, other)
  }

  // ---- The scheduler, explicit refits and the active keys --------------------------------------------------

  /** What the due test picked: only the session's name outlives its locked region. */
  datatype Choice = Choice(session: nat, at: int)

  /** The attempt under way: the record and key captured for it at `capturedAt`, after the due test at `at`. `begun`
      says that the rotation itself has been let in. */
  datatype Attempt = Attempt(session: nat, serial: nat, key: nat, at: int, capturedAt: int, begun: bool)

  /** Keys and serials are numbered as they are minted. `refits` maps each key an explicit refit's registry commit has
      published, and whose success is not recorded yet, to its session. */
  datatype World = World(states: map<nat, State>, active: map<nat, nat>, chosen: Option<Choice>,
                         attempt: Option<Attempt>, refits: map<nat, nat>, now: int, minted: nat, serials: nat) {
    /** The scheduler's one goroutine is past its due test. */
    predicate Busy() {
      chosen.Some? || attempt.Some?
    }
  }

  datatype Op =
    | Tick(to: int)
    | Activate(session: nat, key: nat)
    | Deactivate(session: nat)
    | Drop(session: nat)
    | Evaluate
    | Wake(at: int)
    | Assess(session: nat, key: nat, pressure: Pressure, at: int)
    | Choose(session: nat, at: int)
    | Capture
    | Begin
    | Finish(ok: bool, at: int)
    | Cancel
    | CommitRefit(session: nat)
    | RecordRefit(key: nat)
    | AbandonRefit(key: nat)

  /** One goroutine runs the scheduler, so its steps follow one another; its clock readings may be old. Refits run on
      their own: between any two of its steps one may publish its key or record its success. */
  ghost predicate Enabled(w: World, op: Op) {
    match op
    case Tick(to) => to >= w.now
    case Evaluate => !w.Busy()
    case Wake(at) => !w.Busy() && at <= w.now
    case Assess(_, _, _, at) => !w.Busy() && at <= w.now
    case Choose(session, at) => !w.Busy() && at <= w.now && First(w.states, w.active, session, at)
    case Capture => w.chosen.Some?
    case Begin => w.attempt.Some? && !w.attempt.value.begun
    case Finish(ok, at) => w.attempt.Some? && w.attempt.value.capturedAt <= at <= w.now && (ok ==> w.attempt.value.begun)
    case Cancel => w.attempt.Some?
    case RecordRefit(key) => key in w.refits
    case AbandonRefit(key) => key in w.refits
    case _ => true
  }

  function Step(w: World, op: Op): World {
    match op
    case Tick(to) => w.(now := to)
    case Activate(session, key) => w.(active := w.active[session := key], minted := Max(w.minted, key + 1))
    case Deactivate(session) => w.(active := w.active - {session})
    case Drop(session) => w.(states := w.states - {session})
    case Evaluate => w.(states := map s | s in w.states && s in w.active :: w.states[s])
    case Wake(at) => w.(states := map s | s in w.states :: Eligible(w.states[s], at))
    case Assess(session, key, pressure, at) =>
      if session !in w.active || w.active[session] != key then w
      else
        var s := if session in w.states then w.states[session] else New(w.serials);
        w.(states := w.states[session := Assessed(s, key, pressure, at)], serials := w.serials + 1)
    case Choose(session, at) => w.(chosen := Some(Choice(session, at)))
    case Capture => Captured(w)
    case Begin => if w.attempt.None? then w else w.(attempt := Some(w.attempt.value.(begun := true)))
    case Finish(ok, at) => FinishStep(w, ok, at)
    case Cancel => w.(attempt := None)
    case CommitRefit(session) =>
      w.(active := w.active[session := w.minted], refits := w.refits[w.minted := session], minted := w.minted + 1)
    case RecordRefit(key) =>
      if key !in w.refits then w else Recorded(w, w.refits[key], key).(refits := w.refits - {key})
    case AbandonRefit(key) => w.(refits := w.refits - {key})
  }

  /** The scheduler takes the lock again and captures the record and key the chosen session has by then. */
  function Captured(w: World): World {
    if w.chosen.None? then w
    else
      var c := w.chosen.value;
      if c.session !in w.states then w.(chosen := None)
      else
        var s := w.states[c.session];
        w.(chosen := None, attempt := Some(Attempt(c.session, s.serial, s.key, c.at, w.now, false)))
  }

  /** recordExplicitRefitSuccess: the refit's key and the completion-time cadence, in a new record if need be. */
  function Recorded(w: World, session: nat, key: nat): World {
    var s := if session in w.states then w.states[session] else New(w.serials);
    w.(states := w.states[session := Succeeded(s.(key := key), w.now)], serials := w.serials + 1)
  }

  /** Whether the session's record is still the one captured for the attempt, under the same key. */
  predicate Current(w: World) {
    w.attempt.Some? && var a := w.attempt.value;
    a.session in w.states && w.states[a.session].serial == a.serial && w.states[a.session].key == a.key
  }

  /** Settling counts only for the captured record, and a failure only while it carries the captured key. The
      completion time was read before the lock was taken. */
  function FinishStep(w: World, ok: bool, at: int): World {
    if w.attempt.None? then w
    else
      var a := w.attempt.value;
      var t := w.(attempt := None);
      if a.session !in w.states || w.states[a.session].serial != a.serial then t
      else
        var s := w.states[a.session];
        if ok then
          var done := Succeeded(s, at);
          t.(states := w.states[a.session := if a.session in w.active then done.(key := w.active[a.session]) else done])
        else if s.key == a.key then t.(states := w.states[a.session := Deferred(s, at)])
        else t
  }

  const Idle := World(map[], map[], None, None, map[], 0, 0, 0)

  // ---- What every run keeps --------------------------------------------------------------------------------

  /** An armed session has a next attempt, and retries are at most five minutes apart. */
  ghost predicate Paced(s: State) {
    (s.armed ==> s.nextAttempt.Some?) && (s.backoff == 0 || RetryInitial <= s.backoff <= RetryMaximum)
  }

  ghost predicate Inv(w: World) {
    && (forall s :: s in w.states ==>
          && Paced(w.states[s]) && w.states[s].serial < w.serials && w.states[s].key < w.minted
          && (w.states[s].lastSuccess.Some? ==> w.states[s].lastSuccess.value <= w.now))
    && (forall s :: s in w.active ==> w.active[s] < w.minted)
    && (w.chosen.Some? ==> w.chosen.value.at <= w.now && w.attempt.None?)
    && (w.attempt.Some? ==>
          && w.attempt.value.at <= w.attempt.value.capturedAt <= w.now
          && w.attempt.value.key < w.minted && w.attempt.value.serial < w.serials)
    && (forall key :: key in w.refits ==> key < w.minted)
  }

  lemma AssessedKeeps(s: State, key: nat, p: Pressure, at: int)
    requires Paced(s)
    ensures var t := Assessed(s, key, p, at);
            && Paced(t) && t.key == key && t.serial == s.serial && (Floor(s) ==> Floor(t)) && t.lastSuccess == s.lastSuccess
  {
    hide High, BelowLow;
  }

  lemma AssessedFloor(s: State, key: nat, p: Pressure, at: int)
    requires Floor(s)
    ensures Floor(Assessed(s, key, p, at))
  {
    hide High, BelowLow;
  }

  lemma AssessKeepsInv(w: World, op: Op)
    requires Inv(w) && op.Assess?
    ensures Inv(Step(w, op))
  {
    AssessedKeeps(if op.session in w.states then w.states[op.session] else New(w.serials), op.key, op.pressure, op.at);
    hide Assessed;
  }

  lemma RecordKeepsInv(w: World, session: nat, key: nat)
    requires Inv(w) && key < w.minted
    ensures Inv(Recorded(w, session, key)) && Recorded(w, session, key).minted == w.minted
  {
  }

  lemma FinishKeepsInv(w: World, ok: bool, at: int)
    requires Inv(w) && at <= w.now
    ensures Inv(FinishStep(w, ok, at))
  {
  }

  lemma StepKeepsInv(w: World, op: Op)
    requires Inv(w) && Enabled(w, op)
    ensures Inv(Step(w, op))
  {
    hide First, FinishStep, Recorded;
    match op {
      case Assess(_, _, _, _) => AssessKeepsInv(w, op);
      case Finish(ok, at) => FinishKeepsInv(w, ok, at);
      case RecordRefit(key) => RecordKeepsInv(w, w.refits[key], key);
      case _ => hide Assessed;
    }
  }

  ghost predicate Run(trace: seq<World>, ops: seq<Op>) {
    && |trace| == |ops| + 1 && trace[0] == Idle
    && forall i :: 0 <= i < |ops| ==> Enabled(trace[i], ops[i]) && trace[i + 1] == Step(trace[i], ops[i])
  }

  lemma {:induction false} RunKeepsInv(trace: seq<World>, ops: seq<Op>, i: nat)
    requires Run(trace, ops) && i < |trace|
    ensures Inv(trace[i])
  {
    if i > 0 {
      RunKeepsInv(trace, ops, i - 1);
      hide Inv, Enabled, Step;
      StepKeepsInv(trace[i - 1], ops[i - 1]);
    }
  }

  // ---- The cadence floor -----------------------------------------------------------------------------------

  /** An armed session waits out the quiet period after its recorded last success. */
  ghost predicate Floor(s: State) {
    s.armed && s.lastSuccess.Some? ==>
      s.nextAttempt.Some? && s.nextAttempt.value >= s.lastSuccess.value + Cadence
  }

  /** The scheduler's choice or attempt, and the record it is about. */
  ghost predicate About(w: World, session: nat, at: int) {
    if w.chosen.Some? then w.chosen.value == Choice(session, at) && session in w.states
    else Current(w) && w.attempt.value.session == session && w.attempt.value.at == at
  }

  /** What the scheduler chose or attempts was outside the quiet period of the success its record still carries. */
  ghost predicate ChoiceFloor(w: World) {
    forall session, at :: About(w, session, at) && w.states[session].lastSuccess.Some? ==>
      w.states[session].lastSuccess.value + Cadence <= at
  }

  ghost predicate Quiet(w: World) {
    forall s :: s in w.states ==> Floor(w.states[s])
  }

  ghost predicate Floors(w: World) {
    Quiet(w) && ChoiceFloor(w)
  }

  predicate Chosen(w: World, session: nat) {
    w.chosen.Some? && w.chosen.value.session == session
  }

  /** A refit records its success on the session the scheduler has chosen but not captured yet, or under the key of an
      attempt in flight on the same record. */
  predicate Clashes(w: World, op: Op) {
    && op.RecordRefit? && op.key in w.refits
    && var session := w.refits[op.key];
       || Chosen(w, session)
       || (&& w.attempt.Some? && w.attempt.value.session == session && w.attempt.value.key == op.key
           && session in w.states && w.states[session].serial == w.attempt.value.serial)
  }

  lemma AssessKeepsFloors(w: World, op: Op)
    requires Inv(w) && Enabled(w, op) && Floors(w) && op.Assess?
    ensures Floors(Step(w, op))
  {
    AssessedKeeps(if op.session in w.states then w.states[op.session] else New(w.serials), op.key, op.pressure, op.at);
    hide Assessed;
  }

  lemma FinishKeepsFloors(w: World, op: Op)
    requires Inv(w) && Enabled(w, op) && Floors(w) && op.Finish?
    ensures Floors(Step(w, op))
  {
    if Current(w) {
      assert About(w, w.attempt.value.session, w.attempt.value.at);
    }
  }

  lemma StepKeepsFloors(w: World, op: Op)
    requires Inv(w) && Enabled(w, op) && Floors(w) && !Clashes(w, op)
    ensures Floors(Step(w, op))
  {
    match op {
      case Assess(_, _, _, _) => AssessKeepsFloors(w, op);
      case Finish(_, _) => FinishKeepsFloors(w, op);
      case Choose(session, at) => assert Floor(w.states[session]);
      case Capture =>
        if w.chosen.value.session in w.states {
          assert About(w, w.chosen.value.session, w.chosen.value.at);
        }
      case Cancel =>
      case _ => if w.Busy() { MovesAbout(w, op); } hide First;
    }
  }

  lemma {:induction false} FloorsKept(trace: seq<World>, ops: seq<Op>, i: nat)
    requires Run(trace, ops) && i < |trace|
    requires forall k :: 0 <= k < i ==> !Clashes(trace[k], ops[k])
    ensures Floors(trace[i])
  {
    if i > 0 {
      FloorsKept(trace, ops, i - 1);
      RunKeepsInv(trace, ops, i - 1);
      hide Inv, Enabled, Step, Floors, Clashes;
      StepKeepsFloors(trace[i - 1], ops[i - 1]);
    }
  }

  /** In every run retries wait at least a second and at most five minutes. While no refit has recorded its success
      between an attempt's due test and its finish on the session or key it is about, an armed session's next attempt is
      never earlier than the cadence after its recorded last success, and none is found due earlier. */
  lemma CadenceKept(trace: seq<World>, ops: seq<Op>, i: nat, session: nat)
    requires Run(trace, ops) && i < |trace| && session in trace[i].states
    ensures var s := trace[i].states[session];
            && (s.armed ==> s.nextAttempt.Some?)
            && (s.backoff == 0 || RetryInitial <= s.backoff <= RetryMaximum)
            && ((forall k :: 0 <= k < i ==> !Clashes(trace[k], ops[k])) ==>
                  && (s.armed && s.lastSuccess.Some? ==> s.nextAttempt.value >= s.lastSuccess.value + Cadence)
                  && (i < |ops| && ops[i].Choose? && ops[i].session == session && s.lastSuccess.Some? ==>
                        s.lastSuccess.value + Cadence <= ops[i].at))
  {
    RunKeepsInv(trace, ops, i);
    assert Paced(trace[i].states[session]);
    if forall k :: 0 <= k < i ==> !Clashes(trace[k], ops[k]) {
      FloorsKept(trace, ops, i);
      assert Floor(trace[i].states[session]);
    }
    hide Inv, Step, Floors, Clashes;
  }

  // ---- The exact conditions ----------------------------------------------------------------------------------

  /** While the scheduler is busy, only a clash gives the record its choice or attempt is about a new success. */
  lemma MovesAbout(w: World, op: Op)
    requires Inv(w) && Enabled(w, op) && w.Busy() && !op.Choose? && !op.Finish? && !op.Cancel?
    ensures var t := Step(w, op);
            forall session, at :: About(t, session, at) ==>
              if Clashes(w, op) then t.states[session].lastSuccess == Some(w.now)
              else About(w, session, at) && t.states[session] == w.states[session]
  {
    hide First;
  }

  /** From the due test at `q` on, what the record it is about says of its last success: nothing newer than the floor
      allowed then, unless clashes came between, and then the time of the last one. */
  ghost predicate SinceChosen(trace: seq<World>, ops: seq<Op>, q: nat, k: nat)
    requires |trace| == |ops| + 1 && q < k <= |ops| && ops[q].Choose?
  {
    var session := ops[q].session;
    && (trace[k].chosen.Some? ==> trace[k].chosen.value == Choice(session, ops[q].at))
    && (trace[k].attempt.Some? ==> trace[k].attempt.value.session == session && trace[k].attempt.value.at == ops[q].at)
    && (About(trace[k], session, ops[q].at) ==>
          var last := trace[k].states[session].lastSuccess;
          && (forall c :: q < c < k && Clashes(trace[c], ops[c]) ==> last.Some? && trace[c].now <= last.value)
          && (last.Some? && last.value + Cadence > ops[q].at ==>
                exists c :: q < c < k && Clashes(trace[c], ops[c]) && trace[c].now == last.value))
  }

  /** The turn that began with the due test at `q` is not over before `k`. */
  ghost predicate SameTurn(ops: seq<Op>, q: nat, k: nat)
    requires q < k <= |ops|
  {
    ops[q].Choose? && forall n :: q < n < k ==> !ops[n].Choose? && !ops[n].Finish? && !ops[n].Cancel?
  }

  lemma {:induction false} ChosenHistory(trace: seq<World>, ops: seq<Op>, q: nat, k: nat)
    requires Run(trace, ops) && q < k <= |ops| && SameTurn(ops, q, k) && Floors(trace[q])
    ensures SinceChosen(trace, ops, q, k)
  {
    if k == q + 1 {
      assert trace[k] == Step(trace[q], ops[q]) && Enabled(trace[q], ops[q]);
      assert Floor(trace[q].states[ops[q].session]);
    } else {
      ChosenHistory(trace, ops, q, k - 1);
      RunKeepsInv(trace, ops, k - 1);
      hide Floors;
      forall c | q < c < k - 1 ensures trace[c].now <= trace[k - 1].now {
        TimeGrows(trace, ops, c, k - 1);
      }
      HistoryGrows(trace, ops, q, k - 1);
    }
  }

  lemma {:induction false} TimeGrows(trace: seq<World>, ops: seq<Op>, a: nat, b: nat)
    requires Run(trace, ops) && a <= b < |trace|
    ensures trace[a].now <= trace[b].now
  {
    if a < b {
      TimeGrows(trace, ops, a, b - 1);
      assert trace[b] == Step(trace[b - 1], ops[b - 1]) && Enabled(trace[b - 1], ops[b - 1]);
    }
  }

  lemma HistoryGrows(trace: seq<World>, ops: seq<Op>, q: nat, k: nat)
    requires |trace| == |ops| + 1 && q < k < |ops| && SameTurn(ops, q, k + 1) && SinceChosen(trace, ops, q, k)
    requires Inv(trace[k]) && Enabled(trace[k], ops[k]) && trace[k + 1] == Step(trace[k], ops[k])
    requires forall c :: q < c < k ==> trace[c].now <= trace[k].now
    ensures SinceChosen(trace, ops, q, k + 1)
  {
    var w := trace[k];
    TurnMoves(w, ops[k]);
    if w.Busy() {
      MovesAbout(w, ops[k]);
    }
    hide Inv, Enabled, Step, Clashes, Current;
  }

  /** A turn's choice becomes its attempt or nothing. */
  lemma TurnMoves(w: World, op: Op)
    requires Inv(w) && Enabled(w, op) && !op.Choose? && !op.Finish? && !op.Cancel?
    ensures var t := Step(w, op);
            && (t.chosen.Some? ==> t.chosen == w.chosen)
            && (t.attempt.Some? ==>
                  || (w.attempt.Some? && t.attempt.value == w.attempt.value.(begun := t.attempt.value.begun))
                  || (w.chosen.Some? && w.chosen.value == Choice(t.attempt.value.session, t.attempt.value.at)))
            && (!w.Busy() ==> !t.Busy())
  {
    hide First;
  }

  /** A refit records its success on the session, whatever its key. */
  predicate RecordsOn(w: World, op: Op, session: nat) {
    op.RecordRefit? && op.key in w.refits && w.refits[op.key] == session
  }

  /** From the due test at `q` on, the session's record says nothing newer of its last success than the floor allowed
      then, unless refits recorded theirs, and then the time of the last one. */
  ghost predicate SinceDue(trace: seq<World>, ops: seq<Op>, q: nat, k: nat)
    requires |trace| == |ops| + 1 && q < k <= |ops| && ops[q].Choose?
  {
    var session := ops[q].session;
    session in trace[k].states ==>
      var last := trace[k].states[session].lastSuccess;
      && (forall c :: q < c < k && RecordsOn(trace[c], ops[c], session) ==> last.Some? && trace[c].now <= last.value)
      && (last.Some? && last.value + Cadence > ops[q].at ==>
            exists c :: q < c < k && RecordsOn(trace[c], ops[c], session) && trace[c].now == last.value)
  }

  lemma {:induction false} DueHistory(trace: seq<World>, ops: seq<Op>, q: nat, k: nat)
    requires Run(trace, ops) && q < k <= |ops| && SameTurn(ops, q, k) && Floors(trace[q]) && trace[k].Busy()
    ensures SinceDue(trace, ops, q, k)
  {
    hide Floors, Enabled, Step, Inv;
    if k == q + 1 {
      DueIsQuiet(trace[q], ops[q]);
    } else {
      RunKeepsInv(trace, ops, k - 1);
      TurnMoves(trace[k - 1], ops[k - 1]);
      DueHistory(trace, ops, q, k - 1);
      forall c | q < c < k - 1 ensures trace[c].now <= trace[k - 1].now {
        TimeGrows(trace, ops, c, k - 1);
      }
      DueGrows(trace, ops, q, k - 1);
    }
  }

  /** A session found due is outside the quiet period of its recorded success. */
  lemma DueIsQuiet(w: World, op: Op)
    requires Enabled(w, op) && op.Choose? && Floors(w)
    ensures op.session in w.states && Step(w, op).states == w.states
    ensures var last := w.states[op.session].lastSuccess; last.Some? ==> last.value + Cadence <= op.at
  {
    assert Floor(w.states[op.session]);
  }

  lemma DueGrows(trace: seq<World>, ops: seq<Op>, q: nat, k: nat)
    requires |trace| == |ops| + 1 && q < k < |ops| && SameTurn(ops, q, k + 1) && SinceDue(trace, ops, q, k)
    requires Enabled(trace[k], ops[k]) && trace[k + 1] == Step(trace[k], ops[k]) && trace[k].Busy()
    requires forall c :: q < c < k ==> trace[c].now <= trace[k].now
    ensures SinceDue(trace, ops, q, k + 1)
  {
    BusyRecords(trace[k], ops[k], ops[q].session);
    hide Enabled, Step, RecordsOn;
  }

  /** While the scheduler is busy only a refit gives a session a new success, or a record. */
  lemma BusyRecords(w: World, op: Op, session: nat)
    requires Enabled(w, op) && w.Busy() && !op.Finish?
    ensures var t := Step(w, op);
            session in t.states ==>
              if RecordsOn(w, op, session) then t.states[session].lastSuccess == Some(w.now)
              else session in w.states && t.states[session] == w.states[session]
  {
    hide First;
  }

  /** An attempt's rotation begins inside the quiet period of its session if and only if a refit recorded its success
      on the session after the due test, and the rotation begins before that success's cadence is over. */
  lemma BeginsEarlyIff(trace: seq<World>, ops: seq<Op>, q: nat, i: nat)
    requires Run(trace, ops) && q < i < |ops| && SameTurn(ops, q, i) && ops[i].Begin? && Quiet(trace[q])
    requires ops[q].session in trace[i].states
    ensures var last := trace[i].states[ops[q].session].lastSuccess;
            last.Some? && trace[i].now < last.value + Cadence <==>
              exists c :: q < c < i && RecordsOn(trace[c], ops[c], ops[q].session) && trace[i].now < trace[c].now + Cadence
  {
    assert Enabled(trace[i], ops[i]) && Enabled(trace[q], ops[q]);
    DueHistory(trace, ops, q, i);
    ChosenHistory(trace, ops, q, i);
    RunKeepsInv(trace, ops, i);
    hide Floors, Step;
  }

  /** An attempt that fails leaves its session inside the quiet period if and only if, since its due test, a refit
      recorded its success on the session before the capture or under the captured key after it, so late that the retry
      comes before that success's cadence is over. */
  lemma FailureKeepsFloorIff(trace: seq<World>, ops: seq<Op>, q: nat, i: nat)
    requires Run(trace, ops) && q < i < |ops| && SameTurn(ops, q, i) && Quiet(trace[q])
    requires ops[i].Finish? && !ops[i].ok && Current(trace[i])
    requires trace[i].states[trace[i].attempt.value.session].armed
    ensures var session := ops[q].session;
            && trace[i].attempt.value.session == session && session in trace[i + 1].states
            && var retry := ops[i].at + NextBackoff(trace[i].states[session].backoff);
               && trace[i + 1].states[session].nextAttempt == Some(retry)
               && (Floor(trace[i + 1].states[session]) <==>
                     forall c :: q < c < i && Clashes(trace[c], ops[c]) ==> trace[c].now + Cadence <= retry)
  {
    assert Enabled(trace[q], ops[q]);
    ChosenHistory(trace, ops, q, i);
    RunKeepsInv(trace, ops, i);
    var w := trace[i];
    var session := w.attempt.value.session;
    assert trace[i + 1] == FinishStep(w, false, ops[i].at) && Enabled(w, ops[i]);
    assert Paced(w.states[session]);
    assert About(w, session, ops[q].at);
    hide Inv, Clashes, Floors;
  }

  /** A failing attempt breaks the quiet period: a clash in its turn came so late that the retry is too early. */
  ghost predicate Breaks(trace: seq<World>, ops: seq<Op>, i: nat)
    requires |trace| == |ops| + 1 && i < |ops|
  {
    && ops[i].Finish? && !ops[i].ok && Current(trace[i])
    && var s := trace[i].states[trace[i].attempt.value.session];
       && s.armed
       && exists q, c :: 0 <= q < c < i && SameTurn(ops, q, i) && Clashes(trace[c], ops[c]) &&
            ops[i].at + NextBackoff(s.backoff) < trace[c].now + Cadence
  }

  /** All along a run every armed session waits out the quiet period if and only if no failing attempt breaks it. */
  lemma {:induction false} QuietIff(trace: seq<World>, ops: seq<Op>, n: nat)
    requires Run(trace, ops) && n <= |ops|
    ensures (forall k :: 0 <= k <= n ==> Quiet(trace[k])) <==> (forall i :: 0 <= i < n ==> !Breaks(trace, ops, i))
  {
    hide Quiet, Breaks, Enabled, Step;
    assert |trace| == |ops| + 1;
    hide Run;
    if n == 0 {
      IdleIsQuiet(trace, ops);
    } else {
      QuietIff(trace, ops, n - 1);
      if forall k :: 0 <= k <= n - 1 ==> Quiet(trace[k]) {
        QuietOrBreaks(trace, ops, n - 1);
      }
    }
  }

  lemma IdleIsQuiet(trace: seq<World>, ops: seq<Op>)
    requires Run(trace, ops)
    ensures Quiet(trace[0])
  {
  }

  lemma QuietOrBreaks(trace: seq<World>, ops: seq<Op>, i: nat)
    requires Run(trace, ops) && i < |ops| && forall k :: 0 <= k <= i ==> Quiet(trace[k])
    ensures Quiet(trace[i + 1]) <==> !Breaks(trace, ops, i)
  {
    var w := trace[i];
    var op := ops[i];
    assert Enabled(w, op) && trace[i + 1] == Step(w, op);
    OthersStayQuiet(w, op);
    if op.Finish? && !op.ok && Current(w) && w.states[w.attempt.value.session].armed {
      var q := TurnBegan(trace, ops, i);
      var session := w.attempt.value.session;
      FailureKeepsFloorIff(trace, ops, q, i);
      assert Quiet(trace[i + 1]) <==> Floor(trace[i + 1].states[session]);
      hide Run, Enabled, Step, Floor, Clashes;
      if Breaks(trace, ops, i) {
        var p, c :| 0 <= p < c < i && SameTurn(ops, p, i) && Clashes(trace[c], ops[c]) &&
          op.at + NextBackoff(w.states[session].backoff) < trace[c].now + Cadence;
        FailureKeepsFloorIff(trace, ops, p, i);
      }
    }
  }

  /** Only a failing attempt on an armed session can end a quiet period early, and only that session's. */
  lemma OthersStayQuiet(w: World, op: Op)
    requires Enabled(w, op) && Quiet(w)
    ensures var t := Step(w, op);
            forall s :: s in t.states &&
                        !(op.Finish? && !op.ok && Current(w) && w.attempt.value.session == s && w.states[s].armed) ==>
              Floor(t.states[s])
  {
    if op.Assess? {
      var s := if op.session in w.states then w.states[op.session] else New(w.serials);
      AssessedFloor(s, op.key, op.pressure, op.at);
      hide Assessed;
    }
  }

  /** A busy scheduler's turn began with a due test. */
  lemma {:induction false} TurnBegan(trace: seq<World>, ops: seq<Op>, i: nat) returns (q: nat)
    requires Run(trace, ops) && i < |trace| && trace[i].Busy()
    ensures q < i && SameTurn(ops, q, i)
  {
    assert Enabled(trace[i - 1], ops[i - 1]) && trace[i] == Step(trace[i - 1], ops[i - 1]);
    RunKeepsInv(trace, ops, i - 1);
    hide Assessed, Eligible, Recorded, First, Run;
    if ops[i - 1].Choose? {
      q := i - 1;
    } else {
      q := TurnBegan(trace, ops, i - 1);
    }
  }

  /** An attempt that captured its record before the refit's commit published the key cannot clash with its record. */
  lemma {:induction false} ClashNeedsLateCapture(trace: seq<World>, ops: seq<Op>, c: nat, i: nat)
    requires Run(trace, ops) && c < i < |ops| && ops[c].CommitRefit? && Clashes(trace[i], ops[i])
    requires ops[i].key == trace[c].minted
    ensures trace[i].chosen.Some? || exists p :: c < p < i && ops[p].Capture?
  {
    if forall p :: c < p < i ==> !ops[p].Capture? {
      AttemptIsOlder(trace, ops, c, i);
    }
  }

  /** Without a capture since the commit, an attempt carries an older key. */
  lemma {:induction false} AttemptIsOlder(trace: seq<World>, ops: seq<Op>, c: nat, i: nat)
    requires Run(trace, ops) && c < |ops| && c <= i <= |ops| && ops[c].CommitRefit?
    requires forall p :: c < p < i ==> !ops[p].Capture?
    ensures trace[i].attempt.Some? ==> trace[i].attempt.value.key < trace[c].minted
  {
    if i == c {
      RunKeepsInv(trace, ops, i);
    } else {
      AttemptIsOlder(trace, ops, c, i - 1);
      hide Assessed, Eligible, Recorded, Deferred, Succeeded, First;
      assert trace[i] == Step(trace[i - 1], ops[i - 1]) && Enabled(trace[i - 1], ops[i - 1]);
    }
  }

  // ---- Successes do not go back --------------------------------------------------------------------------------

  /** An attempt settles a success it completed before a refit's success that its record already carries. */
  predicate Overtaken(w: World, op: Op) {
    && op.Finish? && op.ok && w.attempt.Some?
    && var a := w.attempt.value;
       && a.session in w.states && w.states[a.session].serial == a.serial
       && w.states[a.session].lastSuccess.Some? && op.at < w.states[a.session].lastSuccess.value
  }

  /** One record's last success goes back in a step exactly when it is overtaken by an older settlement. */
  lemma SuccessMoves(w: World, op: Op, session: nat)
    requires Inv(w) && Enabled(w, op) && session in Step(w, op).states
    requires Step(w, op).states[session].serial < w.serials
    ensures var t := Step(w, op);
            && session in w.states && w.states[session].serial == t.states[session].serial
            && (w.states[session].lastSuccess.Some? ==>
                  && t.states[session].lastSuccess.Some?
                  && (t.states[session].lastSuccess.value < w.states[session].lastSuccess.value <==>
                        Overtaken(w, op) && w.attempt.value.session == session))
  {
    hide First;
  }

  /** The record a session has at `b` is the one it had at `a`. */
  ghost predicate SameRecord(trace: seq<World>, a: nat, b: nat, session: nat)
    requires a <= b < |trace|
  {
    session in trace[a].states && session in trace[b].states &&
    trace[a].states[session].serial == trace[b].states[session].serial
  }

  lemma {:induction false} SuccessAdvances(trace: seq<World>, ops: seq<Op>, a: nat, b: nat, session: nat)
    requires Run(trace, ops) && a <= b < |trace| && SameRecord(trace, a, b, session)
    requires trace[a].states[session].lastSuccess.Some?
    requires forall k :: a <= k < b ==> !Overtaken(trace[k], ops[k])
    ensures var last := trace[b].states[session].lastSuccess;
            last.Some? && last.value >= trace[a].states[session].lastSuccess.value
  {
    hide Step, Enabled, Overtaken, Inv;
    if a < b {
      RecordIsOlder(trace, ops, a, b - 1, session);
      SuccessMoves(trace[b - 1], ops[b - 1], session);
      SuccessAdvances(trace, ops, a, b - 1, session);
    }
  }

  /** Records made later have later serials. */
  lemma RecordIsOlder(trace: seq<World>, ops: seq<Op>, a: nat, b: nat, session: nat)
    requires Run(trace, ops) && a <= b < |trace| && session in trace[a].states
    ensures Inv(trace[b]) && trace[a].states[session].serial < trace[b].serials
  {
    RunKeepsInv(trace, ops, a);
    RunKeepsInv(trace, ops, b);
    SerialsGrow(trace, ops, a, b);
    hide Step, Enabled;
  }

  lemma {:induction false} SerialsGrow(trace: seq<World>, ops: seq<Op>, a: nat, b: nat)
    requires Run(trace, ops) && a <= b < |trace|
    ensures trace[a].serials <= trace[b].serials
  {
    if a < b {
      SerialsGrow(trace, ops, a, b - 1);
      assert trace[b] == Step(trace[b - 1], ops[b - 1]);
    }
  }

  /** Without clashes and overtaken settlements an armed session waits out the quiet period after every success its
      record ever carried, not only the last. */
  lemma EverySuccessIsQuiet(trace: seq<World>, ops: seq<Op>, a: nat, i: nat, session: nat)
    requires Run(trace, ops) && a <= i < |trace| && SameRecord(trace, a, i, session)
    requires forall k :: 0 <= k < i ==> !Clashes(trace[k], ops[k]) && !Overtaken(trace[k], ops[k])
    requires trace[a].states[session].lastSuccess.Some? && trace[i].states[session].armed
    ensures trace[i].states[session].nextAttempt.Some?
    ensures trace[i].states[session].nextAttempt.value >= trace[a].states[session].lastSuccess.value + Cadence
  {
    SuccessAdvances(trace, ops, a, i, session);
    CadenceKept(trace, ops, i, session);
    hide Run, Clashes, Overtaken;
  }

  // ---- The three ways it fails -----------------------------------------------------------------------------------

  /** Session 0 armed under key 0 by a reading at its high mark. */
  const Armed := State(0, 0, true, 0, None, Some(0), 0)

  /** The runs begin alike: the session's first key, and its first reading. */
  function ArmingOp(n: nat): Op {
    if n == 0 then Activate(0, 0) else Assess(0, 0, Pressure(3, 4, 0, 0), 0)
  }

  function ArmingWorld(n: nat): World {
    match n
    case 0 => Idle
    case 1 => World(map[], map[0 := 0], None, None, map[], 0, 1, 0)
    case _ => World(map[0 := Armed], map[0 := 0], None, None, map[], 0, 1, 1)
  }

  lemma ArmingStep(n: nat)
    requires n < 2
    ensures Enabled(ArmingWorld(n), ArmingOp(n)) && ArmingWorld(n + 1) == Step(ArmingWorld(n), ArmingOp(n))
  {
  }

  function MidAttemptOp(n: nat): Op {
    match n
    case 0 => ArmingOp(0)
    case 1 => ArmingOp(1)
    case 2 => CommitRefit(0)
    case 3 => Assess(0, 1, Pressure(0, 0, 0, 0), 0)
    case 4 => Choose(0, 0)
    case 5 => Capture
    case 6 => RecordRefit(1)
    case _ => Finish(false, 0)
  }

  function MidAttemptWorld(n: nat): World {
    var rekeyed := Armed.(key := 1);
    var refitted := rekeyed.(lastSuccess := Some(0), nextAttempt := Some(Cadence));
    var attempt := Some(Attempt(0, 0, 1, 0, 0, false));
    match n
    case 0 => ArmingWorld(0)
    case 1 => ArmingWorld(1)
    case 2 => ArmingWorld(2)
    case 3 => World(map[0 := Armed], map[0 := 1], None, None, map[1 := 0], 0, 2, 1)
    case 4 => World(map[0 := rekeyed], map[0 := 1], None, None, map[1 := 0], 0, 2, 2)
    case 5 => World(map[0 := rekeyed], map[0 := 1], Some(Choice(0, 0)), None, map[1 := 0], 0, 2, 2)
    case 6 => World(map[0 := rekeyed], map[0 := 1], None, attempt, map[1 := 0], 0, 2, 2)
    case 7 => World(map[0 := refitted], map[0 := 1], None, attempt, map[], 0, 2, 3)
    case _ => World(map[0 := refitted.(backoff := Second, nextAttempt := Some(Second))], map[0 := 1], None, None, map[],
                    0, 2, 3)
  }

  lemma MidAttemptStep(n: nat)
    requires n < 8
    ensures Enabled(MidAttemptWorld(n), MidAttemptOp(n))
    ensures MidAttemptWorld(n + 1) == Step(MidAttemptWorld(n), MidAttemptOp(n))
  {
    if n < 2 {
      ArmingStep(n);
    } else {
      hide ArmingOp, ArmingWorld;
    }
  }

  /** A failure under the refit's key: the refit publishes its key; a reading that is neither high nor low gives the
      record that key; the scheduler chooses and captures it; the refit records its success; the attempt, refused
      because the refit holds the rotation, fails and asks for a retry one second later. */
  lemma RefitRecordedMidAttempt()
    ensures exists trace: seq<World>, ops: seq<Op> ::
              && Run(trace, ops) && |ops| == 8 && 0 in trace[8].states && trace[8].states[0].armed
              && trace[8].states[0].lastSuccess == Some(0) && trace[8].states[0].nextAttempt == Some(Second)
  {
    var trace := seq(9, n requires 0 <= n => MidAttemptWorld(n));
    var ops := seq(8, n requires 0 <= n => MidAttemptOp(n));
    forall i | 0 <= i < 8 ensures Enabled(trace[i], ops[i]) && trace[i + 1] == Step(trace[i], ops[i]) {
      MidAttemptStep(i);
    }
    hide Step, Enabled, MidAttemptOp;
    assert Run(trace, ops);
  }

  function BeforeCaptureOp(n: nat): Op {
    match n
    case 0 => ArmingOp(0)
    case 1 => ArmingOp(1)
    case 2 => Choose(0, 0)
    case 3 => CommitRefit(0)
    case 4 => RecordRefit(1)
    case 5 => Capture
    case 6 => Begin
    case _ => Finish(false, 0)
  }

  function BeforeCaptureWorld(n: nat): World {
    var refitted := Armed.(key := 1, lastSuccess := Some(0), nextAttempt := Some(Cadence));
    var chosen := Some(Choice(0, 0));
    match n
    case 0 => ArmingWorld(0)
    case 1 => ArmingWorld(1)
    case 2 => ArmingWorld(2)
    case 3 => World(map[0 := Armed], map[0 := 0], chosen, None, map[], 0, 1, 1)
    case 4 => World(map[0 := Armed], map[0 := 1], chosen, None, map[1 := 0], 0, 2, 1)
    case 5 => World(map[0 := refitted], map[0 := 1], chosen, None, map[], 0, 2, 2)
    case 6 => World(map[0 := refitted], map[0 := 1], None, Some(Attempt(0, 0, 1, 0, 0, false)), map[], 0, 2, 2)
    case 7 => World(map[0 := refitted], map[0 := 1], None, Some(Attempt(0, 0, 1, 0, 0, true)), map[], 0, 2, 2)
    case _ => World(map[0 := refitted.(backoff := Second, nextAttempt := Some(Second))], map[0 := 1], None, None, map[],
                    0, 2, 2)
  }

  lemma BeforeCaptureStep(n: nat)
    requires n < 8
    ensures Enabled(BeforeCaptureWorld(n), BeforeCaptureOp(n))
    ensures BeforeCaptureWorld(n + 1) == Step(BeforeCaptureWorld(n), BeforeCaptureOp(n))
  {
    if n < 2 {
      ArmingStep(n);
    } else {
      hide Assessed, ArmingOp, ArmingWorld;
    }
  }

  /** A failure between the two locked regions of a selection: the due test picks the session; a refit commits and
      records its success; only then are record and key captured, so the rotation begins inside the quiet period, and
      when it fails its retry comes one second later. */
  lemma RefitRecordedBeforeCapture()
    ensures exists trace: seq<World>, ops: seq<Op> ::
              && Run(trace, ops) && |ops| == 8 && 0 in trace[6].states && 0 in trace[8].states
              && ops[6].Begin? && trace[6].states[0].lastSuccess == Some(0) && trace[6].now == 0
              && trace[8].states[0].armed && trace[8].states[0].lastSuccess == Some(0)
              && trace[8].states[0].nextAttempt == Some(Second)
  {
    var trace := seq(9, n requires 0 <= n => BeforeCaptureWorld(n));
    var ops := seq(8, n requires 0 <= n => BeforeCaptureOp(n));
    forall i | 0 <= i < 8 ensures Enabled(trace[i], ops[i]) && trace[i + 1] == Step(trace[i], ops[i]) {
      BeforeCaptureStep(i);
    }
    hide Step, Enabled;
    assert Run(trace, ops);
  }

  function OvertakenOp(n: nat): Op {
    match n
    case 0 => ArmingOp(0)
    case 1 => ArmingOp(1)
    case 2 => Choose(0, 0)
    case 3 => Capture
    case 4 => Begin
    case 5 => Activate(0, 1)
    case 6 => CommitRefit(0)
    case 7 => Tick(59 * Second)
    case 8 => RecordRefit(2)
    case _ => Finish(true, 0)
  }

  function OvertakenWorld(n: nat): World {
    var refitted := Armed.(key := 2, lastSuccess := Some(59 * Second), nextAttempt := Some(119 * Second));
    var attempt := Some(Attempt(0, 0, 0, 0, 0, true));
    match n
    case 0 => ArmingWorld(0)
    case 1 => ArmingWorld(1)
    case 2 => ArmingWorld(2)
    case 3 => World(map[0 := Armed], map[0 := 0], Some(Choice(0, 0)), None, map[], 0, 1, 1)
    case 4 => World(map[0 := Armed], map[0 := 0], None, Some(Attempt(0, 0, 0, 0, 0, false)), map[], 0, 1, 1)
    case 5 => World(map[0 := Armed], map[0 := 0], None, attempt, map[], 0, 1, 1)
    case 6 => World(map[0 := Armed], map[0 := 1], None, attempt, map[], 0, 2, 1)
    case 7 => World(map[0 := Armed], map[0 := 2], None, attempt, map[2 := 0], 0, 3, 1)
    case 8 => World(map[0 := Armed], map[0 := 2], None, attempt, map[2 := 0], 59 * Second, 3, 1)
    case 9 => World(map[0 := refitted], map[0 := 2], None, attempt, map[], 59 * Second, 3, 2)
    case _ => World(map[0 := refitted.(lastSuccess := Some(0), nextAttempt := Some(Cadence))], map[0 := 2], None, None,
                    map[], 59 * Second, 3, 2)
  }

  lemma OvertakenStep(n: nat)
    requires n < 10
    ensures Enabled(OvertakenWorld(n), OvertakenOp(n))
    ensures OvertakenWorld(n + 1) == Step(OvertakenWorld(n), OvertakenOp(n))
  {
    if n < 2 {
      ArmingStep(n);
    } else {
      hide Assessed, ArmingOp, ArmingWorld;
    }
  }

  /** A success that goes back: an attempt succeeds and its completion is read; before it settles a refit commits and,
      59 seconds later, records its own success; the settlement then puts the older time in its place, and the next
      attempt may start one second after the refit. */
  lemma SettlementOvertaken()
    ensures exists trace: seq<World>, ops: seq<Op> ::
              && Run(trace, ops) && |ops| == 10 && 0 in trace[9].states && 0 in trace[10].states
              && trace[9].states[0].lastSuccess == Some(59 * Second) && trace[9].now == trace[10].now == 59 * Second
              && trace[10].states[0].armed && trace[10].states[0].nextAttempt == Some(60 * Second)
  {
    var trace := seq(11, n requires 0 <= n => OvertakenWorld(n));
    var ops := seq(10, n requires 0 <= n => OvertakenOp(n));
    forall i | 0 <= i < 10 ensures Enabled(trace[i], ops[i]) && trace[i + 1] == Step(trace[i], ops[i]) {
      OvertakenStep(i);
    }
    hide Step, Enabled;
    assert Run(trace, ops);
  }

  /** The two marks leave a gap, so one reading never asks for both. */
  lemma MarksApart(p: Pressure)
    ensures !(High(p) && BelowLow(p))
  {
  }

  /** A record is armed only by a reading at the high mark of its active key, and disarmed only by one below both low
      marks. */
  lemma ArmingNeedsPressure(w: World, op: Op, session: nat)
    requires Inv(w) && Enabled(w, op) && session in w.states && session in Step(w, op).states
    requires Step(w, op).states[session].armed != w.states[session].armed
    ensures op.Assess? && op.session == session && session in w.active && w.active[session] == op.key
    ensures if w.states[session].armed then BelowLow(op.pressure) else High(op.pressure)
  {
    hide High, BelowLow, Inv, Enabled;
  }

  /** Consecutive failures wait 1, 2, 4, ... seconds, and five minutes from the tenth on. */
  function Doubled(n: nat): int {
    if n == 0 then RetryInitial else 2 * Doubled(n - 1)
  }

  function Failures(n: nat): int {
    if n == 0 then 0 else NextBackoff(Failures(n - 1))
  }

  lemma {:induction false} BackoffDoubles(n: nat)
    ensures Doubled(n) >= RetryInitial && Failures(n + 1) == Min(Doubled(n), RetryMaximum)
  {
    if n > 0 {
      BackoffDoubles(n - 1);
    }
  }

  // ---- The timer -------------------------------------------------------------------------------------------

  /** The timer is set for the earliest armed attempt after `now`, and not at all when there is none. */
  ghost predicate TimerSet(states: map<nat, State>, now: int, due: Option<int>) {
    && (due.Some? ==> due.value > now && exists s :: s in states && states[s].armed && states[s].nextAttempt == due)
    && forall s :: s in states && states[s].armed && states[s].nextAttempt.Some? && states[s].nextAttempt.value > now ==>
                     due.Some? && due.value <= states[s].nextAttempt.value
  }

  /** A turn that finds nothing due leaves no armed session with its active key stranded: the timer fires no later than
      its next attempt. */
  lemma IdleTurnCovered(w: World, at: int, due: Option<int>, session: nat)
    requires Inv(w) && TimerSet(w.states, at, due)
    requires forall s :: !Due(w.states, w.active, s, at)
    requires session in w.states && session in w.active && w.states[session].armed
    requires w.active[session] == w.states[session].key
    ensures due.Some? && at < due.value <= w.states[session].nextAttempt.value
  {
    assert Paced(w.states[session]);
    assert !Due(w.states, w.active, session, at);
  }

  // ---- The scheduler object --------------------------------------------------------------------------------

  class Scheduler {
    var states: map<nat, State>
    var active: map<nat, nat>
    var chosen: Option<Choice>
    var attempt: Option<Attempt>
    var serials: nat
    var rotationDue: Option<int>
    var timer: Option<int>
    ghost var refits: map<nat, nat>
    ghost var minted: nat

    ghost function View(now: int): World
      reads this
    {
      World(states, active, chosen, attempt, refits, now, minted, serials)
    }

    /** The running timer fires when the stored due time says. */
    ghost predicate TimerOk()
      reads this
    {
      timer == rotationDue
    }

    constructor ()
      ensures View(0) == Idle && TimerOk()
    {
      states, active, chosen, attempt, refits, minted, serials := map[], map[], None, None, map[], 0, 0;
      rotationDue, timer := None, None;
    }

    method UpdatePressure(session: nat, key: nat, pressure: Pressure, at: int, ghost now: int)
      modifies this`states, this`serials
      ensures View(now) == Step(old(View(now)), Assess(session, key, pressure, at))
    {
      if session !in active || active[session] != key {
        return;
      }
      var state := New(serials);
      if session in states {
        state := states[session];
      }
      serials := serials + 1;
      state := state.(key := key);
      if High(pressure) {
        if !state.armed {
          var next := at;
          if state.lastSuccess.Some? && state.lastSuccess.value + Cadence > next {
            next := state.lastSuccess.value + Cadence;
          }
          state := state.(armed := true, armedAt := at, backoff := 0, nextAttempt := Some(next));
        }
      } else if state.armed && BelowLow(pressure) {
        state := state.(armed := false, backoff := 0, nextAttempt := None);
      }
      states := states[session := state];
    }

    method WakeEligible(at: int, ghost now: int)
      modifies this`states
      ensures View(now) == Step(old(View(now)), Wake(at))
    {
      var left := states.Keys;
      ghost var before := states;
      while left != {}
        invariant left <= before.Keys && states.Keys == before.Keys
        invariant forall s :: s in left ==> states[s] == before[s]
        invariant forall s :: s in before && s !in left ==> states[s] == Eligible(before[s], at)
      {
        var session :| session in left;
        var state := states[session];
        var eligibleAt := NotBefore(state, at);
        if state.armed && state.nextAttempt.Some? && state.nextAttempt.value > eligibleAt {
          states := states[session := state.(nextAttempt := Some(eligibleAt))];
        }
        left := left - {session};
      }
    }

    /** The longest armed due session. */
    method DueRotation(at: int) returns (due: Option<nat>)
      ensures due.Some? ==> First(states, active, due.value, at)
      ensures due.None? ==> forall s :: !Due(states, active, s, at)
    {
      due := None;
      var left := states.Keys;
      while left != {}
        invariant left <= states.Keys
        invariant due.Some? ==> Due(states, active, due.value, at)
        invariant forall s :: s in states && s !in left && Due(states, active, s, at) ==>
                                due.Some? && Before(states, due.value, s)
      {
        var session :| session in left;
        if Due(states, active, session, at) {
          if due.None? || !Before(states, due.value, session) {
            due := Some(session);
          }
        }
        left := left - {session};
      }
    }

    /** The due test's locked region keeps only the session it picked. */
    method ChooseDue(at: int, ghost now: int) returns (ok: bool)
      modifies this`chosen
      ensures ok ==> chosen.Some? && First(states, active, chosen.value.session, at)
      ensures ok ==> View(now) == Step(old(View(now)), Choose(chosen.value.session, at))
      ensures !ok ==> View(now) == old(View(now)) && forall s :: !Due(states, active, s, at)
    {
      var due := DueRotation(at);
      ok := due.Some?;
      if ok {
        chosen := Some(Choice(due.value, at));
      }
    }

    /** The second region captures the record and key of the chosen session, if it still has a record. */
    method CaptureAttempt(now: int) returns (ok: bool)
      requires chosen.Some?
      modifies this`chosen, this`attempt
      ensures View(now) == Step(old(View(now)), Capture) && (ok <==> old(chosen).value.session in states)
      ensures ok ==> var c := old(chosen).value;
                     attempt == Some(Attempt(c.session, states[c.session].serial, states[c.session].key, c.at, now, false))
    {
      var c := chosen.value;
      chosen := None;
      ok := c.session in states;
      if ok {
        attempt := Some(Attempt(c.session, states[c.session].serial, states[c.session].key, c.at, now, false));
      }
    }

    method FinishAttempt(ok: bool, completedAt: int, ghost now: int)
      requires attempt.Some?
      modifies this`states, this`attempt
      ensures View(now) == FinishStep(old(View(now)), ok, completedAt) && attempt.None?
      ensures var a := old(attempt).value;
              a.session in old(states) && old(states)[a.session].serial == a.serial &&
              (ok || old(states)[a.session].key == a.key) ==>
                && a.session in states
                && (ok ==> states[a.session].lastSuccess == Some(completedAt) &&
                           states[a.session].nextAttempt == Some(completedAt + Cadence))
                && (!ok ==> states[a.session].nextAttempt == Some(completedAt + states[a.session].backoff) &&
                            states[a.session].backoff == if old(states)[a.session].backoff == 0 then Second
                                                         else Min(2 * old(states)[a.session].backoff, 300 * Second))
    {
      var a := attempt.value;
      attempt := None;
      if a.session !in states {
        return;
      }
      var state := states[a.session];
      if state.serial == a.serial && (ok || state.key == a.key) {
        if ok {
          state := state.(lastSuccess := Some(completedAt), backoff := 0, nextAttempt := Some(completedAt + Cadence));
          if a.session in active {
            state := state.(key := active[a.session]);
          }
        } else {
          var backoff := RetryInitial;
          if state.backoff != 0 {
            backoff := 2 * state.backoff;
            if backoff > RetryMaximum {
              backoff := RetryMaximum;
            }
          }
          state := state.(backoff := backoff, nextAttempt := Some(completedAt + backoff));
        }
        states := states[a.session := state];
      }
    }

    method RecordExplicitRefitSuccess(session: nat, key: nat, now: int)
      modifies this`states, this`serials
      ensures View(now) == Recorded(old(View(now)), session, key)
      ensures session in states && states[session].key == key && states[session].lastSuccess == Some(now) &&
              states[session].nextAttempt == Some(now + Cadence)
    {
      var state := New(serials);
      if session in states {
        state := states[session];
      }
      state := state.(key := key, lastSuccess := Some(now), backoff := 0, nextAttempt := Some(now + Cadence));
      states := states[session := state];
      serials := serials + 1;
    }

    /** An unchanged due time leaves the running timer alone; a changed one replaces it. */
    method ArmTimer(now: int)
      requires TimerOk()
      modifies this`rotationDue, this`timer
      ensures TimerOk() && TimerSet(states, now, timer)
    {
      var due := EarliestAttempt(now);
      if due == rotationDue {
        return;
      }
      timer := None;
      rotationDue := due;
      if due.None? {
        return;
      }
      timer := due;
    }

    method EarliestAttempt(now: int) returns (due: Option<int>)
      ensures TimerSet(states, now, due)
    {
      due := None;
      var left := states.Keys;
      while left != {}
        invariant left <= states.Keys
        invariant due.Some? ==>
                    due.value > now && exists s :: s in states && states[s].armed && states[s].nextAttempt == due
        invariant forall s :: (s in states && s !in left && states[s].armed && states[s].nextAttempt.Some? &&
                               states[s].nextAttempt.value > now) ==>
                                due.Some? && due.value <= states[s].nextAttempt.value
      {
        var session :| session in left;
        var state := states[session];
        if state.armed && state.nextAttempt.Some? && state.nextAttempt.value > now {
          if due.None? || state.nextAttempt.value < due.value {
            due := state.nextAttempt;
          }
        }
        left := left - {session};
      }
    }
  }
}
