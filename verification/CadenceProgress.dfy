/** What each locked region of the scheduler changes, by what it finds, and that an armed session is served. */
module CadenceProgress {
  import opened Basics
  import opened RotationCadence

  /** No session's record but one's changed. */
  ghost predicate OthersStay(w: World, t: World, session: nat) {
    forall s :: s != session ==> (s in t.states <==> s in w.states) && (s in w.states ==> t.states[s] == w.states[s])
  }

  // ---- Readings and wakes ------------------------------------------------------------------------------------

  /** A reading counts only under the session's active key. It then arms at the high mark, disarms below both low marks
      and otherwise leaves the arming alone. A session newly armed may be attempted at once, or at the end of the quiet
      period after its last success. */
  lemma ReadingOutcome(w: World, session: nat, key: nat, p: Pressure, at: int)
    ensures var t := Step(w, Assess(session, key, p, at));
            if session !in w.active || w.active[session] != key then t == w
            else
              && OthersStay(w, t, session) && session in t.states && t.states[session].key == key
              && var before := if session in w.states then w.states[session] else New(w.serials);
                 var s := t.states[session];
                 && s.serial == before.serial && s.lastSuccess == before.lastSuccess
                 && (s.armed <==> High(p) || (before.armed && !BelowLow(p)))
                 && (s.armed == before.armed ==> s == before.(key := key))
                 && (s.armed && !before.armed ==>
                       && s.armedAt == at && s.backoff == 0 && s.nextAttempt.Some? && s.nextAttempt.value >= at
                       && (s.lastSuccess.None? || s.lastSuccess.value + Cadence <= at ==> s.nextAttempt.value == at)
                       && (s.lastSuccess.Some? && s.lastSuccess.value + Cadence > at ==>
                             s.nextAttempt.value == s.lastSuccess.value + Cadence))
                 && (!s.armed && before.armed ==> s.nextAttempt.None? && s.backoff == 0)
  {
    MarksApart(p);
    hide High, BelowLow;
  }

  /** A released resource brings every armed session's next attempt forward to now, or to the end of its quiet period
      if that is later; it never puts one off and changes nothing else. */
  lemma WakeOutcome(w: World, at: int, session: nat)
    requires session in w.states
    ensures var t := Step(w, Wake(at));
            && t.states.Keys == w.states.Keys && t == w.(states := t.states)
            && var before, s := w.states[session], t.states[session];
               && s == before.(nextAttempt := s.nextAttempt)
               && (!before.armed || before.nextAttempt.None? ==> s == before)
               && (before.armed && before.nextAttempt.Some? ==>
                     && s.nextAttempt.Some? && s.nextAttempt.value <= before.nextAttempt.value
                     && (s.nextAttempt.value <= at ||
                         (before.lastSuccess.Some? && s.nextAttempt.value <= before.lastSuccess.value + Cadence))
                     && (s.nextAttempt.value < before.nextAttempt.value ==>
                           s.nextAttempt.value >= at &&
                           (before.lastSuccess.Some? ==> s.nextAttempt.value >= before.lastSuccess.value + Cadence)))
  {
  }

  /** An evaluation forgets exactly the sessions that have no active key. */
  lemma EvaluationOutcome(w: World)
    ensures var t := Step(w, Evaluate);
            && t == w.(states := t.states)
            && forall s :: (s in t.states <==> s in w.states && s in w.active) && (s in t.states ==> t.states[s] == w.states[s])
  {
  }

  // ---- Attempts ----------------------------------------------------------------------------------------------

  /** A capture turns the choice into an attempt on the record the session has by then, or into nothing when it has
      none. */
  lemma CaptureOutcome(w: World)
    requires w.chosen.Some?
    ensures var t := Step(w, Capture);
            var session := w.chosen.value.session;
            && t.chosen.None? && t.states == w.states && t == w.(chosen := None, attempt := t.attempt)
            && (session in w.states ==>
                  && t.attempt.Some? && t.attempt.value.session == session && !t.attempt.value.begun
                  && t.attempt.value.serial == w.states[session].serial && t.attempt.value.key == w.states[session].key
                  && t.attempt.value.at == w.chosen.value.at && t.attempt.value.capturedAt == w.now)
            && (session !in w.states ==> t.attempt == w.attempt)
  {
  }

  /** A finished attempt settles on its record only: a success is recorded with a whole cadence to wait, under the
      session's active key; a failure still under the captured key waits one second, or twice as long as the failure
      before, but no more than five minutes. */
  lemma FinishOutcome(w: World, ok: bool, at: int)
    requires w.attempt.Some?
    ensures var t := Step(w, Finish(ok, at));
            var a := w.attempt.value;
            && t.attempt.None? && t == w.(attempt := None, states := t.states) && OthersStay(w, t, a.session)
            && (if a.session in w.states && w.states[a.session].serial == a.serial && (ok || w.states[a.session].key == a.key) then
                  && a.session in t.states
                  && var before, s := w.states[a.session], t.states[a.session];
                     && s.armed == before.armed && s.armedAt == before.armedAt && s.serial == before.serial
                     && (ok ==> s.lastSuccess == Some(at) && s.nextAttempt == Some(at + Cadence) && s.backoff == 0 &&
                                s.key == (if a.session in w.active then w.active[a.session] else before.key))
                     && (!ok ==> s.lastSuccess == before.lastSuccess && s.key == before.key &&
                                 s.nextAttempt == Some(at + s.backoff) &&
                                 s.backoff == if before.backoff == 0 then Second else Min(2 * before.backoff, 300 * Second))
                else t.states == w.states)
  {
  }

  /** A refit that records its success starts its session's cadence, in a new record if it has none. */
  lemma RefitOutcome(w: World, key: nat)
    requires key in w.refits
    ensures var t := Step(w, RecordRefit(key));
            var session := w.refits[key];
            && OthersStay(w, t, session) && key !in t.refits && session in t.states
            && var s := t.states[session];
               && s.key == key && s.lastSuccess == Some(w.now) && s.nextAttempt == Some(w.now + Cadence) && s.backoff == 0
               && (s.armed <==> session in w.states && w.states[session].armed)
  {
  }

  // ---- Service -----------------------------------------------------------------------------------------------

  /** Of the sessions in `among` that are due, one was armed longest. */
  lemma LongestArmed(w: World, at: int, among: set<nat>) returns (first: nat)
    requires among != {} && forall s :: s in among ==> Due(w.states, w.active, s, at)
    ensures first in among && first in w.states
    ensures forall s :: s in among ==> s in w.states && Before(w.states, first, s)
    decreases among
  {
    first :| first in among;
    assert forall s :: s in among ==> s in w.states;
    var rest := among - {first};
    if rest != {} {
      var best := LongestArmed(w, at, rest);
      if !Before(w.states, first, best) {
        first := best;
      }
    }
  }

  /** While anything is due an idle scheduler can choose. */
  lemma SomeoneIsFirst(w: World, session: nat, at: int)
    requires Due(w.states, w.active, session, at) && !w.Busy() && at <= w.now
    ensures exists first :: First(w.states, w.active, first, at) && Enabled(w, Choose(first, at))
  {
    var due := set s | s in w.states && Due(w.states, w.active, s, at);
    assert session in due;
    var first := LongestArmed(w, at, due);
    assert First(w.states, w.active, first, at);
    assert Enabled(w, Choose(first, at));
  }

  /** A session armed by a reading at the high mark, under its active key and outside its quiet period, can be chosen
      once nobody armed longer is due; if its rotation succeeds its record says so, and its next attempt is a whole
      cadence away. */
  lemma PressureIsServed(w: World, session: nat, p: Pressure) returns (t: World)
    requires Inv(w) && !w.Busy() && session in w.active && High(p)
    requires session in w.states ==>
               !w.states[session].armed &&
               (w.states[session].lastSuccess.Some? ==> w.states[session].lastSuccess.value + Cadence <= w.now)
    requires forall s :: s != session ==> !Due(w.states, w.active, s, w.now)
    ensures var read := Step(w, Assess(session, w.active[session], p, w.now));
            var chosen := Step(read, Choose(session, w.now));
            var captured := Step(chosen, Capture);
            var begun := Step(captured, Begin);
            && Enabled(w, Assess(session, w.active[session], p, w.now)) && Enabled(read, Choose(session, w.now))
            && Enabled(chosen, Capture) && Enabled(captured, Begin) && Enabled(begun, Finish(true, w.now))
            && t == Step(begun, Finish(true, w.now))
    ensures !t.Busy() && session in t.states && t.states[session].armed
    ensures t.states[session].lastSuccess == Some(w.now) && t.states[session].nextAttempt == Some(w.now + Cadence)
  {
    var read := Step(w, Assess(session, w.active[session], p, w.now));
    ReadingOutcome(w, session, w.active[session], p, w.now);
    MarksApart(p);
    hide High, BelowLow, Assessed;
    assert Due(read.states, read.active, session, w.now);
    forall s | s in read.states && Due(read.states, read.active, s, w.now) ensures s == session {
      assert s != session ==> !Due(w.states, w.active, s, w.now);
    }
    var chosen := Step(read, Choose(session, w.now));
    CaptureOutcome(chosen);
    var begun := Step(Step(chosen, Capture), Begin);
    FinishOutcome(begun, true, w.now);
    t := Step(begun, Finish(true, w.now));
  }
}
