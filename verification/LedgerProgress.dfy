/** Exactly when a frame is numbered and an outcome recorded, and that the reporter tells the page every outcome it can. */
module LedgerProgress {
  import opened Basics
  import opened InputLedger

  // ---- One step ----------------------------------------------------------------------------------------------

  /** A frame is numbered, next in order and unsettled, exactly while fewer than 1024 wait to be written back. */
  lemma NumberedIff(l: Ledger)
    ensures var (t, id) := Receive(l);
            if l.received - l.written < 1024 then
              id == Some(l.received + 1) && t.received == l.received + 1 && t.window == l.window + [Unsettled] &&
              t.reported == l.reported && t.written == l.written
            else id.None? && t == l
  {
  }

  /** An outcome is recorded, and the reporter will be told, exactly for a received frame that has none; every other
      frame keeps what it had. */
  lemma RecordedIff(w: World, id: nat, result: Outcome)
    requires Inv(w) && !result.Unsettled?
    ensures var t := Step(w, Decide(id, result));
            && |t.outcomes| == |w.outcomes| && t.said == w.said && t.phase == w.phase
            && (if 0 < id <= |w.outcomes| && w.outcomes[id - 1].Unsettled?
                then t.outcomes == w.outcomes[id - 1 := result] && t.signals == w.signals + 1
                else t == w)
  {
    var l := w.ledger;
    if l.reported < id <= l.received {
      assert l.window[id - l.reported - 1] == w.outcomes[id - 1];
    }
    hide Expand, Rising;
  }

  /** A take removes every settled frame at the front and no other, and its runs say those frames' outcomes. */
  lemma TakesPrefix(l: Ledger) returns (n: nat)
    ensures n <= |l.window| && (forall i :: 0 <= i < n ==> !l.window[i].Unsettled?)
    ensures n < |l.window| ==> l.window[n].Unsettled?
    ensures var (t, runs) := Take(l);
            && t == l.(window := l.window[n..], reported := l.reported + n)
            && Expand(l.reported, runs) == l.window[..n] && (runs == [] <==> n == 0)
  {
    n := Prefix(l.window);
    RunsExpand(l.reported, l.window[..n]);
    RunsAlternate(l.reported, l.window[..n]);
  }

  // ---- The reporter ------------------------------------------------------------------------------------------

  /** What the settlers and the reporter do on their own: no frame arrives and none is decided. */
  predicate Reports(op: Op) {
    op.Signal? || op.Wake? || op.TakeRuns? || op.WriteRun?
  }

  ghost predicate Leads(w: World, ops: seq<Op>, t: World)
    decreases |ops|
  {
    if ops == [] then w == t
    else Reports(ops[0]) && Enabled(w, ops[0]) && Leads(Step(w, ops[0]), ops[1..], t)
  }

  lemma {:induction false} LeadsOn(w: World, ops: seq<Op>, t: World, op: Op)
    requires Leads(w, ops, t) && Reports(op) && Enabled(t, op)
    ensures Leads(w, ops + [op], Step(t, op))
    decreases |ops|
  {
    hide Enabled, Step, Reports;
    if ops == [] {
      assert ([] + [op])[1..] == [];
    } else {
      LeadsOn(Step(w, ops[0]), ops[1..], t, op);
      assert (ops + [op])[1..] == ops[1..] + [op];
    }
  }

  /** The runs in hand are written, one after the other. */
  lemma {:induction false} Writes(w: World, ops: seq<Op>, t: World) returns (more: seq<Op>, u: World)
    requires Leads(w, ops, t) && Inv(t) && t.outcomes == w.outcomes && t.phase.Writing? && t.phase.runs != []
    ensures Leads(w, more, u) && Inv(u) && u.outcomes == w.outcomes && u.phase.Waiting?
    ensures u.ledger.written == u.ledger.reported == t.ledger.reported
    decreases |t.phase.runs|
  {
    hide Leads;
    StepKeepsInv(t, WriteRun);
    LeadsOn(w, ops, t, WriteRun);
    hide Inv;
    more, u := ops + [WriteRun], Step(t, WriteRun);
    if t.phase.runs[1..] != [] {
      more, u := Writes(w, more, u);
    } else {
      Settled(u);
    }
  }

  lemma Settled(w: World)
    requires Inv(w) && w.phase.Waiting?
    ensures w.ledger.written == w.ledger.reported && Counted(w) && Faithful(w) && Noticed(w)
  {
    AllWritten(w);
  }

  /** A waiting reporter that has something to report is woken, takes it and writes it. */
  lemma Turns(w: World, ops: seq<Op>, t: World) returns (more: seq<Op>, u: World)
    requires Leads(w, ops, t) && Inv(t) && t.outcomes == w.outcomes && t.phase.Waiting?
    requires t.ledger.reported < |t.outcomes| && !t.outcomes[t.ledger.reported].Unsettled?
    ensures Leads(w, more, u) && Inv(u) && u.outcomes == w.outcomes && u.phase.Waiting?
    ensures u.ledger.written == u.ledger.reported
    ensures u.ledger.reported < |u.outcomes| ==> u.outcomes[u.ledger.reported].Unsettled?
  {
    hide Leads;
    Settled(t);
    assert t.ledger.window[0] == t.outcomes[t.ledger.reported];
    more, u := ops, t;
    if !u.wake {
      StepKeepsInv(u, Signal);
      LeadsOn(w, more, u, Signal);
      more, u := more + [Signal], Step(u, Signal);
    }
    StepKeepsInv(u, Op.Wake);
    LeadsOn(w, more, u, Op.Wake);
    more, u := more + [Op.Wake], Step(u, Op.Wake);
    StepKeepsInv(u, TakeRuns);
    LeadsOn(w, more, u, TakeRuns);
    var n := TakesPrefix(u.ledger);
    assert n > 0;
    ghost var before := u;
    more, u := more + [TakeRuns], Step(u, TakeRuns);
    assert u.phase.Writing?;
    assert u.ledger.reported < |u.outcomes| ==> u.outcomes[u.ledger.reported] == before.ledger.window[n];
    hide Inv;
    more, u := Writes(w, more, u);
  }

  lemma {:induction false} NeverEmptyHanded(trace: seq<World>, ops: seq<Op>, i: nat)
    requires Run(trace, ops) && i < |trace|
    ensures trace[i].phase.Writing? ==> trace[i].phase.runs != []
  {
    if i > 0 {
      NeverEmptyHanded(trace, ops, i - 1);
      assert Enabled(trace[i - 1], ops[i - 1]) && trace[i] == Step(trace[i - 1], ops[i - 1]);
      hide Take, Settle, Receive;
    }
  }

  /** In every run, as long as the reporter has not ended, its own steps and the settlers' lead from there to where the
      page has read the outcome of every frame up to the first that is still unsettled. */
  lemma ReporterCatchesUp(trace: seq<World>, ops: seq<Op>, i: nat) returns (more: seq<Op>, t: World)
    requires Run(trace, ops) && i < |trace| && !trace[i].phase.Ended?
    ensures Leads(trace[i], more, t) && t.outcomes == trace[i].outcomes && t.said <= trace[i].outcomes
    ensures |t.said| < |trace[i].outcomes| ==> trace[i].outcomes[|t.said|].Unsettled?
  {
    var w := trace[i];
    RunKeepsInv(trace, ops, i);
    NeverEmptyHanded(trace, ops, i);
    more, t := [], w;
    if t.phase.Taking? {
      StepKeepsInv(t, TakeRuns);
      LeadsOn(w, more, t, TakeRuns);
      more, t := more + [TakeRuns], Step(t, TakeRuns);
    }
    hide Leads, Inv;
    if t.phase.Writing? {
      more, t := Writes(w, more, t);
    }
    Settled(t);
    if t.ledger.reported < |t.outcomes| && !t.outcomes[t.ledger.reported].Unsettled? {
      more, t := Turns(w, more, t);
      Settled(t);
    }
  }
}
