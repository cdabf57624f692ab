/** Where output goes and what each step of a rotation does with what is parked, by what it finds. */
module ParkingProgress {
  import opened Basics
  import opened Parking

  /** An event fits the buffer within a megabyte, and the buffer's first event needs its memory granted. */
  predicate Accepts(parked: nat, bytes: nat, granted: bool) {
    bytes == 0 || (parked + bytes <= 0x10_0000 && (parked > 0 || granted))
  }

  /** A refusal says which of the two it was, the cap first. */
  lemma RefusedIff(parked: nat, bytes: nat, granted: bool)
    ensures Refusal(parked, bytes, granted).None? <==> Accepts(parked, bytes, granted)
    ensures Refusal(parked, bytes, granted) == Some(PendingOverflow) <==> bytes > 0 && parked + bytes > 0x10_0000
  {
    CapsAgree(parked + bytes);
  }

  /** Every byte the observer reads is counted, and it goes to the predecessor before the flip and after a restore, to
      the successor after a commit, and while parked into the buffer if it is accepted; only a fatal end lets it go. */
  lemma OutputGoes(s: State, bytes: nat, granted: bool)
    requires Enabled(s, Output(bytes, granted))
    ensures var t := Apply(s, Output(bytes, granted));
            var data := Range(s.seen, s.seen + bytes);
            && t.seen == s.seen + bytes && t.phase == s.phase
            && t.predecessor == s.predecessor + (if s.phase.Flowing? || s.phase.Restored? then data else [])
            && t.successor == s.successor + (if s.phase.Committed? then data else [])
            && t.parked == s.parked + (if s.phase.Parked? && Accepts(|s.parked|, bytes, granted) then data else [])
  {
    RefusedIff(|s.parked|, bytes, granted);
    hide Refusal, WithinCaps;
    assert s.predecessor + [] == s.predecessor && s.successor + [] == s.successor && s.parked + [] == s.parked;
  }

  /** The first event refused is kept aside if the buffer is full and dropped if its memory is denied; a later one while
      the rotation settles is an error. */
  lemma RefusalGoes(s: State, bytes: nat, granted: bool)
    requires Enabled(s, Output(bytes, granted)) && s.phase.Parked? && !Accepts(|s.parked|, bytes, granted)
    ensures var t := Apply(s, Output(bytes, granted));
            if s.setback.Nothing? then
              && t.setback == (if |s.parked| + bytes > 0x10_0000 then Kept else Dropped) && t.failed == s.failed
              && t.refusedFrom == s.seen && t.refusedTo == t.seen
              && (t.setback.Kept? ==> t.extra == Range(s.seen, t.seen))
            else t.failed && t.setback == s.setback && t.extra == s.extra
  {
    RefusedIff(|s.parked|, bytes, granted);
    hide WithinCaps;
  }

  /** The rotation's own steps. A commit hands the successor all that was parked, behind what it had; a restore hands
      the predecessor all that was parked and then what was kept aside, unless an error was met while settling, and then
      everything held is let go. */
  lemma RotationGoes(s: State, op: Op)
    requires Enabled(s, op) && (op.Flip? || op.WriteBootstrap? || op.Commit? || op.Restore? || op.Fail?)
    ensures var t := Apply(s, op);
            && t.phase == (match op
                           case Flip => Parked
                           case Commit => Committed
                           case Restore => if s.failed then Dead else Restored
                           case Fail => Dead
                           case _ => s.phase)
            && t.successor == s.successor + (if op.Commit? then s.parked else if op.WriteBootstrap? then [Bootstrap] else [])
            && t.predecessor == s.predecessor + (if op.Restore? && !s.failed then s.parked + s.extra else [])
            && (op.Flip? ==> t.flipped == s.seen) && (op.WriteBootstrap? ==> t.bootstrapped)
            && (if op.Flip? || op.WriteBootstrap? then t.parked == s.parked && t.extra == s.extra
                else t.parked == [] && (op.Restore? || op.Fail? ==> t.extra == []))
  {
    assert s.predecessor + [] == s.predecessor && s.successor + [] == s.successor;
  }

  /** An event of output found the buffer unable to take it. */
  predicate Refuses(s: State, op: Op) {
    op.Output? && s.phase.Parked? && !Accepts(|s.parked|, op.bytes, op.granted)
  }

  lemma SetbackStep(s: State, op: Op)
    requires Enabled(s, op)
    ensures var t := Apply(s, op);
            && (t.setback.Nothing? <==> s.setback.Nothing? && !Refuses(s, op) && !op.CutShort?)
            && (t.failed <==> s.failed || (Refuses(s, op) && !s.setback.Nothing?))
            && (t.bootstrapped <==> s.bootstrapped || op.WriteBootstrap?)
  {
    if op.Output? {
      RefusedIff(|s.parked|, op.bytes, op.granted);
    }
    hide Refusal, Range, WithinCaps;
  }

  /** In every run a rotation that is parked may commit once its bootstrap is written if and only if no event found the
      buffer unable to take it; and a restore succeeds if and only if at most one did. */
  lemma {:induction false} CommitsIff(trace: seq<State>, ops: seq<Op>, i: nat)
    requires Run(trace, ops) && i < |trace|
    ensures trace[i].setback.Nothing? <==> forall k :: 0 <= k < i ==> !Refuses(trace[k], ops[k]) && !ops[k].CutShort?
    ensures trace[i].failed <==> exists k :: 0 <= k < i && Refuses(trace[k], ops[k]) && !trace[k].setback.Nothing?
    ensures trace[i].bootstrapped <==> WriteBootstrap in ops[..i]
    ensures trace[i].phase.Parked? ==>
              (Enabled(trace[i], Commit) <==>
                 WriteBootstrap in ops[..i] && forall k :: 0 <= k < i ==> !Refuses(trace[k], ops[k]) && !ops[k].CutShort?)
  {
    if i > 0 {
      CommitsIff(trace, ops, i - 1);
      assert Enabled(trace[i - 1], ops[i - 1]) && trace[i] == Apply(trace[i - 1], ops[i - 1]);
      SetbackStep(trace[i - 1], ops[i - 1]);
      assert ops[..i] == ops[..i - 1] + [ops[i - 1]];
    }
    hide Apply, Refuses, Run;
  }

  /** Whatever is output before the flip, and up to a megabyte of it after, a rotation can commit: the predecessor has
      the first part, the successor the bootstrap and the second. */
  lemma ParkedCommits(before: nat, after: nat) returns (trace: seq<State>, ops: seq<Op>)
    requires before > 0 && 0 < after <= 0x10_0000
    ensures Run(trace, ops) && |ops| == 5 && trace[5].phase.Committed?
    ensures trace[5].predecessor == Range(0, before) && trace[5].successor == [Bootstrap] + Range(before, before + after)
  {
    RefusedIff(0, after, true);
    hide Refusal;
    ops := [Output(before, true), Flip, Output(after, true), WriteBootstrap, Commit];
    var s1 := Apply(Start, ops[0]);
    var s2 := Apply(s1, Flip);
    var s3 := Apply(s2, ops[2]);
    var s4 := Apply(s3, WriteBootstrap);
    var s5 := Apply(s4, Commit);
    trace := [Start, s1, s2, s3, s4, s5];
    assert Range(0, 0) == [];
    assert s3.parked == Range(before, before + after) && s4.successor == [Bootstrap];
    assert Run(trace, ops);
  }
}
