/** The transitions on one generation: exactly when each of them takes effect, and what it then changes. */
module RetentionEffects {
  import opened Basics
  import opened Credits
  import opened Journal
  import opened Retention
  import opened RetentionLedger
  import opened RetentionSteps
  import opened RetentionInvariant
  import opened RetentionRuns
  import opened RetentionReach
  import opened RetentionProgress

  /** Only generations, the table, the counters and the accounts may differ. */
  ghost predicate SameWork(s: State, t: State) {
    && t.options == s.options && t.res == s.res && t.queue == s.queue && t.current == s.current && t.outbox == s.outbox
    && t.owed == s.owed && t.closing == s.closing && t.closed == s.closed
  }

  /** The one generation `g` became `x`, or nothing changed but that. */
  ghost predicate OnlyGeneration(s: State, t: State, g: nat, x: Generation) {
    g < |s.gens| && SameWork(s, t) && t.gens == s.gens[g := x] && t.table == s.table && t.used == s.used &&
    t.accounts == s.accounts
  }

  ghost predicate Removed(s: State, t: State, g: nat) {
    && g < |s.gens| && Others(s, t, g) && !t.gens[g].live && t.gens[g].source.None?
    && t.table == s.table - {s.gens[g].key}
    && forall d :: t.used.Get(d) == s.used.Get(d) - LifetimeShare(d)
  }

  // ---- Creating, admitting and rolling back ------------------------------------------------------------------

  /** A key has a generation afterwards exactly when it had one or there was room before close, and a new one is as
      healthy as it was asked to be; an existing one is admitted on request unless it is failed, abandoned or retiring. */
  lemma EnsureIff(s: State, key: PaneKey, admitted: bool)
    requires Books(s) && !s.closed
    ensures key in s.table ==> s.table[key] < |s.gens|
    ensures var t := EnsureGeneration(s, key, admitted);
            && (key in t.table <==> key in s.table || (!s.closing && RoomForGeneration(s)))
            && SameWork(s, t)
            && (if key in s.table then
                  var gen := s.gens[s.table[key]];
                  var granted := admitted && !s.closing && !gen.abandoned && !gen.retireRequested && !gen.failed;
                  OnlyGeneration(s, t, s.table[key], gen.(admitted := gen.admitted || granted))
                else if key in t.table then
                  && t.table == s.table[key := |s.gens|] && |t.gens| == |s.gens| + 1 && t.gens[..|s.gens|] == s.gens
                  && t.gens[|s.gens|].live && (t.gens[|s.gens|].admitted <==> admitted)
                  && !t.gens[|s.gens|].failed && !t.gens[|s.gens|].retireRequested && t.gens[|s.gens|].refs == 0
                  && forall d :: t.used.Get(d) == s.used.Get(d) + LifetimeShare(d)
                else t == s)
  {
    TableKeys(s);
    hide Books;
    if key in s.table {
      var g := s.table[key];
      assert s.gens[g := s.gens[g]] == s.gens;
    }
  }

  /** A creator's rollback removes the generation exactly when it is neither admitted nor referred to. */
  lemma RollbackIff(s: State, key: PaneKey)
    requires Books(s) && !s.closed
    ensures key in s.table ==> s.table[key] < |s.gens|
    ensures var t := ReleaseGeneration(s, key);
            && SameWork(s, t)
            && (if key in s.table && !s.gens[s.table[key]].admitted && s.gens[s.table[key]].refs == 0
                then Removed(s, t, s.table[key]) else t == s)
  {
    TableKeys(s);
    if key in s.table {
      var g := s.table[key];
      assert !s.gens[g].lifetimeReleased;
      FinishRemoves(s, g);
      hide FinishRetire, Books;
      if !s.gens[g].admitted && s.gens[g].refs == 0 {
        RollbackRemoves(s, key, g);
      }
    }
  }

  lemma RollbackRemoves(s: State, key: PaneKey, g: nat)
    requires key in s.table && s.table[key] == g && g < |s.gens| && Removed(s, FinishRetire(s, g), g)
    requires !s.gens[g].admitted && s.gens[g].refs == 0
    ensures Removed(s, ReleaseGeneration(s, key), g) && SameWork(s, ReleaseGeneration(s, key))
  {
    hide ChargeAccount, DropSource, Credit.Plus;
  }

  /** An existing generation is admitted on request unless it is failed, abandoned or retiring. */
  lemma AdmitIff(s: State, key: PaneKey)
    requires Books(s) && !s.closed && key in s.table
    ensures s.table[key] < |s.gens|
    ensures var gen := s.gens[s.table[key]];
            OnlyGeneration(s, Admit(s, key), s.table[key],
                           gen.(admitted := gen.admitted || (!gen.abandoned && !gen.retireRequested && !gen.failed)))
  {
    TableKeys(s);
    var g := s.table[key];
    assert s.gens[g := s.gens[g]] == s.gens;
  }

  // ---- Faults and cleanups -----------------------------------------------------------------------------------

  /** A generation's first fault wins: it fails the generation and owes one cleanup. A later one changes nothing. A
      checked fault is the same for a key that has a generation, and the one meant if one is named. */
  lemma FaultElects(s: State, key: PaneKey, only: Option<nat>)
    requires Books(s) && !s.closed
    ensures key in s.table ==> s.table[key] < |s.gens|
    ensures var (t, winner) := FaultIfPresent(s, key, only);
            && (winner <==> key in s.table && (only.None? || only.value == s.table[key]) && !s.gens[s.table[key]].failed)
            && (if winner then
                  && t.gens == s.gens[s.table[key] := s.gens[s.table[key]].(failed := true, cleanupQueued := true)]
                  && t.owed == s.owed + multiset{key} && t == s.(gens := t.gens, owed := t.owed)
                else t == s)
    ensures key in s.table ==> CommitFault(s, key) == FaultIfPresent(s, key, None)
  {
    TableKeys(s);
  }

  /** The cleanup in hand is spent: its generation is marked, asked to retire, and gone unless something still refers
      to it or its journal's unlink is awaited. */
  lemma SpendIff(s: State, key: PaneKey)
    requires Books(s) && !s.closed && s.current == Some(Cleanup(key))
    ensures key in s.table ==> s.table[key] < |s.gens|
    ensures var t := SpendFaultCleanup(s, key);
            && t.current.None? && t.queue == s.queue && t.res == s.res && t.owed == s.owed
            && (if key in s.table then
                  var g := s.table[key];
                  && Others(s, t, g) && t.gens[g].cleanupSpent && t.gens[g].retireRequested
                  && (t.gens[g].live <==> s.gens[g].refs != 0 || s.gens[g].durableRequested)
                else t == s.(current := None))
  {
    TableKeys(s);
    if key in s.table {
      var g := s.table[key];
      SpentKeepsAccounting(s, g);
      hide Books, Accounting, TryRetire;
      var s1 := s.(current := None, gens := s.gens[g := s.gens[g].(cleanupSpent := true, retireRequested := true)]);
      RetiresWhenDue(s1, g);
      RetiringLeavesQueue(s1, g);
      RetiringLeavesWork(s1, g);
    }
  }

  lemma RetiringLeavesWork(s: State, g: nat)
    requires g < |s.gens|
    ensures SameWork(s, TryRetire(s, g))
  {
    hide ChargeAccount, DropSource, Credit.Plus;
  }

  // ---- Retirement --------------------------------------------------------------------------------------------

  /** A change of one generation's flags, and its retirement if that makes it due. */
  ghost predicate ChangedAndRetired(s: State, t: State, g: nat, x: Generation) {
    && g < |s.gens| && SameWork(s, t) && (if Due(x) then Removed(s, t, g) && SameFlags(t.gens[g], x)
                                          else OnlyGeneration(s, t, g, x))
  }

  lemma ChangeRetires(s: State, g: nat, x: Generation)
    requires Books(s) && !s.closed && g < |s.gens| && s.gens[g].live && x.live && FlagChange(s.gens[g], x)
    ensures ChangedAndRetired(s, TryRetire(s.(gens := s.gens[g := x]), g), g, x)
  {
    FlagsKeepAccounting(s, g, x);
    hide Books, Accounting, TryRetire;
    var s1 := s.(gens := s.gens[g := x]);
    RetiresWhenDue(s1, g);
    RetiringLeavesWork(s1, g);
  }

  /** A retirement request revokes admission and removes the generation as soon as it is due; so does revoking
      admission alone, if a retirement was requested before. */
  lemma RequestsRetire(s: State, key: PaneKey)
    requires Books(s) && !s.closed && key in s.table
    ensures s.table[key] < |s.gens|
    ensures var g := s.table[key];
            && ChangedAndRetired(s, AskRetire(s, key), g, s.gens[g].(retireRequested := true, admitted := false))
            && ChangedAndRetired(s, Unadmit(s, key), g, s.gens[g].(admitted := false))
  {
    TableKeys(s);
    var g := s.table[key];
    ChangeRetires(s, g, s.gens[g].(retireRequested := true, admitted := false));
    ChangeRetires(s, g, s.gens[g].(admitted := false));
  }

  /** A durable retirement holds the generation until its unlink settles; then it goes, if it was due otherwise. */
  lemma DurableIff(s: State, key: PaneKey)
    requires Books(s) && WellFormed(s) && !s.closed && key in s.table
    ensures var g := s.table[key];
            var marked := s.gens[g].(durableRequested := true);
            && OnlyGeneration(s, Apply(s, MarkDurable(key)), g, marked)
            && (if s.gens[g].durableRequested && Due(s.gens[g].(durableRequested := false))
                then Removed(s, SettleDurable(s, key), g) else SettleDurable(s, key) == s)
  {
    TableKeys(s);
    assert !s.gens[s.table[key]].lifetimeReleased;
    assert s.gens[s.table[key]].failed ==> s.gens[s.table[key]].cleanupQueued;
    hide Books;
    UnlinkRemoves(s, key, s.table[key]);
    hide SettleDurable;
  }

  lemma UnlinkRemoves(s: State, key: PaneKey, g: nat)
    requires key in s.table && s.table[key] == g && g < |s.gens| && !s.gens[g].lifetimeReleased && s.gens[g].key == key
    requires s.gens[g].failed ==> s.gens[g].cleanupQueued
    ensures if s.gens[g].durableRequested && Due(s.gens[g].(durableRequested := false))
            then Removed(s, SettleDurable(s, key), g) else SettleDurable(s, key) == s
  {
    hide FinishRetire, Removed;
    var x := s.gens[g].(durableRequested := false);
    FinishRemoves(s.(gens := s.gens[g := x]), g);
    RemovedSame(s, g, x, FinishRetire(s.(gens := s.gens[g := x]), g));
  }

  lemma FinishRemoves(s: State, g: nat)
    requires g < |s.gens| && !s.gens[g].lifetimeReleased
    ensures Removed(s, FinishRetire(s, g), g)
  {
    hide ChargeAccount, DropSource;
  }

  lemma RemovedSame(s: State, g: nat, x: Generation, t: State)
    requires g < |s.gens| && x.key == s.gens[g].key
    ensures Removed(s.(gens := s.gens[g := x]), t, g) ==> Removed(s, t, g)
  {
  }

  /** A rotation's abort is granted exactly when the predecessor is the exact one, admitted, healthy and not retiring,
      and the successor, if it was created and still has a generation, is the exact one and not admitted. Then that
      successor is abandoned and retires once due, and nothing else moves; a refusal changes nothing. */
  lemma AbortIff(s: State, oldKey: PaneKey, predecessor: nat, newKey: PaneKey, successor: nat, created: bool)
    requires Books(s) && WellFormed(s) && !s.closed
    ensures var (t, granted) := AbortRotation(s, oldKey, predecessor, newKey, successor, created);
            && (granted <==>
                  && oldKey in s.table && s.table[oldKey] == predecessor && s.gens[predecessor].admitted
                  && !s.gens[predecessor].retireRequested && !s.gens[predecessor].failed
                  && (created && newKey in s.table ==> s.table[newKey] == successor && !s.gens[successor].admitted))
            && (if granted && created && newKey in s.table
                then ChangedAndRetired(s, t, successor, s.gens[successor].(abandoned := true, retireRequested := true))
                else t == s)
  {
    TableKeys(s);
    if newKey in s.table && s.table[newKey] == successor {
      ChangeRetires(s, successor, s.gens[successor].(abandoned := true, retireRequested := true));
    }
    hide Books, TryRetire;
  }

  /** A rejected reservation is given back whole, and its generation asked to retire. */
  lemma RejectRevokes(s: State, r: nat)
    requires Books(s) && !s.closed && IsHeld(s, r)
    ensures var t := Reject(s, r);
            var g := s.res[r].generation;
            && r < |t.res| && t.res == s.res[r := t.res[r]] && t.res[r].released && t.res[r].stage.Cancelled?
            && Others(s, t, g) && !t.gens[g].admitted && t.gens[g].retireRequested
            && t.gens[g].refs == s.gens[g].refs - 1
  {
    InHand(s, r);
    hide Work, Limits;
    var g := s.res[r].generation;
    var x := s.gens[g].(admitted := false, retireRequested := true);
    FlagsKeepAccounting(s, g, x);
    hide Accounting, Cancel;
    CancelGivesBack(s.(gens := s.gens[g := x]), r);
  }

  // ---- Source accounts ---------------------------------------------------------------------------------------

  /** The account of a source takes the generation on: its usage joins, and one generation more is counted. */
  ghost predicate Joined(s: State, t: State, g: nat, source: SourceKey, before: Credit) {
    && g < |s.gens| && SameWork(s, t) && t.table == s.table && t.used == s.used
    && t.gens == s.gens[g := s.gens[g].(source := Some(source))]
    && t.accounts.Keys == s.accounts.Keys + {source}
    && (forall k :: k in s.accounts && k != source ==> t.accounts[k] == s.accounts[k])
    && forall d :: t.accounts[source].Get(d) ==
                     if d == Generations then before.generations + 1 else before.Get(d) + s.gens[g].usage.Get(d)
  }

  lemma AttachJoins(s: State, g: nat, source: SourceKey, before: Credit)
    requires g < |s.gens|
    ensures Joined(s, Attach(s, g, source, before), g, source, before)
  {
  }

  predicate Usable(gen: Generation) {
    !gen.failed && !gen.abandoned && gen.source.None?
  }

  /** A source is bound exactly when the generation is the exact one, usable and unbound, close has not begun, and the
      account exists or may be opened and has room for what the generation already uses. */
  lemma BindIff(s: State, key: PaneKey, generation: nat, source: SourceKey)
    requires Books(s) && !s.closed && s.options.sourceRealm
    ensures key in s.table ==> s.table[key] < |s.gens|
    ensures var before := if source in s.accounts then s.accounts[source] else Zero;
            var t := Bind(s, key, generation, source);
            if && key in s.table && s.table[key] == generation && !s.closing && Usable(s.gens[generation])
               && (source in s.accounts || |s.accounts| < s.options.maxPanes)
               && s.options.FitsSource(before.Plus(s.gens[generation].usage))
            then Joined(s, t, generation, source, before)
            else t == s
  {
    TableKeys(s);
    if key in s.table {
      assert !s.gens[s.table[key]].lifetimeReleased;
    }
    hide Books, Options.FitsSource, Attach, Joined, Credit.Plus;
    if key in s.table {
      AttachJoins(s, s.table[key], source, if source in s.accounts then s.accounts[source] else Zero);
    }
  }

  /** A successor inherits its predecessor's account exactly when the predecessor is bound, the successor is not, and
      the account has room for it. */
  lemma InheritIff(s: State, oldKey: PaneKey, newKey: PaneKey)
    requires Books(s) && WellFormed(s) && !s.closed && s.options.sourceRealm
    ensures var t := Inherit(s, oldKey, newKey);
            if && oldKey in s.table && newKey in s.table && s.gens[s.table[oldKey]].source.Some?
               && s.gens[s.table[newKey]].source.None?
               && s.gens[s.table[oldKey]].source.value in s.accounts
               && s.options.FitsSource(s.accounts[s.gens[s.table[oldKey]].source.value]
                                        .Plus(s.gens[s.table[newKey]].usage))
            then Joined(s, t, s.table[newKey], s.gens[s.table[oldKey]].source.value,
                        s.accounts[s.gens[s.table[oldKey]].source.value])
            else t == s
  {
    hide Books, Options.FitsSource, Attach, Joined, Credit.Plus;
    if newKey in s.table && oldKey in s.table && s.gens[s.table[oldKey]].source.Some? {
      var source := s.gens[s.table[oldKey]].source.value;
      if source in s.accounts {
        AttachJoins(s, s.table[newKey], source, s.accounts[source]);
      }
    }
  }

  // ---- The manager's and the dispatcher's hands ---------------------------------------------------------------

  /** A popped command is in the manager's hand, and its reservation in processing. */
  lemma PopTakes(s: State)
    requires Books(s) && WellFormed(s) && Enabled(s, Pop)
    ensures var t := Apply(s, Pop);
            && t.current == Some(s.queue[0]) && t.queue == s.queue[1..] && t.gens == s.gens && t.used == s.used
            && (if s.queue[0].Ordinary?
                then t.res == s.res[s.queue[0].reservation := s.res[s.queue[0].reservation].(stage := Processing)]
                else t.res == s.res)
  {
    hide Books;
  }

  /** Cutting declares the parts, publishing puts one occurrence behind the others, and a queued cleanup is no longer
      owed. */
  lemma PartsAndCleanups(s: State, op: Op)
    requires WellFormed(s) && Enabled(s, op) && (op.DeclareParts? || op.Publish? || op.AppendCleanup?)
    ensures var t := Apply(s, op);
            match op
            case DeclareParts(r, parts) => t == s.(res := s.res[r := s.res[r].(parts := parts)])
            case Publish(r, payload) => t == s.(outbox := s.outbox + [Part(r, payload)])
            case AppendCleanup(key) => t == s.(queue := s.queue + [Cleanup(key)], owed := s.owed - multiset{key})
            case _ => true
  {
  }

  /** Close begins once, behind everything queued before. It completes exactly when its marker is taken up from an
      otherwise empty queue; until then the marker goes to the back again. */
  lemma CloseCompletesIff(s: State)
    requires Books(s) && !s.closed
    ensures var t := StartClose(s);
            t.closing && !t.closed && t.queue == s.queue + if s.closing then [] else [CloseMarker]
    ensures var t := EndClose(s);
            && (t.closed <==> s.queue == []) && t.current.None? && t.res == s.res && t.gens == s.gens
            && t.queue == s.queue + if s.queue == [] then [] else [CloseMarker]
  {
  }

  /** A fence or a rejection joins the run at the back or starts one; either way the back of the queue then carries
      it, and every command in front of it stays where it was. */
  lemma RunCarries(s: State, bytes: nat)
    requires Books(s) && !s.closed && !s.closing
    ensures var run := if s.queue != [] && s.queue[|s.queue| - 1].Control? then s.queue[|s.queue| - 1] else Control(0, false);
            var front := if s.queue != [] && s.queue[|s.queue| - 1].Control? then s.queue[..|s.queue| - 1] else s.queue;
            && QueueFence(s).queue == front + [Control(run.bytes, true)]
            && QueueRejected(s, bytes).queue == front + [Control(run.bytes + bytes, run.fenced)]
            && QueueFence(s) == s.(queue := QueueFence(s).queue)
            && QueueRejected(s, bytes) == s.(queue := QueueRejected(s, bytes).queue)
  {
    hide Books;
  }
}
