/** What publication, the writer's turns and catch-up rounds get done for a subscriber, and exactly what can end one. */
module SubscriberProgress {
  import opened Basics
  import opened Journal
  import opened RecordingTail
  import opened SubscriberStream

  // ---- Publication -----------------------------------------------------------------------------------------

  /** A present subscriber that has been given everything before `e` and does not read on its own. */
  predicate InStep(sub: Subscriber, e: Event) {
    sub.registered && !sub.tail.catchingUp && !sub.done && sub.cursor + 1 == e.sequence
  }

  predicate HasRoom(sub: Subscriber, e: Event) {
    sub.charged + EventBytes()(e) <= TailBytes
  }

  /** The event is the newest of the subscriber's queue, charged to it, and the subscriber is in step behind it. */
  predicate Handed(sub: Subscriber, t: Subscriber, e: Event) {
    && t.registered && t.tail.events == sub.tail.events + [e] && !t.tail.catchingUp && t.tail.wake
    && t.cursor == e.sequence && t.charged == sub.charged + EventBytes()(e)
    && t.consumer == sub.consumer && t.given == sub.given && t.verdict == sub.verdict
  }

  /** The subscriber stays, with what it has, and is told to read the rest from the journal. */
  predicate SentToCatchUp(sub: Subscriber, t: Subscriber) {
    && t.registered && t.tail.catchingUp && t.tail.Ready() && t.tail.events == sub.tail.events
    && t.cursor == sub.cursor && t.charged == sub.charged && t.consumer == sub.consumer && t.verdict == sub.verdict
  }

  /** The subscriber is gone and its queue is refunded, with or without a typed reason. */
  predicate Ended(t: Subscriber, verdict: Option<Reason>, limit: Option<Limit>) {
    !t.registered && t.tail.closed && t.tail.events == [] && t.verdict == verdict && t.limit == limit
  }

  /** A subscriber in step gets the event if its queue and its lease have room, stays and catches up if either has
      not, and is evicted only when its lease is detached. One whose attachment is done leaves; anyone else is left
      alone. */
  lemma OfferOutcome(s: Pane, k: nat, refusal: Option<Limit>)
    requires Inv(s) && s.published < |s.journal| && k < |s.subs|
    requires refusal in {None, Some(ReaderBytes), Some(Detached)}
    ensures var e := s.journal[s.published];
            var sub := s.subs[k];
            var t := Offer(sub, e, refusal);
            if sub.registered && !sub.tail.catchingUp && sub.cursor < e.sequence then
              if sub.done then Ended(t, sub.verdict, sub.limit)
              else InStep(sub, e) &&
                   if refusal == Some(Detached) then Ended(t, Some(SubscriberLagged), Some(Detached))
                   else if refusal.None? && HasRoom(sub, e) then Handed(sub, t, e)
                   else SentToCatchUp(sub, t)
            else t == sub
  {
    hide AllocationCharge;
    assert SubOk(s.journal, s.published, s.subs[k]);
  }

  // ---- What ends a subscriber --------------------------------------------------------------------------------

  /** The steps that remove subscriber `k`: its own cancellation; a publication that finds its attachment done, or its
      lease detached while it is in step; a refused catch-up read short of the frontier; and a close of them all. */
  predicate Removes(s: Pane, op: Op, k: nat)
    requires k < |s.subs|
  {
    var sub := s.subs[k];
    match op
    case Cancel(i) => i == k
    case CloseAll(_) => true
    case PublishNext(refusals) =>
      && k < |refusals| && s.published < |s.journal| && !sub.tail.catchingUp
      && sub.cursor < s.journal[s.published].sequence && (sub.done || refusals[k] == Some(Detached))
    case ReadRound(i, refusal, _, _) => i == k && refusal.Some? && sub.delivered.sequence < |s.journal|
    case _ => false
  }

  /** What a step makes of one subscriber already in the table. */
  ghost function SubAfter(s: Pane, op: Op, k: nat): Subscriber
    requires Enabled(s, op) && k < |s.subs|
  {
    var sub := s.subs[k];
    match op
    case PublishNext(refusals) => Offer(sub, s.journal[s.published], refusals[k])
    case Take(i) => if i == k then Receive(sub) else sub
    case Awake(i) => if i == k then sub.(tail := Wake(sub.tail), consumer := Looking) else sub
    case WriteReturns(i, ok) => if i == k then Wrote(sub, ok) else sub
    case ReadRound(i, refusal, n, _) =>
      if i == k && sub.delivered.sequence + n <= |s.journal| then CatchUpRound(sub, s.journal, refusal, n) else sub
    case SeeVerdict(i) => if i == k then sub.(consumer := Stopped) else sub
    case MarkDone(i) => if i == k then sub.(done := true) else sub
    case Cancel(i) => if i == k then Remove(sub) else sub
    case CloseAll(reason) => CloseTyped(sub, reason)
    case _ => sub
  }

  /** A step touches one subscriber, a publication or a close each of them for itself. */
  lemma StepIsLocal(s: Pane, op: Op, k: nat)
    requires Enabled(s, op) && k < |s.subs|
    ensures k < |Apply(s, op).subs| && Apply(s, op).subs[k] == SubAfter(s, op, k)
    ensures Apply(s, op).journal == if op.Commit? then s.journal + [op.e] else s.journal
  {
    hide Offer, Receive, Wrote, Remove, CloseTyped, CatchUpRound;
    if op.ReadRound? {
      RunInRange(s.journal, s.subs[op.i].delivered, CatchUpReadBytes, op.indexBytes, op.k);
    }
    hide LongestRun;
  }

  lemma StepRemoves(s: Pane, op: Op, k: nat)
    requires Inv(s) && Enabled(s, op) && k < |s.subs|
    ensures k < |Apply(s, op).subs|
    ensures Apply(s, op).subs[k].registered <==> s.subs[k].registered && !Removes(s, op, k)
  {
    StepIsLocal(s, op, k);
    hide Apply, SubAfter, Removes, Inv, Enabled;
    if op.PublishNext? {
      PublicationRemoves(s, op, k);
    } else if op.ReadRound? {
      RoundRemoves(s, op, k);
    } else {
      OtherRemoves(s, op, k);
    }
  }

  lemma PublicationRemoves(s: Pane, op: Op, k: nat)
    requires Inv(s) && Enabled(s, op) && k < |s.subs| && op.PublishNext?
    ensures SubAfter(s, op, k).registered <==> s.subs[k].registered && !Removes(s, op, k)
  {
    hide AllocationCharge, LongestRun;
    OfferOutcome(s, k, op.refusals[k]);
    hide Offer, Inv, SubOk;
  }

  lemma RoundRemoves(s: Pane, op: Op, k: nat)
    requires Inv(s) && Enabled(s, op) && k < |s.subs| && op.ReadRound?
    ensures SubAfter(s, op, k).registered <==> s.subs[k].registered && !Removes(s, op, k)
  {
    hide AllocationCharge, LongestRun;
    if op.i == k {
      RunFits(s, op, k);
    }
    hide Inv;
  }

  lemma OtherRemoves(s: Pane, op: Op, k: nat)
    requires Enabled(s, op) && k < |s.subs| && !op.PublishNext? && !op.ReadRound?
    ensures SubAfter(s, op, k).registered <==> s.subs[k].registered && !Removes(s, op, k)
  {
    hide AllocationCharge, LongestRun, Offer, CatchUpRound;
  }

  /** A read stays inside the journal. */
  lemma RunFits(s: Pane, op: Op, k: nat)
    requires Inv(s) && Enabled(s, op) && op.ReadRound? && op.i == k
    ensures s.subs[k].delivered.sequence + op.k <= |s.journal|
    ensures s.subs[k].delivered.sequence < |s.journal| ==> op.k > 0
  {
    RunInRange(s.journal, s.subs[k].delivered, CatchUpReadBytes, op.indexBytes, op.k);
  }

  /** In every run a subscriber is gone if and only if one of those steps came after it was opened: being slow, having
      a full queue or being refused memory for a tail event never ends one. */
  lemma {:induction false} GoneIff(trace: seq<Pane>, ops: seq<Op>, i: nat, k: nat)
    requires Run(trace, ops) && i < |trace| && k < |trace[i].subs|
    ensures !trace[i].subs[k].registered <==>
              exists n :: 0 <= n < i && k < |trace[n].subs| && Removes(trace[n], ops[n], k)
  {
    hide Removes, Inv;
    if i > 0 {
      RunKeepsInv(trace, ops, i - 1);
      assert Enabled(trace[i - 1], ops[i - 1]) && trace[i] == Apply(trace[i - 1], ops[i - 1]);
      hide Enabled, Apply;
      if k < |trace[i - 1].subs| {
        GoneIff(trace, ops, i - 1, k);
        StepRemoves(trace[i - 1], ops[i - 1], k);
      } else {
        OpensRegistered(trace[i - 1], ops[i - 1], k);
        forall n | 0 <= n < i ensures k >= |trace[n].subs| {
          FewerBefore(trace, ops, n, i - 1);
        }
      }
    }
  }

  lemma OpensRegistered(s: Pane, op: Op, k: nat)
    requires Enabled(s, op) && |s.subs| <= k < |Apply(s, op).subs|
    ensures op.Open? && k == |s.subs| && Apply(s, op).subs[k].registered
    ensures Apply(s, op).subs[k].Hand() == Suffix(s.journal, op.from) && Apply(s, op).subs[k].cursor == |s.journal|
  {
    hide LongestRun;
  }

  lemma {:induction false} FewerBefore(trace: seq<Pane>, ops: seq<Op>, a: nat, b: nat)
    requires Run(trace, ops) && a <= b < |trace|
    ensures |trace[a].subs| <= |trace[b].subs|
  {
    if a < b {
      FewerBefore(trace, ops, a, b - 1);
      assert Enabled(trace[b - 1], ops[b - 1]) && trace[b] == Apply(trace[b - 1], ops[b - 1]);
    }
  }

  /** A present subscriber has no verdict; one that was closed by a slow lease or a refused read says lagged, and one
      closed with everybody else says why. */
  lemma RemovalVerdict(s: Pane, op: Op, k: nat)
    requires Inv(s) && Enabled(s, op) && k < |s.subs| && s.subs[k].registered && Removes(s, op, k)
    ensures k < |Apply(s, op).subs|
    ensures var t := Apply(s, op).subs[k];
            match op
            case CloseAll(reason) => t.verdict == Some(reason)
            case PublishNext(refusals) => t.verdict == if s.subs[k].done then None else Some(SubscriberLagged)
            case ReadRound(_, refusal, _, _) => t.verdict == Some(SubscriberLagged) && t.limit == refusal
            case _ => t.verdict.None?
  {
    hide AllocationCharge, LongestRun;
    StepIsLocal(s, op, k);
    hide Apply;
    assert SubOk(s.journal, s.published, s.subs[k]);
    if op.PublishNext? {
      OfferOutcome(s, k, op.refusals[k]);
      hide Offer, Inv;
    } else if op.ReadRound? {
      RunFits(s, op, k);
    }
  }

  // ---- The writer's turns ------------------------------------------------------------------------------------

  /** A turn takes the oldest queued event into the writer's hand; with none it ends after a close, catches up when
      told to, and otherwise waits. */
  lemma TurnTakes(sub: Subscriber)
    requires sub.consumer.Looking?
    ensures var t := Receive(sub);
            if sub.tail.events != [] then
              && t.consumer == Writing(sub.tail.events[0]) && t.tail.events == sub.tail.events[1..]
              && t.registered == sub.registered && t.given == sub.given
            else
              && t.tail == sub.tail
              && t.consumer == (if sub.tail.closed then Stopped else if sub.tail.catchingUp then CatchingUp else Waiting)
  {
  }

  /** A write that succeeds has delivered everything in the writer's hand; one that fails ends the writer. A woken
      writer looks again and has taken the token. */
  lemma WriteDelivers(sub: Subscriber)
    requires sub.consumer.Snapshot? || sub.consumer.Writing? || sub.consumer.WritingRead?
    ensures var t := Wrote(sub, true);
            && t.given == sub.given + sub.Hand() && t.Hand() == [] && t.tail == sub.tail && t.registered == sub.registered
            && t.delivered == After(sub.delivered, sub.Hand())
            && t.consumer == if sub.consumer.WritingRead? then CatchingUp else Looking
    ensures Wrote(sub, false).consumer.Stopped? && Wrote(sub, false).given == sub.given
    ensures !sub.tail.closed ==> !Wake(sub.tail).wake && Wake(sub.tail).events == sub.tail.events
  {
  }

  /** A catch-up round short of the frontier puts at least one more committed record into the writer's hand, exactly
      those that come next; at the frontier a present subscriber is in step again. */
  lemma RoundReads(s: Pane, k: nat, n: nat, indexBytes: nat)
    requires Inv(s) && Enabled(s, ReadRound(k, None, n, indexBytes))
    ensures s.subs[k].delivered.sequence <= |s.journal|
    ensures var sub := s.subs[k];
            var t := Apply(s, ReadRound(k, None, n, indexBytes)).subs[k];
            if sub.delivered.sequence < |s.journal| then
              && t.Hand() != [] && t.Hand() <= Suffix(s.journal, sub.delivered) && t.registered == sub.registered
            else if sub.registered then
              && t.registered && !t.tail.catchingUp && t.cursor == |s.journal| && t.consumer.Looking?
              && t.given == sub.given && t.tail.events == sub.tail.events
            else t.consumer.Stopped?
  {
    var sub := s.subs[k];
    assert SubOk(s.journal, s.published, sub);
    ReadContinues(s.journal, sub, 0);
    RunInRange(s.journal, sub.delivered, CatchUpReadBytes, indexBytes, n);
    hide LongestRun;
  }

  /** An opening registers a subscriber with everything committed after its position in the writer's hand. */
  lemma OpeningHolds(s: Pane, from: Cursor, catchUp: bool)
    requires Inv(s) && ValidCursor(s.journal, from)
    ensures var t := Apply(s, Open(from, catchUp));
            var n := |s.subs|;
            && |t.subs| == n + 1 && t.subs[..n] == s.subs && t.journal == s.journal
            && t.subs[n].registered && t.subs[n].consumer.Snapshot? && t.subs[n].Hand() == Suffix(s.journal, from)
            && t.subs[n].cursor == |s.journal| && t.subs[n].tail.catchingUp == catchUp && t.subs[n].given == []
  {
  }

  /** How many committed records the writer has not delivered yet. */
  function Behind(s: Pane, k: nat): int
    requires k < |s.subs|
  {
    |s.journal| - s.subs[k].from.sequence - |s.subs[k].given|
  }

  /** Only a commit puts a writer further behind, and every write that succeeds with something in hand brings it
      nearer by that much. */
  lemma WriterAdvances(s: Pane, op: Op, k: nat)
    requires Enabled(s, op) && k < |s.subs|
    ensures k < |Apply(s, op).subs|
    ensures Behind(Apply(s, op), k) ==
              Behind(s, k) + (if op.Commit? then 1 else 0) -
              (if op.WriteReturns? && op.i == k && op.ok then |s.subs[k].Hand()| else 0)
  {
    hide AllocationCharge, LongestRun;
    StepIsLocal(s, op, k);
    hide Apply, Enabled;
  }

  /** A writer that waits, in step and with nothing queued, misses no published record. */
  lemma WaitingHasAll(s: Pane, k: nat)
    requires Inv(s) && k < |s.subs|
    ensures var sub := s.subs[k];
            sub.registered && !sub.tail.catchingUp && sub.consumer.Waiting? && sub.tail.events == [] ==>
              0 <= Behind(s, k) <= |s.journal| - s.published
  {
    assert SubOk(s.journal, s.published, s.subs[k]);
  }
}
