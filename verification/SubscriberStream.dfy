/** Publication, openings, catch-up reads and removal around one generation's subscribers, as a state machine, and
    the stream each of them is given. */
module SubscriberStream {
  import opened Basics
  import opened Credits
  import opened Journal
  import opened RecordingTail

  datatype Reason = SubscriberLagged | GenerationRotated

  datatype Limit = SequenceGap | QueueBytes | ReaderBytes | Detached | CatchUpRead

  /** What the attachment's writer is doing: between receives, asleep on the wake channel, writing the opening
      snapshot, one tail event or one catch-up read, between catch-up reads, or gone. */
  datatype Consumer =
    | Snapshot(opening: seq<Event>)
    | Looking
    | Waiting
    | Writing(event: Event)
    | CatchingUp
    | WritingRead(events: seq<Event>)
    | Stopped

  /** `given` is everything the writer has written, from the opening position on. */
  datatype Subscriber = Subscriber(from: Cursor, tail: Tail, cursor: nat, registered: bool, done: bool,
                                   verdict: Option<Reason>, limit: Option<Limit>, charged: nat,
                                   consumer: Consumer, given: seq<Event>, delivered: Cursor)
  {
    /** The events in the writer's hand. */
    function Hand(): seq<Event> {
      match consumer
      case Snapshot(opening) => opening
      case Writing(event) => [event]
      case WritingRead(events) => events
      case _ => []
    }
  }

  datatype Pane = Pane(journal: seq<Event>, published: nat, subs: seq<Subscriber>)

  /** The bound one tail owns, and what a queued event costs of it. */
  const TailBytes := 0x40_0000 + 0x1_0000
  const TailNodeBytes := 128
  const CatchUpReadBytes := 0x8_0000

  function EventBytes(): Event -> int {
    (e: Event) => TailNodeBytes + AllocationCharge(if e.Output? then |e.payload| else 0)
  }

  function QueuedBytes(events: seq<Event>): int {
    Sum(events, EventBytes())
  }

  // ---- Publication -----------------------------------------------------------------------------------------

  /** removeSubscriberLocked, close and drain: queued events are refunded, the event in the writer's hand is not. */
  function Remove(sub: Subscriber): Subscriber {
    if !sub.registered then sub
    else sub.(registered := false, tail := sub.tail.(closed := true, events := []),
              charged := if sub.consumer.Writing? then EventBytes()(sub.consumer.event) else 0)
  }

  /** A typed removal records its reason before it closes the tail. */
  function CloseTyped(sub: Subscriber, reason: Reason): Subscriber {
    if !sub.registered then sub else Remove(sub).(verdict := Some(reason))
  }

  function CloseLagged(sub: Subscriber, limit: Limit): Subscriber {
    if !sub.registered then sub else CloseTyped(sub, SubscriberLagged).(limit := Some(limit))
  }

  /** publishEvent's treatment of one subscriber. `refusal` is what its lease answers beyond the tail's own bound. */
  function Offer(sub: Subscriber, e: Event, refusal: Option<Limit>): Subscriber {
    if !sub.registered || sub.tail.catchingUp || sub.cursor >= e.sequence then sub
    else if sub.cursor + 1 != e.sequence then CloseLagged(sub, SequenceGap)
    else if sub.done then Remove(sub)
    else if refusal == Some(Detached) then CloseLagged(sub, Detached)
    else if sub.charged + EventBytes()(e) > TailBytes || refusal == Some(ReaderBytes)
    then sub.(tail := EnterCatchUp(sub.tail))
    else sub.(tail := PushEvent(sub.tail, e), cursor := e.sequence, charged := sub.charged + EventBytes()(e))
  }

  function Publish(s: Pane, e: Event, refusals: seq<Option<Limit>>): Pane
    requires |refusals| == |s.subs|
  {
    s.(published := Max(s.published, e.sequence),
       subs := seq(|s.subs|, i requires 0 <= i < |s.subs| => Offer(s.subs[i], e, refusals[i])))
  }

  // ---- Opening and the consumer ----------------------------------------------------------------------------

  /** openStream's last section: the snapshot is read and the tail registered without letting go of the journal. */
  function Opened(j: seq<Event>, from: Cursor, catchUp: bool): Subscriber
    requires from.sequence <= |j|
  {
    Subscriber(from, Tail([], false, catchUp, false), |j|, true, false, None, None, 0, Snapshot(Suffix(j, from)), [], from)
  }

  /** One receive of the writer. */
  function Receive(sub: Subscriber): Subscriber {
    var (tail, turn) := Look(sub.tail);
    match turn
    case Received(e) => sub.(tail := tail, consumer := Writing(e))
    case CatchUpTurn => sub.(consumer := CatchingUp)
    case ClosedTurn => sub.(consumer := Stopped)
    case Wait => sub.(consumer := Waiting)
  }

  /** The write in hand returns: what it wrote is delivered, or the attachment ends. Either way a tail event's
      charge is refunded now. */
  function Wrote(sub: Subscriber, ok: bool): Subscriber {
    var paid := if sub.consumer.Writing? then EventBytes()(sub.consumer.event) else 0;
    var left := sub.(charged := if sub.charged >= paid then sub.charged - paid else 0);
    if !ok then left.(consumer := Stopped)
    else
      left.(given := sub.given + sub.Hand(), delivered := After(sub.delivered, sub.Hand()),
            consumer := if sub.consumer.WritingRead? then CatchingUp else Looking)
  }

  /** readCatchUp: rejoin at the committed frontier, or read the next bounded run, or end with a typed refusal. */
  function CatchUpRound(sub: Subscriber, j: seq<Event>, refusal: Option<Limit>, k: nat): Subscriber
    requires sub.delivered.sequence + k <= |j|
  {
    if sub.delivered.sequence == |j| then
      if sub.registered
      then sub.(cursor := |j|, tail := sub.tail.(catchingUp := false), consumer := Looking)
      else sub.(consumer := Stopped)
    else if refusal.Some? then CloseLagged(sub, refusal.value).(consumer := Stopped)
    else sub.(consumer := WritingRead(Suffix(j, sub.delivered)[..k]))
  }

  // ---- The machine -----------------------------------------------------------------------------------------

  datatype Op =
    | Commit(e: Event)
    | PublishNext(refusals: seq<Option<Limit>>)
    | Open(from: Cursor, catchUp: bool)
    | Take(i: nat)
    | Awake(i: nat)
    | WriteReturns(i: nat, ok: bool)
    | ReadRound(i: nat, refusal: Option<Limit>, k: nat, indexBytes: nat)
    | SeeVerdict(i: nat)
    | MarkDone(i: nat)
    | Cancel(i: nat)
    | CloseAll(reason: Reason)

  ghost predicate Enabled(s: Pane, op: Op) {
    match op
    case Commit(e) => Contiguous(s.journal + [e])
    case PublishNext(refusals) =>
      && s.published < |s.journal| && |refusals| == |s.subs|
      && forall i :: 0 <= i < |refusals| ==> refusals[i] in {None, Some(ReaderBytes), Some(Detached)}
    case Open(from, _) => ValidCursor(s.journal, from)
    case Take(i) => i < |s.subs| && s.subs[i].consumer.Looking?
    case Awake(i) => i < |s.subs| && s.subs[i].consumer.Waiting? && s.subs[i].tail.Ready()
    case WriteReturns(i, _) => i < |s.subs| && (var c := s.subs[i].consumer; c.Snapshot? || c.Writing? || c.WritingRead?)
    case ReadRound(i, refusal, k, indexBytes) =>
      && i < |s.subs| && s.subs[i].consumer.CatchingUp?
      && refusal in {None, Some(ReaderBytes), Some(CatchUpRead)}
      && LongestRun(s.journal, s.subs[i].delivered, CatchUpReadBytes, indexBytes, k)
    case SeeVerdict(i) => i < |s.subs| && s.subs[i].consumer.Looking? && s.subs[i].verdict.Some?
    case MarkDone(i) => i < |s.subs|
    case Cancel(i) => i < |s.subs| && s.subs[i].done
    case CloseAll(_) => true
  }

  function Apply(s: Pane, op: Op): Pane
    requires Enabled(s, op)
  {
    match op
    case Commit(e) => s.(journal := s.journal + [e])
    case PublishNext(refusals) => Publish(s, s.journal[s.published], refusals)
    case Open(from, catchUp) => s.(subs := s.subs + [Opened(s.journal, from, catchUp)])
    case Take(i) => s.(subs := s.subs[i := Receive(s.subs[i])])
    case Awake(i) => s.(subs := s.subs[i := s.subs[i].(tail := Wake(s.subs[i].tail), consumer := Looking)])
    case WriteReturns(i, ok) => s.(subs := s.subs[i := Wrote(s.subs[i], ok)])
    case ReadRound(i, refusal, k, _) => s.(subs := s.subs[i := CatchUpRound(s.subs[i], s.journal, refusal, k)])
    case SeeVerdict(i) => s.(subs := s.subs[i := s.subs[i].(consumer := Stopped)])
    case MarkDone(i) => s.(subs := s.subs[i := s.subs[i].(done := true)])
    case Cancel(i) => s.(subs := s.subs[i := Remove(s.subs[i])])
    case CloseAll(reason) =>
      s.(subs := seq(|s.subs|, i requires 0 <= i < |s.subs| => CloseTyped(s.subs[i], reason)))
  }

  // ---- What every reachable state keeps --------------------------------------------------------------------

  /** What the writer has written, then what is in its hand, then its queue. */
  function Line(sub: Subscriber): seq<Event> {
    sub.given + sub.Hand() + sub.tail.events
  }

  /** Delivered events are the stream's next ones; until the writer stops, so is everything it still holds. */
  ghost predicate LineOk(j: seq<Event>, sub: Subscriber) {
    && ValidCursor(j, sub.from)
    && sub.given <= Suffix(j, sub.from) && sub.delivered == After(sub.from, sub.given)
    && (!sub.consumer.Stopped? ==> Line(sub) <= Suffix(j, sub.from))
    && (!sub.consumer.Stopped? && sub.given + sub.Hand() == [] ==> StartsWhole(j, sub.from))
  }

  /** The position does not cut a record. */
  predicate StartsWhole(j: seq<Event>, c: Cursor) {
    c.sequence < |j| ==> j[c.sequence].start == c.offset
  }

  /** The publisher's view of the subscriber. */
  ghost predicate CursorOk(j: seq<Event>, published: nat, sub: Subscriber) {
    && (sub.registered ==> !sub.tail.closed && sub.verdict.None?)
    && (!sub.registered ==> sub.tail.closed && sub.tail.events == [])
    && (sub.registered && !sub.tail.catchingUp ==> published <= sub.cursor <= |j|)
    && (sub.registered && !sub.tail.catchingUp && !sub.consumer.Stopped? ==>
          sub.from.sequence + |Line(sub)| == sub.cursor)
    && sub.limit != Some(SequenceGap)
    && (sub.consumer.CatchingUp? || sub.consumer.WritingRead? ==>
          sub.tail.events == [] && (sub.registered ==> sub.tail.catchingUp))
  }

  /** The tail's charge is its queue and the tail event being written. */
  ghost predicate ChargeOk(sub: Subscriber) {
    && sub.charged == QueuedBytes(sub.tail.events) + (if sub.consumer.Writing? then EventBytes()(sub.consumer.event) else 0)
    && sub.charged <= TailBytes
  }

  ghost predicate SubOk(j: seq<Event>, published: nat, sub: Subscriber) {
    && LineOk(j, sub) && CursorOk(j, published, sub) && ChargeOk(sub)
    && (sub.consumer.Waiting? ==> NoLostWake(sub.tail))
  }

  ghost predicate Inv(s: Pane) {
    && Contiguous(s.journal) && s.published <= |s.journal|
    && forall i :: 0 <= i < |s.subs| ==> SubOk(s.journal, s.published, s.subs[i])
  }

  // ---- Each step keeps it ----------------------------------------------------------------------------------

  lemma CommitKeeps(j: seq<Event>, e: Event, published: nat, sub: Subscriber)
    requires Contiguous(j) && Contiguous(j + [e]) && SubOk(j, published, sub)
    ensures SubOk(j + [e], published, sub)
  {
    SuffixGrows(j, e, sub.from);
    assert j != [] ==> (j + [e])[|j|].start == (j + [e])[|j| - 1].End();
    assert sub.from.sequence < |j| ==> (j + [e])[sub.from.sequence] == j[sub.from.sequence];
  }

  lemma RemoveKeeps(j: seq<Event>, published: nat, sub: Subscriber)
    requires SubOk(j, published, sub)
    ensures SubOk(j, published, Remove(sub))
  {
    assert Line(sub)[..|sub.given + sub.Hand()|] == sub.given + sub.Hand();
    SumNonnegative(sub.tail.events, EventBytes());
  }

  /** The event offered to a subscriber at the frontier continues its line. */
  lemma OfferedContinues(j: seq<Event>, sub: Subscriber)
    requires Contiguous(j) && LineOk(j, sub) && !sub.consumer.Stopped? && sub.from.sequence + |Line(sub)| < |j|
    ensures var next := j[sub.from.sequence + |Line(sub)|]; Line(sub) + [next] <= Suffix(j, sub.from)
  {
  }

  lemma PushKeepsLine(j: seq<Event>, sub: Subscriber, t: Subscriber, e: Event)
    requires Contiguous(j) && LineOk(j, sub) && t == sub.(tail := PushEvent(sub.tail, e), cursor := t.cursor, charged := t.charged)
    requires !sub.consumer.Stopped? ==> sub.from.sequence + |Line(sub)| < |j| && e == j[sub.from.sequence + |Line(sub)|]
    ensures LineOk(j, t) && |Line(t)| == |Line(sub)| + 1
  {
    assert Line(t) == Line(sub) + [e];
    if !sub.consumer.Stopped? {
      OfferedContinues(j, sub);
    }
  }

  lemma PushKeeps(j: seq<Event>, published: nat, sub: Subscriber)
    requires Contiguous(j) && published < |j| && SubOk(j, published, sub)
    requires sub.registered && !sub.tail.catchingUp && sub.cursor == published
    requires sub.charged + EventBytes()(j[published]) <= TailBytes
    ensures var e := j[published];
            SubOk(j, published + 1, sub.(tail := PushEvent(sub.tail, e), cursor := e.sequence,
                                         charged := sub.charged + EventBytes()(e)))
  {
    hide AllocationCharge, LineOk, Line, Sum;
    var e := j[published];
    var t := sub.(tail := PushEvent(sub.tail, e), cursor := e.sequence, charged := sub.charged + EventBytes()(e));
    SumAppend(sub.tail.events, e, EventBytes());
    PushKeepsLine(j, sub, t, e);
  }

  /** A subscriber publication still copies to is at the published frontier or beyond it, so the sequence-gap
      branch is never taken. */
  lemma OfferKeeps(j: seq<Event>, published: nat, sub: Subscriber, refusal: Option<Limit>)
    requires Contiguous(j) && published < |j| && SubOk(j, published, sub) && refusal != Some(SequenceGap)
    ensures SubOk(j, published + 1, Offer(sub, j[published], refusal))
  {
    hide LineOk, ChargeOk, AllocationCharge;
    var e := j[published];
    if sub.registered && !sub.tail.catchingUp && sub.cursor < e.sequence {
      assert sub.cursor == published;
      RemoveKeeps(j, published, sub);
      if sub.charged + EventBytes()(e) <= TailBytes {
        PushKeeps(j, published, sub);
      }
      assert EnterCatchUp(sub.tail).events == sub.tail.events;
      FlagKeeps(j, sub, sub.(tail := EnterCatchUp(sub.tail)));
      FlagKeeps(j, Remove(sub), Remove(sub).(verdict := Some(SubscriberLagged), limit := Some(Detached)));
    }
  }

  /** Neither the line nor the charge depends on flags, limits or verdicts. */
  lemma FlagKeeps(j: seq<Event>, sub: Subscriber, t: Subscriber)
    requires LineOk(j, sub) && ChargeOk(sub)
    requires t.from == sub.from && t.given == sub.given && t.delivered == sub.delivered && t.consumer == sub.consumer
    requires t.tail.events == sub.tail.events && t.charged == sub.charged
    ensures LineOk(j, t) && ChargeOk(t)
  {
  }

  lemma OpenKeeps(j: seq<Event>, published: nat, from: Cursor, catchUp: bool)
    requires Contiguous(j) && published <= |j| && ValidCursor(j, from)
    ensures SubOk(j, published, Opened(j, from, catchUp))
  {
  }

  /** Taking an event off the queue puts it in the writer's hand, at the same place of the line. */
  lemma ReceiveLine(sub: Subscriber)
    requires sub.consumer.Looking?
    ensures Line(Receive(sub)) == Line(sub)
    ensures sub.given + Receive(sub).Hand() == [] ==> sub.given + sub.Hand() == []
  {
    if sub.tail.events != [] {
      var e := sub.tail.events[0];
      assert sub.tail.events == [e] + sub.tail.events[1..];
      assert sub.given + [] + sub.tail.events == sub.given + [e] + sub.tail.events[1..];
    }
  }

  lemma ReceiveCharge(sub: Subscriber)
    requires ChargeOk(sub) && sub.consumer.Looking?
    ensures ChargeOk(Receive(sub))
  {
    hide Sum, AllocationCharge;
    if sub.tail.events != [] {
      SumFront(sub.tail.events, EventBytes());
    }
  }

  lemma ReceiveKeeps(j: seq<Event>, published: nat, sub: Subscriber)
    requires SubOk(j, published, sub) && sub.consumer.Looking?
    ensures SubOk(j, published, Receive(sub))
  {
    hide Line, Suffix, After, StartsWhole, ValidCursor, ChargeOk;
    ReceiveLine(sub);
    ReceiveCharge(sub);
  }

  lemma {:induction false} SumFront<T>(s: seq<T>, f: T -> int)
    requires s != []
    ensures Sum(s, f) == f(s[0]) + Sum(s[1..], f)
  {
    if |s| > 1 {
      assert s[..|s| - 1][1..] == s[1..][..|s| - 2];
      SumFront(s[..|s| - 1], f);
    }
  }

  lemma WroteLine(j: seq<Event>, sub: Subscriber, ok: bool)
    requires LineOk(j, sub) && (sub.consumer.Snapshot? || sub.consumer.Writing? || sub.consumer.WritingRead?)
    ensures LineOk(j, Wrote(sub, ok)) && (ok ==> Line(Wrote(sub, ok)) == Line(sub))
  {
    hide Suffix, ValidCursor, StartsWhole, AllocationCharge;
    var t := Wrote(sub, ok);
    if ok {
      assert Line(t) == Line(sub);
      assert t.given == Line(sub)[..|t.given|];
    }
  }

  lemma WroteCharge(sub: Subscriber, ok: bool)
    requires ChargeOk(sub) && (sub.consumer.Snapshot? || sub.consumer.Writing? || sub.consumer.WritingRead?)
    ensures ChargeOk(Wrote(sub, ok))
  {
    hide AllocationCharge, Sum;
    SumNonnegative(sub.tail.events, EventBytes());
  }

  lemma WroteKeeps(j: seq<Event>, published: nat, sub: Subscriber, ok: bool)
    requires SubOk(j, published, sub) && (sub.consumer.Snapshot? || sub.consumer.Writing? || sub.consumer.WritingRead?)
    ensures SubOk(j, published, Wrote(sub, ok))
  {
    hide LineOk, Line, ChargeOk, After;
    WroteLine(j, sub, ok);
    WroteCharge(sub, ok);
  }

  /** The next read of a catching-up writer is the next part of its stream. */
  lemma ReadContinues(j: seq<Event>, sub: Subscriber, k: nat)
    requires Contiguous(j) && LineOk(j, sub) && sub.consumer.CatchingUp? && sub.tail.events == []
    ensures sub.delivered.sequence == sub.from.sequence + |sub.given| <= |j|
    ensures sub.delivered.sequence + k <= |j| ==>
              sub.given + Suffix(j, sub.delivered)[..k] <= Suffix(j, sub.from)
  {
    var n := |sub.given|;
    assert sub.given == Suffix(j, sub.from)[..n];
    SuffixSplit(j, sub.from, n);
  }

  lemma RoundKeeps(j: seq<Event>, published: nat, sub: Subscriber, refusal: Option<Limit>, k: nat)
    requires Contiguous(j) && published <= |j| && SubOk(j, published, sub) && sub.consumer.CatchingUp?
    requires refusal != Some(SequenceGap) && sub.delivered.sequence + k <= |j|
    requires sub.delivered.sequence < |j| ==> k > 0
    ensures SubOk(j, published, CatchUpRound(sub, j, refusal, k))
  {
    hide AllocationCharge, Suffix, After;
    ReadContinues(j, sub, k);
    RemoveKeeps(j, published, sub);
    var t := CatchUpRound(sub, j, refusal, k);
    assert Line(sub) == sub.given;
    if t.consumer.WritingRead? {
      assert Line(t) == sub.given + Suffix(j, sub.delivered)[..k];
    }
  }

  lemma FieldsKeep(j: seq<Event>, published: nat, sub: Subscriber)
    requires SubOk(j, published, sub)
    ensures SubOk(j, published, sub.(done := true))
    ensures sub.consumer.Looking? ==> SubOk(j, published, sub.(consumer := Stopped))
    ensures sub.consumer.Waiting? && sub.tail.Ready() ==>
              SubOk(j, published, sub.(tail := Wake(sub.tail), consumer := Looking))
  {
  }

  lemma StepKeepsInv(s: Pane, op: Op)
    requires Inv(s) && Enabled(s, op)
    ensures Inv(Apply(s, op))
  {
    hide SubOk, LongestRun;
    var t := Apply(s, op);
    forall i | 0 <= i < |t.subs| ensures SubOk(t.journal, t.published, t.subs[i]) {
      if i < |s.subs| {
        assert SubOk(s.journal, s.published, s.subs[i]);
        SubStepKeeps(s, op, i);
      } else {
        OpenKeeps(s.journal, s.published, op.from, op.catchUp);
      }
    }
  }

  lemma SubStepKeeps(s: Pane, op: Op, i: nat)
    requires Contiguous(s.journal) && s.published <= |s.journal| && Enabled(s, op)
    requires i < |s.subs| && SubOk(s.journal, s.published, s.subs[i])
    ensures i < |Apply(s, op).subs|
    ensures SubOk(Apply(s, op).journal, Apply(s, op).published, Apply(s, op).subs[i])
  {
    var sub := s.subs[i];
    hide SubOk, Offer, Remove, Receive, Wrote, CatchUpRound, LongestRun;
    match op {
      case Commit(e) => CommitKeeps(s.journal, e, s.published, sub);
      case PublishNext(refusals) => OfferKeeps(s.journal, s.published, sub, refusals[i]);
      case Open(from, catchUp) =>
      case Take(_) => if sub.consumer.Looking? { ReceiveKeeps(s.journal, s.published, sub); }
      case Awake(_) => FieldsKeep(s.journal, s.published, sub);
      case WriteReturns(k, ok) => if k == i { WroteKeeps(s.journal, s.published, sub, ok); }
      case ReadRound(n, refusal, k, indexBytes) =>
        if n == i {
          RunInRange(s.journal, sub.delivered, CatchUpReadBytes, indexBytes, k);
          RoundKeeps(s.journal, s.published, sub, refusal, k);
        }
      case SeeVerdict(_) => FieldsKeep(s.journal, s.published, sub);
      case MarkDone(_) => FieldsKeep(s.journal, s.published, sub);
      case Cancel(_) => RemoveKeeps(s.journal, s.published, sub);
      case CloseAll(reason) => CloseTypedKeeps(s.journal, s.published, sub, reason);
    }
  }

  lemma RunInRange(j: seq<Event>, c: Cursor, bound: int, indexBytes: nat, k: nat)
    requires LongestRun(j, c, bound, indexBytes, k)
    ensures c.sequence + k <= |j| && (c.sequence < |j| ==> k > 0)
  {
  }

  lemma CloseTypedKeeps(j: seq<Event>, published: nat, sub: Subscriber, reason: Reason)
    requires SubOk(j, published, sub)
    ensures SubOk(j, published, CloseTyped(sub, reason))
  {
    RemoveKeeps(j, published, sub);
  }

  // ---- Every run -------------------------------------------------------------------------------------------

  ghost predicate Run(trace: seq<Pane>, ops: seq<Op>) {
    && |trace| == |ops| + 1 && trace[0] == Pane([], 0, [])
    && forall i :: 0 <= i < |ops| ==> Enabled(trace[i], ops[i]) && trace[i + 1] == Apply(trace[i], ops[i])
  }

  lemma {:induction false} RunKeepsInv(trace: seq<Pane>, ops: seq<Op>, i: nat)
    requires Run(trace, ops) && i < |trace|
    ensures Inv(trace[i])
  {
    hide Inv, Apply, Enabled;
    if i == 0 {
      EmptyPaneInv();
    } else {
      RunKeepsInv(trace, ops, i - 1);
      assert Enabled(trace[i - 1], ops[i - 1]) && trace[i] == Apply(trace[i - 1], ops[i - 1]);
      StepKeepsInv(trace[i - 1], ops[i - 1]);
    }
  }

  lemma EmptyPaneInv()
    ensures Inv(Pane([], 0, []))
  {
  }

  /** In every run, what a writer has written, then what is in its hand, then its queue, is the committed stream
      from its opening position, each event once and in order, up to some point; and with nothing left to hand over
      a subscriber publication copies to has been given everything published. No subscriber is ever evicted for a
      gap, no tail holds more than its bound, and no consumer sleeps while something waits for it. */
  lemma ExactStream(trace: seq<Pane>, ops: seq<Op>, i: nat, k: nat)
    requires Run(trace, ops) && i < |trace| && k < |trace[i].subs|
    ensures var s := trace[i]; var sub := s.subs[k];
            && sub.from.sequence <= |s.journal| && sub.given <= Suffix(s.journal, sub.from)
            && (!sub.consumer.Stopped? ==> Line(sub) <= Suffix(s.journal, sub.from))
            && (sub.registered && !sub.tail.catchingUp && sub.consumer in {Looking, Waiting} && sub.tail.events == [] ==>
                  s.published - sub.from.sequence <= |sub.given|)
            && sub.limit != Some(SequenceGap)
            && QueuedBytes(sub.tail.events) <= TailBytes
            && (sub.consumer.Waiting? && (sub.tail.events != [] || sub.tail.catchingUp || sub.tail.closed) ==>
                  sub.tail.Ready())
  {
    RunKeepsInv(trace, ops, i);
    var sub := trace[i].subs[k];
    assert SubOk(trace[i].journal, trace[i].published, sub);
    SumNonnegative(sub.tail.events, EventBytes());
  }

  /** The events a subscriber is given carry the next sequence numbers after its opening position. */
  lemma GivenInOrder(trace: seq<Pane>, ops: seq<Op>, i: nat, k: nat, n: nat)
    requires Run(trace, ops) && i < |trace| && k < |trace[i].subs| && n < |trace[i].subs[k].given|
    ensures trace[i].subs[k].given[n].sequence == trace[i].subs[k].from.sequence + 1 + n
  {
    RunKeepsInv(trace, ops, i);
    var s := trace[i];
    var sub := s.subs[k];
    assert SubOk(s.journal, s.published, sub);
    assert sub.given[n] == Suffix(s.journal, sub.from)[n];
  }

  /** A snapshot read at the committed frontier holds every published event, so registration finds no gap. */
  lemma SnapshotHoldsPublished(s: Pane, from: Cursor)
    requires Inv(s) && ValidCursor(s.journal, from)
    ensures s.published <= After(from, Suffix(s.journal, from)).sequence
  {
    SuffixSplit(s.journal, from, |Suffix(s.journal, from)|);
    assert Suffix(s.journal, from)[..|Suffix(s.journal, from)|] == Suffix(s.journal, from);
  }

  /** Refunding a written tail event never finds less charged than it returns. */
  lemma ReleaseCovered(s: Pane, k: nat)
    requires Inv(s) && k < |s.subs| && s.subs[k].consumer.Writing?
    ensures s.subs[k].charged >= EventBytes()(s.subs[k].consumer.event)
  {
    assert SubOk(s.journal, s.published, s.subs[k]);
    SumNonnegative(s.subs[k].tail.events, EventBytes());
  }
}
