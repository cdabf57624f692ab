/** Publication, removal and catch-up reads as the methods that walk the subscriber table in place. */
module PaneEffects {
  import opened Basics
  import opened Journal
  import opened RecordingTail
  import opened SubscriberProgress
  import opened SubscriberStream

  class Effects {
    var journal: seq<Event>
    var published: nat
    var subs: seq<Subscriber>

    ghost function View(): Pane
      reads this
    {
      Pane(journal, published, subs)
    }

    constructor ()
      ensures View() == Pane([], 0, [])
    {
      journal, published, subs := [], 0, [];
    }

    /** publishEvent: one committed event to every registered subscriber; none of them is waited for. */
    method PublishEvent(event: Event, refusals: seq<Option<Limit>>)
      requires |refusals| == |subs|
      modifies this`published, this`subs
      ensures View() == Publish(old(View()), event, refusals)
      ensures forall k :: 0 <= k < |subs| && InStep(old(subs)[k], event) && !old(subs)[k].tail.closed ==>
                refusals[k].None? && HasRoom(old(subs)[k], event) ==> Handed(old(subs)[k], subs[k], event)
      ensures forall k :: 0 <= k < |subs| && InStep(old(subs)[k], event) && !old(subs)[k].tail.closed ==>
                refusals[k] == Some(ReaderBytes) || (refusals[k].None? && !HasRoom(old(subs)[k], event)) ==>
                  SentToCatchUp(old(subs)[k], subs[k])
      ensures forall k :: 0 <= k < |subs| && !subs[k].registered && old(subs)[k].registered ==>
                old(subs)[k].done || refusals[k] == Some(Detached) || old(subs)[k].cursor + 1 < event.sequence
    {
      hide AllocationCharge;
      if event.sequence > published {
        published := event.sequence;
      }
      var i := 0;
      while i < |subs|
        invariant 0 <= i <= |subs| == |old(subs)| && published == Max(old(published), event.sequence)
        invariant forall k :: 0 <= k < i ==> subs[k] == Offer(old(subs)[k], event, refusals[k])
        invariant forall k :: i <= k < |subs| ==> subs[k] == old(subs)[k]
      {
        var sub := subs[i];
        var cost := EventBytes()(event);
        if !sub.registered || sub.tail.catchingUp || sub.cursor >= event.sequence {
          // Not in the table, catching up on its own, or already past this event.
        } else if sub.cursor + 1 != event.sequence {
          subs := subs[i := CloseLagged(sub, SequenceGap)];
        } else if sub.done {
          subs := subs[i := Remove(sub)];
        } else if refusals[i] == Some(Detached) {
          subs := subs[i := CloseLagged(sub, Detached)];
        } else if sub.charged + cost > TailBytes || refusals[i] == Some(ReaderBytes) {
          subs := subs[i := sub.(tail := EnterCatchUp(sub.tail))];
        } else {
          subs := subs[i := sub.(tail := PushEvent(sub.tail, event), charged := sub.charged + cost, cursor := event.sequence)];
        }
        i := i + 1;
      }
      assert subs == Publish(old(View()), event, refusals).subs;
    }

    /** closeSubscribers: every present subscriber ends with one typed reason. */
    method CloseSubscribers(reason: Reason) returns (closed: nat)
      modifies this`subs
      ensures View() == old(View()).(subs := subs) && |subs| == |old(subs)|
      ensures forall k :: 0 <= k < |subs| ==> subs[k] == CloseTyped(old(subs)[k], reason)
      ensures forall k :: 0 <= k < |subs| ==> !subs[k].registered
      ensures closed == Count(old(subs), (sub: Subscriber) => sub.registered)
    {
      closed := 0;
      var i := 0;
      while i < |subs|
        invariant 0 <= i <= |subs| == |old(subs)|
        invariant forall k :: 0 <= k < i ==> subs[k] == CloseTyped(old(subs)[k], reason)
        invariant forall k :: i <= k < |subs| ==> subs[k] == old(subs)[k]
        invariant closed == Count(old(subs)[..i], (sub: Subscriber) => sub.registered)
      {
        assert old(subs)[..i + 1] == old(subs)[..i] + [old(subs)[i]];
        CountAppend(old(subs)[..i], old(subs)[i], (sub: Subscriber) => sub.registered);
        if subs[i].registered {
          subs := subs[i := CloseTyped(subs[i], reason)];
          closed := closed + 1;
        }
        i := i + 1;
      }
      assert old(subs)[..|subs|] == old(subs);
    }

    /** readCatchUp: the round a catching-up consumer takes, with the records it read. */
    method ReadCatchUp(i: nat, refusal: Option<Limit>, indexBytes: nat) returns (events: seq<Event>)
      requires Inv(View()) && i < |subs| && subs[i].consumer.CatchingUp?
      requires refusal in {None, Some(ReaderBytes), Some(CatchUpRead)}
      modifies this`subs
      ensures Inv(View())
      ensures exists k :: Enabled(old(View()), ReadRound(i, refusal, k, indexBytes)) &&
                          View() == Apply(old(View()), ReadRound(i, refusal, k, indexBytes))
      ensures events == if subs[i].consumer.WritingRead? then subs[i].consumer.events else []
    {
      hide LongestRun, Remove;
      ghost var before := View();
      var sub := subs[i];
      assert SubOk(journal, published, sub);
      ReadContinues(journal, sub, 0);
      DeliveredIsPosition(journal, sub);
      var read := ReadCommittedEventsAfter(journal, |journal|, sub.delivered, CatchUpReadBytes, indexBytes);
      assert journal[..|journal|] == journal;
      ghost var k := |read.value|;
      RunInRange(journal, sub.delivered, CatchUpReadBytes, indexBytes, k);
      StepKeepsInv(before, ReadRound(i, refusal, k, indexBytes));
      events := [];
      if sub.delivered.sequence == |journal| {
        if sub.registered {
          subs := subs[i := sub.(cursor := |journal|, tail := sub.tail.(catchingUp := false), consumer := Looking)];
        } else {
          subs := subs[i := sub.(consumer := Stopped)];
        }
      } else if refusal.Some? {
        subs := subs[i := CloseLagged(sub, refusal.value).(consumer := Stopped)];
      } else {
        events := read.value;
        subs := subs[i := sub.(consumer := WritingRead(events))];
      }
      assert View() == Apply(before, ReadRound(i, refusal, k, indexBytes));
    }
  }

  /** A writer always stands at a position of the stream it is given. */
  lemma DeliveredIsPosition(j: seq<Event>, sub: Subscriber)
    requires Contiguous(j) && LineOk(j, sub)
    ensures ValidCursor(j, sub.delivered)
  {
    assert sub.given == Suffix(j, sub.from)[..|sub.given|];
    SuffixSplit(j, sub.from, |sub.given|);
  }
}
