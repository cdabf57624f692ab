/** Freshness on the wire: input is accepted only from a page that has been sent, and has receipted, the frames that
    show it every byte and geometry published one window before. */
module FreshView {
  import opened Basics
  import opened Journal
  import opened Resume
  import opened InputFreshness

  /** The attachment's frames as the receipts count them: those of the stream, and others that show nothing. */
  type Wire = seq<Option<Frame>>

  function Seen(wire: Wire): seq<Atom> {
    if wire == [] then []
    else
      var last := wire[|wire| - 1];
      Seen(wire[..|wire| - 1]) + if last.Some? then ShownBy(last.value) else []
  }

  /** The stream's frames among them, in order. */
  function StreamFrames(wire: Wire): seq<Frame> {
    if wire == [] then []
    else
      var last := wire[|wire| - 1];
      StreamFrames(wire[..|wire| - 1]) + if last.Some? then [last.value] else []
  }

  /** Frames of other kinds change neither what is shown nor its order. */
  lemma {:induction false} SeenIsShown(wire: Wire)
    ensures Seen(wire) == Shown(StreamFrames(wire))
  {
    if wire != [] {
      SeenIsShown(wire[..|wire| - 1]);
      var last := wire[|wire| - 1];
      if last.Some? {
        ShownAppend(StreamFrames(wire[..|wire| - 1]), last.value);
      } else {
        assert StreamFrames(wire) == StreamFrames(wire[..|wire| - 1]);
      }
    }
  }

  /** The mark is true of the wire: its first frames show exactly the stream from `from` up to its sequence. */
  ghost predicate Completes(j: seq<Event>, from: Cursor, wire: Wire, d: Delivery) {
    && from.sequence <= d.sequence <= |j| && d.frames <= |wire|
    && Seen(wire[..d.frames]) == Atoms(Suffix(j, from)[..d.sequence - from.sequence])
  }

  /** A writer that has flushed its run marks truly, however many other frames came in between. */
  lemma FlushedCompletes(writer: FrameWriter, wire: Wire)
    requires writer.Valid() && writer.data == [] && StreamFrames(wire) == writer.frames
    ensures Completes(writer.j, writer.from, wire, Delivery(|wire|, writer.from.sequence + writer.done))
  {
    SeenIsShown(wire);
    NoData(Shown(writer.frames));
    assert wire[..|wire|] == wire;
  }

  /** A mark stays true whatever is written later. */
  lemma CompletesLater(j: seq<Event>, from: Cursor, wire: Wire, more: Wire, d: Delivery)
    requires Completes(j, from, wire, d)
    ensures Completes(j, from, wire + more, d)
  {
    assert (wire + more)[..d.frames] == wire[..d.frames];
  }

  /** And whatever is committed later. */
  lemma CompletesGrown(j: seq<Event>, e: Event, from: Cursor, wire: Wire, d: Delivery)
    requires Contiguous(j) && Contiguous(j + [e]) && ValidCursor(j, from) && Completes(j, from, wire, d)
    ensures Completes(j + [e], from, wire, d)
  {
    SuffixGrows(j, e, from);
    var n := d.sequence - from.sequence;
    assert Suffix(j + [e], from)[..n] == Suffix(j, from)[..n];
  }

  lemma {:induction false} StreamConcat(a: Wire, b: Wire)
    ensures StreamFrames(a + b) == StreamFrames(a) + StreamFrames(b)
  {
    if b == [] {
      assert a + b == a;
    } else {
      StreamConcat(a, b[..|b| - 1]);
      assert (a + b)[..|a| + |b| - 1] == a + b[..|b| - 1];
    }
  }

  /** Frames of other writers. */
  function Others(n: nat): (wire: Wire)
    ensures |wire| == n
  {
    if n == 0 then [] else Others(n - 1) + [None]
  }

  /** What a write puts on the wire: its frames, with `others(i)` frames of other writers after the first `i`. */
  function Sent(frames: seq<Frame>, others: nat -> nat): Wire {
    var n := |frames|;
    (if n == 0 then [] else Sent(frames[..n - 1], others) + [Some(frames[n - 1])]) + Others(others(n))
  }

  lemma {:induction false} OthersShowNothing(n: nat)
    ensures StreamFrames(Others(n)) == []
  {
    if n > 0 {
      OthersShowNothing(n - 1);
    }
  }

  lemma {:induction false} SentFrames(frames: seq<Frame>, others: nat -> nat)
    ensures StreamFrames(Sent(frames, others)) == frames
  {
    var n := |frames|;
    OthersShowNothing(others(n));
    if n == 0 {
      assert Sent(frames, others) == Others(others(n));
    } else {
      var before := Sent(frames[..n - 1], others);
      SentFrames(frames[..n - 1], others);
      StreamConcat(before + [Some(frames[n - 1])], Others(others(n)));
    }
  }

  lemma LastOfRead(j: seq<Event>, from: Cursor, done: nat, events: seq<Event>)
    requires Contiguous(j) && ValidCursor(j, from) && events != [] && done + |events| <= |Suffix(j, from)|
    requires events == Suffix(j, from)[done..done + |events|]
    ensures events[|events| - 1].sequence == from.sequence + done + |events|
  {
    hide Contiguous, ValidCursor, Suffix;
    assert events[|events| - 1] == Suffix(j, from)[done + |events| - 1];
    PositionSuffix(j, from, done + |events| - 1, 0);
  }

  /** The attachment's writer and its gate: what was written is marked only once it has been flushed. */
  class MarkingWriter {
    const writer: FrameWriter
    const gate: FreshnessGate
    var wire: Wire
    ghost var deliveries: seq<Delivery>

    /** Every mark ever made is true of the frames written so far. */
    ghost predicate Marked()
      reads this
    {
      forall d :: d in deliveries ==> Completes(writer.j, writer.from, wire, d)
    }

    /** Nothing waits in the run, and the wire carries the writer's frames. */
    ghost predicate Valid()
      reads this, writer, gate
    {
      writer.Valid() && writer.data == [] && gate.Valid() && StreamFrames(wire) == writer.frames && Marked()
    }

    constructor (writer: FrameWriter, gate: FreshnessGate)
      requires writer.Valid() && writer.data == [] && writer.frames == [] && gate.Valid()
      ensures Valid() && this.writer == writer && this.gate == gate && wire == [] && deliveries == []
    {
      this.writer, this.gate, wire, deliveries := writer, gate, [], [];
    }

    /** COMMIT, MODE and END frames count, and show nothing. */
    method WriteOther()
      requires Valid()
      modifies this`wire
      ensures Valid() && wire == old(wire) + [None]
    {
      MarksLater([None]);
      wire := wire + [None];
    }

    lemma MarksLater(more: Wire)
      requires Marked()
      ensures forall d :: d in deliveries ==> Completes(writer.j, writer.from, wire + more, d)
    {
      forall d | d in deliveries ensures Completes(writer.j, writer.from, wire + more, d) {
        CompletesLater(writer.j, writer.from, wire, more, d);
      }
    }

    /** recordDelivered: as many frames as have been written complete every event up to the last one written. */
    method RecordDelivered(sequence: nat)
      requires Valid() && sequence == writer.from.sequence + writer.done
      modifies this`deliveries, gate, gate.ring
      ensures Valid() && deliveries == old(deliveries) + [Delivery(|wire|, sequence)]
      ensures gate.View() == Deliver(old(gate.View()), |wire|, sequence)
    {
      hide FrameWriter.Valid, FrameWriter.Stream, Deliver, Completes;
      FlushedCompletes(writer, wire);
      gate.Delivered(|wire|, sequence);
      deliveries := deliveries + [Delivery(|wire|, sequence)];
    }

    /** The frames a write has added go onto the wire, others among them; what was marked before stays true. */
    method Catch(from: nat, others: nat -> nat)
      requires Marked() && from <= |writer.frames| && StreamFrames(wire) == writer.frames[..from]
      modifies this`wire
      ensures Marked() && StreamFrames(wire) == writer.frames
      ensures wire == old(wire) + Sent(writer.frames[from..], others)
    {
      hide Completes, Sent;
      var more := Sent(writer.frames[from..], others);
      SentFrames(writer.frames[from..], others);
      StreamConcat(wire, more);
      MarksLater(more);
      assert writer.frames[..from] + writer.frames[from..] == writer.frames;
      wire := wire + more;
    }

    /** PREPARE: nothing is marked yet. */
    method WritePrepare(events: seq<Event>, initial: Geometry, others: nat -> nat)
      returns (ok: bool, rest: seq<Event>)
      requires Valid() && events <= Suffix(writer.j, writer.from) && writer.frames == [] && writer.done == 0
      modifies this`wire, writer
      ensures Marked()
      ensures ok <==> old(writer.accepts) > 0
      ensures ok ==> Valid() && writer.done <= |events| && rest == events[writer.done..]
    {
      hide Completes, Suffix, Contiguous, ValidCursor, Exact;
      ok, rest := writer.WritePrepare(events, initial);
      Catch(0, others);
    }

    /** COMMIT: the backlog PREPARE did not carry, the mark of the whole opening, and then the gate goes live. */
    method WriteCommit(rest: seq<Event>, last: nat, others: nat -> nat) returns (ok: bool)
      requires Valid() && writer.done + |rest| <= |Suffix(writer.j, writer.from)|
      requires rest == Suffix(writer.j, writer.from)[writer.done..writer.done + |rest|]
      requires last == writer.from.sequence + writer.done + |rest|
      modifies this, writer, gate, gate.ring
      ensures Marked()
      ensures ok ==> Valid() && deliveries == old(deliveries) + [Delivery(|wire|, last)]
      ensures ok ==> gate.View() == Deliver(old(gate.View()), |wire|, last).(live := true)
      ensures !ok ==> writer.accepts == 0 && deliveries == old(deliveries) && gate.Valid() && gate.View() == old(gate.View())
    {
      hide Completes, Suffix, Contiguous, ValidCursor, Exact, Atoms, Shown, Raws, ResumesAt, Deliver;
      WriteOther();
      var before := |writer.frames|;
      ok := writer.WriteRun(rest);
      Catch(before, others);
      if ok {
        RecordDelivered(last);
        gate.Start();
      }
    }

    /** streamTail: one event of the live queue, then its mark. */
    method WriteTailEvent(event: Event, others: nat -> nat) returns (ok: bool)
      requires Valid() && writer.done < |Suffix(writer.j, writer.from)|
      requires event == Suffix(writer.j, writer.from)[writer.done]
      modifies this, writer, gate, gate.ring
      ensures Marked()
      ensures ok ==> Valid() && deliveries == old(deliveries) + [Delivery(|wire|, event.sequence)]
      ensures ok ==> gate.View() == Deliver(old(gate.View()), |wire|, event.sequence)
      ensures !ok ==> writer.accepts == 0 && deliveries == old(deliveries) && gate.Valid() && gate.View() == old(gate.View())
    {
      hide Completes, Suffix, Contiguous, ValidCursor, Exact, Deliver;
      PositionSuffix(writer.j, writer.from, writer.done, 0);
      var before := |writer.frames|;
      ok := writer.WriteEvent(event);
      Catch(before, others);
      if ok {
        RecordDelivered(event.sequence);
      }
    }

    /** catchUp: one bounded read of the journal, then the mark of its last event. */
    method WriteCatchUp(events: seq<Event>, others: nat -> nat) returns (ok: bool)
      requires Valid() && events != [] && writer.done + |events| <= |Suffix(writer.j, writer.from)|
      requires events == Suffix(writer.j, writer.from)[writer.done..writer.done + |events|]
      modifies this, writer, gate, gate.ring
      ensures Marked()
      ensures ok ==> Valid() && deliveries == old(deliveries) + [Delivery(|wire|, events[|events| - 1].sequence)]
      ensures ok ==> gate.View() == Deliver(old(gate.View()), |wire|, events[|events| - 1].sequence)
      ensures !ok ==> writer.accepts == 0 && deliveries == old(deliveries) && gate.Valid() && gate.View() == old(gate.View())
    {
      hide Completes, Suffix, Contiguous, ValidCursor, Exact, Atoms, Shown, Raws, ResumesAt, Deliver;
      LastOfRead(writer.j, writer.from, writer.done, events);
      var before := |writer.frames|;
      ok := writer.WriteRun(events);
      Catch(before, others);
      if ok {
        RecordDelivered(events[|events| - 1].sequence);
      }
    }
  }

  lemma {:induction false} SeenMore(wire: Wire, n: nat, m: nat)
    requires n <= m <= |wire|
    ensures Seen(wire[..n]) <= Seen(wire[..m])
  {
    if n < m {
      SeenMore(wire, n, m - 1);
      assert wire[..m][..m - 1] == wire[..m - 1];
    }
  }

  lemma AtomsMore(events: seq<Event>, n: nat, m: nat)
    requires n <= m <= |events|
    ensures Atoms(events[..n]) <= Atoms(events[..m])
  {
    assert events[..m] == events[..n] + events[n..m];
    AtomsConcat(events[..n], events[n..m]);
  }

  /** `wire` shows, within its first `frames`, everything of the stream up to `sequence`. */
  ghost predicate Shows(j: seq<Event>, from: Cursor, wire: Wire, frames: nat, sequence: nat) {
    from.sequence <= sequence <= |j| && frames <= |wire| &&
    Atoms(Suffix(j, from)[..sequence - from.sequence]) <= Seen(wire[..frames])
  }

  lemma CoveredShows(j: seq<Event>, from: Cursor, wire: Wire, frames: nat, sequence: nat, d: Delivery)
    requires Completes(j, from, wire, d) && d.frames <= frames <= |wire|
    requires from.sequence < sequence <= d.sequence
    ensures Shows(j, from, wire, frames, sequence)
  {
    SeenMore(wire, d.frames, frames);
    AtomsMore(Suffix(j, from), sequence - from.sequence, d.sequence - from.sequence);
  }

  /** Whenever a live gate accepts an input, the frames the page has receipted show it, byte by byte and geometry by
      geometry, the stream up to everything its generation had published one window before the query. */
  lemma AcceptedHasSeen(window: nat, quiet: int, start: int, trace: seq<World>, ops: seq<Op>, q: nat, i: nat,
                        j: seq<Event>, from: Cursor, wire: Wire)
    requires Run(window, quiet, start, trace, ops) && Decides(trace, ops, q, i)
    requires trace[i + 1].refusals == trace[i].refusals
    requires |wire| == trace[i].written && forall d :: d in trace[i].deliveries ==> Completes(j, from, wire, d)
    ensures trace[q].clock.Some?
    ensures var h := trace[q].clock.value;
            forall k :: 0 <= k < |h| && h[k].at <= ops[q].sampled - window && from.sequence < h[k].sequence ==>
              Shows(j, from, wire, trace[i].gate.receipted, h[k].sequence)
  {
    hide Completes, Shows, Step, Enabled, Atoms, Seen, Suffix;
    AcceptedIsFresh(window, quiet, start, trace, ops, q, i);
    var w := trace[i];
    var h := trace[q].clock.value;
    forall k | 0 <= k < |h| && h[k].at <= ops[q].sampled - window && from.sequence < h[k].sequence
      ensures Shows(j, from, wire, w.gate.receipted, h[k].sequence)
    {
      var d :| d in w.deliveries && d.frames <= w.gate.receipted <= w.written && d.sequence >= h[k].sequence;
      CoveredShows(j, from, wire, w.gate.receipted, h[k].sequence, d);
    }
  }
}
