/** What an attachment's frames show a page, and where a page that kept them may resume. */
module Resume {
  import opened Basics
  import opened Journal

  /** The two things a page's terminal consumes, in stream order. */
  datatype Atom = Raw(byte: Byte) | Size(geometry: Geometry)

  function Raws(bytes: seq<Byte>): (s: seq<Atom>)
    ensures |s| == |bytes|
  {
    seq(|bytes|, i requires 0 <= i < |bytes| => Raw(bytes[i]))
  }

  function AtomsOf(e: Event): seq<Atom> {
    if e.Output? then Raws(e.payload) else [Size(e.geometry)]
  }

  function Atoms(events: seq<Event>): seq<Atom> {
    if events == [] then [] else AtomsOf(events[0]) + Atoms(events[1..])
  }

  /** PREPARE replays raw bytes; LIVE carries bytes; a committed geometry travels as a resize PREPARE. Each is
      stamped with the stream position after what it shows. */
  datatype Frame =
    | Prepare(initial: Geometry, replay: seq<Byte>, at: Cursor)
    | Live(data: seq<Byte>, at: Cursor)
    | Resized(geometry: Geometry, at: Cursor)

  function ShownBy(f: Frame): seq<Atom> {
    match f
    case Prepare(_, replay, _) => Raws(replay)
    case Live(data, _) => Raws(data)
    case Resized(geometry, _) => [Size(geometry)]
  }

  function Shown(frames: seq<Frame>): seq<Atom> {
    if frames == [] then [] else Shown(frames[..|frames| - 1]) + ShownBy(frames[|frames| - 1])
  }

  const FrameBytes := 0x4000

  /** The position after an event's bytes except its last remaining ones. */
  function PositionWithin(e: Event, remaining: nat): Cursor
    requires e.sequence > 0 && remaining <= e.End()
  {
    Cursor(if remaining > 0 then e.sequence - 1 else e.sequence, e.End() - remaining)
  }

  // ---- Atoms -----------------------------------------------------------------------------------------------

  lemma RawsConcat(a: seq<Byte>, b: seq<Byte>)
    ensures Raws(a + b) == Raws(a) + Raws(b)
  {
  }

  lemma {:induction false} AtomsConcat(a: seq<Event>, b: seq<Event>)
    ensures Atoms(a + b) == Atoms(a) + Atoms(b)
  {
    if a == [] {
      assert a + b == b;
    } else {
      assert (a + b)[1..] == a[1..] + b;
      AtomsConcat(a[1..], b);
    }
  }

  lemma AtomsStep(events: seq<Event>, m: nat)
    requires m < |events|
    ensures Atoms(events[..m + 1]) == Atoms(events[..m]) + AtomsOf(events[m])
    ensures Atoms(events[m..]) == AtomsOf(events[m]) + Atoms(events[m + 1..])
  {
    assert events[..m + 1] == events[..m] + [events[m]];
    AtomsConcat(events[..m], [events[m]]);
    assert Atoms([events[m]]) == AtomsOf(events[m]) + Atoms([]);
    assert events[m..][1..] == events[m + 1..];
  }

  lemma ShownAppend(frames: seq<Frame>, f: Frame)
    ensures Shown(frames + [f]) == Shown(frames) + ShownBy(f)
  {
    assert (frames + [f])[..|frames|] == frames;
  }

  // ---- Positions -------------------------------------------------------------------------------------------

  /** The newest committed geometry at or before a sequence, if any. */
  function SizeAt(j: seq<Event>, sequence: nat): Option<Geometry>
    requires sequence <= |j|
  {
    if sequence == 0 then None
    else if j[sequence - 1].Resize? then Some(j[sequence - 1].geometry)
    else SizeAt(j, sequence - 1)
  }

  /** The geometry a page is left with after consuming `atoms`. */
  function Latest(size: Option<Geometry>, atoms: seq<Atom>): Option<Geometry> {
    if atoms == [] then size
    else
      var last := atoms[|atoms| - 1];
      if last.Size? then Some(last.geometry) else Latest(size, atoms[..|atoms| - 1])
  }

  /** GeometryAt: walk the pages from the newest back to the sequence; the birth geometry is the fallback. */
  method GeometryAt(pages: seq<Event>, committed: nat, sequence: nat, birth: Geometry) returns (r: Option<Geometry>)
    requires committed <= |pages| && Contiguous(pages)
    ensures r.None? <==> sequence > committed
    ensures sequence <= committed ==>
              r == (if SizeAt(pages, sequence).Some? then SizeAt(pages, sequence) else Some(birth))
  {
    if sequence > committed {
      return None;
    }
    var page := |pages|;
    while page > 0
      invariant 0 <= page <= |pages|
      invariant sequence <= page || SizeAt(pages, page) == SizeAt(pages, sequence)
    {
      if pages[page - 1].sequence <= sequence && pages[page - 1].Resize? {
        return Some(pages[page - 1].geometry);
      }
      page := page - 1;
    }
    r := Some(birth);
  }

  lemma {:induction false} LatestConcat(size: Option<Geometry>, a: seq<Atom>, b: seq<Atom>)
    ensures Latest(size, a + b) == Latest(Latest(size, a), b)
  {
    if b == [] {
      assert a + b == a;
    } else {
      assert (a + b)[..|a + b| - 1] == a + b[..|b| - 1];
      LatestConcat(size, a, b[..|b| - 1]);
    }
  }

  lemma {:induction false} LatestRaws(size: Option<Geometry>, bytes: seq<Byte>)
    ensures Latest(size, Raws(bytes)) == size
  {
    if bytes != [] {
      assert Raws(bytes)[..|bytes| - 1] == Raws(bytes[..|bytes| - 1]);
      LatestRaws(size, bytes[..|bytes| - 1]);
    }
  }

  /** Consuming the first records of a stream leaves the geometry in force after them. */
  lemma {:induction false} SizeFollows(j: seq<Event>, from: Cursor, m: nat)
    requires from.sequence <= |j| && m <= |Suffix(j, from)|
    ensures Latest(SizeAt(j, from.sequence), Atoms(Suffix(j, from)[..m])) == SizeAt(j, from.sequence + m)
  {
    var s := Suffix(j, from);
    var size := SizeAt(j, from.sequence);
    if m == 0 {
      assert s[..0] == [];
    } else {
      SizeFollows(j, from, m - 1);
      AtomsStep(s, m - 1);
      LatestConcat(size, Atoms(s[..m - 1]), AtomsOf(s[m - 1]));
      hide Atoms;
      assert s[m - 1].Resize? <==> j[from.sequence + m - 1].Resize?;
      if s[m - 1].Output? {
        LatestRaws(SizeAt(j, from.sequence + m - 1), s[m - 1].payload);
      }
    }
  }

  /** What was shown, followed by an opening resumed at `at`, is the whole stream after `from`; and that opening
      starts at the geometry the page was left with. */
  ghost predicate ResumesAt(j: seq<Event>, from: Cursor, shown: seq<Atom>, at: Cursor) {
    && ValidCursor(j, at) && from.sequence <= |j|
    && shown + Atoms(Suffix(j, at)) == Atoms(Suffix(j, from))
    && SizeAt(j, at.sequence) == Latest(SizeAt(j, from.sequence), shown)
  }

  /** The record left over when its last `remaining` bytes are still to come. */
  function Cut(e: Event, remaining: nat): seq<Event>
    requires remaining <= if e.Output? then |e.payload| else 0
  {
    if remaining == 0 then []
    else [Output(e.sequence, e.End() - remaining, e.payload[|e.payload| - remaining..])]
  }

  /** Cutting a record twice cuts it at the later place. */
  lemma CutAgain(e: Event, offset: nat, remaining: nat)
    requires e.Output? && e.ContinuesAt(offset) && 0 < remaining <= |e.From(offset).payload|
    ensures e.From(offset).End() == e.End() && e.ContinuesAt(e.End() - remaining)
    ensures e.From(e.End() - remaining) == Cut(e.From(offset), remaining)[0]
  {
    var p := e.payload;
    if e.start < offset {
      assert p[offset - e.start..][|p| - (offset - e.start) - remaining..] == p[|p| - remaining..];
    }
    if e.start == e.End() - remaining {
      assert p[0..] == p;
    }
  }

  /** A resume at a stamped position reads the rest of the record it is inside, then everything after it. */
  lemma PositionSuffix(j: seq<Event>, from: Cursor, m: nat, remaining: nat)
    requires Contiguous(j) && ValidCursor(j, from) && m < |Suffix(j, from)|
    requires var e := Suffix(j, from)[m]; remaining <= if e.Output? then |e.payload| else 0
    ensures var e := Suffix(j, from)[m];
            var at := PositionWithin(e, remaining);
            && e.sequence == from.sequence + m + 1 && ValidCursor(j, at)
            && Suffix(j, at) == Cut(e, remaining) + Suffix(j, from)[m + 1..]
  {
    hide Contiguous, ValidCursor, Suffix, Cut, Event.From;
    var s := Suffix(j, from);
    SuffixSplit(j, from, m);
    SuffixSplit(j, from, m + 1);
    assert After(from, s[..m + 1]) == Cursor(s[m].sequence, s[m].End());
    if remaining > 0 {
      InsideRecord(j, After(from, s[..m]), remaining);
      assert s[m..][1..] == s[m + 1..];
    } else {
      NoCut(s[m], s[m + 1..]);
    }
  }

  lemma NoCut(e: Event, rest: seq<Event>)
    ensures Cut(e, 0) + rest == rest
  {
  }

  lemma InsideRecord(j: seq<Event>, c: Cursor, remaining: nat)
    requires ValidCursor(j, c) && c.sequence < |j| && Suffix(j, c)[0].Output?
    requires 0 < remaining <= |Suffix(j, c)[0].payload|
    ensures var at := Cursor(c.sequence, Suffix(j, c)[0].End() - remaining);
            ValidCursor(j, at) && Suffix(j, at) == Cut(Suffix(j, c)[0], remaining) + Suffix(j, c)[1..]
  {
    var e := j[c.sequence];
    assert Suffix(j, c)[0] == e.From(c.offset) && Suffix(j, c)[1..] == j[c.sequence + 1..];
    CutAgain(e, c.offset, remaining);
    hide Event.From;
    assert Cut(e.From(c.offset), remaining) == [e.From(e.End() - remaining)];
  }

  lemma Regroup<T>(a: seq<T>, b: seq<T>, c: seq<T>, d: seq<T>)
    ensures (a + b) + (c + d) == a + ((b + c) + d)
  {
  }

  lemma AtomsCons(e: Event, rest: seq<Event>)
    ensures Atoms([e] + rest) == AtomsOf(e) + Atoms(rest)
  {
    assert ([e] + rest)[1..] == rest;
  }

  lemma AtomsSplit(s: seq<Event>, m: nat)
    requires m < |s|
    ensures Atoms(s) == Atoms(s[..m]) + (AtomsOf(s[m]) + Atoms(s[m + 1..]))
  {
    assert s == s[..m] + s[m..];
    AtomsConcat(s[..m], s[m..]);
    AtomsStep(s, m);
  }

  /** The part of an event's atoms before its last `remaining` bytes. */
  function Part(e: Event, remaining: nat): seq<Atom>
    requires remaining <= if e.Output? then |e.payload| else 0
  {
    if e.Output? then Raws(e.payload[..|e.payload| - remaining]) else AtomsOf(e)
  }

  lemma PartRest(e: Event, remaining: nat)
    requires remaining <= if e.Output? then |e.payload| else 0
    ensures Part(e, 0) == AtomsOf(e)
    ensures remaining > 0 ==> Part(e, remaining) + AtomsOf(Cut(e, remaining)[0]) == AtomsOf(e)
  {
    if e.Output? {
      var n := |e.payload| - remaining;
      assert e.payload[..|e.payload|] == e.payload == e.payload[..n] + e.payload[n..];
      RawsConcat(e.payload[..n], e.payload[n..]);
    }
  }

  /** The part shown and the part left over make the whole. */
  lemma PartsMakeWhole(s: seq<Event>, m: nat, remaining: nat)
    requires m < |s| && remaining <= if s[m].Output? then |s[m].payload| else 0
    ensures (Atoms(s[..m]) + Part(s[m], remaining)) + Atoms(Cut(s[m], remaining) + s[m + 1..]) == Atoms(s)
  {
    var e := s[m];
    AtomsSplit(s, m);
    PartRest(e, remaining);
    if remaining > 0 {
      AtomsCons(Cut(e, remaining)[0], s[m + 1..]);
      assert Cut(e, remaining) == [Cut(e, remaining)[0]];
      hide Atoms, AtomsOf, Part, Cut;
      Regroup(Atoms(s[..m]), Part(e, remaining), AtomsOf(Cut(e, remaining)[0]), Atoms(s[m + 1..]));
    } else {
      assert Cut(e, 0) + s[m + 1..] == s[m + 1..];
      hide Atoms, AtomsOf, Part, Cut;
      assert (Atoms(s[..m]) + AtomsOf(e)) + Atoms(s[m + 1..]) == Atoms(s[..m]) + (AtomsOf(e) + Atoms(s[m + 1..]));
    }
  }

  lemma SizeWithin(j: seq<Event>, from: Cursor, m: nat, remaining: nat)
    requires Contiguous(j) && from.sequence <= |j| && m < |Suffix(j, from)|
    requires var e := Suffix(j, from)[m]; remaining <= if e.Output? then |e.payload| else 0
    ensures var s := Suffix(j, from);
            var at := PositionWithin(s[m], remaining);
            at.sequence <= |j| &&
            SizeAt(j, at.sequence) == Latest(SizeAt(j, from.sequence), Atoms(s[..m]) + Part(s[m], remaining))
  {
    var e := Suffix(j, from)[m];
    SizeFollows(j, from, m);
    LatestConcat(SizeAt(j, from.sequence), Atoms(Suffix(j, from)[..m]), Part(e, remaining));
    if e.Output? {
      LatestRaws(SizeAt(j, from.sequence + m), e.payload[..|e.payload| - remaining]);
    }
  }

  /** The position stamped after part of an event is where that part ends, whatever frames carried it. */
  lemma PositionExact(j: seq<Event>, from: Cursor, m: nat, remaining: nat)
    requires Contiguous(j) && ValidCursor(j, from) && m < |Suffix(j, from)|
    requires var e := Suffix(j, from)[m]; remaining <= if e.Output? then |e.payload| else 0
    ensures var s := Suffix(j, from);
            s[m].sequence > 0 &&
            ResumesAt(j, from, Atoms(s[..m]) + Part(s[m], remaining), PositionWithin(s[m], remaining))
  {
    PositionSuffix(j, from, m, remaining);
    PartsMakeWhole(Suffix(j, from), m, remaining);
    SizeWithin(j, from, m, remaining);
    assert from.sequence <= |j|;
    hide Latest, SizeAt, Atoms, Part, Cut, Suffix, Contiguous;
  }

  // ---- Writing ---------------------------------------------------------------------------------------------

  /** Every frame of an attachment opened at `from` resumes exactly, and none carries more than one frame's bytes. */
  ghost predicate Exact(j: seq<Event>, from: Cursor, frames: seq<Frame>) {
    forall n :: 0 < n <= |frames| ==>
      && ResumesAt(j, from, Shown(frames[..n]), frames[n - 1].at)
      && (frames[n - 1].Live? ==> 0 < |frames[n - 1].data| <= FrameBytes)
      && (frames[n - 1].Prepare? ==> |frames[n - 1].replay| <= FrameBytes)
  }

  lemma ExactAppend(j: seq<Event>, from: Cursor, frames: seq<Frame>, f: Frame)
    requires Exact(j, from, frames) && ResumesAt(j, from, Shown(frames) + ShownBy(f), f.at)
    requires f.Live? ==> 0 < |f.data| <= FrameBytes
    requires f.Prepare? ==> |f.replay| <= FrameBytes
    ensures Exact(j, from, frames + [f])
  {
    hide ResumesAt, Shown;
    ShownAppend(frames, f);
    var all := frames + [f];
    forall n | 0 < n <= |all|
      ensures && ResumesAt(j, from, Shown(all[..n]), all[n - 1].at)
              && (all[n - 1].Live? ==> 0 < |all[n - 1].data| <= FrameBytes)
              && (all[n - 1].Prepare? ==> |all[n - 1].replay| <= FrameBytes)
    {
      if n == |all| {
        assert all[..n] == all;
      } else {
        assert all[..n] == frames[..n];
        assert ResumesAt(j, from, Shown(frames[..n]), frames[n - 1].at);
      }
    }
  }

  /** A longer part of the same event. */
  lemma PartGrows(e: Event, remaining: nat, take: nat)
    requires e.Output? && take <= remaining <= |e.payload|
    ensures Part(e, remaining) + Raws(e.payload[|e.payload| - remaining..][..take]) == Part(e, remaining - take)
  {
    var n := |e.payload| - remaining;
    assert e.payload[..n + take] == e.payload[..n] + e.payload[n..][..take];
    RawsConcat(e.payload[..n], e.payload[n..][..take]);
  }

  /** Taking `take` more bytes of the event into the run moves what is shown or packed along the event. */
  lemma Packed(shown: seq<Atom>, data: seq<Byte>, base: seq<Atom>, e: Event, remaining: nat, take: nat)
    requires e.Output? && take <= remaining <= |e.payload|
    requires shown + Raws(data) == base + Part(e, remaining)
    ensures shown + Raws(data + e.payload[|e.payload| - remaining..][..take]) == base + Part(e, remaining - take)
  {
    var chunk := e.payload[|e.payload| - remaining..][..take];
    PartGrows(e, remaining, take);
    RawsConcat(data, chunk);
    hide Raws, Part;
    assert shown + (Raws(data) + Raws(chunk)) == (shown + Raws(data)) + Raws(chunk);
    assert (base + Part(e, remaining)) + Raws(chunk) == base + (Part(e, remaining) + Raws(chunk));
  }

  /** Nothing of the event, and all of it. */
  lemma PartEnds(base: seq<Atom>, e: Event)
    requires e.Output?
    ensures base + Part(e, |e.payload|) == base && Part(e, 0) == AtomsOf(e)
  {
    assert e.payload[..0] == [] && e.payload[..|e.payload|] == e.payload;
  }

  lemma NoData(shown: seq<Atom>)
    ensures shown + Raws([]) == shown
  {
  }

  predicate FullFrom(frames: seq<Frame>, base: nat) {
    forall i :: base <= i < |frames| ==> frames[i].Live? && |frames[i].data| == FrameBytes
  }

  /** Of two LIVE frames in a row the first is full. */
  predicate Dense(frames: seq<Frame>, base: nat) {
    forall i, k :: base <= i && k == i + 1 < |frames| && frames[i].Live? && frames[k].Live? ==> |frames[i].data| == FrameBytes
  }

  predicate EndsFull(frames: seq<Frame>, base: nat) {
    |frames| > base && frames[|frames| - 1].Live? ==> |frames[|frames| - 1].data| == FrameBytes
  }

  lemma NoneNew(frames: seq<Frame>)
    ensures Dense(frames, |frames|) && EndsFull(frames, |frames|) && FullFrom(frames, |frames|)
  {
  }

  /** Full frames behind full frames. */
  lemma DenseFull(a: seq<Frame>, b: seq<Frame>, base: nat)
    requires base <= |a| && a <= b && Dense(a, base) && EndsFull(a, base) && FullFrom(b, |a|)
    ensures Dense(b, base) && EndsFull(b, base)
  {
  }

  /** At most one more frame, full or not, and after it a resize. */
  lemma DenseEnds(a: seq<Frame>, b: seq<Frame>, c: seq<Frame>, base: nat)
    requires base <= |a| && a <= b <= c && |b| <= |a| + 1 && Dense(a, base) && EndsFull(a, base)
    requires c == b || (|c| == |b| + 1 && c[|b|].Resized?)
    ensures Dense(b, base) && Dense(c, base) && (|c| > |b| ==> EndsFull(c, base))
  {
  }

  /** The writer and the run of output it is packing. `accepts` is how many more frames the peer takes before the
      attachment ends. */
  class FrameWriter {
    var frames: seq<Frame>
    var accepts: nat
    var data: seq<Byte>
    var at: Cursor
    ghost const j: seq<Event>
    const from: Cursor
    ghost var done: nat

    ghost predicate Stream()
    {
      Contiguous(j) && ValidCursor(j, from) && from.sequence <= |j|
    }

    /** The first `done` events of the stream are shown or waiting in the run. */
    ghost predicate Valid()
      reads this
    {
      && Stream() && done <= |Suffix(j, from)|
      && Exact(j, from, frames)
      && Shown(frames) + Raws(data) == Atoms(Suffix(j, from)[..done])
      && |data| < FrameBytes
      && (data != [] ==> ResumesAt(j, from, Shown(frames) + Raws(data), at))
    }

    constructor (accepts: nat, ghost j: seq<Event>, from: Cursor)
      requires Contiguous(j) && ValidCursor(j, from)
      ensures Valid() && frames == [] && done == 0 && data == [] && this.j == j && this.from == from && this.accepts == accepts
    {
      this.frames, this.accepts, this.data, this.at, this.j, this.from, this.done := [], accepts, [], Cursor(0, 0), j, from, 0;
      assert Suffix(j, from)[..0] == [];
    }

    method Send(f: Frame) returns (ok: bool)
      requires Exact(j, from, frames) && ResumesAt(j, from, Shown(frames) + ShownBy(f), f.at)
      requires f.Live? ==> 0 < |f.data| <= FrameBytes
      requires f.Prepare? ==> |f.replay| <= FrameBytes
      modifies this`frames, this`accepts
      ensures Exact(j, from, frames)
      ensures ok <==> old(accepts) > 0
      ensures frames == if ok then old(frames) + [f] else old(frames)
      ensures accepts + |frames| == old(accepts) + |old(frames)|
      ensures ok ==> Shown(frames) == Shown(old(frames)) + ShownBy(f)
    {
      if accepts == 0 {
        return false;
      }
      ExactAppend(j, from, frames, f);
      ShownAppend(frames, f);
      accepts := accepts - 1;
      frames := frames + [f];
      ok := true;
    }

    /** PREPARE replays the leading output events that fit in its bound, whole. What it opens with is what had been
        committed by then; `j` may be longer. */
    method WritePrepare(events: seq<Event>, initial: Geometry) returns (ok: bool, rest: seq<Event>)
      requires Valid() && events <= Suffix(j, from) && frames == [] && done == 0 && data == []
      modifies this
      ensures Exact(j, from, frames) && data == []
      ensures (ok <==> old(accepts) > 0) && accepts + |frames| == old(accepts)
      ensures ok ==> Valid() && done <= |events| && rest == events[done..] && |frames| == 1 && frames[0].Prepare?
      ensures ok && done < |events| ==>
                !events[done].Output? || |frames[0].replay| + |events[done].payload| > FrameBytes
    {
      hide Atoms, Suffix, Contiguous, ValidCursor, Exact, Raws;
      var replay: seq<Byte> := [];
      var position := from;
      rest := events;
      var index := 0;
      NoData([]);
      NoData(Shown(frames));
      assert ResumesAt(j, from, Raws(replay), from);
      while index < |events|
        invariant 0 <= index <= |events| && rest == events[index..] && |replay| <= FrameBytes
        invariant Raws(replay) == Atoms(events[..index])
        invariant ResumesAt(j, from, Raws(replay), position)
        invariant frames == old(frames) && accepts == old(accepts) && data == [] && Exact(j, from, frames)
      {
        var event := events[index];
        if !event.Output? || |replay| + |event.payload| > FrameBytes {
          break;
        }
        AtomsStep(events, index);
        assert events[..index] == Suffix(j, from)[..index];
        RawsConcat(replay, event.payload);
        PartEnds([], event);
        PositionExact(j, from, index, 0);
        replay := replay + event.payload;
        position := PositionWithin(event, 0);
        index := index + 1;
        rest := events[index..];
      }
      var frame := Prepare(initial, replay, position);
      assert Shown(frames) + ShownBy(frame) == Raws(replay);
      ok := Send(frame);
      if ok {
        NoData(Shown(frames));
        assert events[..index] == Suffix(j, from)[..index];
        done := index;
      }
    }

    method Flush() returns (ok: bool)
      requires Valid()
      modifies this`frames, this`accepts, this`data
      ensures Exact(j, from, frames) && old(frames) <= frames && accepts + |frames| == old(accepts) + |old(frames)|
      ensures !ok <==> old(data) != [] && old(accepts) == 0
      ensures |frames| == |old(frames)| + (if ok && old(data) != [] then 1 else 0)
      ensures ok ==> Valid() && data == [] && Shown(frames) == Atoms(Suffix(j, from)[..done])
    {
      hide Latest, SizeAt, Atoms, Suffix, Contiguous, ValidCursor, Exact, Raws, ResumesAt, Shown;
      NoData(Shown(frames));
      if data == [] {
        return true;
      }
      ok := Send(Live(data, at));
      data := [];
      NoData(Shown(frames));
    }

    /** liveRun.add: append one output event to the run, sending a frame whenever it is full. */
    method Add(event: Event) returns (ok: bool)
      requires Valid() && done < |Suffix(j, from)| && event == Suffix(j, from)[done] && event.Output?
      modifies this
      ensures Exact(j, from, frames) && old(frames) <= frames && accepts + |frames| == old(accepts) + |old(frames)|
      ensures FullFrom(frames, |old(frames)|)
      ensures !ok ==> accepts == 0
      ensures ok ==> Valid() && done == old(done) + 1
    {
      hide Latest, SizeAt, Atoms, Suffix, Contiguous, ValidCursor, Exact, Raws, ResumesAt, Shown, Part;
      var payload := event.payload;
      ghost var base := Atoms(Suffix(j, from)[..done]);
      PartEnds(base, event);
      while |payload| != 0
        invariant |payload| <= |event.payload| && payload == event.payload[|event.payload| - |payload|..]
        invariant Exact(j, from, frames) && |data| < FrameBytes && done == old(done) && old(frames) <= frames
        invariant accepts + |frames| == old(accepts) + |old(frames)| && FullFrom(frames, |old(frames)|)
        invariant Shown(frames) + Raws(data) == base + Part(event, |payload|)
        invariant data != [] ==> ResumesAt(j, from, Shown(frames) + Raws(data), at)
      {
        var take := Min(FrameBytes - |data|, |payload|);
        Packed(Shown(frames), data, base, event, |payload|, take);
        PositionExact(j, from, done, |payload| - take);
        data := data + payload[..take];
        payload := payload[take..];
        at := PositionWithin(event, |payload|);
        if |data| == FrameBytes {
          ok := Send(Live(data, at));
          data := [];
          if !ok {
            return;
          }
          NoData(Shown(frames));
        }
      }
      AtomsStep(Suffix(j, from), done);
      done := done + 1;
      ok := true;
    }

    /** writeBacklogLocked and writeCatchUp: consecutive output shares frames, a geometry record ends the run. */
    method WriteRun(events: seq<Event>) returns (ok: bool)
      requires Valid() && done + |events| <= |Suffix(j, from)| && events == Suffix(j, from)[done..done + |events|]
      modifies this
      ensures Exact(j, from, frames) && old(frames) <= frames && accepts + |frames| == old(accepts) + |old(frames)|
      ensures Dense(frames, |old(frames)|)
      ensures !ok ==> accepts == 0
      ensures ok ==> Valid() && data == [] && done == old(done) + |events|
      ensures ok ==> Shown(frames) == Atoms(Suffix(j, from)[..done])
    {
      hide Exact, Atoms, Shown, Suffix, Contiguous, ValidCursor, Raws, ResumesAt, Dense, EndsFull, FullFrom;
      ghost var base := |frames|;
      NoneNew(frames);
      var i := 0;
      while i < |events|
        invariant 0 <= i <= |events| && Valid() && done == old(done) + i && old(frames) <= frames
        invariant accepts + |frames| == old(accepts) + |old(frames)|
        invariant Dense(frames, base) && EndsFull(frames, base)
      {
        ghost var packed := frames;
        if !events[i].Output? {
          ok := Flush();
          ghost var flushed := frames;
          DenseEnds(packed, flushed, flushed, base);
          if !ok {
            return;
          }
          ok := WriteEvent(events[i]);
          DenseEnds(packed, flushed, frames, base);
        } else {
          ok := Add(events[i]);
          DenseFull(packed, frames, base);
        }
        if !ok {
          return;
        }
        i := i + 1;
      }
      ghost var packed := frames;
      ok := Flush();
      DenseEnds(packed, frames, frames, base);
    }

    /** writeEventLocked: one event by itself, its output in frames of at most the bound. */
    method WriteEvent(event: Event) returns (ok: bool)
      requires Valid() && data == [] && done < |Suffix(j, from)| && event == Suffix(j, from)[done]
      modifies this`frames, this`accepts, this`done
      ensures Exact(j, from, frames) && old(frames) <= frames && accepts + |frames| == old(accepts) + |old(frames)|
      ensures !ok ==> accepts == 0
      ensures event.Resize? ==> if ok then |frames| == |old(frames)| + 1 && frames[|old(frames)|].Resized? else frames == old(frames)
      ensures ok && event.Output? ==> |frames| == |old(frames)| + CeilDiv(|event.payload|, FrameBytes)
      ensures ok ==> Valid() && data == [] && done == old(done) + 1
    {
      hide Latest, SizeAt, Atoms, Suffix, Contiguous, ValidCursor, Exact, Raws, ResumesAt, Shown;
      ghost var base := Atoms(Suffix(j, from)[..done]);
      AtomsStep(Suffix(j, from), done);
      NoData(Shown(frames));
      if event.Resize? {
        PositionExact(j, from, done, 0);
        ok := Send(Resized(event.geometry, PositionWithin(event, 0)));
        done := done + 1;
        NoData(Shown(frames));
        return;
      }
      hide Part;
      var payload := event.payload;
      PartEnds(base, event);
      while |payload| != 0
        invariant |payload| <= |event.payload| && payload == event.payload[|event.payload| - |payload|..]
        invariant Exact(j, from, frames) && done == old(done) && old(frames) <= frames
        invariant accepts + |frames| == old(accepts) + |old(frames)|
        invariant |frames| + CeilDiv(|payload|, FrameBytes) == |old(frames)| + CeilDiv(|event.payload|, FrameBytes)
        invariant Shown(frames) == base + Part(event, |payload|)
      {
        var chunk := payload[..Min(|payload|, FrameBytes)];
        CeilStep(|payload|, FrameBytes);
        CeilStep(0, FrameBytes);
        NoData(Shown(frames));
        Packed(Shown(frames), [], base, event, |payload|, |chunk|);
        assert [] + chunk == chunk;
        PositionExact(j, from, done, |payload| - |chunk|);
        payload := payload[|chunk|..];
        ok := Send(Live(chunk, PositionWithin(event, |payload|)));
        if !ok {
          return;
        }
      }
      CeilStep(0, FrameBytes);
      done := done + 1;
      NoData(Shown(frames));
      ok := true;
    }

    /** An attachment's whole opening: PREPARE, then after COMMIT the backlog it did not carry. */
    method WriteOpening(events: seq<Event>, initial: Geometry) returns (ok: bool)
      requires Valid() && events == Suffix(j, from) && frames == [] && done == 0 && data == []
      modifies this
      ensures Exact(j, from, frames)
      ensures !ok ==> accepts == 0 && |frames| == old(accepts)
      ensures ok ==> Shown(frames) == Atoms(Suffix(j, from)) && done == |Suffix(j, from)| && Valid() && data == []
    {
      hide Exact, Atoms, Shown, Suffix, Contiguous, ValidCursor, Raws, ResumesAt, Dense;
      var rest: seq<Event>;
      ok, rest := WritePrepare(events, initial);
      if !ok {
        return;
      }
      assert rest == Suffix(j, from)[done..done + |rest|];
      ok := WriteRun(rest);
      assert Suffix(j, from)[..|Suffix(j, from)|] == Suffix(j, from);
    }
  }
  // ---- Resuming --------------------------------------------------------------------------------------------

  lemma ResumesGrow(j: seq<Event>, e: Event, from: Cursor, shown: seq<Atom>, at: Cursor)
    requires Contiguous(j) && Contiguous(j + [e]) && ValidCursor(j, from) && ResumesAt(j, from, shown, at)
    ensures ResumesAt(j + [e], from, shown, at) && ValidCursor(j + [e], from)
  {
    hide Latest, SizeAt, Contiguous, Atoms;
    SuffixGrows(j, e, from);
    SuffixGrows(j, e, at);
    AtomsConcat(Suffix(j, from), [e]);
    AtomsConcat(Suffix(j, at), [e]);
    SizeKept(j, e, at.sequence);
    SizeKept(j, e, from.sequence);
    assert shown + (Atoms(Suffix(j, at)) + Atoms([e])) == (shown + Atoms(Suffix(j, at))) + Atoms([e]);
    hide Suffix;
  }

  /** A stamped position stays exact however much is committed before the page comes back. */
  lemma {:induction false} ResumesLater(j: seq<Event>, more: seq<Event>, from: Cursor, shown: seq<Atom>, at: Cursor)
    requires Contiguous(j) && Contiguous(j + more) && ValidCursor(j, from) && ResumesAt(j, from, shown, at)
    ensures ResumesAt(j + more, from, shown, at) && ValidCursor(j + more, from)
  {
    hide *;
    if more == [] {
      assert j + more == j;
    } else {
      var init := more[..|more| - 1];
      assert (j + init) + [more[|more| - 1]] == j + more;
      assert (j + more)[..|j + init|] == j + init;
      PrefixContiguous(j + more, |j + init|);
      ResumesLater(j, init, from, shown, at);
      ResumesGrow(j + init, more[|more| - 1], from, shown, at);
    }
  }

  lemma {:induction false} SizeKept(j: seq<Event>, e: Event, sequence: nat)
    requires sequence <= |j|
    ensures SizeAt(j + [e], sequence) == SizeAt(j, sequence)
  {
    if sequence > 0 {
      SizeKept(j, e, sequence - 1);
    }
  }

  /** A page that keeps the first `n` frames and is later given a whole opening resumed at the last one's position
      has been shown the whole stream: every byte and geometry once, in order. */
  lemma ResumeIsExact(j: seq<Event>, more: seq<Event>, from: Cursor, frames: seq<Frame>, n: nat, resumed: seq<Frame>)
    requires Contiguous(j) && Contiguous(j + more) && ValidCursor(j, from) && Exact(j, from, frames)
    requires 0 < n <= |frames|
    requires frames[n - 1].at.sequence <= |j + more| ==> Shown(resumed) == Atoms(Suffix(j + more, frames[n - 1].at))
    ensures from.sequence <= |j + more| && Shown(frames[..n]) + Shown(resumed) == Atoms(Suffix(j + more, from))
  {
    ResumesLater(j, more, from, Shown(frames[..n]), frames[n - 1].at);
  }
}
