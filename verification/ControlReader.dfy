/** Reads of a control terminal through the normaliser and the decoder: however the bytes are cut into reads, the
    outcome is the same, and what the multiplexer wrote comes out. */
module ControlReader {
  import opened Basics
  import opened ControlStream

  /** The decoder between reads: a complete-line prefix already decoded, at most one unfinished line kept. */
  datatype Decoder = Decoder(buffer: seq<Byte>, failed: bool, command: Option<Witness>)

  const Unused := Decoder([], false, None)

  /** The events of one read with the next decoder; a fault keeps the events before it and drops the buffer. */
  function Fed(d: Decoder, input: seq<Byte>): (Decoder, seq<Event>) {
    if d.failed then (d, [])
    else
      var x := Drain(d.buffer + input, d.command);
      (Decoder(x.rest, x.failed, x.command), x.events)
  }

  /** Closing faults on an unfinished line or an open command. */
  function ClosedCleanly(d: Decoder): bool {
    !d.failed && d.buffer == [] && d.command.None?
  }

  /** The read loop and the decoder behind it, with everything decoded so far. */
  datatype Reader = Reader(pendingCR: bool, decoder: Decoder, events: seq<Event>)

  const Start := Reader(false, Unused, [])

  function ReadOne(r: Reader, read: seq<Byte>): Reader {
    var (chunk, pendingCR) := Normalise(r.pendingCR, read);
    if chunk == [] then r.(pendingCR := pendingCR)
    else
      var (decoder, events) := Fed(r.decoder, chunk);
      Reader(pendingCR, decoder, r.events + events)
  }

  function ReadAll(r: Reader, cuts: seq<seq<Byte>>): Reader
    decreases |cuts|
  {
    if cuts == [] then r else ReadAll(ReadOne(r, cuts[0]), cuts[1..])
  }

  function Flat(cuts: seq<seq<Byte>>): seq<Byte> {
    if cuts == [] then [] else cuts[0] + Flat(cuts[1..])
  }

  /** The decoder rests: nothing in its buffer can be decoded yet. */
  ghost predicate Rests(d: Decoder) {
    if d.failed then d.buffer == [] else Drain(d.buffer, d.command) == Drained([], d.buffer, d.command, false)
  }

  lemma UnusedRests()
    ensures Rests(Unused)
  {
  }

  lemma FedRests(d: Decoder, input: seq<Byte>)
    requires Rests(d)
    ensures Rests(Fed(d, input).0)
  {
    if !d.failed {
      DrainRest(d.buffer + input, d.command);
      hide Drain;
    }
  }

  lemma FedAppend(d: Decoder, a: seq<Byte>, b: seq<Byte>)
    requires Rests(d)
    ensures var (d1, x) := Fed(d, a); var (d2, y) := Fed(d1, b); Fed(d, a + b) == (d2, x + y)
  {
    hide Drain;
    if !d.failed {
      DrainAppend(d.buffer + a, b, d.command);
      assert d.buffer + (a + b) == d.buffer + a + b;
      var x := Drain(d.buffer + a, d.command);
      assert x.events + [] == x.events;
    } else {
      assert Fed(d, a).1 + Fed(d, b).1 == [];
    }
  }

  /** Delivering an empty chunk would change nothing. */
  lemma FedNothing(d: Decoder)
    requires Rests(d)
    ensures Fed(d, []) == (d, [])
  {
    assert d.buffer + [] == d.buffer;
  }

  lemma ReadOneFeeds(r: Reader, read: seq<Byte>)
    requires Rests(r.decoder)
    ensures var (chunk, pendingCR) := Normalise(r.pendingCR, read);
            var (decoder, events) := Fed(r.decoder, chunk);
            ReadOne(r, read) == Reader(pendingCR, decoder, r.events + events)
    ensures Rests(ReadOne(r, read).decoder)
  {
    hide Fed, Normalise;
    var chunk := Normalise(r.pendingCR, read).0;
    FedNothing(r.decoder);
    FedRests(r.decoder, chunk);
    assert r.events + [] == r.events;
  }

  lemma ReadAppend(r: Reader, a: seq<Byte>, b: seq<Byte>)
    requires Rests(r.decoder)
    ensures ReadOne(ReadOne(r, a), b) == ReadOne(r, a + b)
  {
    hide Fed, Normalise;
    ReadOneFeeds(r, a);
    ReadOneFeeds(ReadOne(r, a), b);
    ReadOneFeeds(r, a + b);
    NormaliseAppend(r.pendingCR, a, b);
    var (x, p) := Normalise(r.pendingCR, a);
    var (y, q) := Normalise(p, b);
    FedAppend(r.decoder, x, y);
    var (d1, e1) := Fed(r.decoder, x);
    assert r.events + e1 + Fed(d1, y).1 == r.events + (e1 + Fed(d1, y).1);
  }

  lemma {:induction false} ReadsAreOne(r: Reader, cuts: seq<seq<Byte>>)
    requires Rests(r.decoder)
    ensures ReadAll(r, cuts) == ReadOne(r, Flat(cuts))
    decreases |cuts|
  {
    if cuts != [] {
      ReadOneFeeds(r, cuts[0]);
      ReadsAreOne(ReadOne(r, cuts[0]), cuts[1..]);
      ReadAppend(r, cuts[0], Flat(cuts[1..]));
    }
  }

  /** Two cuttings of the same bytes give the same events, the same open command and partial line, the same held CR,
      and have failed alike. */
  lemma CuttingDoesNotMatter(cuts: seq<seq<Byte>>, others: seq<seq<Byte>>)
    requires Flat(cuts) == Flat(others)
    ensures ReadAll(Start, cuts) == ReadAll(Start, others)
  {
    UnusedRests();
    ReadsAreOne(Start, cuts);
    ReadsAreOne(Start, others);
  }

  /** A fault is final. */
  lemma {:induction false} FaultIsFinal(r: Reader, cuts: seq<seq<Byte>>)
    requires r.decoder.failed
    ensures ReadAll(r, cuts).decoder == r.decoder && ReadAll(r, cuts).events == r.events
    decreases |cuts|
  {
    if cuts != [] {
      FaultIsFinal(ReadOne(r, cuts[0]), cuts[1..]);
    }
  }

  /** Whatever arrives, the events are properly bracketed commands, and a reader that closes cleanly has no command
      left open. */
  lemma ReadsBracketed(cuts: seq<seq<Byte>>)
    ensures var r := ReadAll(Start, cuts); Bracket(false, r.events) == Some(r.decoder.command.Some?)
  {
    hide Drain, Normalise, Bracket;
    UnusedRests();
    ReadsAreOne(Start, cuts);
    ReadOneFeeds(Start, Flat(cuts));
    var chunk := Normalise(false, Flat(cuts)).0;
    assert [] + chunk == chunk;
    EventsBracketed(chunk, None);
    var events := Drain(chunk, None).events;
    assert [] + events == events;
  }

  // ---- What the multiplexer writes -------------------------------------------------------------------------

  /** One output record: extended output carries an age. `mask` marks the payload bytes written as escapes. */
  datatype RawRecord = RawRecord(pane: seq<Byte>, age: Option<nat>, mask: seq<bool>, data: seq<Byte>)

  type Record = r: RawRecord | |r.mask| == |r.data| witness RawRecord([], None, [], [])

  function Decimal(n: nat): (s: seq<Byte>)
    ensures s != [] && forall i :: 0 <= i < |s| ==> Digit(s[i])
  {
    (if n < 10 then [] else Decimal(n / 10)) + [(48 + n % 10) as Byte]
  }

  lemma {:induction false} DecimalValue(n: nat)
    ensures Value(Decimal(n)) == n
  {
    var s := Decimal(n);
    var head := if n < 10 then [] else Decimal(n / 10);
    assert s == head + [(48 + n % 10) as Byte] && s[..|s| - 1] == head;
    if n >= 10 {
      DecimalValue(n / 10);
    }
  }

  function Body(r: Record): seq<Byte> {
    (if r.age.Some? then Decimal(r.age.value) + [Space] + Lit(": ") else []) + Escaped(r.mask, r.data)
  }

  function Line(r: Record): seq<Byte> {
    (if r.age.Some? then Lit("%extended-output ") else Lit("%output ")) + (r.pane + [Space] + Body(r))
  }

  /** A pane name is one word; a backslash or newline in the data is escaped; ages fit 64 bits, records the limit. */
  ghost predicate Writable(r: Record) {
    && r.pane != [] && (forall i :: 0 <= i < |r.pane| ==> r.pane[i] != Space && r.pane[i] != LF)
    && Covers(r.mask, r.data)
    && (forall i :: 0 <= i < |r.data| && r.data[i] == LF ==> r.mask[i])
    && (r.age.Some? ==> r.age.value < 0x1_0000_0000_0000_0000)
    && |Line(r)| <= MaxRecord
  }

  function EventOf(r: Record): Event {
    if r.age.Some? then Event(ExtendedOutput, r.pane, r.age.value, r.data, "", [])
    else Event(Output, r.pane, 0, r.data, "", [])
  }

  lemma OutputDecodes(r: Record)
    requires Writable(r) && r.age.None?
    ensures DecodeOutput(r.pane + [Space] + Body(r), false) == Some(EventOf(r))
  {
    hide Escaped, Payload;
    var rest := r.pane + [Space] + Body(r);
    FindIs(rest, Space, |r.pane|);
    assert rest[..|r.pane|] == r.pane;
    assert rest[|r.pane| + 1..] == Escaped(r.mask, r.data);
    PayloadInverts(r.mask, r.data);
  }

  lemma DecimalParses(n: nat)
    requires n < 0x1_0000_0000_0000_0000
    ensures ParseUint(Decimal(n)) == Some(n)
    ensures Find(Decimal(n) + [Space], Space) == |Decimal(n)|
    ensures forall i :: 0 <= i < |Decimal(n)| ==> Decimal(n)[i] != Space
  {
    DecimalValue(n);
    var digits := Decimal(n);
    forall i | 0 <= i < |digits| ensures digits[i] != Space {
      assert Digit(digits[i]);
    }
    FindIs(digits + [Space], Space, |digits|);
  }

  lemma ExtendedBody(age: nat, encoded: seq<Byte>, body: seq<Byte>)
    requires age < 0x1_0000_0000_0000_0000 && body == Decimal(age) + [Space] + Lit(": ") + encoded
    ensures var end := Find(body, Space);
            && 0 < end < |body| && ParseUint(body[..end]) == Some(age)
            && Lit(": ") <= body[end + 1..] && body[end + 1..][2..] == encoded
  {
    hide ParseUint, Decimal, Find;
    DecimalParses(age);
    var digits := Decimal(age);
    FindIs(body, Space, |digits|);
    assert body[..|digits|] == digits;
    assert body[|digits| + 1..] == Lit(": ") + encoded;
    assert (Lit(": ") + encoded)[2..] == encoded;
  }

  lemma ExtendedDecodes(r: Record)
    requires Writable(r) && r.age.Some?
    ensures DecodeOutput(r.pane + [Space] + Body(r), true) == Some(EventOf(r))
  {
    hide Escaped, Payload, Decimal, Find, ParseUint, Lit;
    var rest := r.pane + [Space] + Body(r);
    FindIs(rest, Space, |r.pane|);
    assert rest[..|r.pane|] == r.pane && rest[|r.pane| + 1..] == Body(r);
    ExtendedBody(r.age.value, Escaped(r.mask, r.data), Body(r));
    PayloadInverts(r.mask, r.data);
  }

  /** Decoding a written line gives back the record, outside any command. */
  lemma LineDecodes(r: Record)
    requires Writable(r)
    ensures DecodeLine(None, Line(r)) == Some((EventOf(r), None))
  {
    hide DecodeOutput, Body;
    var rest := r.pane + [Space] + Body(r);
    var line := Line(r);
    if r.age.Some? {
      ExtendedDecodes(r);
      assert line[1] as int == 'e' as int;
      assert line[17..] == rest;
      assert Lit("%begin ")[1] as int == 'b' as int && Lit("%output ")[1] as int == 'o' as int;
    } else {
      OutputDecodes(r);
      assert line[1] as int == 'o' as int;
      assert line[8..] == rest;
      assert Lit("%begin ")[1] as int == 'b' as int;
    }
  }

  lemma {:induction false} EscapedHasNoNewline(mask: seq<bool>, data: seq<Byte>)
    requires |mask| == |data| && forall i :: 0 <= i < |data| && data[i] == LF ==> mask[i]
    ensures forall i :: 0 <= i < |Escaped(mask, data)| ==> Escaped(mask, data)[i] != LF
  {
    if data != [] {
      EscapedHasNoNewline(mask[1..], data[1..]);
    }
  }

  lemma LineHasNoNewline(r: Record)
    requires Writable(r)
    ensures forall i :: 0 <= i < |Line(r)| ==> Line(r)[i] != LF
  {
    hide Escaped, Decimal;
    EscapedHasNoNewline(r.mask, r.data);
    var body := Body(r);
    if r.age.Some? {
      var digits := Decimal(r.age.value);
      assert forall i :: 0 <= i < |digits| ==> Digit(digits[i]);
      assert forall i :: 0 <= i < |digits| ==> digits[i] != LF;
      assert forall i :: 0 <= i < |Lit(": ")| ==> Lit(": ")[i] != LF;
      assert forall i :: 0 <= i < |Lit("%extended-output ")| ==> Lit("%extended-output ")[i] != LF;
    } else {
      assert forall i :: 0 <= i < |Lit("%output ")| ==> Lit("%output ")[i] != LF;
    }
    assert forall i :: 0 <= i < |body| ==> body[i] != LF;
  }

  function Written(records: seq<Record>): seq<Byte> {
    if records == [] then [] else Line(records[0]) + [LF] + Written(records[1..])
  }

  function EventsOf(records: seq<Record>): seq<Event> {
    if records == [] then [] else [EventOf(records[0])] + EventsOf(records[1..])
  }

  lemma {:induction false} WrittenDrains(records: seq<Record>)
    requires forall r :: r in records ==> Writable(r)
    ensures Drain(Written(records), None) == Drained(EventsOf(records), [], None, false)
  {
    hide Writable, Line, DecodeLine;
    if records != [] {
      var r := records[0];
      var line, rest := Line(r), Written(records[1..]);
      var buffer := line + [LF] + rest;
      assert Writable(r);
      LineHasNoNewline(r);
      FindIs(buffer, LF, |line|);
      assert buffer[..|line|] == line && buffer[|line| + 1..] == rest;
      LineDecodes(r);
      LineFits(r);
      WrittenDrains(records[1..]);
    }
  }

  lemma LineFits(r: Record)
    requires Writable(r)
    ensures |Line(r)| <= MaxRecord
  {
  }

  /** Whatever output records the multiplexer writes, through the terminal's line-ending mapping and however the
      bytes are cut into reads, exactly those records are decoded, in order, and the decoder closes cleanly. */
  lemma RecordsArrive(records: seq<Record>, cuts: seq<seq<Byte>>)
    requires forall r :: r in records ==> Writable(r)
    requires Flat(cuts) == Mapped(Written(records))
    ensures var r := ReadAll(Start, cuts);
            r.events == EventsOf(records) && ClosedCleanly(r.decoder) && !r.pendingCR
  {
    hide Writable, Drain, Normalise, Mapped;
    UnusedRests();
    ReadsAreOne(Start, cuts);
    ReadOneFeeds(Start, Flat(cuts));
    var text := Written(records);
    NormaliseInverts(false, text);
    EndsWithNewline(records);
    var (out, held) := Normalise(false, Mapped(text));
    assert out + Held(held) == text;
    NothingHeld(out, held, text);
    WrittenDrains(records);
    assert [] + text == text && [] + EventsOf(records) == EventsOf(records);
  }

  lemma NothingHeld(out: seq<Byte>, held: bool, text: seq<Byte>)
    requires out + Held(held) == text && (text == [] || text[|text| - 1] == LF)
    ensures !held && out == text
  {
    assert (out + [CR])[|out|] == CR;
    assert out + [] == out;
  }

  lemma {:induction false} EndsWithNewline(records: seq<Record>)
    requires forall r :: r in records ==> Writable(r)
    ensures records != [] ==> Written(records) != [] && Written(records)[|Written(records)| - 1] == LF
  {
    hide Writable, Line;
    if |records| > 1 {
      EndsWithNewline(records[1..]);
    }
  }
}
