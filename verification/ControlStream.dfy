/** The control-mode byte stream as functions of its input: line endings, lines, payload escapes and commands. */
module ControlStream {
  import opened Basics
  import Journal

  type Byte = Journal.Byte

  const LF: Byte := 10
  const CR: Byte := 13
  const Space: Byte := 32
  const Backslash: Byte := 92

  const MaxRecord: nat := 0x100_0000

  /** An ASCII literal as bytes. */
  function Lit(s: string): (b: seq<Byte>)
    requires forall i :: 0 <= i < |s| ==> s[i] < 128 as char
    ensures |b| == |s| && forall i :: 0 <= i < |s| ==> b[i] as int == s[i] as int
  {
    seq(|s|, i requires 0 <= i < |s| => s[i] as int as Byte)
  }

  function Text(b: seq<Byte>): string {
    seq(|b|, i requires 0 <= i < |b| => b[i] as int as char)
  }

  // ---- Line endings ----------------------------------------------------------------------------------------

  /** One read through the line-ending normaliser: a CR is held back until the byte after it is known. */
  function Normalise(pendingCR: bool, read: seq<Byte>): (seq<Byte>, bool)
    decreases |read|
  {
    if read == [] then ([], pendingCR)
    else
      var (rest, pending) := Normalise(read[0] == CR, read[1..]);
      (Emitted(pendingCR, read[0]) + rest, pending)
  }

  /** What reaching `value` with or without a held CR lets through. */
  function Emitted(pendingCR: bool, value: Byte): seq<Byte> {
    if pendingCR && value == LF then [LF]
    else (if pendingCR then [CR] else []) + if value == CR then [] else [value]
  }

  function Held(pendingCR: bool): seq<Byte> {
    if pendingCR then [CR] else []
  }

  /** The terminal driver's output mapping: every LF leaves as CR LF. */
  function Mapped(text: seq<Byte>): seq<Byte> {
    if text == [] then [] else MappedByte(text[0]) + Mapped(text[1..])
  }

  function MappedByte(value: Byte): seq<Byte> {
    if value == LF then [CR, LF] else [value]
  }

  lemma NormaliseStep(pendingCR: bool, value: Byte, rest: seq<Byte>)
    ensures var (out, p) := Normalise(value == CR, rest);
            Normalise(pendingCR, [value] + rest) == (Emitted(pendingCR, value) + out, p)
  {
    assert ([value] + rest)[1..] == rest;
  }

  /** The claim of `NormaliseAppend` for `rest` gives it for one byte more in front. */
  lemma NormaliseGrows(pendingCR: bool, value: Byte, rest: seq<Byte>, b: seq<Byte>, x: seq<Byte>, p: bool, y: seq<Byte>,
                       q: bool)
    requires Normalise(value == CR, rest) == (x, p) && Normalise(value == CR, rest + b) == (x + y, q)
    ensures Normalise(pendingCR, [value] + rest) == (Emitted(pendingCR, value) + x, p)
    ensures Normalise(pendingCR, [value] + (rest + b)) == ((Emitted(pendingCR, value) + x) + y, q)
  {
    hide *;
    NormaliseStep(pendingCR, value, rest);
    NormaliseStep(pendingCR, value, rest + b);
    Associates(Emitted(pendingCR, value), x, y);
  }

  lemma Associates(a: seq<Byte>, b: seq<Byte>, c: seq<Byte>)
    ensures a + (b + c) == a + b + c
  {
  }

  lemma NormaliseNothing(pendingCR: bool, b: seq<Byte>)
    ensures Normalise(pendingCR, []) == ([], pendingCR) && [] + b == b
  {
  }

  lemma {:induction false} NormaliseAppend(pendingCR: bool, a: seq<Byte>, b: seq<Byte>)
    ensures var x := Normalise(pendingCR, a);
            var y := Normalise(x.1, b);
            Normalise(pendingCR, a + b) == (x.0 + y.0, y.1)
    decreases |a|
  {
    hide *;
    if a == [] {
      NormaliseNothing(pendingCR, b);
      NormaliseNothing(pendingCR, Normalise(pendingCR, b).0);
    } else {
      var rest := a[1..];
      NormaliseAppend(a[0] == CR, rest, b);
      var x := Normalise(a[0] == CR, rest);
      var y := Normalise(x.1, b);
      NormaliseGrows(pendingCR, a[0], rest, b, x.0, x.1, y.0, y.1);
      Associates([a[0]], rest, b);
      assert a == [a[0]] + rest;
    }
  }

  /** What one byte of text puts through the normaliser, after its mapping, with the byte before it held or not. */
  function Through(pendingCR: bool, value: Byte): seq<Byte> {
    Held(pendingCR) + if value == CR then [] else [value]
  }

  lemma NormaliseMapped(pendingCR: bool, value: Byte)
    ensures Normalise(pendingCR, MappedByte(value)) == (Through(pendingCR, value), value == CR)
  {
    OneByte(false, value);
    OneByte(true, LF);
    if value == LF {
      assert MappedByte(value)[1..] == [LF];
      assert Emitted(pendingCR, CR) + [LF] == Through(pendingCR, value);
    } else {
      OneByte(pendingCR, value);
      assert Emitted(pendingCR, value) == Through(pendingCR, value);
    }
  }

  lemma OneByte(pendingCR: bool, value: Byte)
    ensures Normalise(pendingCR, [value]) == (Emitted(pendingCR, value), value == CR)
  {
    assert [value][1..] == [];
    assert Emitted(pendingCR, value) + [] == Emitted(pendingCR, value);
  }

  lemma InvertsGrows(pendingCR: bool, value: Byte, rest: seq<Byte>)
    requires var x := Normalise(value == CR, Mapped(rest)); x.0 + Held(x.1) == Held(value == CR) + rest
    ensures var x := Normalise(pendingCR, MappedByte(value) + Mapped(rest));
            x.0 + Held(x.1) == Held(pendingCR) + ([value] + rest)
  {
    hide Normalise, Mapped, MappedByte;
    NormaliseMapped(pendingCR, value);
    NormaliseAppend(pendingCR, MappedByte(value), Mapped(rest));
    assert Through(pendingCR, value) + Held(value == CR) == Held(pendingCR) + [value];
    var x := Normalise(value == CR, Mapped(rest));
    Regroup(Through(pendingCR, value), x.0, Held(x.1), Held(value == CR), rest);
    assert Held(pendingCR) + [value] + rest == Held(pendingCR) + ([value] + rest);
  }

  /** The normaliser undoes the driver's mapping for every text, including one with CRs of its own. */
  lemma {:induction false} NormaliseInverts(pendingCR: bool, text: seq<Byte>)
    ensures var x := Normalise(pendingCR, Mapped(text)); x.0 + Held(x.1) == Held(pendingCR) + text
    decreases |text|
  {
    if text == [] {
      assert [] + Held(pendingCR) == Held(pendingCR) + [];
    } else {
      hide Normalise;
      NormaliseInverts(text[0] == CR, text[1..]);
      InvertsGrows(pendingCR, text[0], text[1..]);
      assert text == [text[0]] + text[1..];
    }
  }

  lemma Regroup(a: seq<Byte>, b: seq<Byte>, c: seq<Byte>, d: seq<Byte>, e: seq<Byte>)
    requires b + c == d + e
    ensures a + b + c == a + d + e
  {
    assert a + b + c == a + (b + c);
  }

  // ---- Payloads --------------------------------------------------------------------------------------------

  predicate Octal(digit: Byte) {
    48 <= digit as int <= 55
  }

  /** The value of three octal digits in one unsigned byte, which wraps. */
  function OctalValue(a: Byte, b: Byte, c: Byte): Byte
    requires Octal(a) && Octal(b) && Octal(c)
  {
    Wrapped(64 * (a as int - 48) + 8 * (b as int - 48) + (c as int - 48))
  }

  function Wrapped(n: nat): Byte {
    (n % 256) as Byte
  }

  lemma WrappedSmall(n: nat)
    requires n < 256
    ensures Wrapped(n) as int == n
  {
  }

  predicate Group(e: seq<Byte>) {
    |e| >= 4 && e[0] == Backslash && Octal(e[1]) && Octal(e[2]) && Octal(e[3])
  }

  function Prepend(head: seq<Byte>, tail: Option<seq<Byte>>): Option<seq<Byte>> {
    if tail.Some? then Some(head + tail.value) else None
  }

  function Payload(e: seq<Byte>): Option<seq<Byte>> {
    if e == [] then Some([])
    else if e[0] != Backslash then Prepend([e[0]], Payload(e[1..]))
    else if !Group(e) then None
    else Prepend([OctalValue(e[1], e[2], e[3])], Payload(e[4..]))
  }

  /** The octal digits of a byte. */
  function DigitsOf(n: nat): (d: (nat, nat, nat))
    requires n < 256
    ensures d.0 <= 3 && d.1 <= 7 && d.2 <= 7 && n == 64 * d.0 + 8 * d.1 + d.2
  {
    (n / 64, n / 8 % 8, n % 8)
  }

  /** One byte as a backslash and three octal digits. */
  function Escape(b: Byte): (e: seq<Byte>)
    ensures Group(e) && |e| == 4 && e[1] as int <= 51
  {
    var d := DigitsOf(b as int);
    [Backslash, (48 + d.0) as Byte, (48 + d.1) as Byte, (48 + d.2) as Byte]
  }

  /** A payload in which exactly the bytes `mask` marks are escaped. */
  function Escaped(mask: seq<bool>, data: seq<Byte>): seq<Byte>
    requires |mask| == |data|
  {
    if data == [] then [] else (if mask[0] then Escape(data[0]) else [data[0]]) + Escaped(mask[1..], data[1..])
  }

  /** Every backslash must be escaped. */
  ghost predicate Covers(mask: seq<bool>, data: seq<Byte>) {
    |mask| == |data| && forall i :: 0 <= i < |data| && data[i] == Backslash ==> mask[i]
  }

  lemma EscapeValue(b: Byte)
    ensures var e := Escape(b); OctalValue(e[1], e[2], e[3]) == b
  {
    hide DigitsOf, Wrapped;
    WrappedSmall(b as int);
  }

  /** Decoding inverts escaping, whichever bytes beside the backslashes were escaped. */
  lemma {:induction false} PayloadInverts(mask: seq<bool>, data: seq<Byte>)
    requires Covers(mask, data)
    ensures Payload(Escaped(mask, data)) == Some(data)
  {
    if data != [] {
      PayloadInverts(mask[1..], data[1..]);
      var e := Escaped(mask, data);
      var rest := Escaped(mask[1..], data[1..]);
      assert data == [data[0]] + data[1..];
      if mask[0] {
        EscapeValue(data[0]);
        assert e == Escape(data[0]) + rest && e[4..] == rest;
      } else {
        assert e == [data[0]] + rest && e[1..] == rest;
      }
    }
  }

  /** No escape in `e` names a number above 255. */
  predicate InRange(e: seq<Byte>) {
    if e == [] then true
    else if Group(e) then e[1] as int <= 51 && InRange(e[4..])
    else InRange(e[1..])
  }

  /** Which bytes of the decoded payload came from an escape. */
  function MaskOf(e: seq<Byte>): seq<bool>
    requires Payload(e).Some?
  {
    if e == [] then [] else if e[0] == Backslash then [true] + MaskOf(e[4..]) else [false] + MaskOf(e[1..])
  }

  /** The decoder accepts escapes above 255 and wraps them, so an accepted payload is an escaping of what it decodes
      to exactly when no escape is out of range. */
  lemma AcceptedIffEscaped(e: seq<Byte>, data: seq<Byte>)
    requires Payload(e) == Some(data)
    ensures InRange(e) <==> exists mask :: Covers(mask, data) && Escaped(mask, data) == e
  {
    if InRange(e) {
      EscapingOf(e, data);
    }
    forall mask | Covers(mask, data) && Escaped(mask, data) == e
      ensures InRange(e)
    {
      EscapedInRange(mask, data);
    }
  }

  lemma {:induction false} EscapedInRange(mask: seq<bool>, data: seq<Byte>)
    requires Covers(mask, data)
    ensures InRange(Escaped(mask, data))
  {
    if data != [] {
      EscapedInRange(mask[1..], data[1..]);
      var rest := Escaped(mask[1..], data[1..]);
      if mask[0] {
        assert (Escape(data[0]) + rest)[4..] == rest;
      } else {
        assert ([data[0]] + rest)[1..] == rest;
      }
    }
  }

  lemma EscapeOfValue(a: Byte, b: Byte, c: Byte)
    requires Octal(a) && Octal(b) && Octal(c) && a as int <= 51
    ensures Escape(OctalValue(a, b, c)) == [Backslash, a, b, c]
  {
    hide DigitsOf, Wrapped;
    var n := 64 * (a as int - 48) + 8 * (b as int - 48) + (c as int - 48);
    WrappedSmall(n);
    var d := DigitsOf(n);
    SameDigits(d.0, d.1, d.2, a as int - 48, b as int - 48, c as int - 48);
  }

  lemma SameDigits(x: nat, y: nat, z: nat, a: nat, b: nat, c: nat)
    requires x <= 3 && y <= 7 && z <= 7 && a <= 3 && b <= 7 && c <= 7
    requires 64 * x + 8 * y + z == 64 * a + 8 * b + c
    ensures x == a && y == b && z == c
  {
  }

  /** One more escape or plain byte in front of an escaping. */
  lemma EscapedMore(escaped: bool, value: Byte, mask: seq<bool>, data: seq<Byte>)
    requires Covers(mask, data) && (value == Backslash ==> escaped)
    ensures Covers([escaped] + mask, [value] + data)
    ensures Escaped([escaped] + mask, [value] + data)
         == (if escaped then Escape(value) else [value]) + Escaped(mask, data)
  {
    assert ([escaped] + mask)[1..] == mask && ([value] + data)[1..] == data;
  }

  lemma {:induction false} EscapingOf(e: seq<Byte>, data: seq<Byte>)
    requires Payload(e) == Some(data) && InRange(e)
    ensures Covers(MaskOf(e), data) && Escaped(MaskOf(e), data) == e
  {
    if e != [] {
      hide Escape, Escaped, Covers, OctalValue;
      if e[0] == Backslash {
        var rest := Payload(e[4..]).value;
        var value := OctalValue(e[1], e[2], e[3]);
        EscapingOf(e[4..], rest);
        EscapedMore(true, value, MaskOf(e[4..]), rest);
        EscapeOfValue(e[1], e[2], e[3]);
        assert e == [e[0], e[1], e[2], e[3]] + e[4..];
        assert data == [value] + rest;
      } else {
        var rest := Payload(e[1..]).value;
        EscapingOf(e[1..], rest);
        EscapedMore(false, e[0], MaskOf(e[1..]), rest);
        assert e == [e[0]] + e[1..];
        assert data == [e[0]] + rest;
      }
    } else {
      assert data == [] && MaskOf(e) == [];
    }
  }

  /** An accepted escape above 255: `\400` decodes to the zero byte. */
  lemma OutOfRangeWraps()
    ensures Payload([Backslash, 52, 48, 48]) == Some([0])
    ensures !InRange([Backslash, 52, 48, 48])
  {
    var e := [Backslash, 52, 48, 48];
    assert e[4..] == [];
    assert Payload(e[4..]) == Some([]);
    assert OctalValue(e[1], e[2], e[3]) == 0;
    assert [0] + [] == [0 as Byte];
  }

  // ---- Lines -----------------------------------------------------------------------------------------------

  datatype Kind = Output | ExtendedOutput | Pause | Continue | Notification | Begin | Response | End | Error

  datatype Event = Event(kind: Kind, pane: seq<Byte>, age: nat, data: seq<Byte>, name: string, args: seq<Byte>)

  /** The time, number and flags a command's begin line carries and its end must repeat. */
  datatype Witness = Witness(time: seq<Byte>, number: seq<Byte>, flags: seq<Byte>)

  function Plain(kind: Kind): Event {
    Event(kind, [], 0, [], "", [])
  }

  /** The first position of `value` in `s`, or its length. */
  function Find(s: seq<Byte>, value: Byte): (n: nat)
    ensures n <= |s| && (n < |s| ==> s[n] == value)
    ensures forall i :: 0 <= i < n ==> s[i] != value
  {
    if s == [] || s[0] == value then 0 else 1 + Find(s[1..], value)
  }

  lemma FindIs(s: seq<Byte>, value: Byte, n: nat)
    requires n <= |s| && (n < |s| ==> s[n] == value) && forall i :: 0 <= i < n ==> s[i] != value
    ensures Find(s, value) == n
  {
  }

  /** The first position from which `s` continues with a space, a colon and a space, or its length. */
  function FindColon(s: seq<Byte>): (n: nat)
    ensures n <= |s| && (n < |s| ==> n + 3 <= |s|)
  {
    if |s| < 3 then |s|
    else if s[0] == Space && s[1] == 58 && s[2] == Space then 0
    else
      var n := FindColon(s[1..]);
      1 + n
  }

  /** The length of the white space rune in UTF-8 at `i`, or zero. */
  function SpaceAt(s: seq<Byte>, i: nat): (n: nat)
    requires i <= |s|
    ensures i + n <= |s|
  {
    var at := (k: nat) => if i + k < |s| then s[i + k] as int else 0;
    var a, b, c := at(0), at(1), at(2);
    if i < |s| && (9 <= a <= 13 || a == 32) then 1
    else if a == 0xC2 && (b == 0x85 || b == 0xA0) then 2
    else if a == 0xE1 && b == 0x9A && c == 0x80 then 3
    else if a == 0xE2 && b == 0x80 && (0x80 <= c <= 0x8A || c == 0xA8 || c == 0xA9 || c == 0xAF) then 3
    else if a == 0xE2 && b == 0x81 && c == 0x9F then 3
    else if a == 0xE3 && b == 0x80 && c == 0x80 then 3
    else 0
  }

  function SkipSpace(s: seq<Byte>, i: nat): (n: nat)
    requires i <= |s|
    ensures i <= n <= |s| && (n < |s| ==> SpaceAt(s, n) == 0)
    decreases |s| - i
  {
    if i < |s| && SpaceAt(s, i) > 0 then SkipSpace(s, i + SpaceAt(s, i)) else i
  }

  function FieldEnd(s: seq<Byte>, i: nat): (n: nat)
    requires i <= |s|
    ensures i <= n <= |s|
    ensures i < |s| && SpaceAt(s, i) == 0 ==> i < n
    decreases |s| - i
  {
    if i < |s| && SpaceAt(s, i) == 0 then FieldEnd(s, i + 1) else i
  }

  function Fields(s: seq<Byte>, i: nat): seq<seq<Byte>>
    requires i <= |s|
    decreases |s| - i
  {
    var start := SkipSpace(s, i);
    if start == |s| then [] else [s[start..FieldEnd(s, start)]] + Fields(s, FieldEnd(s, start))
  }

  /** Exactly the first fields of a line, none when it has more than four. */
  function CommandFields(line: seq<Byte>): seq<seq<Byte>> {
    if |Fields(line, 0)| > 4 then [] else Fields(line, 0)
  }

  predicate Digit(b: Byte) {
    48 <= b as int <= 57
  }

  function Value(digits: seq<Byte>): nat
    requires forall i :: 0 <= i < |digits| ==> Digit(digits[i])
  {
    if digits == [] then 0
    else
      var last := digits[|digits| - 1];
      assert Digit(last);
      Value(digits[..|digits| - 1]) * 10 + (last as int - 48)
  }

  /** An unsigned decimal in 64 bits. */
  function ParseUint(s: seq<Byte>): Option<nat> {
    if s != [] && (forall i :: 0 <= i < |s| ==> Digit(s[i])) && Value(s) < 0x1_0000_0000_0000_0000
    then Some(Value(s)) else None
  }

  function OutputTail(kind: Kind, pane: seq<Byte>, age: nat, encoded: seq<Byte>): Option<Event> {
    var data := Payload(encoded);
    if data.Some? then Some(Event(kind, pane, age, data.value, "", [])) else None
  }

  function DecodeOutput(rest: seq<Byte>, extended: bool): Option<Event> {
    var first := Find(rest, Space);
    if first == 0 || first == |rest| then None
    else
      var pane := rest[..first];
      var tail := rest[first + 1..];
      if !extended then OutputTail(Output, pane, 0, tail)
      else
        var end := Find(tail, Space);
        if end == 0 || end == |tail| || ParseUint(tail[..end]).None? then None
        else
          var age := ParseUint(tail[..end]).value;
          var body := tail[end + 1..];
          if Lit(": ") <= body then OutputTail(ExtendedOutput, pane, age, body[2..])
          else if FindColon(body) == |body| then None
          else OutputTail(ExtendedOutput, pane, age, body[FindColon(body) + 3..])
  }

  predicate Known(name: string) {
    || name == "client-detached" || name == "client-session-changed" || name == "config-error" || name == "continue"
    || name == "exit" || name == "layout-change" || name == "message" || name == "pane-mode-changed"
    || name == "paste-buffer-changed" || name == "paste-buffer-deleted" || name == "pause"
    || name == "session-changed" || name == "session-renamed" || name == "session-window-changed"
    || name == "sessions-changed" || name == "subscription-changed" || name == "unlinked-window-add"
    || name == "unlinked-window-close" || name == "unlinked-window-renamed" || name == "window-add"
    || name == "window-close" || name == "window-pane-changed" || name == "window-renamed"
  }

  function DecodeNotification(line: seq<Byte>): Option<Event> {
    if line == [] || line[0] != 37 then None
    else
      var space := Find(line, Space);
      var name := Text(line[1..space]);
      var args := if space < |line| then line[space + 1..] else [];
      if !Known(name) then None
      else
        var kind := if name == "pause" then Pause else if name == "continue" then Continue else Notification;
        Some(Event(kind, [], 0, [], name, args))
  }

  /** One line with the open command before it; none is a fault. The second part is the open command after it. */
  function DecodeLine(command: Option<Witness>, line: seq<Byte>): Option<(Event, Option<Witness>)> {
    if command.Some? then
      if Lit("%begin ") <= line then None
      else if Lit("%end ") <= line || Lit("%error ") <= line then
        var fields := CommandFields(line);
        if |fields| != 4 || Witness(fields[1], fields[2], fields[3]) != command.value then None
        else Some((Plain(if fields[0] == Lit("%error") then Error else End), None))
      else Some((Plain(Response).(data := line + [LF]), command))
    else if Lit("%begin ") <= line then
      var fields := CommandFields(line);
      if |fields| != 4 then None else Some((Plain(Begin), Some(Witness(fields[1], fields[2], fields[3]))))
    else
      var event :=
        if Lit("%output ") <= line then DecodeOutput(line[8..], false)
        else if Lit("%extended-output ") <= line then DecodeOutput(line[17..], true)
        else DecodeNotification(line);
      if event.Some? then Some((event.value, None)) else None
  }

  // ---- The stream ------------------------------------------------------------------------------------------

  /** What a buffer yields: the decoded events, the unfinished line, the open command and whether a fault ended it. */
  datatype Drained = Drained(events: seq<Event>, rest: seq<Byte>, command: Option<Witness>, failed: bool)

  function Drain(buffer: seq<Byte>, command: Option<Witness>): Drained
    decreases |buffer|
  {
    var newline := Find(buffer, LF);
    if newline == |buffer| then
      if newline > MaxRecord then Drained([], [], command, true) else Drained([], buffer, command, false)
    else if newline > MaxRecord then Drained([], [], command, true)
    else
      var decoded := DecodeLine(command, buffer[..newline]);
      if decoded.None? then Drained([], [], command, true)
      else
        var later := Drain(buffer[newline + 1..], decoded.value.1);
        later.(events := [decoded.value.0] + later.events)
  }

  /** Draining what is left of `x` together with the next bytes. */
  function Resumed(x: Drained, more: seq<Byte>): Drained {
    if x.failed then x
    else
      var y := Drain(x.rest + more, x.command);
      y.(events := x.events + y.events)
  }

  /** Draining a buffer and then the rest with more bytes is draining everything at once, faults included. */
  lemma {:induction false} DrainAppend(buffer: seq<Byte>, more: seq<Byte>, command: Option<Witness>)
    ensures Drain(buffer + more, command) == Resumed(Drain(buffer, command), more)
    decreases |buffer|
  {
    hide DecodeLine;
    var newline := Find(buffer, LF);
    var all := buffer + more;
    if newline == |buffer| {
      if newline > MaxRecord {
        assert Find(all, LF) >= newline by { Beyond(buffer, more); }
      }
    } else {
      FindIs(all, LF, newline);
      assert all[..newline] == buffer[..newline];
      assert all[newline + 1..] == buffer[newline + 1..] + more;
      var decoded := DecodeLine(command, buffer[..newline]);
      if newline <= MaxRecord && decoded.Some? {
        DrainAppend(buffer[newline + 1..], more, decoded.value.1);
        EventsOnce(decoded.value.0, Drain(buffer[newline + 1..], decoded.value.1), more);
      }
    }
  }

  lemma EventsOnce(event: Event, x: Drained, more: seq<Byte>)
    ensures Resumed(x.(events := [event] + x.events), more)
         == Resumed(x, more).(events := [event] + Resumed(x, more).events)
  {
    hide Drain;
    if !x.failed {
      var y := Drain(x.rest + more, x.command);
      assert [event] + x.events + y.events == [event] + (x.events + y.events);
    }
  }

  lemma Beyond(buffer: seq<Byte>, more: seq<Byte>)
    requires Find(buffer, LF) == |buffer|
    ensures Find(buffer + more, LF) >= |buffer|
  {
    assert forall i :: 0 <= i < |buffer| ==> (buffer + more)[i] == buffer[i];
  }

  /** A buffer waiting for its newline drains to itself. */
  lemma {:induction false} DrainRest(buffer: seq<Byte>, command: Option<Witness>)
    ensures var x := Drain(buffer, command);
            if x.failed then x.rest == [] else Drain(x.rest, x.command) == Drained([], x.rest, x.command, false)
    decreases |buffer|
  {
    hide DecodeLine;
    var newline := Find(buffer, LF);
    if newline < |buffer| && newline <= MaxRecord {
      var decoded := DecodeLine(command, buffer[..newline]);
      if decoded.Some? {
        DrainRest(buffer[newline + 1..], decoded.value.1);
      }
    }
  }

  /** Whether a command is open after `events`, or none when they are not properly bracketed: responses and ends
      only inside a command, everything else only outside. */
  function Bracket(open: bool, events: seq<Event>): Option<bool>
    decreases |events|
  {
    if events == [] then Some(open)
    else
      var kind := events[0].kind;
      var inside := kind.Response? || kind.End? || kind.Error?;
      if open != inside then None
      else Bracket(kind.Begin? || kind.Response?, events[1..])
  }

  /** Whatever the bytes, the events up to any fault are properly bracketed commands. */
  lemma {:induction false} EventsBracketed(buffer: seq<Byte>, command: Option<Witness>)
    ensures var x := Drain(buffer, command); Bracket(command.Some?, x.events) == Some(x.command.Some?)
    decreases |buffer|
  {
    var newline := Find(buffer, LF);
    if newline < |buffer| && newline <= MaxRecord {
      var decoded := DecodeLine(command, buffer[..newline]);
      if decoded.Some? {
        LineBracketed(command, buffer[..newline]);
        EventsBracketed(buffer[newline + 1..], decoded.value.1);
        var later := Drain(buffer[newline + 1..], decoded.value.1);
        assert ([decoded.value.0] + later.events)[1..] == later.events;
      }
    }
  }

  lemma LineBracketed(command: Option<Witness>, line: seq<Byte>)
    requires DecodeLine(command, line).Some?
    ensures var (event, next) := DecodeLine(command, line).value;
            && command.Some? == (event.kind.Response? || event.kind.End? || event.kind.Error?)
            && next.Some? == (event.kind.Begin? || event.kind.Response?)
            && (event.kind.Response? ==> next == command && event.data == line + [LF])
  {
    hide Find, Payload, CommandFields, Known, FindColon, ParseUint, Text;
  }
}
