/** The decoder and the read loop as the code runs them, against their functions. */
module ControlDecoder {
  import opened Basics
  import opened ControlStream
  import ControlReader

  lemma PrependTwice(a: seq<Byte>, b: seq<Byte>, tail: Option<seq<Byte>>)
    ensures Prepend(a, Prepend(b, tail)) == Prepend(a + b, tail)
  {
    if tail.Some? {
      assert a + (b + tail.value) == a + b + tail.value;
    }
  }

  /** The byte an escape at `index` stands for. */
  method OctalGroup(ghost rest: seq<Byte>, encoded: seq<Byte>, index: nat) returns (value: Option<Byte>)
    requires index < |encoded| && rest == encoded[index..] && rest[0] == Backslash
    ensures value.Some? <==> Group(rest)
    ensures value.Some? ==> value.value == OctalValue(rest[1], rest[2], rest[3])
  {
    if index + 3 >= |encoded| {
      return None;
    }
    var sum, offset := 0, 1;
    while offset <= 3
      invariant 1 <= offset <= 4 && 0 <= sum < 256
      invariant forall k :: 1 <= k < offset ==> Octal(rest[k])
      invariant offset == 1 ==> sum == 0
      invariant offset == 2 ==> sum == rest[1] as int - 48
      invariant offset == 3 ==> sum == 8 * (rest[1] as int - 48) + (rest[2] as int - 48)
      invariant offset == 4 ==> Group(rest) && sum == OctalValue(rest[1], rest[2], rest[3]) as int
    {
      var digit := encoded[index + offset];
      assert digit == rest[offset];
      if digit as int < 48 || digit as int > 55 {
        return None;
      }
      sum := (sum * 8 + (digit as int - 48)) % 256;
      offset := offset + 1;
    }
    value := Some(sum as Byte);
  }

  method DecodePayload(encoded: seq<Byte>) returns (data: Option<seq<Byte>>)
    ensures data == Payload(encoded)
  {
    var decoded: seq<Byte> := [];
    var index := 0;
    PrependNothing(Payload(encoded));
    while index < |encoded|
      invariant index <= |encoded|
      invariant Payload(encoded) == Prepend(decoded, Payload(encoded[index..]))
    {
      ghost var rest := encoded[index..];
      if encoded[index] != Backslash {
        PrependTwice(decoded, [encoded[index]], Payload(rest[1..]));
        assert rest[1..] == encoded[index + 1..];
        decoded := decoded + [encoded[index]];
        index := index + 1;
      } else {
        var value := OctalGroup(rest, encoded, index);
        if value.None? {
          return None;
        }
        PrependTwice(decoded, [value.value], Payload(rest[4..]));
        assert rest[4..] == encoded[index + 4..];
        decoded := decoded + [value.value];
        index := index + 4;
      }
    }
    assert encoded[index..] == [];
    assert decoded + [] == decoded;
    data := Some(decoded);
  }

  lemma PrependNothing(tail: Option<seq<Byte>>)
    ensures Prepend([], tail) == tail
  {
    if tail.Some? {
      assert [] + tail.value == tail.value;
    }
  }

  /** Stops at the fifth field instead of collecting them all. */
  method SplitFields(line: seq<Byte>) returns (fields: seq<seq<Byte>>)
    ensures fields == CommandFields(line)
  {
    fields := [];
    var position := SkipSpace(line, 0);
    SkipsOnce(line, 0);
    assert [] + Fields(line, 0) == Fields(line, 0);
    while position < |line|
      invariant position <= |line| && SkipSpace(line, position) == position
      invariant fields + Fields(line, position) == Fields(line, 0)
      invariant |fields| <= 4
      decreases |line| - position
    {
      hide SkipSpace, FieldEnd, SpaceAt;
      if |fields| == 4 {
        assert |Fields(line, position)| > 0;
        return [];
      }
      var end := FieldEnd(line, position);
      FieldEnds(line, position);
      var next := SkipSpace(line, end);
      SkipsOnce(line, end);
      var word := line[position..end];
      assert Fields(line, position) == [word] + Fields(line, end);
      assert fields + ([word] + Fields(line, next)) == (fields + [word]) + Fields(line, next);
      fields := fields + [word];
      position := next;
    }
    assert fields + [] == fields;
  }

  lemma FieldEnds(line: seq<Byte>, i: nat)
    requires i < |line| && SkipSpace(line, i) == i
    ensures FieldEnd(line, i) > i
  {
  }

  lemma {:induction false} SkipsOnce(line: seq<Byte>, i: nat)
    requires i <= |line|
    ensures SkipSpace(line, SkipSpace(line, i)) == SkipSpace(line, i)
    ensures Fields(line, SkipSpace(line, i)) == Fields(line, i)
    decreases |line| - i
  {
  }

  /** One read's bytes through the normaliser, as the read loop runs them. */
  method NormaliseRead(pendingCR: bool, buffer: seq<Byte>) returns (chunk: seq<Byte>, held: bool)
    ensures (chunk, held) == Normalise(pendingCR, buffer)
    ensures |chunk| <= |buffer| + 1
  {
    chunk, held := [], pendingCR;
    var n := 0;
    while n < |buffer|
      invariant n <= |buffer| && |chunk| + (if held then 1 else 0) <= n + 1
      invariant (chunk, held) == Normalise(pendingCR, buffer[..n])
    {
      var value := buffer[n];
      assert buffer[..n + 1] == buffer[..n] + [value];
      NormaliseAppend(pendingCR, buffer[..n], [value]);
      OneByte(held, value);
      ghost var before := chunk;
      ghost var was := held;
      if held && value == LF {
        chunk := chunk + [LF];
        held := false;
      } else {
        if held {
          chunk := chunk + [CR];
          held := false;
        }
        if value == CR {
          held := true;
        } else {
          chunk := chunk + [value];
        }
      }
      assert chunk == before + Emitted(was, value);
      n := n + 1;
    }
    assert buffer[..n] == buffer;
  }

  class DecoderObject {
    var buffer: seq<Byte>
    var failed: bool
    var command: Option<Witness>

    ghost function View(): ControlReader.Decoder
      reads this
    {
      ControlReader.Decoder(buffer, failed, command)
    }

    constructor ()
      ensures View() == ControlReader.Unused
    {
      buffer, failed, command := [], false, None;
    }

    method Fail()
      modifies this
      ensures failed && buffer == [] && command == old(command)
    {
      failed := true;
      buffer := [];
    }

    /** The event of one line, or none for a fault; the open command follows. */
    method DecodeOneLine(line: seq<Byte>) returns (event: Option<Event>)
      modifies this`command
      ensures event.Some? <==> DecodeLine(old(command), line).Some?
      ensures event.Some? ==> DecodeLine(old(command), line).value == (event.value, command)
      ensures event.None? ==> command == old(command)
    {
      if command.Some? {
        if Lit("%begin ") <= line {
          return None;
        }
        if Lit("%end ") <= line || Lit("%error ") <= line {
          var fields := SplitFields(line);
          if |fields| != 4 || fields[1] != command.value.time || fields[2] != command.value.number ||
             fields[3] != command.value.flags {
            return None;
          }
          var kind := End;
          if fields[0] == Lit("%error") {
            kind := Error;
          }
          command := None;
          return Some(Plain(kind));
        }
        return Some(Plain(Response).(data := line + [LF]));
      }
      if Lit("%begin ") <= line {
        var fields := SplitFields(line);
        if |fields| != 4 {
          return None;
        }
        command := Some(Witness(fields[1], fields[2], fields[3]));
        return Some(Plain(Begin));
      }
      if Lit("%output ") <= line {
        event := DecodeOutputLine(line[8..], false);
      } else if Lit("%extended-output ") <= line {
        event := DecodeOutputLine(line[17..], true);
      } else {
        event := DecodeNotification(line);
      }
    }

    static method DecodeOutputLine(line: seq<Byte>, extended: bool) returns (event: Option<Event>)
      ensures event == DecodeOutput(line, extended)
    {
      var first := Find(line, Space);
      if first == 0 || first == |line| {
        return None;
      }
      var pane, rest, age := line[..first], line[first + 1..], 0;
      if extended {
        var end := Find(rest, Space);
        if end == 0 || end == |rest| {
          return None;
        }
        var parsed := ParseUint(rest[..end]);
        if parsed.None? {
          return None;
        }
        age := parsed.value;
        rest := rest[end + 1..];
        if Lit(": ") <= rest {
          rest := rest[2..];
        } else {
          var colon := FindColon(rest);
          if colon == |rest| {
            return None;
          }
          rest := rest[colon + 3..];
        }
      }
      var data := DecodePayload(rest);
      if data.None? {
        return None;
      }
      event := Some(Event(if extended then ExtendedOutput else Output, pane, age, data.value, "", []));
    }

    /** Decodes every complete line of the buffer. After a fault `decoded` is what the batch still holds; the caller
        gets the error. */
    method Feed(input: seq<Byte>) returns (decoded: seq<Event>, ok: bool)
      requires ControlReader.Rests(View())
      modifies this
      ensures (View(), decoded) == ControlReader.Fed(old(View()), input) && ok == !failed
      ensures ControlReader.Rests(View())
    {
      ControlReader.FedRests(View(), input);
      decoded := [];
      if failed {
        return decoded, false;
      }
      buffer := buffer + input;
      ghost var whole := Drain(buffer, command);
      assert whole.(events := [] + whole.events) == whole;
      while true
        invariant !failed
        invariant whole == Drain(buffer, command).(events := decoded + Drain(buffer, command).events)
        decreases |buffer|
      {
        hide DecodeLine, ControlReader.Rests;
        var newline := Find(buffer, LF);
        if newline == |buffer| {
          assert decoded + [] == decoded;
          if newline > MaxRecord {
            Fail();
            return decoded, false;
          }
          return decoded, true;
        }
        if newline > MaxRecord {
          assert decoded + [] == decoded;
          Fail();
          return decoded, false;
        }
        var line := buffer[..newline];
        ghost var first := DecodeLine(command, line);
        ghost var later := Drain(buffer[newline + 1..], if first.Some? then first.value.1 else None);
        buffer := buffer[newline + 1..];
        var event := DecodeOneLine(line);
        if event.None? {
          assert decoded + [] == decoded;
          Fail();
          return decoded, false;
        }
        assert decoded + ([event.value] + later.events) == (decoded + [event.value]) + later.events;
        decoded := decoded + [event.value];
      }
    }

    method Close() returns (ok: bool)
      modifies this
      ensures ok <==> ControlReader.ClosedCleanly(old(View()))
      ensures !ok ==> failed
      ensures ok ==> View() == old(View())
    {
      if failed {
        return false;
      }
      if buffer != [] || command.Some? {
        Fail();
        return false;
      }
      ok := true;
    }
  }
}
