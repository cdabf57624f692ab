/** Everything the multiplexer writes in control mode: output records, whole commands with their replies, and
    notifications, each of which comes out of the reader as what it is. */
module ControlProtocol {
  import opened Basics
  import opened ControlStream
  import opened ControlReader

  /** A command is answered by its begin line, its replies and an end line that repeats the three fields, or an error
      line that does. */
  datatype Item =
    | Shown(record: Record)
    | Answer(fields: Witness, replies: seq<seq<Byte>>, ok: bool)
    | Notice(name: seq<Byte>, args: Option<seq<Byte>>)

  // ---- What is written ---------------------------------------------------------------------------------------

  function Joined(words: seq<seq<Byte>>): seq<Byte>
    requires words != []
  {
    if |words| == 1 then words[0] else words[0] + [Space] + Joined(words[1..])
  }

  function Bounds(tag: string, w: Witness): seq<Byte>
    requires forall i :: 0 <= i < |tag| ==> tag[i] < 128 as char
  {
    Joined([Lit(tag), w.time, w.number, w.flags])
  }

  function NoticeLine(name: seq<Byte>, args: Option<seq<Byte>>): seq<Byte> {
    [37] + name + if args.Some? then [Space] + args.value else []
  }

  function Lines(item: Item): seq<seq<Byte>> {
    match item
    case Shown(r) => [Line(r)]
    case Answer(w, replies, ok) => [Bounds("%begin", w)] + replies + [Bounds(if ok then "%end" else "%error", w)]
    case Notice(name, args) => [NoticeLine(name, args)]
  }

  function Sent(lines: seq<seq<Byte>>): seq<Byte> {
    if lines == [] then [] else lines[0] + [LF] + Sent(lines[1..])
  }

  function Script(items: seq<Item>): seq<seq<Byte>> {
    if items == [] then [] else Lines(items[0]) + Script(items[1..])
  }

  /** One printable ASCII word. */
  predicate Word(s: seq<Byte>) {
    s != [] && forall i :: 0 <= i < |s| ==> 32 < s[i] as int < 128
  }

  predicate Fits(line: seq<Byte>) {
    |line| <= MaxRecord && LF !in line
  }

  /** A reply that does not read as a bracket of its own. */
  predicate IsReply(line: seq<Byte>) {
    Fits(line) && !(Lit("%begin ") <= line) && !(Lit("%end ") <= line) && !(Lit("%error ") <= line)
  }

  /** A record that can be written; a command whose fields are words and whose replies are replies; a notification the
      reader knows, whose name is one word. */
  ghost predicate Sound(item: Item) {
    match item
    case Shown(r) => Writable(r)
    case Answer(w, replies, ok) =>
      && Word(w.time) && Word(w.number) && Word(w.flags)
      && Fits(Bounds("%begin", w)) && Fits(Bounds("%end", w)) && Fits(Bounds("%error", w))
      && forall r :: r in replies ==> IsReply(r)
    case Notice(name, args) => Word(name) && Known(Text(name)) && Fits(NoticeLine(name, args))
  }

  // ---- What is read ------------------------------------------------------------------------------------------

  function Replied(replies: seq<seq<Byte>>): seq<Event> {
    if replies == [] then [] else [Plain(Response).(data := replies[0] + [LF])] + Replied(replies[1..])
  }

  function NoticeKind(name: seq<Byte>): Kind {
    if Text(name) == "pause" then Pause else if Text(name) == "continue" then Continue else Notification
  }

  function Means(item: Item): seq<Event> {
    match item
    case Shown(r) => [EventOf(r)]
    case Answer(w, replies, ok) => [Plain(Begin)] + Replied(replies) + [Plain(if ok then End else Error)]
    case Notice(name, args) => [Event(NoticeKind(name), [], 0, [], Text(name), if args.Some? then args.value else [])]
  }

  function Meaning(items: seq<Item>): seq<Event> {
    if items == [] then [] else Means(items[0]) + Meaning(items[1..])
  }

  // ---- Fields ------------------------------------------------------------------------------------------------

  /** The field that starts at `i` is the word written there. */
  lemma {:induction false} WordEnds(line: seq<Byte>, i: nat, j: nat)
    requires i <= j <= |line| && forall k :: i <= k < j ==> 32 < line[k] as int < 128
    requires j < |line| ==> line[j] == Space
    ensures FieldEnd(line, i) == j
    decreases j - i
  {
    if i < j {
      WordEnds(line, i + 1, j);
    }
  }

  lemma FieldsSkip(line: seq<Byte>, i: nat)
    requires i < |line| && line[i] == Space
    ensures Fields(line, i) == Fields(line, i + 1)
  {
    assert SpaceAt(line, i) == 1;
    assert SkipSpace(line, i) == SkipSpace(line, i + 1);
  }

  /** Where the first word of a line ends, and what follows it. */
  lemma JoinedSplit(line: seq<Byte>, i: nat, words: seq<seq<Byte>>)
    requires words != [] && Word(words[0]) && i <= |line| && line[i..] == Joined(words)
    ensures var j := i + |words[0]|;
            && i < j <= |line| && line[i..j] == words[0] && (forall k :: i <= k < j ==> 32 < line[k] as int < 128)
            && (if |words| == 1 then j == |line|
                else j < |line| && line[j] == Space && line[j + 1..] == Joined(words[1..]))
  {
    var w := words[0];
    var j := i + |w|;
    var tail := line[i..];
    assert tail[..|w|] == w && line[i..j] == tail[..|w|];
    assert forall k :: i <= k < j ==> line[k] == w[k - i];
    if |words| > 1 {
      assert tail == w + ([Space] + Joined(words[1..]));
      assert tail[|w|] == Space && line[j] == tail[|w|];
      assert tail[|w| + 1..] == Joined(words[1..]) && line[j + 1..] == tail[|w| + 1..];
    }
  }

  /** Words joined by spaces are the fields. */
  lemma {:induction false} FieldsOf(line: seq<Byte>, i: nat, words: seq<seq<Byte>>)
    requires words != [] && (forall w :: w in words ==> Word(w)) && i <= |line| && line[i..] == Joined(words)
    ensures Fields(line, i) == words
    decreases |words|
  {
    hide Fields, SpaceAt, FieldEnd, SkipSpace, Joined, Word;
    var j := i + |words[0]|;
    assert Word(words[0]);
    JoinedSplit(line, i, words);
    FirstField(line, i, j);
    if |words| == 1 {
      NoFields(line);
    } else {
      FieldsSkip(line, j);
      FieldsOf(line, j + 1, words[1..]);
    }
  }

  lemma FirstField(line: seq<Byte>, i: nat, j: nat)
    requires i < j <= |line| && (forall k :: i <= k < j ==> 32 < line[k] as int < 128)
    requires j < |line| ==> line[j] == Space
    ensures Fields(line, i) == [line[i..j]] + Fields(line, j)
  {
    WordEnds(line, i, j);
    assert SpaceAt(line, i) == 0;
  }

  lemma NoFields(line: seq<Byte>)
    ensures Fields(line, |line|) == []
  {
  }

  // ---- Lines -------------------------------------------------------------------------------------------------

  lemma BoundsFields(tag: string, w: Witness)
    requires forall i :: 0 <= i < |tag| ==> 32 as char < tag[i] < 128 as char
    requires tag != [] && Word(w.time) && Word(w.number) && Word(w.flags)
    ensures CommandFields(Bounds(tag, w)) == [Lit(tag), w.time, w.number, w.flags]
    ensures Lit(tag) + [Space] <= Bounds(tag, w)
  {
    var words := [Lit(tag), w.time, w.number, w.flags];
    assert Word(Lit(tag));
    FieldsOf(Bounds(tag, w), 0, words);
    assert Joined(words) == words[0] + [Space] + Joined(words[1..]);
  }

  /** Outside a command its begin line opens it. */
  lemma BeginDecodes(w: Witness)
    requires Word(w.time) && Word(w.number) && Word(w.flags)
    ensures DecodeLine(None, Bounds("%begin", w)) == Some((Plain(Begin), Some(w)))
  {
    BoundsFields("%begin", w);
    assert Lit("%begin ") == Lit("%begin") + [Space];
    hide Fields, Joined;
  }

  /** Inside it, the end line that repeats the three fields ends it well, and the error line ends it badly. */
  lemma EndDecodes(w: Witness, ok: bool)
    requires Word(w.time) && Word(w.number) && Word(w.flags)
    ensures DecodeLine(Some(w), Bounds(if ok then "%end" else "%error", w)) == Some((Plain(if ok then End else Error), None))
  {
    var tag := if ok then "%end" else "%error";
    BoundsFields(tag, w);
    var line := Bounds(tag, w);
    assert Lit("%end ") == Lit("%end") + [Space] && Lit("%error ") == Lit("%error") + [Space];
    assert line[1] as int == 'e' as int && Lit("%begin ")[1] as int == 'b' as int;
    assert |Lit("%end")| == 4 && |Lit("%error")| == 6;
    hide Fields, Joined, Bounds;
  }

  /** Any line that ends a command does so as its tag says. */
  lemma EndKinds(w: Witness, line: seq<Byte>)
    requires DecodeLine(Some(w), line).Some?
    ensures var kind := DecodeLine(Some(w), line).value.0.kind;
            (kind.End? <==> Lit("%end ") <= line) && (kind.Error? <==> Lit("%error ") <= line)
  {
    assert Lit("%end")[1] as int == 'e' as int && Lit("%error")[2] as int == 'r' as int && Lit("%end")[2] as int == 'n' as int;
    if Lit("%end ") <= line {
      Tagged(line, "%end");
      assert line[2] as int == 'n' as int;
      assert CommandFields(line)[0] != Lit("%error");
    } else if Lit("%error ") <= line {
      Tagged(line, "%error");
    }
    hide Fields;
  }

  lemma Tagged(line: seq<Byte>, tag: string)
    requires tag != [] && forall i :: 0 <= i < |tag| ==> 32 as char < tag[i] < 128 as char
    requires Lit(tag + " ") <= line
    ensures Lit(tag + " ") == Lit(tag) + [Space]
    ensures Fields(line, 0) != [] && Fields(line, 0)[0] == Lit(tag)
  {
    assert Lit(tag + " ") == Lit(tag) + [Space];
    FirstField(line, 0, |tag|);
    assert line[0..|tag|] == Lit(tag);
  }

  lemma NoticeReads(name: seq<Byte>, args: Option<seq<Byte>>)
    requires Word(name) && Known(Text(name))
    ensures DecodeNotification(NoticeLine(name, args)) == Some(Means(Notice(name, args))[0])
    ensures Find(NoticeLine(name, args), Space) == 1 + |name| && [37] + name <= NoticeLine(name, args)
  {
    hide Known;
    var line := NoticeLine(name, args);
    assert forall i :: 0 <= i < |name| ==> line[1 + i] == name[i];
    FindIs(line, Space, 1 + |name|);
    assert line[1..1 + |name|] == name;
    assert args.Some? ==> line[|name| + 2..] == args.value;
    hide Find;
  }

  lemma NoticeDecodes(name: seq<Byte>, args: Option<seq<Byte>>)
    requires Word(name) && Known(Text(name))
    ensures DecodeLine(None, NoticeLine(name, args)) == Some((Means(Notice(name, args))[0], None))
  {
    hide Known, Lit, Find, Word, NoticeLine, DecodeNotification, DecodeOutput, Text, CommandFields, NoticeKind;
    NoticeReads(name, args);
    NoTag(name, NoticeLine(name, args));
  }

  /** A known name is none of the reader's own tags. */
  lemma NoTag(name: seq<Byte>, line: seq<Byte>)
    requires Word(name) && Known(Text(name)) && [37] + name <= line && Find(line, Space) == 1 + |name|
    ensures !(Lit("%begin ") <= line) && !(Lit("%output ") <= line) && !(Lit("%extended-output ") <= line)
  {
    Unknown();
    hide Known, Lit, Find, Text;
    assert "%" + "begin" + " " == "%begin " && "%" + "output" + " " == "%output ";
    assert "%" + "extended-output" + " " == "%extended-output ";
    NotPrefixed(name, line, "begin");
    NotPrefixed(name, line, "output");
    NotPrefixed(name, line, "extended-output");
  }

  lemma Unknown()
    ensures !Known("begin") && !Known("output") && !Known("extended-output")
  {
  }

  /** A line that carries a tag names it. */
  lemma NotPrefixed(name: seq<Byte>, line: seq<Byte>, tag: string)
    requires forall i :: 0 <= i < |tag| ==> 32 as char < tag[i] < 128 as char
    requires Word(name) && [37] + name <= line && Find(line, Space) == 1 + |name|
    ensures Lit("%" + tag + " ") <= line ==> Text(name) == tag
  {
    if Lit("%" + tag + " ") <= line {
      var prefix := Lit("%" + tag + " ");
      assert forall i :: 0 <= i < |prefix| ==> line[i] == prefix[i];
      assert prefix[1 + |tag|] as int == ' ' as int;
      assert forall i :: 0 <= i < |tag| ==> prefix[1 + i] as int == tag[i] as int;
      FindIs(line, Space, 1 + |tag|);
      assert forall i :: 0 <= i < |name| ==> line[1 + i] == name[i];
      assert Text(name) == tag;
    }
  }

  // ---- The stream --------------------------------------------------------------------------------------------

  function Before(events: seq<Event>, x: Drained): Drained {
    x.(events := events + x.events)
  }

  /** One line that decodes is taken off the front. */
  lemma LineDrains(command: Option<Witness>, line: seq<Byte>, rest: seq<Byte>)
    requires Fits(line) && DecodeLine(command, line).Some?
    ensures var (event, next) := DecodeLine(command, line).value;
            Drain(line + [LF] + rest, command) == Before([event], Drain(rest, next))
  {
    hide DecodeLine;
    var buffer := line + [LF] + rest;
    FindIs(buffer, LF, |line|);
    assert buffer[..|line|] == line && buffer[|line| + 1..] == rest;
  }

  lemma {:induction false} RepliesDrain(w: Witness, replies: seq<seq<Byte>>, rest: seq<Byte>)
    requires forall r :: r in replies ==> IsReply(r)
    ensures Drain(Sent(replies) + rest, Some(w)) == Before(Replied(replies), Drain(rest, Some(w)))
  {
    hide Drain, CommandFields;
    if replies == [] {
      assert Sent(replies) + rest == rest && [] + Drain(rest, Some(w)).events == Drain(rest, Some(w)).events;
    } else {
      var line, more := replies[0], Sent(replies[1..]) + rest;
      assert IsReply(line);
      assert Sent(replies) + rest == line + [LF] + more;
      LineDrains(Some(w), line, more);
      RepliesDrain(w, replies[1..], rest);
      var event := Plain(Response).(data := line + [LF]);
      assert [event] + (Replied(replies[1..]) + Drain(rest, Some(w)).events)
          == [event] + Replied(replies[1..]) + Drain(rest, Some(w)).events;
    }
  }

  lemma SentConcat(a: seq<seq<Byte>>, b: seq<seq<Byte>>)
    ensures Sent(a + b) == Sent(a) + Sent(b)
  {
    if a == [] {
      assert a + b == b;
    } else {
      SentConcat(a[1..], b);
      assert (a + b)[1..] == a[1..] + b;
    }
  }

  lemma SentOne(line: seq<Byte>)
    ensures Sent([line]) == line + [LF]
  {
    assert [line][1..] == [];
  }

  lemma AnswerDrains(w: Witness, replies: seq<seq<Byte>>, ok: bool, rest: seq<Byte>)
    requires Sound(Answer(w, replies, ok))
    ensures Drain(Sent(Lines(Answer(w, replies, ok))) + rest, None) == Before(Means(Answer(w, replies, ok)), Drain(rest, None))
  {
    hide Drain, DecodeLine, Bounds, Word, IsReply, Fits;
    var first, last := Bounds("%begin", w), Bounds(if ok then "%end" else "%error", w);
    BeginDecodes(w);
    EndDecodes(w, ok);
    var tail := last + [LF] + rest;
    SentConcat([first] + replies, [last]);
    SentConcat([first], replies);
    SentOne(first);
    SentOne(last);
    Regrouped(first + [LF], Sent(replies), last + [LF], rest);
    assert last + [LF] + rest == (last + [LF]) + rest;
    LineDrains(None, first, Sent(replies) + tail);
    RepliesDrain(w, replies, tail);
    LineDrains(Some(w), last, rest);
    Regrouped([Plain(Begin)], Replied(replies), [Plain(if ok then End else Error)], Drain(rest, None).events);
    hide Replied, Sent;
  }

  lemma Regrouped<T>(a: seq<T>, b: seq<T>, c: seq<T>, d: seq<T>)
    ensures a + (b + (c + d)) == a + b + c + d
  {
  }

  lemma ItemDrains(item: Item, rest: seq<Byte>)
    requires Sound(item)
    ensures Drain(Sent(Lines(item)) + rest, None) == Before(Means(item), Drain(rest, None))
  {
    hide Drain, DecodeLine, Writable;
    match item {
      case Shown(r) =>
        SentOne(Line(r));
        LineDecodes(r);
        LineFits(r);
        LineHasNoNewline(r);
        LineDrains(None, Line(r), rest);
      case Answer(w, replies, ok) => AnswerDrains(w, replies, ok, rest);
      case Notice(name, args) =>
        SentOne(NoticeLine(name, args));
        NoticeDecodes(name, args);
        LineDrains(None, NoticeLine(name, args), rest);
    }
  }

  lemma {:induction false} ScriptDrains(items: seq<Item>)
    requires forall item :: item in items ==> Sound(item)
    ensures Drain(Sent(Script(items)), None) == Drained(Meaning(items), [], None, false)
  {
    hide Sound, Lines, Means;
    if items != [] {
      hide Drain;
      assert Sound(items[0]);
      SentConcat(Lines(items[0]), Script(items[1..]));
      ItemDrains(items[0], Sent(Script(items[1..])));
      ScriptDrains(items[1..]);
    }
  }

  lemma {:induction false} SentEnds(lines: seq<seq<Byte>>)
    ensures Sent(lines) == [] || Sent(lines)[|Sent(lines)| - 1] == LF
  {
    if lines != [] {
      SentEnds(lines[1..]);
    }
  }

  /** Whatever the multiplexer writes, through the terminal's line-ending mapping and however the bytes are cut into
      reads, exactly that is read, in order: every record with its bytes, every command with its replies between its
      begin and the end or the error it closed with, and every notification; and the reader closes cleanly. */
  lemma ItemsArrive(items: seq<Item>, cuts: seq<seq<Byte>>)
    requires forall item :: item in items ==> Sound(item)
    requires Flat(cuts) == Mapped(Sent(Script(items)))
    ensures var r := ReadAll(Start, cuts);
            r.events == Meaning(items) && ClosedCleanly(r.decoder) && !r.pendingCR
  {
    hide Sound, Drain, Normalise, Mapped, Script, Meaning;
    UnusedRests();
    ReadsAreOne(Start, cuts);
    ReadOneFeeds(Start, Flat(cuts));
    var text := Sent(Script(items));
    NormaliseInverts(false, text);
    SentEnds(Script(items));
    var (out, held) := Normalise(false, Mapped(text));
    assert out + Held(held) == text;
    NothingHeld(out, held, text);
    ScriptDrains(items);
    assert [] + text == text && [] + Meaning(items) == Meaning(items);
  }
}
