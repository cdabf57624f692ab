/** The names, records and positions every recording component shares, and reads of a generation's committed
    event stream. */
module Journal {
  import opened Basics

  newtype Byte = x: int | 0 <= x < 256

  datatype PaneKey = PaneKey(server: string, session: string, controlGeneration: nat,
                             window: string, pane: string, incarnation: string)

  datatype Geometry = Geometry(columns: nat, rows: nat)

  /** A journal record: output occupies the bytes from `start`, a geometry record an empty range there. */
  datatype Event =
    | Output(sequence: nat, start: nat, payload: seq<Byte>)
    | Resize(sequence: nat, start: nat, geometry: Geometry)
  {
    function End(): nat {
      if Output? then start + |payload| else start
    }

    /** Whether a reader that consumed every earlier record continues inside or at this one. */
    predicate ContinuesAt(offset: nat) {
      offset == start || (Output? && start < offset < End())
    }

    /** The rest of this record after `offset`. */
    function From(offset: nat): Event {
      if Output? && start < offset < End() then Output(sequence, offset, payload[offset - start..]) else this
    }
  }

  /** The last sequence consumed in full and the number of output bytes consumed. */
  datatype Cursor = Cursor(sequence: nat, offset: nat)

  /** Sequences 1, 2, ... with adjoining byte ranges. */
  ghost predicate Contiguous(j: seq<Event>) {
    && (forall i :: 0 <= i < |j| ==> j[i].sequence == i + 1)
    && (j != [] ==> j[0].start == 0)
    && forall i, k :: 0 <= i < k < |j| && k == i + 1 ==> j[k].start == j[i].End()
  }

  function Bytes(j: seq<Event>): nat {
    if j == [] then 0 else j[|j| - 1].End()
  }

  predicate ValidCursor(j: seq<Event>, c: Cursor) {
    && c.sequence <= |j|
    && if c.sequence == |j| then c.offset == Bytes(j) else j[c.sequence].ContinuesAt(c.offset)
  }

  /** The committed stream after a position, its first record cut there. */
  function Suffix(j: seq<Event>, c: Cursor): (s: seq<Event>)
    requires c.sequence <= |j|
    ensures |s| == |j| - c.sequence
  {
    if c.sequence == |j| then [] else [j[c.sequence].From(c.offset)] + j[c.sequence + 1..]
  }

  /** Where a reader stands after consuming `events` from `from`. */
  function After(from: Cursor, events: seq<Event>): Cursor {
    if events == [] then from else Cursor(events[|events| - 1].sequence, events[|events| - 1].End())
  }

  /** Consuming the first records of a suffix leaves exactly the rest of it. */
  lemma SuffixSplit(j: seq<Event>, c: Cursor, n: nat)
    requires Contiguous(j) && ValidCursor(j, c) && n <= |Suffix(j, c)|
    ensures var next := After(c, Suffix(j, c)[..n]);
            next.sequence == c.sequence + n && ValidCursor(j, next) && Suffix(j, next) == Suffix(j, c)[n..]
  {
    if n > 0 {
      var last := c.sequence + n - 1;
      assert Suffix(j, c)[..n][n - 1].End() == j[last].End();
      if last + 1 < |j| {
        assert j[last + 1].start == j[last].End();
      }
    }
  }

  /** A position stays valid, and its suffix only grows at the end, when another record is committed. */
  lemma SuffixGrows(j: seq<Event>, e: Event, c: Cursor)
    requires Contiguous(j + [e]) && Contiguous(j) && ValidCursor(j, c)
    ensures ValidCursor(j + [e], c) && Suffix(j + [e], c) == Suffix(j, c) + [e]
  {
    if c.sequence < |j| {
      assert (j + [e])[c.sequence] == j[c.sequence];
    } else if j != [] {
      assert (j + [e])[|j|].start == (j + [e])[|j| - 1].End();
    }
  }

  lemma PrefixContiguous(j: seq<Event>, n: nat)
    requires Contiguous(j) && n <= |j|
    ensures Contiguous(j[..n])
  {
  }

  // ---- Memory --------------------------------------------------------------------------------------------

  function Doubled(charge: nat, bytes: int): (r: nat)
    requires charge > 0
    ensures r >= bytes && r >= charge
    decreases bytes - charge
  {
    if charge >= bytes then charge else Doubled(2 * charge, bytes)
  }

  /** What allocating a buffer costs: size classes double up to 32 KiB, larger buffers take whole 8 KiB pages. */
  function AllocationCharge(bytes: int): (charge: nat)
    ensures charge >= bytes && (bytes <= 0 ==> charge == 0)
  {
    if bytes <= 0 then 0
    else if bytes > 0x8000 then (bytes + 0x1FFF) / 0x2000 * 0x2000
    else Doubled(16, bytes)
  }

  predicate SizeClass(charge: int) {
    charge in {16, 32, 64, 128, 256, 512, 1024, 2048, 4096, 8192, 16384, 32768}
  }

  /** The charge is the least size class that holds a buffer of at most 32 KiB, and the least number of whole pages that
      holds a larger one; an empty buffer costs nothing. */
  lemma ChargeIsLeast(bytes: int)
    ensures var charge := AllocationCharge(bytes);
            && (0 < bytes <= 32768 ==> SizeClass(charge) && forall c :: SizeClass(c) && c >= bytes ==> charge <= c)
            && (bytes > 32768 ==> charge % 8192 == 0 && bytes <= charge < bytes + 8192)
            && (bytes <= 0 ==> charge == 0)
  {
    if 0 < bytes <= 32768 {
      DoublesTo(16, bytes);
    }
  }

  lemma {:induction false} DoublesTo(charge: nat, bytes: int)
    requires SizeClass(charge) && bytes <= 32768 && (charge == 16 || charge / 2 < bytes)
    ensures SizeClass(Doubled(charge, bytes)) && (Doubled(charge, bytes) == 16 || Doubled(charge, bytes) / 2 < bytes)
    decreases 32768 - charge
  {
    if charge < bytes {
      DoublesTo(2 * charge, bytes);
    }
  }

  // ---- Bounded reads ---------------------------------------------------------------------------------------

  function IndexCost(k: nat, indexBytes: nat): nat {
    k * indexBytes
  }

  /** What a read of the first `k` records after `c` copies: their bytes and their index entries. */
  function ReadCost(j: seq<Event>, c: Cursor, k: nat, indexBytes: nat): int
    requires 0 < k && c.sequence + k <= |j|
  {
    j[c.sequence + k - 1].End() - c.offset + IndexCost(k, indexBytes)
  }

  /** A bounded read returns the longest run within its bound, and always one record. */
  ghost predicate LongestRun(j: seq<Event>, c: Cursor, bound: int, indexBytes: nat, k: nat) {
    && c.sequence + k <= |j| && (k == 0 <==> c.sequence == |j|)
    && (k > 1 ==> ReadCost(j, c, k, indexBytes) <= bound)
    && forall i :: k < i <= |j| - c.sequence ==> ReadCost(j, c, i, indexBytes) > bound
  }

  /** Walk the pages from the newest back to the record after the cursor, as committedSuffix does. Pages beyond the
      committed sequence are appended but not yet committed. */
  method CommittedSuffix(pages: seq<Event>, committed: nat, c: Cursor, bound: int, indexBytes: nat)
    returns (run: Option<nat>)
    requires committed <= |pages| && Contiguous(pages)
    ensures run.Some? <==> ValidCursor(pages[..committed], c)
    ensures run.Some? ==> LongestRun(pages[..committed], c, bound, indexBytes, run.value)
  {
    hide IndexCost;
    ghost var j := pages[..committed];
    if c.sequence > committed {
      return None;
    }
    if c.sequence == committed {
      if c.offset != (if committed == 0 then 0 else pages[committed - 1].End()) {
        return None;
      }
      return Some(0);
    }
    var last := 0;
    var page := |pages|;
    while page > 0 && pages[page - 1].sequence > c.sequence
      invariant c.sequence <= page <= |pages|
      invariant last == 0 ==> forall i :: 0 < i && page < c.sequence + i <= committed ==>
                  ReadCost(j, c, i, indexBytes) > bound
      invariant last > 0 ==> page < last <= committed && c.sequence < last
      invariant last > 0 ==> LongestRun(j, c, bound, indexBytes, last - c.sequence)
      invariant page == c.sequence ==> last > 0
    {
      var event := pages[page - 1];
      if event.sequence <= committed {
        var cost := event.End() - c.offset + IndexCost(event.sequence - c.sequence, indexBytes);
        assert cost == ReadCost(j, c, page - c.sequence, indexBytes);
        if last == 0 && (cost <= bound || event.sequence == c.sequence + 1) {
          last := page;
        }
      }
      page := page - 1;
    }
    assert page == c.sequence;
    if !pages[c.sequence].ContinuesAt(c.offset) {
      return None;
    }
    run := Some(last - c.sequence);
  }

  /** The records a bounded read returns, copied from the newest back, the first cut at the cursor. */
  method ReadCommittedEventsAfter(pages: seq<Event>, committed: nat, c: Cursor, bound: int, indexBytes: nat)
    returns (events: Option<seq<Event>>)
    requires committed <= |pages| && Contiguous(pages)
    ensures events.Some? <==> ValidCursor(pages[..committed], c)
    ensures events.Some? ==>
              && LongestRun(pages[..committed], c, bound, indexBytes, |events.value|)
              && events.value == Suffix(pages[..committed], c)[..|events.value|]
  {
    hide IndexCost;
    ghost var j := pages[..committed];
    var run := CommittedSuffix(pages, committed, c, bound, indexBytes);
    if run.None? {
      return None;
    }
    PrefixContiguous(pages, committed);
    assert c.sequence + run.value <= committed;
    hide Contiguous, ValidCursor;
    var copied: seq<Event> := [];
    var page := c.sequence + run.value;
    ghost var whole := Suffix(j, c)[..run.value];
    ghost var left := run.value;
    while page > c.sequence
      invariant page == c.sequence + left && 0 <= left <= run.value && copied == whole[left..]
    {
      OneFurther(whole, left - 1);
      left := left - 1;
      var event := pages[page - 1];
      var skip := Max(c.offset - event.start, 0);
      SkippedBytes(j, c, page - 1);
      assert whole[left] == Suffix(j, c)[left];
      if event.Output? && skip > 0 {
        event := Output(event.sequence, event.start + skip, event.payload[skip..]);
      }
      copied := [event] + copied;
      page := page - 1;
    }
    events := Some(copied);
  }

  /** Only the cursor's own record is cut, by the bytes already consumed of it. */
  lemma SkippedBytes(j: seq<Event>, c: Cursor, i: nat)
    requires Contiguous(j) && ValidCursor(j, c) && c.sequence <= i < |j|
    ensures j[i].Output? && c.offset > j[i].start ==>
              && c.offset - j[i].start < |j[i].payload|
              && Suffix(j, c)[i - c.sequence] == Output(j[i].sequence, c.offset, j[i].payload[c.offset - j[i].start..])
    ensures !(j[i].Output? && c.offset > j[i].start) ==> Suffix(j, c)[i - c.sequence] == j[i]
  {
    if i > c.sequence {
      StartsBeyond(j, c, i);
    }
  }

  /** Every record after the cursor's own starts at or beyond its offset. */
  lemma {:induction false} StartsBeyond(j: seq<Event>, c: Cursor, i: nat)
    requires Contiguous(j) && ValidCursor(j, c) && c.sequence < i < |j|
    ensures c.offset <= j[i].start
  {
    assert j[i].start == j[i - 1].End();
    if i > c.sequence + 1 {
      StartsBeyond(j, c, i - 1);
    }
  }
}
