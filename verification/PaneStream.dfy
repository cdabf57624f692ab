/** One pane's accepted payloads on their way to journal records: batching, the pause barrier, geometry between
    them, and faults. */
module PaneStream {
  import opened Basics
  import opened Journal

  /** A piece of one accepted payload; `id` numbers the payload and names its reservation. */
  datatype Piece = Piece(data: seq<Byte>, id: nat)

  datatype Record = Data(bytes: seq<Byte>) | Size(geometry: Geometry)

  /** `writes` is how many more journal writes succeed: the sequencer fails for good after the first refusal.
      `accepted`, `parts` and `published` are history: the bytes taken while the generation was healthy, the part
      count declared for each payload, and every occurrence the dispatcher was sent, payload or abort. `barrier` is
      how much had been accepted when the pause began. */
  datatype Pane = Pane(batch: nat, pending: seq<Piece>, bytes: nat, held: seq<Piece>, heldBytes: nat, paused: bool,
                       failed: bool, generationFailed: bool, writes: nat, records: seq<Record>,
                       accepted: seq<Byte>, parts: seq<nat>, published: seq<nat>, barrier: nat)

  function Flat(pieces: seq<Piece>): seq<Byte> {
    if pieces == [] then [] else Flat(pieces[..|pieces| - 1]) + pieces[|pieces| - 1].data
  }

  /** The output bytes of the journal so far. */
  function Written(records: seq<Record>): seq<Byte> {
    if records == [] then []
    else
      var last := records[|records| - 1];
      Written(records[..|records| - 1]) + if last.Data? then last.bytes else []
  }

  function Ids(pieces: seq<Piece>): (ids: seq<nat>)
    ensures |ids| == |pieces|
  {
    seq(|pieces|, i requires 0 <= i < |pieces| => pieces[i].id)
  }

  function Repeat(id: nat, n: nat): (ids: seq<nat>)
    ensures |ids| == n && forall i :: 0 <= i < n ==> ids[i] == id
  {
    seq(n, _ => id)
  }

  function Fresh(batch: nat, writes: nat): Pane {
    Pane(batch, [], 0, [], 0, false, false, false, writes, [], [], [], [], 0)
  }

  /** flushPane: one record of everything pending, or a fault that aborts it. */
  function Flush(p: Pane): Pane {
    if p.bytes == 0 then p
    else
      var sent := p.(pending := [], bytes := 0, published := p.published + Ids(p.pending));
      if p.writes > 0 then sent.(records := p.records + [Data(Flat(p.pending))], writes := p.writes - 1)
      else sent.(failed := true, generationFailed := true)
  }

  /** Whether a flush of this pane reports an error. */
  predicate FlushFails(p: Pane) {
    p.bytes != 0 && p.writes == 0
  }

  /** The cutting loop of enqueueComponent over what is left of a payload. */
  function Cut(p: Pane, data: seq<Byte>, id: nat): Pane
    decreases |data|
  {
    if data == [] || p.bytes >= p.batch then p
    else
      var take := Min(|data|, p.batch - p.bytes);
      var piece := Piece(data[..take], id);
      var rest := data[take..];
      if p.paused then Cut(p.(held := p.held + [piece], heldBytes := p.heldBytes + take), rest, id)
      else
        var q := p.(pending := p.pending + [piece], bytes := p.bytes + take);
        if q.bytes < q.batch then Cut(q, rest, id)
        else if FlushFails(q) then
          var f := Flush(q);
          f.(published := f.published + Repeat(id, CeilDiv(|rest|, p.batch)))
        else Cut(Flush(q), rest, id)
  }

  /** processOutput after its flushes: discard after a fault, complete an empty payload, or declare its parts and
      cut it. */
  function Accept(p: Pane, payload: seq<Byte>): Pane
    requires p.batch > 0
  {
    var id := |p.parts|;
    if p.generationFailed || payload == [] then p.(parts := p.parts + [1], published := p.published + [id])
    else
      Cut(p.(parts := p.parts + [Max(CeilDiv(p.bytes + |payload|, p.batch), 1)], accepted := p.accepted + payload),
          payload, id)
  }

  /** drainHeld's loop over the held pieces. */
  function Drain(p: Pane, held: seq<Piece>): Pane
    decreases |held|
  {
    if held == [] then p
    else
      var c := held[0];
      var over := p.bytes != 0 && p.bytes + |c.data| > p.batch;
      if over && FlushFails(p) then
        var f := Flush(p);
        f.(published := f.published + Ids(held))
      else
        var room := if over then Flush(p) else p;
        var q := room.(pending := room.pending + [c], bytes := room.bytes + |c.data|);
        if q.bytes == q.batch && FlushFails(q) then
          var f := Flush(q);
          f.(published := f.published + Ids(held[1..]))
        else Drain(if q.bytes == q.batch then Flush(q) else q, held[1..])
  }

  function Release(p: Pane): Pane {
    Drain(p.(paused := false, held := [], heldBytes := 0), p.held)
  }

  function PauseStart(p: Pane): Pane {
    var q := Flush(p);
    if FlushFails(p) then q else q.(paused := true, barrier := if p.paused then p.barrier else |p.accepted|)
  }

  function PauseEnd(p: Pane): Pane {
    var q := Release(Flush(p));
    if q.failed then q else Flush(q)
  }

  /** processGeometry: everything pending first, then the record; a refusal fails the generation. */
  function CommitGeometry(p: Pane, geometry: Geometry, journalTakes: bool): Pane {
    var q := Flush(p);
    if FlushFails(p) || q.generationFailed || !journalTakes then q.(generationFailed := true)
    else q.(records := q.records + [Size(geometry)])
  }

  /** processCleanup: what is left is aborted, and the pane forgotten. */
  function Cleanup(p: Pane): Pane {
    p.(pending := [], bytes := 0, held := [], heldBytes := 0, paused := false, failed := true,
       generationFailed := true, published := p.published + Ids(p.pending) + Ids(p.held))
  }

  /** requestRetire forgets an idle pane, paused or not; output still queued for it starts a pane that is not paused. */
  function Forget(p: Pane): Pane {
    if p.pending == [] && p.held == [] then p.(paused := false) else p
  }

  /** Close resumes a paused pane before its last flush. */
  function CloseFlush(p: Pane): Pane {
    Flush(if p.paused && !p.failed then Release(p) else p)
  }

  datatype Op =
    | Output(payload: seq<Byte>)
    | FlushNow
    | StartPause
    | EndPause
    | Geometry(geometry: Journal.Geometry, journalTakes: bool)
    | FaultElsewhere
    | CleanUp
    | Retire
    | Close

  /** Timers, a change of pane, size and explicit boundaries all flush. */
  function Apply(p: Pane, op: Op): Pane
    requires p.batch > 0
  {
    match op
    case Output(payload) => Accept(p, payload)
    case FlushNow => Flush(p)
    case StartPause => PauseStart(p)
    case EndPause => PauseEnd(p)
    case Geometry(geometry, takes) => CommitGeometry(p, geometry, takes)
    case FaultElsewhere => p.(generationFailed := true)
    case CleanUp => if p.generationFailed then Cleanup(p) else p
    case Retire => Forget(p)
    case Close => CloseFlush(p)
  }

  // ---- What every reachable pane keeps ---------------------------------------------------------------------

  /** Occurrences of one payload: already sent to the dispatcher, or still waiting in the pane. */
  function Of(id: nat): nat -> bool {
    (x: nat) => x == id
  }

  function Occurrences(p: Pane, id: nat): nat {
    Count(p.published, Of(id)) + Count(Ids(p.pending), Of(id)) + Count(Ids(p.held), Of(id))
  }

  function Declared(p: Pane, id: nat): nat {
    if id < |p.parts| then p.parts[id] else 0
  }

  ghost predicate PiecesOk(p: Pane, pieces: seq<Piece>) {
    forall i :: 0 <= i < |pieces| ==> 0 < |pieces[i].data| <= p.batch && pieces[i].id < |p.parts|
  }

  ghost predicate RecordsOk(p: Pane) {
    forall i :: 0 <= i < |p.records| && p.records[i].Data? ==> 0 < |p.records[i].bytes| <= p.batch
  }

  /** Nothing is pending while paused, nothing held otherwise, and a full batch never waits. */
  ghost predicate ShapeOk(p: Pane) {
    && p.batch > 0 && PiecesOk(p, p.pending) && PiecesOk(p, p.held) && RecordsOk(p)
    && p.bytes == |Flat(p.pending)| < p.batch && p.heldBytes == |Flat(p.held)|
    && (p.paused ==> p.pending == []) && (!p.paused ==> p.held == [])
    && (p.failed ==> p.generationFailed && p.pending == [] && p.held == [])
  }

  /** Until a piece is lost the journal, the pending batch and the held pieces are the accepted bytes. */
  ghost predicate OrderOk(p: Pane) {
    && Written(p.records) <= p.accepted
    && (!p.failed ==> Written(p.records) + Flat(p.pending) + Flat(p.held) == p.accepted)
    && (p.paused && !p.failed ==> p.barrier <= |p.accepted| && Written(p.records) == p.accepted[..p.barrier])
  }

  ghost predicate PartsOk(p: Pane) {
    forall id: nat :: Occurrences(p, id) == Declared(p, id)
  }

  ghost predicate Inv(p: Pane) {
    ShapeOk(p) && OrderOk(p) && PartsOk(p)
  }

  // ---- Sequences -------------------------------------------------------------------------------------------

  lemma FlatAppend(pieces: seq<Piece>, c: Piece)
    ensures Flat(pieces + [c]) == Flat(pieces) + c.data
  {
    assert (pieces + [c])[..|pieces|] == pieces;
  }

  lemma {:induction false} FlatFront(pieces: seq<Piece>)
    requires pieces != []
    ensures Flat(pieces) == pieces[0].data + Flat(pieces[1..])
  {
    if |pieces| > 1 {
      FlatFront(pieces[..|pieces| - 1]);
      assert pieces[1..][..|pieces| - 2] == pieces[..|pieces| - 1][1..];
    }
  }

  lemma {:induction false} FlatEmpty(pieces: seq<Piece>)
    requires forall i :: 0 <= i < |pieces| ==> 0 < |pieces[i].data|
    ensures Flat(pieces) == [] <==> pieces == []
  {
  }

  lemma WrittenAppend(records: seq<Record>, r: Record)
    ensures Written(records + [r]) == Written(records) + if r.Data? then r.bytes else []
  {
    assert (records + [r])[..|records|] == records;
  }

  lemma IdsConcat(a: seq<Piece>, b: seq<Piece>, id: nat)
    ensures Count(Ids(a + b), Of(id)) == Count(Ids(a), Of(id)) + Count(Ids(b), Of(id))
  {
    assert Ids(a + b) == Ids(a) + Ids(b);
    CountConcat(Ids(a), Ids(b), Of(id));
  }

  lemma {:induction false} RepeatCount(x: nat, n: nat, id: nat)
    ensures Count(Repeat(x, n), Of(id)) == if x == id then n else 0
  {
    if n > 0 {
      assert Repeat(x, n)[..n - 1] == Repeat(x, n - 1);
      RepeatCount(x, n - 1, id);
    }
  }

  lemma OneCount(x: nat, id: nat)
    ensures Count([x], Of(id)) == if x == id then 1 else 0
  {
    assert [x][..0] == [];
  }

  lemma Regroup<T>(w: seq<T>, f: seq<T>, h: seq<T>, a: seq<T>, b: seq<T>)
    ensures w + (f + a) + b == w + f + (a + b)
    ensures w + f + (h + a) + b == w + f + h + (a + b)
  {
  }

  // ---- Flushing --------------------------------------------------------------------------------------------

  lemma FlushParts(p: Pane, id: nat)
    ensures Occurrences(Flush(p), id) == Occurrences(p, id) || (p.bytes == 0 && Flush(p) == p)
  {
    hide Flat;
    CountConcat(p.published, Ids(p.pending), Of(id));
    assert Ids([]) == [];
  }

  /** A flush that succeeds writes one record of what was pending and nothing else. */
  lemma FlushKeeps(p: Pane)
    requires Inv(p)
    ensures Inv(Flush(p)) && Flush(p).pending == [] && Flush(p).bytes == 0
    ensures FlushFails(p) <==> Flush(p).failed && !p.failed
  {
    FlatEmpty(p.pending);
    var q := Flush(p);
    hide Occurrences;
    forall id: nat ensures Occurrences(q, id) == Declared(q, id) {
      FlushParts(p, id);
    }
    WrittenAppend(p.records, Data(Flat(p.pending)));
    assert Flat([]) == [];
  }

  // ---- Cutting a payload -----------------------------------------------------------------------------------

  /** Pieces still to be made of `rest`, and the bytes in front of them in the open batch. */
  function Need(p: Pane, rest: seq<Byte>): nat
    requires p.batch > 0
  {
    if rest == [] then 0 else CeilDiv(p.bytes + |rest|, p.batch)
  }

  /** In the middle of cutting payload `id`: what is left of it completes the accepted bytes, and the pieces it
      still needs complete its declared parts. */
  ghost predicate Cutting(p: Pane, rest: seq<Byte>, id: nat) {
    && ShapeOk(p) && !p.generationFailed && id < |p.parts|
    && Written(p.records) + Flat(p.pending) + Flat(p.held) + rest == p.accepted
    && (p.paused ==> p.barrier <= |p.accepted| && Written(p.records) == p.accepted[..p.barrier])
    && (forall k: nat :: Occurrences(p, k) + (if k == id then Need(p, rest) else 0) == Declared(p, k))
  }

  /** Appending one piece, wherever it goes, adds one occurrence of its payload. */
  lemma PieceParts(p: Pane, piece: Piece, k: nat)
    ensures Occurrences(p.(held := p.held + [piece]), k) == Occurrences(p, k) + if piece.id == k then 1 else 0
    ensures Occurrences(p.(pending := p.pending + [piece]), k) == Occurrences(p, k) + if piece.id == k then 1 else 0
  {
    IdsConcat(p.held, [piece], k);
    IdsConcat(p.pending, [piece], k);
    assert Ids([piece]) == [piece.id];
    OneCount(piece.id, k);
  }

  lemma HoldParts(p: Pane, data: seq<Byte>, id: nat, take: nat, k: nat)
    requires Cutting(p, data, id) && data != [] && take == Min(|data|, p.batch)
    requires p.paused
    ensures var q := p.(held := p.held + [Piece(data[..take], id)], heldBytes := p.heldBytes + take);
            Occurrences(q, k) + (if k == id then Need(q, data[take..]) else 0) == Declared(p, k)
  {
    assert Flat([]) == [];
    hide Flat, Written;
    var q := p.(held := p.held + [Piece(data[..take], id)], heldBytes := p.heldBytes + take);
    PieceParts(p, Piece(data[..take], id), k);
    CeilStep(|data|, p.batch);
    hide CeilDiv;
    assert Occurrences(q, k) == Occurrences(p.(held := q.held), k);
  }

  /** A paused pane holds the next piece. */
  lemma HoldKeeps(p: Pane, data: seq<Byte>, id: nat)
    requires Cutting(p, data, id) && data != [] && p.paused
    ensures var take := Min(|data|, p.batch);
            var q := p.(held := p.held + [Piece(data[..take], id)], heldBytes := p.heldBytes + take);
            Cutting(q, data[take..], id)
  {
    assert Flat([]) == [];
    var take := Min(|data|, p.batch);
    var piece := Piece(data[..take], id);
    var q := p.(held := p.held + [piece], heldBytes := p.heldBytes + take);
    FlatAppend(p.held, piece);
    assert data == data[..take] + data[take..];
    hide Flat, Written, CeilDiv, Occurrences, Need;
    Regroup(Written(p.records), Flat(p.pending), Flat(p.held), data[..take], data[take..]);
    forall k: nat
      ensures Occurrences(q, k) + (if k == id then Need(q, data[take..]) else 0) == Declared(p, k)
    {
      HoldParts(p, data, id, take, k);
    }
  }

  /** Otherwise the next piece joins the open batch; `q` may now be full. */
  ghost predicate Filled(p: Pane, data: seq<Byte>, id: nat, take: nat, q: Pane) {
    && take == Min(|data|, p.batch - p.bytes) && take <= |data|
    && q == p.(pending := p.pending + [Piece(data[..take], id)], bytes := p.bytes + take)
  }

  lemma FillOrder(p: Pane, data: seq<Byte>, id: nat, take: nat, q: Pane)
    requires Cutting(p, data, id) && data != [] && !p.paused && Filled(p, data, id, take, q)
    ensures q.bytes == |Flat(q.pending)| <= q.batch && PiecesOk(q, q.pending) && take > 0
    ensures Written(q.records) + Flat(q.pending) + data[take..] == q.accepted && q.held == [] && Flat(q.held) == []
  {
    assert Flat([]) == [];
    FlatAppend(p.pending, Piece(data[..take], id));
    assert data == data[..take] + data[take..];
    hide Flat, Written, Occurrences;
    assert Written(p.records) + Flat(p.pending) + [] == Written(p.records) + Flat(p.pending);
    Regroup(Written(p.records), Flat(p.pending), [], data[..take], data[take..]);
  }

  lemma FillParts(p: Pane, data: seq<Byte>, id: nat, take: nat, q: Pane, k: nat)
    requires Cutting(p, data, id) && data != [] && !p.paused && Filled(p, data, id, take, q)
    ensures Occurrences(q, k) + (if k == id then CeilDiv(|data| - take, p.batch) else 0) == Declared(p, k)
  {
    hide Flat, Written;
    PieceParts(p, Piece(data[..take], id), k);
    CeilStep(p.bytes + |data|, p.batch);
    CeilStep(|data| - take, p.batch);
    hide CeilDiv;
    assert Occurrences(q, k) == Occurrences(p.(pending := q.pending), k);
  }

  /** A batch that is not yet full waits, and nothing of the payload is left. */
  lemma FillWaits(p: Pane, data: seq<Byte>, id: nat, take: nat, q: Pane)
    requires Cutting(p, data, id) && data != [] && !p.paused && Filled(p, data, id, take, q) && q.bytes < q.batch
    ensures data[take..] == [] && Cutting(q, [], id)
  {
    FillOrder(p, data, id, take, q);
    assert data[take..] == [];
    forall k: nat ensures Occurrences(q, k) == Declared(q, k) {
      FillParts(p, data, id, take, q, k);
      CeilStep(0, p.batch);
    }
  }

  /** A full batch is one record of exactly the batch size. */
  lemma FillFlushes(p: Pane, data: seq<Byte>, id: nat, take: nat, q: Pane)
    requires Cutting(p, data, id) && data != [] && !p.paused && Filled(p, data, id, take, q) && q.bytes == q.batch
    requires q.writes > 0
    ensures Cutting(Flush(q), data[take..], id)
  {
    FillOrder(p, data, id, take, q);
    var f := Flush(q);
    WrittenAppend(q.records, Data(Flat(q.pending)));
    assert Flat([]) == [];
    hide Flat, Written;
    forall k: nat
      ensures Occurrences(f, k) + (if k == id then Need(f, data[take..]) else 0) == Declared(f, k)
    {
      FillParts(p, data, id, take, q, k);
      FlushParts(q, k);
      CeilStep(0, p.batch);
    }
  }

  /** A full batch the journal refuses aborts its own pieces and every part the payload still needed. */
  lemma FillFails(p: Pane, data: seq<Byte>, id: nat, take: nat, q: Pane)
    requires Cutting(p, data, id) && data != [] && !p.paused && Filled(p, data, id, take, q) && q.bytes == q.batch
    requires q.writes == 0
    ensures Inv(Flush(q).(published := Flush(q).published + Repeat(id, CeilDiv(|data[take..]|, q.batch))))
  {
    FillOrder(p, data, id, take, q);
    var f := Flush(q);
    var n := CeilDiv(|data[take..]|, q.batch);
    var g := f.(published := f.published + Repeat(id, n));
    assert Flat([]) == [];
    forall k: nat ensures Occurrences(g, k) == Declared(g, k) {
      FillParts(p, data, id, take, q, k);
      FlushParts(q, k);
      CountConcat<nat>(f.published, Repeat(id, n), Of(k));
      RepeatCount(id, n, k);
    }
  }

  /** Cutting a payload keeps every byte in order, every record within the batch, and makes exactly the declared
      number of parts. */
  lemma {:induction false} CutKeeps(p: Pane, data: seq<Byte>, id: nat)
    requires Cutting(p, data, id)
    ensures Inv(Cut(p, data, id))
    decreases |data|
  {
    hide ShapeOk, Occurrences, Flat, Written;
    CutReady(p, data, id);
    if data != [] {
      var take := Min(|data|, p.batch - p.bytes);
      var piece := Piece(data[..take], id);
      if p.paused {
        HoldKeeps(p, data, id);
        CutKeeps(p.(held := p.held + [piece], heldBytes := p.heldBytes + take), data[take..], id);
      } else {
        var q := p.(pending := p.pending + [piece], bytes := p.bytes + take);
        if q.bytes < q.batch {
          FillWaits(p, data, id, take, q);
          CutKeeps(q, data[take..], id);
        } else if q.writes == 0 {
          FillFails(p, data, id, take, q);
        } else {
          FillFlushes(p, data, id, take, q);
          CutKeeps(Flush(q), data[take..], id);
        }
      }
    }
  }

  lemma CutReady(p: Pane, data: seq<Byte>, id: nat)
    requires Cutting(p, data, id)
    ensures p.batch > 0 && p.bytes < p.batch && (p.paused ==> p.bytes == 0)
    ensures data == [] ==> Inv(p)
  {
    assert Flat([]) == [];
  }

  lemma AcceptKeeps(p: Pane, payload: seq<Byte>)
    requires Inv(p)
    ensures Inv(Accept(p, payload))
  {
    if p.generationFailed || payload == [] {
      SettledAtOnce(p, payload);
    } else {
      var n := Max(CeilDiv(p.bytes + |payload|, p.batch), 1);
      StartsCutting(p, payload, n);
      hide CeilDiv, Inv, Cutting;
      CutKeeps(p.(parts := p.parts + [n], accepted := p.accepted + payload), payload, |p.parts|);
    }
  }

  /** A discarded or empty payload is its own one part. */
  lemma SettledAtOnce(p: Pane, payload: seq<Byte>)
    requires Inv(p) && (p.generationFailed || payload == [])
    ensures Inv(Accept(p, payload))
  {
    hide Flat, Written, CeilDiv;
    var id := |p.parts|;
    var q := Accept(p, payload);
    forall k: nat ensures Occurrences(q, k) == Declared(q, k) {
      CountConcat<nat>(p.published, [id], Of(k));
      OneCount(id, k);
      assert Occurrences(p, k) == Declared(p, k);
    }
  }

  lemma StartsCutting(p: Pane, payload: seq<Byte>, n: nat)
    requires Inv(p) && !p.generationFailed && payload != [] && n == Max(CeilDiv(p.bytes + |payload|, p.batch), 1)
    ensures Cutting(p.(parts := p.parts + [n], accepted := p.accepted + payload), payload, |p.parts|)
  {
    hide Flat, Written;
    var q := p.(parts := p.parts + [n], accepted := p.accepted + payload);
    CeilPositive(p.bytes + |payload|, p.batch);
    hide CeilDiv;
    forall k: nat
      ensures Occurrences(q, k) + (if k == |p.parts| then Need(q, payload) else 0) == Declared(q, k)
    {
      SameOccurrences(p, q, k);
      assert Occurrences(p, k) == Declared(p, k);
    }
  }

  lemma CeilPositive(n: nat, d: nat)
    requires d > 0
    ensures n > 0 ==> CeilDiv(n, d) >= 1
  {
    CeilStep(n, d);
  }

  // ---- Releasing held pieces -------------------------------------------------------------------------------

  /** In the middle of a drain: the pieces still to be moved complete the accepted bytes. */
  ghost predicate Draining(p: Pane, held: seq<Piece>) {
    && p.batch > 0 && PiecesOk(p, p.pending) && PiecesOk(p, held) && RecordsOk(p)
    && p.bytes == |Flat(p.pending)| <= p.batch && p.heldBytes == 0 && p.held == [] && !p.paused && !p.failed
    && Written(p.records) + Flat(p.pending) + Flat(held) == p.accepted
    && (forall k: nat :: Occurrences(p, k) + Count(Ids(held), Of(k)) == Declared(p, k))
  }

  lemma DrainDone(p: Pane)
    requires Draining(p, []) && p.bytes < p.batch
    ensures Inv(p)
  {
    assert Ids([]) == [] && Flat([]) == [];
    forall k: nat ensures Occurrences(p, k) == Declared(p, k) {
      assert Occurrences(p, k) + Count(Ids([]), Of(k)) == Declared(p, k);
    }
  }

  lemma DrainFlush(p: Pane, held: seq<Piece>)
    requires Draining(p, held) && p.writes > 0
    ensures Draining(Flush(p), held) && (p.bytes != 0 ==> Flush(p).bytes == 0)
  {
    FlatEmpty(p.pending);
    var q := Flush(p);
    WrittenAppend(p.records, Data(Flat(p.pending)));
    assert Flat([]) == [];
    hide Flat, Written, Occurrences;
    assert Written(p.records) + Flat(p.pending) + [] == Written(p.records) + Flat(p.pending);
    forall k: nat ensures Occurrences(q, k) + Count(Ids(held), Of(k)) == Declared(q, k) {
      FlushParts(p, k);
    }
  }

  lemma DrainFails(p: Pane, held: seq<Piece>)
    requires Draining(p, held) && FlushFails(p)
    ensures Inv(Flush(p).(published := Flush(p).published + Ids(held)))
  {
    var f := Flush(p);
    var g := f.(published := f.published + Ids(held));
    assert Flat([]) == [];
    hide Flat, Written;
    forall k: nat ensures Occurrences(g, k) == Declared(g, k) {
      FlushParts(p, k);
      CountConcat(f.published, Ids(held), Of(k));
    }
  }

  lemma DrainTakeParts(p: Pane, held: seq<Piece>, k: nat)
    requires Draining(p, held) && held != []
    ensures var q := p.(pending := p.pending + [held[0]], bytes := p.bytes + |held[0].data|);
            Occurrences(q, k) + Count(Ids(held[1..]), Of(k)) == Declared(q, k)
  {
    hide Flat, Written, RecordsOk, Occurrences, PiecesOk;
    var c := held[0];
    var q := p.(pending := p.pending + [c], bytes := p.bytes + |c.data|);
    assert held == [c] + held[1..];
    PieceParts(p, c, k);
    IdsConcat([c], held[1..], k);
    assert Ids([c]) == [c.id];
    OneCount(c.id, k);
    SameOccurrences(p.(pending := q.pending), q, k);
  }

  lemma DrainTakeOrder(p: Pane, held: seq<Piece>)
    requires Draining(p, held) && held != []
    ensures |Flat(p.pending + [held[0]])| == p.bytes + |held[0].data|
    ensures Written(p.records) + Flat(p.pending + [held[0]]) + Flat(held[1..]) == p.accepted
  {
    hide Flat, Written, RecordsOk, PiecesOk, Occurrences, Ids;
    FlatAppend(p.pending, held[0]);
    FlatFront(held);
    Regroup(Written(p.records), Flat(p.pending), [], held[0].data, Flat(held[1..]));
  }

  lemma DrainTake(p: Pane, held: seq<Piece>)
    requires Draining(p, held) && held != [] && p.bytes + |held[0].data| <= p.batch
    ensures Draining(p.(pending := p.pending + [held[0]], bytes := p.bytes + |held[0].data|), held[1..])
  {
    hide Flat, Written, RecordsOk, Occurrences, Ids;
    DrainTakeOrder(p, held);
    var q := p.(pending := p.pending + [held[0]], bytes := p.bytes + |held[0].data|);
    forall k: nat ensures Occurrences(q, k) + Count(Ids(held[1..]), Of(k)) == Declared(q, k) {
      DrainTakeParts(p, held, k);
    }
    DrainTakeShape(p, q, held);
    hide PiecesOk, Count;
  }

  lemma DrainTakeShape(p: Pane, q: Pane, held: seq<Piece>)
    requires held != [] && PiecesOk(p, p.pending) && PiecesOk(p, held) && RecordsOk(p)
    requires q == p.(pending := p.pending + [held[0]], bytes := q.bytes)
    ensures PiecesOk(q, q.pending) && PiecesOk(q, held[1..]) && RecordsOk(q)
  {
  }

  /** Draining never merges pieces past the batch size and keeps them in order. */
  lemma {:induction false} DrainKeeps(p: Pane, held: seq<Piece>)
    requires Draining(p, held) && p.bytes < p.batch
    ensures Inv(Drain(p, held))
    decreases |held|
  {
    hide Flat, Written, Occurrences, Flush;
    if held == [] {
      DrainDone(p);
    } else {
      var c := held[0];
      var over := p.bytes != 0 && p.bytes + |c.data| > p.batch;
      if over && FlushFails(p) {
        DrainFails(p, held);
      } else {
        var room := if over then Flush(p) else p;
        if over {
          DrainFlush(p, held);
        }
        DrainTake(room, held);
        var q := room.(pending := room.pending + [c], bytes := room.bytes + |c.data|);
        if q.bytes == q.batch {
          if FlushFails(q) {
            DrainFails(q, held[1..]);
          } else {
            DrainFlush(q, held[1..]);
            DrainKeeps(Flush(q), held[1..]);
          }
        } else {
          DrainKeeps(q, held[1..]);
        }
      }
    }
  }

  lemma ReleaseKeeps(p: Pane)
    requires Inv(p) && !p.failed
    ensures Inv(Release(p))
  {
    assert Ids([]) == [] && Flat([]) == [];
    var q := p.(paused := false, held := [], heldBytes := 0);
    hide Flat, Written;
    assert p.paused ==> Written(p.records) + [] == Written(p.records);
    forall k: nat ensures Occurrences(q, k) + Count(Ids(p.held), Of(k)) == Declared(q, k) {
      assert Occurrences(p, k) == Declared(p, k);
    }
    DrainKeeps(q, p.held);
  }

  // ---- Every operation, every run --------------------------------------------------------------------------

  lemma PauseStartKeeps(p: Pane)
    requires Inv(p)
    ensures Inv(PauseStart(p))
    ensures PauseStart(p).paused && !PauseStart(p).failed && !p.paused ==> PauseStart(p).barrier == |p.accepted|
  {
    hide Occurrences;
    FlushKeeps(p);
    var q := Flush(p);
    assert Flat([]) == [];
    hide Flat, Written, Flush;
    assert Written(q.records) + [] == Written(q.records);
    var r := PauseStart(p);
    forall k: nat ensures Occurrences(r, k) == Declared(r, k) {
      assert Occurrences(q, k) == Declared(q, k);
      SameOccurrences(q, r, k);
    }
    assert !p.paused && !FlushFails(p) && !q.failed ==> Written(q.records) == q.accepted[..|q.accepted|];
  }

  lemma SameOccurrences(p: Pane, q: Pane, id: nat)
    requires q.pending == p.pending && q.held == p.held && q.published == p.published
    ensures Occurrences(q, id) == Occurrences(p, id)
  {
  }

  lemma FailedRelease(p: Pane)
    requires Inv(p) && p.failed
    ensures Inv(Release(p))
  {
    var q := p.(paused := false, held := [], heldBytes := 0);
    hide Occurrences;
    forall k: nat ensures Occurrences(q, k) == Declared(q, k) {
      assert Occurrences(p, k) == Declared(p, k);
      SameOccurrences(p, q, k);
    }
  }

  lemma PauseEndKeeps(p: Pane)
    requires Inv(p)
    ensures Inv(PauseEnd(p))
  {
    FlushKeeps(p);
    if Flush(p).failed {
      FailedRelease(Flush(p));
    } else {
      ReleaseKeeps(Flush(p));
    }
    FlushKeeps(Release(Flush(p)));
  }

  lemma CleanupKeeps(p: Pane)
    requires Inv(p)
    ensures Inv(Cleanup(p))
  {
    var q := Cleanup(p);
    assert Flat([]) == [] && Ids([]) == [];
    hide Flat, Written;
    forall k: nat ensures Occurrences(q, k) == Declared(q, k) {
      assert Occurrences(p, k) == Declared(p, k);
      CountConcat(p.published, Ids(p.pending), Of(k));
      CountConcat(p.published + Ids(p.pending), Ids(p.held), Of(k));
    }
  }

  lemma GeometryKeeps(p: Pane, geometry: Journal.Geometry, takes: bool)
    requires Inv(p)
    ensures Inv(CommitGeometry(p, geometry, takes))
  {
    hide Flat, Flush, Occurrences, Written;
    FlushKeeps(p);
    var q := Flush(p);
    WrittenAppend(q.records, Size(geometry));
    var r := CommitGeometry(p, geometry, takes);
    assert Written(q.records) + [] == Written(q.records);
    forall k: nat ensures Occurrences(r, k) == Declared(r, k) {
      assert Occurrences(q, k) == Declared(q, k);
      SameOccurrences(q, r, k);
    }
  }

  lemma StepKeeps(p: Pane, op: Op)
    requires Inv(p)
    ensures Inv(Apply(p, op))
  {
    hide Inv, Accept, Flush, PauseStart, PauseEnd, CommitGeometry, Cleanup, Release;
    match op {
      case Output(payload) => AcceptKeeps(p, payload);
      case FlushNow => FlushKeeps(p);
      case StartPause => PauseStartKeeps(p);
      case EndPause => PauseEndKeeps(p);
      case Geometry(geometry, takes) => GeometryKeeps(p, geometry, takes);
      case FaultElsewhere => FaultKeeps(p);
      case CleanUp => CleanupKeeps(p);
      case Retire => ForgetKeeps(p);
      case Close => CloseKeeps(p);
    }
  }

  lemma FaultKeeps(p: Pane)
    requires Inv(p)
    ensures Inv(p.(generationFailed := true))
  {
    hide Occurrences;
    forall k: nat ensures Occurrences(p.(generationFailed := true), k) == Declared(p, k) {
      assert Occurrences(p, k) == Declared(p, k);
      SameOccurrences(p, p.(generationFailed := true), k);
    }
  }

  lemma ForgetKeeps(p: Pane)
    requires Inv(p)
    ensures Inv(Forget(p))
  {
    hide Occurrences;
    forall k: nat ensures Occurrences(Forget(p), k) == Declared(Forget(p), k) {
      assert Occurrences(p, k) == Declared(p, k);
      SameOccurrences(p, Forget(p), k);
    }
  }

  lemma CloseKeeps(p: Pane)
    requires Inv(p)
    ensures Inv(CloseFlush(p))
  {
    if p.paused && !p.failed {
      ReleaseKeeps(p);
      FlushKeeps(Release(p));
    } else {
      FlushKeeps(p);
    }
  }

  function Run(p: Pane, ops: seq<Op>): (q: Pane)
    requires p.batch > 0
    ensures q.batch == p.batch
  {
    if ops == [] then p else BatchKept(Run(p, ops[..|ops| - 1]), ops[|ops| - 1]); Apply(Run(p, ops[..|ops| - 1]), ops[|ops| - 1])
  }

  lemma CutBatch(p: Pane, data: seq<Byte>, id: nat)
    ensures Cut(p, data, id).batch == p.batch
    decreases |data|
  {
  }

  lemma DrainBatch(p: Pane, held: seq<Piece>)
    ensures Drain(p, held).batch == p.batch
    decreases |held|
  {
  }

  lemma BatchKept(p: Pane, op: Op)
    requires p.batch > 0
    ensures Apply(p, op).batch == p.batch
  {
    hide Cut, Drain, CeilDiv, Flat;
    if op.Output? {
      var n := Max(CeilDiv(p.bytes + |op.payload|, p.batch), 1);
      CutBatch(p.(parts := p.parts + [n], accepted := p.accepted + op.payload), op.payload, |p.parts|);
    }
    DrainBatch(Flush(p).(paused := false, held := [], heldBytes := 0), Flush(p).held);
    DrainBatch(p.(paused := false, held := [], heldBytes := 0), p.held);
  }

  /** Over any schedule of outputs, flushes, pauses, geometry, faults, retirement and close: the journal's output is a prefix of
      what was accepted, and all of it apart from what still waits until something is lost to a fault; no record is
      empty or above the batch size; and for each payload the occurrences sent to the dispatcher and the pieces
      still waiting are exactly the parts declared for it. */
  lemma {:induction false} StreamKept(batch: nat, writes: nat, ops: seq<Op>)
    requires batch > 0
    ensures Inv(Run(Fresh(batch, writes), ops))
  {
    hide Inv, Apply;
    if ops == [] {
      FreshInv(batch, writes);
    } else {
      StreamKept(batch, writes, ops[..|ops| - 1]);
      StepKeeps(Run(Fresh(batch, writes), ops[..|ops| - 1]), ops[|ops| - 1]);
    }
  }

  lemma FreshInv(batch: nat, writes: nat)
    requires batch > 0
    ensures Inv(Fresh(batch, writes))
  {
    assert Ids([]) == [];
    assert forall id: nat :: Count<nat>([], Of(id)) == 0;
  }

  /** Close with no write refused leaves nothing behind: the journal holds every accepted byte. */
  lemma ClosedCompletely(p: Pane)
    requires Inv(p) && !CloseFlush(p).failed
    ensures Written(CloseFlush(p).records) == CloseFlush(p).accepted
    ensures CloseFlush(p).pending == [] && CloseFlush(p).held == []
  {
    CloseKeeps(p);
    var q := if p.paused && !p.failed then Release(p) else p;
    if p.paused && !p.failed {
      ReleaseKeeps(p);
      DrainUnpaused(p.(paused := false, held := [], heldBytes := 0), p.held);
    }
    FlushKeeps(q);
    var r := Flush(q);
    assert Flat([]) == [];
    assert Written(r.records) + [] + [] == Written(r.records);
  }

  lemma DrainUnpaused(p: Pane, held: seq<Piece>)
    requires !p.paused
    ensures !Drain(p, held).paused
    decreases |held|
  {
  }

  /** While a pane is paused nothing but a geometry record reaches the journal. */
  lemma NothingWrittenWhilePaused(p: Pane, op: Op)
    requires Inv(p) && p.paused && !op.EndPause? && !op.Close?
    ensures Written(Apply(p, op).records) == Written(p.records)
    ensures !op.Geometry? ==> Apply(p, op).records == p.records
  {
    assert Flat([]) == [];
    if op.Output? {
      var n := Max(CeilDiv(p.bytes + |op.payload|, p.batch), 1);
      HeldWhilePaused(p.(parts := p.parts + [n], accepted := p.accepted + op.payload), op.payload, |p.parts|);
    } else if op.Geometry? {
      WrittenAppend(p.records, Size(op.geometry));
    }
  }

  lemma HeldWhilePaused(p: Pane, data: seq<Byte>, id: nat)
    requires p.paused
    ensures Cut(p, data, id).records == p.records
    decreases |data|
  {
  }

  /** A geometry record lands exactly between the bytes accepted before the pause and the bytes held since; without
      a pause, after everything accepted so far. */
  lemma GeometryBetween(p: Pane, geometry: Journal.Geometry)
    requires Inv(p) && !p.failed && CommitGeometry(p, geometry, true).records != Flush(p).records
    ensures var q := CommitGeometry(p, geometry, true);
            && q.records == Flush(p).records + [Size(geometry)]
            && (if p.paused then Written(q.records) == p.accepted[..p.barrier] && Flat(q.held) == p.accepted[p.barrier..]
                else Written(q.records) == p.accepted)
  {
    FlushKeeps(p);
    var f := Flush(p);
    WrittenAppend(f.records, Size(geometry));
    assert Flat([]) == [];
    assert Written(f.records) + [] + [] == Written(f.records);
    assert Written(f.records) + [] + Flat(f.held) == Written(f.records) + Flat(f.held);
    assert p.paused ==> p.accepted == p.accepted[..p.barrier] + p.accepted[p.barrier..];
  }

  /** Output alone flushes only full batches: as many records of exactly the batch size as fit, the rest waits. */
  lemma {:induction false} OnlyFullBatches(p: Pane, data: seq<Byte>, id: nat)
    requires Cutting(p, data, id) && !p.paused && !Cut(p, data, id).failed
    ensures var q := Cut(p, data, id);
            && |q.records| >= |p.records| && q.records[..|p.records|] == p.records
            && (forall i :: |p.records| <= i < |q.records| ==> q.records[i].Data? && |q.records[i].bytes| == p.batch)
    decreases |data|
  {
    hide Occurrences, Written, Flat, ShapeOk, Need, Flush;
    CutReady(p, data, id);
    if data != [] {
      var take := Min(|data|, p.batch - p.bytes);
      var q := p.(pending := p.pending + [Piece(data[..take], id)], bytes := p.bytes + take);
      FillOrder(p, data, id, take, q);
      if q.bytes < q.batch {
        FillWaits(p, data, id, take, q);
        OnlyFullBatches(q, data[take..], id);
        return;
      }
      FullRecord(q);
      if q.writes > 0 {
        FillFlushes(p, data, id, take, q);
        OnlyFullBatches(Flush(q), data[take..], id);
        var r := Cut(Flush(q), data[take..], id);
        var f := Flush(q).records;
        assert r.records[..|f|] == f;
        assert f[..|p.records|] == r.records[..|p.records|];
        assert r.records[|p.records|] == r.records[..|f|][|p.records|] == f[|q.records|];
        assert forall i :: |f| <= i < |r.records| ==> r.records[i].Data? && |r.records[i].bytes| == p.batch;
      }
    }
  }

  lemma FullRecord(q: Pane)
    requires 0 < q.bytes == q.batch == |Flat(q.pending)|
    ensures Flush(q).paused == q.paused && Flush(q).batch == q.batch && (q.writes == 0 ==> Flush(q).failed)
    ensures q.writes > 0 ==>
              && |Flush(q).records| == |q.records| + 1 && Flush(q).records[..|q.records|] == q.records
              && Flush(q).records[|q.records|].Data? && |Flush(q).records[|q.records|].bytes| == q.batch
  {
  }
}
