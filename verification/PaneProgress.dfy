/** What each operation gets done for a pane: what it writes, what it leaves waiting, and exactly when it fails. */
module PaneProgress {
  import opened Basics
  import opened Journal
  import opened PaneStream

  // ---- Spending writes ---------------------------------------------------------------------------------------

  /** Some of what waited was written: each record took one write, nothing written before changed, and nothing was
      accepted or declared. Only with no write left is something lost. */
  ghost predicate Spent(p: Pane, q: Pane) {
    && |q.records| + q.writes == |p.records| + p.writes && p.records <= q.records
    && q.accepted == p.accepted && q.parts == p.parts && q.batch == p.batch
    && (q.failed && !p.failed ==> q.writes == 0 && q.generationFailed && Written(q.records) < q.accepted)
    && (!q.failed ==> q.generationFailed == p.generationFailed)
    && (p.failed ==> q.failed)
  }

  lemma SpentTwice(p: Pane, q: Pane, r: Pane)
    requires Spent(p, q) && Spent(q, r) && !q.failed
    ensures Spent(p, r)
  {
  }

  /** Part of a sequence that something follows is a proper prefix of the whole. */
  lemma Lost<T>(w: seq<T>, f: seq<T>, rest: seq<T>, all: seq<T>)
    requires w + f + rest == all && f != []
    ensures w < all
  {
    assert all[..|w|] == w;
  }

  /** A flush writes exactly one record, of everything pending, if there is any and a write is left; with none left it
      fails, and with nothing pending it does nothing. */
  lemma FlushOutcome(p: Pane)
    requires Inv(p) && !p.failed
    ensures var q := Flush(p);
            && q.pending == [] && q.held == p.held && q.paused == p.paused && Spent(p, q)
            && (q.failed <==> p.pending != [] && p.writes == 0)
            && (p.pending != [] && p.writes > 0 ==> q.records == p.records + [Data(Flat(p.pending))])
            && (p.pending == [] ==> q == p)
            && (p.pending != [] ==> q.published == p.published + Ids(p.pending))
    ensures FlushFails(p) <==> p.pending != [] && p.writes == 0
  {
    FlatEmpty(p.pending);
    if FlushFails(p) {
      Lost(Written(p.records), Flat(p.pending), Flat(p.held), p.accepted);
    }
    hide PartsOk;
  }

  /** A failed pane has nothing to flush, to hold or to release. */
  lemma FailedStill(p: Pane)
    requires Inv(p) && p.failed
    ensures Flush(p) == p && !FlushFails(p) && Release(p) == p.(paused := false, held := [], heldBytes := 0) && p.held == []
    ensures PauseEnd(p) == p.(paused := false) && CloseFlush(p) == p
  {
    assert Flat([]) == [];
  }

  // ---- The end of a pause ------------------------------------------------------------------------------------

  /** One turn of the draining loop. */
  lemma DrainStep(p: Pane, held: seq<Piece>)
    requires held != []
    ensures var c := held[0];
            var over := p.bytes != 0 && p.bytes + |c.data| > p.batch;
            var room := if over then Flush(p) else p;
            var q := room.(pending := room.pending + [c], bytes := room.bytes + |c.data|);
            Drain(p, held) ==
              if over && FlushFails(p) then Flush(p).(published := Flush(p).published + Ids(held))
              else if q.bytes == q.batch && FlushFails(q) then Flush(q).(published := Flush(q).published + Ids(held[1..]))
              else Drain(if q.bytes == q.batch then Flush(q) else q, held[1..])
  {
    hide Flush, FlushFails;
  }

  /** What a whole drain leaves: no piece held, no pause, and pieces pending unless it failed. */
  ghost predicate Drained(p: Pane, q: Pane) {
    Spent(p, q) && !q.paused && q.held == [] && (q.failed ==> q.pending == [])
  }

  lemma DrainedOn(p: Pane, q: Pane, r: Pane)
    requires Spent(p, q) && Drained(q, r) && !q.failed
    ensures Drained(p, r)
  {
    SpentTwice(p, q, r);
  }

  lemma {:induction false} DrainSpends(p: Pane, held: seq<Piece>)
    requires Draining(p, held) && p.bytes < p.batch
    ensures Drained(p, Drain(p, held))
    decreases |held|
  {
    hide Flush, Drain, Flat, Spent, Written, Occurrences, Count;
    if held == [] {
      DrainNothing(p);
    } else {
      DrainStep(p, held);
      var c := held[0];
      var over := p.bytes != 0 && p.bytes + |c.data| > p.batch;
      DrainRefused(p, held);
      if !(over && FlushFails(p)) {
        var room := if over then Flush(p) else p;
        if over {
          DrainFlush(p, held);
        } else {
          StaysSpent(p);
        }
        DrainTake(room, held);
        var q := room.(pending := room.pending + [c], bytes := room.bytes + |c.data|);
        TakeSpends(p, room, c, q);
        if q.bytes == q.batch {
          DrainRefused(q, held[1..]);
          if FlushFails(q) {
            DrainedOn(p, q, Drain(p, held));
          } else {
            DrainFlush(q, held[1..]);
            DrainSpends(Flush(q), held[1..]);
            DrainedOn(q, Flush(q), Drain(Flush(q), held[1..]));
            DrainedOn(p, q, Drain(p, held));
          }
        } else {
          DrainSpends(q, held[1..]);
          DrainedOn(p, q, Drain(q, held[1..]));
        }
      }
    }
  }

  /** A write refused in the middle of a drain loses what was pending; one that is not takes one write. */
  lemma DrainRefused(p: Pane, held: seq<Piece>)
    requires Draining(p, held)
    ensures FlushFails(p) ==> Drained(p, Flush(p).(published := Flush(p).published + Ids(held)))
    ensures !FlushFails(p) ==> Spent(p, Flush(p)) && !Flush(p).failed
  {
    FlatEmpty(p.pending);
    if FlushFails(p) {
      Lost(Written(p.records), Flat(p.pending), Flat(held), p.accepted);
    }
    hide Occurrences, Count;
  }

  lemma TakeSpends(p: Pane, room: Pane, c: Piece, q: Pane)
    requires Spent(p, room) && !room.failed
    requires q == room.(pending := room.pending + [c], bytes := room.bytes + |c.data|)
    ensures Spent(p, q) && !q.failed
  {
  }

  lemma StaysSpent(p: Pane)
    ensures Spent(p, p)
  {
  }

  lemma DrainNothing(p: Pane)
    requires Draining(p, [])
    ensures Drained(p, Drain(p, [])) && Spent(p, p) && !p.failed
  {
  }

  /** Nothing waits: every accepted byte is in the journal. */
  ghost predicate AllWritten(p: Pane) {
    p.pending == [] && p.held == [] && Written(p.records) == p.accepted
  }

  lemma ReleaseSpends(p: Pane)
    requires Inv(p) && !p.failed
    ensures Drained(p, Release(p))
  {
    var q := p.(paused := false, held := [], heldBytes := 0);
    ReleaseDraining(p, q);
    hide Draining, Inv, Drain;
    DrainSpends(q, p.held);
  }

  lemma ReleaseDraining(p: Pane, q: Pane)
    requires Inv(p) && !p.failed && q == p.(paused := false, held := [], heldBytes := 0)
    ensures Draining(q, p.held) && q.bytes < q.batch
  {
    assert Ids([]) == [] && Flat([]) == [];
    hide Flat, Written;
    assert p.paused ==> Written(p.records) + [] == Written(p.records);
    forall k: nat ensures Occurrences(q, k) + Count(Ids(p.held), Of(k)) == Declared(q, k) {
      assert Occurrences(p, k) == Declared(p, k);
    }
  }

  lemma SettledIsAll(p: Pane)
    requires Inv(p) && !p.failed && p.pending == [] && p.held == []
    ensures AllWritten(p)
  {
    assert Flat([]) == [];
    assert Written(p.records) + [] + [] == Written(p.records);
  }

  /** A flush at the end of a release leaves nothing waiting unless it fails. */
  lemma FlushedAll(p: Pane, r: Pane)
    requires Spent(p, r) && !p.failed && Inv(r) && (r.failed ==> r.pending == []) && r.held == []
    ensures var q := Flush(r);
            Spent(p, q) && q.paused == r.paused && (q.failed ==> q.pending == [] && q.held == []) && (!q.failed ==> AllWritten(q))
  {
    if r.failed {
      FailedStill(r);
      hide Flush, Inv;
    } else {
      FlushOutcome(r);
      FlushKeeps(r);
      SpentTwice(p, r, Flush(r));
      hide Flush, PartsOk;
      if !Flush(r).failed {
        SettledIsAll(Flush(r));
      }
    }
  }

  /** The end of a pause ends it and releases everything: unless a write is refused every accepted byte is in the
      journal, in order, with nothing pending and nothing held. It fails exactly when something was lost. */
  lemma PauseEnds(p: Pane)
    requires Inv(p) && !p.failed
    ensures var q := PauseEnd(p);
            && !q.paused && Spent(p, q) && q.pending == [] && q.held == []
            && (q.failed ==> q.writes == 0 && Written(q.records) < q.accepted)
            && (!q.failed ==> AllWritten(q))
  {
    var f := Flush(p);
    FlushOutcome(p);
    FlushKeeps(p);
    if f.failed {
      FailedStill(f);
      hide Flush, Inv;
    } else {
      ReleaseSpends(f);
      ReleaseKeeps(f);
      var r := Release(f);
      SpentTwice(p, f, r);
      FlushedAll(p, r);
      hide Flush, Release, Inv;
    }
  }

  /** A pane that had failed before has nothing to lose at the end of a pause. */
  lemma PauseEndsAny(p: Pane)
    requires Inv(p)
    ensures var q := PauseEnd(p);
            && !q.paused && q.pending == [] && q.held == [] && q.accepted == p.accepted
            && p.records <= q.records && |q.records| + q.writes == |p.records| + p.writes
            && (p.failed ==> q == p.(paused := false) && p.bytes == 0 && p.held == [])
            && (q.failed && !p.failed ==> q.writes == 0 && Written(q.records) < q.accepted)
            && (!q.failed ==> Written(q.records) == q.accepted)
  {
    if p.failed {
      FailedStill(p);
    } else {
      PauseEnds(p);
    }
    hide PauseEnd, Flat, Written;
  }

  /** So does a close. */
  lemma CloseEnds(p: Pane)
    requires Inv(p) && !p.failed
    ensures var q := CloseFlush(p);
            && !q.paused && Spent(p, q) && q.pending == [] && q.held == []
            && (q.failed ==> q.writes == 0 && Written(q.records) < q.accepted)
            && (!q.failed ==> AllWritten(q))
  {
    if p.paused {
      ReleaseSpends(p);
      ReleaseKeeps(p);
      FlushedAll(p, Release(p));
      hide Release, Flush, Inv;
    } else {
      StaysSpent(p);
      FlushedAll(p, p);
    }
  }

  // ---- Pauses, geometry, faults and cleanups -----------------------------------------------------------------

  /** A pause begins exactly when the flush in front of it is not refused; everything accepted before it is then in the
      journal, and what is held stays held. */
  lemma PauseStarts(p: Pane)
    requires Inv(p) && !p.failed
    ensures var q := PauseStart(p);
            && (q.failed <==> p.pending != [] && p.writes == 0) && Spent(p, q)
            && (q.paused <==> p.paused || !q.failed) && q.held == p.held && q.pending == []
            && (!q.failed && !p.paused ==> Written(q.records) == p.accepted)
  {
    FlushOutcome(p);
    FlushKeeps(p);
    hide Flush, PartsOk;
    if !Flush(p).failed && !p.paused {
      SettledIsAll(Flush(p));
    }
  }

  /** A geometry record is written exactly when the flush in front of it is not refused, the generation is healthy and
      the journal takes it; otherwise the generation fails. Neither ends a pause. */
  lemma GeometryIff(p: Pane, geometry: Journal.Geometry, journalTakes: bool)
    requires Inv(p) && !p.failed
    ensures var q := CommitGeometry(p, geometry, journalTakes);
            var committed := !(p.pending != [] && p.writes == 0) && !p.generationFailed && journalTakes;
            && (q.generationFailed <==> !committed) && q.paused == p.paused && q.held == p.held && q.accepted == p.accepted
            && q.records == (if p.pending != [] && p.writes > 0 then p.records + [Data(Flat(p.pending))] else p.records)
                            + (if committed then [Size(geometry)] else [])
  {
    FlushOutcome(p);
  }

  /** A cleanup leaves nothing waiting, and every part ever declared has been sent to the dispatcher. */
  lemma CleansUp(p: Pane)
    requires Inv(p)
    ensures var q := Cleanup(p);
            && q.pending == [] && q.held == [] && !q.paused && q.failed && q.records == p.records && q.accepted == p.accepted
            && q.parts == p.parts && forall id: nat :: Count(q.published, Of(id)) == Declared(p, id)
  {
    CleanupKeeps(p);
    var q := Cleanup(p);
    assert Ids([]) == [];
    forall id: nat ensures Count(q.published, Of(id)) == Declared(p, id) {
      assert Occurrences(q, id) == Declared(q, id);
    }
  }

  /** Retirement ends the pause of an idle pane and leaves any other as it is. */
  lemma Forgets(p: Pane)
    ensures Forget(p) == p.(paused := p.paused && (p.pending != [] || p.held != []))
  {
  }

  // ---- Output ------------------------------------------------------------------------------------------------

  /** One turn of the cutting loop. */
  lemma CutStep(p: Pane, data: seq<Byte>, id: nat)
    requires data != [] && p.bytes < p.batch
    ensures var take := Min(|data|, p.batch - p.bytes);
            var piece := Piece(data[..take], id);
            var rest := data[take..];
            var q := p.(pending := p.pending + [piece], bytes := p.bytes + take);
            Cut(p, data, id) ==
              if p.paused then Cut(p.(held := p.held + [piece], heldBytes := p.heldBytes + take), rest, id)
              else if q.bytes < q.batch then Cut(q, rest, id)
              else if FlushFails(q) then Flush(q).(published := Flush(q).published + Repeat(id, CeilDiv(|rest|, p.batch)))
              else Cut(Flush(q), rest, id)
  {
    hide Flush, FlushFails, CeilDiv;
  }

  /** What cutting a whole payload does: a paused pane holds it, any other writes its full batches. */
  ghost predicate Cuts(p: Pane, data: seq<Byte>, q: Pane) {
    && Spent(p, q) && q.paused == p.paused && (q.failed ==> !p.paused && q.pending == [])
    && (p.paused ==> q.pending == p.pending && q.records == p.records && Flat(q.held) == Flat(p.held) + data)
    && (!p.paused ==> q.held == p.held)
  }

  lemma CutsOn(p: Pane, data: seq<Byte>, take: nat, q: Pane, r: Pane)
    requires take <= |data| && Cuts(p, data[..take], q) && Cuts(q, data[take..], r) && !q.failed
    ensures Cuts(p, data, r)
  {
    SpentTwice(p, q, r);
    assert data == data[..take] + data[take..];
    if p.paused {
      assert Flat(p.held) + data[..take] + data[take..] == Flat(p.held) + data;
    }
    hide Flat, Written;
  }

  lemma CutNothing(p: Pane, id: nat)
    requires !p.failed
    ensures Cut(p, [], id) == p && Cuts(p, [], p)
  {
    assert Flat(p.held) + [] == Flat(p.held);
  }

  lemma HoldCuts(p: Pane, piece: Piece, take: nat)
    requires p.paused && !p.failed
    ensures Cuts(p, piece.data, p.(held := p.held + [piece], heldBytes := p.heldBytes + take))
  {
    FlatAppend(p.held, piece);
  }

  lemma FillCuts(p: Pane, piece: Piece, take: nat, data: seq<Byte>)
    requires !p.paused && !p.failed
    ensures Cuts(p, data, p.(pending := p.pending + [piece], bytes := p.bytes + take))
  {
  }

  /** A full batch is written, or refused and lost. */
  lemma FullCuts(p: Pane, data: seq<Byte>, id: nat, take: nat, q: Pane)
    requires Cutting(p, data, id) && data != [] && !p.paused && Filled(p, data, id, take, q) && q.bytes == q.batch
    ensures q.writes > 0 ==> Cuts(p, data[..take], Flush(q)) && !Flush(q).failed
    ensures q.writes == 0 ==>
              Cuts(p, data, Flush(q).(published := Flush(q).published + Repeat(id, CeilDiv(|data[take..]|, q.batch))))
  {
    FillOrder(p, data, id, take, q);
    if q.writes == 0 {
      Lost(Written(q.records), Flat(q.pending), data[take..], q.accepted);
    }
    hide Written, Flat, CeilDiv, Occurrences;
  }

  /** A paused pane's turn holds one piece. */
  lemma HoldTurn(p: Pane, data: seq<Byte>, id: nat, take: nat, q: Pane)
    requires Cutting(p, data, id) && data != [] && p.paused && take == Min(|data|, p.batch - p.bytes)
    requires q == p.(held := p.held + [Piece(data[..take], id)], heldBytes := p.heldBytes + take)
    ensures Cutting(q, data[take..], id) && Cuts(p, data[..take], q) && !q.failed
    ensures Cut(p, data, id) == Cut(q, data[take..], id)
  {
    CutReady(p, data, id);
    HoldKeeps(p, data, id);
    HoldCuts(p, Piece(data[..take], id), take);
    CutStep(p, data, id);
    hide Cut, Cuts, Flat, Written, CeilDiv, Flush, Occurrences, Need;
  }

  /** Any other pane's turn leaves the rest of the payload pending, or fills the batch. */
  lemma FillTurn(p: Pane, data: seq<Byte>, id: nat, take: nat, q: Pane)
    requires Cutting(p, data, id) && data != [] && !p.paused && Filled(p, data, id, take, q)
    ensures q.bytes < q.batch || q.writes == 0 ==> Cuts(p, data, Cut(p, data, id))
    ensures q.bytes == q.batch && q.writes > 0 ==>
              && Cutting(Flush(q), data[take..], id) && Cuts(p, data[..take], Flush(q)) && !Flush(q).failed
              && Cut(p, data, id) == Cut(Flush(q), data[take..], id)
    ensures q.bytes <= q.batch
  {
    CutReady(p, data, id);
    CutStep(p, data, id);
    assert !p.failed;
    hide Cutting, Cut, Cuts, Flat, Written, CeilDiv, Flush;
    if q.bytes < q.batch {
      FillWaits(p, data, id, take, q);
      FillCuts(p, Piece(data[..take], id), take, data);
      CutNothing(q, id);
    } else {
      FullCuts(p, data, id, take, q);
      if q.writes > 0 {
        FillFlushes(p, data, id, take, q);
      }
    }
  }

  lemma {:induction false} CutSpends(p: Pane, data: seq<Byte>, id: nat)
    requires Cutting(p, data, id)
    ensures Cuts(p, data, Cut(p, data, id))
    decreases |data|
  {
    CutReady(p, data, id);
    assert !p.failed;
    hide Cutting, Cut, Cuts, Flush;
    if data == [] {
      CutNothing(p, id);
    } else {
      var take := Min(|data|, p.batch - p.bytes);
      var piece := Piece(data[..take], id);
      if p.paused {
        var q := p.(held := p.held + [piece], heldBytes := p.heldBytes + take);
        HoldTurn(p, data, id, take, q);
        CutSpends(q, data[take..], id);
        CutsOn(p, data, take, q, Cut(q, data[take..], id));
      } else {
        var q := p.(pending := p.pending + [piece], bytes := p.bytes + take);
        FillTurn(p, data, id, take, q);
        if q.bytes == q.batch && q.writes > 0 {
          CutSpends(Flush(q), data[take..], id);
          CutsOn(p, data, take, Flush(q), Cut(Flush(q), data[take..], id));
        }
      }
    }
  }

  /** A healthy pane accepts every output behind what it accepted before: a paused one holds it, any other keeps it
      pending but for the full batches it writes. Only a refused write loses any of it. After a fault an output is
      discarded and settled as its own one part. */
  lemma Accepts(p: Pane, payload: seq<Byte>)
    requires Inv(p)
    ensures var q := Accept(p, payload);
            && |q.parts| == |p.parts| + 1 && q.parts[..|p.parts|] == p.parts && q.parts[|p.parts|] >= 1
            && q.paused == p.paused && |q.records| + q.writes == |p.records| + p.writes && p.records <= q.records
            && (if p.generationFailed then
                  && q.accepted == p.accepted && q.pending == p.pending && q.held == p.held && q.records == p.records
                  && q.published == p.published + [|p.parts|] && q.generationFailed && q.failed == p.failed
                else
                  && q.accepted == p.accepted + payload && q.generationFailed == q.failed
                  && (q.failed ==> q.writes == 0 && Written(q.records) < q.accepted && !p.paused)
                  && (p.paused ==> q.records == p.records && Flat(q.held) == Flat(p.held) + payload))
  {
    assert Flat(p.held) + [] == Flat(p.held);
    if !p.generationFailed && payload != [] {
      var n := Max(CeilDiv(p.bytes + |payload|, p.batch), 1);
      StartsCutting(p, payload, n);
      hide CeilDiv, Inv, Cutting, Cut, Written, Flat;
      CutSpends(p.(parts := p.parts + [n], accepted := p.accepted + payload), payload, |p.parts|);
    } else {
      hide Written, CeilDiv;
    }
  }

  // ---- Every run ---------------------------------------------------------------------------------------------

  /** The payloads of a schedule, one behind the other. */
  function Outputs(ops: seq<Op>): seq<Byte> {
    if ops == [] then []
    else
      var last := ops[|ops| - 1];
      Outputs(ops[..|ops| - 1]) + if last.Output? then last.payload else []
  }

  /** A fault from outside the pane: of another component, or of the journal asked for a geometry. */
  predicate Intrudes(op: Op) {
    op.FaultElsewhere? || (op.Geometry? && !op.journalTakes)
  }

  /** An operation after which nothing waits in a pane that lost nothing. */
  predicate Empties(op: Op, paused: bool) {
    op.EndPause? || op.Close? || (op.FlushNow? && !paused)
  }

  ghost predicate Healthy(p: Pane, ops: seq<Op>) {
    && (!p.generationFailed ==> p.accepted == Outputs(ops))
    && (p.failed ==> p.generationFailed)
    && (p.generationFailed ==> p.writes == 0 || exists i :: 0 <= i < |ops| && Intrudes(ops[i]))
  }

  lemma StepHealthy(p: Pane, op: Op)
    requires Inv(p)
    ensures var q := Apply(p, op);
            && (!q.generationFailed ==> !p.generationFailed && q.accepted == p.accepted + (if op.Output? then op.payload else []))
            && (q.failed ==> q.generationFailed)
            && (q.generationFailed && !p.generationFailed ==> q.writes == 0 || Intrudes(op))
            && (p.writes == 0 ==> q.writes == 0)
            && (!q.generationFailed && Empties(op, p.paused) ==> AllWritten(q) && (op.EndPause? ==> !q.paused))
  {
    StepKeeps(p, op);
    assert p.accepted + [] == p.accepted;
    hide Accept, PauseEnd, PauseStart, CloseFlush, CommitGeometry;
    if p.failed {
      FailedStep(p, op);
      hide Flush, Apply, Inv;
    } else {
      match op {
        case Output(payload) => Accepts(p, payload);
        case EndPause => PauseEnds(p);
        case StartPause => PauseStarts(p);
        case Close => CloseEnds(p);
        case Geometry(geometry, takes) => GeometryStep(p, geometry, takes);
        case FlushNow =>
          FlushOutcome(p);
          if !p.paused && !Flush(p).failed { SettledIsAll(Flush(p)); }
        case _ =>
      }
      hide Flush, PartsOk, OrderOk;
    }
  }

  lemma GeometryStep(p: Pane, geometry: Journal.Geometry, takes: bool)
    requires Inv(p) && !p.failed
    ensures var q := CommitGeometry(p, geometry, takes);
            && (!q.generationFailed ==> !p.generationFailed) && q.accepted == p.accepted && (q.failed ==> q.generationFailed)
            && (q.generationFailed && !p.generationFailed ==> q.writes == 0 || !takes)
            && (p.writes == 0 ==> q.writes == 0)
  {
    FlushOutcome(p);
    GeometryIff(p, geometry, takes);
  }

  lemma FailedStep(p: Pane, op: Op)
    requires Inv(p) && p.failed
    ensures var q := Apply(p, op);
            q.generationFailed && q.writes == p.writes
  {
    FailedStill(p);
  }

  /** Over any schedule, as long as the generation is healthy everything output was accepted, in order; after the end
      of a pause, a close or a flush outside a pause all of it is in the journal; and only a refused write or a fault
      from outside ends that. */
  lemma {:induction false} EverythingRecorded(batch: nat, writes: nat, ops: seq<Op>)
    requires batch > 0
    ensures var p := Run(Fresh(batch, writes), ops);
            && Healthy(p, ops)
            && (ops != [] && !p.generationFailed &&
                Empties(ops[|ops| - 1], Run(Fresh(batch, writes), ops[..|ops| - 1]).paused) ==>
                  p.pending == [] && p.held == [] && Written(p.records) == Outputs(ops) &&
                  (ops[|ops| - 1].EndPause? ==> !p.paused))
  {
    hide Apply, Inv, Written, Intrudes;
    var p := Fresh(batch, writes);
    if ops == [] {
      FreshHealthy(batch, writes);
    } else {
      var front := ops[..|ops| - 1];
      EverythingRecorded(batch, writes, front);
      StreamKept(batch, writes, front);
      StepHealthy(Run(p, front), ops[|ops| - 1]);
      assert forall i :: 0 <= i < |front| ==> front[i] == ops[i];
    }
  }

  lemma FreshHealthy(batch: nat, writes: nat)
    requires batch > 0
    ensures Healthy(Fresh(batch, writes), []) && Run(Fresh(batch, writes), []) == Fresh(batch, writes)
  {
  }
}
