/** The pane object the manager changes in place: its pending batch, its held pieces and its flags. */
module PaneRuntime {
  import opened Basics
  import opened Journal
  import opened PaneProgress
  import opened PaneStream

  class PaneState {
    const batch: nat
    var pending: seq<Piece>
    var bytes: nat
    var held: seq<Piece>
    var heldBytes: nat
    var paused: bool
    var failed: bool
    var generationFailed: bool
    var writes: nat
    var records: seq<Record>
    var parts: seq<nat>
    var published: seq<nat>
    ghost var accepted: seq<Byte>
    ghost var barrier: nat

    ghost function View(): Pane
      reads this
    {
      Pane(batch, pending, bytes, held, heldBytes, paused, failed, generationFailed, writes, records, accepted, parts,
           published, barrier)
    }

    constructor (batch: nat, writes: nat)
      requires batch > 0
      ensures View() == Fresh(batch, writes) && Inv(View())
    {
      this.batch, this.writes := batch, writes;
      pending, bytes, held, heldBytes, paused, failed, generationFailed := [], 0, [], 0, false, false, false;
      records, accepted, parts, published, barrier := [], [], [], [], 0;
      new;
      FreshInv(batch, writes);
    }

    /** One record of everything pending, built piece by piece, or a fault that aborts it. */
    method FlushPane() returns (err: bool)
      modifies this
      ensures View() == Flush(old(View())) && err == FlushFails(old(View()))
      ensures err <==> old(bytes) != 0 && old(writes) == 0
      ensures old(bytes) != 0 && !err ==> records == old(records) + [Data(Flat(old(pending)))] && pending == []
    {
      if bytes == 0 {
        return false;
      }
      var payload: seq<Byte> := [];
      var index := 0;
      while index < |pending|
        invariant 0 <= index <= |pending| && payload == Flat(pending[..index])
        invariant View() == old(View())
      {
        assert pending[..index + 1][..index] == pending[..index];
        payload := payload + pending[index].data;
        index := index + 1;
      }
      assert pending[..|pending|] == pending;
      var components := pending;
      pending := [];
      bytes := 0;
      published := published + Ids(components);
      if writes > 0 {
        writes := writes - 1;
        records := records + [Data(payload)];
        return false;
      }
      failed, generationFailed := true, true;
      err := true;
    }

    /** processOutput's end: discard, complete, or declare the parts and cut the payload into the batch. */
    method ProcessOutput(payload: seq<Byte>)
      requires Inv(View())
      modifies this
      ensures Inv(View()) && View() == Accept(old(View()), payload)
      ensures accepted == old(accepted) + (if old(generationFailed) then [] else payload) && paused == old(paused)
      ensures !failed ==> generationFailed == old(generationFailed)
      ensures failed && !old(failed) ==> writes == 0 && !paused
    {
      Accepts(View(), payload);
      InvBatch(View());
      assert accepted + [] == accepted;
      hide Inv, Cut, Flush, CeilDiv, Flat, Written;
      AcceptKeeps(View(), payload);
      var id := |parts|;
      if generationFailed || |payload| == 0 {
        parts := parts + [1];
        published := published + [id];
        return;
      }
      var declared := CeilDiv(bytes + |payload|, batch);
      if declared < 1 {
        declared := 1;
      }
      parts := parts + [declared];
      accepted := accepted + payload;
      EnqueueComponent(payload, id);
    }

    /** A piece waits behind the pause, or joins the open batch. */
    method AppendPiece(piece: Piece, take: nat)
      modifies this`pending, this`bytes, this`held, this`heldBytes
      ensures View() == if old(paused)
                        then old(View()).(held := old(held) + [piece], heldBytes := old(heldBytes) + take)
                        else old(View()).(pending := old(pending) + [piece], bytes := old(bytes) + take)
    {
      if paused {
        held := held + [piece];
        heldBytes := heldBytes + take;
      } else {
        pending := pending + [piece];
        bytes := bytes + take;
      }
    }

    /** One turn of the cutting loop: the next piece, and a flush when it fills the batch. */
    method CutPiece(data: seq<Byte>, id: nat) returns (rest: seq<Byte>, lost: bool)
      requires data != [] && bytes < batch && (paused ==> bytes == 0)
      modifies this
      ensures lost ==> View() == Cut(old(View()), data, id)
      ensures !lost ==> |rest| < |data| && bytes < batch && (paused ==> bytes == 0)
      ensures !lost ==> Cut(View(), rest, id) == Cut(old(View()), data, id)
    {
      hide Cut, Flush, FlushFails, CeilDiv, Flat, Repeat, Drain;
      CutStep(View(), data, id);
      var take := Min(|data|, batch - bytes);
      AppendPiece(Piece(data[..take], id), take);
      rest := data[take..];
      lost := false;
      if !paused && bytes == batch {
        FlushedEmpty(View());
        lost := FlushPane();
        if lost {
          published := published + Repeat(id, CeilDiv(|rest|, batch));
        }
      }
    }

    method EnqueueComponent(payload: seq<Byte>, id: nat)
      requires batch > 0 && bytes < batch && (paused ==> bytes == 0)
      modifies this
      ensures View() == Cut(old(View()), payload, id)
    {
      hide Cut;
      var data := payload;
      while |data| != 0
        invariant bytes < batch && (paused ==> bytes == 0)
        invariant Cut(View(), data, id) == Cut(old(View()), payload, id)
        decreases |data|
      {
        var lost: bool;
        data, lost := CutPiece(data, id);
        if lost {
          return;
        }
      }
      LoopsEnd(View(), id);
    }

    method DrainHeld() returns (err: bool)
      requires !paused && bytes < batch
      modifies this
      ensures View() == Drain(old(View()).(held := [], heldBytes := 0), old(held))
      ensures !old(failed) ==> err == failed
      ensures old(failed) && old(held) == [] ==> !err
    {
      hide Drain, Flush, FlushFails, Flat;
      var pieces := held;
      held := [];
      heldBytes := 0;
      ghost var result := Drain(View(), pieces);
      var index := 0;
      err := false;
      while index < |pieces|
        invariant 0 <= index <= |pieces| && !err
        invariant Drain(View(), pieces[index..]) == result && !paused && failed == old(failed)
      {
        DrainStep(View(), pieces[index..]);
        var component := pieces[index];
        assert pieces[index..][1..] == pieces[index + 1..];
        FlushedEmpty(View());
        if bytes != 0 && bytes + |component.data| > batch {
          err := FlushPane();
        }
        if err {
          published := published + Ids(pieces[index..]);
          return;
        }
        AppendPiece(component, |component.data|);
        index := index + 1;
        FlushedEmpty(View());
        if bytes == batch {
          err := FlushPane();
          if err {
            published := published + Ids(pieces[index..]);
            return;
          }
        }
      }
      assert pieces[index..] == [];
      LoopsEnd(View(), 0);
    }

    method ProcessPauseStart() returns (err: bool)
      requires Inv(View())
      modifies this
      ensures Inv(View()) && View() == PauseStart(old(View()))
      ensures err <==> old(pending) != [] && old(writes) == 0
      ensures !err ==> paused && pending == [] && held == old(held)
      ensures !err && !old(paused) && !failed ==> Written(records) == accepted == old(accepted)
    {
      PauseStartKeeps(View());
      FlushedEmpty(View());
      if failed {
        FailedStill(View());
      } else {
        PauseStarts(View());
      }
      hide Inv, Flush, FlushFails, Written;
      err := FlushPane();
      if !err {
        barrier := if paused then barrier else |accepted|;
        paused := true;
      }
    }

    method ProcessPauseEnd() returns (err: bool)
      requires Inv(View())
      modifies this
      ensures Inv(View()) && View() == PauseEnd(old(View()))
      ensures !paused && pending == [] && held == [] && accepted == old(accepted)
      ensures old(records) <= records && |records| + writes == |old(records)| + old(writes)
      ensures err <==> failed && !old(failed)
      ensures err ==> writes == 0 && Written(records) < accepted
      ensures !failed ==> Written(records) == accepted
    {
      ghost var p := View();
      PauseEndFacts(p);
      hide Inv, Flush, FlushFails, Written, PauseEnd, Release;
      err := FlushPane();
      paused := false;
      var drained := DrainHeld();
      ghost var r := View();
      ReleasesTo(Flush(p), r);
      if !err {
        err := drained;
      }
      if !err {
        err := FlushPane();
      }
    }

    method ProcessGeometry(geometry: Journal.Geometry, journalTakes: bool) returns (err: bool)
      requires Inv(View())
      modifies this
      ensures Inv(View()) && View() == CommitGeometry(old(View()), geometry, journalTakes)
      ensures err <==> (old(pending) != [] && old(writes) == 0) || old(generationFailed) || !journalTakes
      ensures err ==> generationFailed
      ensures !err ==> records == Flush(old(View())).records + [Size(geometry)]
    {
      GeometryKeeps(View(), geometry, journalTakes);
      if failed {
        FailedStill(View());
      } else {
        FlushOutcome(View());
      }
      FlushKeeps(View());
      hide Inv, Flush, FlushFails, Flat, Ids;
      err := FlushPane();
      if !err && generationFailed {
        err := true;
      }
      if !err && !journalTakes {
        err := true;
      }
      if err {
        generationFailed := true;
        return;
      }
      records := records + [Size(geometry)];
    }

    /** requestRetire forgets an idle pane. */
    method RequestRetire()
      requires Inv(View())
      modifies this`paused
      ensures Inv(View()) && View() == Forget(old(View()))
    {
      hide Inv;
      ForgetKeeps(View());
      if pending == [] && held == [] {
        paused := false;
      }
    }

    method ProcessCleanup()
      requires Inv(View())
      modifies this
      ensures Inv(View()) && View() == Cleanup(old(View())) && pending == [] && held == [] && !paused
      ensures published == old(published) + Ids(old(pending)) + Ids(old(held))
    {
      hide Inv;
      CleanupKeeps(View());
      published := published + Ids(pending) + Ids(held);
      pending, held, bytes, heldBytes := [], [], 0, 0;
      paused, failed, generationFailed := false, true, true;
    }

    method FlushForClose()
      requires Inv(View())
      modifies this
      ensures Inv(View()) && View() == CloseFlush(old(View()))
      ensures !old(failed) ==> !paused && pending == [] && held == []
      ensures !failed ==> Written(records) == accepted == old(accepted)
      ensures failed && !old(failed) ==> writes == 0 && Written(records) < accepted
    {
      if !failed {
        CloseEnds(View());
      }
      hide Inv, Drain, Flush, Written;
      CloseKeeps(View());
      InvBatch(View());
      if paused && !failed {
        paused := false;
        var _ := DrainHeld();
      }
      var _ := FlushPane();
    }
  }

  lemma LoopsEnd(p: Pane, id: nat)
    ensures Cut(p, [], id) == p && Drain(p, []) == p
  {
  }

  /** The three steps of the end of a pause, and which of them can fail. */
  lemma PauseEndFacts(p: Pane)
    requires Inv(p)
    ensures var f := Flush(p);
            var r := Release(f);
            && f.bytes < f.batch && (FlushFails(p) <==> f.failed && !p.failed) && (p.failed ==> f == p)
            && (f.failed ==> f.held == [] && f.bytes == 0 && r.bytes == 0 && r.failed)
            && PauseEnd(p) == (if r.failed then r else Flush(r))
            && (r.failed && r.bytes == 0 ==> Flush(r) == r && !FlushFails(r))
            && (Flush(r).failed <==> r.failed || FlushFails(r))
    ensures var q := PauseEnd(p);
            && Inv(q) && !q.paused && q.pending == [] && q.held == [] && q.accepted == p.accepted
            && p.records <= q.records && |q.records| + q.writes == |p.records| + p.writes
            && (p.failed ==> q == p.(paused := false))
            && (q.failed && !p.failed ==> q.writes == 0 && Written(q.records) < q.accepted)
            && (!q.failed ==> Written(q.records) == q.accepted)
  {
    PauseEndKeeps(p);
    PauseEndsAny(p);
    FlushKeeps(p);
    InvBatch(Flush(p));
    FlushedEmpty(p);
    if Flush(p).failed {
      FailedStill(Flush(p));
    }
    FlushedEmpty(Release(Flush(p)));
    hide Inv, Flat, Written;
  }

  lemma ReleasesTo(f: Pane, r: Pane)
    requires r == Drain(f.(paused := false, held := [], heldBytes := 0), f.held)
    ensures r == Release(f)
  {
  }

  lemma InvBatch(p: Pane)
    requires Inv(p)
    ensures p.batch > 0 && p.bytes < p.batch && (p.paused ==> p.bytes == 0)
  {
    assert Flat([]) == [];
  }

  lemma FlushedEmpty(p: Pane)
    ensures var f := Flush(p);
            && f.bytes == 0 && f.paused == p.paused && f.batch == p.batch && f.accepted == p.accepted && f.barrier == p.barrier
            && (f.failed <==> p.failed || FlushFails(p))
  {
  }
}
