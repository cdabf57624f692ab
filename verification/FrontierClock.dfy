/** When each sequence of a generation had been published, at a bounded resolution and with bounded memory. */
module FrontierClock {
  import opened Basics

  datatype Mark = Mark(at: int, sequence: nat)

  const Resolution := 64
  const MaxMarks := Resolution + 8

  /** How far apart marks are at least. */
  function Step(window: nat): nat {
    window / Resolution
  }

  /** One publication. */
  datatype Sample = Sample(at: int, sequence: nat)

  /** What the clock has been told, oldest first: times never go back, sequences never fall. */
  ghost predicate Ordered(h: seq<Sample>) {
    forall i, j :: 0 <= i < j < |h| ==> h[i].at <= h[j].at && h[i].sequence <= h[j].sequence
  }

  /** A sample joins the newest mark while that is younger than one resolution, else it makes a mark. */
  function Join(marks: seq<Mark>, now: int, sequence: nat, resolution: int): (joined: seq<Mark>)
    ensures joined != []
  {
    var last := |marks| - 1;
    if marks != [] && now - marks[last].at < resolution
    then marks[last := Mark(marks[last].at, Max(marks[last].sequence, sequence))]
    else marks + [Mark(now, sequence)]
  }

  /** How many marks in front of the newest one at or before `cutoff`. */
  function Stale(marks: seq<Mark>, cutoff: int): (drop: nat)
    ensures marks != [] ==> drop < |marks|
    ensures drop > 0 ==> marks != [] && marks[drop].at <= cutoff
  {
    if |marks| > 1 && marks[1].at <= cutoff then 1 + Stale(marks[1..], cutoff) else 0
  }

  function Backstop(marks: seq<Mark>, drop: nat): nat {
    if |marks| - drop > MaxMarks then |marks| - MaxMarks else drop
  }

  /** The clock after one observation. */
  function Observe(marks: seq<Mark>, pruned: bool, now: int, sequence: nat, window: nat): (seq<Mark>, bool) {
    var joined := Join(marks, now, sequence, Step(window));
    var drop := Backstop(joined, Stale(joined, now - window));
    if drop > 0 && drop <= |joined| then (joined[drop..], true) else (joined, pruned)
  }

  /** The newest mark at or before `instant`; the oldest retained one when older marks were pruned. */
  function At(marks: seq<Mark>, pruned: bool, instant: int): nat {
    if marks == [] then 0
    else if marks[|marks| - 1].at <= instant then marks[|marks| - 1].sequence
    else if |marks| == 1 then (if pruned then marks[0].sequence else 0)
    else At(marks[..|marks| - 1], pruned, instant)
  }

  /** The clock that never prunes. */
  function Full(h: seq<Sample>, window: nat): seq<Mark> {
    if h == [] then []
    else Join(Full(h[..|h| - 1], window), h[|h| - 1].at, h[|h| - 1].sequence, Step(window))
  }

  function Pruned(h: seq<Sample>, window: nat): (seq<Mark>, bool) {
    if h == [] then ([], false)
    else
      var before := Pruned(h[..|h| - 1], window);
      Observe(before.0, before.1, h[|h| - 1].at, h[|h| - 1].sequence, window)
  }

  /** At least one time unit per resolution, and at most 71 resolutions to the window. */
  predicate Fine(window: nat) {
    Step(window) > 0 && window <= 71 * (Step(window))
  }

  predicate Spans(marks: int, resolution: nat, window: nat) {
    marks * resolution < window
  }

  /** The highest sequence published by `instant`, or 0. */
  function Frontier(h: seq<Sample>, instant: int): nat {
    if h == [] then 0
    else if h[|h| - 1].at <= instant then Max(h[|h| - 1].sequence, Frontier(h[..|h| - 1], instant))
    else Frontier(h[..|h| - 1], instant)
  }

  // ---- The unpruned clock ----------------------------------------------------------------------------------

  ghost predicate Rising(marks: seq<Mark>, resolution: int) {
    forall i, j :: 0 <= i < j < |marks| ==>
      marks[i].at + resolution <= marks[j].at && marks[i].at <= marks[j].at && marks[i].sequence <= marks[j].sequence
  }

  /** Marks are a resolution apart, the newest is no older than one resolution, and carries the last sequence. */
  lemma {:induction false} FullRising(h: seq<Sample>, window: nat)
    requires Ordered(h)
    ensures Rising(Full(h, window), Step(window))
    ensures (h == []) == (Full(h, window) == [])
    ensures h != [] ==>
              var m := Full(h, window)[|Full(h, window)| - 1];
              m.at <= h[|h| - 1].at && m.sequence == h[|h| - 1].sequence &&
              (h[|h| - 1].at - m.at < Step(window) || h[|h| - 1].at == m.at)
  {
    if h != [] {
      var init := h[..|h| - 1];
      FullRising(init, window);
      assert init != [] ==> init[|init| - 1] == h[|h| - 2];
    }
  }

  lemma AtLast(marks: seq<Mark>, m: Mark, instant: int)
    ensures At(marks + [m], false, instant) == if m.at <= instant then m.sequence else At(marks, false, instant)
  {
    assert (marks + [m])[..|marks|] == marks;
  }

  /** What one more sample does to an answer: it joins the newest mark or follows it. */
  lemma AtJoined(marks: seq<Mark>, now: int, sequence: nat, resolution: int, instant: int)
    ensures var answer := At(Join(marks, now, sequence, resolution), false, instant);
            var last := |marks| - 1;
            if marks != [] && now - marks[last].at < resolution
            then answer == if marks[last].at <= instant then Max(marks[last].sequence, sequence) else At(marks, false, instant)
            else answer == if now <= instant then sequence else At(marks, false, instant)
  {
    var last := |marks| - 1;
    if marks != [] && now - marks[last].at < resolution {
      var front := marks[..last];
      var m := Mark(marks[last].at, Max(marks[last].sequence, sequence));
      assert marks == front + [marks[last]] && marks[last := m] == front + [m];
      hide At;
      AtLast(front, marks[last], instant);
      AtLast(front, m, instant);
    } else {
      hide At;
      AtLast(marks, Mark(now, sequence), instant);
    }
  }

  /** A query is answered with at least everything published by then, and with nothing published later than one
      resolution after. */
  lemma {:induction false} FullBounds(h: seq<Sample>, window: nat, instant: int)
    requires Ordered(h)
    ensures Frontier(h, instant) <= At(Full(h, window), false, instant)
    ensures At(Full(h, window), false, instant) <= Frontier(h, instant + Step(window))
  {
    if h != [] {
      var r := Step(window);
      var init := h[..|h| - 1];
      var last := h[|h| - 1];
      FullBounds(init, window, instant);
      FullRising(init, window);
      FrontierBelow(init, instant, last.sequence);
      FrontierBelow(init, instant + r, last.sequence);
      FullStep(h, window);
      AtJoined(Full(init, window), last.at, last.sequence, r, instant);
      assert init != [] ==> init[|init| - 1] == h[|h| - 2];
      hide At, Full, Join, Rising, Step;
    }
  }

  lemma {:induction false} FrontierBelow(h: seq<Sample>, instant: int, bound: nat)
    requires forall i :: 0 <= i < |h| ==> h[i].sequence <= bound
    ensures Frontier(h, instant) <= bound
  {
    if h != [] {
      FrontierBelow(h[..|h| - 1], instant, bound);
    }
  }

  // ---- Pruning ---------------------------------------------------------------------------------------------

  /** The retained marks follow the dropped ones in the full clock. */
  ghost predicate Tail(full: seq<Mark>, dropped: seq<Mark>, marks: seq<Mark>, pruned: bool) {
    && full == dropped + marks && (pruned <==> dropped != []) && (full != [] ==> marks != [])
  }

  /** What pruning has dropped, oldest first. */
  function Dropped(h: seq<Sample>, window: nat): seq<Mark> {
    if h == [] then [] else Dropped(h[..|h| - 1], window) + DroppedNow(h, window)
  }

  function DroppedNow(h: seq<Sample>, window: nat): seq<Mark>
    requires h != []
  {
    var last := h[|h| - 1];
    var joined := Join(Pruned(h[..|h| - 1], window).0, last.at, last.sequence, Step(window));
    var drop := Backstop(joined, Stale(joined, last.at - window));
    if drop <= |joined| then joined[..drop] else []
  }

  lemma JoinTail(full: seq<Mark>, dropped: seq<Mark>, marks: seq<Mark>, pruned: bool, now: int, sequence: nat, resolution: int)
    requires Tail(full, dropped, marks, pruned)
    ensures Tail(Join(full, now, sequence, resolution), dropped, Join(marks, now, sequence, resolution), pruned)
  {
    if full != [] {
      assert marks[|marks| - 1] == full[|full| - 1];
    }
  }

  /** However much was dropped, an answer never demands less than the full clock's. */
  lemma {:induction false} NeverLess(full: seq<Mark>, dropped: seq<Mark>, marks: seq<Mark>, pruned: bool, instant: int, resolution: int)
    requires Tail(full, dropped, marks, pruned) && Rising(full, resolution)
    ensures At(marks, pruned, instant) >= At(full, false, instant)
    decreases |marks|
  {
    if marks != [] {
      var n := |full| - 1;
      assert marks[|marks| - 1] == full[n];
      if full[n].at > instant && |marks| > 1 {
        assert full[..n] == dropped + marks[..|marks| - 1];
        NeverLess(full[..n], dropped, marks[..|marks| - 1], pruned, instant, resolution);
      } else if full[n].at > instant {
        AtBelow(full[..n], instant, full[n].sequence);
      }
    }
  }

  lemma {:induction false} AtBelow(marks: seq<Mark>, instant: int, bound: nat)
    requires forall i :: 0 <= i < |marks| ==> marks[i].sequence <= bound
    ensures At(marks, false, instant) <= bound
  {
    if |marks| > 1 {
      AtBelow(marks[..|marks| - 1], instant, bound);
    }
  }

  /** A query no older than the first retained mark is answered exactly. */
  lemma {:induction false} ExactWithin(full: seq<Mark>, dropped: seq<Mark>, marks: seq<Mark>, pruned: bool, instant: int)
    requires Tail(full, dropped, marks, pruned) && (pruned && marks != [] ==> marks[0].at <= instant)
    ensures At(marks, pruned, instant) == At(full, false, instant)
    decreases |marks|
  {
    if marks != [] {
      var n := |full| - 1;
      assert marks[|marks| - 1] == full[n];
      if full[n].at > instant && |marks| > 1 {
        assert full[..n] == dropped + marks[..|marks| - 1];
        ExactWithin(full[..n], dropped, marks[..|marks| - 1], pruned, instant);
      }
    }
  }

  /** Marks a resolution apart inside one window are few. */
  lemma FewRecent(marks: seq<Mark>, a: nat, b: nat, resolution: nat, window: nat)
    requires Rising(marks, resolution) && a <= b < |marks| && marks[a].at > marks[b].at - window
    ensures Spans(b - a, resolution, window)
  {
    Spread(marks, a, b, resolution);
  }

  lemma {:induction false} Spread(marks: seq<Mark>, a: nat, b: nat, resolution: nat)
    requires Rising(marks, resolution) && a <= b < |marks|
    ensures marks[a].at + (b - a) * resolution <= marks[b].at
    decreases b - a
  {
    if a < b {
      Spread(marks, a, b - 1, resolution);
      assert (b - 1 - a) * resolution + resolution == (b - a) * resolution;
    }
  }

  lemma {:induction false} StaleMaximal(marks: seq<Mark>, cutoff: int)
    ensures Stale(marks, cutoff) + 1 < |marks| ==> marks[Stale(marks, cutoff) + 1].at > cutoff
  {
    if |marks| > 1 && marks[1].at <= cutoff {
      StaleMaximal(marks[1..], cutoff);
    }
  }

  /** Joining moves no mark in time. */
  lemma JoinTimes(marks: seq<Mark>, now: int, sequence: nat, resolution: int)
    ensures var joined := Join(marks, now, sequence, resolution);
            && |marks| <= |joined| <= |marks| + 1
            && (forall i :: 0 <= i < |marks| ==> joined[i].at == marks[i].at)
            && (|joined| > |marks| ==> joined[|marks|].at == now)
  {
  }

  lemma FullStep(h: seq<Sample>, window: nat)
    requires h != []
    ensures Full(h, window) == Join(Full(h[..|h| - 1], window), h[|h| - 1].at, h[|h| - 1].sequence, Step(window))
  {
  }

  /** One observation drops `drop` of the joined marks. */
  lemma PrunedStep(h: seq<Sample>, window: nat)
    requires h != []
    ensures var (before, was) := Pruned(h[..|h| - 1], window);
            var joined := Join(before, h[|h| - 1].at, h[|h| - 1].sequence, Step(window));
            var drop := Backstop(joined, Stale(joined, h[|h| - 1].at - window));
            && drop < |joined| && Pruned(h, window) == (joined[drop..], was || drop > 0)
  {
    var (before, was) := Pruned(h[..|h| - 1], window);
    var joined := Join(before, h[|h| - 1].at, h[|h| - 1].sequence, Step(window));
    assert joined[0..] == joined;
  }

  /** Dropping from the front of a tail leaves a tail. */
  lemma DropTail(full: seq<Mark>, dropped: seq<Mark>, marks: seq<Mark>, pruned: bool, drop: nat)
    requires Tail(full, dropped, marks, pruned) && drop < |marks|
    ensures Tail(full, dropped + marks[..drop], marks[drop..], pruned || drop > 0)
  {
    assert marks == marks[..drop] + marks[drop..];
  }

  lemma DroppedStep(h: seq<Sample>, window: nat)
    requires h != []
    ensures var (before, was) := Pruned(h[..|h| - 1], window);
            var joined := Join(before, h[|h| - 1].at, h[|h| - 1].sequence, Step(window));
            var drop := Backstop(joined, Stale(joined, h[|h| - 1].at - window));
            drop < |joined| && Dropped(h, window) == Dropped(h[..|h| - 1], window) + joined[..drop]
  {
    hide Join, Pruned;
  }

  /** Joining a sample and dropping from the front turns a tail into a tail of the full clock with that sample. */
  lemma TailStep(full: seq<Mark>, dropped: seq<Mark>, marks: seq<Mark>, pruned: bool, now: int, sequence: nat,
                 resolution: int, drop: nat)
    requires Tail(full, dropped, marks, pruned) && drop < |Join(marks, now, sequence, resolution)|
    ensures var joined := Join(marks, now, sequence, resolution);
            Tail(Join(full, now, sequence, resolution), dropped + joined[..drop], joined[drop..], pruned || drop > 0)
  {
    hide *;
    JoinTail(full, dropped, marks, pruned, now, sequence, resolution);
    DropTail(Join(full, now, sequence, resolution), dropped, Join(marks, now, sequence, resolution), pruned, drop);
  }

  /** What pruning dropped, in general: the clock keeps the newest marks. */
  lemma {:induction false} PrunedIsTail(h: seq<Sample>, window: nat)
    ensures Tail(Full(h, window), Dropped(h, window), Pruned(h, window).0, Pruned(h, window).1)
  {
    hide *;
    if h == [] {
      EmptyTail(window);
    } else {
      var init := h[..|h| - 1];
      PrunedIsTail(init, window);
      TailGrows(h, window);
    }
  }

  lemma EmptyTail(window: nat)
    ensures Tail(Full([], window), Dropped([], window), Pruned([], window).0, Pruned([], window).1)
  {
    assert Full([], window) == [] + [];
  }

  lemma TailGrows(h: seq<Sample>, window: nat)
    requires h != []
    requires var init := h[..|h| - 1];
             Tail(Full(init, window), Dropped(init, window), Pruned(init, window).0, Pruned(init, window).1)
    ensures Tail(Full(h, window), Dropped(h, window), Pruned(h, window).0, Pruned(h, window).1)
  {
    hide *;
    var init := h[..|h| - 1];
    var at, sequence, r := h[|h| - 1].at, h[|h| - 1].sequence, Step(window);
    FullStep(h, window);
    PrunedStep(h, window);
    DroppedStep(h, window);
    var joined := Join(Pruned(init, window).0, at, sequence, r);
    TailStep(Full(init, window), Dropped(init, window), Pruned(init, window).0, Pruned(init, window).1, at, sequence, r,
             Backstop(joined, Stale(joined, at - window)));
  }

  /** The marks a pruned clock holds once the last sample has joined. */
  function Joined(h: seq<Sample>, window: nat): seq<Mark>
    requires h != []
  {
    Join(Pruned(h[..|h| - 1], window).0, h[|h| - 1].at, h[|h| - 1].sequence, Step(window))
  }

  lemma JoinedRising(h: seq<Sample>, window: nat)
    requires Ordered(h) && h != []
    ensures var joined := Joined(h, window);
            joined != [] && Rising(joined, Step(window)) && joined[|joined| - 1].at <= h[|h| - 1].at
  {
    var init := h[..|h| - 1];
    var last := h[|h| - 1];
    var before := Pruned(init, window);
    FullRising(h, window);
    FullStep(h, window);
    PrunedIsTail(init, window);
    hide Join, Full, Pruned, Dropped, Rising, Step;
    JoinTail(Full(init, window), Dropped(init, window), before.0, before.1, last.at, last.sequence, Step(window));
    var joined := Joined(h, window);
    assert Full(h, window) == Dropped(init, window) + joined;
    RisingTail(Dropped(init, window), joined, Step(window));
    assert joined[|joined| - 1] == Full(h, window)[|Full(h, window)| - 1];
  }

  /** With one mark per resolution and at most 71 resolutions in the window the backstop never fires: everything
      dropped lies behind a retained mark that is already one window old. */
  lemma {:induction false} BackstopIdle(h: seq<Sample>, window: nat)
    requires Ordered(h) && h != [] && Fine(window)
    ensures var (marks, pruned) := Pruned(h, window);
            && marks != [] && |marks| <= MaxMarks
            && Spans(|marks| - 2, Step(window), window)
            && (pruned ==> marks[0].at <= h[|h| - 1].at - window)
  {
    hide Step, Fine, Spans, Rising, Join, Stale, Full, Pruned, Backstop;
    var init := h[..|h| - 1];
    var last := h[|h| - 1];
    FineResolution(window);
    JoinedRising(h, window);
    PrunedStep(h, window);
    var joined := Joined(h, window);
    JoinedRecent(joined, last.at, window);
    StaleOld(joined, last.at - window);
    JoinTimes(Pruned(init, window).0, last.at, last.sequence, Step(window));
    if init != [] {
      assert init[|init| - 1] == h[|h| - 2];
      BackstopIdle(init, window);
    } else {
      NothingPruned(init, window);
    }
  }

  lemma FineResolution(window: nat)
    requires Fine(window)
    ensures Step(window) > 0
  {
  }

  lemma StaleOld(marks: seq<Mark>, cutoff: int)
    ensures Stale(marks, cutoff) > 0 ==> marks != [] && Stale(marks, cutoff) < |marks| && marks[Stale(marks, cutoff)].at <= cutoff
  {
  }

  lemma NothingPruned(h: seq<Sample>, window: nat)
    ensures h == [] ==> Pruned(h, window) == ([], false)
  {
  }

  /** After the stale marks are dropped, the rest lie inside one window. */
  lemma JoinedRecent(joined: seq<Mark>, now: int, window: nat)
    requires joined != [] && Fine(window) && Step(window) > 0 && Rising(joined, Step(window))
    requires joined[|joined| - 1].at <= now
    ensures var s := Stale(joined, now - window);
            |joined| - s <= MaxMarks && Backstop(joined, s) == s && Spans(|joined| - s - 2, Step(window), window)
  {
    hide Fine, Spans, Stale, Rising, Backstop;
    var r := Step(window);
    var s := Stale(joined, now - window);
    StaleMaximal(joined, now - window);
    BackstopExact(joined, s);
    if s + 1 < |joined| {
      FewRecent(joined, s + 1, |joined| - 1, r, window);
      FewerThan(|joined| - s - 2, r, window);
    } else {
      NoSpan(r, window);
    }
  }

  lemma RisingTail(front: seq<Mark>, marks: seq<Mark>, resolution: int)
    requires Rising(front + marks, resolution)
    ensures Rising(marks, resolution)
  {
    assert forall i :: 0 <= i < |marks| ==> marks[i] == (front + marks)[|front| + i];
  }

  lemma BackstopExact(marks: seq<Mark>, drop: nat)
    ensures |marks| - drop <= MaxMarks ==> Backstop(marks, drop) == drop
  {
  }

  lemma NoSpan(r: nat, window: nat)
    requires Step(window) > 0
    ensures Spans(-1, r, window)
  {
  }

  lemma FewerThan(n: nat, r: nat, window: nat)
    requires r == Step(window) && Fine(window) && Spans(n, r, window)
    ensures n < 71
  {
    if n >= 71 {
      MulLess(70, n, r);
    }
  }

  // ---- The main results ------------------------------------------------------------------------------------

  /** Queries no older than one window before the last observation get the unpruned answer: at least everything
      published by that instant and nothing published later than one resolution after it. */
  lemma WindowIsExact(h: seq<Sample>, window: nat, instant: int)
    requires Ordered(h) && h != [] && Fine(window)
    requires instant >= h[|h| - 1].at - window
    ensures var (marks, pruned) := Pruned(h, window);
            && At(marks, pruned, instant) == At(Full(h, window), false, instant)
            && Frontier(h, instant) <= At(marks, pruned, instant) <= Frontier(h, instant + Step(window))
  {
    hide Full, Pruned, At, Frontier, Fine, Spans, Rising, Ordered;
    BackstopIdle(h, window);
    PrunedIsTail(h, window);
    FullRising(h, window);
    var (marks, pruned) := Pruned(h, window);
    ExactWithin(Full(h, window), Dropped(h, window), marks, pruned, instant);
    FullBounds(h, window, instant);
  }

  /** For any window, even one the backstop cuts short, and any instant, the answer can demand more consumption but
      never less than what had been published. */
  lemma NeverUnderstates(h: seq<Sample>, window: nat, instant: int)
    requires Ordered(h)
    ensures Frontier(h, instant) <= At(Pruned(h, window).0, Pruned(h, window).1, instant)
  {
    PrunedIsTail(h, window);
    FullRising(h, window);
    FullBounds(h, window, instant);
    NeverLess(Full(h, window), Dropped(h, window), Pruned(h, window).0, Pruned(h, window).1, instant, Step(window));
  }

  /** A window divisible by the resolution, as the production ten seconds are, keeps at most 65 marks. */
  lemma SixtyFiveMarks(h: seq<Sample>, window: nat)
    requires Ordered(h) && window > 0 && window % Resolution == 0
    ensures |Pruned(h, window).0| <= 65
  {
    if h != [] {
      var r := Step(window);
      assert window == 64 * r;
      BackstopIdle(h, window);
      if |Pruned(h, window).0| - 2 >= 64 {
        MulLess(63, |Pruned(h, window).0| - 2, r);
      }
    }
  }

  // ---- The clock object ------------------------------------------------------------------------------------

  class Clock {
    var marks: seq<Mark>
    var pruned: bool
    ghost var history: seq<Sample>
    const window: nat

    ghost predicate Valid()
      reads this
    {
      (marks, pruned) == Pruned(history, window) && Ordered(history)
    }

    constructor (window: nat)
      ensures Valid() && history == [] && this.window == window
    {
      this.window, marks, pruned, history := window, [], false, [];
    }

    method ObservePublication(now: int, sequence: nat)
      requires Valid() && (history != [] ==>
                 history[|history| - 1].at <= now && history[|history| - 1].sequence <= sequence)
      modifies this
      ensures Valid() && history == old(history) + [Sample(now, sequence)]
    {
      hide Join;
      ghost var before := marks;
      history := history + [Sample(now, sequence)];
      assert history[..|history| - 1] == old(history);
      JoinMark(now, sequence);
      var cutoff := now - window;
      var drop := 0;
      ghost var joined := marks;
      while drop + 1 < |marks| && marks[drop + 1].at <= cutoff
        invariant drop < |marks| && marks == joined
        invariant Stale(joined, cutoff) == drop + Stale(joined[drop..], cutoff)
      {
        assert joined[drop..][1..] == joined[drop + 1..];
        drop := drop + 1;
      }
      var excess := |marks| - drop - MaxMarks;
      if excess > 0 {
        drop := drop + excess;
      }
      if drop > 0 {
        marks := marks[drop..];
        pruned := true;
      }
    }

    method JoinMark(now: int, sequence: nat)
      modifies this`marks
      ensures marks == Join(old(marks), now, sequence, Step(window))
    {
      var n := |marks|;
      if n > 0 && now - marks[n - 1].at < Step(window) {
        if sequence > marks[n - 1].sequence {
          marks := marks[n - 1 := Mark(marks[n - 1].at, sequence)];
        }
      } else {
        marks := marks + [Mark(now, sequence)];
      }
    }

    /** The last sequence published by `instant`, at the clock's resolution. */
    method Answer(instant: int) returns (sequence: nat)
      requires Valid()
      ensures sequence == At(marks, pruned, instant)
      ensures Frontier(history, instant) <= sequence
      ensures history != [] && Fine(window) &&
              instant >= history[|history| - 1].at - window ==>
                sequence <= Frontier(history, instant + Step(window))
    {
      hide Pruned, Full, Frontier, Ordered;
      NeverUnderstates(history, window, instant);
      if history != [] && Fine(window) &&
         instant >= history[|history| - 1].at - window {
        WindowIsExact(history, window, instant);
      }
      var index := |marks|;
      assert marks[..|marks|] == marks;
      while index > 0
        invariant 0 <= index <= |marks|
        invariant index > 0 ==> At(marks[..index], pruned, instant) == At(marks, pruned, instant)
        invariant index == 0 && marks != [] ==> At(marks, pruned, instant) == if pruned then marks[0].sequence else 0
      {
        assert marks[..index][..index - 1] == marks[..index - 1];
        if marks[index - 1].at <= instant {
          return marks[index - 1].sequence;
        }
        index := index - 1;
      }
      sequence := if pruned && |marks| > 0 then marks[0].sequence else 0;
    }
  }
}
