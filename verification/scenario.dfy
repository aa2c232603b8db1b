/**
 The three unit axes and the small vector arithmetic the stepping scenario
 needs along each of them.
 */
module Axes {
  import opened Coordinates

  const X := Coord(1.0, 0.0, 0.0)
  const Y := Coord(0.0, 1.0, 0.0)
  const Z := Coord(0.0, 0.0, 1.0)

  function Neg(u: Coord): Coord
  {
    Coord(-u.x, -u.y, -u.z)
  }

  /** `n·u`, as `n` copies of `u` added up. */
  function Scale(n: nat, u: Coord): Coord
  {
    if n == 0 then Origin else Add(Scale(n - 1, u), u)
  }

  lemma AxisXStep()
    ensures Scale(2, X) == Coord(2.0, 0.0, 0.0)
    ensures Add(Scale(2, X), Neg(X)) == X
  {
    assert Scale(2, X) == Coord(2.0, 0.0, 0.0);
  }

  lemma AxisXSquare()
    ensures Square(Neg(X)) == X
  {
    assert Neg(X) == Coord(-1.0, 0.0, 0.0);
  }

  lemma AxisYStep()
    ensures Scale(2, Y) == Coord(0.0, 2.0, 0.0)
    ensures Add(Scale(2, Y), Neg(Y)) == Y
  {
    assert Scale(2, Y) == Coord(0.0, 2.0, 0.0);
  }

  lemma AxisYSquare()
    ensures Square(Neg(Y)) == Y
  {
    assert Neg(Y) == Coord(0.0, -1.0, 0.0);
  }

  lemma AxisZStep()
    ensures Scale(2, Z) == Coord(0.0, 0.0, 2.0)
    ensures Add(Scale(2, Z), Neg(Z)) == Z
  {
    assert Scale(2, Z) == Coord(0.0, 0.0, 2.0);
  }

  lemma AxisZSquare()
    ensures Square(Neg(Z)) == Z
  {
    assert Neg(Z) == Coord(0.0, 0.0, -1.0);
  }
}

/**
 The stepping scenario the tracker's behaviour is pinned to: six particles on
 a line along one axis (unit vector `u`), particles 0, 2 and 4 of the
 followed type "V" and the others "A", a history depth of 5, 200 buckets over
 a window of 10.0 starting at time 1.2. Each event swaps a "V" with its "A"
 neighbour: the particle at the centre site moves by `-u`, the neighbour by
 `+u`. Particle 2 swaps ten times, particle 0 twice, particle 4 never.
 */
module Scenarios {
  import opened Coordinates
  import opened HistoryStore
  import opened TimeHistogram
  import opened OnTheFlyMSD
  import opened Axes

  const Setup := Params(5, 200, 10.0, 1.2, "V")

  /** Particle `i` sits at `i·u`; even particles are "V", odd ones "A". */
  function Line(u: Coord): seq<Atom>
  {
    seq(6, i requires 0 <= i < 6 => Atom(Scale(i, u), if i % 2 == 0 then "V" else "A"))
  }

  /** The centre particle moves by `-u`, its neighbour by `+u`, in that order. */
  function Swap(time: real, centre: nat, neighbour: nat, u: Coord): Event
  {
    Event(time, [Move(centre, Neg(u)), Move(neighbour, u)])
  }

  /** One round: a swap at `t1` and the swap back at `t2`. */
  function Round(t1: real, t2: real, centre: nat, neighbour: nat, u: Coord): seq<Event>
  {
    [Swap(t1, centre, neighbour, u), Swap(t2, neighbour, centre, u)]
  }

  /**
   The full series of twelve events: particle 2 swaps with particle 1 and
   back, then particle 0 with particle 5 and back, then particle 2 with
   particle 1 and back four more times.
   */
  function Trace(u: Coord): seq<Event>
  {
    Round(4.3, 5.4, 2, 1, u) + Round(10.6, 11.9, 0, 5, u) + Round(17.1, 18.4, 2, 1, u)
    + Round(23.6, 24.9, 2, 1, u) + Round(30.1, 31.4, 2, 1, u) + Round(36.6, 37.9, 2, 1, u)
  }

  lemma SetupFollowsEvenParticles(u: Coord)
    ensures var tr := Construct(Line(u), Setup);
            && tr.tracked == {0, 2, 4}
            && (forall id :: 0 <= id < 6 ==> tr.history[id] == if id % 2 == 0 then [Sample(Scale(id, u), 1.2)] else [])
  {
    var tr := Construct(Line(u), Setup);
    forall id: nat
      ensures id in tr.tracked <==> id in {0, 2, 4}
    {
      if id < 6 {
        assert Line(u)[id].element == if id % 2 == 0 then "V" else "A";
        assert "A" != "V" by { assert "A"[0] != "V"[0]; }
      }
    }
  }

  /** Bucket 62 is the one holding the elapsed time 4.3 - 1.2 = 3.1 at width 0.05. */
  lemma FirstStepBucket()
    ensures Setup.BinSize() == 0.05
    ensures Scaled(4.3 - 1.2, Setup.BinSize()) == 62.0
    ensures BinIndex(Scaled(4.3 - 1.2, Setup.BinSize())) == 62
  {
    assert Scaled(4.3 - 1.2, 0.05) == 62.0;
  }

  /**
   Of the first event's two moves only particle 2's counts: particle 1 is
   not followed. Particle 2's buffer holds just its seed at that point.
   */
  lemma FirstEventFiltered(u: Coord)
    ensures var tr := Construct(Line(u), Setup);
            && KnownIds(Swap(4.3, 2, 1, u).moved, |tr.history|)
            && 2 in tr.tracked
            && tr.history[2] == [Sample(Scale(2, u), 1.2)]
            && TrackedMoves(Swap(4.3, 2, 1, u).moved, tr.tracked) == [Move(2, Neg(u))]
  {
    var tr := Construct(Line(u), Setup);
    SetupFollowsEvenParticles(u);
    var moved := Swap(4.3, 2, 1, u).moved;
    assert moved == [Move(2, Neg(u)), Move(1, u)];
    assert 2 in tr.tracked && 1 !in tr.tracked;
    assert moved[1..] == [Move(1, u)];
    assert moved[1..][1..] == [];
    assert TrackedMoves(moved[1..][1..], tr.tracked) == [];
    assert TrackedMoves(moved[1..], tr.tracked) == [];
  }

  /**
   The first event for any move vector `u`: particle 2 (followed) moves by
   `-u` from 2·u at time 4.3 and particle 1 (not followed) moves by `+u`.
   The event is accepted and particle 2's buffer becomes (new position at
   4.3, 2·u at 1.2), newest first.
   */
  lemma FirstStepBuffer(u: Coord)
    ensures var r := RegisterStep(Construct(Line(u), Setup), 4.3, Swap(4.3, 2, 1, u).moved);
            && r.Ok?
            && r.value.history[2] == [Sample(Add(Scale(2, u), Neg(u)), 4.3), Sample(Scale(2, u), 1.2)]
  {
    FirstEventFiltered(u);
    FirstStepBucket();
    OneEntryWindowBuffer(Construct(Line(u), Setup), 4.3, Swap(4.3, 2, 1, u).moved, 2, Neg(u));
  }

  /**
   The first event's histogram for any move vector `u`: bucket 62 holds the
   square of particle 2's move and every other bucket stays zero.
   */
  lemma FirstStepHistogram(u: Coord)
    ensures var r := RegisterStep(Construct(Line(u), Setup), 4.3, Swap(4.3, 2, 1, u).moved);
            && r.Ok?
            && r.value.histogram[62] == Square(Neg(u))
            && (forall k :: 0 <= k < 200 && k != 62 ==> r.value.histogram[k] == Origin)
  {
    var tr := Construct(Line(u), Setup);
    FirstEventFiltered(u);
    FirstStepBucket();
    OneEntryWindowHistogram(tr, 4.3, Swap(4.3, 2, 1, u).moved, 2, Neg(u));
    DepositIntoEmpty(tr.histogram, Neg(u));
  }

  /** A deposit at scaled time 62 into 200 empty buckets fills bucket 62 alone. */
  lemma DepositIntoEmpty(h: seq<Coord>, d: Coord)
    requires |h| == 200
    requires forall k :: 0 <= k < 200 ==> h[k] == Origin
    ensures Deposit(h, 62.0, d)[62] == Square(d)
    ensures forall k :: 0 <= k < 200 && k != 62 ==> Deposit(h, 62.0, d)[k] == Origin
  {
    var r := Deposit(h, 62.0, d);
    assert InBin(62, 62.0);
    forall k | 0 <= k < 200 && k != 62
      ensures r[k] == Origin
    {
      assert !InBin(k, 62.0);
    }
  }

  /** The first event with unit moves along the x axis. */
  lemma FirstStepX()
    ensures var r := RegisterStep(Construct(Line(X), Setup), 4.3, Swap(4.3, 2, 1, X).moved);
            && r.Ok?
            && r.value.history[2] == [Sample(Coord(1.0, 0.0, 0.0), 4.3), Sample(Coord(2.0, 0.0, 0.0), 1.2)]
            && r.value.histogram[62] == Coord(1.0, 0.0, 0.0)
            && (forall k :: 0 <= k < 200 && k != 62 ==> r.value.histogram[k] == Origin)
  {
    FirstStepBuffer(X);
    FirstStepHistogram(X);
    AxisXStep();
    AxisXSquare();
  }

  /** The first event with unit moves along the y axis. */
  lemma FirstStepY()
    ensures var r := RegisterStep(Construct(Line(Y), Setup), 4.3, Swap(4.3, 2, 1, Y).moved);
            && r.Ok?
            && r.value.history[2] == [Sample(Coord(0.0, 1.0, 0.0), 4.3), Sample(Coord(0.0, 2.0, 0.0), 1.2)]
            && r.value.histogram[62] == Coord(0.0, 1.0, 0.0)
            && (forall k :: 0 <= k < 200 && k != 62 ==> r.value.histogram[k] == Origin)
  {
    FirstStepBuffer(Y);
    FirstStepHistogram(Y);
    AxisYStep();
    AxisYSquare();
  }

  /** The first event with unit moves along the z axis. */
  lemma FirstStepZ()
    ensures var r := RegisterStep(Construct(Line(Z), Setup), 4.3, Swap(4.3, 2, 1, Z).moved);
            && r.Ok?
            && r.value.history[2] == [Sample(Coord(0.0, 0.0, 1.0), 4.3), Sample(Coord(0.0, 0.0, 2.0), 1.2)]
            && r.value.histogram[62] == Coord(0.0, 0.0, 1.0)
            && (forall k :: 0 <= k < 200 && k != 62 ==> r.value.histogram[k] == Origin)
  {
    FirstStepBuffer(Z);
    FirstStepHistogram(Z);
    AxisZStep();
    AxisZSquare();
  }

  lemma RoundWellFormed(last: real, t1: real, t2: real, centre: nat, neighbour: nat, u: Coord)
    requires last <= t1 <= t2
    requires centre < 6 && neighbour < 6
    ensures WellFormed(last, 6, Round(t1, t2, centre, neighbour, u))
    ensures LastTime(last, Round(t1, t2, centre, neighbour, u)) == t2
  {
    var r := Round(t1, t2, centre, neighbour, u);
    assert r[1..][1..] == [];
    assert WellFormed(t2, 6, r[1..][1..]);
  }

  lemma SwapMoveTimes(id: nat, t: real, centre: nat, neighbour: nat, u: Coord)
    requires centre != neighbour
    ensures MoveTimesIn(id, t, Swap(t, centre, neighbour, u).moved)
         == if id == centre || id == neighbour then [t] else []
  {
    var m := Swap(t, centre, neighbour, u).moved;
    var a := if m[0].id == id then [t] else [];
    var b := if m[1].id == id then [t] else [];
    assert m[1..][1..] == [];
    assert MoveTimesIn(id, t, m[1..][1..]) == [];
    assert MoveTimesIn(id, t, m[1..]) == b + [];
    assert MoveTimesIn(id, t, m) == a + (b + []);
  }

  lemma RoundMoveTimes(id: nat, t1: real, t2: real, centre: nat, neighbour: nat, u: Coord)
    requires centre != neighbour
    ensures MoveTimes(id, Round(t1, t2, centre, neighbour, u))
         == if id == centre || id == neighbour then [t1, t2] else []
  {
    var r := Round(t1, t2, centre, neighbour, u);
    var m1 := Swap(t1, centre, neighbour, u).moved;
    var m2 := Swap(t2, neighbour, centre, u).moved;
    SwapMoveTimes(id, t1, centre, neighbour, u);
    SwapMoveTimes(id, t2, neighbour, centre, u);
    assert r[1..] == [r[1]] && r[1..][1..] == [];
    assert MoveTimes(id, r[1..]) == MoveTimesIn(id, t2, m2);
  }

  /** Every event of the trace is accepted: times never decrease and all six particles exist. */
  lemma TraceWellFormed(u: Coord)
    ensures WellFormed(1.2, 6, Trace(u))
  {
    var r1, r2, r3 := Round(4.3, 5.4, 2, 1, u), Round(10.6, 11.9, 0, 5, u), Round(17.1, 18.4, 2, 1, u);
    var r4, r5, r6 := Round(23.6, 24.9, 2, 1, u), Round(30.1, 31.4, 2, 1, u), Round(36.6, 37.9, 2, 1, u);
    RoundWellFormed(1.2, 4.3, 5.4, 2, 1, u);
    RoundWellFormed(5.4, 10.6, 11.9, 0, 5, u);
    RoundWellFormed(11.9, 17.1, 18.4, 2, 1, u);
    RoundWellFormed(18.4, 23.6, 24.9, 2, 1, u);
    RoundWellFormed(24.9, 30.1, 31.4, 2, 1, u);
    RoundWellFormed(31.4, 36.6, 37.9, 2, 1, u);
    WellFormedAppend(1.2, 6, r1, r2);
    WellFormedAppend(1.2, 6, r1 + r2, r3);
    WellFormedAppend(1.2, 6, r1 + r2 + r3, r4);
    WellFormedAppend(1.2, 6, r1 + r2 + r3 + r4, r5);
    WellFormedAppend(1.2, 6, r1 + r2 + r3 + r4 + r5, r6);
  }

  /** The move times of the trace, round by round. */
  lemma TraceMoveTimesByRound(id: nat, u: Coord)
    ensures MoveTimes(id, Trace(u))
         == MoveTimes(id, Round(4.3, 5.4, 2, 1, u)) + MoveTimes(id, Round(10.6, 11.9, 0, 5, u))
          + MoveTimes(id, Round(17.1, 18.4, 2, 1, u)) + MoveTimes(id, Round(23.6, 24.9, 2, 1, u))
          + MoveTimes(id, Round(30.1, 31.4, 2, 1, u)) + MoveTimes(id, Round(36.6, 37.9, 2, 1, u))
  {
    var r1, r2, r3 := Round(4.3, 5.4, 2, 1, u), Round(10.6, 11.9, 0, 5, u), Round(17.1, 18.4, 2, 1, u);
    var r4, r5, r6 := Round(23.6, 24.9, 2, 1, u), Round(30.1, 31.4, 2, 1, u), Round(36.6, 37.9, 2, 1, u);
    MoveTimesAppend(id, r1, r2);
    MoveTimesAppend(id, r1 + r2, r3);
    MoveTimesAppend(id, r1 + r2 + r3, r4);
    MoveTimesAppend(id, r1 + r2 + r3 + r4, r5);
    MoveTimesAppend(id, r1 + r2 + r3 + r4 + r5, r6);
  }

  /**
   Across the trace particle 0 moves twice, particle 2 ten times and
   particle 4 never; these are the times of their moves, oldest first.
   */
  lemma TraceMoveTimes(u: Coord)
    ensures MoveTimes(0, Trace(u)) == [10.6, 11.9]
    ensures MoveTimes(2, Trace(u)) == [4.3, 5.4, 17.1, 18.4, 23.6, 24.9, 30.1, 31.4, 36.6, 37.9]
    ensures MoveTimes(4, Trace(u)) == []
  {
    TraceMoveTimesOf0(u);
    TraceMoveTimesOf2(u);
    TraceMoveTimesOf4(u);
  }

  lemma TraceMoveTimesOf0(u: Coord)
    ensures MoveTimes(0, Trace(u)) == [10.6, 11.9]
  {
    TraceMoveTimesOf(0, u);
    var none: seq<real> := [];
    assert none + [10.6, 11.9] + none + none + none + none == [10.6, 11.9];
  }

  lemma TraceMoveTimesOf2(u: Coord)
    ensures MoveTimes(2, Trace(u)) == [4.3, 5.4, 17.1, 18.4, 23.6, 24.9, 30.1, 31.4, 36.6, 37.9]
  {
    TraceMoveTimesOf(2, u);
    var none: seq<real> := [];
    assert [4.3, 5.4] + none + [17.1, 18.4] + [23.6, 24.9] + [30.1, 31.4] + [36.6, 37.9]
        == [4.3, 5.4, 17.1, 18.4, 23.6, 24.9, 30.1, 31.4, 36.6, 37.9];
  }

  lemma TraceMoveTimesOf4(u: Coord)
    ensures MoveTimes(4, Trace(u)) == []
  {
    TraceMoveTimesOf(4, u);
    var none: seq<real> := [];
    assert none + none + none + none + none + none == none;
  }

  /** The move times of one particle across the trace, round by round. */
  lemma TraceMoveTimesOf(id: nat, u: Coord)
    ensures MoveTimes(id, Trace(u))
         == (if id == 2 || id == 1 then [4.3, 5.4] else []) + (if id == 0 || id == 5 then [10.6, 11.9] else [])
          + (if id == 2 || id == 1 then [17.1, 18.4] else []) + (if id == 2 || id == 1 then [23.6, 24.9] else [])
          + (if id == 2 || id == 1 then [30.1, 31.4] else []) + (if id == 2 || id == 1 then [36.6, 37.9] else [])
  {
    TraceMoveTimesByRound(id, u);
    RoundMoveTimes(id, 4.3, 5.4, 2, 1, u);
    RoundMoveTimes(id, 10.6, 11.9, 0, 5, u);
    RoundMoveTimes(id, 17.1, 18.4, 2, 1, u);
    RoundMoveTimes(id, 23.6, 24.9, 2, 1, u);
    RoundMoveTimes(id, 30.1, 31.4, 2, 1, u);
    RoundMoveTimes(id, 36.6, 37.9, 2, 1, u);
  }

  /** The whole trace is accepted by the freshly built tracker. */
  lemma TraceAccepted(u: Coord)
    ensures Run(Construct(Line(u), Setup), Trace(u)).Ok?
  {
    TraceWellFormed(u);
  }

  lemma SeededNewest(tr: Tracker, events: seq<Event>, id: nat)
    requires Valid(tr) && Run(tr, events).Ok?
    requires id in tr.tracked && |tr.history[id]| == 1
    ensures Times(Run(tr, events).value.history[id])
         == (Reverse(MoveTimes(id, events)) + [tr.history[id][0].time])[..Min(|MoveTimes(id, events)| + 1, tr.params.historySteps)]
  {
    RunKeepsNewest(tr, events, id);
    assert Times(tr.history[id]) == [tr.history[id][0].time];
  }

  lemma SeededBufferSize(tr: Tracker, events: seq<Event>, id: nat)
    requires Valid(tr) && Run(tr, events).Ok?
    requires id in tr.tracked && |tr.history[id]| == 1
    ensures |Run(tr, events).value.history[id]| == Min(1 + |MoveTimes(id, events)|, tr.params.historySteps)
  {
    RunBufferSize(tr, events, id);
  }

  /** Particle 0 swapped twice: its seed and both moves are kept (3). */
  lemma TraceParticle0Size(u: Coord)
    ensures var r := Run(Construct(Line(u), Setup), Trace(u));
            && r.Ok?
            && |r.value.history[0]| == 3
  {
    var tr := Construct(Line(u), Setup);
    SetupFollowsEvenParticles(u);
    TraceAccepted(u);
    TraceMoveTimes(u);
    SeededBufferSize(tr, Trace(u), 0);
  }

  /** Particle 2 swapped ten times: only the history depth is kept (5). */
  lemma TraceParticle2Size(u: Coord)
    ensures var r := Run(Construct(Line(u), Setup), Trace(u));
            && r.Ok?
            && |r.value.history[2]| == 5
  {
    var tr := Construct(Line(u), Setup);
    SetupFollowsEvenParticles(u);
    TraceAccepted(u);
    TraceMoveTimes(u);
    SeededBufferSize(tr, Trace(u), 2);
  }

  /** Particle 4 never moved: it keeps just its seed sample. */
  lemma TraceParticle4Kept(u: Coord)
    ensures var r := Run(Construct(Line(u), Setup), Trace(u));
            && r.Ok?
            && r.value.history[4] == [Sample(Scale(4, u), 1.2)]
  {
    var tr := Construct(Line(u), Setup);
    SetupFollowsEvenParticles(u);
    TraceAccepted(u);
    TraceMoveTimes(u);
    RunUnmovedKeepsBuffer(tr, Trace(u), 4);
  }

  /** Particles 1 and 3 are not followed: they moved, yet their buffers stay empty. */
  lemma TraceUnfollowedEmpty(u: Coord)
    ensures var r := Run(Construct(Line(u), Setup), Trace(u));
            && r.Ok?
            && r.value.history[1] == []
            && r.value.history[3] == []
  {
    var tr := Construct(Line(u), Setup);
    SetupFollowsEvenParticles(u);
    TraceAccepted(u);
    RunUntrackedStaysEmpty(tr, Trace(u), 1);
    RunUntrackedStaysEmpty(tr, Trace(u), 3);
  }

  /** Reading the newest five of particle 2's move times, newest first. */
  lemma NewestFive()
    ensures (Reverse([4.3, 5.4, 17.1, 18.4, 23.6, 24.9, 30.1, 31.4, 36.6, 37.9]) + [1.2])[..5]
         == [37.9, 36.6, 31.4, 30.1, 24.9]
  {
    var older, newer := [4.3, 5.4, 17.1, 18.4, 23.6], [24.9, 30.1, 31.4, 36.6, 37.9];
    assert older + newer == [4.3, 5.4, 17.1, 18.4, 23.6, 24.9, 30.1, 31.4, 36.6, 37.9];
    ReverseAppend(older, newer);
    var rev := Reverse(newer);
    assert rev == [37.9, 36.6, 31.4, 30.1, 24.9];
    assert (rev + Reverse(older) + [1.2])[..5] == rev;
  }

  /**
   Eviction keeps the newest samples: after the whole trace particle 2's
   buffer holds, newest first, the times of its last five moves.
   */
  lemma TraceNewestTimes(u: Coord)
    ensures var r := Run(Construct(Line(u), Setup), Trace(u));
            && r.Ok?
            && Times(r.value.history[2]) == [37.9, 36.6, 31.4, 30.1, 24.9]
  {
    var tr := Construct(Line(u), Setup);
    SetupFollowsEvenParticles(u);
    TraceAccepted(u);
    TraceMoveTimes(u);
    assert 2 in tr.tracked && |tr.history[2]| == 1 && tr.history[2][0].time == 1.2;
    SeededNewest(tr, Trace(u), 2);
    NewestFive();
  }

  /** The first round: particle 2 swaps with particle 1 at 4.3 and back at 5.4. */
  function FirstRound(u: Coord): seq<Event>
  {
    Round(4.3, 5.4, 2, 1, u)
  }

  lemma FirstRoundAccepted(u: Coord)
    ensures Run(Construct(Line(u), Setup), FirstRound(u)).Ok?
  {
    RoundWellFormed(1.2, 4.3, 5.4, 2, 1, u);
  }

  /** After the first round particle 2 holds its seed and both moves. */
  lemma FirstRoundParticle2Size(u: Coord)
    ensures var r := Run(Construct(Line(u), Setup), FirstRound(u));
            && r.Ok?
            && |r.value.history[2]| == 3
  {
    var tr := Construct(Line(u), Setup);
    SetupFollowsEvenParticles(u);
    FirstRoundAccepted(u);
    RoundMoveTimes(2, 4.3, 5.4, 2, 1, u);
    SeededBufferSize(tr, FirstRound(u), 2);
  }

  /** After the first round particles 0 and 4, followed but not moved, keep their seeds. */
  lemma FirstRoundUnmovedKept(u: Coord)
    ensures var r := Run(Construct(Line(u), Setup), FirstRound(u));
            && r.Ok?
            && r.value.history[0] == [Sample(Scale(0, u), 1.2)]
            && r.value.history[4] == [Sample(Scale(4, u), 1.2)]
  {
    var tr := Construct(Line(u), Setup);
    SetupFollowsEvenParticles(u);
    FirstRoundAccepted(u);
    RoundMoveTimes(0, 4.3, 5.4, 2, 1, u);
    RoundMoveTimes(4, 4.3, 5.4, 2, 1, u);
    RunUnmovedKeepsBuffer(tr, FirstRound(u), 0);
    RunUnmovedKeepsBuffer(tr, FirstRound(u), 4);
  }

  /** After the first round particles 1 and 3 are still empty, though particle 1 moved twice. */
  lemma FirstRoundUnfollowedEmpty(u: Coord)
    ensures var r := Run(Construct(Line(u), Setup), FirstRound(u));
            && r.Ok?
            && r.value.history[1] == []
            && r.value.history[3] == []
  {
    var tr := Construct(Line(u), Setup);
    SetupFollowsEvenParticles(u);
    FirstRoundAccepted(u);
    RunUntrackedStaysEmpty(tr, FirstRound(u), 1);
    RunUntrackedStaysEmpty(tr, FirstRound(u), 3);
  }

  /**
   Two particles of the followed type "AA", at the origin and at (1, 2, 3):
   each is seeded with its own coordinate and the start time 1.23.
   */
  lemma ConstructionSeeds()
    ensures var tr := Construct([Atom(Origin, "AA"), Atom(Coord(1.0, 2.0, 3.0), "AA")],
                                Params(100, 200, 300.0, 1.23, "AA"));
            && tr.history[0] == [Sample(Origin, 1.23)]
            && tr.history[1] == [Sample(Coord(1.0, 2.0, 3.0), 1.23)]
  {
  }
}
