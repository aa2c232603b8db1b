/**
 The on-the-fly mean-squared-displacement tracker. At construction it decides,
 once and for all, which particles it follows (those whose element equals the
 tracked type) and seeds each of them with its initial position. On every
 registered event it advances each moved, followed particle's absolute
 position, deposits one squared-displacement contribution per retained sample
 of that particle into the time histogram, and then records the new sample.
 */
module OnTheFlyMSD {
  import opened Coordinates
  import opened HistoryStore
  import opened TimeHistogram

  /**
   Construction parameters: the history depth per particle, the number of
   histogram buckets, the time window `tMax` the buckets cover, the start
   time and the element label of the followed particles.
   */
  datatype Params = Params(historySteps: nat, nBins: nat, tMax: real, t0: real, trackType: string)
  {
    predicate Valid()
    {
      historySteps >= 1 && nBins >= 1 && tMax > 0.0
    }

    function BinSize(): (w: real)
      requires Valid()
      ensures w > 0.0
    {
      tMax / nBins as real
    }
  }

  /** A particle of the starting configuration. */
  datatype Atom = Atom(position: Coord, element: string)

  /** A particle displaced by an event, with its unwrapped move vector. */
  datatype Move = Move(id: nat, displacement: Coord)

  /** One executed event: its time and the particles it moved, in order. */
  datatype Event = Event(time: real, moved: seq<Move>)

  datatype StepError =
    | TimeReversed(previous: real, given: real)
    | UnknownAtom(id: nat)

  datatype Result<T> = Ok(value: T) | Err(error: StepError)

  /**
   The tracker state. `tracked` is fixed at construction; `history[id]` is
   particle `id`'s buffer (newest first); `histogram` holds one accumulator
   per bucket; `lastTime` is the most recently registered event time.
   */
  datatype Tracker = Tracker(
    params: Params,
    tracked: set<nat>,
    history: seq<seq<Sample>>,
    histogram: seq<Coord>,
    lastTime: real)

  /**
   A buffer is non-empty exactly for a followed particle, within capacity,
   ordered newest first, and holds nothing later than the last event.
   */
  ghost predicate BufferOk(buf: seq<Sample>, isTracked: bool, capacity: nat, lastTime: real)
  {
    && (isTracked <==> |buf| >= 1)
    && |buf| <= capacity
    && NewestFirst(buf)
    && (|buf| >= 1 ==> buf[0].time <= lastTime)
  }

  /** The invariant every reachable tracker state satisfies. */
  ghost predicate Valid(tr: Tracker)
  {
    && tr.params.Valid()
    && |tr.histogram| == tr.params.nBins
    && (forall k :: 0 <= k < |tr.histogram| ==> NonNegative(tr.histogram[k]))
    && (forall id :: id in tr.tracked ==>
          id < |tr.history| && |tr.history[id]| >= 1 && tr.history[id][0].time <= tr.lastTime)
    && (forall id: nat {:trigger BufferValid(tr, id)} :: id < |tr.history| ==> BufferValid(tr, id))
  }

  /**
   Particle `id`'s buffer satisfies the buffer invariant. Proofs name this
   fact for the particles they need.
   */
  ghost predicate BufferValid(tr: Tracker, id: nat)
    requires id < |tr.history|
  {
    BufferOk(tr.history[id], id in tr.tracked, tr.params.historySteps, tr.lastTime)
  }

  /**
   Builds the tracker for a starting configuration: exactly the particles of
   the tracked type are followed, each seeded with one sample (its initial
   position at `t0`); every other particle has an empty buffer; all buckets
   start at zero.
   */
  function Construct(atoms: seq<Atom>, p: Params): (tr: Tracker)
    requires p.Valid()
    ensures Valid(tr)
    ensures tr.params == p && tr.lastTime == p.t0
    ensures |tr.history| == |atoms|
    ensures forall id: nat :: id in tr.tracked <==> id < |atoms| && atoms[id].element == p.trackType
    ensures forall id :: 0 <= id < |atoms| && atoms[id].element == p.trackType ==>
              tr.history[id] == [Sample(atoms[id].position, p.t0)]
    ensures forall id :: 0 <= id < |atoms| && atoms[id].element != p.trackType ==>
              tr.history[id] == []
    ensures |tr.histogram| == p.nBins
    ensures forall k :: 0 <= k < p.nBins ==> tr.histogram[k] == Origin
  {
    var tracked := set id: nat | id < |atoms| && atoms[id].element == p.trackType;
    var history := seq(|atoms|, id requires 0 <= id < |atoms| =>
      if atoms[id].element == p.trackType then [Sample(atoms[id].position, p.t0)] else []);
    Tracker(p, tracked, history, Zeroed(p.nBins), p.t0)
  }

  lemma WindowBeforeNow(buf: seq<Sample>, now: real)
    requires NewestFirst(buf)
    requires |buf| >= 1 ==> buf[0].time <= now
    ensures forall i :: 0 <= i < |buf| ==> buf[i].time <= now
  {
    forall i | 0 <= i < |buf|
      ensures buf[i].time <= now
    {
      if i > 0 {
        assert NoOlder(buf, 0, i);
      }
    }
  }

  /**
   The contributions of a move to `pos` at time `now`: one per retained
   sample, in buffer order. Contribution `i` carries the displacement that
   takes sample `i` to `pos`, and falls in bucket `k` exactly when the time
   elapsed since sample `i` lies in [k·binSize, (k+1)·binSize).
   */
  function WindowContributions(window: seq<Sample>, now: real, pos: Coord, binSize: real): (cs: seq<Contribution>)
    requires binSize > 0.0
    requires forall i :: 0 <= i < |window| ==> window[i].time <= now
    ensures |cs| == |window|
    ensures Aged(cs)
    ensures forall i :: 0 <= i < |window| ==> Add(window[i].position, cs[i].displacement) == pos
    ensures forall i, k :: 0 <= i < |window| ==>
              (InBin(k, cs[i].age) <==> k as real * binSize <= now - window[i].time < (k + 1) as real * binSize)
  {
    var cs := seq(|window|, i requires 0 <= i < |window| =>
      Contribution(Scaled(now - window[i].time, binSize), Sub(pos, window[i].position)));
    assert forall i, k :: 0 <= i < |window| ==>
             (InBin(k, cs[i].age) <==> k as real * binSize <= now - window[i].time < (k + 1) as real * binSize) by {
      forall i, k | 0 <= i < |window|
        ensures InBin(k, cs[i].age) <==> k as real * binSize <= now - window[i].time < (k + 1) as real * binSize
      {
        ScaledIntervals(k, 0, now - window[i].time, binSize);
      }
    }
    cs
  }

  /**
   The histogram's buckets cover exactly the elapsed times below `tMax`: an
   elapsed time falls in some bucket precisely when it is less than `tMax`.
   */
  lemma WindowEndsAtTMax(p: Params, dt: real)
    requires p.Valid()
    ensures InWindow(Scaled(dt, p.BinSize()), p.nBins) <==> dt < p.tMax
  {
    ScaledIntervals(0, p.nBins, dt, p.BinSize());
    BinsSpanTMax(p);
  }

  /** The buckets together span exactly `tMax`. */
  lemma BinsSpanTMax(p: Params)
    requires p.Valid()
    ensures p.nBins as real * p.BinSize() == p.tMax
  {
    ScaledBack(p.tMax, p.nBins as real);
  }

  /**
   The squared displacements from `pos` of every sample of `window` taken
   less than `tMax` before `now`, summed.
   */
  function RecentSquares(window: seq<Sample>, now: real, pos: Coord, tMax: real): Coord
    decreases |window|
  {
    if window == [] then Origin
    else if now - window[0].time < tMax then
      Add(Square(Sub(pos, window[0].position)), RecentSquares(window[1..], now, pos, tMax))
    else RecentSquares(window[1..], now, pos, tMax)
  }

  /** The contributions of a window: its front sample's, then those of the rest. */
  lemma WindowContributionsCons(window: seq<Sample>, now: real, pos: Coord, binSize: real)
    requires binSize > 0.0
    requires |window| >= 1
    requires forall i :: 0 <= i < |window| ==> window[i].time <= now
    ensures WindowContributions(window, now, pos, binSize)
         == [Contribution(Scaled(now - window[0].time, binSize), Sub(pos, window[0].position))]
            + WindowContributions(window[1..], now, pos, binSize)
  {
    var cs := WindowContributions(window, now, pos, binSize);
    var rest := WindowContributions(window[1..], now, pos, binSize);
    forall i | 0 <= i < |rest|
      ensures cs[i + 1] == rest[i]
    {
      assert window[1..][i] == window[i + 1];
    }
  }

  /**
   The contributions of a window, restricted to a histogram of `n` buckets of
   width `w` spanning `tMax`, sum to the window's recent squares.
   */
  lemma {:induction false} WindowContributionsSum(window: seq<Sample>, now: real, pos: Coord, w: real, n: nat, tMax: real)
    requires w > 0.0 && n as real * w == tMax
    requires forall i :: 0 <= i < |window| ==> window[i].time <= now
    ensures InWindowSum(WindowContributions(window, now, pos, w), n)
         == RecentSquares(window, now, pos, tMax)
    decreases |window|
  {
    if window != [] {
      var dt := now - window[0].time;
      var d := Sub(pos, window[0].position);
      var rest := WindowContributions(window[1..], now, pos, w);
      WindowContributionsCons(window, now, pos, w);
      InWindowSumCons(Contribution(Scaled(dt, w), d), rest, n);
      WindowContributionsSum(window[1..], now, pos, w, n, tMax);
      ScaledIntervals(0, n, dt, w);
    }
  }

  /**
   The squared displacements from `pos` of the samples of `window` taken
   between `k·w` and `(k+1)·w` before `now` (the lower end included), summed.
   */
  function BucketSquares(window: seq<Sample>, now: real, pos: Coord, k: int, w: real): Coord
    decreases |window|
  {
    if window == [] then Origin
    else if k as real * w <= now - window[0].time < (k + 1) as real * w then
      Add(Square(Sub(pos, window[0].position)), BucketSquares(window[1..], now, pos, k, w))
    else BucketSquares(window[1..], now, pos, k, w)
  }

  /**
   The contributions of a window that fall in bucket `k` sum to the squares
   of exactly the samples whose elapsed time lies in that bucket's interval.
   */
  lemma {:induction false} WindowContributionsBin(window: seq<Sample>, now: real, pos: Coord, w: real, k: int)
    requires w > 0.0
    requires forall i :: 0 <= i < |window| ==> window[i].time <= now
    ensures BinSum(WindowContributions(window, now, pos, w), k) == BucketSquares(window, now, pos, k, w)
    decreases |window|
  {
    if window != [] {
      var dt := now - window[0].time;
      var rest := WindowContributions(window[1..], now, pos, w);
      WindowContributionsCons(window, now, pos, w);
      BinSumCons(Contribution(Scaled(dt, w), Sub(pos, window[0].position)), rest, k);
      WindowContributionsBin(window[1..], now, pos, w, k);
      ScaledIntervals(k, 0, dt, w);
    }
  }

  lemma ApplyMoveKeepsBuffer(buf: seq<Sample>, s: Sample, capacity: nat, lastTime: real)
    requires capacity >= 1
    requires BufferOk(buf, true, capacity, lastTime)
    requires s.time == lastTime
    ensures BufferOk(Push(buf, s, capacity), true, capacity, lastTime)
  {
    PushKeepsNewestFirst(buf, s, capacity);
  }

  /**
   Registers one moved particle at the event time `tr.lastTime`. A particle
   that is not followed is ignored. For a followed one, its new absolute
   position is its newest recorded position plus the move vector; every
   retained sample contributes to the histogram against that new position,
   and then the new sample is pushed to the front of its buffer (evicting the
   oldest one when the buffer was full). Nothing else changes.
   */
  function ApplyMove(tr: Tracker, m: Move): (r: Tracker)
    requires Valid(tr)
    requires m.id < |tr.history|
    ensures Valid(r)
    ensures r.params == tr.params && r.tracked == tr.tracked && r.lastTime == tr.lastTime
    ensures |r.history| == |tr.history|
    ensures m.id !in tr.tracked ==> r == tr
    ensures forall id :: 0 <= id < |tr.history| && id != m.id ==> r.history[id] == tr.history[id]
    ensures m.id in tr.tracked ==>
              var buf := tr.history[m.id];
              && |r.history[m.id]| == Min(|buf| + 1, tr.params.historySteps)
              && r.history[m.id][0] == Sample(Add(buf[0].position, m.displacement), tr.lastTime)
              && (forall i :: 1 <= i < |r.history[m.id]| ==> r.history[m.id][i] == buf[i - 1])
    ensures forall k :: 0 <= k < |tr.histogram| ==> Dominates(r.histogram[k], tr.histogram[k])
  {
    if m.id !in tr.tracked then tr
    else
      assert BufferValid(tr, m.id);
      var buf := tr.history[m.id];
      var now := tr.lastTime;
      var pos := Add(buf[0].position, m.displacement);
      WindowBeforeNow(buf, now);
      var h := DepositAll(tr.histogram, WindowContributions(buf, now, pos, tr.params.BinSize()));
      var s := Sample(pos, now);
      ApplyMoveKeepsBuffer(buf, s, tr.params.historySteps, now);
      var r := tr.(history := tr.history[m.id := Push(buf, s, tr.params.historySteps)], histogram := h);
      assert Valid(r) by {
        forall id: nat | id < |r.history|
          ensures BufferValid(r, id)
        {
          assert BufferValid(tr, id);
        }
      }
      r
  }

  /**
   Depositing the contributions of a window against `pos` at time `now`
   grows the histogram's total by the window's recent squares.
   */
  lemma WindowDepositTotal(p: Params, h: seq<Coord>, window: seq<Sample>, now: real, pos: Coord)
    requires p.Valid() && |h| == p.nBins
    requires forall i :: 0 <= i < |window| ==> window[i].time <= now
    ensures Total(DepositAll(h, WindowContributions(window, now, pos, p.BinSize())))
         == Add(Total(h), RecentSquares(window, now, pos, p.tMax))
  {
    var w := p.BinSize();
    BinsSpanTMax(p);
    WindowContributionsSum(window, now, pos, w, p.nBins, p.tMax);
    DepositAllTotal(h, WindowContributions(window, now, pos, w));
  }

  /**
   Conservation for one move of a followed particle: the histogram's total
   grows by the squared displacement, from the new position, of every
   retained sample taken less than `tMax` before the event; samples that old
   or older add nothing.
   */
  lemma ApplyMoveTotal(tr: Tracker, m: Move)
    requires Valid(tr)
    requires m.id in tr.tracked
    ensures Total(ApplyMove(tr, m).histogram)
         == Add(Total(tr.histogram),
                RecentSquares(tr.history[m.id], tr.lastTime,
                              Add(tr.history[m.id][0].position, m.displacement), tr.params.tMax))
  {
    var buf := tr.history[m.id];
    assert BufferValid(tr, m.id);
    WindowBeforeNow(buf, tr.lastTime);
    WindowDepositTotal(tr.params, tr.histogram, buf, tr.lastTime, Add(buf[0].position, m.displacement));
  }

  /**
   Bucket law for one move of a followed particle: bucket `k` gains the
   squared displacement, from the new position, of exactly those retained
   samples whose elapsed time lies in [k·binSize, (k+1)·binSize).
   */
  lemma ApplyMoveBuckets(tr: Tracker, m: Move)
    requires Valid(tr)
    requires m.id in tr.tracked
    ensures forall k :: 0 <= k < |tr.histogram| ==>
              (ApplyMove(tr, m).histogram[k]
               == Add(tr.histogram[k],
                      BucketSquares(tr.history[m.id], tr.lastTime,
                                    Add(tr.history[m.id][0].position, m.displacement), k, tr.params.BinSize())))
  {
    var buf := tr.history[m.id];
    var pos := Add(buf[0].position, m.displacement);
    assert BufferValid(tr, m.id);
    WindowBeforeNow(buf, tr.lastTime);
    DepositAllBuckets(tr.histogram, WindowContributions(buf, tr.lastTime, pos, tr.params.BinSize()));
    forall k | 0 <= k < |tr.histogram|
      ensures BinSum(WindowContributions(buf, tr.lastTime, pos, tr.params.BinSize()), k)
           == BucketSquares(buf, tr.lastTime, pos, k, tr.params.BinSize())
    {
      WindowContributionsBin(buf, tr.lastTime, pos, tr.params.BinSize(), k);
    }
  }

  /** The moves of `moved` that are in range for `n` particles. */
  ghost predicate KnownIds(moved: seq<Move>, n: nat)
  {
    forall i :: 0 <= i < |moved| ==> moved[i].id < n
  }

  /** Some move of `moved` concerns particle `id`. */
  ghost predicate Mentions(moved: seq<Move>, id: nat)
  {
    exists i :: 0 <= i < |moved| && moved[i].id == id
  }

  /**
   Registers the moves of one event in list order. Particles no move mentions
   keep their buffers, the followed set, parameters and time stay put, and
   buckets only grow.
   */
  function ApplyMoves(tr: Tracker, moved: seq<Move>): (r: Tracker)
    requires Valid(tr)
    requires KnownIds(moved, |tr.history|)
    ensures Valid(r)
    ensures r.params == tr.params && r.tracked == tr.tracked && r.lastTime == tr.lastTime
    ensures |r.history| == |tr.history|
    ensures forall id :: 0 <= id < |tr.history| && !Mentions(moved, id) ==> r.history[id] == tr.history[id]
    ensures forall k :: 0 <= k < |tr.histogram| ==> Dominates(r.histogram[k], tr.histogram[k])
    decreases |moved|
  {
    if moved == [] then tr
    else
      var t1 := ApplyMove(tr, moved[0]);
      ApplyMoves(t1, moved[1..])
  }

  /** The index of the first move naming an unknown particle, or `|moved|` if none does. */
  function FirstUnknown(moved: seq<Move>, n: nat): (i: nat)
    ensures i <= |moved|
    ensures forall j :: 0 <= j < i ==> moved[j].id < n
    ensures i < |moved| ==> moved[i].id >= n
    decreases |moved|
  {
    if moved == [] then 0
    else if moved[0].id >= n then 0
    else 1 + FirstUnknown(moved[1..], n)
  }

  /** Moving the clock forward keeps a tracker valid: no buffer holds a later sample. */
  lemma AdvanceValid(tr: Tracker, time: real)
    requires Valid(tr)
    requires tr.lastTime <= time
    ensures Valid(tr.(lastTime := time))
  {
    var t1 := tr.(lastTime := time);
    forall id: nat | id < |t1.history|
      ensures BufferValid(t1, id)
    {
      assert BufferValid(tr, id);
    }
  }

  /**
   Registers one executed event. An event time earlier than the previous one
   is refused, and so is a move naming a particle the tracker does not know;
   a refused event changes nothing. Otherwise the event time becomes the
   tracker's time and every move is applied. Followed particles the event does
   not move keep their buffers, particles that are not followed keep empty
   buffers, and the followed set never changes.
   */
  function RegisterStep(tr: Tracker, time: real, moved: seq<Move>): (r: Result<Tracker>)
    requires Valid(tr)
    ensures r.Err? <==> time < tr.lastTime || !KnownIds(moved, |tr.history|)
    ensures time < tr.lastTime ==> r == Err(TimeReversed(tr.lastTime, time))
    ensures r.Ok? ==>
              && Valid(r.value)
              && r.value.params == tr.params
              && r.value.tracked == tr.tracked
              && r.value.lastTime == time
              && |r.value.history| == |tr.history|
    ensures r.Ok? ==> forall id :: 0 <= id < |tr.history| && !Mentions(moved, id) ==>
              r.value.history[id] == tr.history[id]
    ensures r.Ok? ==> forall id :: 0 <= id < |tr.history| && id !in tr.tracked ==>
              r.value.history[id] == []
    ensures r.Ok? ==> forall k :: 0 <= k < |tr.histogram| ==>
              Dominates(r.value.histogram[k], tr.histogram[k])
  {
    var i := FirstUnknown(moved, |tr.history|);
    if time < tr.lastTime then Err(TimeReversed(tr.lastTime, time))
    else if i < |moved| then Err(UnknownAtom(moved[i].id))
    else
      AdvanceValid(tr, time);
      var r := ApplyMoves(tr.(lastTime := time), moved);
      assert forall id: nat :: id < |r.history| && id !in r.tracked ==> r.history[id] == [] by {
        forall id: nat | id < |r.history| && id !in r.tracked
          ensures r.history[id] == []
        {
          assert BufferValid(r, id);
        }
      }
      Ok(r)
  }

  /**
   The event times accepted in order from `last` on: non-decreasing, each
   naming only particles among the first `n`.
   */
  ghost predicate WellFormed(last: real, n: nat, events: seq<Event>)
    decreases |events|
  {
    events == [] ||
    (&& last <= events[0].time
     && KnownIds(events[0].moved, n)
     && WellFormed(events[0].time, n, events[1..]))
  }

  /**
   Registers a sequence of events, stopping at the first refused one. The
   run succeeds exactly when the events are well formed; the followed set and
   the number of particles never change.
   */
  function Run(tr: Tracker, events: seq<Event>): (r: Result<Tracker>)
    requires Valid(tr)
    ensures r.Ok? <==> WellFormed(tr.lastTime, |tr.history|, events)
    ensures r.Ok? ==>
              && Valid(r.value)
              && r.value.params == tr.params
              && r.value.tracked == tr.tracked
              && |r.value.history| == |tr.history|
    decreases |events|
  {
    if events == [] then Ok(tr)
    else
      match RegisterStep(tr, events[0].time, events[0].moved)
      case Err(e) => Err(e)
      case Ok(t1) => Run(t1, events[1..])
  }

  /** One copy of `time` per move of `moved` that names `id`, in order. */
  function MoveTimesIn(id: nat, time: real, moved: seq<Move>): seq<real>
    decreases |moved|
  {
    if moved == [] then []
    else (if moved[0].id == id then [time] else []) + MoveTimesIn(id, time, moved[1..])
  }

  /** The time of every move of particle `id` across `events`, oldest first. */
  function MoveTimes(id: nat, events: seq<Event>): seq<real>
    decreases |events|
  {
    if events == [] then []
    else MoveTimesIn(id, events[0].time, events[0].moved) + MoveTimes(id, events[1..])
  }

  /** The time of the last of `events`, or `last` when there are none. */
  function LastTime(last: real, events: seq<Event>): real
  {
    if events == [] then last else events[|events| - 1].time
  }

  /**
   Well-formedness splits at any point: the events before it must be well
   formed from `last` on, and the ones after from the time of the last
   event before it.
   */
  lemma {:induction false} WellFormedAppend(last: real, n: nat, a: seq<Event>, b: seq<Event>)
    ensures WellFormed(last, n, a + b) <==> WellFormed(last, n, a) && WellFormed(LastTime(last, a), n, b)
    decreases |a|
  {
    if a == [] {
      assert a + b == b;
    } else {
      assert (a + b)[0] == a[0];
      assert (a + b)[1..] == a[1..] + b;
      WellFormedAppend(a[0].time, n, a[1..], b);
      assert LastTime(a[0].time, a[1..]) == LastTime(last, a);
    }
  }

  /** The move times of a concatenation of event lists are concatenated. */
  lemma {:induction false} MoveTimesAppend(id: nat, a: seq<Event>, b: seq<Event>)
    ensures MoveTimes(id, a + b) == MoveTimes(id, a) + MoveTimes(id, b)
    decreases |a|
  {
    if a == [] {
      assert a + b == b;
    } else {
      assert (a + b)[0] == a[0];
      assert (a + b)[1..] == a[1..] + b;
      MoveTimesAppend(id, a[1..], b);
    }
  }

  lemma {:induction false} ApplyMovesTimes(tr: Tracker, moved: seq<Move>, id: nat)
    requires Valid(tr)
    requires KnownIds(moved, |tr.history|)
    requires id in tr.tracked
    ensures Times(ApplyMoves(tr, moved).history[id])
         == PushAll(Times(tr.history[id]), MoveTimesIn(id, tr.lastTime, moved), tr.params.historySteps)
    decreases |moved|
  {
    if moved != [] {
      var t1 := ApplyMove(tr, moved[0]);
      var cap := tr.params.historySteps;
      ApplyMovesTimes(t1, moved[1..], id);
      var rest := MoveTimesIn(id, tr.lastTime, moved[1..]);
      if moved[0].id == id {
        var buf := tr.history[id];
        var s := Sample(Add(buf[0].position, moved[0].displacement), tr.lastTime);
        assert t1.history[id] == Push(buf, s, cap);
        TimesOfPush(buf, s, cap);
        assert ([tr.lastTime] + rest)[0] == tr.lastTime;
        assert ([tr.lastTime] + rest)[1..] == rest;
      } else {
        assert [] + rest == rest;
      }
    }
  }

  /**
   Across a successful run, the times in a followed particle's buffer are
   exactly what pushing the times of its moves, oldest first, onto its
   initial buffer gives.
   */
  lemma {:induction false} RunTimes(tr: Tracker, events: seq<Event>, id: nat)
    requires Valid(tr)
    requires Run(tr, events).Ok?
    requires id in tr.tracked
    ensures Times(Run(tr, events).value.history[id])
         == PushAll(Times(tr.history[id]), MoveTimes(id, events), tr.params.historySteps)
    decreases |events|
  {
    if events != [] {
      var e := events[0];
      var t1 := RegisterStep(tr, e.time, e.moved).value;
      var cap := tr.params.historySteps;
      var t0 := tr.(lastTime := e.time);
      AdvanceValid(tr, e.time);
      assert t1 == ApplyMoves(t0, e.moved);
      ApplyMovesTimes(t0, e.moved, id);
      RunTimes(t1, events[1..], id);
      PushAllAppend(Times(tr.history[id]), MoveTimesIn(id, e.time, e.moved), MoveTimes(id, events[1..]), cap);
    }
  }

  /**
   Capacity law: after a successful run, a followed particle's buffer holds
   `Min(earlier samples + moves, historySteps)` samples.
   */
  lemma {:induction false} RunBufferSize(tr: Tracker, events: seq<Event>, id: nat)
    requires Valid(tr)
    requires Run(tr, events).Ok?
    requires id in tr.tracked
    ensures |Run(tr, events).value.history[id]|
         == Min(|MoveTimes(id, events)| + |tr.history[id]|, tr.params.historySteps)
  {
    var cap := tr.params.historySteps;
    var before := tr.history[id];
    var after := Run(tr, events).value.history[id];
    var moves := MoveTimes(id, events);
    assert |before| <= cap by { assert BufferValid(tr, id); }
    assert Times(after) == PushAll(Times(before), moves, cap) by { RunTimes(tr, events, id); }
    RetainedCount(before, after, moves, cap);
  }

  /**
   Sliding-window retention: after a successful run, the times in a followed
   particle's buffer are, newest first, the times of its latest moves followed
   by the times of its earlier samples, cut to the history depth.
   */
  lemma {:induction false} RunKeepsNewest(tr: Tracker, events: seq<Event>, id: nat)
    requires Valid(tr)
    requires Run(tr, events).Ok?
    requires id in tr.tracked
    ensures HoldsNewest(Times(Run(tr, events).value.history[id]), Times(tr.history[id]),
                        MoveTimes(id, events), tr.params.historySteps)
  {
    var cap := tr.params.historySteps;
    var before := tr.history[id];
    var after := Run(tr, events).value.history[id];
    var moves := MoveTimes(id, events);
    assert |before| <= cap by { assert BufferValid(tr, id); }
    assert Times(after) == PushAll(Times(before), moves, cap) by { RunTimes(tr, events, id); }
    RetainedNewest(before, after, moves, cap);
  }

  /** A particle has no move times in an event exactly when no move of the event names it. */
  lemma {:induction false} MoveTimesInEmpty(id: nat, time: real, moved: seq<Move>)
    ensures MoveTimesIn(id, time, moved) == [] <==> !Mentions(moved, id)
    decreases |moved|
  {
    if moved != [] {
      MoveTimesInEmpty(id, time, moved[1..]);
      if moved[0].id != id {
        if Mentions(moved, id) {
          var i :| 0 <= i < |moved| && moved[i].id == id;
          assert moved[1..][i - 1].id == id;
        }
      } else {
        assert |MoveTimesIn(id, time, moved)| >= 1;
      }
      if Mentions(moved[1..], id) {
        var i :| 0 <= i < |moved[1..]| && moved[1..][i].id == id;
        assert moved[i + 1].id == id;
      }
    }
  }

  /**
   A particle that no event of a successful run moves keeps its buffer
   exactly as it was, whether it is followed or not.
   */
  lemma {:induction false} RunUnmovedKeepsBuffer(tr: Tracker, events: seq<Event>, id: nat)
    requires Valid(tr)
    requires Run(tr, events).Ok?
    requires id < |tr.history|
    requires MoveTimes(id, events) == []
    ensures Run(tr, events).value.history[id] == tr.history[id]
    decreases |events|
  {
    if events != [] {
      var e := events[0];
      var t1 := RegisterStep(tr, e.time, e.moved).value;
      assert MoveTimesIn(id, e.time, e.moved) == [] && MoveTimes(id, events[1..]) == [] by {
        assert |MoveTimes(id, events)| == |MoveTimesIn(id, e.time, e.moved)| + |MoveTimes(id, events[1..])|;
      }
      MoveTimesInEmpty(id, e.time, e.moved);
      RunUnmovedKeepsBuffer(t1, events[1..], id);
    }
  }

  /** A particle that is not followed never gains a sample, however it moves. */
  lemma {:induction false} RunUntrackedStaysEmpty(tr: Tracker, events: seq<Event>, id: nat)
    requires Valid(tr)
    requires Run(tr, events).Ok?
    requires id < |tr.history| && id !in tr.tracked
    ensures Run(tr, events).value.history[id] == []
  {
    var r := Run(tr, events).value;
    assert BufferValid(r, id);
  }

  /** The moves of `moved` that name followed particles, in order. */
  function TrackedMoves(moved: seq<Move>, tracked: set<nat>): (r: seq<Move>)
    ensures forall m :: m in r <==> m in moved && m.id in tracked
    decreases |moved|
  {
    if moved == [] then []
    else if moved[0].id in tracked then [moved[0]] + TrackedMoves(moved[1..], tracked)
    else TrackedMoves(moved[1..], tracked)
  }

  /** Moves of particles that are not followed have no effect at all. */
  lemma {:induction false} UntrackedMovesIgnored(tr: Tracker, moved: seq<Move>)
    requires Valid(tr)
    requires KnownIds(moved, |tr.history|)
    ensures KnownIds(TrackedMoves(moved, tr.tracked), |tr.history|)
    ensures ApplyMoves(tr, moved) == ApplyMoves(tr, TrackedMoves(moved, tr.tracked))
    decreases |moved|
  {
    var f := TrackedMoves(moved, tr.tracked);
    assert KnownIds(f, |tr.history|) by {
      forall i | 0 <= i < |f|
        ensures f[i].id < |tr.history|
      {
        assert f[i] in f;
      }
    }
    if moved != [] {
      var t1 := ApplyMove(tr, moved[0]);
      UntrackedMovesIgnored(t1, moved[1..]);
      assert t1.tracked == tr.tracked;
      if moved[0].id in tr.tracked {
        assert f[0] == moved[0] && f[1..] == TrackedMoves(moved[1..], tr.tracked);
      } else {
        assert t1 == tr;
      }
    }
  }

  /**
   Moving a followed particle whose buffer holds only its seed sample `s0`
   leaves the buffer as (new sample, `s0`) cut to the history depth.
   */
  lemma SeedOnlyMoveBuffer(tr: Tracker, m: Move)
    requires Valid(tr)
    requires m.id in tr.tracked && |tr.history[m.id]| == 1
    ensures ApplyMove(tr, m).history[m.id]
         == [Sample(Add(tr.history[m.id][0].position, m.displacement), tr.lastTime), tr.history[m.id][0]]
              [..Min(2, tr.params.historySteps)]
  {
  }

  /**
   Moving a followed particle whose buffer holds only its seed sample `s0`
   deposits one contribution: the move vector over the time elapsed since `s0`.
   */
  lemma SeedOnlyMoveHistogram(tr: Tracker, m: Move)
    requires Valid(tr)
    requires m.id in tr.tracked && |tr.history[m.id]| == 1
    ensures ApplyMove(tr, m).histogram
         == Deposit(tr.histogram, Scaled(tr.lastTime - tr.history[m.id][0].time, tr.params.BinSize()), m.displacement)
  {
    var buf := tr.history[m.id];
    var s0 := buf[0];
    var pos := Add(s0.position, m.displacement);
    var w := tr.params.BinSize();
    assert BufferValid(tr, m.id);
    var c := Contribution(Scaled(tr.lastTime - s0.time, w), m.displacement);
    var cs := WindowContributions(buf, tr.lastTime, pos, w);
    assert cs == [c] by {
      WindowContributionsCons(buf, tr.lastTime, pos, w);
    }
    assert DepositAll(tr.histogram, cs) == Deposit(tr.histogram, c.age, c.displacement) by {
      DepositOne(tr.histogram, c);
    }
  }

  /**
   An event in which exactly one move names a followed particle has the
   effect of that move alone, made at the event's time.
   */
  lemma {:induction false} SingleTrackedMove(tr: Tracker, time: real, moved: seq<Move>, m: Move)
    requires Valid(tr)
    requires tr.lastTime <= time
    requires KnownIds(moved, |tr.history|)
    requires TrackedMoves(moved, tr.tracked) == [m]
    ensures Valid(tr.(lastTime := time)) && m.id < |tr.history|
    ensures RegisterStep(tr, time, moved) == Ok(ApplyMove(tr.(lastTime := time), m))
  {
    var t1 := tr.(lastTime := time);
    AdvanceValid(tr, time);
    UntrackedMovesIgnored(t1, moved);
    assert m in TrackedMoves(moved, tr.tracked);
    assert ApplyMoves(t1, [m]) == ApplyMove(t1, m);
  }

  /**
   One event that moves a single followed particle whose buffer holds just
   its seed sample `s0`: the event is accepted and the buffer becomes (new
   sample, `s0`) newest first, the new position being `s0`'s plus the move
   vector.
   */
  lemma OneEntryWindowBuffer(tr: Tracker, time: real, moved: seq<Move>, id: nat, d: Coord)
    requires Valid(tr)
    requires tr.lastTime <= time
    requires KnownIds(moved, |tr.history|)
    requires id in tr.tracked && |tr.history[id]| == 1
    requires TrackedMoves(moved, tr.tracked) == [Move(id, d)]
    ensures RegisterStep(tr, time, moved).Ok?
    ensures RegisterStep(tr, time, moved).value.history[id]
         == [Sample(Add(tr.history[id][0].position, d), time), tr.history[id][0]][..Min(2, tr.params.historySteps)]
  {
    var m := Move(id, d);
    var t1 := tr.(lastTime := time);
    SingleTrackedMove(tr, time, moved, m);
    SeedOnlyMoveBuffer(t1, m);
  }

  /**
   The same event's histogram: one deposit, the move vector over the time
   elapsed since `s0`.
   */
  lemma OneEntryWindowHistogram(tr: Tracker, time: real, moved: seq<Move>, id: nat, d: Coord)
    requires Valid(tr)
    requires tr.lastTime <= time
    requires KnownIds(moved, |tr.history|)
    requires id in tr.tracked && |tr.history[id]| == 1
    requires TrackedMoves(moved, tr.tracked) == [Move(id, d)]
    ensures RegisterStep(tr, time, moved).Ok?
    ensures RegisterStep(tr, time, moved).value.histogram
         == Deposit(tr.histogram, Scaled(time - tr.history[id][0].time, tr.params.BinSize()), d)
  {
    var m := Move(id, d);
    var t1 := tr.(lastTime := time);
    SingleTrackedMove(tr, time, moved, m);
    SeedOnlyMoveHistogram(t1, m);
  }
}
