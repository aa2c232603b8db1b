/**
 The time histogram: `n_bins` accumulators of squared-displacement sums,
 one per elapsed-time bucket of width `binSize = t_max / n_bins`. Bucket `k`
 collects the contributions whose elapsed time lies in
 [k·binSize, (k+1)·binSize). A contribution whose elapsed time is at or beyond
 `n_bins·binSize` (that is, `t_max`) has no bucket and is dropped.

 The operations take the elapsed time already measured in bucket widths,
 `Scaled(dt, binSize) = dt / binSize`, so that bucket `k` is the interval
 [k, k+1) of that scaled time.
 */
module TimeHistogram {
  import opened Coordinates

  /** Elapsed time `dt` measured in bucket widths. */
  function Scaled(dt: real, binSize: real): (q: real)
    requires binSize > 0.0
    ensures dt >= 0.0 ==> q >= 0.0
  {
    dt / binSize
  }

  /** Scaled elapsed time `q` falls in bucket `k`. */
  predicate InBin(k: int, q: real)
  {
    k as real <= q < (k + 1) as real
  }

  /** Scaled elapsed time `q` lies before the end of a histogram of `n` buckets. */
  predicate InWindow(q: real, n: nat)
  {
    q < n as real
  }

  lemma MulMonotone(a: real, b: real, c: real)
    requires a <= b && c > 0.0
    ensures a * c <= b * c
  {
    assert b * c - a * c == (b - a) * c;
  }

  lemma MulStrict(a: real, b: real, c: real)
    requires a < b && c > 0.0
    ensures a * c < b * c
  {
    assert b * c - a * c == (b - a) * c;
  }

  /**
   With `q·c == dt` and `c` positive, comparing `a` with `q` is comparing
   `a·c` with `dt`.
   */
  lemma OrderThrough(a: real, q: real, c: real, dt: real)
    requires c > 0.0 && q * c == dt
    ensures a <= q <==> a * c <= dt
    ensures q < a <==> dt < a * c
  {
    if a <= q {
      MulMonotone(a, q, c);
    } else {
      MulStrict(q, a, c);
    }
  }

  /** Scaling and then multiplying back by the bucket width gives the elapsed time. */
  lemma ScaledBack(dt: real, binSize: real)
    requires binSize > 0.0
    ensures Scaled(dt, binSize) * binSize == dt
  {
    assert Scaled(dt, binSize) == dt / binSize;
  }

  /**
   On unscaled times a bucket is the half-open interval
   [k·binSize, (k+1)·binSize), and the window ends at n·binSize.
   */
  lemma ScaledIntervals(k: int, n: nat, dt: real, binSize: real)
    requires binSize > 0.0
    ensures InBin(k, Scaled(dt, binSize)) <==> k as real * binSize <= dt < (k + 1) as real * binSize
    ensures InWindow(Scaled(dt, binSize), n) <==> dt < n as real * binSize
  {
    var q := Scaled(dt, binSize);
    ScaledBack(dt, binSize);
    OrderThrough(k as real, q, binSize, dt);
    OrderThrough((k + 1) as real, q, binSize, dt);
    OrderThrough(n as real, q, binSize, dt);
  }

  /**
   The bucket of scaled elapsed time `q`, computed by truncation. It is the
   bucket whose interval contains `q`.
   */
  function BinIndex(q: real): (k: nat)
    requires q >= 0.0
    ensures InBin(k, q)
  {
    q.Floor
  }

  /** No other bucket's interval contains `q`: buckets do not overlap. */
  lemma BinIndexUnique(q: real)
    requires q >= 0.0
    ensures forall k: int :: InBin(k, q) <==> k == BinIndex(q)
  {
  }

  /** A fresh histogram: `n` accumulators, all zero. */
  function Zeroed(n: nat): (h: seq<Coord>)
    ensures |h| == n
    ensures forall k :: 0 <= k < n ==> h[k] == Origin
  {
    seq(n, k => Origin)
  }

  /**
   Deposits the squared displacement `d` observed over scaled elapsed time
   `q`. Exactly the bucket whose interval contains `q` gains (dx², dy², dz²);
   every other bucket is unchanged, and nothing changes when `q` lies at or
   beyond the histogram's window.
   */
  function Deposit(h: seq<Coord>, q: real, d: Coord): (r: seq<Coord>)
    requires q >= 0.0
    ensures |r| == |h|
    ensures forall k :: 0 <= k < |h| && InBin(k, q) ==> r[k] == Add(h[k], Square(d))
    ensures forall k :: 0 <= k < |h| && !InBin(k, q) ==> r[k] == h[k]
    ensures !InWindow(q, |h|) ==> r == h
  {
    var k := BinIndex(q);
    if k < |h| then h[k := Add(h[k], Square(d))] else h
  }

  /** The sum of all accumulators. */
  function Total(h: seq<Coord>): Coord
  {
    if h == [] then Origin else Add(h[0], Total(h[1..]))
  }

  /** Replacing one accumulator changes the total by exactly the difference. */
  lemma {:induction false} TotalUpdate(h: seq<Coord>, k: nat, v: Coord)
    requires k < |h|
    ensures Total(h[k := v]) == Add(Sub(Total(h), h[k]), v)
  {
    if k > 0 {
      assert h[k := v][1..] == h[1..][k - 1 := v];
      TotalUpdate(h[1..], k - 1, v);
    } else {
      assert h[k := v][1..] == h[1..];
    }
  }

  /**
   Conservation: a deposit inside the time window adds its squared
   displacement to the histogram's total exactly once; one outside adds
   nothing.
   */
  lemma DepositTotal(h: seq<Coord>, q: real, d: Coord)
    requires q >= 0.0
    ensures Total(Deposit(h, q, d))
         == if InWindow(q, |h|) then Add(Total(h), Square(d)) else Total(h)
  {
    var k := BinIndex(q);
    if k < |h| {
      TotalUpdate(h, k, Add(h[k], Square(d)));
    }
  }

  /**
   One squared-displacement contribution: the scaled time elapsed between two
   samples of a particle and the displacement between them.
   */
  datatype Contribution = Contribution(age: real, displacement: Coord)

  /** Every contribution's elapsed time is non-negative. */
  ghost predicate Aged(cs: seq<Contribution>)
  {
    forall i :: 0 <= i < |cs| ==> cs[i].age >= 0.0
  }

  /**
   The squared displacements of the contributions whose elapsed time falls in
   bucket `k`, summed.
   */
  function BinSum(cs: seq<Contribution>, k: int): Coord
    decreases |cs|
  {
    if cs == [] then Origin
    else if InBin(k, cs[0].age) then Add(Square(cs[0].displacement), BinSum(cs[1..], k))
    else BinSum(cs[1..], k)
  }

  /** Summing bucket `k` of a batch with one more contribution in front adds that contribution, if it falls there. */
  lemma BinSumCons(c: Contribution, cs: seq<Contribution>, k: int)
    ensures InBin(k, c.age) ==> BinSum([c] + cs, k) == Add(Square(c.displacement), BinSum(cs, k))
    ensures !InBin(k, c.age) ==> BinSum([c] + cs, k) == BinSum(cs, k)
  {
    assert ([c] + cs)[1..] == cs;
  }

  /**
   Deposits a batch of contributions one after the other. Buckets only grow,
   and a bucket whose interval contains none of the batch's elapsed times is
   left unchanged; `DepositAllBuckets` states each bucket's exact value.
   */
  function DepositAll(h: seq<Coord>, cs: seq<Contribution>): (r: seq<Coord>)
    requires Aged(cs)
    ensures |r| == |h|
    ensures forall k :: 0 <= k < |h| ==> Dominates(r[k], h[k])
    ensures forall k :: 0 <= k < |h| && (forall i :: 0 <= i < |cs| ==> !InBin(k, cs[i].age)) ==> r[k] == h[k]
    decreases |cs|
  {
    if cs == [] then h
    else
      var h1 := Deposit(h, cs[0].age, cs[0].displacement);
      assert forall k :: 0 <= k < |h| ==> Dominates(h1[k], h[k]) by {
        forall k | 0 <= k < |h|
          ensures Dominates(h1[k], h[k])
        {
          AddNonNegativeDominates(h[k], Square(cs[0].displacement));
        }
      }
      DepositAll(h1, cs[1..])
  }

  /**
   Bucket law for a batch: each bucket gains exactly the squares of the
   contributions whose elapsed time falls in its interval, each counted once.
   */
  lemma {:induction false} DepositAllBuckets(h: seq<Coord>, cs: seq<Contribution>)
    requires Aged(cs)
    ensures forall k :: 0 <= k < |h| ==> DepositAll(h, cs)[k] == Add(h[k], BinSum(cs, k))
    decreases |cs|
  {
    if cs != [] {
      var h1 := Deposit(h, cs[0].age, cs[0].displacement);
      DepositAllBuckets(h1, cs[1..]);
      forall k | 0 <= k < |h|
        ensures DepositAll(h, cs)[k] == Add(h[k], BinSum(cs, k))
      {
        if InBin(k, cs[0].age) {
          AddAssociative(h[k], Square(cs[0].displacement), BinSum(cs[1..], k));
        }
      }
    }
  }

  /** The squared displacements of the contributions inside a window of `n` buckets, summed. */
  function InWindowSum(cs: seq<Contribution>, n: nat): Coord
    decreases |cs|
  {
    if cs == [] then Origin
    else if InWindow(cs[0].age, n) then Add(Square(cs[0].displacement), InWindowSum(cs[1..], n))
    else InWindowSum(cs[1..], n)
  }

  /** Summing a batch with one more contribution in front adds that contribution, if inside. */
  lemma InWindowSumCons(c: Contribution, cs: seq<Contribution>, n: nat)
    ensures InWindow(c.age, n) ==> InWindowSum([c] + cs, n) == Add(Square(c.displacement), InWindowSum(cs, n))
    ensures !InWindow(c.age, n) ==> InWindowSum([c] + cs, n) == InWindowSum(cs, n)
  {
    assert ([c] + cs)[1..] == cs;
  }

  /**
   Conservation for a batch: the histogram's total grows by the squared
   displacement of every contribution inside the window, each counted once.
   */
  lemma {:induction false} DepositAllTotal(h: seq<Coord>, cs: seq<Contribution>)
    requires Aged(cs)
    ensures Total(DepositAll(h, cs)) == Add(Total(h), InWindowSum(cs, |h|))
    decreases |cs|
  {
    if cs != [] {
      var h1 := Deposit(h, cs[0].age, cs[0].displacement);
      DepositTotal(h, cs[0].age, cs[0].displacement);
      DepositAllTotal(h1, cs[1..]);
      if InWindow(cs[0].age, |h|) {
        AddAssociative(Total(h), Square(cs[0].displacement), InWindowSum(cs[1..], |h|));
      }
    }
  }

  /** A batch of one contribution is a single deposit. */
  lemma DepositOne(h: seq<Coord>, c: Contribution)
    requires c.age >= 0.0
    ensures DepositAll(h, [c]) == Deposit(h, c.age, c.displacement)
  {
    assert [c][1..] == [];
  }
}
