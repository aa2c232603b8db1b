/**
 The per-particle history buffer: a bounded sequence of samples kept newest
 first. A new sample goes to the front; when the buffer then holds more than
 its capacity (`history_steps`), the oldest sample at the back is dropped.
 */
module HistoryStore {
  import opened Coordinates

  /** One retained observation of a particle: absolute position and time. */
  datatype Sample = Sample(position: Coord, time: real)

  function Min(a: int, b: int): int
  {
    if a <= b then a else b
  }

  /**
   Prepends `s` and evicts at most one element from the back. A buffer within
   its capacity grows by one until it is full and then keeps its length; the
   result is always the newest prefix of `[s] + buf`.
   */
  function Push<T>(buf: seq<T>, s: T, capacity: nat): (r: seq<T>)
    requires capacity >= 1
    ensures |buf| <= capacity ==> |r| == Min(|buf| + 1, capacity)
    ensures |buf| <= |r| <= |buf| + 1
    ensures r[0] == s
    ensures forall i :: 1 <= i < |r| ==> r[i] == buf[i - 1]
  {
    var grown := [s] + buf;
    if |grown| > capacity then grown[..|grown| - 1] else grown
  }

  /** Pushes `samples` one after the other, oldest (index 0) first. */
  function PushAll<T>(buf: seq<T>, samples: seq<T>, capacity: nat): seq<T>
    requires capacity >= 1
    decreases |samples|
  {
    if samples == [] then buf
    else PushAll(Push(buf, samples[0], capacity), samples[1..], capacity)
  }

  function Reverse<T>(s: seq<T>): (r: seq<T>)
    ensures |r| == |s|
    ensures forall i :: 0 <= i < |s| ==> r[i] == s[|s| - 1 - i]
  {
    if s == [] then [] else Reverse(s[1..]) + [s[0]]
  }

  /** Reversing a concatenation reverses and swaps the two parts. */
  lemma {:induction false} ReverseAppend<T>(a: seq<T>, b: seq<T>)
    ensures Reverse(a + b) == Reverse(b) + Reverse(a)
    decreases |a|
  {
    if a == [] {
      assert a + b == b;
    } else {
      assert (a + b)[1..] == a[1..] + b;
      ReverseAppend(a[1..], b);
    }
  }

  /** The times of a buffer, in buffer order. */
  function Times(buf: seq<Sample>): (r: seq<real>)
    ensures |r| == |buf|
    ensures forall i :: 0 <= i < |buf| ==> r[i] == buf[i].time
  {
    seq(|buf|, i requires 0 <= i < |buf| => buf[i].time)
  }

  /** Sample `i` of `buf` was taken no earlier than sample `j`. */
  ghost predicate NoOlder(buf: seq<Sample>, i: int, j: int)
    requires 0 <= i < |buf| && 0 <= j < |buf|
  {
    buf[i].time >= buf[j].time
  }

  /**
   Times never increase from the front (newest) to the back (oldest). The
   pairwise fact is only drawn out for pairs a proof names with `NoOlder`.
   */
  ghost predicate NewestFirst(buf: seq<Sample>)
  {
    forall i, j {:trigger NoOlder(buf, i, j)} :: 0 <= i < j < |buf| ==> NoOlder(buf, i, j)
  }

  /**
   Pushing a sample no older than the current front keeps the buffer
   ordered newest first.
   */
  lemma PushKeepsNewestFirst(buf: seq<Sample>, s: Sample, capacity: nat)
    requires capacity >= 1
    requires NewestFirst(buf)
    requires |buf| >= 1 ==> buf[0].time <= s.time
    ensures NewestFirst(Push(buf, s, capacity))
  {
    var r := Push(buf, s, capacity);
    forall i, j | 0 <= i < j < |r|
      ensures NoOlder(r, i, j)
    {
      if i > 0 {
        assert r[i] == buf[i - 1] && r[j] == buf[j - 1];
        assert NoOlder(buf, i - 1, j - 1);
      } else if j > 1 {
        assert r[j] == buf[j - 1];
        assert NoOlder(buf, 0, j - 1);
      }
    }
  }

  /** Reading the times commutes with pushing. */
  lemma TimesOfPush(buf: seq<Sample>, s: Sample, capacity: nat)
    requires capacity >= 1
    ensures Times(Push(buf, s, capacity)) == Push(Times(buf), s.time, capacity)
  {
  }

  /** Pushing two batches in turn is pushing their concatenation. */
  lemma {:induction false} PushAllAppend<T>(buf: seq<T>, a: seq<T>, b: seq<T>, capacity: nat)
    requires capacity >= 1
    ensures PushAll(buf, a + b, capacity) == PushAll(PushAll(buf, a, capacity), b, capacity)
    decreases |a|
  {
    if a == [] {
      assert a + b == b;
    } else {
      assert (a + b)[0] == a[0];
      assert (a + b)[1..] == a[1..] + b;
      PushAllAppend(Push(buf, a[0], capacity), a[1..], b, capacity);
    }
  }

  /** A prefix of `p` that is long enough can stand in for `p` itself. */
  lemma TakeOfTruncated<T>(q: seq<T>, p: seq<T>, m: nat, len: nat)
    requires m <= |p|
    requires len <= |q| + m
    ensures (q + p[..m])[..len] == (q + p)[..len]
  {
  }

  /**
   After any number of pushes, a buffer that started within its capacity
   holds exactly the newest `Min(n, capacity)` of all `n` samples it ever saw,
   newest first: the pushed samples in reverse, then the original contents.
   */
  lemma {:induction false} PushAllKeepsNewest<T>(buf: seq<T>, samples: seq<T>, capacity: nat)
    requires capacity >= 1
    requires |buf| <= capacity
    ensures PushAll(buf, samples, capacity)
         == (Reverse(samples) + buf)[..Min(|samples| + |buf|, capacity)]
    decreases |samples|
  {
    if samples == [] {
      assert Reverse(samples) + buf == buf;
    } else {
      var s0, rest := samples[0], samples[1..];
      var b1 := Push(buf, s0, capacity);
      var m1 := Min(|buf| + 1, capacity);
      assert b1 == ([s0] + buf)[..m1];
      PushAllKeepsNewest(b1, rest, capacity);
      assert Reverse(samples) == Reverse(rest) + [s0];
      assert Reverse(samples) + buf == Reverse(rest) + ([s0] + buf);
      TakeOfTruncated(Reverse(rest), [s0] + buf, m1, Min(|rest| + m1, capacity));
    }
  }

  /**
   `after` is, newest first, the pushed `moves` reversed followed by
   `before`, cut to the newest `Min(|moves| + |before|, capacity)`.
   */
  ghost predicate HoldsNewest(after: seq<real>, before: seq<real>, moves: seq<real>, capacity: nat)
  {
    after == (Reverse(moves) + before)[..Min(|moves| + |before|, capacity)]
  }

  /**
   A buffer whose times are what pushing `moves` onto an earlier buffer's
   times gives holds the newest of all those times.
   */
  lemma RetainedNewest(before: seq<Sample>, after: seq<Sample>, moves: seq<real>, capacity: nat)
    requires capacity >= 1
    requires |before| <= capacity
    requires Times(after) == PushAll(Times(before), moves, capacity)
    ensures HoldsNewest(Times(after), Times(before), moves, capacity)
  {
    PushAllKeepsNewest(Times(before), moves, capacity);
  }

  /**
   A buffer whose times are what pushing `moves` onto an earlier buffer's
   times gives holds `Min(|moves| + |before|, capacity)` samples.
   */
  lemma RetainedCount(before: seq<Sample>, after: seq<Sample>, moves: seq<real>, capacity: nat)
    requires capacity >= 1
    requires |before| <= capacity
    requires Times(after) == PushAll(Times(before), moves, capacity)
    ensures |after| == Min(|moves| + |before|, capacity)
  {
    PushAllKeepsNewest(Times(before), moves, capacity);
  }
}
