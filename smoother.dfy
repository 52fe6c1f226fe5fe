/** The rolling window behind `pupil_offset`: one list per axis, at most
    `BufferSize` samples, oldest first, and the scaled, rounded mean. */
module Smoother {
  import opened Rounding

  /** `GAZE_OT_Rotate.buffer_size`. */
  const BufferSize: nat := 5
  /** `factor_x` and `factor_y` of `pupil_offset`. */
  const FactorX: int := 16
  const FactorY: int := 9

  /** The window after one push: drop the oldest sample when the window
      already holds `BufferSize` or more, then append the new one. */
  function Pushed(buf: seq<real>, v: real): (r: seq<real>)
    ensures 0 < |r| && r[|r| - 1] == v
    ensures |buf| <= BufferSize ==> |r| <= BufferSize
    ensures |buf| < BufferSize ==> |r| == |buf| + 1 && r[..|buf|] == buf
  {
    (if |buf| >= BufferSize then buf[1..] else buf) + [v]
  }

  function Sum(s: seq<real>): real {
    if s == [] then 0.0 else s[0] + Sum(s[1..])
  }

  /** The smoothed value: the sum divided by the capacity, not by the number
      of samples held. */
  function Mean(buf: seq<real>): (m: real)
    ensures m * BufferSize as real == Sum(buf)
    ensures |buf| == BufferSize ==> m == Sum(buf) / |buf| as real
  {
    Sum(buf) / BufferSize as real
  }

  /** The offset from the centre of the eye, scaled by `factor` and rounded
      half to even like `np.round`. */
  function SmoothedOffset(buf: seq<real>, factor: int): (n: int)
    ensures (Mean(buf) - 0.5) * factor as real - 0.5 <= n as real <= (Mean(buf) - 0.5) * factor as real + 0.5
  {
    RoundHalfEven((Mean(buf) - 0.5) * factor as real)
  }

  /** One push keeps the window bounded, puts the new sample last, drops the
      oldest sample exactly when the window was full, and keeps the order of
      the rest. */
  lemma PushedShape(buf: seq<real>, v: real)
    requires |buf| <= BufferSize
    ensures |Pushed(buf, v)| == if |buf| == BufferSize then BufferSize else |buf| + 1
    ensures 0 < |Pushed(buf, v)| <= BufferSize
    ensures Pushed(buf, v)[|Pushed(buf, v)| - 1] == v
    ensures |buf| == BufferSize ==> Pushed(buf, v)[..BufferSize - 1] == buf[1..]
    ensures |buf| < BufferSize ==> Pushed(buf, v)[..|buf|] == buf
  {
  }

  /** The window after pushing every sample of `s` into `buf`, in order. */
  function PushAll(buf: seq<real>, s: seq<real>): seq<real>
    decreases |s|
  {
    if s == [] then buf else PushAll(Pushed(buf, s[0]), s[1..])
  }

  /** The last `BufferSize` elements of `s`, or all of them when there are fewer. */
  function Latest(s: seq<real>): (r: seq<real>)
    ensures |r| <= BufferSize
  {
    if |s| <= BufferSize then s else s[|s| - BufferSize..]
  }

  /** First-in first-out: a session's window holds exactly the last
      `BufferSize` samples pushed (all of them while fewer were pushed). */
  lemma {:induction false} WindowHoldsLatest(buf: seq<real>, s: seq<real>)
    requires |buf| <= BufferSize
    ensures PushAll(buf, s) == Latest(buf + s)
    decreases |s|
  {
    if s != [] {
      var next := Pushed(buf, s[0]);
      var all, all' := buf + s, next + s[1..];
      if |buf| == BufferSize {
        assert all' == all[1..];
        assert Latest(all') == Latest(all);
      } else {
        assert all' == all;
      }
      WindowHoldsLatest(next, s[1..]);
    }
  }

  lemma {:induction false} SumAppend(s: seq<real>, v: real)
    ensures Sum(s + [v]) == Sum(s) + v
  {
    if s != [] {
      assert (s + [v])[1..] == s[1..] + [v];
      SumAppend(s[1..], v);
    }
  }

  /** Pushing into a full window moves the mean by a fifth of the difference
      between the new sample and the evicted one. */
  lemma MeanAfterEviction(buf: seq<real>, v: real)
    requires |buf| == BufferSize
    ensures Mean(Pushed(buf, v)) == Mean(buf) + (v - buf[0]) / BufferSize as real
  {
    SumAppend(buf[1..], v);
  }

  /** A window of `k` equal samples `v` has the mean `k * v / 5`: only a full
      window gives back `v` itself. */
  lemma {:induction false} MeanOfConstant(buf: seq<real>, v: real)
    requires forall i :: 0 <= i < |buf| ==> buf[i] == v
    ensures Sum(buf) == |buf| as real * v
    ensures Mean(buf) == |buf| as real * v / BufferSize as real
  {
    if buf != [] {
      MeanOfConstant(buf[1..], v);
    }
  }

  lemma {:induction false} SumBounds(buf: seq<real>)
    requires forall i :: 0 <= i < |buf| ==> 0.0 <= buf[i] <= 1.0
    ensures 0.0 <= Sum(buf) <= |buf| as real
  {
    if buf != [] {
      SumBounds(buf[1..]);
    }
  }

  /** With every sample a ratio in [0, 1], the horizontal offset stays within
      [-8, 8] and the vertical one within [-4, 4] (ties at +-4.5 go to 4). */
  lemma OffsetBounds(buf: seq<real>)
    requires |buf| <= BufferSize
    requires forall i :: 0 <= i < |buf| ==> 0.0 <= buf[i] <= 1.0
    ensures -8 <= SmoothedOffset(buf, FactorX) <= 8
    ensures -4 <= SmoothedOffset(buf, FactorY) <= 4
  {
    SumBounds(buf);
    var m := Mean(buf);
    assert 0.0 <= m <= 1.0;
    var ry := (m - 0.5) * 9.0;
    assert -4.5 <= ry <= 4.5;
  }

  /** Because the sum is divided by five even when fewer samples are held, the
      first two samples of a session, whatever ratios in [0, 1] they are, give
      a negative horizontal offset. */
  lemma StartupBiasLeft(buf: seq<real>)
    requires 0 < |buf| <= 2
    requires forall i :: 0 <= i < |buf| ==> 0.0 <= buf[i] <= 1.0
    ensures SmoothedOffset(buf, FactorX) < 0
  {
    SumBounds(buf);
    assert Mean(buf) <= 0.4;
  }
}
