/**
 Shared sequence arithmetic for the tempo-estimation pipeline.

 The source computes its convolutions as `ifft(fft(x, n=N) * fft(h, n=N))`.
 Over exact reals that is the length-N circular convolution of `x` and `h`,
 each first zero-padded or truncated to N samples (which is what numpy's
 `fft(x, n=N)` does to its input). This module defines that operation once,
 together with the sums used for energies.
 */
module Signal {

  /** n samples of silence. */
  function Zeros(n: nat): (z: seq<real>)
    ensures |z| == n
    ensures forall i :: 0 <= i < n ==> z[i] == 0.0
  {
    seq(n, _ => 0.0)
  }

  predicate AllZero(s: seq<real>)
  {
    forall i :: 0 <= i < |s| ==> s[i] == 0.0
  }

  predicate NonNegative(s: seq<real>)
  {
    forall i :: 0 <= i < |s| ==> s[i] >= 0.0
  }

  function Max(a: real, b: real): real
  {
    if a >= b then a else b
  }

  function Min(a: int, b: int): int
  {
    if a <= b then a else b
  }

  function Abs(a: real): real
  {
    if a < 0.0 then -a else a
  }

  /** Sum of all samples. */
  function Sum(s: seq<real>): real
  {
    if |s| == 0 then 0.0 else Sum(s[..|s| - 1]) + s[|s| - 1]
  }

  /** Sum of squared samples: the energy of a signal. */
  function SumOfSquares(s: seq<real>): real
  {
    if |s| == 0 then 0.0 else SumOfSquares(s[..|s| - 1]) + s[|s| - 1] * s[|s| - 1]
  }

  /**
   The input seen by `fft(s, n=n)`: `s` truncated to its first n samples when
   it is longer, zero-padded to n samples when it is shorter.
   */
  function Fit(s: seq<real>, n: nat): (r: seq<real>)
    ensures |r| == n
    ensures forall i :: 0 <= i < n ==> r[i] == (if i < |s| then s[i] else 0.0)
  {
    if |s| >= n then s[..n] else s + Zeros(n - |s|)
  }

  /**
   The first m terms of sample n of the circular convolution of x and h:
   the sum over d < m of h[d] * x[(n - d) mod |x|].
   */
  function ConvPartial(x: seq<real>, h: seq<real>, n: int, m: nat): real
    requires 0 < |x| && |x| == |h| && m <= |h|
  {
    if m == 0 then 0.0 else ConvPartial(x, h, n, m - 1) + h[m - 1] * x[(n - (m - 1)) % |x|]
  }

  /**
   Circular convolution of two equally long signals, the exact value of
   `real(ifft(fft(x) * fft(h)))`.
   */
  function CircularConvolution(x: seq<real>, h: seq<real>): (c: seq<real>)
    requires 0 < |x| && |x| == |h|
    ensures |c| == |x|
  {
    seq(|x|, n requires 0 <= n < |x| => ConvPartial(x, h, n, |h|))
  }

  lemma ProductNonNegative(a: real, b: real)
    requires a >= 0.0 && b >= 0.0
    ensures a * b >= 0.0
  {
  }

  /** Each partial convolution sum of non-negative signals is non-negative. */
  lemma {:induction false} ConvPartialNonNegative(x: seq<real>, h: seq<real>, n: int, m: nat)
    requires 0 < |x| && |x| == |h| && m <= |h|
    requires NonNegative(x) && NonNegative(h)
    ensures ConvPartial(x, h, n, m) >= 0.0
  {
    if m > 0 {
      ConvPartialNonNegative(x, h, n, m - 1);
      ProductNonNegative(h[m - 1], x[(n - (m - 1)) % |x|]);
    }
  }

  /** Circular convolution of two non-negative signals is non-negative. */
  lemma ConvolutionNonNegative(x: seq<real>, h: seq<real>)
    requires 0 < |x| && |x| == |h|
    requires NonNegative(x) && NonNegative(h)
    ensures NonNegative(CircularConvolution(x, h))
  {
    forall n | 0 <= n < |x|
      ensures CircularConvolution(x, h)[n] >= 0.0
    {
      ConvPartialNonNegative(x, h, n, |h|);
    }
  }

  /** A silent signal contributes nothing to any partial convolution sum. */
  lemma {:induction false} ConvPartialOfSilence(x: seq<real>, h: seq<real>, n: int, m: nat)
    requires 0 < |x| && |x| == |h| && m <= |h|
    requires AllZero(x)
    ensures ConvPartial(x, h, n, m) == 0.0
  {
    if m > 0 {
      ConvPartialOfSilence(x, h, n, m - 1);
      assert x[(n - (m - 1)) % |x|] == 0.0;
    }
  }

  /** Convolving silence with any filter gives silence. */
  lemma ConvolutionOfSilence(x: seq<real>, h: seq<real>)
    requires 0 < |x| && |x| == |h|
    requires AllZero(x)
    ensures AllZero(CircularConvolution(x, h))
  {
    forall n | 0 <= n < |x|
      ensures CircularConvolution(x, h)[n] == 0.0
    {
      ConvPartialOfSilence(x, h, n, |h|);
    }
  }

  /** A convolution with an all-zero filter is silent too. */
  lemma {:induction false} ConvPartialWithZeroFilter(x: seq<real>, h: seq<real>, n: int, m: nat)
    requires 0 < |x| && |x| == |h| && m <= |h|
    requires AllZero(h)
    ensures ConvPartial(x, h, n, m) == 0.0
  {
    if m > 0 {
      ConvPartialWithZeroFilter(x, h, n, m - 1);
      assert h[m - 1] == 0.0;
    }
  }

  /** Energy is never negative. */
  lemma {:induction false} SumOfSquaresNonNegative(s: seq<real>)
    ensures SumOfSquares(s) >= 0.0
  {
    if |s| > 0 {
      SumOfSquaresNonNegative(s[..|s| - 1]);
      var v := s[|s| - 1];
      assert v * v >= 0.0;
    }
  }

  /** A silent signal has zero energy. */
  lemma {:induction false} SumOfSquaresOfSilence(s: seq<real>)
    requires AllZero(s)
    ensures SumOfSquares(s) == 0.0
  {
    if |s| > 0 {
      SumOfSquaresOfSilence(s[..|s| - 1]);
    }
  }
}
