/**
 Envelope extraction (`envelope_module.py`): full-wave rectification, then
 smoothing by the first half of a Hann window, computed as a frequency-domain
 product and truncated to the input length.

 The Hann window's values are a numerical-library concern and enter as the
 parameter `hann`, the 2w-point window of which the first w taps are used.
 */
module Envelope {
  import opened Signal
  import opened Arith

  /** Default window length in seconds (`window_length=0.4`). */
  const DefaultWindowLength: real := 0.4

  /** `np.abs(signal)`. */
  function Rectify(x: seq<real>): (r: seq<real>)
    ensures |r| == |x|
    ensures NonNegative(r)
    ensures forall i :: 0 <= i < |x| ==> r[i] == x[i] || r[i] == -x[i]
  {
    seq(|x|, i requires 0 <= i < |x| => Abs(x[i]))
  }

  /**
   `int(window_length * fs) // 2`: the number of half-window taps. The
   product is non-negative, so truncation toward zero is its floor.
   */
  function HalfWindowLength(windowLength: real, fs: int): (w: nat)
    requires windowLength >= 0.0 && fs > 0
    ensures 2 * w <= (windowLength * fs as real).Floor
    ensures (2 * w + 2) as real > windowLength * fs as real
  {
    ProductNonNegative(windowLength, fs as real);
    (windowLength * fs as real).Floor / 2
  }

  /** The half window is empty exactly when window_length * fs < 2. */
  lemma HalfWindowLengthBounds(windowLength: real, fs: int)
    requires windowLength >= 0.0 && fs > 0
    ensures HalfWindowLength(windowLength, fs) == 0 <==> windowLength * fs as real < 2.0
  {
  }

  /** `rectified.size + half_window.size - 1`, the transform length; it is not clamped. */
  function ConvolutionLength(signalLength: nat, w: nat): int
  {
    signalLength + w - 1
  }

  /**
   `get_envelope`. The transform length must be at least one sample, or the
   source's fft fails; an input window of 2w taps is supplied by the caller.
   */
  function GetEnvelope(x: seq<real>, fs: int, windowLength: real, hann: seq<real>): (env: seq<real>)
    requires windowLength >= 0.0 && fs > 0
    requires |hann| == 2 * HalfWindowLength(windowLength, fs)
    requires ConvolutionLength(|x|, HalfWindowLength(windowLength, fs)) >= 1
    ensures HalfWindowLength(windowLength, fs) >= 1 ==> |env| == |x|
    ensures HalfWindowLength(windowLength, fs) == 0 ==> |env| == |x| - 1
  {
    var w := HalfWindowLength(windowLength, fs);
    var half := hann[..w];
    var n := ConvolutionLength(|x|, w);
    var c := CircularConvolution(Fit(Rectify(x), n), Fit(half, n));
    if |x| <= n then c[..|x|] else c
  }

  /**
   The first m terms of the linear convolution at sample i:
   the sum over k < m of h[k] * x[i - k].
   */
  function LinearPartial(x: seq<real>, h: seq<real>, i: int, m: nat): real
    requires m <= |h| && i < |x| && m <= i + 1
  {
    if m == 0 then 0.0 else LinearPartial(x, h, i, m - 1) + h[m - 1] * x[i - (m - 1)]
  }

  /** Below sample i the circular and the linear sums agree term by term. */
  lemma {:induction false} CircularMatchesLinear(
    x: seq<real>, h: seq<real>, xs: seq<real>, hs: seq<real>, i: nat, m: nat)
    requires 0 < |xs| && |xs| == |hs|
    requires i < |x| && m <= i + 1 && m <= |h| && |x| <= |xs| && |h| <= |hs|
    requires forall k :: 0 <= k < |x| ==> xs[k] == x[k]
    requires forall k :: 0 <= k < |h| ==> hs[k] == h[k]
    ensures ConvPartial(xs, hs, i, m) == LinearPartial(x, h, i, m)
  {
    if m > 0 {
      CircularMatchesLinear(x, h, xs, hs, i, m - 1);
      SmallMod(i - (m - 1), |xs|);
    }
  }

  /**
   Past the linear part the circular sum only adds zeros, because the
   transform length leaves no room for wrap-around.
   */
  lemma {:induction false} CircularTailVanishes(
    x: seq<real>, h: seq<real>, xs: seq<real>, hs: seq<real>, i: nat, m: nat)
    requires |xs| == |hs| == |x| + |h| - 1 && |h| >= 1
    requires i < |x| && Min(i + 1, |h|) <= m <= |hs|
    requires forall k :: 0 <= k < |xs| ==> xs[k] == (if k < |x| then x[k] else 0.0)
    requires forall k :: 0 <= k < |hs| ==> hs[k] == (if k < |h| then h[k] else 0.0)
    ensures ConvPartial(xs, hs, i, m) == ConvPartial(xs, hs, i, Min(i + 1, |h|))
  {
    if m > Min(i + 1, |h|) {
      CircularTailVanishes(x, h, xs, hs, i, m - 1);
      var d := m - 1;
      if d < |h| {
        assert d > i;
        ModOfNegative(i - d, |xs|);
        assert (i - d) % |xs| >= |x|;
      }
    }
  }

  /**
   With a non-empty half window the envelope is the first |x| samples of the
   linear convolution of the rectified input with the half window:
   env[i] = sum over k <= min(i, w - 1) of half[k] * |x[i - k]|.
   */
  lemma EnvelopeIsTruncatedLinearConvolution(
    x: seq<real>, fs: int, windowLength: real, hann: seq<real>, i: nat)
    requires windowLength >= 0.0 && fs > 0
    requires |hann| == 2 * HalfWindowLength(windowLength, fs)
    requires HalfWindowLength(windowLength, fs) >= 1 && |x| >= 1
    requires i < |x|
    ensures var w := HalfWindowLength(windowLength, fs);
            GetEnvelope(x, fs, windowLength, hann)[i]
              == LinearPartial(Rectify(x), hann[..w], i, Min(i + 1, w))
  {
    var w := HalfWindowLength(windowLength, fs);
    var half := hann[..w];
    var n := ConvolutionLength(|x|, w);
    var xs, hs := Fit(Rectify(x), n), Fit(half, n);
    CircularTailVanishes(Rectify(x), half, xs, hs, i, n);
    CircularMatchesLinear(Rectify(x), half, xs, hs, i, Min(i + 1, w));
  }

  /**
   With non-negative window taps every envelope sample is non-negative, for
   every window length (the exact convolution has no numerical artifacts).
   */
  lemma EnvelopeNonNegative(x: seq<real>, fs: int, windowLength: real, hann: seq<real>)
    requires windowLength >= 0.0 && fs > 0
    requires |hann| == 2 * HalfWindowLength(windowLength, fs)
    requires ConvolutionLength(|x|, HalfWindowLength(windowLength, fs)) >= 1
    requires NonNegative(hann)
    ensures NonNegative(GetEnvelope(x, fs, windowLength, hann))
  {
    var w := HalfWindowLength(windowLength, fs);
    var n := ConvolutionLength(|x|, w);
    ConvolutionNonNegative(Fit(Rectify(x), n), Fit(hann[..w], n));
  }

  /** Silence in, silence out. */
  lemma EnvelopeOfSilence(x: seq<real>, fs: int, windowLength: real, hann: seq<real>)
    requires windowLength >= 0.0 && fs > 0
    requires |hann| == 2 * HalfWindowLength(windowLength, fs)
    requires ConvolutionLength(|x|, HalfWindowLength(windowLength, fs)) >= 1
    requires AllZero(x)
    ensures AllZero(GetEnvelope(x, fs, windowLength, hann))
  {
    var w := HalfWindowLength(windowLength, fs);
    var n := ConvolutionLength(|x|, w);
    ConvolutionOfSilence(Fit(Rectify(x), n), Fit(hann[..w], n));
  }

  /**
   A window too short for even one half-window tap is not clamped: the
   transform is one sample shorter than the input, the window contributes
   nothing, and the envelope is |x| - 1 zeros.
   */
  lemma DegenerateWindowEnvelope(x: seq<real>, fs: int, windowLength: real, hann: seq<real>)
    requires windowLength >= 0.0 && fs > 0
    requires |hann| == 2 * HalfWindowLength(windowLength, fs)
    requires HalfWindowLength(windowLength, fs) == 0 && |x| >= 2
    ensures |GetEnvelope(x, fs, windowLength, hann)| == |x| - 1
    ensures AllZero(GetEnvelope(x, fs, windowLength, hann))
  {
    var n := |x| - 1;
    var xs, hs := Fit(Rectify(x), n), Fit([], n);
    forall i | 0 <= i < n
      ensures CircularConvolution(xs, hs)[i] == 0.0
    {
      ConvPartialWithZeroFilter(xs, hs, i, n);
    }
  }
}
