/**
 Onset emphasis: first difference of an envelope followed by half-wave
 rectification (`diff_rect_module.py`).
 */
module OnsetEmphasis {
  import opened Signal

  /**
   `np.diff(s, prepend=s[0])`: the difference of `[s[0]] + s`, one sample per
   input sample.
   */
  function DiffPrependFirst(s: seq<real>): (d: seq<real>)
    requires |s| >= 1
    ensures |d| == |s|
  {
    var p := [s[0]] + s;
    seq(|p| - 1, i requires 0 <= i < |p| - 1 => p[i + 1] - p[i])
  }

  /** `np.maximum(d, 0)`: every negative sample is clamped to zero. */
  function HalfWaveRectify(d: seq<real>): (r: seq<real>)
    ensures |r| == |d|
  {
    seq(|d|, i requires 0 <= i < |d| => Max(d[i], 0.0))
  }

  /**
   The onset signal of an envelope. The sample rate is accepted and ignored,
   as in the source. An empty envelope has no first sample to prepend, so the
   source fails on it; hence the precondition.
   */
  function DiffRect(envelope: seq<real>, fs: int): (onset: seq<real>)
    requires |envelope| >= 1
    ensures |onset| == |envelope|
    ensures onset[0] == 0.0
    ensures forall i :: 1 <= i < |envelope| ==>
              onset[i] == Max(envelope[i] - envelope[i - 1], 0.0)
    ensures NonNegative(onset)
  {
    HalfWaveRectify(DiffPrependFirst(envelope))
  }

  /** A positive onset sample marks exactly a rise of the envelope. */
  lemma OnsetIffRise(envelope: seq<real>, fs: int, i: int)
    requires |envelope| >= 1 && 0 <= i < |envelope|
    ensures DiffRect(envelope, fs)[i] > 0.0 <==> i >= 1 && envelope[i] > envelope[i - 1]
  {
  }

  /** A constant envelope has no onsets. */
  lemma {:induction false} ConstantHasNoOnsets(envelope: seq<real>, fs: int)
    requires |envelope| >= 1
    requires forall i :: 0 <= i < |envelope| ==> envelope[i] == envelope[0]
    ensures AllZero(DiffRect(envelope, fs))
  {
    var onset := DiffRect(envelope, fs);
    forall i | 1 <= i < |envelope|
      ensures onset[i] == 0.0
    {
      assert envelope[i] == envelope[0] && envelope[i - 1] == envelope[0];
    }
  }

  /** The sample rate has no influence on the result. */
  lemma SampleRateUnused(envelope: seq<real>, fs1: int, fs2: int)
    requires |envelope| >= 1
    ensures DiffRect(envelope, fs1) == DiffRect(envelope, fs2)
  {
  }

  /**
   The rises kept by diff-rect account for at least the net change of the
   envelope: summing the onset signal up to sample i bounds
   envelope[i] - envelope[0] from above.
   */
  lemma {:induction false} OnsetsBoundNetRise(envelope: seq<real>, fs: int, i: nat)
    requires i < |envelope|
    ensures envelope[i] - envelope[0] <= Sum(DiffRect(envelope, fs)[..i + 1])
  {
    var onset := DiffRect(envelope, fs);
    if i > 0 {
      OnsetsBoundNetRise(envelope, fs, i - 1);
      assert onset[..i + 1][..i] == onset[..i];
      assert onset[i] >= envelope[i] - envelope[i - 1];
    } else {
      assert onset[..1][..0] == [];
    }
  }

  /**
   For a non-decreasing envelope diff-rect loses nothing: the running sum of
   the onset signal rebuilds the envelope from its first sample.
   */
  lemma {:induction false} RunningSumRebuildsRisingEnvelope(envelope: seq<real>, fs: int, i: nat)
    requires i < |envelope|
    requires forall j :: 1 <= j < |envelope| ==> envelope[j - 1] <= envelope[j]
    ensures envelope[0] + Sum(DiffRect(envelope, fs)[..i + 1]) == envelope[i]
  {
    var onset := DiffRect(envelope, fs);
    if i > 0 {
      RunningSumRebuildsRisingEnvelope(envelope, fs, i - 1);
      assert onset[..i + 1][..i] == onset[..i];
      assert onset[i] == envelope[i] - envelope[i - 1];
    } else {
      assert onset[..1][..0] == [];
    }
  }
}
