/**
 The band configuration and the per-band onset stage of `rythm_detection.py`:
 the fixed Scheirer band list, and for every filtered band its envelope
 followed by diff-rect. The file loop, decoding and plotting are left out.
 */
module RythmDetection {
  import opened Signal
  import opened Filterbank
  import opened Envelope
  import opened OnsetEmphasis

  /**
   `get_scheirer_bands`: the three active Scheirer bands 1-200, 200-400 and
   400-800 Hz. The sample rate is accepted and not used, so no band is
   compared with the Nyquist frequency.
   */
  function GetScheirerBands(fs: int): (bands: seq<Band>)
    ensures |bands| == 3
    ensures forall i :: 0 <= i < |bands| ==> 0.0 < bands[i].low < bands[i].high
    ensures forall i :: 0 <= i < |bands| - 1 ==> bands[i].high == bands[i + 1].low
    ensures bands[0].low == 1.0 && bands[|bands| - 1].high == 800.0
    ensures bands[0].high == 200.0 && bands[1].high == 400.0
  {
    [Band(1.0, 200.0), Band(200.0, 400.0), Band(400.0, 800.0)]
  }

  /** The band list is the same for every sample rate. */
  lemma ScheirerBandsIgnoreSampleRate(fs1: int, fs2: int)
    ensures GetScheirerBands(fs1) == GetScheirerBands(fs2)
  {
  }

  /**
   Every band lies below the Nyquist frequency exactly when the sample rate
   exceeds 1600 Hz; the source does not check this.
   */
  lemma ScheirerBandsBelowNyquistIff(fs: int)
    ensures (forall i :: 0 <= i < 3 ==> GetScheirerBands(fs)[i].high < Nyquist(fs)) <==> fs > 1600
  {
    var bands := GetScheirerBands(fs);
    if fs > 1600 {
      assert Nyquist(fs) > 800.0;
    } else {
      assert bands[2].high >= Nyquist(fs);
    }
  }

  /**
   The driver's `create_filterbank(signal, fs, bands)`: the Scheirer bands,
   each through a bandpass design of the default order 5, with cutoffs
   normalised by the Nyquist frequency.
   */
  function DriverFilterbank(signal: seq<real>, fs: int,
                            apply: (Design, seq<real>) -> seq<real>): (filtered: seq<seq<real>>)
    requires fs > 0
    ensures |filtered| == 3
    ensures filtered[0] == apply(Design(1.0 / Nyquist(fs), 200.0 / Nyquist(fs), 5), signal)
    ensures filtered[1] == apply(Design(200.0 / Nyquist(fs), 400.0 / Nyquist(fs), 5), signal)
    ensures filtered[2] == apply(Design(400.0 / Nyquist(fs), 800.0 / Nyquist(fs), 5), signal)
  {
    CreateFilterbank(signal, fs, GetScheirerBands(fs), DefaultOrder, apply)
  }

  /** Number of half-window taps used by the driver's default envelope. */
  function DefaultHalfWindow(fs: int): nat
    requires fs > 0
  {
    HalfWindowLength(DefaultWindowLength, fs)
  }

  /**
   The default 0.4 s window has at least one half-window tap exactly when
   the sample rate is at least 5 Hz.
   */
  lemma DefaultHalfWindowNonEmptyIff(fs: int)
    requires fs > 0
    ensures DefaultHalfWindow(fs) >= 1 <==> fs >= 5
  {
    HalfWindowLengthBounds(DefaultWindowLength, fs);
  }

  /**
   A band whose envelope and diff-rect are defined: the band is not empty,
   and with an empty half window it has at least two samples, so that the
   envelope (one sample shorter in that case) is not empty either.
   */
  predicate OnsetDefined(bandLength: nat, w: nat)
  {
    bandLength >= 1 && (w >= 1 || bandLength >= 2)
  }

  /**
   One band's onset signal: its envelope with the default window, then that
   envelope's diff-rect. The result is as long as the envelope and never
   negative.
   */
  function BandOnset(band: seq<real>, fs: int, hann: seq<real>): (onset: seq<real>)
    requires fs > 0
    requires |hann| == 2 * DefaultHalfWindow(fs)
    requires OnsetDefined(|band|, DefaultHalfWindow(fs))
    ensures |onset| == |GetEnvelope(band, fs, DefaultWindowLength, hann)|
    ensures NonNegative(onset)
  {
    var w := DefaultHalfWindow(fs);
    assert ConvolutionLength(|band|, w) >= 1;
    var envelope := GetEnvelope(band, fs, DefaultWindowLength, hann);
    assert |envelope| >= 1;
    DiffRect(envelope, fs)
  }

  /**
   Lines 52-57 of the driver: each filtered band, in order, becomes its
   onset signal.
   */
  function BandOnsets(filtered: seq<seq<real>>, fs: int, hann: seq<real>): (onsets: seq<seq<real>>)
    requires fs > 0
    requires |hann| == 2 * DefaultHalfWindow(fs)
    requires forall b :: 0 <= b < |filtered| ==> OnsetDefined(|filtered[b]|, DefaultHalfWindow(fs))
    ensures |onsets| == |filtered|
    ensures forall b :: 0 <= b < |filtered| ==> onsets[b] == BandOnset(filtered[b], fs, hann)
  {
    if |filtered| == 0 then []
    else [BandOnset(filtered[0], fs, hann)] + BandOnsets(filtered[1..], fs, hann)
  }

  /**
   A positive onset sample of a band marks exactly a rise of that band's
   envelope: the onset stage keeps the rises and drops everything else.
   */
  lemma BandOnsetMarksEnvelopeRises(band: seq<real>, fs: int, hann: seq<real>, i: int)
    requires fs > 0
    requires |hann| == 2 * DefaultHalfWindow(fs)
    requires OnsetDefined(|band|, DefaultHalfWindow(fs))
    requires 0 <= i < |BandOnset(band, fs, hann)|
    ensures var envelope := GetEnvelope(band, fs, DefaultWindowLength, hann);
            BandOnset(band, fs, hann)[i] > 0.0 <==> i >= 1 && envelope[i] > envelope[i - 1]
  {
    var envelope := GetEnvelope(band, fs, DefaultWindowLength, hann);
    OnsetIffRise(envelope, fs, i);
  }

  /**
   At sample rates of 5 Hz and above every non-empty band can be analysed,
   and its onset signal is exactly as long as the band and starts with a
   zero sample.
   */
  lemma BandOnsetsPreserveLength(filtered: seq<seq<real>>, fs: int, hann: seq<real>)
    requires fs >= 5
    requires |hann| == 2 * DefaultHalfWindow(fs)
    requires forall b :: 0 <= b < |filtered| ==> |filtered[b]| >= 1
    ensures forall b :: 0 <= b < |filtered| ==> OnsetDefined(|filtered[b]|, DefaultHalfWindow(fs))
    ensures forall b :: 0 <= b < |filtered| ==>
              |BandOnsets(filtered, fs, hann)[b]| == |filtered[b]| &&
              BandOnsets(filtered, fs, hann)[b][0] == 0.0
  {
    DefaultHalfWindowNonEmptyIff(fs);
  }

  /** A silent band has a silent onset signal. */
  lemma SilentBandHasNoOnsets(filtered: seq<seq<real>>, fs: int, hann: seq<real>, b: int)
    requires fs > 0
    requires |hann| == 2 * DefaultHalfWindow(fs)
    requires forall c :: 0 <= c < |filtered| ==> OnsetDefined(|filtered[c]|, DefaultHalfWindow(fs))
    requires 0 <= b < |filtered| && AllZero(filtered[b])
    ensures AllZero(BandOnsets(filtered, fs, hann)[b])
  {
    assert OnsetDefined(|filtered[b]|, DefaultHalfWindow(fs));
    var envelope := GetEnvelope(filtered[b], fs, DefaultWindowLength, hann);
    EnvelopeOfSilence(filtered[b], fs, DefaultWindowLength, hann);
    ConstantHasNoOnsets(envelope, fs);
  }
}
