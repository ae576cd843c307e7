/**
 The band-pass filterbank and the channel selection of the audio reader
 (`filterbank_module.py`).

 Butterworth design and `lfilter` are numerical-library code: a designed
 filter is described by its normalised cutoffs and its order, and applying it
 is the parameter `apply`, about which nothing is assumed beyond what a lemma
 states in its own precondition.
 */
module Filterbank {

  /** Default Butterworth order. */
  const DefaultOrder: int := 5

  /** A pass band in Hz, `(lowcut, highcut)`. */
  datatype Band = Band(low: real, high: real)

  /** What `butter(order, [low, high], btype='band')` is asked to design. */
  datatype Design = Design(low: real, high: real, order: int)

  /** Half the sample rate. */
  function Nyquist(fs: int): real
  {
    0.5 * fs as real
  }

  /**
   `butter_bandpass`: both cutoffs are divided by the Nyquist frequency and
   handed, with the order, to the filter design. Multiplying back by the
   Nyquist frequency recovers the cutoffs in Hz.
   */
  function ButterBandpass(lowcut: real, highcut: real, fs: int, order: int): (d: Design)
    requires fs > 0
    ensures d.low * Nyquist(fs) == lowcut && d.high * Nyquist(fs) == highcut
    ensures d.order == order
  {
    Design(lowcut / Nyquist(fs), highcut / Nyquist(fs), order)
  }

  /**
   Normalisation keeps the cutoffs in order and maps the Nyquist frequency
   itself to 1.
   */
  lemma NormalisationPreservesOrder(lowcut: real, highcut: real, fs: int, order: int)
    requires fs > 0
    ensures lowcut < highcut <==>
              ButterBandpass(lowcut, highcut, fs, order).low < ButterBandpass(lowcut, highcut, fs, order).high
    ensures lowcut == Nyquist(fs) ==> ButterBandpass(lowcut, highcut, fs, order).low == 1.0
    ensures highcut == Nyquist(fs) ==> ButterBandpass(lowcut, highcut, fs, order).high == 1.0
  {
    DivisionPreservesOrder(lowcut, highcut, Nyquist(fs));
  }

  lemma ScaleStrict(a: real, b: real, c: real)
    requires c > 0.0 && a < b
    ensures a * c < b * c
  {
  }

  lemma DivisionPreservesOrder(a: real, b: real, c: real)
    requires c > 0.0
    ensures a < b <==> a / c < b / c
  {
    var qa, qb := a / c, b / c;
    assert qa * c == a && qb * c == b;
    if qa < qb {
      ScaleStrict(qa, qb, c);
    }
    if a < b && qb < qa {
      ScaleStrict(qb, qa, c);
    }
  }

  /** `bandpass_filter`: design the band's filter, then apply it to the data. */
  function BandpassFilter(
    data: seq<real>, lowcut: real, highcut: real, fs: int, order: int,
    apply: (Design, seq<real>) -> seq<real>): (y: seq<real>)
    requires fs > 0
    ensures exists d: Design ::
              && d.order == order
              && d.low * Nyquist(fs) == lowcut && d.high * Nyquist(fs) == highcut
              && y == apply(d, data)
  {
    apply(ButterBandpass(lowcut, highcut, fs, order), data)
  }

  /**
   `create_filterbank`: one filtered signal per band, in band order, each the
   whole input filtered by that band's design with the same order.
   */
  function CreateFilterbank(
    signal: seq<real>, fs: int, bands: seq<Band>, order: int,
    apply: (Design, seq<real>) -> seq<real>): (filtered: seq<seq<real>>)
    requires fs > 0
    ensures |filtered| == |bands|
    ensures forall i :: 0 <= i < |bands| ==>
              filtered[i] == apply(Design(bands[i].low / Nyquist(fs), bands[i].high / Nyquist(fs), order), signal)
  {
    if |bands| == 0 then []
    else
      [BandpassFilter(signal, bands[0].low, bands[0].high, fs, order, apply)]
        + CreateFilterbank(signal, fs, bands[1..], order, apply)
  }

  /** A length-preserving filter yields band signals as long as the input. */
  lemma FilterbankPreservesLength(
    signal: seq<real>, fs: int, bands: seq<Band>, order: int,
    apply: (Design, seq<real>) -> seq<real>)
    requires fs > 0
    requires forall d: Design, x: seq<real> :: |apply(d, x)| == |x|
    ensures forall i :: 0 <= i < |bands| ==> |CreateFilterbank(signal, fs, bands, order, apply)[i]| == |signal|
  {
  }

  /**
   Every band is designed with the order given to the filterbank: the i-th
   signal is the filter whose design, multiplied back by the Nyquist
   frequency, has exactly the cutoffs of the i-th band.
   */
  lemma FilterbankDesignsMatchBands(
    signal: seq<real>, fs: int, bands: seq<Band>, order: int,
    apply: (Design, seq<real>) -> seq<real>, i: int)
    requires fs > 0 && 0 <= i < |bands|
    ensures exists d: Design ::
              && d.order == order
              && d.low * Nyquist(fs) == bands[i].low
              && d.high * Nyquist(fs) == bands[i].high
              && CreateFilterbank(signal, fs, bands, order, apply)[i] == apply(d, signal)
  {
    var d := ButterBandpass(bands[i].low, bands[i].high, fs, order);
    assert CreateFilterbank(signal, fs, bands, order, apply)[i] == apply(d, signal);
  }

  /** The decoded samples and the frame rate, as `read_mp3` returns them. */
  datatype Audio = Audio(samples: seq<int>, fs: int)

  /**
   The channel step of `read_mp3`: an interleaved two-channel buffer keeps
   its first channel (the even positions); any other channel count is
   returned as decoded. The frame rate passes through. A two-channel buffer
   of odd length cannot be reshaped into pairs, so the source fails on it.
   */
  function SelectChannel(data: seq<int>, channels: int, frameRate: int): (a: Audio)
    requires channels == 2 ==> |data| % 2 == 0
    ensures a.fs == frameRate
    ensures channels != 2 ==> a.samples == data
    ensures channels == 2 ==> |a.samples| * 2 == |data|
    ensures channels == 2 ==> forall i :: 0 <= i < |a.samples| ==> a.samples[i] == data[2 * i]
  {
    if channels == 2 then Audio(FirstOfPairs(data), frameRate) else Audio(data, frameRate)
  }

  /** `data.reshape((-1, 2))[:, 0]`. */
  function FirstOfPairs(data: seq<int>): (r: seq<int>)
    requires |data| % 2 == 0
    ensures |r| * 2 == |data|
    ensures forall i :: 0 <= i < |r| ==> r[i] == data[2 * i]
  {
    if |data| == 0 then [] else [data[0]] + FirstOfPairs(data[2..])
  }

  /** Interleave two equally long channels, left sample first. */
  function Interleave(left: seq<int>, right: seq<int>): (r: seq<int>)
    requires |left| == |right|
    ensures |r| == 2 * |left|
  {
    if |left| == 0 then [] else [left[0], right[0]] + Interleave(left[1..], right[1..])
  }

  /** Selecting the first channel of an interleaved stereo buffer recovers the left channel. */
  lemma {:induction false} SelectChannelRecoversLeft(left: seq<int>, right: seq<int>, frameRate: int)
    requires |left| == |right|
    ensures SelectChannel(Interleave(left, right), 2, frameRate) == Audio(left, frameRate)
  {
    if |left| > 0 {
      var whole := Interleave(left, right);
      assert whole[2..] == Interleave(left[1..], right[1..]);
      SelectChannelRecoversLeft(left[1..], right[1..], frameRate);
      assert FirstOfPairs(whole) == [left[0]] + FirstOfPairs(whole[2..]);
      assert left == [left[0]] + left[1..];
    }
  }
}
