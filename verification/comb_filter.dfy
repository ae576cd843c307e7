/**
 Comb-filter tempo energies (`comb_filter_module.py`).

 A comb filter for a tempo is a train of unit impulses one beat period apart.
 The energy of a tempo is the sum of squares of the circular convolution of
 the onset signal with that comb, both fitted to one shared transform length.
 */
module CombFilter {
  import opened Signal
  import opened Arith

  /** Default number of impulses per comb filter. */
  const DefaultNumImpulses: int := 3

  /**
   Beat period in samples, `int(fs * 60 / tempo)`: the quotient truncated
   toward zero (its floor, since it is positive), never rounded and never
   clamped to 1.
   */
  function Period(fs: int, tempo: real): (p: int)
    requires fs > 0 && tempo > 0.0
    ensures p >= 0
    ensures p as real <= (fs * 60) as real / tempo < p as real + 1.0
  {
    QuotientNonNegative((fs * 60) as real, tempo);
    ((fs * 60) as real / tempo).Floor
  }

  lemma QuotientNonNegative(a: real, b: real)
    requires a >= 0.0 && b > 0.0
    ensures a / b >= 0.0
  {
  }

  /** Dividing a non-negative amount by a larger divisor gives a smaller quotient. */
  lemma QuotientAntitone(a: real, b1: real, b2: real)
    requires a >= 0.0 && 0.0 < b1 <= b2
    ensures a / b2 <= a / b1
  {
    var q1, q2 := a / b1, a / b2;
    assert q1 * b1 == a && q2 * b2 == a;
    if q1 < q2 {
      assert q1 * b1 < q2 * b1;
      assert q2 * b1 <= q2 * b2;
    }
  }

  /** A faster tempo never has a longer period. */
  lemma PeriodAntitone(fs: int, t1: real, t2: real)
    requires fs > 0 && 0.0 < t1 <= t2
    ensures Period(fs, t2) <= Period(fs, t1)
  {
    QuotientAntitone((fs * 60) as real, t1, t2);
  }

  lemma QuotientAtLeastOne(a: real, t: real)
    requires 0.0 < t <= a
    ensures a / t >= 1.0
  {
    var q := a / t;
    assert q * t == a;
  }

  lemma QuotientBelowOne(a: real, t: real)
    requires 0.0 <= a < t
    ensures a / t < 1.0
  {
    var q := a / t;
    assert q * t == a;
  }

  /**
   The period is at least one sample exactly when the tempo is at most
   60 * fs beats per minute; above that the source's slice step is zero.
   */
  lemma PeriodPositiveIff(fs: int, tempo: real)
    requires fs > 0 && tempo > 0.0
    ensures Period(fs, tempo) >= 1 <==> tempo <= (fs * 60) as real
  {
    var a := (fs * 60) as real;
    if tempo <= a {
      QuotientAtLeastOne(a, tempo);
    } else {
      QuotientBelowOne(a, tempo);
    }
  }

  /**
   `a[start::step] = v`: every position start, start + step, start + 2 * step,
   ... below |a| is set to v and every other position is kept.
   */
  function AssignStride(a: seq<real>, start: nat, step: nat, v: real): (r: seq<real>)
    requires step >= 1
    ensures |r| == |a|
    ensures forall j :: 0 <= j < |a| ==>
              r[j] == (if start <= j && (j - start) % step == 0 then v else a[j])
    decreases |a| - start
  {
    if start >= |a| then a
    else
      var r := AssignStride(a[start := v], start + step, step, v);
      assert forall j :: 0 <= j < |a| ==>
               r[j] == (if start <= j && (j - start) % step == 0 then v else a[j]) by {
        forall j | 0 <= j < |a|
          ensures r[j] == (if start <= j && (j - start) % step == 0 then v else a[j])
        {
          if start + step <= j {
            ModShift(j - start - step, step);
          } else if start < j {
            DivModUnique(j - start, step, 0, j - start);
          }
        }
      }
      r
  }

  /**
   A train of numImpulses unit impulses spaced period samples apart, stated
   index by index: a one wherever the index is a multiple of the period.
   */
  function ImpulseTrain(period: nat, numImpulses: nat): (comb: seq<real>)
    requires period >= 1 && numImpulses >= 1
    ensures |comb| == period * (numImpulses - 1) + 1
  {
    seq(period * (numImpulses - 1) + 1, j => if j % period == 0 then 1.0 else 0.0)
  }

  /**
   `create_comb_filter`: `np.zeros(period * (numImpulses - 1) + 1)` followed
   by `[::period] = 1`; the result is the impulse train of the tempo's
   period. The source fails when the period is zero (a zero slice step) or
   the length is negative, hence the preconditions.
   */
  function CreateCombFilter(fs: int, tempo: real, numImpulses: int): (comb: seq<real>)
    requires fs > 0 && tempo > 0.0 && numImpulses >= 1
    requires Period(fs, tempo) >= 1
    ensures |comb| == Period(fs, tempo) * (numImpulses - 1) + 1
    ensures comb == ImpulseTrain(Period(fs, tempo), numImpulses)
  {
    var p := Period(fs, tempo);
    var comb := AssignStride(Zeros(p * (numImpulses - 1) + 1), 0, p, 1.0);
    assert forall j :: 0 <= j < |comb| ==> comb[j] == ImpulseTrain(p, numImpulses)[j];
    comb
  }

  /** Number of unit impulses in a signal. */
  function CountImpulses(s: seq<real>): nat
  {
    if |s| == 0 then 0 else CountImpulses(s[..|s| - 1]) + (if s[|s| - 1] == 1.0 then 1 else 0)
  }

  lemma {:induction false} CountImpulsesAppend(a: seq<real>, b: seq<real>)
    ensures CountImpulses(a + b) == CountImpulses(a) + CountImpulses(b)
  {
    if |b| == 0 {
      assert a + b == a;
    } else {
      assert (a + b)[..|a + b| - 1] == a + b[..|b| - 1];
      CountImpulsesAppend(a, b[..|b| - 1]);
    }
  }

  lemma {:induction false} CountImpulsesOfSilence(n: nat)
    ensures CountImpulses(Zeros(n)) == 0
  {
    if n > 0 {
      assert Zeros(n)[..n - 1] == Zeros(n - 1);
      CountImpulsesOfSilence(n - 1);
    }
  }

  /** Adding one impulse to a train appends period - 1 zeros and a one. */
  lemma ImpulseTrainGrows(period: nat, k: nat)
    requires period >= 1 && k >= 1
    ensures ImpulseTrain(period, k + 1) == ImpulseTrain(period, k) + Zeros(period - 1) + [1.0]
  {
    var longer, shorter := ImpulseTrain(period, k + 1), ImpulseTrain(period, k);
    var rhs := shorter + Zeros(period - 1) + [1.0];
    assert |longer| == |rhs| by {
      assert period * k == period * (k - 1) + period;
    }
    var base := period * (k - 1) + 1;
    forall j | 0 <= j < |longer|
      ensures longer[j] == rhs[j]
    {
      if j >= base {
        var r := j - period * (k - 1);
        assert j == (k - 1) * period + r;
        if r < period {
          MultipleMod(k - 1, r, period);
        } else {
          assert r == period;
          assert j == k * period + 0;
          MultipleMod(k, 0, period);
        }
      }
    }
  }

  /** A comb built with numImpulses impulses holds exactly that many. */
  lemma {:induction false} ImpulseTrainCount(period: nat, k: nat)
    requires period >= 1 && k >= 1
    ensures CountImpulses(ImpulseTrain(period, k)) == k
  {
    if k == 1 {
      assert ImpulseTrain(period, 1) == [1.0];
      assert [1.0][..0] == [];
    } else {
      var shorter := ImpulseTrain(period, k - 1);
      var gap := Zeros(period - 1);
      ImpulseTrainCount(period, k - 1);
      ImpulseTrainGrows(period, k - 1);
      assert CountImpulses([1.0]) == 1 by {
        assert [1.0][..0] == [];
      }
      assert CountImpulses(gap) == 0 by {
        CountImpulsesOfSilence(period - 1);
      }
      CountImpulsesAppend(shorter, gap);
      CountImpulsesAppend(shorter + gap, [1.0]);
    }
  }

  /**
   Where the impulses of a train sit: a one at m * period for every
   m < numImpulses, and nothing anywhere else.
   */
  lemma ImpulseTrainPositions(period: nat, k: nat)
    requires period >= 1 && k >= 1
    ensures forall m :: 0 <= m < k ==>
              m * period < |ImpulseTrain(period, k)| && ImpulseTrain(period, k)[m * period] == 1.0
    ensures forall j :: 0 <= j < |ImpulseTrain(period, k)| && ImpulseTrain(period, k)[j] != 0.0 ==>
              j == (j / period) * period && j / period < k
  {
    var comb := ImpulseTrain(period, k);
    forall m | 0 <= m < k
      ensures m * period < |comb| && comb[m * period] == 1.0
    {
      MulMonotone(k - 1, m, period);
      MultipleMod(m, 0, period);
    }
    forall j | 0 <= j < |comb| && comb[j] != 0.0
      ensures j == (j / period) * period && j / period < k
    {
      assert j % period == 0;
      if j / period >= k {
        MulMonotone(j / period, k, period);
      }
    }
  }

  /**
   With the default of three impulses the comb is one, p - 1 zeros, one,
   p - 1 zeros, one: taps at 0, p and 2p and nowhere else.
   */
  lemma DefaultCombShape(fs: int, tempo: real)
    requires fs > 0 && tempo > 0.0 && Period(fs, tempo) >= 1
    ensures var p := Period(fs, tempo);
            CreateCombFilter(fs, tempo, DefaultNumImpulses)
              == [1.0] + Zeros(p - 1) + [1.0] + Zeros(p - 1) + [1.0]
  {
    var p := Period(fs, tempo);
    var comb := CreateCombFilter(fs, tempo, DefaultNumImpulses);
    var shape := [1.0] + Zeros(p - 1) + [1.0] + Zeros(p - 1) + [1.0];
    assert |comb| == |shape| == 2 * p + 1;
    forall j | 0 <= j < |comb|
      ensures comb[j] == shape[j]
    {
      assert comb[j] == (if j % p == 0 then 1.0 else 0.0);
      if j < p {
        MultipleMod(0, j, p);
      } else if j < 2 * p {
        MultipleMod(1, j - p, p);
      } else {
        MultipleMod(2, 0, p);
      }
    }
  }

  /**
   The impulses of a comb filter: a one at m * period for every
   m < numImpulses and zero elsewhere, so the first and last samples are
   impulses and there are exactly numImpulses of them.
   */
  lemma CombImpulses(fs: int, tempo: real, numImpulses: int)
    requires fs > 0 && tempo > 0.0 && numImpulses >= 1
    requires Period(fs, tempo) >= 1
    ensures forall m :: 0 <= m < numImpulses ==>
              m * Period(fs, tempo) < |CreateCombFilter(fs, tempo, numImpulses)| &&
              CreateCombFilter(fs, tempo, numImpulses)[m * Period(fs, tempo)] == 1.0
    ensures forall j :: 0 <= j < |CreateCombFilter(fs, tempo, numImpulses)| ==>
              (CreateCombFilter(fs, tempo, numImpulses)[j] == 1.0 <==> j % Period(fs, tempo) == 0)
    ensures forall j :: 0 <= j < |CreateCombFilter(fs, tempo, numImpulses)| ==>
              (CreateCombFilter(fs, tempo, numImpulses)[j] == 0.0 <==> j % Period(fs, tempo) != 0)
    ensures CreateCombFilter(fs, tempo, numImpulses)[0] == 1.0
    ensures CreateCombFilter(fs, tempo, numImpulses)[|CreateCombFilter(fs, tempo, numImpulses)| - 1] == 1.0
    ensures CountImpulses(CreateCombFilter(fs, tempo, numImpulses)) == numImpulses
  {
    var p := Period(fs, tempo);
    ImpulseTrainPositions(p, numImpulses);
    ImpulseTrainCount(p, numImpulses);
    assert (numImpulses - 1) * p == p * (numImpulses - 1);
  }

  /** Smallest tempo of a non-empty tempo range, `tempos.min()`. */
  function MinTempo(tempos: seq<real>): (m: real)
    requires |tempos| >= 1
    ensures m in tempos
    ensures forall i :: 0 <= i < |tempos| ==> m <= tempos[i]
  {
    if |tempos| == 1 then tempos[0]
    else
      var rest := MinTempo(tempos[1..]);
      if tempos[0] <= rest then tempos[0] else rest
  }

  predicate ValidTempos(fs: int, tempos: seq<real>)
    requires fs > 0
  {
    forall i :: 0 <= i < |tempos| ==> tempos[i] > 0.0 && Period(fs, tempos[i]) >= 1
  }

  /**
   The shared transform length N = L + max(period(min tempo), L) used for
   every tempo of the range.
   */
  function TransformLength(signalLength: nat, fs: int, tempos: seq<real>): (n: nat)
    requires fs > 0 && |tempos| >= 1 && ValidTempos(fs, tempos)
    ensures n >= 2 * signalLength && n >= signalLength + Period(fs, MinTempo(tempos))
    ensures n == 2 * signalLength || n == signalLength + Period(fs, MinTempo(tempos))
  {
    var longest := Period(fs, MinTempo(tempos));
    signalLength + (if longest >= signalLength then longest else signalLength)
  }

  /**
   The minimum tempo has the largest period of the range, and the transform
   length leaves room for the signal plus that period: N >= L + period(t)
   for every tempo t, and N >= 2 * L.
   */
  lemma TransformLengthCoversPeriods(signalLength: nat, fs: int, tempos: seq<real>)
    requires fs > 0 && |tempos| >= 1 && ValidTempos(fs, tempos)
    ensures forall i :: 0 <= i < |tempos| ==> Period(fs, tempos[i]) <= Period(fs, MinTempo(tempos))
    ensures forall i :: 0 <= i < |tempos| ==>
              signalLength + Period(fs, tempos[i]) <= TransformLength(signalLength, fs, tempos)
    ensures 2 * signalLength <= TransformLength(signalLength, fs, tempos)
    ensures TransformLength(signalLength, fs, tempos) >= 1
  {
    var lo := MinTempo(tempos);
    forall i | 0 <= i < |tempos|
      ensures Period(fs, tempos[i]) <= Period(fs, lo)
    {
      PeriodAntitone(fs, lo, tempos[i]);
    }
  }

  /**
   Energy of one tempo: sum of squares of `real(ifft(fft(x, n) * fft(comb, n)))`,
   i.e. of the length-n circular convolution of the zero-padded signal and the
   zero-padded or truncated comb.
   */
  function TempoEnergy(signal: seq<real>, comb: seq<real>, n: nat): real
    requires n >= 1
  {
    SumOfSquares(CircularConvolution(Fit(signal, n), Fit(comb, n)))
  }

  /** An energy is a sum of squares, hence never negative. */
  lemma TempoEnergyNonNegative(signal: seq<real>, comb: seq<real>, n: nat)
    requires n >= 1
    ensures TempoEnergy(signal, comb, n) >= 0.0
  {
    SumOfSquaresNonNegative(CircularConvolution(Fit(signal, n), Fit(comb, n)));
  }

  /**
   `analyze_tempo`: one energy per tempo, in the order of the range. The
   source fails on an empty range (`tempos.min()`) and on a tempo whose
   period truncates to zero, hence the preconditions.
   */
  method AnalyzeTempo(signal: seq<real>, fs: int, tempos: seq<real>, numImpulses: int)
    returns (energies: seq<real>)
    requires fs > 0 && numImpulses >= 1 && |tempos| >= 1
    requires ValidTempos(fs, tempos)
    ensures |energies| == |tempos|
    ensures forall i :: 0 <= i < |tempos| ==> energies[i] >= 0.0
    ensures forall i {:trigger energies[i]} :: 0 <= i < |tempos| ==>
              energies[i] == TempoEnergy(signal, CreateCombFilter(fs, tempos[i], numImpulses),
                                         TransformLength(|signal|, fs, tempos))
  {
    var n := TransformLength(|signal|, fs, tempos);
    assert n >= 1 by {
      TransformLengthCoversPeriods(|signal|, fs, tempos);
    }
    energies := [];
    var i := 0;
    while i < |tempos|
      invariant 0 <= i <= |tempos|
      invariant |energies| == i
      invariant forall j :: 0 <= j < i ==> energies[j] >= 0.0
      invariant forall j {:trigger energies[j]} :: 0 <= j < i ==>
                  energies[j] == TempoEnergy(signal, CreateCombFilter(fs, tempos[j], numImpulses), n)
    {
      var comb := CreateCombFilter(fs, tempos[i], numImpulses);
      var energy := TempoEnergy(signal, comb, n);
      TempoEnergyNonNegative(signal, comb, n);
      energies := energies + [energy];
      i := i + 1;
    }
  }

  /**
   The first m echoes of x at sample i, one period apart:
   x[i] + x[i - p] + ... + x[i - (m - 1) * p], indices taken modulo |x|.
   */
  function Echoes(x: seq<real>, i: int, p: nat, m: nat): real
    requires |x| > 0
  {
    if m == 0 then 0.0 else Echoes(x, i, p, m - 1) + x[(i - (m - 1) * p) % |x|]
  }

  /** Number of multiples of p in [0, d). */
  function MultiplesBelow(d: nat, p: nat): nat
    requires p >= 1
  {
    (d + p - 1) / p
  }

  lemma MultiplesBelowStep(d: nat, p: nat)
    requires p >= 1
    ensures d % p == 0 ==> MultiplesBelow(d, p) == d / p && MultiplesBelow(d + 1, p) == d / p + 1
    ensures d % p != 0 ==> MultiplesBelow(d + 1, p) == MultiplesBelow(d, p)
  {
    var q, r := d / p, d % p;
    if r == 0 {
      DivModUnique(d + p - 1, p, q, p - 1);
      DivModUnique(d + p, p, q + 1, 0);
    } else {
      DivModUnique(d + p - 1, p, q + 1, r - 1);
      DivModUnique(d + p, p, q + 1, r);
    }
  }

  /** A span that holds the whole comb holds all of its impulses. */
  lemma MultiplesBelowCoversComb(n: nat, p: nat, k: nat)
    requires p >= 1 && k >= 1 && n >= p * (k - 1) + 1
    ensures MultiplesBelow(n, p) >= k
  {
    var q, r := (n + p - 1) / p, (n + p - 1) % p;
    if q < k {
      MulMonotone(k - 1, q, p);
    }
  }

  /**
   The partial sums of a circular convolution with a comb of k impulses
   (truncated to the transform) pick up one echo of x per impulse passed.
   */
  lemma {:induction false} ConvPartialWithComb(
    x: seq<real>, h: seq<real>, p: nat, k: nat, i: int, d: nat)
    requires 0 < |x| && |x| == |h| && p >= 1 && k >= 1 && d <= |h|
    requires forall j :: 0 <= j < |h| ==>
               h[j] == (if j < p * (k - 1) + 1 && j % p == 0 then 1.0 else 0.0)
    ensures ConvPartial(x, h, i, d) == Echoes(x, i, p, Min(k, MultiplesBelow(d, p)))
  {
    if d > 0 {
      var e := d - 1;
      ConvPartialWithComb(x, h, p, k, i, e);
      CombTap(p, k, e);
      EchoStep(x, i, p, k, e);
      var tap := e % p == 0 && e / p < k;
      assert h[e] == (if tap then 1.0 else 0.0);
      assert ConvPartial(x, h, i, d) == ConvPartial(x, h, i, e) + h[e] * x[(i - e) % |x|];
    }
  }

  /** Passing sample e adds one echo exactly when e is one of the first k multiples of p. */
  lemma EchoStep(x: seq<real>, i: int, p: nat, k: nat, e: nat)
    requires |x| > 0 && p >= 1 && k >= 1
    ensures Echoes(x, i, p, Min(k, MultiplesBelow(e + 1, p)))
              == Echoes(x, i, p, Min(k, MultiplesBelow(e, p)))
                 + (if e % p == 0 && e / p < k then x[(i - e) % |x|] else 0.0)
  {
    MultiplesBelowStep(e, p);
    if e % p == 0 && e / p < k {
      var q := e / p;
      assert e == q * p;
      assert Echoes(x, i, p, q + 1) == Echoes(x, i, p, q) + x[(i - q * p) % |x|];
    }
  }

  /** Tap e of a comb of k impulses is one exactly at the multiples m * p with m < k. */
  lemma CombTap(p: nat, k: nat, e: nat)
    requires p >= 1 && k >= 1
    ensures (e < p * (k - 1) + 1 && e % p == 0) <==> (e % p == 0 && e / p < k)
  {
    if e % p == 0 {
      var q := e / p;
      if q < k {
        MulMonotone(k - 1, q, p);
        assert (k - 1) * p == p * (k - 1);
      } else {
        MulMonotone(q, k, p);
        assert k * p == p * (k - 1) + p;
      }
    }
  }

  /**
   Each sample of the convolution that `analyze_tempo` squares is the sum of
   delayed copies of the signal, one beat period apart: one copy per impulse
   of the comb that fits in the transform, hence all numImpulses of them when
   the transform is at least as long as the comb.
   */
  lemma CombConvolutionIsEchoSum(
    signal: seq<real>, fs: int, tempo: real, numImpulses: int, n: nat, i: int)
    requires fs > 0 && tempo > 0.0 && numImpulses >= 1 && Period(fs, tempo) >= 1
    requires n >= 1 && 0 <= i < n
    ensures CircularConvolution(Fit(signal, n), Fit(CreateCombFilter(fs, tempo, numImpulses), n))[i]
              == Echoes(Fit(signal, n), i, Period(fs, tempo),
                        Min(numImpulses, MultiplesBelow(n, Period(fs, tempo))))
    ensures n >= |CreateCombFilter(fs, tempo, numImpulses)| ==>
              Min(numImpulses, MultiplesBelow(n, Period(fs, tempo))) == numImpulses
  {
    var p := Period(fs, tempo);
    var comb := CreateCombFilter(fs, tempo, numImpulses);
    var h := Fit(comb, n);
    assert forall j :: 0 <= j < |h| ==>
             h[j] == (if j < p * (numImpulses - 1) + 1 && j % p == 0 then 1.0 else 0.0);
    ConvPartialWithComb(Fit(signal, n), h, p, numImpulses, i, n);
    if n >= |comb| {
      MultiplesBelowCoversComb(n, p, numImpulses);
    }
  }

  /**
   The energy of a tempo, stated without transforms: the sum over the n
   transform samples of the squared echo sum of the zero-padded signal.
   */
  lemma TempoEnergyOfEchoes(signal: seq<real>, fs: int, tempo: real, numImpulses: int, n: nat)
    requires fs > 0 && tempo > 0.0 && numImpulses >= 1 && Period(fs, tempo) >= 1
    requires n >= 1
    ensures var p := Period(fs, tempo);
            var x := Fit(signal, n);
            TempoEnergy(signal, CreateCombFilter(fs, tempo, numImpulses), n)
              == SumOfSquares(seq(n, i requires 0 <= i < n =>
                                    Echoes(x, i, p, Min(numImpulses, MultiplesBelow(n, p)))))
  {
    var p := Period(fs, tempo);
    var x := Fit(signal, n);
    var c := CircularConvolution(x, Fit(CreateCombFilter(fs, tempo, numImpulses), n));
    var echoes := seq(n, i requires 0 <= i < n => Echoes(x, i, p, Min(numImpulses, MultiplesBelow(n, p))));
    forall i | 0 <= i < n
      ensures c[i] == echoes[i]
    {
      CombConvolutionIsEchoSum(signal, fs, tempo, numImpulses, n, i);
    }
    assert c == echoes;
  }

  /** A silent onset signal has zero energy at every tempo. */
  lemma SilenceHasNoTempoEnergy(signal: seq<real>, comb: seq<real>, n: nat)
    requires n >= 1 && AllZero(signal)
    ensures TempoEnergy(signal, comb, n) == 0.0
  {
    var x := Fit(signal, n);
    ConvolutionOfSilence(x, Fit(comb, n));
    SumOfSquaresOfSilence(CircularConvolution(x, Fit(comb, n)));
  }
}
