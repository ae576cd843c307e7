# Scheirer-style tempo estimation, modelled in Dafny

The modelled system estimates the tempo of a piece of music in five stages:

1. a band-pass filterbank splits the signal into frequency bands;
2. each band's envelope is taken (full-wave rectification, then smoothing by the first half of a Hann window, computed in the frequency domain);
3. onsets are emphasised by a first difference followed by half-wave rectification ("diff-rect");
4. every candidate tempo gets an energy: the onset signal is convolved with a comb of unit impulses one beat period apart, and the energy is the sum of squares of the result;
5. the bands' energy curves are added up, and the tempo at the first maximum of the total is the fundamental tempo.

The project models the computational core of each stage over exact `real` arithmetic, with one Dafny module per source file:

- `Signal` (`signal.dfy`): shared definitions.
  - Sums and sums of squares.
  - Zero-padding/truncation of a signal to a transform length, as `fft(x, n=N)` does.
  - The circular convolution of length N. This is the exact value of `real(ifft(fft(x, N) * fft(h, N)))`.
- `Arith` (`arith.dfy`): facts about Euclidean division that the index arithmetic needs.
- `OnsetEmphasis` (`diff_rect.dfy`): `diff_rect`.
- `CombFilter` (`comb_filter.dfy`):
  - the beat period;
  - `create_comb_filter`;
  - the shared transform length;
  - `analyze_tempo`;
  - a transform-free reference for each tempo energy, as a sum of period-spaced echoes of the signal.
- `Envelope` (`envelope.dfy`): `get_envelope`, proved equal to the truncated linear convolution of the rectified signal with the half window.
- `Filterbank` (`filterbank.dfy`):
  - cutoff normalisation;
  - band-ordered filtering;
  - the channel selection of `read_mp3`.
- `PlotHandler` (`plot_handler.dfy`):
  - `safe_basename`;
  - the pure part of `save_plots`: the total energy curve, the first-maximum tempo, and the two figure paths.
- `RythmDetection` (`rythm_detection.dfy`): the Scheirer band list, the driver's filterbank call with its default order, and the per-band envelope-then-diff-rect composition of the driver.

Four behaviours of the code shape the model:

- **Bands.** Three bands are active: 1-200, 200-400 and 400-800 Hz. The 800-1600, 1600-3200 and 3200 Hz-to-Nyquist bands are commented out (`rythm_detection.py` lines 16-18). No band is checked against the Nyquist frequency.
- **Period.** The period is `int(fs * 60 / tempo)`. It is truncated, not rounded, and not clamped to 1. A tempo above `60 * fs` therefore gives a zero slice step, which fails.
- **Half window.** The half window is `int(window_length * fs) // 2` taps and is not clamped to 1. With zero taps the envelope is one sample shorter than its input, and all zeros.
- **Energies.** Each tempo's energy is the sum of squares of an inverse transform. The shared transform length is `L + max(period(min tempo), L)`, where L is the length of the onset signal.

Failure paths that the source does not handle are modelled as preconditions:

- `diff_rect` on an empty envelope fails on `signal[0]`.
- With the default three impulses every non-positive tempo fails in `create_comb_filter`:
  - a tempo of zero fails: in the division for a Python number, or in `int(inf)` for a NumPy scalar;
  - a tempo below −60·fs truncates the period to 0, a zero slice step;
  - any other negative tempo gives a negative `np.zeros` length.

  `Period` and `CreateCombFilter` therefore require `fs > 0` and `tempo > 0`.
- A sample rate of zero makes `butter_bandpass` divide by zero. `ButterBandpass` requires `fs > 0`.
- A window with window_length·fs ≤ −1 gives a negative half window, and `get_window` fails. `GetEnvelope` and `HalfWindowLength` require `window_length >= 0` and `fs > 0`.
- `tempos.min()` fails on an empty range.
- A transform length below one sample fails.
- An odd-length stereo buffer fails in `reshape`.
- `argmax` fails on an empty curve.

Three of these preconditions also exclude inputs the source accepts:
- In `get_envelope`, −1 < window_length·fs < 0 and fs = 0 both truncate to w = 0. These inputs then behave as a zero-length window.
- In `create_comb_filter`, a tempo in [−60·fs, 0) with one impulse succeeds and gives the comb `[1]`. With two impulses, a tempo in [−60·fs, −30·fs), whose period truncates to −1, gives an empty comb.

The driver reaches none of these: it passes the 0.4 s default window and a positive frame rate.

## Model

| member | source | states |
|---|---|---|
| Signal.Fit | code/python_implementation/comb_filter_module.py:46 | `fft(x, n=N)`'s input: N samples, x[i] below \|x\| and 0 beyond |
| Signal.CircularConvolution | code/python_implementation/comb_filter_module.py:46-52 | one sample per transform bin; its values are stated by ConvolutionNonNegative, CircularMatchesLinear and CombConvolutionIsEchoSum |
| Signal.ConvolutionNonNegative | code/python_implementation/envelope_module.py:28-31 | the circular convolution of non-negative signals is non-negative |
| OnsetEmphasis.DiffRect | code/python_implementation/diff_rect_module.py:17-20 | one onset sample per envelope sample; the first is 0; sample i ≥ 1 is max(env[i] − env[i−1], 0); all non-negative; an empty envelope is excluded, as the source fails on `signal[0]` |
| OnsetEmphasis.OnsetIffRise | code/python_implementation/diff_rect_module.py:17-20 | an onset sample is positive exactly when the envelope rises there |
| OnsetEmphasis.ConstantHasNoOnsets | code/python_implementation/diff_rect_module.py:17-20 | a constant envelope gives an all-zero onset signal |
| OnsetEmphasis.SampleRateUnused | code/python_implementation/diff_rect_module.py:5-22 | the result is the same for every sample rate |
| OnsetEmphasis.OnsetsBoundNetRise | code/python_implementation/diff_rect_module.py:17-20 | the running sum of onsets up to i is at least env[i] − env[0] |
| OnsetEmphasis.RunningSumRebuildsRisingEnvelope | code/python_implementation/diff_rect_module.py:17-20 | for a non-decreasing envelope, env[0] plus the running sum of onsets rebuilds env[i] exactly (nothing is lost) |
| CombFilter.Period | code/python_implementation/comb_filter_module.py:18 | the period is the truncation of 60·fs/tempo: a non-negative integer p with p ≤ 60·fs/tempo < p + 1 |
| CombFilter.PeriodAntitone | code/python_implementation/comb_filter_module.py:18 | a faster tempo never has a longer period |
| CombFilter.PeriodPositiveIff | code/python_implementation/comb_filter_module.py:18-20 | the period is at least one sample iff tempo ≤ 60·fs; otherwise the slice step is zero |
| CombFilter.AssignStride | code/python_implementation/comb_filter_module.py:20 | strided assignment `a[start::step] = v` sets exactly the positions start + m·step and keeps the rest |
| CombFilter.CreateCombFilter | code/python_implementation/comb_filter_module.py:18-21 | zeros of length period·(k−1)+1 with `[::period] = 1` give exactly the impulse train: one at every multiple of the period, zero elsewhere; requires period ≥ 1 and k ≥ 1 |
| CombFilter.ImpulseTrainCount | code/python_implementation/comb_filter_module.py:19-20 | an impulse train of k impulses holds exactly k ones |
| CombFilter.CombImpulses | code/python_implementation/comb_filter_module.py:18-20 | ones at m·period for every m < k; entry is 1 iff j mod period = 0 and 0 iff not; first and last entries are 1; exactly k ones |
| CombFilter.DefaultCombShape | code/python_implementation/comb_filter_module.py:6-21 | with the default three impulses the comb is 1, p − 1 zeros, 1, p − 1 zeros, 1: length 2p + 1 |
| CombFilter.MinTempo | code/python_implementation/comb_filter_module.py:37 | `tempos.min()` is an element of the range and at most every element |
| CombFilter.TransformLength | code/python_implementation/comb_filter_module.py:37 | N = L + max(period(min tempo), L): at least 2L and at least L + period(min tempo), and equal to one of them; the all-tempos bound is TransformLengthCoversPeriods |
| CombFilter.TransformLengthCoversPeriods | code/python_implementation/comb_filter_module.py:37 | the minimum tempo has the longest period; N ≥ L + period(t) for every tempo t, N ≥ 2L, N ≥ 1 |
| CombFilter.TempoEnergy | code/python_implementation/comb_filter_module.py:43-55 | no contract of its own: TempoEnergyOfEchoes states it as a transform-free sum of squared echo sums, and TempoEnergyNonNegative bounds it below by 0 |
| CombFilter.AnalyzeTempo | code/python_implementation/comb_filter_module.py:23-58 | one energy per tempo in range order; each is the sum of squares of the length-N circular convolution of the fitted signal and comb; all ≥ 0 |
| CombFilter.ConvPartialWithComb | code/python_implementation/comb_filter_module.py:46-52 | convolving with a (possibly truncated) comb adds one period-spaced echo of the signal per impulse passed |
| CombFilter.CombConvolutionIsEchoSum | code/python_implementation/comb_filter_module.py:43-52 | each convolved sample is the sum of the signal's echoes one period apart, one per impulse that fits in the transform; all k when N is at least the comb length |
| CombFilter.TempoEnergyOfEchoes | code/python_implementation/comb_filter_module.py:43-56 | the energy of a tempo equals the sum of squared echo sums, with no transform involved |
| CombFilter.TempoEnergyNonNegative | code/python_implementation/comb_filter_module.py:55 | every tempo energy, a sum of squares, is ≥ 0 |
| CombFilter.SilenceHasNoTempoEnergy | code/python_implementation/comb_filter_module.py:49-55 | a silent onset signal has zero energy at every tempo |
| Envelope.Rectify | code/python_implementation/envelope_module.py:20 | rectification keeps the length; each sample is x[i] or −x[i], and never negative, so it is \|x[i]\| |
| Envelope.HalfWindowLength | code/python_implementation/envelope_module.py:23 | w = int(window·fs) // 2: 2w ≤ floor(window·fs) and window·fs < 2w + 2 |
| Envelope.HalfWindowLengthBounds | code/python_implementation/envelope_module.py:23 | the half window is empty (w = 0) exactly when window·fs < 2 |
| Envelope.ConvolutionLength | code/python_implementation/envelope_module.py:28 | no contract of its own: CircularTailVanishes shows a transform of L + w − 1 samples has no wrap-around, and EnvelopeIsTruncatedLinearConvolution uses it |
| Envelope.GetEnvelope | code/python_implementation/envelope_module.py:7-35 | with w ≥ 1 the envelope is as long as the input; with w = 0 it is one sample shorter (no clamp) |
| Envelope.EnvelopeIsTruncatedLinearConvolution | code/python_implementation/envelope_module.py:25-34 | env[i] = Σ_{k ≤ min(i, w−1)} half[k]·\|x[i−k]\|: the first L samples of the full linear convolution |
| Envelope.CircularMatchesLinear | code/python_implementation/envelope_module.py:28-31 | below sample i the circular sum of the padded signals equals the linear sum term by term |
| Envelope.CircularTailVanishes | code/python_implementation/envelope_module.py:28-31 | with transform length L + w − 1 the circular sum has no wrap-around contribution |
| Envelope.EnvelopeNonNegative | code/python_implementation/envelope_module.py:20-34 | with non-negative window taps every envelope sample is ≥ 0 |
| Envelope.EnvelopeOfSilence | code/python_implementation/envelope_module.py:20-34 | an all-zero input gives an all-zero envelope |
| Envelope.DegenerateWindowEnvelope | code/python_implementation/envelope_module.py:23-34 | with zero half-window taps the envelope is L − 1 zeros |
| Filterbank.ButterBandpass | code/python_implementation/filterbank_module.py:5-10 | the normalised cutoffs times the Nyquist frequency give back the cutoffs in Hz; the order is passed unchanged |
| Filterbank.NormalisationPreservesOrder | code/python_implementation/filterbank_module.py:6-8 | lowcut < highcut iff the normalised cutoffs are in the same order; a cutoff at Nyquist maps to 1 |
| Filterbank.BandpassFilter | code/python_implementation/filterbank_module.py:12-15 | the data goes through a design of the given order whose normalised cutoffs rescale to lowcut and highcut |
| Filterbank.CreateFilterbank | code/python_implementation/filterbank_module.py:12-22 | one signal per band, in band order; the i-th is the i-th band's design applied to the whole input, with the common order |
| Filterbank.FilterbankPreservesLength | code/python_implementation/filterbank_module.py:17-22 | a length-preserving filter gives band signals as long as the input |
| Filterbank.FilterbankDesignsMatchBands | code/python_implementation/filterbank_module.py:12-22 | the i-th signal comes from a design with the given order whose cutoffs rescale to the i-th band |
| Filterbank.SelectChannel | code/python_implementation/filterbank_module.py:26-30 | stereo keeps the even-indexed samples and halves the length; any other channel count passes unchanged; fs is the frame rate |
| Filterbank.FirstOfPairs | code/python_implementation/filterbank_module.py:28-29 | reshaping into pairs and keeping column 0 keeps sample 2i at position i |
| Filterbank.SelectChannelRecoversLeft | code/python_implementation/filterbank_module.py:27-29 | selecting from an interleaved left/right buffer returns exactly the left channel |
| PlotHandler.LastIndexOf | code/python_implementation/plot_handler.py:12 | the last position of a character, or −1 when it is absent |
| PlotHandler.Basename | code/python_implementation/plot_handler.py:12 | the basename has no '/' and is the suffix of the path after a '/' or the whole path |
| PlotHandler.SplitExtRoot | code/python_implementation/plot_handler.py:12 | the root is a prefix of the path; an extension is stripped exactly when the last component has a '.' preceded there by a non-dot character, and then the root ends at the last '.' |
| PlotHandler.Sanitize | code/python_implementation/plot_handler.py:13 | one output character per input character: safe ones kept, others replaced by '_'; all output characters safe |
| PlotHandler.SafeBasename | code/python_implementation/plot_handler.py:11-13 | the safe name has one character per character of the splitext root of the basename, and every character is an ASCII letter, digit, '-' or '_' |
| PlotHandler.SafeBasenameShape | code/python_implementation/plot_handler.py:11-13 | the safe name has one character per character of the stem, keeps the safe ones, replaces the rest by '_', and holds only safe characters |
| PlotHandler.SafeBasenameIdempotent | code/python_implementation/plot_handler.py:11-13 | applying safe_basename twice equals applying it once |
| PlotHandler.SanitizeFixesSafe | code/python_implementation/plot_handler.py:13 | a string of safe characters is unchanged by sanitising |
| PlotHandler.Join | code/python_implementation/plot_handler.py:82-83 | `os.path.join`: an absolute name replaces the directory; otherwise the result is directory + name, with '/' inserted only when the directory is non-empty and lacks a trailing one |
| PlotHandler.JoinKeepsDirectory | code/python_implementation/plot_handler.py:82-83 | a relative name is appended: the joined path starts with the directory, ends with the name, and adds at most one character between them |
| PlotHandler.JoinBasename | code/python_implementation/plot_handler.py:82-83 | the base name of a joined path is the name joined, for any non-empty name without '/'; the figure file names survive the join |
| PlotHandler.TotalEnergies | code/python_implementation/plot_handler.py:45-47 | the total has one entry per tempo; entry i is the sum over bands of their i-th energies |
| PlotHandler.TotalNonNegative | code/python_implementation/plot_handler.py:45-47 | non-negative band energies give a non-negative total |
| PlotHandler.ArgMax | code/python_implementation/plot_handler.py:78 | `np.argmax` returns the first index of the maximum |
| PlotHandler.FirstMaxUnique | code/python_implementation/plot_handler.py:78 | the first maximum is unique |
| PlotHandler.FlatCurveSelectsFirst | code/python_implementation/plot_handler.py:78 | a flat curve selects index 0 |
| PlotHandler.SavePlots | code/python_implementation/plot_handler.py:16-101 | the fundamental tempo is the tempo at the first maximum of the total; the figures are results_dir/<safe base>_analysis.png and _total.png |
| PlotHandler.FigurePathsInResultsDir | code/python_implementation/plot_handler.py:81-83 | both figure paths are the results directory, a separator when needed, then the safe base name and suffix |
| PlotHandler.SafeNameJoinsRelative | code/python_implementation/plot_handler.py:81-83 | a safe name followed by a suffix starting with '_' is never absolute, so joining it keeps the directory in front |
| PlotHandler.SilenceSelectsFirstTempo | code/python_implementation/plot_handler.py:45-78 | all-zero band energies select the first tempo of the range |
| RythmDetection.GetScheirerBands | code/python_implementation/rythm_detection.py:10-19 | exactly three bands, 0 < low < high, contiguous, from 1 Hz to 800 Hz |
| RythmDetection.ScheirerBandsIgnoreSampleRate | code/python_implementation/rythm_detection.py:10-19 | the band list does not depend on the sample rate |
| RythmDetection.ScheirerBandsBelowNyquistIff | code/python_implementation/rythm_detection.py:11-19 | all bands lie below Nyquist iff fs > 1600; `get_scheirer_bands` does not check it |
| RythmDetection.DriverFilterbank | code/python_implementation/rythm_detection.py:35-38 | the driver's filterbank yields three signals, from designs of the default order 5 with cutoffs 1/200, 200/400 and 400/800 Hz over the Nyquist frequency |
| RythmDetection.DefaultHalfWindowNonEmptyIff | code/python_implementation/rythm_detection.py:54 | the default 0.4 s window has at least one tap iff fs ≥ 5 |
| RythmDetection.BandOnset | code/python_implementation/rythm_detection.py:54-57 | a band's onset signal is as long as its envelope and non-negative |
| RythmDetection.BandOnsets | code/python_implementation/rythm_detection.py:52-57 | one onset signal per filtered band, in band order, each the diff-rect of that band's envelope |
| RythmDetection.BandOnsetMarksEnvelopeRises | code/python_implementation/rythm_detection.py:54-57 | a band's onset sample is positive iff its envelope rises there |
| RythmDetection.BandOnsetsPreserveLength | code/python_implementation/rythm_detection.py:52-57 | at fs ≥ 5 every non-empty band is analysable, and its onset signal is exactly as long and starts at 0 |
| RythmDetection.SilentBandHasNoOnsets | code/python_implementation/rythm_detection.py:52-57 | a silent band gives an all-zero onset signal |

## Left out

- File loop, plotting and console output are left out:
  - MP3 decoding;
  - figure drawing and saving, and `os.makedirs`;
  - the `print` lines;
  - the hard-coded file loop of the driver.
- The GUI and subprocess code are left out. They hold no tempo logic.
- The experimental `filterbank.py` is not part of this model. It is unused by the pipeline.
- The Butterworth design and `lfilter` are numerical-library code. Applying a designed filter is a function parameter, and a lemma states the one property it needs (length preservation) as its own precondition.
- The Hann window's cosine values are a parameter `hann` of 2w taps. Envelope non-negativity assumes non-negative taps as a lemma precondition.
- Floating-point rounding is not modelled. Signals are exact reals, so the FFT round trip is an exact circular convolution, with no small negative artifacts. `int()` of a non-negative quotient is modelled as its floor.
- Filterbank.SelectChannel: samples are unbounded integers, so sample width and the exact NumPy dtype are not modelled.
- PlotHandler.IsAlnum: only ASCII letters and digits count as alphanumeric. Python's `str.isalnum` also accepts other Unicode letters and digits.
- PlotHandler.Basename, PlotHandler.SplitExtRoot, PlotHandler.Join: follow the POSIX `os.path` functions (`posixpath.basename`, `posixpath.splitext`, `posixpath.join`; '/' is the only separator). Windows drive letters and backslashes are not modelled.
- PlotHandler.SavePlots: the element-wise sum requires every band curve to be as long as the tempo range. NumPy broadcasting of a length-1 curve is not modelled.
- CombFilter.CreateCombFilter: an impulse count below 1 is excluded by precondition. In the source, zero impulses give an array of length 1 − period. That length is negative, and fails, for period ≥ 2. It is an empty comb for period 1.
- Filterbank.ButterBandpass: the design library rejects normalised cutoffs outside (0, 1) and a low cutoff not below the high one; this rejection is not modelled, and the source itself validates nothing. In particular the driver fails inside `create_filterbank` at fs ≤ 1600, where the 800 Hz cutoff reaches the Nyquist frequency, while `RythmDetection.DriverFilterbank` still returns three signals there.
- The original signal and time axis passed to `save_plots` only feed the plots, and are left out.

