/**
 The computational part of `plot_handler.py`: the file-name sanitiser, the
 cross-band total energy, the first-maximum tempo selection and the names of
 the two figure files. Drawing and saving the figures is left out.
 */
module PlotHandler {
  import opened Signal

  // ---------------------------------------------------------------------
  // Paths
  // ---------------------------------------------------------------------

  /** Position of the last occurrence of c in s, or -1 (`str.rfind`). */
  function LastIndexOf(s: string, c: char): (k: int)
    ensures -1 <= k < |s|
    ensures k >= 0 ==> s[k] == c
    ensures forall j :: k < j < |s| ==> s[j] != c
  {
    if |s| == 0 then -1
    else if s[|s| - 1] == c then |s| - 1
    else LastIndexOf(s[..|s| - 1], c)
  }

  /** `os.path.basename`: everything after the last '/'. */
  function Basename(path: string): (b: string)
    ensures '/' !in b
    ensures exists k :: 0 <= k <= |path| && b == path[k..] && (k == 0 || path[k - 1] == '/')
  {
    var k := LastIndexOf(path, '/') + 1;
    assert forall j :: 0 <= j < |path[k..]| ==> path[k..][j] == path[k + j];
    path[k..]
  }

  /**
   Whether some character in [lo, hi) of s is not a dot: the loop of
   `splitext` that skips the leading dots of a file name.
   */
  function HasNonDot(s: string, lo: int, hi: int): (found: bool)
    requires 0 <= lo && hi <= |s|
    ensures found <==> exists j :: lo <= j < hi && s[j] != '.'
    decreases hi - lo
  {
    if lo >= hi then false
    else if s[lo] != '.' then true
    else HasNonDot(s, lo + 1, hi)
  }

  /**
   The root of `os.path.splitext`: the text before the last '.', provided
   that dot lies in the last path component and is preceded there by some
   character other than a dot; otherwise the whole path.
   */
  function SplitExtRoot(p: string): (root: string)
    ensures |root| <= |p| && root == p[..|root|]
    ensures root != p ==> p[|root|] == '.' && '.' !in p[|root| + 1..] && '/' !in p[|root| + 1..]
    ensures root != p <==> HasExtension(p)
  {
    var sep := LastIndexOf(p, '/');
    var dot := LastIndexOf(p, '.');
    if dot > sep && HasNonDot(p, sep + 1, dot) then
      ExtensionWitness(p, sep, dot);
      p[..dot]
    else
      NoExtension(p, sep, dot);
      p
  }

  /**
   The last path component has an extension: it holds a '.' preceded, within
   the component, by some character other than '.'.
   */
  ghost predicate HasExtension(p: string)
  {
    exists d, j :: 0 <= j < d < |p| && p[d] == '.' && p[j] != '.' && NoSlashFrom(p, j)
  }

  /** No '/' at or after position j. */
  predicate NoSlashFrom(p: string, j: int)
  {
    forall x :: 0 <= x < |p| && j <= x ==> p[x] != '/'
  }

  lemma ExtensionWitness(p: string, sep: int, dot: int)
    requires sep == LastIndexOf(p, '/') && dot == LastIndexOf(p, '.')
    requires dot > sep && HasNonDot(p, sep + 1, dot)
    ensures HasExtension(p)
  {
    var j :| sep + 1 <= j < dot && p[j] != '.';
    assert NoSlashFrom(p, j);
  }

  lemma NoExtension(p: string, sep: int, dot: int)
    requires sep == LastIndexOf(p, '/') && dot == LastIndexOf(p, '.')
    requires !(dot > sep && HasNonDot(p, sep + 1, dot))
    ensures !HasExtension(p)
  {
  }

  predicate IsAlnum(c: char)
  {
    ('a' <= c <= 'z') || ('A' <= c <= 'Z') || ('0' <= c <= '9')
  }

  /** Characters a sanitised base name may contain. */
  predicate IsSafe(c: char)
  {
    IsAlnum(c) || c == '-' || c == '_'
  }

  /** Character-wise replacement of every unsafe character by '_'. */
  function Sanitize(s: string): (r: string)
    ensures |r| == |s|
    ensures forall i :: 0 <= i < |s| ==> r[i] == (if IsSafe(s[i]) then s[i] else '_')
    ensures forall i :: 0 <= i < |r| ==> IsSafe(r[i])
  {
    if |s| == 0 then ""
    else [if IsSafe(s[0]) then s[0] else '_'] + Sanitize(s[1..])
  }

  /** `safe_basename`: the file name without directory or extension, sanitised. */
  function SafeBasename(path: string): (b: string)
    ensures |b| == |SplitExtRoot(Basename(path))|
    ensures forall i :: 0 <= i < |b| ==> IsSafe(b[i])
  {
    Sanitize(SplitExtRoot(Basename(path)))
  }

  /**
   The safe base name holds only ASCII letters, digits, '-' and '_', has one
   character per character of the stem, keeps the safe ones and replaces the
   rest by '_'.
   */
  lemma SafeBasenameShape(path: string)
    ensures var stem := SplitExtRoot(Basename(path));
            && |SafeBasename(path)| == |stem|
            && (forall i :: 0 <= i < |stem| ==>
                  SafeBasename(path)[i] == (if IsSafe(stem[i]) then stem[i] else '_'))
            && (forall i :: 0 <= i < |SafeBasename(path)| ==> IsSafe(SafeBasename(path)[i]))
  {
    var stem := SplitExtRoot(Basename(path));
    var r := Sanitize(stem);
    assert SafeBasename(path) == r;
  }

  lemma BasenameWithoutSlash(s: string)
    requires '/' !in s
    ensures Basename(s) == s
  {
    assert LastIndexOf(s, '/') == -1;
    assert s[0..] == s;
  }

  lemma {:induction false} SanitizeFixesSafe(s: string)
    requires forall i :: 0 <= i < |s| ==> IsSafe(s[i])
    ensures Sanitize(s) == s
  {
    if |s| > 0 {
      SanitizeFixesSafe(s[1..]);
      assert s == [s[0]] + s[1..];
    }
  }

  lemma SafeHasNoSeparators(s: string)
    requires forall i :: 0 <= i < |s| ==> IsSafe(s[i])
    ensures '/' !in s && '.' !in s
  {
  }

  /** Sanitising an already safe base name changes nothing. */
  lemma SafeBasenameIdempotent(path: string)
    ensures SafeBasename(SafeBasename(path)) == SafeBasename(path)
  {
    var b := Sanitize(SplitExtRoot(Basename(path)));
    SafeHasNoSeparators(b);
    BasenameWithoutSlash(b);
    var root := SplitExtRoot(b);
    assert root == b;
    SanitizeFixesSafe(b);
  }

  /** `os.path.join(directory, name)` for two components. */
  function Join(directory: string, name: string): (p: string)
    ensures |name| > 0 && name[0] == '/' ==> p == name
    ensures ((|name| == 0 || name[0] != '/') && (|directory| == 0 || directory[|directory| - 1] == '/'))
              ==> p == directory + name
    ensures ((|name| == 0 || name[0] != '/') && |directory| > 0 && directory[|directory| - 1] != '/')
              ==> p == directory + "/" + name
  {
    if |name| > 0 && name[0] == '/' then name
    else if |directory| == 0 || directory[|directory| - 1] == '/' then directory + name
    else directory + "/" + name
  }

  /**
   A relative name is appended to the directory: the joined path starts
   with the directory and ends with the name, with at most one separator
   between them.
   */
  lemma JoinKeepsDirectory(directory: string, name: string)
    requires |name| == 0 || name[0] != '/'
    ensures var p := Join(directory, name);
            && |directory| + |name| <= |p| <= |directory| + |name| + 1
            && p[..|directory|] == directory
            && p[|p| - |name|..] == name
  {
  }

  /**
   The file name comes back out of a joined path: the base name of
   `os.path.join(directory, name)` is name, for any file name without a
   separator.
   */
  lemma JoinBasename(directory: string, name: string)
    requires |name| > 0 && '/' !in name
    ensures Basename(Join(directory, name)) == name
  {
    var p := Join(directory, name);
    var k := |p| - |name|;
    JoinKeepsDirectory(directory, name);
    assert p == p[..k] + name;
    assert forall j :: k <= j < |p| ==> p[j] == name[j - k];
    assert k > 0 ==> p[k - 1] == '/' by {
      if |directory| > 0 && directory[|directory| - 1] == '/' {
        assert p == directory + name;
      }
    }
    assert LastIndexOf(p, '/') == k - 1;
  }

  // ---------------------------------------------------------------------
  // Aggregation and selection
  // ---------------------------------------------------------------------

  /** Energies of one tempo index, one per band. */
  function Column(perBand: seq<seq<real>>, i: nat): seq<real>
    requires forall b :: 0 <= b < |perBand| ==> i < |perBand[b]|
  {
    seq(|perBand|, b requires 0 <= b < |perBand| => perBand[b][i])
  }

  predicate AllOfLength(perBand: seq<seq<real>>, n: nat)
  {
    forall b :: 0 <= b < |perBand| ==> |perBand[b]| == n
  }

  /**
   The total energy curve: start from zeros and add the bands' curves in
   order. Entry i is the sum over the bands of their i-th energies.
   */
  function TotalEnergies(perBand: seq<seq<real>>, n: nat): (total: seq<real>)
    requires AllOfLength(perBand, n)
    ensures |total| == n
    ensures forall i :: 0 <= i < n ==> total[i] == Sum(Column(perBand, i))
  {
    if |perBand| == 0 then Zeros(n)
    else
      var init := perBand[..|perBand| - 1];
      var last := perBand[|perBand| - 1];
      var sofar := TotalEnergies(init, n);
      assert forall i :: 0 <= i < n ==> Column(perBand, i)[..|perBand| - 1] == Column(init, i);
      seq(n, i requires 0 <= i < n => sofar[i] + last[i])
  }

  /** Non-negative band energies give a non-negative total. */
  lemma {:induction false} SumNonNegative(s: seq<real>)
    requires NonNegative(s)
    ensures Sum(s) >= 0.0
  {
    if |s| > 0 {
      SumNonNegative(s[..|s| - 1]);
    }
  }

  lemma TotalNonNegative(perBand: seq<seq<real>>, n: nat)
    requires AllOfLength(perBand, n)
    requires forall b :: 0 <= b < |perBand| ==> NonNegative(perBand[b])
    ensures NonNegative(TotalEnergies(perBand, n))
  {
    forall i | 0 <= i < n
      ensures TotalEnergies(perBand, n)[i] >= 0.0
    {
      SumNonNegative(Column(perBand, i));
    }
  }

  /**
   k is the first index of the maximum: nothing exceeds values[k] and
   everything before k is strictly smaller (`np.argmax` tie-break).
   */
  ghost predicate IsFirstMax(values: seq<real>, k: int)
  {
    && 0 <= k < |values|
    && (forall j :: 0 <= j < |values| ==> values[j] <= values[k])
    && (forall j :: 0 <= j < k ==> values[j] < values[k])
  }

  /** Scan from index i on, keeping the best index so far and replacing it only on a strictly larger value. */
  function ArgMaxFrom(values: seq<real>, i: nat, best: nat): (k: nat)
    requires best < i <= |values|
    requires IsFirstMax(values[..i], best)
    ensures IsFirstMax(values, k)
    decreases |values| - i
  {
    if i == |values| then
      assert values[..i] == values;
      best
    else
      var next := if values[i] > values[best] then i else best;
      assert values[..i + 1][..i] == values[..i];
      ArgMaxFrom(values, i + 1, next)
  }

  /** `np.argmax` of a non-empty curve. */
  function ArgMax(values: seq<real>): (k: nat)
    requires |values| >= 1
    ensures IsFirstMax(values, k)
  {
    ArgMaxFrom(values, 1, 0)
  }

  /** There is only one first maximum. */
  lemma FirstMaxUnique(values: seq<real>, k1: int, k2: int)
    requires IsFirstMax(values, k1) && IsFirstMax(values, k2)
    ensures k1 == k2
  {
    assert values[k1] == values[k2];
  }

  /** A flat curve, all-zero ones included, selects its first index. */
  lemma FlatCurveSelectsFirst(values: seq<real>)
    requires |values| >= 1
    requires forall j :: 0 <= j < |values| ==> values[j] == values[0]
    ensures ArgMax(values) == 0
  {
  }

  /** The three results of `save_plots`. */
  datatype Plots = Plots(analysisPath: string, totalPath: string, fundamentalTempo: real)

  /**
   The pure part of `save_plots`: the fundamental tempo is the tempo at the
   first maximum of the total energy curve, and the figures are named after
   the safe base name of the input inside the results directory. An empty
   tempo range makes the source's argmax fail, and band curves must be as
   long as the tempo range for the element-wise sum.
   */
  function SavePlots(
    inputFilename: string, tempoRange: seq<real>, perBandEnergies: seq<seq<real>>,
    resultsDir: string): (r: Plots)
    requires |tempoRange| >= 1
    requires AllOfLength(perBandEnergies, |tempoRange|)
    ensures exists k :: IsFirstMax(TotalEnergies(perBandEnergies, |tempoRange|), k)
                        && r.fundamentalTempo == tempoRange[k]
    ensures r.analysisPath == Join(resultsDir, SafeBasename(inputFilename) + "_analysis.png")
    ensures r.totalPath == Join(resultsDir, SafeBasename(inputFilename) + "_total.png")
  {
    var total := TotalEnergies(perBandEnergies, |tempoRange|);
    var k := ArgMax(total);
    var base := SafeBasename(inputFilename);
    Plots(Join(resultsDir, base + "_analysis.png"), Join(resultsDir, base + "_total.png"), tempoRange[k])
  }

  /**
   Both figure files live directly in the results directory: each path is
   the directory, a separator when needed, then the safe base name and the
   figure's suffix.
   */
  lemma FigurePathsInResultsDir(
    inputFilename: string, tempoRange: seq<real>, perBandEnergies: seq<seq<real>>, resultsDir: string)
    requires |tempoRange| >= 1
    requires AllOfLength(perBandEnergies, |tempoRange|)
    ensures var r := SavePlots(inputFilename, tempoRange, perBandEnergies, resultsDir);
            var base := SafeBasename(inputFilename);
            && (r.analysisPath == resultsDir + (base + "_analysis.png")
                || r.analysisPath == resultsDir + "/" + (base + "_analysis.png"))
            && (r.totalPath == resultsDir + (base + "_total.png")
                || r.totalPath == resultsDir + "/" + (base + "_total.png"))
  {
    var base := SafeBasename(inputFilename);
    var r := SavePlots(inputFilename, tempoRange, perBandEnergies, resultsDir);
    assert r.analysisPath == Join(resultsDir, base + "_analysis.png");
    assert r.totalPath == Join(resultsDir, base + "_total.png");
    SafeNameJoinsRelative(resultsDir, base, "_analysis.png");
    SafeNameJoinsRelative(resultsDir, base, "_total.png");
  }

  /** A safe name followed by a suffix starting with '_' is never absolute. */
  lemma SafeNameJoinsRelative(directory: string, base: string, suffix: string)
    requires forall i :: 0 <= i < |base| ==> IsSafe(base[i])
    requires |suffix| > 0 && suffix[0] == '_'
    ensures Join(directory, base + suffix) == directory + (base + suffix)
            || Join(directory, base + suffix) == directory + "/" + (base + suffix)
  {
    var name := base + suffix;
    assert name[0] != '/' by {
      if |base| > 0 {
        assert IsSafe(base[0]) && name[0] == base[0];
      } else {
        assert name[0] == suffix[0];
      }
    }
  }

  /**
   When every band reports zero energy at every tempo, as for a silent
   input, the fundamental tempo is the first tempo of the range.
   */
  lemma SilenceSelectsFirstTempo(
    inputFilename: string, tempoRange: seq<real>, perBandEnergies: seq<seq<real>>, resultsDir: string)
    requires |tempoRange| >= 1
    requires AllOfLength(perBandEnergies, |tempoRange|)
    requires forall b :: 0 <= b < |perBandEnergies| ==> AllZero(perBandEnergies[b])
    ensures SavePlots(inputFilename, tempoRange, perBandEnergies, resultsDir).fundamentalTempo == tempoRange[0]
  {
    var n := |tempoRange|;
    var total := TotalEnergies(perBandEnergies, n);
    forall i | 0 <= i < n
      ensures total[i] == 0.0
    {
      SumOfSilence(Column(perBandEnergies, i));
    }
    FlatCurveSelectsFirst(total);
    var k :| IsFirstMax(total, k)
             && SavePlots(inputFilename, tempoRange, perBandEnergies, resultsDir).fundamentalTempo == tempoRange[k];
    FirstMaxUnique(total, k, ArgMax(total));
  }

  lemma {:induction false} SumOfSilence(s: seq<real>)
    requires AllZero(s)
    ensures Sum(s) == 0.0
  {
    if |s| > 0 {
      SumOfSilence(s[..|s| - 1]);
    }
  }
}
