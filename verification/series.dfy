/** Reductions over a sampled series (a wake potential, an impedance, a
    position or frequency axis) as the plotting script uses them: the largest
    and smallest sample (Python's `max`/`min` and numpy's `np.max`), the first
    index of the largest sample (`np.argmax`), and a unit rescaling of every
    sample (`s*1.0e3`, `Z*norm`). Samples are exact reals. */
module Series {

  datatype Result<+T, +E> = Success(value: T) | Failure(error: E)

  /** Why a plot is aborted: a series with no samples has no maximum and no
      peak index; a normalisation whose candidate peak is zero divides by
      zero. */
  datatype PlotError = EmptySequence | DivisionByZero

  /** The largest sample: `max(s)` / `np.max(s)`. */
  function MaxOf(s: seq<real>): (m: real)
    requires |s| > 0
    ensures m in s
    ensures forall i :: 0 <= i < |s| ==> s[i] <= m
  {
    if |s| == 1 then s[0]
    else
      var m := MaxOf(s[..|s| - 1]);
      if s[|s| - 1] > m then s[|s| - 1] else m
  }

  /** The smallest sample: `min(s)`. */
  function MinOf(s: seq<real>): (m: real)
    requires |s| > 0
    ensures m in s
    ensures forall i :: 0 <= i < |s| ==> m <= s[i]
  {
    if |s| == 1 then s[0]
    else
      var m := MinOf(s[..|s| - 1]);
      if s[|s| - 1] < m then s[|s| - 1] else m
  }

  /** `k` is what `np.argmax` returns: an index of a maximal sample with no
      maximal sample before it. */
  ghost predicate IsFirstPeak(s: seq<real>, k: int)
  {
    && 0 <= k < |s|
    && (forall j :: 0 <= j < |s| ==> s[j] <= s[k])
    && (forall j :: 0 <= j < k ==> s[j] < s[k])
  }

  /** The index `np.argmax(s)` of a non-empty series: on ties the earliest
      maximal sample wins, because a later sample replaces the running peak
      only when it is strictly larger. */
  function PeakIndex(s: seq<real>): (k: nat)
    requires |s| > 0
    ensures IsFirstPeak(s, k)
    ensures s[k] == MaxOf(s)
  {
    if |s| == 1 then 0
    else
      var k := PeakIndex(s[..|s| - 1]);
      if s[|s| - 1] > s[k] then |s| - 1 else k
  }

  /** `np.argmax` on any series: an empty one raises instead of giving an
      index. */
  function ArgMax(s: seq<real>): (r: Result<nat, PlotError>)
    ensures r.Failure? <==> s == []
    ensures r.Failure? ==> r.error == EmptySequence
    ensures r.Success? ==> IsFirstPeak(s, r.value)
  {
    if s == [] then Failure(EmptySequence) else Success(PeakIndex(s))
  }

  /** The first peak is unique: any index meeting `np.argmax`'s description
      is the one PeakIndex returns. */
  lemma FirstPeakUnique(s: seq<real>, k: int)
    requires IsFirstPeak(s, k)
    ensures k == PeakIndex(s)
  {
  }

  /** A sample that bounds every sample is the maximum. */
  lemma MaxOfIsBound(s: seq<real>, i: int)
    requires 0 <= i < |s|
    requires forall j :: 0 <= j < |s| ==> s[j] <= s[i]
    ensures MaxOf(s) == s[i]
  {
  }

  /** A sample bounded by every sample is the minimum. */
  lemma MinOfIsBound(s: seq<real>, i: int)
    requires 0 <= i < |s|
    requires forall j :: 0 <= j < |s| ==> s[i] <= s[j]
    ensures MinOf(s) == s[i]
  {
  }

  /** Every sample multiplied by `c`: the `*1.0e3` metre-to-millimetre
      conversion and the display scaling `Z*norm`. */
  function Scaled(s: seq<real>, c: real): (r: seq<real>)
    ensures |r| == |s|
  {
    seq(|s|, i requires 0 <= i < |s| => s[i] * c)
  }

  /** Multiplying by a positive factor keeps a sample at or above the others. */
  lemma ScaledKeepsUpperBound(s: seq<real>, c: real, k: int)
    requires 0 <= k < |s| && c > 0.0
    requires forall j :: 0 <= j < |s| ==> s[j] <= s[k]
    ensures forall j :: 0 <= j < |s| ==> Scaled(s, c)[j] <= Scaled(s, c)[k]
  {
  }

  /** Multiplying by a positive factor keeps the samples before `k` strictly
      below it. */
  lemma ScaledKeepsStrictPrefix(s: seq<real>, c: real, k: int)
    requires 0 <= k < |s| && c > 0.0
    requires forall j :: 0 <= j < k ==> s[j] < s[k]
    ensures forall j :: 0 <= j < k ==> Scaled(s, c)[j] < Scaled(s, c)[k]
  {
  }

  /** The metre-to-millimetre conversion `s*1.0e3` of a position axis. */
  function Millimetres(s: seq<real>): (r: seq<real>)
    ensures |r| == |s|
    ensures forall i :: 0 <= i < |s| ==> r[i] == s[i] * 1000.0
  {
    Scaled(s, 1000.0)
  }

  /** Converting to millimetres commutes with taking the maximum: the
      largest position of `s*1.0e3` is the largest position of `s`, in
      millimetres. */
  lemma MaxOfMillimetres(s: seq<real>)
    requires |s| > 0
    ensures MaxOf(Millimetres(s)) == MaxOf(s) * 1000.0
  {
    var t := Millimetres(s);
    var m := MaxOf(s);
    var k :| 0 <= k < |s| && s[k] == m;
    forall j | 0 <= j < |s| ensures t[j] <= t[k] {
      assert s[j] <= s[k];
      assert t[j] == s[j] * 1000.0;
    }
    MaxOfIsBound(t, k);
  }

  /** Converting to millimetres commutes with taking the minimum. */
  lemma MinOfMillimetres(s: seq<real>)
    requires |s| > 0
    ensures MinOf(Millimetres(s)) == MinOf(s) * 1000.0
  {
    var t := Millimetres(s);
    var m := MinOf(s);
    var k :| 0 <= k < |s| && s[k] == m;
    forall j | 0 <= j < |s| ensures t[k] <= t[j] {
      assert s[k] <= s[j];
      assert t[j] == s[j] * 1000.0;
    }
    MinOfIsBound(t, k);
  }

  /** A positive display scale moves no peak: the marker drawn at
      `Z[np.argmax(Z)]*norm` sits on the top of the plotted curve `Z*norm`. */
  lemma PeakIndexScaled(s: seq<real>, c: real)
    requires |s| > 0 && c > 0.0
    ensures PeakIndex(Scaled(s, c)) == PeakIndex(s)
  {
    var k := PeakIndex(s);
    ScaledKeepsUpperBound(s, c, k);
    ScaledKeepsStrictPrefix(s, c, k);
    FirstPeakUnique(Scaled(s, c), k);
  }
}
