/** The arithmetic the comparison plots do before drawing: the normalising
    factor that scales a locally computed impedance onto the reference
    impedance (`norm`, `norm_x`, `norm_y`), and the horizontal window of the
    wake-potential overlays (`xlim`). */
module Display {
  import opened Series

  /** The display scale of a locally computed series `candidate` against the
      reference series `reference`: `max(reference)/max(candidate)` when
      normalisation is on, exactly 1.0 when it is off (then neither series
      is inspected). */
  function NormFactor(reference: seq<real>, candidate: seq<real>, normalize: bool): (r: Result<real, PlotError>)
    ensures !normalize ==> r == Success(1.0)
    ensures normalize && (reference == [] || candidate == []) ==> r == Failure(EmptySequence)
    ensures normalize && reference != [] && candidate != [] ==>
              (r.Success? <==> MaxOf(candidate) != 0.0)
    ensures normalize && reference != [] && candidate != [] && MaxOf(candidate) == 0.0 ==>
              r == Failure(DivisionByZero)
    ensures normalize && r.Success? ==> r.value * MaxOf(candidate) == MaxOf(reference)
  {
    if !normalize then Success(1.0)
    else if reference == [] || candidate == [] then Failure(EmptySequence)
    else if MaxOf(candidate) == 0.0 then Failure(DivisionByZero)
    else Success(MaxOf(reference) / MaxOf(candidate))
  }

  /** The transverse plot's pair `norm_x`, `norm_y`: the horizontal factor is
      computed first, so its failure is the one reported. */
  function TransverseNormFactors(zxRef: seq<real>, zx: seq<real>, zyRef: seq<real>, zy: seq<real>,
                                 normalize: bool): (r: Result<(real, real), PlotError>)
    ensures !normalize ==> r == Success((1.0, 1.0))
    ensures r.Success? <==> NormFactor(zxRef, zx, normalize).Success? && NormFactor(zyRef, zy, normalize).Success?
    ensures NormFactor(zxRef, zx, normalize).Failure? ==> r == Failure(NormFactor(zxRef, zx, normalize).error)
    ensures NormFactor(zxRef, zx, normalize).Success? && NormFactor(zyRef, zy, normalize).Failure? ==>
              r == Failure(NormFactor(zyRef, zy, normalize).error)
    ensures r.Success? && normalize ==>
              r.value.0 * MaxOf(zx) == MaxOf(zxRef) && r.value.1 * MaxOf(zy) == MaxOf(zyRef)
  {
    match NormFactor(zxRef, zx, normalize)
    case Failure(e) => Failure(e)
    case Success(nx) =>
      match NormFactor(zyRef, zy, normalize)
      case Failure(e) => Failure(e)
      case Success(ny) => Success((nx, ny))
  }

  /** With normalisation on, the marker at the local peak `Z[ifmax]*norm` is
      drawn at the height of the reference peak `Z_cst[np.argmax(Z_cst)]`. */
  lemma PeaksAlign(reference: seq<real>, candidate: seq<real>, norm: real)
    requires NormFactor(reference, candidate, true) == Success(norm)
    ensures candidate[PeakIndex(candidate)] * norm == reference[PeakIndex(reference)]
    ensures candidate[PeakIndex(candidate)] * norm == MaxOf(reference)
  {
  }

  /** When both peaks are positive the factor is positive, so the scaled
      curve `Z*norm` still peaks at `np.argmax(Z)`, and that peak is the
      reference peak. */
  lemma ScaledCurvePeaksAtReference(reference: seq<real>, candidate: seq<real>, norm: real)
    requires NormFactor(reference, candidate, true) == Success(norm)
    requires MaxOf(reference) > 0.0 && MaxOf(candidate) > 0.0
    ensures norm > 0.0
    ensures PeakIndex(Scaled(candidate, norm)) == PeakIndex(candidate)
    ensures Scaled(candidate, norm)[PeakIndex(candidate)] == MaxOf(reference)
  {
    QuotientPositive(MaxOf(reference), MaxOf(candidate));
    PeakIndexScaled(candidate, norm);
    PeaksAlign(reference, candidate, norm);
    ScaledPeakValue(candidate, norm, MaxOf(reference));
  }

  /** Solver step: the ratio of two positive reals is positive. */
  lemma QuotientPositive(a: real, b: real)
    requires a > 0.0 && b > 0.0
    ensures a / b > 0.0
  {
  }

  /** Solver step: the scaled series at the peak index is the scaled peak. */
  lemma ScaledPeakValue(s: seq<real>, c: real, target: real)
    requires s != [] && s[PeakIndex(s)] * c == target
    ensures Scaled(s, c)[PeakIndex(s)] == target
  {
  }

  /** The smaller of two reals: `np.amin((a, b))`. */
  function Min2(a: real, b: real): (m: real)
    ensures m <= a && m <= b
    ensures m == a || m == b
  {
    if a <= b then a else b
  }

  /** The horizontal window (in millimetres) of a wake-potential overlay of
      the local positions `s` and the reference positions `sRef` (both in
      metres): from the smallest local position to the smaller of the two
      largest positions, so the window never runs past the end of either
      curve. Evaluated even when no reference curve is drawn. */
  function OverlayXLimits(s: seq<real>, sRef: seq<real>): (r: Result<(real, real), PlotError>)
    ensures r.Failure? <==> s == [] || sRef == []
    ensures r.Failure? ==> r.error == EmptySequence
    ensures r.Success? ==> r.value.0 in Millimetres(s)
    ensures r.Success? ==> r.value.1 <= MaxOf(Millimetres(s)) && r.value.1 <= MaxOf(Millimetres(sRef))
    ensures r.Success? ==> r.value.1 == MaxOf(Millimetres(s)) || r.value.1 == MaxOf(Millimetres(sRef))
  {
    if s == [] || sRef == [] then Failure(EmptySequence)
    else
      var mm, mmRef := Millimetres(s), Millimetres(sRef);
      Success((MinOf(mm), Min2(MaxOf(mm), MaxOf(mmRef))))
  }

  /** The window in terms of the positions in metres. */
  lemma OverlayXLimitsInMetres(s: seq<real>, sRef: seq<real>)
    requires s != [] && sRef != []
    ensures OverlayXLimits(s, sRef) == Success((MinOf(s) * 1000.0, Min2(MaxOf(s), MaxOf(sRef)) * 1000.0))
  {
    var mm, mmRef := Millimetres(s), Millimetres(sRef);
    assert OverlayXLimits(s, sRef) == Success((MinOf(mm), Min2(MaxOf(mm), MaxOf(mmRef))));
    assert MinOf(mm) == MinOf(s) * 1000.0 by { MinOfMillimetres(s); }
    assert MaxOf(mm) == MaxOf(s) * 1000.0 by { MaxOfMillimetres(s); }
    assert MaxOf(mmRef) == MaxOf(sRef) * 1000.0 by { MaxOfMillimetres(sRef); }
    Min2Millimetres(MaxOf(s), MaxOf(sRef));
  }

  /** Solver step: converting both arguments to millimetres commutes with
      taking the smaller. */
  lemma Min2Millimetres(a: real, b: real)
    ensures Min2(a * 1000.0, b * 1000.0) == Min2(a, b) * 1000.0
  {
  }

  /** The window is a proper interval exactly when the reference curve does
      not end before the local one starts. */
  lemma OverlayWindowOrdered(s: seq<real>, sRef: seq<real>)
    requires s != [] && sRef != []
    ensures OverlayXLimits(s, sRef).value.0 <= OverlayXLimits(s, sRef).value.1 <==> MinOf(s) <= MaxOf(sRef)
  {
    OverlayXLimitsInMetres(s, sRef);
  }

  /** Positions 0..3 mm against reference positions 0..2 mm: the window is
      [0, 2] mm. */
  lemma OverlayExample()
    ensures OverlayXLimits([0.0, 0.001, 0.002, 0.003], [0.0, 0.001, 0.002]) == Success((0.0, 2.0))
  {
    var s, sRef := [0.0, 0.001, 0.002, 0.003], [0.0, 0.001, 0.002];
    OverlayXLimitsInMetres(s, sRef);
    assert MinOf(s) == 0.0 by { MinOfIsBound(s, 0); }
    assert MaxOf(s) == 0.003 by { MaxOfIsBound(s, 3); }
    assert MaxOf(sRef) == 0.002 by { MaxOfIsBound(sRef, 2); }
  }

  /** A reference peak of 10 against a local peak of 5 scales by 2; an
      all-zero local series cannot be normalised. */
  lemma NormFactorExamples()
    ensures NormFactor([1.0, 2.0, 10.0], [1.0, 2.0, 5.0], true) == Success(2.0)
    ensures NormFactor([1.0, 2.0, 10.0], [0.0, 0.0, 0.0], true) == Failure(DivisionByZero)
    ensures NormFactor([], [0.0, 0.0, 0.0], false) == Success(1.0)
  {
  }
}
