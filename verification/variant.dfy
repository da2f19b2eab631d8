/** Choice of the reference (CST) dataset that a transverse plot is compared
    with. The beam offsets of the local run decide which offset variant of
    the reference results applies: an offset of the test beam selects a
    quadrupolar variant, an offset of the source beam a dipolar one. The
    plotting script makes the choice by six unconditional `if` blocks that
    each overwrite three local variables with the reference data stored
    under a variant's keys; the model keeps the key names in their place.
    The last block whose guard holds wins. "Offset present" is an exact comparison with zero. */
module OffsetVariant {

  datatype Variant = Default | QuadX | QuadY | QuadXY | DipX | DipY | DipXY

  /** Transverse offsets (in metres) of the source beam and the test beam. */
  datatype Offsets = Offsets(xsource: real, ysource: real, xtest: real, ytest: real)

  /** The key names under which one variant's two transverse components and
      its axis are stored in the reference results. */
  datatype KeyTriple = KeyTriple(x: string, y: string, axis: string)

  predicate IsQuadrupolar(v: Variant)
  {
    v.QuadX? || v.QuadY? || v.QuadXY?
  }

  predicate IsDipolar(v: Variant)
  {
    v.DipX? || v.DipY? || v.DipXY?
  }

  /** The guard of the `if` block that assigns variant `v`'s keys; the
      default variant has no block and never fires. */
  predicate Fires(v: Variant, o: Offsets): (b: bool)
    ensures b ==> v != Default
    ensures b && IsQuadrupolar(v) ==> o.xtest != 0.0 || o.ytest != 0.0
    ensures b && IsDipolar(v) ==> o.xsource != 0.0 || o.ysource != 0.0
  {
    match v
    case Default => false
    case QuadX => o.xtest != 0.0 && o.ytest == 0.0
    case QuadY => o.xtest == 0.0 && o.ytest != 0.0
    case QuadXY => o.xtest != 0.0 && o.ytest != 0.0
    case DipX => o.xsource != 0.0 && o.ysource == 0.0
    case DipY => o.xsource == 0.0 && o.ysource != 0.0
    case DipXY => o.xsource != 0.0 && o.ysource != 0.0
  }

  /** The blocks in the order the script runs them. */
  const QuadrupolarBlocks: seq<Variant> := [QuadX, QuadY, QuadXY]
  const DipolarBlocks: seq<Variant> := [DipX, DipY, DipXY]
  const BlockOrder: seq<Variant> := QuadrupolarBlocks + DipolarBlocks

  /** Sequential overwrite: running `blocks` in order, starting from
      `current`, each block whose guard holds replaces the choice. */
  function LastFiring(blocks: seq<Variant>, o: Offsets, current: Variant): (r: Variant)
    ensures r == current || (r in blocks && Fires(r, o))
    ensures (forall i :: 0 <= i < |blocks| ==> !Fires(blocks[i], o)) ==> r == current
    ensures |blocks| > 0 && Fires(blocks[|blocks| - 1], o) ==> r == blocks[|blocks| - 1]
  {
    if blocks == [] then current
    else LastFiring(blocks[1..], o, if Fires(blocks[0], o) then blocks[0] else current)
  }

  /** The overwrite rule: the last block whose guard holds is the choice,
      whatever came before it. */
  lemma {:induction false} LastFiringWins(blocks: seq<Variant>, o: Offsets, current: Variant, i: int)
    requires 0 <= i < |blocks| && Fires(blocks[i], o)
    requires forall j :: i < j < |blocks| ==> !Fires(blocks[j], o)
    ensures LastFiring(blocks, o, current) == blocks[i]
  {
    var next := if Fires(blocks[0], o) then blocks[0] else current;
    var rest := blocks[1..];
    if i == 0 {
      forall j | 0 <= j < |rest| ensures !Fires(rest[j], o) {
        assert rest[j] == blocks[j + 1];
      }
    } else {
      forall j | i - 1 < j < |rest| ensures !Fires(rest[j], o) {
        assert rest[j] == blocks[j + 1];
      }
      LastFiringWins(rest, o, next, i - 1);
    }
  }

  /** How many of `blocks` fire for `o`. */
  function FiringCount(blocks: seq<Variant>, o: Offsets): nat
  {
    if blocks == [] then 0
    else (if Fires(blocks[0], o) then 1 else 0) + FiringCount(blocks[1..], o)
  }

  /** The selection as one prioritised match, highest priority first: a
      source offset decides (dipolar variants), otherwise a test offset
      decides (quadrupolar variants), otherwise the on-axis default. */
  function SelectVariant(o: Offsets): (v: Variant)
    ensures IsDipolar(v) <==> o.xsource != 0.0 || o.ysource != 0.0
    ensures IsQuadrupolar(v) <==> o.xsource == 0.0 && o.ysource == 0.0 && (o.xtest != 0.0 || o.ytest != 0.0)
    ensures v != Default ==> Fires(v, o)
  {
    if o.xsource != 0.0 && o.ysource != 0.0 then DipXY
    else if o.xsource == 0.0 && o.ysource != 0.0 then DipY
    else if o.xsource != 0.0 && o.ysource == 0.0 then DipX
    else if o.xtest != 0.0 && o.ytest != 0.0 then QuadXY
    else if o.xtest == 0.0 && o.ytest != 0.0 then QuadY
    else if o.xtest != 0.0 && o.ytest == 0.0 then QuadX
    else Default
  }

  /** Running a concatenation of blocks runs the first part, then the
      second from where the first left off. */
  lemma {:induction false} LastFiringAppend(a: seq<Variant>, b: seq<Variant>, o: Offsets, current: Variant)
    ensures LastFiring(a + b, o, current) == LastFiring(b, o, LastFiring(a, o, current))
  {
    if a == [] {
      assert a + b == b;
    } else {
      assert (a + b)[0] == a[0];
      assert (a + b)[1..] == a[1..] + b;
      LastFiringAppend(a[1..], b, o, if Fires(a[0], o) then a[0] else current);
    }
  }

  /** Three overwriting blocks: the last one that fires wins. */
  lemma LastFiringOfThree(u: Variant, v: Variant, w: Variant, o: Offsets, current: Variant)
    ensures LastFiring([u, v, w], o, current) ==
              if Fires(w, o) then w else if Fires(v, o) then v else if Fires(u, o) then u else current
  {
    var c1 := if Fires(u, o) then u else current;
    var c2 := if Fires(v, o) then v else c1;
    var c3 := if Fires(w, o) then w else c2;
    assert [u, v, w][1..] == [v, w];
    assert [v, w][1..] == [w];
    assert [w][1..] == [];
    assert LastFiring([w], o, c2) == LastFiring([], o, c3) == c3;
    assert LastFiring([v, w], o, c1) == LastFiring([w], o, c2);
  }

  /** The prioritised match is exactly what the six overwriting blocks
      compute. */
  lemma SelectVariantIsLastFiring(o: Offsets)
    ensures SelectVariant(o) == LastFiring(BlockOrder, o, Default)
  {
    LastFiringAppend(QuadrupolarBlocks, DipolarBlocks, o, Default);
    var q := LastFiring(QuadrupolarBlocks, o, Default);
    LastFiringOfThree(QuadX, QuadY, QuadXY, o, Default);
    LastFiringOfThree(DipX, DipY, DipXY, o, q);
  }

  /** Reference-result keys for the wake potentials `WPx`, `WPy` and their
      position axis `s`. */
  function WakeKeys(v: Variant): (k: KeyTriple)
    ensures "WPx_" <= k.x && "WPy_" <= k.y
    ensures k.axis == if IsDipolar(v) then "s_cst_dipolar"
                      else if IsQuadrupolar(v) then "s_cst_quadrupolar"
                      else "s_cst"
  {
    match v
    case Default => KeyTriple("WPx_cst", "WPy_cst", "s_cst")
    case QuadX => KeyTriple("WPx_quadrupolarX_cst", "WPy_quadrupolarX_cst", "s_cst_quadrupolar")
    case QuadY => KeyTriple("WPx_quadrupolarY_cst", "WPy_quadrupolarY_cst", "s_cst_quadrupolar")
    case QuadXY => KeyTriple("WPx_quadrupolar_cst", "WPy_quadrupolar_cst", "s_cst_quadrupolar")
    case DipX => KeyTriple("WPx_dipolarX_cst", "WPy_dipolarX_cst", "s_cst_dipolar")
    case DipY => KeyTriple("WPx_dipolarY_cst", "WPy_dipolarY_cst", "s_cst_dipolar")
    case DipXY => KeyTriple("WPx_dipolar_cst", "WPy_dipolar_cst", "s_cst_dipolar")
  }

  /** Reference-result keys for the impedances `Zx`, `Zy` and their
      frequency axis. */
  function ImpedanceKeys(v: Variant): (k: KeyTriple)
    ensures "Zx_" <= k.x && "Zy_" <= k.y
    ensures k.axis == if IsDipolar(v) then "freq_cst_dipolar"
                      else if IsQuadrupolar(v) then "freq_cst_quadrupolar"
                      else "freq_cst"
  {
    match v
    case Default => KeyTriple("Zx_cst", "Zy_cst", "freq_cst")
    case QuadX => KeyTriple("Zx_quadrupolarX_cst", "Zy_quadrupolarX_cst", "freq_cst_quadrupolar")
    case QuadY => KeyTriple("Zx_quadrupolarY_cst", "Zy_quadrupolarY_cst", "freq_cst_quadrupolar")
    case QuadXY => KeyTriple("Zx_quadrupolar_cst", "Zy_quadrupolar_cst", "freq_cst_quadrupolar")
    case DipX => KeyTriple("Zx_dipolarX_cst", "Zy_dipolarX_cst", "freq_cst_dipolar")
    case DipY => KeyTriple("Zx_dipolarY_cst", "Zy_dipolarY_cst", "freq_cst_dipolar")
    case DipXY => KeyTriple("Zx_dipolar_cst", "Zy_dipolar_cst", "freq_cst_dipolar")
  }

  /** The selection block of the transverse wake-potential plot: three local
      key names start at their defaults and are overwritten by every block
      whose guard holds. */
  method SelectWakeKeys(o: Offsets) returns (wpxKey: string, wpyKey: string, sKey: string)
    ensures KeyTriple(wpxKey, wpyKey, sKey) == WakeKeys(SelectVariant(o))
  {
    wpxKey, wpyKey, sKey := "WPx_cst", "WPy_cst", "s_cst";
    // Quadrupolar cases
    if o.xtest != 0.0 && o.ytest == 0.0 {
      wpxKey, wpyKey, sKey := "WPx_quadrupolarX_cst", "WPy_quadrupolarX_cst", "s_cst_quadrupolar";
    }
    if o.xtest == 0.0 && o.ytest != 0.0 {
      wpxKey, wpyKey, sKey := "WPx_quadrupolarY_cst", "WPy_quadrupolarY_cst", "s_cst_quadrupolar";
    }
    if o.xtest != 0.0 && o.ytest != 0.0 {
      wpxKey, wpyKey, sKey := "WPx_quadrupolar_cst", "WPy_quadrupolar_cst", "s_cst_quadrupolar";
    }
    // Dipolar cases
    if o.xsource != 0.0 && o.ysource == 0.0 {
      wpxKey, wpyKey, sKey := "WPx_dipolarX_cst", "WPy_dipolarX_cst", "s_cst_dipolar";
    }
    if o.xsource == 0.0 && o.ysource != 0.0 {
      wpxKey, wpyKey, sKey := "WPx_dipolarY_cst", "WPy_dipolarY_cst", "s_cst_dipolar";
    }
    if o.xsource != 0.0 && o.ysource != 0.0 {
      wpxKey, wpyKey, sKey := "WPx_dipolar_cst", "WPy_dipolar_cst", "s_cst_dipolar";
    }
  }

  /** The selection block of the transverse impedance plot, the same six
      guards over the impedance key names. */
  method SelectImpedanceKeys(o: Offsets) returns (zxKey: string, zyKey: string, freqKey: string)
    ensures KeyTriple(zxKey, zyKey, freqKey) == ImpedanceKeys(SelectVariant(o))
  {
    zxKey, zyKey, freqKey := "Zx_cst", "Zy_cst", "freq_cst";
    // Quadrupolar cases
    if o.xtest != 0.0 && o.ytest == 0.0 {
      zxKey, zyKey, freqKey := "Zx_quadrupolarX_cst", "Zy_quadrupolarX_cst", "freq_cst_quadrupolar";
    }
    if o.xtest == 0.0 && o.ytest != 0.0 {
      zxKey, zyKey, freqKey := "Zx_quadrupolarY_cst", "Zy_quadrupolarY_cst", "freq_cst_quadrupolar";
    }
    if o.xtest != 0.0 && o.ytest != 0.0 {
      zxKey, zyKey, freqKey := "Zx_quadrupolar_cst", "Zy_quadrupolar_cst", "freq_cst_quadrupolar";
    }
    // Dipolar cases
    if o.xsource != 0.0 && o.ysource == 0.0 {
      zxKey, zyKey, freqKey := "Zx_dipolarX_cst", "Zy_dipolarX_cst", "freq_cst_dipolar";
    }
    if o.xsource == 0.0 && o.ysource != 0.0 {
      zxKey, zyKey, freqKey := "Zx_dipolarY_cst", "Zy_dipolarY_cst", "freq_cst_dipolar";
    }
    if o.xsource != 0.0 && o.ysource != 0.0 {
      zxKey, zyKey, freqKey := "Zx_dipolar_cst", "Zy_dipolar_cst", "freq_cst_dipolar";
    }
  }

  /** With the beams on axis no block fires and the default keys stay; any
      other configuration leaves the default. */
  lemma OnAxisKeepsDefaults(o: Offsets)
    ensures SelectVariant(o) == Default <==>
              o.xsource == 0.0 && o.ysource == 0.0 && o.xtest == 0.0 && o.ytest == 0.0
    ensures SelectVariant(o) == Default ==>
              WakeKeys(SelectVariant(o)) == KeyTriple("WPx_cst", "WPy_cst", "s_cst") &&
              ImpedanceKeys(SelectVariant(o)) == KeyTriple("Zx_cst", "Zy_cst", "freq_cst")
  {
  }

  /** A source offset decides the variant whatever the test offsets are:
      the dipolar blocks run after the quadrupolar ones. */
  lemma SourceOffsetWins(o: Offsets, xtest: real, ytest: real)
    requires o.xsource != 0.0 || o.ysource != 0.0
    ensures IsDipolar(SelectVariant(o))
    ensures SelectVariant(o) == SelectVariant(o.(xtest := xtest, ytest := ytest))
  {
  }

  /** Within each family the three guards exclude one another, and one of
      them fires exactly when one offset of the pair is nonzero. */
  lemma FamiliesExclusive(o: Offsets)
    ensures FiringCount(QuadrupolarBlocks, o) == if o.xtest != 0.0 || o.ytest != 0.0 then 1 else 0
    ensures FiringCount(DipolarBlocks, o) == if o.xsource != 0.0 || o.ysource != 0.0 then 1 else 0
  {
    FiringCountOfThree(QuadX, QuadY, QuadXY, o);
    FiringCountOfThree(DipX, DipY, DipXY, o);
  }

  lemma FiringCountOfThree(u: Variant, v: Variant, w: Variant, o: Offsets)
    ensures FiringCount([u, v, w], o) ==
              (if Fires(u, o) then 1 else 0) + (if Fires(v, o) then 1 else 0) + (if Fires(w, o) then 1 else 0)
  {
    assert [u, v, w][1..] == [v, w];
    assert [v, w][1..] == [w];
    assert [w][1..] == [];
    assert FiringCount([w], o) == (if Fires(w, o) then 1 else 0) + FiringCount([], o);
  }

  /** 1.0 for an offset that compares unequal to zero, 0.0 otherwise. */
  function Presence(x: real): real
  {
    if x != 0.0 then 1.0 else 0.0
  }

  /** Only whether each offset is exactly zero matters: any nonzero offset,
      however small, selects as a unit offset would. */
  lemma ExactZeroComparison(o: Offsets)
    ensures SelectVariant(o) ==
              SelectVariant(Offsets(Presence(o.xsource), Presence(o.ysource), Presence(o.xtest), Presence(o.ytest)))
  {
  }

  /** Distinct variants read distinct wake-potential and impedance keys, so
      the two selectors, given the same offsets, read the same variant. */
  lemma KeysIdentifyVariant(v: Variant, w: Variant)
    ensures WakeKeys(v) == WakeKeys(w) <==> v == w
    ensures ImpedanceKeys(v) == ImpedanceKeys(w) <==> v == w
  {
  }

  /** A 5 mm horizontal test offset selects the quadrupolar-X variant; a
      3 mm horizontal source offset added to it overrides that choice. */
  lemma PrecedenceExample()
    ensures SelectVariant(Offsets(0.0, 0.0, 0.005, 0.0)) == QuadX
    ensures SelectVariant(Offsets(0.003, 0.0, 0.005, 0.0)) == DipX
  {
  }
}
