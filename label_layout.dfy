/** `load_label`: turning a decoded importance map into the label blob. In binarize mode
    every pixel is thresholded at two thirds of the byte range; otherwise it is scaled
    into [0, 1]. Either way a leading axis of length 1 is added. */
module LabelLayout {
  import opened Arrays

  /** The threshold `255.0*2/3` of binarize mode. */
  const Threshold: real := 255.0 * 2.0 / 3.0

  /** `label > 255.0*2/3` for one pixel: the threshold is exactly 170. */
  function Binarize(v: Byte): (r: bool)
    ensures r <==> v > 170
  {
    (v as int) as real > Threshold
  }

  /** `label / 255.0` for one pixel, in exact arithmetic. */
  function Normalise(v: Byte): (r: real)
    ensures 0.0 <= r <= 1.0
    ensures r == 0.0 <==> v == 0
    ensures r == 1.0 <==> v == 255
  {
    (v as int) as real / 255.0
  }

  /** Scaling keeps the order of the pixel values. */
  lemma NormaliseMonotone(u: Byte, v: Byte)
    ensures u < v <==> Normalise(u) < Normalise(v)
  {
  }

  /** Binarize mode is the scaled label thresholded at two thirds. */
  lemma BinarizeIsScaledThreshold(v: Byte)
    ensures Binarize(v) <==> Normalise(v) > 2.0 / 3.0
  {
  }

  /** The label blob: a boolean mask in binarize mode, scaled levels otherwise. */
  datatype Label = Mask(bits: Array3<bool>) | Levels(values: Array3<real>) {
    predicate Valid() {
      match this
      case Mask(b) => b.Valid()
      case Levels(v) => v.Valid()
    }

    function D0(): nat { if Mask? then bits.d0 else values.d0 }

    function D1(): nat { if Mask? then bits.d1 else values.d1 }

    function D2(): nat { if Mask? then bits.d2 else values.d2 }
  }

  /** `load_label` after decoding an h x w map: a label of shape (1, h, w) whose pixel
      (0, i, j) is the thresholded or the scaled map pixel (i, j). */
  function LoadLabel(importance: Array2<Byte>, binarize: bool): (r: Label)
    requires importance.Valid()
    ensures r.Valid() && r.Mask? == binarize
    ensures r.D0() == 1 && r.D1() == importance.rows && r.D2() == importance.cols
    ensures binarize ==> forall i, j :: 0 <= i < importance.rows && 0 <= j < importance.cols ==>
              (r.bits.cells[0][i][j] <==> importance.cells[i][j] > 170)
    ensures !binarize ==> forall i, j :: 0 <= i < importance.rows && 0 <= j < importance.cols ==>
              r.values.cells[0][i][j] == (importance.cells[i][j] as int) as real / 255.0
  {
    if binarize then Mask(AddLeadingAxis(Map2(importance, Binarize)))
    else Levels(AddLeadingAxis(Map2(importance, Normalise)))
  }
}
