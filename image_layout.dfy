/** `load_image`: the array-layout part of preparing an input image for the network.
    A greyscale plane is replicated into three channels, the channel order is reversed
    (RGB to BGR), the per-channel mean is subtracted and the array is transposed from
    height x width x channels to channels x height x width. Pixel values are integers
    here; the float32 arithmetic of `imp_layers_massvis.py` is not modelled. */
module ImageLayout {
  import opened Wrappers
  import opened Arrays

  /** A decoded image as the image library hands it over: a 2-D plane for a
      black-and-white image, a height x width x channels array otherwise. */
  datatype RawImage = Grey(plane: Array2<int>) | Colour(pixels: Array3<int>) {
    predicate Valid() {
      match this
      case Grey(p) => p.Valid()
      case Colour(p) => p.Valid()
    }

    function Height(): nat { if Grey? then plane.rows else pixels.d0 }

    function Width(): nat { if Grey? then plane.cols else pixels.d1 }

    /** Channels after a greyscale plane has been expanded. */
    function Channels(): nat { if Grey? then 3 else pixels.d2 }

    /** The value channel `k` of pixel (i, j) has once a greyscale plane is expanded. */
    function Sample(i: nat, j: nat, k: nat): int
      requires Valid() && i < Height() && j < Width() && k < Channels()
    {
      if Grey? then plane.cells[i][j] else pixels.cells[i][j][k]
    }
  }

  /** The in-place subtraction cannot broadcast the mean onto the image. */
  datatype ImageError = MeanShapeMismatch(channels: nat, meanLength: nat)

  /** `ret[:, :, :] = in_[:, :, np.newaxis]` into a (h, w, 3) array: every channel
      of a pixel receives the grey value. */
  function Expand<T>(g: Array2<T>): (r: Array3<T>)
    requires g.Valid()
    ensures r.Valid() && r.d0 == g.rows && r.d1 == g.cols && r.d2 == 3
    ensures forall i, j, k :: 0 <= i < g.rows && 0 <= j < g.cols && 0 <= k < 3 ==>
              r.cells[i][j][k] == g.cells[i][j]
  {
    Array3(g.rows, g.cols, 3,
      seq(g.rows, i requires 0 <= i < g.rows =>
        seq(g.cols, j requires 0 <= j < g.cols =>
          seq(3, _ => g.cells[i][j]))))
  }

  /** `in_[:, :, ::-1]`: the last axis read backwards. */
  function ReverseChannels<T>(t: Array3<T>): (r: Array3<T>)
    requires t.Valid()
    ensures r.Valid() && r.d0 == t.d0 && r.d1 == t.d1 && r.d2 == t.d2
    ensures forall i, j, k :: 0 <= i < t.d0 && 0 <= j < t.d1 && 0 <= k < t.d2 ==>
              r.cells[i][j][k] == t.cells[i][j][t.d2 - 1 - k]
  {
    Array3(t.d0, t.d1, t.d2,
      seq(t.d0, i requires 0 <= i < t.d0 =>
        seq(t.d1, j requires 0 <= j < t.d1 =>
          seq(t.d2, k requires 0 <= k < t.d2 => t.cells[i][j][t.d2 - 1 - k]))))
  }

  /** `transpose((2, 0, 1))`: axis 2 becomes the first axis, axes 0 and 1 follow. */
  function Transpose201<T>(t: Array3<T>): (r: Array3<T>)
    requires t.Valid()
    ensures r.Valid() && r.d0 == t.d2 && r.d1 == t.d0 && r.d2 == t.d1
    ensures forall c, i, j :: 0 <= c < t.d2 && 0 <= i < t.d0 && 0 <= j < t.d1 ==>
              r.cells[c][i][j] == t.cells[i][j][c]
  {
    Array3(t.d2, t.d0, t.d1,
      seq(t.d2, c requires 0 <= c < t.d2 =>
        seq(t.d0, i requires 0 <= i < t.d0 =>
          seq(t.d1, j requires 0 <= j < t.d1 => t.cells[i][j][c]))))
  }

  /** `transpose((1, 2, 0))`, the inverse permutation of axes. */
  function Transpose120<T>(t: Array3<T>): (r: Array3<T>)
    requires t.Valid()
    ensures r.Valid() && r.d0 == t.d1 && r.d1 == t.d2 && r.d2 == t.d0
    ensures forall i, j, c :: 0 <= i < t.d1 && 0 <= j < t.d2 && 0 <= c < t.d0 ==>
              r.cells[i][j][c] == t.cells[c][i][j]
  {
    Array3(t.d1, t.d2, t.d0,
      seq(t.d1, i requires 0 <= i < t.d1 =>
        seq(t.d2, j requires 0 <= j < t.d2 =>
          seq(t.d0, c requires 0 <= c < t.d0 => t.cells[c][i][j]))))
  }

  /** Whether `in_ -= mean` can broadcast a 1-D mean over an array with this many
      channels without changing the array's shape. */
  predicate Broadcasts(mean: seq<int>, channels: nat) {
    |mean| == 1 || |mean| == channels
  }

  /** The mean entry that broadcasting pairs with channel `k`. */
  function MeanAt(mean: seq<int>, k: nat): int
    requires |mean| == 1 || k < |mean|
  {
    if |mean| == 1 then mean[0] else mean[k]
  }

  /** `in_ -= mean` on a height x width x channels array: channel `k` of every pixel
      loses the mean entry paired with `k`; a mean that cannot be broadcast raises. */
  function SubtractMean(t: Array3<int>, mean: seq<int>): (r: Result<Array3<int>, ImageError>)
    requires t.Valid()
    ensures r.Success? <==> Broadcasts(mean, t.d2)
    ensures r.Failure? ==> r.error == MeanShapeMismatch(t.d2, |mean|)
    ensures r.Success? ==>
              && r.value.Valid() && r.value.d0 == t.d0 && r.value.d1 == t.d1 && r.value.d2 == t.d2
              && forall i, j, k :: 0 <= i < t.d0 && 0 <= j < t.d1 && 0 <= k < t.d2 ==>
                   r.value.cells[i][j][k] == t.cells[i][j][k] - MeanAt(mean, k)
  {
    if !Broadcasts(mean, t.d2) then Failure(MeanShapeMismatch(t.d2, |mean|))
    else
      Success(Array3(t.d0, t.d1, t.d2,
        seq(t.d0, i requires 0 <= i < t.d0 =>
          seq(t.d1, j requires 0 <= j < t.d1 =>
            seq(t.d2, k requires 0 <= k < t.d2 => t.cells[i][j][k] - MeanAt(mean, k))))))
  }

  /** The height x width x channels array `load_image` works on after the
      black-and-white case has been expanded. */
  function AsColour(raw: RawImage): (t: Array3<int>)
    requires raw.Valid()
    ensures t.Valid() && t.d0 == raw.Height() && t.d1 == raw.Width() && t.d2 == raw.Channels()
    ensures forall i, j, k :: 0 <= i < t.d0 && 0 <= j < t.d1 && 0 <= k < t.d2 ==>
              t.cells[i][j][k] == raw.Sample(i, j, k)
  {
    match raw
    case Grey(g) => Expand(g)
    case Colour(p) => p
  }

  /** `load_image` after decoding: the network input in channels x height x width
      order, channel `c` holding input channel `C - 1 - c` less the mean paired with
      output channel `c`. It fails exactly when the mean cannot be broadcast. */
  function LoadImage(raw: RawImage, mean: seq<int>): (r: Result<Array3<int>, ImageError>)
    requires raw.Valid()
    ensures r.Success? <==> Broadcasts(mean, raw.Channels())
    ensures r.Failure? ==> r.error == MeanShapeMismatch(raw.Channels(), |mean|)
    ensures r.Success? ==>
              && r.value.Valid()
              && r.value.d0 == raw.Channels() && r.value.d1 == raw.Height() && r.value.d2 == raw.Width()
              && forall c, i, j :: 0 <= c < raw.Channels() && 0 <= i < raw.Height() && 0 <= j < raw.Width() ==>
                   r.value.cells[c][i][j] == raw.Sample(i, j, raw.Channels() - 1 - c) - MeanAt(mean, c)
  {
    var bgr := ReverseChannels(AsColour(raw));
    match SubtractMean(bgr, mean)
    case Failure(e) => Failure(e)
    case Success(centred) => Success(Transpose201(centred))
  }

  /** Reversing the channel order twice gives the array back. */
  lemma ReverseChannelsInvolution<T>(t: Array3<T>)
    requires t.Valid()
    ensures ReverseChannels(ReverseChannels(t)) == t
  {
    var r := ReverseChannels(ReverseChannels(t));
    Array3Ext(r, t);
  }

  /** The two transposes undo each other, so the channels-first layout keeps every pixel. */
  lemma TransposeRoundTrip<T>(t: Array3<T>)
    requires t.Valid()
    ensures Transpose120(Transpose201(t)) == t
    ensures Transpose201(Transpose120(t)) == t
  {
    Array3Ext(Transpose120(Transpose201(t)), t);
    Array3Ext(Transpose201(Transpose120(t)), t);
  }

  /** A black-and-white image looks the same in RGB and BGR order. */
  lemma GreyIgnoresChannelOrder<T>(g: Array2<T>)
    requires g.Valid()
    ensures ReverseChannels(Expand(g)) == Expand(g)
  {
    Array3Ext(ReverseChannels(Expand(g)), Expand(g));
  }

  /** For a black-and-white image, output channel `c` is the grey plane less the mean
      paired with `c`; with a single mean value all three channels are equal. */
  lemma GreyChannels(g: Array2<int>, mean: seq<int>)
    requires g.Valid() && Broadcasts(mean, 3)
    ensures LoadImage(Grey(g), mean).Success?
    ensures var out := LoadImage(Grey(g), mean).value;
            forall c, i, j :: 0 <= c < 3 && 0 <= i < g.rows && 0 <= j < g.cols ==>
              out.cells[c][i][j] == g.cells[i][j] - MeanAt(mean, c)
    ensures |mean| == 1 ==>
              var out := LoadImage(Grey(g), mean).value;
              out.cells[0] == out.cells[1] == out.cells[2]
  {
    var out := LoadImage(Grey(g), mean).value;
    if |mean| == 1 {
      forall c | 0 <= c < 3
        ensures out.cells[c] == out.cells[0]
      {
        forall i | 0 <= i < g.rows
          ensures out.cells[c][i] == out.cells[0][i]
        {
          assert forall j :: 0 <= j < g.cols ==> out.cells[c][i][j] == out.cells[0][i][j];
        }
      }
    }
  }
}
