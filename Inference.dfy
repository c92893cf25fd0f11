/** The data flow of display_custom_image: the packed raw frame is
    amplified, clipped to [0, 1], transposed to CHW and given a batch axis;
    the network's prediction is clamped to [0, 1] and transposed back to
    HWC for display. The network itself is seen through its shape only. */
module Inference {
  import opened Tensors
  import opened RawPacking
  import opened Layout
  import opened UnetShapes

  /** np.clip(pack_raw(raw) * amp_ratio, 0, 1) passed through numpy_to_torch:
      the CHW tensor of one image. */
  function NetworkInput(raw: Array2<Uint16>, ampRatio: real): (r: Result<Array3<real>>)
    requires Valid2(raw)
    ensures r.Ok? <==> PackRaw(raw).Ok?
    ensures r.Ok? ==> Valid3(r.value)
  {
    match PackRaw(raw)
    case Err(e) => Err(e)
    case Ok(packed) => Ok(HwcToChw(Clamp01(Amplify(packed, ampRatio))))
  }

  /** unsqueeze(0): the shape of a one-image batch holding the CHW tensor t. */
  function BatchOf(t: Array3<real>): (r: Shape)
    ensures r.n == 1 && r.c == t.d0 && r.h == t.d1 && r.w == t.d2
  {
    Shape(1, t.d0, t.d1, t.d2)
  }

  /** The network input exists exactly for even sensor sides, and then has
      shape (4, H/2, W/2). */
  lemma NetworkInputShape(raw: Array2<Uint16>, ampRatio: real)
    requires Valid2(raw)
    ensures NetworkInput(raw, ampRatio).Ok? <==> raw.d0 % 2 == 0 && raw.d1 % 2 == 0
    ensures NetworkInput(raw, ampRatio).Ok? ==>
      var t := NetworkInput(raw, ampRatio).value;
      Valid3(t) && t.d0 == 4 && t.d1 == raw.d0 / 2 && t.d2 == raw.d1 / 2
  {
    PackRawShape(raw);
  }

  /** Every element of the network input lies in [0, 1], whatever the
      exposure ratio. */
  lemma NetworkInputSpec(raw: Array2<Uint16>, ampRatio: real)
    requires Valid2(raw)
    ensures NetworkInput(raw, ampRatio).Ok? ==>
      Valid3(NetworkInput(raw, ampRatio).value) && InUnitRange(NetworkInput(raw, ampRatio).value)
  {
  }

  /** Element (k, i, j) of the prepared tensor is element (i, j, k) of the
      packed array, amplified and clipped. */
  lemma PreparedAt(packed: Array3<real>, ampRatio: real, i: nat, j: nat, k: nat)
    requires Valid3(packed) && i < packed.d0 && j < packed.d1 && k < packed.d2
    ensures var t := HwcToChw(Clamp01(Amplify(packed, ampRatio)));
      && Valid3(t) && t.d0 == packed.d2 && t.d1 == packed.d0 && t.d2 == packed.d1
      && t.v[k][i][j] == ClampValue(packed.v[i][j][k] * ampRatio, 0.0, 1.0)
  {
    var a := Amplify(packed, ampRatio);
    var c := Clamp01(a);
    assert c.v[i][j][k] == ClampValue(a.v[i][j][k], 0.0, 1.0);
  }

  /** Element (k, i, j) of the network input is element (i, j, k) of the
      packed array, amplified and clipped. */
  lemma NetworkInputFromPacked(raw: Array2<Uint16>, ampRatio: real, i: nat, j: nat, k: nat)
    requires Valid2(raw) && raw.d0 % 2 == 0 && raw.d1 % 2 == 0
    requires i < raw.d0 / 2 && j < raw.d1 / 2 && k < 4
    ensures PackRaw(raw).Ok? && Valid3(PackRaw(raw).value)
    ensures PackRaw(raw).value.d0 == raw.d0 / 2 && PackRaw(raw).value.d1 == raw.d1 / 2 && PackRaw(raw).value.d2 == 4
    ensures NetworkInput(raw, ampRatio).Ok? && Valid3(NetworkInput(raw, ampRatio).value)
    ensures NetworkInput(raw, ampRatio).value.v[k][i][j] ==
      ClampValue(PackRaw(raw).value.v[i][j][k] * ampRatio, 0.0, 1.0)
  {
    PackRawShape(raw);
    PreparedAt(PackRaw(raw).value, ampRatio, i, j, k);
  }

  /** Element (k, i, j) of the network input is element (i, j, k) of the
      packed array amplified and clipped, and that packed element is the
      normalised count of the source pixel of Bayer slot (i, j, k). */
  lemma NetworkInputAt(raw: Array2<Uint16>, ampRatio: real, s: Slot)
    requires Valid2(raw) && raw.d0 % 2 == 0 && raw.d1 % 2 == 0
    requires s.i < raw.d0 / 2 && s.j < raw.d1 / 2 && s.k < 4
    ensures NetworkInput(raw, ampRatio).Ok? && Valid3(NetworkInput(raw, ampRatio).value)
    ensures NetworkInput(raw, ampRatio).value.d0 == 4
    ensures NetworkInput(raw, ampRatio).value.d1 == raw.d0 / 2 && NetworkInput(raw, ampRatio).value.d2 == raw.d1 / 2
    ensures SourcePixel(s).row < raw.d0 && SourcePixel(s).col < raw.d1
    ensures PackRaw(raw).Ok? && Valid3(PackRaw(raw).value) && PackRaw(raw).value.d2 == 4
    ensures PackRaw(raw).value.d0 == raw.d0 / 2 && PackRaw(raw).value.d1 == raw.d1 / 2
    ensures PackRaw(raw).value.v[s.i][s.j][s.k] == Normalize(raw.v[SourcePixel(s).row][SourcePixel(s).col])
    ensures NetworkInput(raw, ampRatio).value.v[s.k][s.i][s.j] ==
      ClampValue(PackRaw(raw).value.v[s.i][s.j][s.k] * ampRatio, 0.0, 1.0)
  {
    NetworkInputFromPacked(raw, ampRatio, s.i, s.j, s.k);
    PackRawAt(raw, s);
  }

  /** torch.clamp(y_hat, 0, 1) then transpose((1, 2, 0)) of the one image
      in the batch: the displayed HWC image. */
  function DisplayedImage(prediction: Array3<real>): (r: Array3<real>)
    requires Valid3(prediction)
    ensures Valid3(r) && r.d0 == prediction.d1 && r.d1 == prediction.d2 && r.d2 == prediction.d0
  {
    ChwToHwc(Clamp01(prediction))
  }

  /** The displayed image of a (C, H, W) prediction has shape (H, W, C), lies
      in [0, 1] whatever the prediction, and equals the prediction read in
      HWC order when the prediction already lay in [0, 1]. */
  lemma DisplayedImageSpec(prediction: Array3<real>)
    requires Valid3(prediction)
    ensures var img := DisplayedImage(prediction);
      && Valid3(img) && img.d0 == prediction.d1 && img.d1 == prediction.d2 && img.d2 == prediction.d0
      && InUnitRange(img)
    ensures InUnitRange(prediction) ==> DisplayedImage(prediction) == ChwToHwc(prediction)
  {
    Clamp01InRange(prediction);
    var c := Clamp01(prediction);
    var img := ChwToHwc(c);
    forall h, w, k | 0 <= h < img.d0 && 0 <= w < img.d1 && 0 <= k < img.d2
      ensures 0.0 <= img.v[h][w][k] <= 1.0
    {
      assert img.v[h][w][k] == c.v[k][h][w];
    }
    if InUnitRange(prediction) {
      Clamp01KeepsUnitRange(prediction);
    }
  }

  /** Shape of the network's prediction for a raw frame, or the error
      raised on the way. */
  function PredictionShape(raw: Array2<Uint16>, ampRatio: real): (r: Result<Shape>)
    requires Valid2(raw)
    ensures r.Ok? ==> NetworkInput(raw, ampRatio).Ok? && r.value.n == 1 && r.value.c == 3
  {
    match NetworkInput(raw, ampRatio)
    case Err(e) => Err(e)
    case Ok(t) => Forward(BatchOf(t))
  }

  /** End to end: a raw frame goes through packing and the network exactly
      when its height and width are positive multiples of 32, and the
      prediction then has 3 channels at the sensor's full resolution. */
  lemma PredictionShapeSpec(raw: Array2<Uint16>, ampRatio: real)
    requires Valid2(raw)
    ensures PredictionShape(raw, ampRatio).Ok? <==>
      raw.d0 > 0 && raw.d1 > 0 && raw.d0 % 32 == 0 && raw.d1 % 32 == 0
    ensures PredictionShape(raw, ampRatio).Ok? ==>
      PredictionShape(raw, ampRatio).value == Shape(1, 3, raw.d0, raw.d1)
  {
    PredictionIsForward(raw, ampRatio);
    if raw.d0 % 2 == 0 && raw.d1 % 2 == 0 {
      BatchForward(raw.d0, raw.d1);
    } else {
      HalfDivisible(raw.d0);
      HalfDivisible(raw.d1);
    }
  }

  /** An odd side fails in pack_raw; otherwise the prediction is the
      network's output for the one-image batch of shape (1, 4, H/2, W/2). */
  lemma PredictionIsForward(raw: Array2<Uint16>, ampRatio: real)
    requires Valid2(raw)
    ensures raw.d0 % 2 != 0 || raw.d1 % 2 != 0 ==> PredictionShape(raw, ampRatio) == Err(ConcatMismatch)
    ensures raw.d0 % 2 == 0 && raw.d1 % 2 == 0 ==>
      PredictionShape(raw, ampRatio) == Forward(Shape(1, 4, raw.d0 / 2, raw.d1 / 2))
  {
    NetworkInputShape(raw, ampRatio);
  }

  /** The network run on a one-image batch of packed (4, H/2, W/2) input
      succeeds exactly when H and W are positive multiples of 32, and then
      gives 3 channels at H x W. */
  lemma BatchForward(height: nat, width: nat)
    requires height % 2 == 0 && width % 2 == 0
    ensures Forward(Shape(1, 4, height / 2, width / 2)).Ok? <==>
      height > 0 && width > 0 && height % 32 == 0 && width % 32 == 0
    ensures Forward(Shape(1, 4, height / 2, width / 2)).Ok? ==>
      Forward(Shape(1, 4, height / 2, width / 2)).value == Shape(1, 3, height, width)
  {
    ForwardShape(Shape(1, 4, height / 2, width / 2));
    HalfDivisible(height);
    HalfDivisible(width);
  }

  /** A multiple of 32 is even; for an even side s, half of s is a
      positive multiple of 16 exactly when s is a positive multiple of 32,
      and doubling it gives s back. */
  lemma HalfDivisible(s: nat)
    ensures s % 32 == 0 ==> s % 2 == 0
    ensures s % 2 == 0 ==> ((s / 2 > 0 && (s / 2) % 16 == 0) <==> (s > 0 && s % 32 == 0))
    ensures s % 2 == 0 ==> 2 * (s / 2) == s
  {
  }

  /** The frame size the script is written for: a 2848 x 4256 capture packs
      to (1424, 2128, 4) and is denoised to 3 channels at 2848 x 4256. */
  lemma SonyFrameShapes(raw: Array2<Uint16>, ampRatio: real)
    requires Valid2(raw) && raw.d0 == 2848 && raw.d1 == 4256
    ensures PackRaw(raw).Ok?
    ensures PackRaw(raw).value.d0 == 1424 && PackRaw(raw).value.d1 == 2128 && PackRaw(raw).value.d2 == 4
    ensures PredictionShape(raw, ampRatio) == Ok(Shape(1, 3, 2848, 4256))
  {
    PackRawShape(raw);
    PredictionShapeSpec(raw, ampRatio);
  }
}
