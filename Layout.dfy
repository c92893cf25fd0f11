/** Layout and value-range transforms between the packed array and the
    network: numpy_to_torch's HWC-to-CHW transpose, the inverse transpose
    applied to the prediction, the amplification of the packed input, and
    the clip / clamp of values to [0, 1]. */
module Layout {
  import opened Tensors

  /** image.transpose((2, 0, 1)): an (H, W, C) array becomes (C, H, W). */
  function HwcToChw<T>(a: Array3<T>): (r: Array3<T>)
    requires Valid3(a)
    ensures Valid3(r) && r.d0 == a.d2 && r.d1 == a.d0 && r.d2 == a.d1
    ensures forall c, h, w :: 0 <= c < a.d2 && 0 <= h < a.d0 && 0 <= w < a.d1 ==>
      r.v[c][h][w] == a.v[h][w][c]
  {
    Array3(a.d2, a.d0, a.d1, seq(a.d2, c requires 0 <= c < a.d2 =>
      seq(a.d0, h requires 0 <= h < a.d0 =>
        seq(a.d1, w requires 0 <= w < a.d1 => a.v[h][w][c]))))
  }

  /** y.transpose((1, 2, 0)): a (C, H, W) array becomes (H, W, C). */
  function ChwToHwc<T>(a: Array3<T>): (r: Array3<T>)
    requires Valid3(a)
    ensures Valid3(r) && r.d0 == a.d1 && r.d1 == a.d2 && r.d2 == a.d0
    ensures forall h, w, c :: 0 <= h < a.d1 && 0 <= w < a.d2 && 0 <= c < a.d0 ==>
      r.v[h][w][c] == a.v[c][h][w]
  {
    Array3(a.d1, a.d2, a.d0, seq(a.d1, h requires 0 <= h < a.d1 =>
      seq(a.d2, w requires 0 <= w < a.d2 =>
        seq(a.d0, c requires 0 <= c < a.d0 => a.v[c][h][w]))))
  }

  /** Converting to CHW and back gives the original array. */
  lemma ChwToHwcUndoesHwcToChw<T>(a: Array3<T>)
    requires Valid3(a)
    ensures ChwToHwc(HwcToChw(a)) == a
  {
    var r := ChwToHwc(HwcToChw(a));
    Extensionality3(r, a);
  }

  /** Converting to HWC and back gives the original array. */
  lemma HwcToChwUndoesChwToHwc<T>(a: Array3<T>)
    requires Valid3(a)
    ensures HwcToChw(ChwToHwc(a)) == a
  {
    var r := HwcToChw(ChwToHwc(a));
    Extensionality3(r, a);
  }

  /** One value clipped to [lo, hi], as np.clip and torch.clamp do. */
  function ClampValue(x: real, lo: real, hi: real): (r: real)
    requires lo <= hi
    ensures lo <= r <= hi
  {
    if x < lo then lo else if x > hi then hi else x
  }

  /** A clamped value lies in [lo, hi], is x itself when x already does,
      and is the nearest bound otherwise. */
  lemma ClampValueSpec(x: real, lo: real, hi: real)
    requires lo <= hi
    ensures lo <= ClampValue(x, lo, hi) <= hi
    ensures lo <= x <= hi ==> ClampValue(x, lo, hi) == x
    ensures x < lo ==> ClampValue(x, lo, hi) == lo
    ensures x > hi ==> ClampValue(x, lo, hi) == hi
  {
  }

  /** np.clip(a, 0.0, 1.0) and torch.clamp(a, 0.0, 1.0), element-wise. */
  function Clamp01(a: Array3<real>): (r: Array3<real>)
    requires Valid3(a)
    ensures Valid3(r) && r.d0 == a.d0 && r.d1 == a.d1 && r.d2 == a.d2
  {
    Map3((x: real) => ClampValue(x, 0.0, 1.0), a)
  }

  /** Every element lies in [0, 1]. */
  predicate InUnitRange(a: Array3<real>)
    requires Valid3(a)
  {
    forall i, j, k :: 0 <= i < a.d0 && 0 <= j < a.d1 && 0 <= k < a.d2 ==>
      0.0 <= a.v[i][j][k] <= 1.0
  }

  /** Whatever the input range, the clamped array keeps its shape and lies in [0, 1]. */
  lemma Clamp01InRange(a: Array3<real>)
    requires Valid3(a)
    ensures Valid3(Clamp01(a)) && Clamp01(a).d0 == a.d0 && Clamp01(a).d1 == a.d1 && Clamp01(a).d2 == a.d2
    ensures InUnitRange(Clamp01(a))
  {
    var r := Clamp01(a);
    forall i, j, k | 0 <= i < a.d0 && 0 <= j < a.d1 && 0 <= k < a.d2
      ensures 0.0 <= r.v[i][j][k] <= 1.0
    {
      ClampValueSpec(a.v[i][j][k], 0.0, 1.0);
    }
  }

  /** Clamping leaves an array already in [0, 1] unchanged. */
  lemma Clamp01KeepsUnitRange(a: Array3<real>)
    requires Valid3(a) && InUnitRange(a)
    ensures Clamp01(a) == a
  {
    var r := Clamp01(a);
    forall i, j, k | 0 <= i < a.d0 && 0 <= j < a.d1 && 0 <= k < a.d2
      ensures r.v[i][j][k] == a.v[i][j][k]
    {
      ClampValueSpec(a.v[i][j][k], 0.0, 1.0);
    }
    Extensionality3(r, a);
  }

  /** Clamping twice is clamping once. */
  lemma Clamp01Idempotent(a: Array3<real>)
    requires Valid3(a)
    ensures Valid3(Clamp01(a)) && Clamp01(Clamp01(a)) == Clamp01(a)
  {
    Clamp01InRange(a);
    Clamp01KeepsUnitRange(Clamp01(a));
  }

  /** Clamping commutes with the HWC-to-CHW transpose: clipping before
      numpy_to_torch, as the driver does, equals clamping the tensor after it. */
  lemma Clamp01CommutesWithTranspose(a: Array3<real>)
    requires Valid3(a)
    ensures HwcToChw(Clamp01(a)) == Clamp01(HwcToChw(a))
  {
    var left, right := HwcToChw(Clamp01(a)), Clamp01(HwcToChw(a));
    Extensionality3(left, right);
  }

  /** pack_raw(...) * amp_ratio: every element multiplied by the exposure ratio. */
  function Amplify(a: Array3<real>, ratio: real): (r: Array3<real>)
    requires Valid3(a)
    ensures Valid3(r) && r.d0 == a.d0 && r.d1 == a.d1 && r.d2 == a.d2
    ensures forall i, j, k :: 0 <= i < a.d0 && 0 <= j < a.d1 && 0 <= k < a.d2 ==>
      r.v[i][j][k] == a.v[i][j][k] * ratio
  {
    Map3((x: real) => x * ratio, a)
  }
}
