/** The raw-to-tensor packing of pack_raw: black-level subtraction and
    normalisation of the sensor counts, then the split of the Bayer mosaic
    into four half-resolution planes stacked as channels. */
module RawPacking {
  import opened Tensors

  /** One sensor count as the camera stores it (unsigned 16-bit). */
  type Uint16 = x: int | 0 <= x < 0x1_0000

  /** Sensor count of a pixel that received no light. */
  const BlackLevel: int := 512
  /** Sensor count at saturation (14-bit sensor). */
  const WhiteLevel: int := 16383

  /** Subtract the black level, clamp at zero and divide by the dynamic range. */
  function Normalize(x: Uint16): (r: real)
    ensures r >= 0.0
    ensures r == 0.0 <==> x <= BlackLevel
  {
    Max(x - BlackLevel, 0) as real / (WhiteLevel - BlackLevel) as real
  }

  function Max(a: int, b: int): int { if a < b then b else a }

  /** Inverse of Normalize above the black level: the count it came from. */
  function Denormalize(y: real): real {
    y * (WhiteLevel - BlackLevel) as real + BlackLevel as real
  }

  /** Counts at or below the black level all become zero. */
  lemma NormalizeBlack(x: Uint16)
    requires x <= BlackLevel
    ensures Normalize(x) == 0.0
  {
  }

  /** Above the black level Normalize loses nothing: Denormalize recovers the count. */
  lemma NormalizeAboveBlack(x: Uint16)
    requires x > BlackLevel
    ensures Normalize(x) == (x - BlackLevel) as real / (WhiteLevel - BlackLevel) as real
    ensures Normalize(x) > 0.0
    ensures Denormalize(Normalize(x)) == x as real
  {
  }

  /** Normalised values are never negative, and reach at most one for unsaturated counts. */
  lemma NormalizeRange(x: Uint16)
    ensures Normalize(x) >= 0.0
    ensures x <= WhiteLevel ==> Normalize(x) <= 1.0
    ensures x == WhiteLevel ==> Normalize(x) == 1.0
  {
  }

  /** Normalize preserves the order of counts, strictly above the black level. */
  lemma NormalizeMonotone(x: Uint16, y: Uint16)
    requires x <= y
    ensures Normalize(x) <= Normalize(y)
    ensures x < y && y > BlackLevel ==> Normalize(x) < Normalize(y)
  {
  }

  /** The four colour planes of the sensor's 2x2 Bayer tile, in the order
      pack_raw stacks them as channels. */
  datatype BayerChannel = Red | Green1 | Blue | Green2

  /** Channel index of a plane in the packed array. */
  function ChannelIndex(ch: BayerChannel): nat {
    match ch
    case Red => 0
    case Green1 => 1
    case Blue => 2
    case Green2 => 3
  }

  function ChannelAt(k: nat): BayerChannel
    requires k < 4
  {
    if k == 0 then Red else if k == 1 then Green1 else if k == 2 then Blue else Green2
  }

  /** Row of the plane inside its 2x2 tile: where its slice starts on axis 0. */
  function RowOffset(ch: BayerChannel): nat {
    match ch
    case Red | Green1 => 0
    case Blue | Green2 => 1
  }

  /** Column of the plane inside its 2x2 tile: where its slice starts on axis 1. */
  function ColOffset(ch: BayerChannel): nat {
    match ch
    case Red | Green2 => 0
    case Green1 | Blue => 1
  }

  /** A position of the sensor grid. */
  datatype Pixel = Pixel(row: nat, col: nat)

  /** A position of the packed array: half-resolution row and column, and channel. */
  datatype Slot = Slot(i: nat, j: nat, k: nat)

  /** The sensor pixel that packed slot (i, j, k) holds. */
  function SourcePixel(s: Slot): Pixel
    requires s.k < 4
  {
    var ch := ChannelAt(s.k);
    Pixel(2 * s.i + RowOffset(ch), 2 * s.j + ColOffset(ch))
  }

  /** The packed slot a sensor pixel lands in. */
  function BayerSlot(p: Pixel): (s: Slot)
    ensures s.k < 4
  {
    var ch := if p.row % 2 == 0 then (if p.col % 2 == 0 then Red else Green1)
              else (if p.col % 2 == 0 then Green2 else Blue);
    Slot(p.row / 2, p.col / 2, ChannelIndex(ch))
  }

  /** Every pixel lands in a slot that holds exactly that pixel. */
  lemma SourceOfBayerSlot(p: Pixel)
    ensures SourcePixel(BayerSlot(p)) == p
  {
  }

  /** Every slot holds a pixel that lands back in that slot: with the lemma
      above, SourcePixel and BayerSlot are inverse bijections. */
  lemma BayerSlotOfSource(s: Slot)
    requires s.k < 4
    ensures BayerSlot(SourcePixel(s)) == s
  {
  }

  /** For an even (h, w) grid, the slots of the (h/2, w/2, 4) array and the
      pixels of the grid correspond one to one. */
  lemma SlotInRangeIffPixelInRange(h: nat, w: nat, s: Slot)
    requires h % 2 == 0 && w % 2 == 0 && s.k < 4
    ensures (s.i < h / 2 && s.j < w / 2) <==>
            (SourcePixel(s).row < h && SourcePixel(s).col < w)
  {
  }

  /** Number of indices in range(start, n, 2), the length of slice start:n:2. */
  function SliceCount(n: nat, start: nat): nat {
    if n <= start then 0 else (n - start + 1) / 2
  }

  /** SliceCount(n, start) is the least r with start + 2r >= n: the indices
      start, start + 2, ... below n are exactly those of the form start + 2k, k < r. */
  lemma SliceCountIsRangeLength(n: nat, start: nat)
    ensures start + 2 * SliceCount(n, start) >= n
    ensures SliceCount(n, start) > 0 ==> start + 2 * (SliceCount(n, start) - 1) < n
  {
  }

  /** im[r0:H:2, c0:W:2, :]: every second row from r0 and every second column from c0. */
  function StridedSlice<T>(a: Array3<T>, r0: nat, c0: nat): (r: Array3<T>)
    requires Valid3(a)
    ensures Valid3(r)
    ensures r.d0 == SliceCount(a.d0, r0) && r.d1 == SliceCount(a.d1, c0) && r.d2 == a.d2
  {
    var h := SliceCount(a.d0, r0);
    var w := SliceCount(a.d1, c0);
    Array3(h, w, a.d2, seq(h, i requires 0 <= i < h =>
      seq(w, j requires 0 <= j < w => a.v[r0 + 2 * i][c0 + 2 * j])))
  }

  /** np.concatenate((a, b, c, d), axis=2): the arrays must agree on axes 0 and 1. */
  function Concat4Axis2<T>(a: Array3<T>, b: Array3<T>, c: Array3<T>, d: Array3<T>): (r: Result<Array3<T>>)
    requires Valid3(a) && Valid3(b) && Valid3(c) && Valid3(d)
    ensures r.Ok? <==> (a.d0 == b.d0 == c.d0 == d.d0 && a.d1 == b.d1 == c.d1 == d.d1)
    ensures r.Ok? ==> Valid3(r.value) && r.value.d0 == a.d0 && r.value.d1 == a.d1
    ensures r.Ok? ==> r.value.d2 == a.d2 + b.d2 + c.d2 + d.d2
  {
    if a.d0 == b.d0 == c.d0 == d.d0 && a.d1 == b.d1 == c.d1 == d.d1 then
      Ok(Array3(a.d0, a.d1, a.d2 + b.d2 + c.d2 + d.d2, seq(a.d0, i requires 0 <= i < a.d0 =>
        seq(a.d1, j requires 0 <= j < a.d1 => a.v[i][j] + b.v[i][j] + c.v[i][j] + d.v[i][j]))))
    else
      Err(ConcatMismatch)
  }

  /** Entry (i, j, _) of the concatenation lists a's entries, then b's, c's and d's. */
  lemma Concat4Axis2At<T>(a: Array3<T>, b: Array3<T>, c: Array3<T>, d: Array3<T>, i: nat, j: nat)
    requires Valid3(a) && Valid3(b) && Valid3(c) && Valid3(d)
    requires a.d0 == b.d0 == c.d0 == d.d0 && a.d1 == b.d1 == c.d1 == d.d1
    requires i < a.d0 && j < a.d1
    ensures Concat4Axis2(a, b, c, d).Ok? && Valid3(Concat4Axis2(a, b, c, d).value)
    ensures Concat4Axis2(a, b, c, d).value.v[i][j] == a.v[i][j] + b.v[i][j] + c.v[i][j] + d.v[i][j]
  {
  }

  /** The slice of one Bayer plane. */
  function Plane<T>(im: Array3<T>, ch: BayerChannel): (r: Array3<T>)
    requires Valid3(im)
    ensures Valid3(r) && r.d2 == im.d2
    ensures r.d0 == SliceCount(im.d0, RowOffset(ch)) && r.d1 == SliceCount(im.d1, ColOffset(ch))
  {
    StridedSlice(im, RowOffset(ch), ColOffset(ch))
  }

  /** The layout half of pack_raw: slice the four planes and stack them on axis 2. */
  function PackBayer<T>(im: Array3<T>): (r: Result<Array3<T>>)
    requires Valid3(im)
    ensures r.Ok? ==> Valid3(r.value)
  {
    Concat4Axis2(Plane(im, Red), Plane(im, Green1), Plane(im, Blue), Plane(im, Green2))
  }

  /** np.expand_dims(im, axis=2): shape (H, W) becomes (H, W, 1). */
  function ExpandDims<T>(a: Array2<T>): (r: Array3<T>)
    requires Valid2(a)
    ensures Valid3(r) && r.d0 == a.d0 && r.d1 == a.d1 && r.d2 == 1
  {
    Array3(a.d0, a.d1, 1, seq(a.d0, i requires 0 <= i < a.d0 =>
      seq(a.d1, j requires 0 <= j < a.d1 => [a.v[i][j]])))
  }

  /** Entry (i, j) of the expanded array is the one-element list of entry (i, j). */
  lemma ExpandDimsAt<T>(a: Array2<T>, i: nat, j: nat)
    requires Valid2(a) && i < a.d0 && j < a.d1
    ensures ExpandDims(a).v[i][j] == [a.v[i][j]]
  {
  }

  /** pack_raw applied to the visible raw image. */
  function PackRaw(raw: Array2<Uint16>): (r: Result<Array3<real>>)
    requires Valid2(raw)
    ensures r.Ok? ==> Valid3(r.value)
  {
    PackBayer(ExpandDims(Map2(Normalize, raw)))
  }

  /** The slices start:n:2 for start 0 and 1 have equal length exactly when n is even. */
  lemma SliceCountsAgree(n: nat)
    ensures SliceCount(n, 0) == SliceCount(n, 1) <==> n % 2 == 0
    ensures n % 2 == 0 ==> SliceCount(n, 0) == n / 2
  {
  }

  /** Packing succeeds exactly for even height and width, and then has
      shape (H/2, W/2, 4 * C). */
  lemma PackBayerShape<T>(im: Array3<T>)
    requires Valid3(im)
    ensures PackBayer(im).Ok? <==> im.d0 % 2 == 0 && im.d1 % 2 == 0
    ensures PackBayer(im).Ok? ==>
      var out := PackBayer(im).value;
      Valid3(out) && out.d0 == im.d0 / 2 && out.d1 == im.d1 / 2 && out.d2 == 4 * im.d2
  {
    SliceCountsAgree(im.d0);
    SliceCountsAgree(im.d1);
  }

  /** Shape rule of pack_raw: an even (H, W) frame packs to (H/2, W/2, 4);
      an odd side makes the concatenation fail. */
  lemma PackRawShape(raw: Array2<Uint16>)
    requires Valid2(raw)
    ensures PackRaw(raw).Ok? <==> raw.d0 % 2 == 0 && raw.d1 % 2 == 0
    ensures PackRaw(raw).Ok? ==>
      var out := PackRaw(raw).value;
      Valid3(out) && out.d0 == raw.d0 / 2 && out.d1 == raw.d1 / 2 && out.d2 == 4
  {
    PackBayerShape(ExpandDims(Map2(Normalize, raw)));
  }

  /** The plane of channel ch of an even-sized image has half its height
      and width, and its (i, j) entry is the tile's entry for ch. */
  lemma PlaneAt<T>(im: Array3<T>, ch: BayerChannel, i: nat, j: nat)
    requires Valid3(im) && im.d0 % 2 == 0 && im.d1 % 2 == 0
    requires i < im.d0 / 2 && j < im.d1 / 2
    ensures Plane(im, ch).d0 == im.d0 / 2 && Plane(im, ch).d1 == im.d1 / 2
    ensures 2 * i + RowOffset(ch) < im.d0 && 2 * j + ColOffset(ch) < im.d1
    ensures Plane(im, ch).v[i][j] == im.v[2 * i + RowOffset(ch)][2 * j + ColOffset(ch)]
  {
    SliceCountsAgree(im.d0);
    SliceCountsAgree(im.d1);
  }

  /** Packed pixel (i, j) is the concatenation of the 2x2 tile at (2i, 2j)
      in the order red, green 1, blue, green 2. */
  lemma PackBayerAt<T>(im: Array3<T>, i: nat, j: nat)
    requires Valid3(im) && im.d0 % 2 == 0 && im.d1 % 2 == 0
    requires i < im.d0 / 2 && j < im.d1 / 2
    ensures PackBayer(im).Ok? && Valid3(PackBayer(im).value)
    ensures PackBayer(im).value.d0 == im.d0 / 2 && PackBayer(im).value.d1 == im.d1 / 2
    ensures PackBayer(im).value.v[i][j] ==
      im.v[2 * i][2 * j] + im.v[2 * i][2 * j + 1] + im.v[2 * i + 1][2 * j + 1] + im.v[2 * i + 1][2 * j]
  {
    PackBayerShape(im);
    PlaneAt(im, Red, i, j);
    PlaneAt(im, Green1, i, j);
    PlaneAt(im, Blue, i, j);
    PlaneAt(im, Green2, i, j);
    Concat4Axis2At(Plane(im, Red), Plane(im, Green1), Plane(im, Blue), Plane(im, Green2), i, j);
  }

  /** Channel order of pack_raw: packed pixel (i, j) holds the normalised
      2x2 tile at (2i, 2j) as red, green 1, blue, green 2. */
  lemma PackRawChannelOrder(raw: Array2<Uint16>, i: nat, j: nat)
    requires Valid2(raw) && raw.d0 % 2 == 0 && raw.d1 % 2 == 0
    requires i < raw.d0 / 2 && j < raw.d1 / 2
    ensures PackRaw(raw).Ok? && Valid3(PackRaw(raw).value)
    ensures PackRaw(raw).value.d0 == raw.d0 / 2 && PackRaw(raw).value.d1 == raw.d1 / 2
    ensures PackRaw(raw).value.v[i][j] ==
      [Normalize(raw.v[2 * i][2 * j]), Normalize(raw.v[2 * i][2 * j + 1]),
       Normalize(raw.v[2 * i + 1][2 * j + 1]), Normalize(raw.v[2 * i + 1][2 * j])]
  {
    var n := Map2(Normalize, raw);
    var im := ExpandDims(n);
    PackBayerAt(im, i, j);
    ExpandDimsAt(n, 2 * i, 2 * j);
    ExpandDimsAt(n, 2 * i, 2 * j + 1);
    ExpandDimsAt(n, 2 * i + 1, 2 * j + 1);
    ExpandDimsAt(n, 2 * i + 1, 2 * j);
  }

  /** Entry k of the normalised tile at (i, j), listed red, green 1, blue,
      green 2, is the normalised value of the pixel SourcePixel names. */
  lemma TileEntry(raw: Array2<Uint16>, s: Slot)
    requires Valid2(raw) && 2 * s.i + 1 < raw.d0 && 2 * s.j + 1 < raw.d1 && s.k < 4
    ensures SourcePixel(s).row < raw.d0 && SourcePixel(s).col < raw.d1
    ensures [Normalize(raw.v[2 * s.i][2 * s.j]), Normalize(raw.v[2 * s.i][2 * s.j + 1]),
             Normalize(raw.v[2 * s.i + 1][2 * s.j + 1]), Normalize(raw.v[2 * s.i + 1][2 * s.j])][s.k]
            == Normalize(raw.v[SourcePixel(s).row][SourcePixel(s).col])
  {
  }

  /** Every packed slot holds the normalised value of its source pixel. */
  lemma PackRawAt(raw: Array2<Uint16>, s: Slot)
    requires Valid2(raw) && raw.d0 % 2 == 0 && raw.d1 % 2 == 0
    requires s.i < raw.d0 / 2 && s.j < raw.d1 / 2 && s.k < 4
    ensures PackRaw(raw).Ok? && Valid3(PackRaw(raw).value)
    ensures PackRaw(raw).value.d0 == raw.d0 / 2 && PackRaw(raw).value.d1 == raw.d1 / 2
    ensures PackRaw(raw).value.d2 == 4
    ensures SourcePixel(s).row < raw.d0 && SourcePixel(s).col < raw.d1
    ensures PackRaw(raw).value.v[s.i][s.j][s.k] ==
      Normalize(raw.v[SourcePixel(s).row][SourcePixel(s).col])
  {
    PackRawChannelOrder(raw, s.i, s.j);
    TileEntry(raw, s);
  }

  /** Every sensor pixel lands in exactly one packed slot, BayerSlot, and
      its normalised value is found there; distinct pixels land in
      distinct slots. */
  lemma PackRawCoversEveryPixel(raw: Array2<Uint16>, p: Pixel, q: Pixel)
    requires Valid2(raw) && raw.d0 % 2 == 0 && raw.d1 % 2 == 0
    requires p.row < raw.d0 && p.col < raw.d1
    ensures PackRaw(raw).Ok? && Valid3(PackRaw(raw).value)
    ensures PackRaw(raw).value.d0 == raw.d0 / 2 && PackRaw(raw).value.d1 == raw.d1 / 2
    ensures PackRaw(raw).value.d2 == 4
    ensures var s := BayerSlot(p);
      && s.i < raw.d0 / 2 && s.j < raw.d1 / 2
      && PackRaw(raw).value.v[s.i][s.j][s.k] == Normalize(raw.v[p.row][p.col])
    ensures BayerSlot(q) == BayerSlot(p) ==> q == p
  {
    var s := BayerSlot(p);
    SourceOfBayerSlot(p);
    SourceOfBayerSlot(q);
    PackRawAt(raw, s);
  }

  /** Every packed value is non-negative, and at most one when no count
      exceeds the white level. */
  lemma PackRawRange(raw: Array2<Uint16>)
    requires Valid2(raw) && PackRaw(raw).Ok?
    ensures Valid3(PackRaw(raw).value) && PackRaw(raw).value.d2 == 4
    ensures var out := PackRaw(raw).value;
      forall i, j, k :: 0 <= i < out.d0 && 0 <= j < out.d1 && 0 <= k < out.d2 ==>
        out.v[i][j][k] >= 0.0
    ensures (forall r, c :: 0 <= r < raw.d0 && 0 <= c < raw.d1 ==> raw.v[r][c] <= WhiteLevel) ==>
      var out := PackRaw(raw).value;
      forall i, j, k :: 0 <= i < out.d0 && 0 <= j < out.d1 && 0 <= k < out.d2 ==>
        out.v[i][j][k] <= 1.0
  {
    // Dafny can find this proof unaided, but only close to its resource
    // limit; the slot-by-slot argument below keeps it cheap and stable.
    PackRawShape(raw);
    var out := PackRaw(raw).value;
    forall i, j, k | 0 <= i < out.d0 && 0 <= j < out.d1 && 0 <= k < out.d2
      ensures out.v[i][j][k] >= 0.0
      ensures (forall r, c :: 0 <= r < raw.d0 && 0 <= c < raw.d1 ==> raw.v[r][c] <= WhiteLevel) ==>
        out.v[i][j][k] <= 1.0
    {
      var s := Slot(i, j, k);
      PackRawAt(raw, s);
      NormalizeRange(raw.v[SourcePixel(s).row][SourcePixel(s).col]);
    }
  }
}
