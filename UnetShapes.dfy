/** The U-Net of Learning_in_Dark.py as a shape transformer. Each layer maps
    the shape (N, C, H, W) of its input tensor to the shape of its output,
    or to the error torch raises; weights and arithmetic are not modelled. */
module UnetShapes {
  import opened Tensors

  /** Shape of an NCHW tensor: batch, channels, height, width. */
  datatype Shape = Shape(n: nat, c: nat, h: nat, w: nat)

  /** nn.Conv2d(inCh, outCh, k, padding=pad) with stride 1: each side
      becomes side + 2 * pad - k + 1; the padded input must cover the kernel. */
  function Conv2d(inCh: nat, outCh: nat, k: nat, pad: nat, x: Shape): (r: Result<Shape>)
    ensures x.c != inCh ==> r == Err(ChannelMismatch)
    ensures r.Ok? <==> x.c == inCh && k <= x.h + 2 * pad && k <= x.w + 2 * pad
    ensures r.Ok? ==> r.value.n == x.n && r.value.c == outCh && r.value.h >= 1 && r.value.w >= 1
    ensures r.Ok? ==> r.value.h == x.h + 2 * pad - k + 1 && r.value.w == x.w + 2 * pad - k + 1
  {
    if x.c != inCh then Err(ChannelMismatch)
    else if x.h + 2 * pad < k || x.w + 2 * pad < k then Err(InputTooSmall)
    else Ok(Shape(x.n, outCh, x.h + 2 * pad - k + 1, x.w + 2 * pad - k + 1))
  }

  /** nn.BatchNorm2d(ch): same shape, ch channels expected. */
  function BatchNorm2d(ch: nat, x: Shape): (r: Result<Shape>)
    ensures r.Ok? <==> x.c == ch
    ensures r.Ok? ==> r.value == x
  {
    if x.c != ch then Err(ChannelMismatch) else Ok(x)
  }

  /** nn.LeakyReLU: element-wise, so the shape is unchanged. */
  function LeakyRelu(x: Shape): (r: Shape)
    ensures r.n == x.n && r.c == x.c && r.h == x.h && r.w == x.w
  {
    x
  }

  /** nn.MaxPool2d(k): kernel and stride k, each side becomes (side - k) / k + 1. */
  function MaxPool2d(k: nat, x: Shape): (r: Result<Shape>)
    requires k > 0
    ensures r.Ok? <==> x.h >= k && x.w >= k
    ensures r.Ok? ==> r.value.n == x.n && r.value.c == x.c && r.value.h >= 1 && r.value.w >= 1
    ensures r.Ok? ==> r.value.h == (x.h - k) / k + 1 && r.value.w == (x.w - k) / k + 1
  {
    if x.h < k || x.w < k then Err(InputTooSmall)
    else Ok(Shape(x.n, x.c, (x.h - k) / k + 1, (x.w - k) / k + 1))
  }

  /** nn.ConvTranspose2d(inCh, outCh, k, stride) without padding: each side
      becomes (side - 1) * stride + k. */
  function ConvTranspose2d(inCh: nat, outCh: nat, k: nat, stride: nat, x: Shape): (r: Result<Shape>)
    ensures r.Ok? <==> x.c == inCh && x.h > 0 && x.w > 0
    ensures r.Ok? ==> r.value.n == x.n && r.value.c == outCh && r.value.h >= k && r.value.w >= k
    ensures r.Ok? ==> r.value.h == (x.h - 1) * stride + k && r.value.w == (x.w - 1) * stride + k
  {
    if x.c != inCh then Err(ChannelMismatch)
    else if x.h == 0 || x.w == 0 then Err(InputTooSmall)
    else Ok(Shape(x.n, outCh, (x.h - 1) * stride + k, (x.w - 1) * stride + k))
  }

  /** torch.cat([a, b], dim=1): channels add up; batch, height and width must agree. */
  function CatChannels(a: Shape, b: Shape): (r: Result<Shape>)
    ensures r.Ok? <==> a.n == b.n && a.h == b.h && a.w == b.w
    ensures r.Ok? ==> r.value.c == a.c + b.c && r.value.n == a.n && r.value.h == a.h && r.value.w == a.w
  {
    if a.n == b.n && a.h == b.h && a.w == b.w then Ok(Shape(a.n, a.c + b.c, a.h, a.w))
    else Err(ConcatMismatch)
  }

  /** Upscale factor of the network's nn.PixelShuffle. */
  const UpscaleFactor: nat := 2

  /** nn.PixelShuffle(f) with f = UpscaleFactor: channels must divide by
      f * f; (N, C, H, W) becomes (N, C / (f * f), f H, f W). */
  function PixelShuffle(x: Shape): (r: Result<Shape>)
    ensures r.Ok? <==> x.c % (UpscaleFactor * UpscaleFactor) == 0
    ensures r.Ok? ==> r.value.n == x.n && r.value.c * (UpscaleFactor * UpscaleFactor) == x.c
    ensures r.Ok? ==> r.value.h == UpscaleFactor * x.h && r.value.w == UpscaleFactor * x.w
  {
    var f := UpscaleFactor;
    if x.c % (f * f) != 0 then Err(ChannelsNotDivisible)
    else Ok(Shape(x.n, x.c / (f * f), x.h * f, x.w * f))
  }

  /** Number of elements of a tensor of shape x. */
  function Elements(x: Shape): nat {
    x.n * x.c * x.h * x.w
  }

  /** Pixel shuffle only rearranges: the number of elements is unchanged. */
  lemma PixelShufflePreservesElements(x: Shape)
    requires PixelShuffle(x).Ok?
    ensures Elements(PixelShuffle(x).value) == Elements(x)
  {
  }

  /** DoubleConv(inCh, outCh): (Conv2d 3x3 pad 1, BatchNorm2d, LeakyReLU) twice. */
  function DoubleConv(inCh: nat, outCh: nat, x: Shape): (r: Result<Shape>)
    ensures r.Ok? <==> x.c == inCh && x.h >= 1 && x.w >= 1
    ensures r.Ok? ==> r.value == Shape(x.n, outCh, x.h, x.w)
  {
    match Conv2d(inCh, outCh, 3, 1, x)
    case Err(e) => Err(e)
    case Ok(a) =>
      match BatchNorm2d(outCh, a)
      case Err(e) => Err(e)
      case Ok(b) =>
        match Conv2d(outCh, outCh, 3, 1, LeakyRelu(b))
        case Err(e) => Err(e)
        case Ok(c) =>
          match BatchNorm2d(outCh, c)
          case Err(e) => Err(e)
          case Ok(d) =>
            Ok(LeakyRelu(d))
  }

  /** Down(inCh, outCh): MaxPool2d(2) then DoubleConv, halving each side (rounding down). */
  function Down(inCh: nat, outCh: nat, x: Shape): (r: Result<Shape>)
    ensures r.Ok? <==> x.c == inCh && x.h >= 2 && x.w >= 2
    ensures r.Ok? ==> r.value == Shape(x.n, outCh, x.h / 2, x.w / 2)
  {
    match MaxPool2d(2, x)
    case Err(e) => Err(e)
    case Ok(p) =>
      DoubleConv(inCh, outCh, p)
  }

  /** Up(inCh, outCh): ConvTranspose2d(inCh, inCh / 2, 2, stride 2) doubles
      each side of x1, the skip x2 is concatenated in front of it, and
      DoubleConv(inCh, outCh) follows. */
  function Up(inCh: nat, outCh: nat, x1: Shape, x2: Shape): (r: Result<Shape>)
    ensures r.Ok? <==>
      && x1.c == inCh && x1.h >= 1 && x1.w >= 1
      && x2.n == x1.n && x2.h == 2 * x1.h && x2.w == 2 * x1.w
      && x2.c + inCh / 2 == inCh
    ensures r.Ok? ==> r.value == Shape(x1.n, outCh, x2.h, x2.w)
  {
    match ConvTranspose2d(inCh, inCh / 2, 2, 2, x1)
    case Err(e) => Err(e)
    case Ok(u) =>
      match CatChannels(x2, u)
      case Err(e) => Err(e)
      case Ok(x) =>
        DoubleConv(inCh, outCh, x)
  }

  /** OutConv(inCh, outCh): a 1x1 convolution, changing channels only. */
  function OutConv(inCh: nat, outCh: nat, x: Shape): (r: Result<Shape>)
    ensures r.Ok? <==> x.c == inCh && x.h >= 1 && x.w >= 1
    ensures r.Ok? ==> r.value == Shape(x.n, outCh, x.h, x.w)
  {
    Conv2d(inCh, outCh, 1, 0, x)
  }

  /** The part of Unet.forward between inc and outc, read from the outside
      in: the level of the given depth with ch channels applies
      Down(ch, 2 ch), the level below it with 2 ch channels, and
      Up(2 ch, ch) meeting the skip x. Level(4, 32, x1) is down1 .. down4
      followed by up1 .. up4. */
  function Level(depth: nat, ch: nat, x: Shape): (r: Result<Shape>)
    ensures r.Ok? ==> r.value == x
    decreases depth
  {
    if depth == 0 then Ok(x)
    else
      match Down(ch, 2 * ch, x)
      case Err(e) => Err(e)
      case Ok(inner) =>
        match Level(depth - 1, 2 * ch, inner)
        case Err(e) => Err(e)
        case Ok(y) =>
          Up(2 * ch, ch, y, x)
  }

  /** down1 .. down4 and up1 .. up4 of Unet.forward spelled out one call
      at a time, each up stage meeting the skip of its depth. */
  function UnrolledLevels(x1: Shape): (r: Result<Shape>)
    ensures r.Ok? ==> r.value == x1
  {
    match Down(32, 64, x1)
    case Err(e) => Err(e)
    case Ok(x2) =>
      match Down(64, 128, x2)
      case Err(e) => Err(e)
      case Ok(x3) =>
        match Down(128, 256, x3)
        case Err(e) => Err(e)
        case Ok(x4) =>
          match Down(256, 512, x4)
          case Err(e) => Err(e)
          case Ok(x5) =>
            match Up(512, 256, x5, x4)
            case Err(e) => Err(e)
            case Ok(y1) =>
              match Up(256, 128, y1, x3)
              case Err(e) => Err(e)
              case Ok(y2) =>
                match Up(128, 64, y2, x2)
                case Err(e) => Err(e)
                case Ok(y3) =>
                  Up(64, 32, y3, x1)
  }

  /** The recursive reading of the encoder-decoder is the call sequence of
      Unet.forward: the same layers, in the same order, with the same
      skips, on every input. */
  lemma LevelIsUnrolled(x1: Shape)
    ensures Level(4, 32, x1) == UnrolledLevels(x1)
  {
  }

  /** Unet.forward with the channel counts fixed by Unet.__init__. */
  function Forward(x: Shape): (r: Result<Shape>)
    ensures r.Ok? ==> r.value.n == x.n && r.value.c == 3
  {
    match DoubleConv(4, 32, x)
    case Err(e) => Err(e)
    case Ok(x1) =>
      match Level(4, 32, x1)
      case Err(e) => Err(e)
      case Ok(y4) =>
        match OutConv(32, 12, y4)
        case Err(e) => Err(e)
        case Ok(y) =>
          PixelShuffle(y)
  }

  /** s can be halved exactly the given number of times: it is divisible
      by 2 to that power. */
  predicate HalvesExactly(times: nat, s: nat)
    decreases times
  {
    times == 0 || (s % 2 == 0 && HalvesExactly(times - 1, s / 2))
  }

  /** Halving exactly four times means being a multiple of 16. */
  lemma HalvesFourTimes(s: nat)
    ensures HalvesExactly(4, s) <==> s % 16 == 0
  {
    assert HalvesExactly(4, s) ==
      (s % 2 == 0 && (s / 2) % 2 == 0 && (s / 2 / 2) % 2 == 0 && (s / 2 / 2 / 2) % 2 == 0);
    EvenHalvings(s);
  }

  /** The four low bits of s are zero exactly when s is a multiple of 16. */
  lemma EvenHalvings(s: nat)
    ensures (s % 2 == 0 && (s / 2) % 2 == 0 && (s / 2 / 2) % 2 == 0 && (s / 2 / 2 / 2) % 2 == 0)
      <==> s % 16 == 0
  {
    var q, r := s / 16, s % 16;
    assert s == 16 * q + r;
    assert s / 2 / 2 / 2 == 2 * q + r / 8;
  }

  /** Shape theorem of one U-Net level: at depth 0 nothing happens;
      otherwise the level succeeds exactly on ch-channel inputs whose sides
      can be halved exactly depth times, so that every pooling is exact and
      every skip meets its upsampled partner, and it then gives back the
      shape it was given. */
  lemma {:induction false} LevelShape(depth: nat, ch: nat, x: Shape)
    ensures depth == 0 ==> Level(depth, ch, x) == Ok(x)
    ensures depth > 0 ==>
      (Level(depth, ch, x).Ok? <==>
        x.c == ch && x.h > 0 && x.w > 0 && HalvesExactly(depth, x.h) && HalvesExactly(depth, x.w))
    ensures Level(depth, ch, x).Ok? ==> Level(depth, ch, x).value == x
    decreases depth
  {
    if depth > 0 {
      var d := Down(ch, 2 * ch, x);
      if d.Ok? {
        LevelShape(depth - 1, 2 * ch, d.value);
      }
    }
  }

  /** Shape theorem of Unet.forward: it accepts exactly the 4-channel
      inputs whose height and width are positive multiples of 16, and then
      returns 3 channels at twice the height and width. */
  lemma ForwardShape(x: Shape)
    ensures Forward(x).Ok? <==> x.c == 4 && x.h > 0 && x.w > 0 && x.h % 16 == 0 && x.w % 16 == 0
    ensures Forward(x).Ok? ==> Forward(x).value == Shape(x.n, 3, 2 * x.h, 2 * x.w)
  {
    if DoubleConv(4, 32, x).Ok? {
      LevelShape(4, 32, DoubleConv(4, 32, x).value);
      HalvesFourTimes(x.h);
      HalvesFourTimes(x.w);
    }
  }

  /** The channel path through the network for an accepted input: the
      encoder goes 4 -> 32 -> 64 -> 128 -> 256 -> 512 while halving the
      sides, each decoder stage meets its skip at equal size and goes
      512 -> 256 -> 128 -> 64 -> 32, and the head gives 12 channels. */
  lemma ChannelPath(x: Shape)
    requires x.c == 4 && x.h > 0 && x.w > 0 && x.h % 16 == 0 && x.w % 16 == 0
    ensures var x1 := Shape(x.n, 32, x.h, x.w);
      var x2 := Shape(x.n, 64, x.h / 2, x.w / 2);
      var x3 := Shape(x.n, 128, x.h / 4, x.w / 4);
      var x4 := Shape(x.n, 256, x.h / 8, x.w / 8);
      var x5 := Shape(x.n, 512, x.h / 16, x.w / 16);
      var y1 := Shape(x.n, 256, x.h / 8, x.w / 8);
      var y2 := Shape(x.n, 128, x.h / 4, x.w / 4);
      var y3 := Shape(x.n, 64, x.h / 2, x.w / 2);
      var y4 := Shape(x.n, 32, x.h, x.w);
      && DoubleConv(4, 32, x) == Ok(x1)
      && Down(32, 64, x1) == Ok(x2)
      && Down(64, 128, x2) == Ok(x3)
      && Down(128, 256, x3) == Ok(x4)
      && Down(256, 512, x4) == Ok(x5)
      && Up(512, 256, x5, x4) == Ok(y1)
      && Up(256, 128, y1, x3) == Ok(y2)
      && Up(128, 64, y2, x2) == Ok(y3)
      && Up(64, 32, y3, x1) == Ok(y4)
      && OutConv(32, 12, y4) == Ok(Shape(x.n, 12, x.h, x.w))
  {
    Quarters(x.h);
    Quarters(x.w);
  }

  /** Repeated halving of a multiple of 16 is exact. */
  lemma Quarters(s: nat)
    requires s > 0 && s % 16 == 0
    ensures s / 2 / 2 == s / 4 && s / 4 / 2 == s / 8 && s / 8 / 2 == s / 16
    ensures s / 2 >= 2 && s / 4 >= 2 && s / 8 >= 2 && s / 16 >= 1
    ensures 2 * (s / 16) == s / 8 && 2 * (s / 8) == s / 4 && 2 * (s / 4) == s / 2 && 2 * (s / 2) == s
  {
  }
}
