# Low-light raw denoising: packing, layout and U-Net shapes

This project models the deterministic array logic of `Learning_in_Dark.py`,
a script that denoises raw Sony sensor frames with a U-Net. Three parts are
modelled, each as pure functions with lemmas about them.

- **Bayer packing** (`pack_raw`), in module `RawPacking`. A 2-D grid of
  16-bit sensor counts goes through these steps:
  - the black level 512 is subtracted and the result clamped at zero;
  - the result is divided by the dynamic range 16383 - 512;
  - a third axis of size 1 is added;
  - the grid is split into the four interleaved planes of the 2x2 Bayer tile
    (red, green 1, blue, green 2) by stride-2 slicing;
  - the planes are concatenated on the channel axis.

  Arrays carry their numpy shape (`Tensors.Array2`, `Tensors.Array3`). A
  slice of a zero-length axis therefore keeps the sizes of its other axes,
  which numpy compares when it concatenates. An odd height or width makes
  the four slices differ in size, so the concatenation fails. This is
  modelled as `Err(ConcatMismatch)`.
- **Layout transforms** (`numpy_to_torch`, the clip before the network and
  the clamp after it, the final transpose), in module `Layout`. Module
  `Inference` composes them into the data flow of `display_custom_image`:
  pack, amplify by the exposure ratio, clip to [0, 1], transpose to CHW, add
  a batch axis, run the network, clamp, and transpose back to HWC.
- **The U-Net's shape algebra** (`DoubleConv`, `Down`, `Up`, `OutConv`,
  `Unet.forward`, `nn.PixelShuffle(2)`), in module `UnetShapes`.
  - Each layer maps an NCHW shape to its output shape, using PyTorch's
    output-size formulas, or to the error the layer raises.
  - `Forward` reads the encoder-decoder recursively: a level applies
    `Down`, then the level below it, then the `Up` that meets its skip.
  - `UnetShapes.LevelIsUnrolled` proves that this recursion is exactly the
    call sequence `d1 .. d4, u1 .. u4` written in `forward`.

Main results:

- `RawPacking.PackRawShape`: packing succeeds exactly when H and W are
  even, and gives shape (H/2, W/2, 4).
- `RawPacking.PackRawAt` and `RawPacking.PackRawCoversEveryPixel`: every
  slot holds the normalised count of exactly one sensor pixel, and every
  pixel is held by exactly one slot.
- `UnetShapes.ForwardShape`: the network accepts exactly the 4-channel
  inputs whose height and width are positive multiples of 16. It then
  returns 3 channels at twice the height and width.
- `Inference.PredictionShapeSpec`: end to end, a raw frame gets through
  packing and the network exactly when H and W are positive multiples of
  32. The prediction then has shape (1, 3, H, W).

## Model

| member | source | states |
|---|---|---|
| RawPacking.Normalize | Learning_in_Dark.py:36 | black-level subtraction, clamp at zero and division by 16383 - 512; the result is never negative, and is zero exactly for counts at or below the black level |
| RawPacking.NormalizeBlack | Learning_in_Dark.py:36 | a count at or below the black level 512 normalises to 0 |
| RawPacking.NormalizeAboveBlack | Learning_in_Dark.py:36 | a count x above 512 normalises to (x - 512) / 15871, which is positive, and scaling back recovers x |
| RawPacking.NormalizeRange | Learning_in_Dark.py:36 | normalised values are never negative, are at most 1 for counts up to the white level 16383, and are exactly 1 at it |
| RawPacking.NormalizeMonotone | Learning_in_Dark.py:36 | normalisation preserves the order of counts, and strictly so above the black level |
| RawPacking.SourceOfBayerSlot | Learning_in_Dark.py:44-47 | the slot a pixel lands in holds that very pixel |
| RawPacking.BayerSlotOfSource | Learning_in_Dark.py:44-47 | the pixel a slot holds lands back in that slot, so slots and pixels are in bijection |
| RawPacking.SlotInRangeIffPixelInRange | Learning_in_Dark.py:39-47 | for an even H x W grid, a slot lies inside (H/2, W/2, 4) exactly when its source pixel lies inside the grid |
| RawPacking.SliceCountIsRangeLength | Learning_in_Dark.py:44-47 | the length of slice start:n:2 is the number of indices start, start + 2, ... below n |
| RawPacking.SliceCountsAgree | Learning_in_Dark.py:44-50 | the slices 0:n:2 and 1:n:2 have equal length exactly when n is even, and that length is n/2 |
| RawPacking.StridedSlice | Learning_in_Dark.py:44-47 | the slice r0:H:2, c0:W:2 has SliceCount(H, r0) rows, SliceCount(W, c0) columns and all channels |
| RawPacking.Plane | Learning_in_Dark.py:44-47 | the slice of one Bayer plane, starting at that plane's row and column offset in the 2x2 tile; its shape is the SliceCount of each side and all channels |
| RawPacking.PlaneAt | Learning_in_Dark.py:44-47 | for even H and W each plane is (H/2, W/2), and its entry (i, j) is the image entry at (2i + row offset, 2j + column offset) of that plane's tile position |
| RawPacking.Concat4Axis2 | Learning_in_Dark.py:50 | concatenation on axis 2 succeeds exactly when the four arrays agree on axes 0 and 1, and the channel counts then add up |
| RawPacking.Concat4Axis2At | Learning_in_Dark.py:50 | entry (i, j) of the concatenation is the entries (i, j) of the four arrays, in order |
| RawPacking.ExpandDims | Learning_in_Dark.py:37 | expand_dims on axis 2 turns shape (H, W) into (H, W, 1) |
| RawPacking.ExpandDimsAt | Learning_in_Dark.py:37 | entry (i, j) of the expanded array is the one-element list of entry (i, j) |
| RawPacking.PackBayer | Learning_in_Dark.py:39-50 | the four plane slices concatenated on axis 2; a successful result is a well-formed 3-D array (shape in PackBayerShape, entries in PackBayerAt) |
| RawPacking.PackBayerShape | Learning_in_Dark.py:39-50 | slicing and concatenation succeed exactly for even H and W, and give (H/2, W/2, 4C) |
| RawPacking.PackBayerAt | Learning_in_Dark.py:44-50 | packed entry (i, j) is the 2x2 tile at (2i, 2j) read red, green 1, blue, green 2 |
| RawPacking.PackRaw | Learning_in_Dark.py:29-51 | pack_raw: normalise, add a channel axis, then pack; a successful result is a well-formed 3-D array (shape in PackRawShape, entries in PackRawAt) |
| RawPacking.PackRawShape | Learning_in_Dark.py:29-51 | pack_raw succeeds exactly when H and W are even, and then gives (H/2, W/2, 4) |
| RawPacking.PackRawChannelOrder | Learning_in_Dark.py:35-50 | packed pixel (i, j) is the list of normalised counts at (2i, 2j), (2i, 2j+1), (2i+1, 2j+1), (2i+1, 2j) |
| RawPacking.TileEntry | Learning_in_Dark.py:44-47 | entry k of that tile list is the normalised count of the pixel that slot (i, j, k) names |
| RawPacking.PackRawAt | Learning_in_Dark.py:35-50 | every packed slot holds the normalised count of its source pixel |
| RawPacking.PackRawCoversEveryPixel | Learning_in_Dark.py:44-47 | every pixel of an even grid lands in an in-range slot that holds its normalised count, and distinct pixels land in distinct slots |
| RawPacking.PackRawRange | Learning_in_Dark.py:36 | every packed value is non-negative, and at most 1 when no count exceeds the white level |
| Layout.HwcToChw | Learning_in_Dark.py:57 | transpose (2, 0, 1) maps (H, W, C) to (C, H, W) with out[c][h][w] = in[h][w][c] |
| Layout.ChwToHwc | Learning_in_Dark.py:81 | transpose (1, 2, 0) maps (C, H, W) to (H, W, C) with out[h][w][c] = in[c][h][w] |
| Layout.ChwToHwcUndoesHwcToChw | Learning_in_Dark.py:57 | converting to CHW and back gives the original array |
| Layout.HwcToChwUndoesChwToHwc | Learning_in_Dark.py:81 | converting to HWC and back gives the original array |
| Layout.ClampValue | Learning_in_Dark.py:76 | np.clip / torch.clamp of one value; the result lies in [lo, hi] (the rest in ClampValueSpec) |
| Layout.ClampValueSpec | Learning_in_Dark.py:76 | a clipped value lies in [lo, hi], is unchanged when already inside, and is the nearest bound otherwise |
| Layout.Clamp01 | Learning_in_Dark.py:76 | element-wise clip to [0, 1]; the shape is unchanged (range in Clamp01InRange) |
| Layout.Amplify | Learning_in_Dark.py:75 | multiplication by amp_ratio; the shape is unchanged and every element is the packed element times the ratio |
| Layout.Clamp01InRange | Learning_in_Dark.py:76 | after the clip every element lies in [0, 1], and the shape is unchanged |
| Layout.Clamp01KeepsUnitRange | Learning_in_Dark.py:80 | the clamp leaves an array already in [0, 1] unchanged |
| Layout.Clamp01Idempotent | Learning_in_Dark.py:80 | clamping twice is the same as clamping once |
| Layout.Clamp01CommutesWithTranspose | Learning_in_Dark.py:76 | clipping before numpy_to_torch equals clamping the tensor after it |
| UnetShapes.Conv2d | Learning_in_Dark.py:101-104 | nn.Conv2d with stride 1: a wrong channel count is a ChannelMismatch; it succeeds exactly when the channels match and the padded input covers the kernel, and then keeps the batch, gives outCh channels and non-empty sides of side + 2 pad - k + 1 |
| UnetShapes.BatchNorm2d | Learning_in_Dark.py:102-105 | nn.BatchNorm2d succeeds exactly on its channel count and keeps the shape |
| UnetShapes.LeakyRelu | Learning_in_Dark.py:103-106 | nn.LeakyReLU is element-wise, so the shape is unchanged |
| UnetShapes.MaxPool2d | Learning_in_Dark.py:116 | nn.MaxPool2d(k) succeeds exactly when both sides are at least k, and keeps batch and channels with non-empty sides of (side - k) / k + 1 |
| UnetShapes.ConvTranspose2d | Learning_in_Dark.py:127 | nn.ConvTranspose2d succeeds exactly on its channel count with non-empty sides, and gives outCh channels with sides (side - 1) stride + k, at least the kernel size |
| UnetShapes.CatChannels | Learning_in_Dark.py:131 | torch.cat on dim 1 succeeds exactly when batch, height and width agree, and adds the channel counts |
| UnetShapes.PixelShuffle | Learning_in_Dark.py:158 | pixel shuffle with factor 2 succeeds exactly when the channels divide by 4, and gives C/4 channels at twice the height and width |
| UnetShapes.PixelShufflePreservesElements | Learning_in_Dark.py:171 | pixel shuffle keeps the number of elements |
| UnetShapes.DoubleConv | Learning_in_Dark.py:96-109 | DoubleConv(in, out) accepts exactly the in-channel inputs with non-empty sides, keeps the sides, and gives out channels |
| UnetShapes.Down | Learning_in_Dark.py:112-120 | Down(in, out) accepts exactly the in-channel inputs with both sides at least 2, halves the sides rounding down, and gives out channels |
| UnetShapes.Up | Learning_in_Dark.py:123-133 | Up(in, out) succeeds exactly when the skip has the same batch size, twice the sides and in - in/2 channels, and x1 has in channels and non-empty sides; it gives out channels at the skip's size |
| UnetShapes.OutConv | Learning_in_Dark.py:136-142 | the 1x1 convolution changes the channel count only |
| UnetShapes.Level | Learning_in_Dark.py:162-169 | the encoder-decoder read recursively (Down, the level below, Up meeting the skip); a successful level gives back its input shape, proved from the recursive call's contract |
| UnetShapes.UnrolledLevels | Learning_in_Dark.py:162-169 | forward's encoder-decoder, one layer call at a time, each Up meeting the skip of its depth; a successful result has the shape of x1 |
| UnetShapes.LevelIsUnrolled | Learning_in_Dark.py:162-169 | the recursive encoder-decoder is the sequence d1, d2, d3, d4, u1(x5, x4), u2(., x3), u3(., x2), u4(., x1) on every input |
| UnetShapes.LevelShape | Learning_in_Dark.py:162-169 | a level of depth d > 0 succeeds exactly on inputs with the right channels whose sides are positive and can be halved exactly d times, and it gives back the input shape |
| UnetShapes.Forward | Learning_in_Dark.py:160-172 | Unet.forward: inc, the four levels, outc and the pixel shuffle; a successful result keeps the batch size and has 3 channels (the rest in ForwardShape) |
| UnetShapes.ForwardShape | Learning_in_Dark.py:160-172 | the network accepts exactly (N, 4, h, w) with h and w positive multiples of 16, and then returns (N, 3, 2h, 2w) |
| UnetShapes.ChannelPath | Learning_in_Dark.py:144-172 | for an accepted input the channels go 4, 32, 64, 128, 256, 512 down; each Up meets a skip of equal size and goes 512, 256, 128, 64, 32 up; and the head gives 12 |
| Inference.NetworkInput | Learning_in_Dark.py:75-76 | pack_raw, times amp_ratio, clip, numpy_to_torch; it succeeds exactly when pack_raw does, and is then a well-formed 3-D array |
| Inference.BatchOf | Learning_in_Dark.py:76 | unsqueeze(0): a batch of one whose channels, height and width are the tensor's three dimensions |
| Inference.NetworkInputShape | Learning_in_Dark.py:75-76 | the network input exists exactly for even sensor sides, and has shape (4, H/2, W/2) |
| Inference.NetworkInputSpec | Learning_in_Dark.py:75-76 | every element of the network input lies in [0, 1], whatever the exposure ratio |
| Inference.PreparedAt | Learning_in_Dark.py:75-76 | tensor entry (k, i, j) is packed entry (i, j, k), amplified and clipped |
| Inference.NetworkInputFromPacked | Learning_in_Dark.py:75-76 | the same for the tensor built from a raw frame |
| Inference.NetworkInputAt | Learning_in_Dark.py:75-76 | two links for slot (i, j, k): tensor entry (k, i, j) is packed entry (i, j, k) amplified and clipped, and that packed entry is the normalised count of the slot's source pixel |
| Inference.DisplayedImage | Learning_in_Dark.py:80-81 | torch.clamp then transpose (1, 2, 0): a (C, H, W) prediction is shown as an (H, W, C) image |
| Inference.DisplayedImageSpec | Learning_in_Dark.py:80-81 | the displayed image of a (C, H, W) prediction has shape (H, W, C), lies in [0, 1], and is the prediction read in HWC order when the prediction already lay in [0, 1] |
| Inference.PredictionShape | Learning_in_Dark.py:75-79 | the shape of model(image) for a raw frame; a successful result means the network input existed, and has batch size 1 and 3 channels |
| Inference.PredictionIsForward | Learning_in_Dark.py:75-79 | an odd side fails in pack_raw; otherwise the prediction is the network applied to shape (1, 4, H/2, W/2) |
| Inference.BatchForward | Learning_in_Dark.py:76-79 | the network accepts the batch (1, 4, H/2, W/2) exactly when H and W are positive multiples of 32, and then returns (1, 3, H, W) |
| Inference.PredictionShapeSpec | Learning_in_Dark.py:75-79 | a raw frame goes through packing and the network exactly when H and W are positive multiples of 32, and the prediction is then (1, 3, H, W) |
| Inference.SonyFrameShapes | Learning_in_Dark.py:29-51 | a 2848 x 4256 frame packs to (1424, 2128, 4) and is denoised to (1, 3, 2848, 4256) |

## Left out

- `post_process` and every `rawpy` call: rawpy is a foreign library whose demosaicing and white balance are not visible. `raw.raw_image_visible` is the parameter `raw` of `PackRaw`, as 16-bit counts.
- The arithmetic of convolution, batch normalisation and leaky ReLU, and the learned weights: floating-point numerics with opaque parameters. These layers are modelled by their shape only.
- The element mapping of `nn.PixelShuffle`: it is PyTorch library behaviour that the script does not state. Only its shape rule and element count are modelled.
- Model loading, `torch.load`, `.to(device)`, `.cpu()`, `torch.no_grad` and device selection: I/O and hardware plumbing.
- Plotting, `scipy.misc.toimage` and file output in `display_custom_image`: user interface and I/O.
- The unused imports (optimisers, schedulers, pandas, tqdm, livelossplot): they have no behaviour in this file.
- Normalize: computed over real numbers, so the rounding of float32 in the source is not modelled.
- Amplify: the product with amp_ratio is also computed over real numbers, so its float32 rounding is not modelled either.
- torch.from_numpy: the memory the tensor shares with the numpy array (aliasing) is not modelled. The CHW tensor is a value.
- DisplayedImage: `.squeeze()` is modelled as dropping the batch axis only. A prediction with height or width 1 would lose that axis too in torch, and the following transpose would then fail; the model does not capture this.
- Inference.PredictionShape: the model runs the network on shapes only. The values of the prediction are not modelled, so DisplayedImage takes an arbitrary prediction array.
- UnetShapes.ConvTranspose2d: an input with an empty side is modelled as an error. The network never reaches that case, because `Down` already rejects sides below 2.
- UnetShapes.Conv2d, UnetShapes.MaxPool2d, UnetShapes.CatChannels: torch raises one kind of runtime error for every bad shape. The model keeps a separate error kind per cause, and says nothing about the error message.
