/**
 * The pixel-level pre- and post-processing of generate_art.py: the shift by the
 * per-channel means, the channel reversal `[..., ::-1]`, and the final
 * `np.clip(x, 0, 255).astype('uint8')`. Pixel values are reals; float32 and
 * float64 rounding is not modelled.
 */
module ImageOps {
  import opened Wrappers
  import opened Tensors

  /** The size every image is resized to, and the number of colour channels. */
  const Height: nat := 512
  const Width: nat := 512
  const Channels: nat := 3

  type Pixel = seq<real>

  /** An 8-bit unsigned value, numpy's `uint8`. */
  newtype uint8 = x: int | 0 <= x < 256

  /** An image of 8-bit channel values, as handed to `Image.fromarray` for display at the end of the script. */
  type ByteImage = seq<seq<seq<uint8>>>

  /** Applies `f` to every pixel of `img`. */
  function MapPixels(img: Image, f: Pixel -> Pixel): (r: Image)
    ensures |r| == |img|
    ensures forall i :: 0 <= i < |img| ==> |r[i]| == |img[i]|
  {
    seq(|img|, i requires 0 <= i < |img| =>
      seq(|img[i]|, j requires 0 <= j < |img[i]| => f(img[i][j])))
  }

  /** Applies `f` to every pixel of every image of `b`. */
  function MapBatch(b: Batch, f: Pixel -> Pixel): (r: Batch)
    ensures |r| == |b|
  {
    seq(|b|, i requires 0 <= i < |b| => MapPixels(b[i], f))
  }

  /** `p[::-1]`: the channels of one pixel in reverse order. */
  function Reverse<T>(p: seq<T>): (r: seq<T>)
    ensures |r| == |p|
    ensures forall k :: 0 <= k < |p| ==> r[k] == p[|p| - 1 - k]
  {
    if p == [] then [] else Reverse(p[1..]) + [p[0]]
  }

  /** Reversing twice gives the pixel back. */
  lemma ReverseInvolutive<T>(p: seq<T>)
    ensures Reverse(Reverse(p)) == p
  {
    assert forall k :: 0 <= k < |p| ==> Reverse(Reverse(p))[k] == p[k];
  }

  /** On three channels, reversal swaps the first and the last (RGB <-> BGR). */
  lemma ReverseRgb(r: real, g: real, b: real)
    ensures Reverse([r, g, b]) == [b, g, r]
  {
  }

  /** `img[:, :, ::-1]`: the channel axis of every pixel reversed. */
  function ReverseChannels(img: Image): (r: Image)
    ensures forall h: nat, w: nat, c: nat :: HasShape3(img, h, w, c) ==> HasShape3(r, h, w, c)
    ensures |r| == |img|
    ensures forall i, j :: 0 <= i < |img| && 0 <= j < |img[i]| ==> |r[i]| == |img[i]| && r[i][j] == Reverse(img[i][j])
  {
    MapPixels(img, p => Reverse(p))
  }

  /** Reversing the channel axis is its own inverse. */
  lemma ReverseChannelsInvolutive(img: Image)
    ensures ReverseChannels(ReverseChannels(img)) == img
  {
    var once := ReverseChannels(img);
    var twice := ReverseChannels(once);
    forall i | 0 <= i < |img| ensures twice[i] == img[i] {
      forall j | 0 <= j < |img[i]| ensures twice[i][j] == img[i][j] {
        ReverseInvolutive(img[i][j]);
      }
    }
  }

  /** Reversing the channel axis keeps the shape of the image. */
  lemma ReverseChannelsShape(img: Image, h: nat, w: nat, c: nat)
    requires HasShape3(img, h, w, c)
    ensures HasShape3(ReverseChannels(img), h, w, c)
  {
  }

  /** The per-channel means the script subtracts, for channels 0, 1 and 2. */
  const Mean: seq<real> := [103.939, 116.779, 123.68]

  /** `x[..., c] -= Mean[c]` for c in 0, 1, 2; later channels are untouched. */
  function SubtractMean(p: Pixel): (r: Pixel)
    ensures |r| == |p|
    ensures forall c :: 0 <= c < |p| && c < |Mean| ==> r[c] + Mean[c] == p[c]
    ensures forall c :: |Mean| <= c < |p| ==> r[c] == p[c]
  {
    seq(|p|, c requires 0 <= c < |p| => if c < |Mean| then p[c] - Mean[c] else p[c])
  }

  /** `x[..., c] += Mean[c]` for c in 0, 1, 2; later channels are untouched. */
  function AddMean(p: Pixel): (r: Pixel)
    ensures |r| == |p|
    ensures forall c :: 0 <= c < |p| && c < |Mean| ==> r[c] - Mean[c] == p[c]
    ensures forall c :: |Mean| <= c < |p| ==> r[c] == p[c]
  {
    seq(|p|, c requires 0 <= c < |p| => if c < |Mean| then p[c] + Mean[c] else p[c])
  }

  /** Adding the means back undoes subtracting them (exactly, over the reals). */
  lemma AddMeanSubtractMean(p: Pixel)
    ensures AddMean(SubtractMean(p)) == p
  {
  }

  /**
   * The preprocessing of the content and style arrays: subtract the means
   * from channels 0, 1, 2 of the `(1, h, w, c)` array, then reverse its
   * channel axis.
   */
  function Preprocess(b: Batch): (r: Batch)
    ensures forall n: nat, h: nat, w: nat, c: nat :: HasShape4(b, n, h, w, c) ==> HasShape4(r, n, h, w, c)
  {
    MapBatch(MapBatch(b, SubtractMean), p => Reverse(p))
  }

  /** numpy's `np.clip(v, 0, 255)` on one value. */
  function Clip(v: real): (r: real)
    ensures 0.0 <= r <= 255.0
    ensures 0.0 <= v <= 255.0 ==> r == v
    ensures v < 0.0 ==> r == 0.0
    ensures 255.0 < v ==> r == 255.0
  {
    if v < 0.0 then 0.0 else if v > 255.0 then 255.0 else v
  }

  /** `astype('uint8')` of a value already in [0, 255]: truncation toward zero. */
  function ToUint8(v: real): (b: uint8)
    requires 0.0 <= v <= 255.0
    ensures b as real <= v < b as real + 1.0
  {
    v.Floor as uint8
  }

  /** `np.clip(img, 0, 255).astype('uint8')`. */
  function Quantize(img: Image): (r: ByteImage)
    ensures |r| == |img|
    ensures forall i :: 0 <= i < |img| ==> |r[i]| == |img[i]|
    ensures forall i, j :: 0 <= i < |img| && 0 <= j < |img[i]| ==> |r[i][j]| == |img[i][j]|
  {
    seq(|img|, i requires 0 <= i < |img| =>
      seq(|img[i]|, j requires 0 <= j < |img[i]| =>
        seq(|img[i][j]|, c requires 0 <= c < |img[i][j]| => ToUint8(Clip(img[i][j][c])))))
  }

  /** `np.asarray(image, dtype='float32')` of an 8-bit image. */
  function ToReals(img: ByteImage): (r: Image)
    ensures forall h: nat, w: nat, c: nat :: HasShape3(img, h, w, c) ==> HasShape3(r, h, w, c)
    ensures |r| == |img|
    ensures forall i, j, c :: 0 <= i < |img| && 0 <= j < |img[i]| && 0 <= c < |img[i][j]| ==>
      |r[i]| == |img[i]| && |r[i][j]| == |img[i][j]| && r[i][j][c] == img[i][j][c] as real
  {
    seq(|img|, i requires 0 <= i < |img| =>
      seq(|img[i]|, j requires 0 <= j < |img[i]| =>
        seq(|img[i][j]|, c requires 0 <= c < |img[i][j]| => img[i][j][c] as real)))
  }

  /**
   * The postprocessing of the optimised vector: reshape it to
   * `(Height, Width, Channels)` (a ValueError if its size differs), reverse the
   * channel axis, add the means back, clip to [0, 255] and convert to uint8.
   */
  function Postprocess(x: Vector): (r: Result<ByteImage>)
    ensures r.Ok? <==> |x| == Height * Width * Channels
    ensures r.Err? ==> r.error == ValueError
    ensures r.Ok? ==> HasShape3(r.value, Height, Width, Channels)
  {
    if |x| != Height * Width * Channels then Err(ValueError)
    else
      var img := Reshape3(x, Height, Width, Channels);
      var rgb := MapPixels(ReverseChannels(img), AddMean);
      Ok(Quantize(rgb))
  }

  /** Converting an 8-bit image to reals and quantizing gives it back. */
  lemma {:induction false} QuantizeToReals(img: ByteImage)
    ensures Quantize(ToReals(img)) == img
  {
    var q := Quantize(ToReals(img));
    forall i | 0 <= i < |img| ensures q[i] == img[i] {
      forall j | 0 <= j < |img[i]| ensures q[i][j] == img[i][j] {
        forall c | 0 <= c < |img[i][j]| ensures q[i][j][c] == img[i][j][c] {
          var v := img[i][j][c] as real;
          assert Clip(v) == v;
        }
      }
    }
  }

  /** Preprocessing one image and flattening it gives the flattened, shifted and reversed image. */
  lemma FlattenPreprocessed(img: Image, h: nat, w: nat, c: nat)
    requires HasShape3(img, h, w, c)
    ensures var pre := ReverseChannels(MapPixels(img, SubtractMean));
      HasShape3(pre, h, w, c) && Flatten4(Preprocess([img])) == Flatten3(pre)
  {
    var pre := ReverseChannels(MapPixels(img, SubtractMean));
    assert Preprocess([img]) == [pre];
    assert seq(1, i requires 0 <= i < 1 => Flatten3([pre][i])) == [Flatten3(pre)];
    assert Concat([Flatten3(pre)]) == Flatten3(pre) + Concat<real>([]);
  }

  /** Reversing the channels back and adding the means undoes the preprocessing of one image. */
  lemma UndoPreprocess(img: Image)
    ensures MapPixels(ReverseChannels(ReverseChannels(MapPixels(img, SubtractMean))), AddMean) == img
  {
    var centred := MapPixels(img, SubtractMean);
    ReverseChannelsInvolutive(centred);
    var restored := MapPixels(centred, AddMean);
    forall i | 0 <= i < |img| ensures restored[i] == img[i] {
      forall j | 0 <= j < |img[i]| ensures restored[i][j] == img[i][j] {
        AddMeanSubtractMean(img[i][j]);
      }
    }
  }

  /**
   * Postprocessing inverts preprocessing: if the optimiser handed back the
   * flattened, preprocessed content image unchanged, the script would display
   * exactly the content image it loaded.
   */
  lemma PostprocessPreprocess(img: ByteImage)
    requires HasShape3(img, Height, Width, Channels)
    ensures Postprocess(Flatten4(Preprocess([ToReals(img)]))) == Ok(img)
  {
    var loaded := ToReals(img);
    assert HasShape3(loaded, Height, Width, Channels);
    FlattenPreprocessed(loaded, Height, Width, Channels);
    var pre := ReverseChannels(MapPixels(loaded, SubtractMean));
    Reshape3Flatten3(pre, Height, Width, Channels);
    UndoPreprocess(loaded);
    QuantizeToReals(img);
  }
}
