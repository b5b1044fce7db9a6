# Style-transfer evaluator and pixel pipeline, in Dafny

This project models the part of the neural style-transfer script
`siraj-tutorial/How-to-Generate-Art-Demo/generate_art.py` that the script works
out for itself rather than handing to Keras, TensorFlow or SciPy. That part is
the `Evaluator`, plus the array plumbing and pixel arithmetic around it.

The `Evaluator` is an adapter between one joint computation and the L-BFGS
optimizer. The joint computation is `eval_loss_and_grads`: it reshapes the
candidate image, runs the compiled network function `f_outputs` once and
flattens the gradient. The optimizer asks for the loss and the gradient
through two separate callbacks. The evaluator is a single-slot cache with two
states. `loss(x)` asserts that the slot is empty, computes, stores both parts
and returns the loss. `grads(x)` asserts that the slot is full, returns the
stored gradient and empties the slot.

Files:

- `wrappers.dfy`: `Option`, `Result`, and the two Python exceptions the
  modelled code raises. `AssertionError` comes from the evaluator's asserts.
  `ValueError` comes from numpy's `reshape` when the sizes do not match.
- `tensors.dfy`: numpy arrays as nested sequences. It has C-order `reshape`
  (`Chunk`, `Reshape3`, `Reshape4`), `flatten` (`Concat`, `Flatten3`,
  `Flatten4`) and shape predicates, with the round trips between them.
- `image_ops.dfy`: the preprocessing of the content and style images (mean
  subtraction, then channel reversal). Also the postprocessing of the result:
  reshape, channel reversal, mean addition, clip to [0, 255], `uint8`.
- `evaluation.dfy`: `eval_loss_and_grads` over an abstract network. A pure
  specification of the evaluator: a `Cache` value, one step per callback and
  `Run` over a sequence of callbacks. The `Evaluator` class, whose mutating
  methods are proved against that specification. Finally one optimizer
  function evaluation (`loss` then `grads`).

Modelling choices:

- Python exceptions become `Err(...)` results. The assertion and the reshape
  both run before any field is assigned, so on an exception the evaluator's
  state is unchanged. A run of callbacks stops at the first exception, just
  as the exception would end `fmin_l_bfgs_b` and the script.
- The compiled Keras function `f_outputs` is a module-level global in the
  source. Here it is a value `net: Batch -> NetOutput`, held by the
  evaluator as a constant field. Nothing is assumed about it except, where
  a contract needs it, `PreservesShape(net)`. That predicate says the
  gradient of the loss has the shape `(1, 512, 512, 3)` of the image it is
  taken with respect to.
- Floating-point numbers (float32 images, float64 gradients) are `real`.
  `astype('float64')` is the identity. `astype('uint8')` after the clip is
  truncation toward zero, which is `Floor` on [0, 255].
- `__init__` sets `self.grads_values` (note the extra `s`), not
  `self.grad_values`. So a fresh evaluator has no `grad_values` attribute at all.
  That difference cannot be observed: `grads` checks `loss_value` first and
  fails its assertion. The model starts the gradient slot at `None`, and the
  two slots are empty together in every reachable state (`Consistent`).
- `grads(x)` never looks at `x` (lines 143-148). The caller is expected to
  pass the `x` of the preceding `loss` call, but the code does not check
  this. The model follows the code: `grads` returns whatever is cached
  (`GradsIgnoresArgument`).
- `np.copy` in `grads` has no observable effect: `grads` drops its own
  reference to the cached array on the next lines (146-147). Sequences are
  values in Dafny, so there is no copy to model.

## Model

| member | source | states |
|---|---|---|
| `Tensors.Chunk` | siraj-tutorial/How-to-Generate-Art-Demo/generate_art.py:123 | reshaping `n*k` elements to `(n, k)` gives `n` rows of `k`, and joining the rows gives the input back |
| `Tensors.ChunkConcat` | siraj-tutorial/How-to-Generate-Art-Demo/generate_art.py:126 | reshaping the flattening of `n` rows of length `k` back to `(n, k)` gives the rows back |
| `Tensors.Flatten3` | siraj-tutorial/How-to-Generate-Art-Demo/generate_art.py:167 | flattening an `(h, w, c)` array gives `h*w*c` elements; it is the inverse of the reshape to `(height, width, 3)` |
| `Tensors.Reshape3` | siraj-tutorial/How-to-Generate-Art-Demo/generate_art.py:167 | `x.reshape((h, w, c))` of `h*w*c` elements has shape `(h, w, c)` and flattens back to `x` |
| `Tensors.Reshape3Flatten3` | siraj-tutorial/How-to-Generate-Art-Demo/generate_art.py:161-167 | reshaping the flattening of an `(h, w, c)` array gives the array back |
| `Tensors.Flatten4` | siraj-tutorial/How-to-Generate-Art-Demo/generate_art.py:126 | flattening an `(n, h, w, c)` array gives `n*h*w*c` elements |
| `Tensors.Reshape4` | siraj-tutorial/How-to-Generate-Art-Demo/generate_art.py:123 | `x.reshape((1, h, w, c))` has shape `(1, h, w, c)` and flattens back to `x` |
| `ImageOps.Reverse` | siraj-tutorial/How-to-Generate-Art-Demo/generate_art.py:42 | `p[::-1]` keeps the length and puts channel `k` at position `len-1-k` |
| `ImageOps.ReverseInvolutive` | siraj-tutorial/How-to-Generate-Art-Demo/generate_art.py:168 | reversing a pixel's channels twice gives the pixel back |
| `ImageOps.ReverseRgb` | siraj-tutorial/How-to-Generate-Art-Demo/generate_art.py:42 | on three channels the reversal turns `[r, g, b]` into `[b, g, r]` |
| `ImageOps.ReverseChannelsInvolutive` | siraj-tutorial/How-to-Generate-Art-Demo/generate_art.py:168 | `img[:, :, ::-1]` applied twice is the identity, so the reversal at line 168 undoes the one at lines 42 and 47 |
| `ImageOps.ReverseChannels` | siraj-tutorial/How-to-Generate-Art-Demo/generate_art.py:168 | `x[:, :, ::-1]` keeps the shape of the image and reverses the channels of every pixel |
| `ImageOps.ReverseChannelsShape` | siraj-tutorial/How-to-Generate-Art-Demo/generate_art.py:168 | the channel reversal keeps the `(h, w, c)` shape |
| `ImageOps.SubtractMean` | siraj-tutorial/How-to-Generate-Art-Demo/generate_art.py:39-41 | channels 0, 1, 2 end up 103.939, 116.779 and 123.68 below their old values; any later channel is unchanged; the pixel keeps its length |
| `ImageOps.AddMean` | siraj-tutorial/How-to-Generate-Art-Demo/generate_art.py:169-171 | channels 0, 1, 2 end up 103.939, 116.779 and 123.68 above their old values; any later channel is unchanged; the pixel keeps its length |
| `ImageOps.AddMeanSubtractMean` | siraj-tutorial/How-to-Generate-Art-Demo/generate_art.py:169-171 | adding the channel means 103.939, 116.779, 123.68 back undoes subtracting them (over the reals) |
| `ImageOps.Preprocess` | siraj-tutorial/How-to-Generate-Art-Demo/generate_art.py:39-42 | mean subtraction followed by channel reversal keeps the `(n, h, w, c)` shape |
| `ImageOps.Clip` | siraj-tutorial/How-to-Generate-Art-Demo/generate_art.py:172 | `np.clip(v, 0, 255)` lies in [0, 255], is `v` inside that range, 0 below it and 255 above it |
| `ImageOps.ToUint8` | siraj-tutorial/How-to-Generate-Art-Demo/generate_art.py:172 | `astype('uint8')` of a value in [0, 255] is the integer part of that value |
| `ImageOps.Quantize` | siraj-tutorial/How-to-Generate-Art-Demo/generate_art.py:172 | clipping and converting to `uint8` keeps the image's shape |
| `ImageOps.ToReals` | siraj-tutorial/How-to-Generate-Art-Demo/generate_art.py:33 | `np.asarray(image, dtype='float32')` keeps the shape and gives every 8-bit value as the same number |
| `ImageOps.QuantizeToReals` | siraj-tutorial/How-to-Generate-Art-Demo/generate_art.py:172 | an 8-bit image read as floats (line 33) and then clipped and converted gives the same 8-bit image |
| `ImageOps.Postprocess` | siraj-tutorial/How-to-Generate-Art-Demo/generate_art.py:167-172 | the output is an 8-bit `(512, 512, 3)` image exactly when the vector has 512*512*3 elements, and a ValueError otherwise |
| `ImageOps.FlattenPreprocessed` | siraj-tutorial/How-to-Generate-Art-Demo/generate_art.py:39-47 | the flattened preprocessed batch of one image is the flattened shifted-and-reversed image, of the same shape |
| `ImageOps.UndoPreprocess` | siraj-tutorial/How-to-Generate-Art-Demo/generate_art.py:168-171 | reversing the channels back and adding the means restores a preprocessed image |
| `ImageOps.PostprocessPreprocess` | siraj-tutorial/How-to-Generate-Art-Demo/generate_art.py:167-172 | postprocessing inverts preprocessing: an unchanged, flattened, preprocessed 512x512x3 content image is handed to `Image.fromarray` as exactly that content image |
| `Evaluation.EvalLossAndGrads` | siraj-tutorial/How-to-Generate-Art-Demo/generate_art.py:122-127 | succeeds exactly on inputs of `height*width*3` elements and raises ValueError otherwise; the network sees the input laid out as `(1, height, width, 3)`; the loss and flattened gradient are the network's; with a shape-preserving network the gradient has the input's length |
| `Evaluation.LossStep` | siraj-tutorial/How-to-Generate-Art-Demo/generate_art.py:136-141 | fails the assertion when a result is cached; otherwise succeeds exactly on well-sized input and raises ValueError on any other, caches both parts of one joint computation and returns its loss |
| `Evaluation.GradsStep` | siraj-tutorial/How-to-Generate-Art-Demo/generate_art.py:143-148 | fails the assertion exactly when nothing is cached; otherwise returns the cached gradient and empties both slots |
| `Evaluation.GradsIgnoresArgument` | siraj-tutorial/How-to-Generate-Art-Demo/generate_art.py:143-148 | `grads` gives the same answer whatever its argument |
| `Evaluation.Step` | siraj-tutorial/How-to-Generate-Art-Demo/generate_art.py:136-148 | a loss request succeeds only on an empty cache and fills it; a grads request succeeds only on a full cache, returns its gradient and empties it; both slots stay empty or full together |
| `Evaluation.Run` | siraj-tutorial/How-to-Generate-Art-Demo/generate_art.py:136-148 | a successful sequence of callbacks gives one reply per request and leaves both slots empty or full together |
| `Evaluation.RunSucceedsIff` | siraj-tutorial/How-to-Generate-Art-Demo/generate_art.py:137-144 | a sequence of callbacks succeeds if and only if it strictly alternates loss and grads (starting with loss on an empty cache, with grads on a full one) and every loss input has the right size |
| `Evaluation.FreshRunSucceedsIff` | siraj-tutorial/How-to-Generate-Art-Demo/generate_art.py:132-144 | from a fresh evaluator, a sequence succeeds if and only if it is loss, grads, loss, grads, ... with well-sized loss inputs; so `grads` first, or two `loss` calls in a row, fail |
| `Evaluation.FirstAnswer` | siraj-tutorial/How-to-Generate-Art-Demo/generate_art.py:138-148 | the first reply of a successful sequence is the loss of its input or the gradient already cached |
| `Evaluation.LaterAnswer` | siraj-tutorial/How-to-Generate-Art-Demo/generate_art.py:138-148 | a later reply is the cached one when it is so in the sequence after the first request |
| `Evaluation.RunReplies` | siraj-tutorial/How-to-Generate-Art-Demo/generate_art.py:138-148 | in a successful sequence every `loss` reply is the loss of its own input and every `grads` reply is the gradient computed by the preceding `loss`, with no recomputation |
| `Evaluation.RunFinalCache` | siraj-tutorial/How-to-Generate-Art-Demo/generate_art.py:139-147 | after a successful sequence from an empty cache, the cache is empty exactly when the number of callbacks is even |
| `Evaluation.RunCons` | siraj-tutorial/How-to-Generate-Art-Demo/generate_art.py:136-148 | when the first request and the rest both succeed, a run answers the first reply followed by the rest's replies, from the cache the first request left |
| `Evaluation.ConstantNetworkRun` | siraj-tutorial/How-to-Generate-Art-Demo/generate_art.py:136-148 | with a network giving a fixed loss and gradient, loss, grads, loss answers that loss, that gradient and that loss, and leaves the result cached |
| `Evaluation.Evaluator.constructor` | siraj-tutorial/How-to-Generate-Art-Demo/generate_art.py:132-134 | a fresh evaluator holds nothing: both slots are `None` |
| `Evaluation.Evaluator.Loss` | siraj-tutorial/How-to-Generate-Art-Demo/generate_art.py:136-141 | the result and the new fields are those of `LossStep` on the old fields; on an exception the fields are unchanged; the slots stay consistent |
| `Evaluation.Evaluator.Grads` | siraj-tutorial/How-to-Generate-Art-Demo/generate_art.py:143-148 | the result and the new fields are those of `GradsStep` on the old fields; on an exception the fields are unchanged; the slots stay consistent |
| `Evaluation.Evaluate` | siraj-tutorial/How-to-Generate-Art-Demo/generate_art.py:161-162 | one optimizer function evaluation on an empty evaluator: `loss(x)`, then `grads(x)` only if `loss` returned. It gives the loss and gradient of one joint computation at `x` and leaves the evaluator empty again. On a wrongly sized `x` it stops at the ValueError from `loss`, without calling `grads` |

## Left out

- The loss terms `content_loss`, `gram_matrix`, `style_loss` and `total_variation_loss`, and the symbolic gradient (lines 69-119), are left out. They are floating-point tensor algebra built from Keras backend calls. The network they compile into is the abstract `net`.
- The VGG16 model, the `backend` variables and placeholders (lines 49-60) are foreign library objects and are left out.
- The L-BFGS driver loop and `fmin_l_bfgs_b` itself (lines 156-165) are a foreign optimizer over floats. Only one function evaluation (`Evaluate`) is modelled, as the order of callbacks the optimizer relies on. Iteration counts, `maxfun`, timing and printing are not modelled.
- The random starting image (line 154) is randomness, and is left out.
- Image loading, resizing and display (lines 25-37, 174-177) are I/O. The model starts from the decoded 8-bit image (`ToReals`) and ends at the 8-bit array handed to `Image.fromarray`.
- Floating-point rounding is not modelled. float32 mean subtraction and addition are exact over `real`, so `AddMeanSubtractMean` and `PostprocessPreprocess` hold over the reals but not bit for bit in float32.
- `ImageOps.SubtractMean`: on pixels with fewer than three channels, the source raises an IndexError on the per-channel assignment (line 40 or 41). The model subtracts the means from the channels the pixel has and raises nothing. Only 3-channel images reach the network, because the placeholder has 3 channels.
- `Evaluation.EvalLossAndGrads`: that the gradient has the input's length is proved only for networks satisfying `PreservesShape`. The shape of the gradient comes from Keras, which is not part of this model.
- Assertions removed by `python -O` are not modelled. The model always checks them.
- cnn/cnn_cifar10.py, applications/tensorflow/models/object_detection/object_detection_demo.py, autoencoder/convolution_autoencoder_mnist.py and applications/five-video-classification-methods/extract_features.py are not part of this model. They consist of library calls (model construction, training, inference) and file or network I/O.
