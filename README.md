# MASSVIS data layers, modelled in Dafny

The MASSVIS importance model is trained with two data-layer plugins for the Caffe
framework: `MassvisTrainDataLayerBubble` (training split) and `MassvisDataLayerBubble`
(validation split). They feed (image, importance map) pairs to the network one at a
time, and the two classes differ only in the directories they read. This project models
both as one class parameterised by a `Variant`. It covers three parts:

- **The sample cursor** (`Cursor`, `DataLayer`). `setup` stores the configuration,
  rejects wrong wiring, takes the index listing and places the cursor `idx`. `reshape`
  loads the pair for `indices[idx]`. `forward` hands the pair to the two tops and moves
  the cursor. In sequential mode the cursor steps by one and wraps to 0. In random mode
  it jumps to any position. Random mode is only used when it was asked for and the
  split name contains `"train"`.
- **The image layout** (`ImageLayout`). A black-and-white plane is copied into three
  channels. The channel order is reversed (RGB to BGR), the mean is subtracted, and the
  array is transposed from height x width x channels to channels x height x width.
- **The label layout** (`LabelLayout`). In binarize mode every pixel of the importance
  map is thresholded at 255*2/3, which is exactly 170. Otherwise it is scaled by 1/255.
  Either way a leading axis of length 1 is added.

Files: `wrappers.dfy` (results and outcomes), `arrays.dfy` (arrays with a shape),
`image_layout.dfy`, `label_layout.dfy`, `cursor.dfy`, `data_layer.dfy` (the class).

Where the comments in the code and the code itself disagree, the model follows the code:

- The docstring of `load_label` promises "integer array of label indices". The code
  produces booleans in binarize mode and fractions otherwise.
- The docstring of `setup` says `randomize` defaults to true. For any split whose name
  does not contain `"train"`, the code turns it off.
- The docstring's example names the directory parameter `voc_dir`. The code reads
  `train_dir` or `val_dir`.

The `Reshape` postcondition keeps the order in which the Python layer assigns fields. The
image is stored before the importance map is opened, so a missing map leaves the new
image in place. Likewise `Setup` stores the configuration before it checks the wiring.

## Model

| member | source | states |
|---|---|---|
| `DataLayer.Layer.constructor` | massvis/imp_layers_massvis.py:25-31 | A layer the host has created: empty listing, cursor 0, sequential mode |
| `DataLayer.Layer.Setup` | massvis/imp_layers_massvis.py:50-77 | Configuration stored first. Fails unless there are exactly 2 tops, then 0 bottoms. Otherwise the listing is taken and the mode is `RandomMode(split, randomize)`. The cursor is 0 in sequential mode. In random mode it is in range, or an empty listing raises (randint on an empty range). The cursor stays in range. The validation class (lines 173-201) is the same |
| `DataLayer.Layer.PickAny` | massvis/imp_layers_massvis.py:95-96 | Random pick: some position in `[0, len(indices)-1]`. An empty listing raises and the cursor is left as it was. Only the cursor changes |
| `DataLayer.Layer.Reshape` | massvis/imp_layers_massvis.py:80-86 | Data and label both come from the identifier `indices[idx]`. Data is `LoadImage` of the file in the variant's image directory. Label is `LoadLabel` of the file in its label directory. Each error case is named: index past the end, missing image, mean that does not broadcast, missing map. Data is stored before the label is read |
| `DataLayer.Layer.Forward` | massvis/imp_layers_massvis.py:89-100 | The two tops receive the loaded data and label. In random mode the cursor lands in range, or an empty listing raises. In sequential mode the cursor becomes `Next(idx, len)`. Only the cursor changes (frame `this`idx`). The cursor stays in range |
| `DataLayer.SequentialRound` | massvis/imp_layers_massvis.py:80-100 | One host round in sequential mode. If the reshape fails, `forward` does not run and the cursor stays. On success the tops receive the stored data and label, which are the image and the map of the same identifier, the entry at the cursor. The cursor then moves one step. Only `data`, `importance` and `idx` may change |
| `Cursor.Next` | massvis/imp_layers_massvis.py:97-100 | The sequential step keeps an in-range cursor in range. It is 0 exactly when `idx + 1` reaches the length, and `idx + 1` otherwise |
| `Cursor.VisitedAt` | massvis/imp_layers_massvis.py:82-100 | In `k` reshape/forward rounds, round `m` reads the position the cursor has after `m` steps |
| `Cursor.AfterAdd` | massvis/imp_layers_massvis.py:97-100 | `a + b` sequential steps are `a` steps followed by `b` steps |
| `Cursor.AfterWithinPass` | massvis/imp_layers_massvis.py:97-100 | Within one pass (`k <= n`) the cursor is `idx + k`, less `n` once it has wrapped |
| `Cursor.AfterInRange` | massvis/imp_layers_massvis.py:97-100 | Any number of sequential steps from an in-range cursor stays in `[0, n)` |
| `Cursor.Periodic` | massvis/imp_layers_massvis.py:97-100 | After `n` steps the cursor is back at its start, so the walk repeats with period `n` |
| `Cursor.EpochCoversListing` | massvis/imp_layers_massvis.py:97-100 | From any start, `n` rounds read every listing entry exactly once (all present, no repeats) and end at the start |
| `Cursor.EpochFromZero` | massvis/imp_layers_massvis.py:68-100 | From the setup position 0, round `m` reads entry `m`, so the listing is read in order. After `n` rounds the cursor is 0 again |
| `Cursor.ContainsOccurs` | massvis/imp_layers_massvis.py:71 | The substring search behind `'train' not in self.split` is true exactly when the pattern occurs at some position |
| `Cursor.RandomMode` | massvis/imp_layers_massvis.py:71-72 | Random mode holds iff `randomize` is true and `"train"` occurs in the split name. Any other split is walked in order whatever `randomize` says |
| `Cursor.SplitNames` | massvis/imp_layers_massvis.py:71-72 | `"train"` and `"trainval"` may randomise; `"val"` and `"test"` do not; `randomize=False` never does |
| `ImageLayout.Expand` | massvis/imp_layers_massvis.py:119-123 | A (h, w) plane becomes a valid (h, w, 3) array with `ret[i][j][k] == in[i][j]` for every channel `k` |
| `ImageLayout.GreyIgnoresChannelOrder` | massvis/imp_layers_massvis.py:119-125 | An expanded black-and-white image is unchanged by the RGB-to-BGR reversal |
| `ImageLayout.ReverseChannels` | massvis/imp_layers_massvis.py:125 | `in_[:,:,::-1]` keeps the shape and puts channel `C-1-k` at channel `k` |
| `ImageLayout.ReverseChannelsInvolution` | massvis/imp_layers_massvis.py:125 | Reversing the channels twice gives the array back |
| `ImageLayout.Transpose201` | massvis/imp_layers_massvis.py:127 | `transpose((2,0,1))` turns shape (H, W, C) into (C, H, W) with `out[c][i][j] == in[i][j][c]` |
| `ImageLayout.TransposeRoundTrip` | massvis/imp_layers_massvis.py:127 | `transpose((1,2,0))` undoes `transpose((2,0,1))` in both orders, so no pixel is lost or moved twice |
| `ImageLayout.SubtractMean` | massvis/imp_layers_massvis.py:126 | The in-place `in_ -= mean` succeeds iff the mean has one entry or one per channel. Channel `k` then loses the mean entry paired with `k`. Otherwise it fails with the two lengths |
| `ImageLayout.AsColour` | massvis/imp_layers_massvis.py:117-123 | A 3-D array is kept as it is. A 2-D one is expanded to 3 channels. Either way the pixel values are those of the decoded image |
| `ImageLayout.LoadImage` | massvis/imp_layers_massvis.py:117-128 | The result has shape (C, H, W) with `out[c][i][j] == in[i][j][C-1-c] - mean[c]` (C = 3 for black and white). It fails exactly when the mean does not broadcast, for example a 3-entry mean on an RGBA image. Also the validation copy, lines 241-258 |
| `ImageLayout.GreyChannels` | massvis/imp_layers_massvis.py:119-127 | For a black-and-white image, output channel `c` is the plane less `mean[c]`. With a single mean value all three channels are equal |
| `LabelLayout.Binarize` | massvis/imp_layers_massvis.py:139-140 | The comparison `label > 255.0*2/3` on a byte holds iff the byte exceeds 170 |
| `LabelLayout.Normalise` | massvis/imp_layers_massvis.py:141-142 | `label/255.0` lies in [0, 1]. It is 0 iff the byte is 0, and 1 iff the byte is 255 |
| `LabelLayout.NormaliseMonotone` | massvis/imp_layers_massvis.py:141-142 | Scaling keeps the order of the pixel values, strictly |
| `LabelLayout.BinarizeIsScaledThreshold` | massvis/imp_layers_massvis.py:139-142 | The binarize mode is the scaled label thresholded at 2/3 |
| `LabelLayout.LoadLabel` | massvis/imp_layers_massvis.py:138-144 | An (h, w) map becomes a (1, h, w) label: a mask with `out[0][i][j] == (in[i][j] > 170)` in binarize mode, otherwise levels `in[i][j]/255`. Also the validation copy, lines 268-274 |
| `Arrays.AddLeadingAxis` | massvis/imp_layers_massvis.py:143 | `label[np.newaxis, ...]` has shape (1, h, w) with `out[0][i][j] == in[i][j]` |
| `Arrays.LeadingAxisRoundTrip` | massvis/imp_layers_massvis.py:143 | Indexing the new axis away gives the same map back |

## Left out

- Caffe plumbing: `top[i].reshape(1, *shape)` (lines 85-86, 209-210) is not modelled. The blob assignment `top[i].data[...] = ...` is modelled as `Forward`'s two out-parameters. `backward` does nothing and is not modelled.
- File and image I/O: the index file is the `listing` parameter of `Setup`, already split into lines. Decoded images and maps are given as a `Store` keyed by (directory, identifier). The path strings built from `maindir`, and `maindir` itself, are not modelled.
- `eval(self.param_str)`: the parameters are inputs of `Setup`. A missing key (a `KeyError`) is not modelled. The default `params.get('randomize', True)` is represented only by a caller passing `randomize = true`. The `seed` parameter (default None) is outside the model.
- DataLayer.Layer.PickAny: models `random.randint` as any position in range. The seed and the generator's sequence and distribution are outside the model.
- Floating point: pixels and mean values are integers, and the label scaling is exact arithmetic on reals. float32 rounding is not modelled. The threshold 255.0*2/3 is exactly 170.0 in floating point too, so binarize mode is exact.
- ImageLayout.SubtractMean: takes the mean as a 1-D sequence. A scalar mean acts as a one-entry sequence. Mean arrays of higher rank are not modelled.
- LabelLayout.LoadLabel: takes a 2-D importance map. A map decoded with colour channels (which would give shape (1, h, w, C)) is not modelled.
- The commented-out alpha-channel handling (lines 248-253) is dead code and is not modelled.
- Calling `reshape` or `forward` before `setup` raises an attribute error in the Python layer. The model's constructor gives the fields default values instead.
