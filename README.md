# SSD core in Dafny

A Dafny model of the parts of this single-shot multibox detector (SSD) that can be stated
without torch's numerics:

- **Tensor plumbing** (`ssd/core/layers.py`):
  - `Flatten.forward`.
  - The `Predictor` reshaper. It turns the per-feature-map localization and confidence outputs
    into one `(batch, total default boxes, 4 + classes)` tensor.
  - Tensors are flat row-major sequences with a shape, and torch's `permute`, `view`/`reshape`
    and `cat` are functions on them.
  - Every step is proved to put each element where the code says (`...At` lemmas) and to keep
    every element exactly once (`...Multiset` lemmas).
  - `Layers.Predictor.Forward` runs the source's loop over the zipped `(loc, conf)` pairs. It is
    proved equal to the specification function `Layers.Predict`.
- **Layer-list builders** of `Conv2d` (`relu_block`, `block`, `relu_one`, `one`):
  - A torch module is a record of its kind and channel counts; a layer is a `(name, module)` pair.
  - The lemmas give the list lengths, the generated names, the channel chaining
    `in[k+1] == out[k]` and the exact `ValueError` condition of `block`.
- **The `SSDBase` build/phase state machine** (`ssd/models/ssd_base.py`):
  - Four flags (`_isbuilt_layer`, `_isbuilt_box`, `_isbuilt_infBox`, `_called_learn_inferr`) and
    torch's `training` flag.
  - `SsdBase.Step` is its transition function on values. Each method of the class
    `SsdBase.SSDBase` is proved to move its fields as `Step` does.
  - Lemmas over arbitrary call sequences (`Run`) give the ordering guarantees, for example "a
    passing `forward` was preceded by all three build steps and a successful `learn`/`infer`".
  - The constructor's `input_shape` assertions and `infer`'s image-shape check are modelled,
    with their exception kinds and messages.
- **Data utilities** (`data/utils.py`):
  - `batch_ind_fn` prefixes every ground-truth row with its image's batch index and
    concatenates the rows. `_one_hot_encode` builds a 0/1 matrix.
  - Both fill `array2` buffers in place, as the numpy code does.
  - Their exceptions are `Err` results: Python's tuple-unpacking `ValueError` for an empty
    batch, and numpy's errors for a column-count mismatch, a negative class count and an
    out-of-range index.

Exceptions are values of `Errors.Error` (`AssertionError`, `NotImplementedError`, `ValueError`,
`IndexError`, `RuntimeError`, each with its message). An operation that can raise returns
`Result`; a guard returns `Outcome`.

Modules:

- `Arith`: multiplication by repeated addition and row-major index arithmetic.
- `Seqs`: concatenation of segments, offsets and multiset sums.
- `Text`: decimal rendering for names and messages.
- `Tensors`, `Layers`, `ConvBuilders`, `SsdBase`, `DataUtils`: the model proper.

## Model

| member | source | states |
|---|---|---|
| Layers.FlattenForward | ssd/core/layers.py:7-10 | `x.view(batch, -1)` keeps the batch size, has one column per element of an item and keeps the elements in memory order |
| Layers.FlattenForwardAt | ssd/core/layers.py:7-10 | element (n, c, h, w) of the input is column `(c*H + h)*W + w` of row n |
| Tensors.Permute0231 | ssd/core/layers.py:53 | `permute((0, 2, 3, 1))` yields shape (B, H, W, C) |
| Tensors.PermuteAt | ssd/core/layers.py:53 | element (n, c, h, w) becomes element (n, h, w, c) |
| Tensors.PermuteMultiset | ssd/core/layers.py:53 | permuting keeps exactly the same multiset of elements |
| Tensors.View2At | ssd/core/layers.py:54 | `reshape((batch, -1))` of a contiguous tensor puts (n, i1, i2, i3) at column `(i1*d2 + i2)*d3 + i3` of row n |
| Layers.FlattenMapAt | ssd/core/layers.py:53-57 | after permute and reshape, element (n, c, h, w) of a C×H×W map is column `(h*W + w)*C + c` of row n |
| Layers.FlattenMapMultiset | ssd/core/layers.py:53-57 | flattening one map only reorders its elements |
| Layers.PairCount | ssd/core/layers.py:47 | `zip(locs, confs)` yields min(len(locs), len(confs)) pairs, so it reaches the end of one list |
| Layers.FlattenAll | ssd/core/layers.py:46-57 | `locs_reshaped`/`confs_reshaped` hold one flattened map per input map, in list order, all with the batch's row count |
| Tensors.CatDim1At | ssd/core/layers.py:61-62 | `torch.cat(dim=1)` puts column p of tensor i at column `sum(widths of tensors 0..i-1) + p` |
| Tensors.CatDim1Multiset | ssd/core/layers.py:61-62 | concatenation keeps exactly the elements of all tensors |
| Layers.Joined | ssd/core/layers.py:61-62 | the joined rows have the batch size and `sum of per-item sizes` columns |
| Layers.JoinedAt | ssd/core/layers.py:47-62 | element (n, c, h, w) of map i lands at column `sum(sizes of maps 0..i-1) + (h*W + w)*C + c`: map segments are in list order |
| Layers.JoinedColumn | ssd/core/layers.py:61-62 | column p of flattened map i is column `sum(sizes of maps 0..i-1) + p` of the joined rows |
| Layers.JoinedMultiset | ssd/core/layers.py:53-62 | the joined rows hold the multiset sum of the maps' elements |
| Tensors.Reshape3At | ssd/core/layers.py:61-62 | `reshape((-1, N, K))` puts column `k*K + j` of row n at (n, k, j) |
| Tensors.CatDim2At | ssd/core/layers.py:64 | `torch.cat((a, b), dim=2)` takes entries j < a.d2 of vector (n, k) from a and the rest from b |
| Tensors.CatDim2Multiset | ssd/core/layers.py:64 | the join keeps exactly the elements of both tensors |
| Layers.LocRows | ssd/core/layers.py:61 | the joined location rows have `N*4` columns when the per-item location sizes add up to `N*4` |
| Layers.ConfRows | ssd/core/layers.py:62 | the joined confidence rows have `N*K` columns when the per-item confidence sizes add up to `N*K` |
| Layers.Predict | ssd/core/layers.py:61-64 | the prediction has shape (batch, total_dbox_nums, 4 + class_nums) |
| Layers.PredictLocEntry | ssd/core/layers.py:61-64 | entry j < 4 of default box k is location column `4k + j` of its batch item |
| Layers.PredictConfEntry | ssd/core/layers.py:62-64 | entry `4 + j` of default box k is confidence column `kK + j` of its batch item |
| Layers.PredictLocAt | ssd/core/layers.py:40-64 | location element (n, c, h, w) of map i is entry j of default box k, where `4k + j` = sizes of the maps before it + `(h*W + w)*C + c` |
| Layers.PredictConfAt | ssd/core/layers.py:40-64 | confidence element (n, c, h, w) of map i is class score j of default box k, where `kK + j` = sizes of the maps before it + `(h*W + w)*C + c` |
| Layers.PredictMultiset | ssd/core/layers.py:53-64 | the prediction holds exactly the paired maps' elements, each as often as in the input; nothing is changed numerically |
| Layers.Predictor.constructor | ssd/core/layers.py:34-38 | stores the default-box count and class count |
| Layers.Predictor.Forward | ssd/core/layers.py:40-64 | the loop over the zipped pairs builds `locs_reshaped`/`confs_reshaped` and returns exactly `Predict`, of shape (batch, N, 4 + K), on any input with at least one pair, batch, box count and class count of at least 1, one batch size across the maps and per-item sizes adding up to `N*4` and `N*K` |
| ConvBuilders.One | ssd/core/layers.py:196-207 | `one` has 1 layer (2 with batch norm): first `conv{postfix}` from in to out channels, and a batch norm exactly at position 1 iff batch_norm, then `bn{postfix}` over out_channels |
| ConvBuilders.ReluOne | ssd/core/layers.py:181-194 | `relu_one` is exactly `one` followed by `relu{postfix}`, so 2 layers (3 with batch norm) |
| ConvBuilders.ConvChannelsOfGroup | ssd/core/layers.py:182-207 | `one` and `relu_one` each hold exactly one convolution, from in_channels to out_channels |
| ConvBuilders.ReluBlock | ssd/core/layers.py:103-132 | the loop updating `in_c` and appending groups returns the `relu_block` specification list (groups, then the pool) |
| ConvBuilders.ReluBlockShape | ssd/core/layers.py:103-130 | `relu_block` has `block_num` groups of 2 (3 with batch norm) layers, group k being `relu_one` named `{order}_{k+1}`, then exactly one `pool{order}` last |
| ConvBuilders.ReluBlockLength | ssd/core/layers.py:103-130 | for every block_num, 0 included, `relu_block` has `block_num` groups of 2 (3 with batch norm) layers followed by `pool{order}` as its last layer |
| ConvBuilders.ReluBlockChannels | ssd/core/layers.py:103-121 | the block has `block_num` convolutions, the first from in_channels and every later one from out_channels, all to out_channels, so they are chained |
| ConvBuilders.OutList | ssd/core/layers.py:152-153 | an int out_channels expands to `block_num` copies (none for a negative block_num) |
| ConvBuilders.ChainInChannels | ssd/core/layers.py:154-158 | an int in_channels becomes `[in]` followed by all expanded outputs but the last: `in[0] == in`, `in[k+1] == out[k]` |
| ConvBuilders.BlockExpansion | ssd/core/layers.py:152-158 | the two expansions of `block` together: out copies and `in[k+1] == out[k]` |
| ConvBuilders.BlockFailsExactly | ssd/core/layers.py:152-161 | with two ints, `block` passes its length check iff `block_num >= 1` |
| ConvBuilders.EmitGroups | ssd/core/layers.py:163-179 | the emitting loop returns one `one` group per (in, out) pair, in zip order |
| ConvBuilders.Block | ssd/core/layers.py:135-179 | `block` raises `ValueError('block_nums and length ...')` iff `len(out) != block_num` or `len(in) != len(out)` after expansion; otherwise it returns the concatenated groups |
| ConvBuilders.BlockChannels | ssd/core/layers.py:165-177 | the convolutions of `block` are exactly the zipped (in, out) pairs, and chained when in_channels was an int |
| ConvBuilders.BlockLength | ssd/core/layers.py:165-177 | for every pair of equally long channel lists, empty ones included, `block` has one group of 1 (2 with batch norm) layers per pair |
| ConvBuilders.BlockShape | ssd/core/layers.py:165-177 | `block` has `len(out)` groups of 1 (2 with batch norm) layers, group k being `one` named `{order}_{k+1}` |
| SsdBase.InputShapeCheck | ssd/models/ssd_base.py:35-36 | passes iff input_shape has 3 entries and height == width; otherwise the matching `AssertionError`, the dimension check first |
| SsdBase.Create | ssd/models/ssd_base.py:25-44 | construction fails exactly with the constructor's assertion; the created model has all four flags false, is in training mode and keeps its arguments |
| SsdBase.SSDBase.constructor | ssd/models/ssd_base.py:25-44 | a new model has the initial flags and stores class_nums, input_shape and batch_norm |
| SsdBase.SSDBase.SquareInput | ssd/models/ssd_base.py:46-54 | `input_height`, `input_width`, `input_channel` are `input_shape[0..2]`, height == width, and the expected image shape is (channel, height, width) |
| SsdBase.InferImageShape | ssd/models/ssd_base.py:125-128 | a 3-d image gains a leading batch axis of 1; it fails iff convert_torch and the (unsqueezed) image does not have 4 axes, and then with the permute's `RuntimeError`; otherwise the shape is the unsqueezed one, permuted `(0, 3, 1, 2)` under convert_torch |
| SsdBase.InferAcceptsExactly | ssd/models/ssd_base.py:125-143 | `infer` accepts exactly images whose non-batch shape is (c, h, w), or (h, w, c) with convert_torch, with or without a batch axis; other failures are `ValueError`s, except the permute of a non-4-d image |
| SsdBase.Step | ssd/models/ssd_base.py:66-153 | one call on the model: a raising call changes no flag; of the raises the model covers, every one is a `NotImplementedError` guard except `infer`'s own shape check (the foreign calls it assumes to return are under Left out); only `train`/`eval` change the training flag |
| SsdBase.IsBuilt | ssd/models/ssd_base.py:56-57 | `isBuilt` is the conjunction of the three build flags |
| SsdBase.BuiltExactlyAfterBuilds | ssd/models/ssd_base.py:56-88 | from a fresh model, `isBuilt` holds iff `_build_layers` and `_build_inferenceBox` were made and some `_build_defaultBox` was made after a `_build_layers` |
| SsdBase.StepChangesOnlyItsFlag | ssd/models/ssd_base.py:66-101 | a raising call changes no flag; each `_build_*` sets only its own flag, `learn`/`infer` only the called flag, `forward`/`to` nothing |
| SsdBase.GuardsOfForwardAndTo | ssd/models/ssd_base.py:91-96 | `forward` passes iff built and learn/infer was called, with the two messages in that order; `to` passes iff built |
| SsdBase.GuardsOfLearnAndInfer | ssd/models/ssd_base.py:98-145 | `learn` passes iff training, `infer` iff eval mode and the shape check passes; the called flag is set iff the call passed |
| SsdBase.FlagsNeverCleared | ssd/models/ssd_base.py:66-101 | no sequence of calls clears a build flag or the called flag |
| SsdBase.BoxAfterLayers | ssd/models/ssd_base.py:74-83 | from a fresh model, the box flag is set only by a `_build_defaultBox` made after some `_build_layers` |
| SsdBase.InfBoxNeedsBuild | ssd/models/ssd_base.py:85-88 | the inference-box flag is set only after a `_build_inferenceBox` |
| SsdBase.CalledOnlyBySuccess | ssd/models/ssd_base.py:98-145 | the called flag is set only by a `learn` or `infer` call that passed |
| SsdBase.ForwardNeedsBuildAndCall | ssd/models/ssd_base.py:91-96 | a passing `forward` was preceded by all three build steps (boxes after layers) and a passing `learn`/`infer` |
| SsdBase.SSDBase.BuildLayers | ssd/models/ssd_base.py:66-72 | stores the four layer dictionaries and sets only the layer flag |
| SsdBase.SSDBase.BuildDefaultBox | ssd/models/ssd_base.py:74-83 | raises `NotImplementedError('Call _build_layers first!')` before `_build_layers`; otherwise creates the predictor with the default-box count and class count, stores the source names and sets the box flag |
| SsdBase.SSDBase.BuildInferenceBox | ssd/models/ssd_base.py:85-88 | sets only the inference-box flag |
| SsdBase.SSDBase.Forward | ssd/models/ssd_base.py:91-96 | the guards of `forward`, as `Step` |
| SsdBase.SSDBase.Learn | ssd/models/ssd_base.py:98-101 | raises unless training; on success sets the called flag |
| SsdBase.SSDBase.Infer | ssd/models/ssd_base.py:103-147 | raises unless in eval mode; unsqueezes, optionally permutes, compares with (c, h, w) with the source's message; sets the called flag only on success and returns the shape of `img` after the unsqueeze and the optional permute |
| SsdBase.SSDBase.To | ssd/models/ssd_base.py:150-156 | raises unless built |
| SsdBase.SSDBase.Train | ssd/models/ssd_base.py:99-113 | torch's inherited `nn.Module.train(mode)` (and `eval()`), which this file does not define: it sets the training flag read at lines 99 and 113, and nothing else |
| DataUtils.IndexRows | data/utils.py:14-16 | the zeros buffer, filled with gt in columns 1.. and ind in column 0, has rows `[ind] + row` |
| DataUtils.BatchIndFn | data/utils.py:5-22 | an empty batch and a column mismatch are `ValueError`s (the first mismatch named); otherwise the images in order and the indexed rows of all images, one column wider |
| DataUtils.FirstMismatch | data/utils.py:20 | the image numpy reports is the first whose column count differs from image 0's |
| DataUtils.BatchIndRowCount | data/utils.py:13-20 | the output has as many rows as all ground truths together |
| DataUtils.BatchIndRowAt | data/utils.py:13-20 | row j of image i is output row `sum(row counts of images 0..i-1) + j`, equal to `[i] + gt_i[j]` |
| DataUtils.BatchIndIndexColumn | data/utils.py:13-20 | every output row starts with a valid image index, is one column wider than that image's rows, and the index column never decreases |
| DataUtils.FirstOutOfBounds | data/utils.py:57 | the index numpy reports is the first outside `[-class_num, class_num)` |
| DataUtils.OneHotEncode | data/utils.py:49-58 | fails iff class_num < 0 (`ValueError`) or an index is out of bounds (`IndexError`); otherwise the rows of the filled buffer are exactly `OneHotRows`: a `len(indices) × class_num` matrix with 1 at `(i, indices[i])` (negative indices wrapping) and 0 elsewhere |
| DataUtils.OneHotSingleColumn | data/utils.py:57 | every row of `OneHotRows` has `class_num` entries and exactly one 1 (existence and uniqueness), at the wrapped column in `[0, class_num)`, which is the index itself when it is not negative; every other entry is 0 |

## Left out

- `L2Normalization` (ssd/core/layers.py:13-30): floating-point normalisation with a trainable parameter.
- What torch layers compute. `nn.Conv2d`, `BatchNorm2d`, `ReLU` and `MaxPool2d` are records of kind and channel counts.
- Keyword arguments: kernel size, stride, padding, `relu_inplace` and the `**kwargs` passed to `nn.Conv2d`.
- `Conv2d.batch_norm` is a plain parameter, not the class attribute it defaults to.
- `order`: the caller renders it as text (`str.format` of an int or a string).
- `Layers.Predictor.Forward`: inputs the model excludes (`PredictorInput`), because the source does not handle them and its result on them is not the documented prediction. torch raises on some: an empty list to `cat`, location maps with different batch sizes, and a batch size, box count or class count of 0 (the `-1` of the reshape is then ambiguous). On the others torch raises when a reshape does not divide evenly, or when the two final reshapes infer different first axes so that `cat(dim=2)` cannot join them, and otherwise silently regroups elements into other batch items: a confidence map whose batch differs from its location map's (it is reshaped with the location map's batch size), and total sizes other than `N*4` and `N*K`.
- `Layers.FlattenForward`: requires a batch size of at least 1; torch's `RuntimeError` for `view(0, -1)` of an empty tensor is not modelled. The input is taken to be contiguous: tensors are flat row-major sequences, so the `RuntimeError` of `view` on strides it cannot reinterpret is not modelled either.
- `SsdBase.SSDBase.Infer`: the image is reduced to its shape. Left out for this reason:
  - The `list`/`ndarray`/`Tensor` dispatch and its `ValueError('Invalid image type')` (ssd/models/ssd_base.py:116-123).
  - `torch.stack` of a list of images.
  - The mean/std arithmetic (ssd/models/ssd_base.py:130-138). Its broadcasting `RuntimeError`, raised before the shape comparison for an image with a channel axis other than 1 or 3, is not modelled.
  - The returned pair `normed_img, orig_img` is not modelled. The model returns the shape of `img` after the unsqueeze and the optional permute, which is the shape the comparison reads. One of the two returned tensors (`orig_img` without `toNorm`, `normed_img` with it) is broadcast against the (1, 3, 1, 1) means and stds, so it has 3 channels whenever the image has 1 channel; that shape is not modelled.
- `SsdBase.SSDBase.Infer`: the `RuntimeError` text of a permute with the wrong number of axes is approximated; torch's exact wording is not modelled.
- `SsdBase.SSDBase.To`, `cuda`: the device moves are not modelled, only the build guard. `super().to(...)` runs before the guard, so a `to` that raises `NotImplementedError` has already moved the module's parameters; the model leaves that unrecorded.
- `SsdBase.Step`: the foreign calls inside the build steps and `to` are assumed to return. `BuildLayers` always passes, although `check_instance` (ssd/models/ssd_base.py:67-70) can raise after some of the dictionaries are already assigned. `BuildDefaultBox` passes after its guard, although `defaultBox.build` (line 78) can raise and `tuple(classifier_source_names)` (line 81) raises `TypeError` on a non-iterable. `BuildInferenceBox` always passes, although `check_instance` (line 86) can raise. `To` passes or fails by the build guard alone, although `super().to(...)` (line 151) can raise first. The lemmas over call sequences (`StepChangesOnlyItsFlag`, `BuiltExactlyAfterBuilds`, `ForwardNeedsBuildAndCall` and the others) hold under this assumption.
- `check_instance`, `defaultBox.build`, `Codec`, `InferenceBox`, the encoder/decoder properties and the default-box grid: their code is not part of this model. `defaultBox.build`'s result appears only as the `totalDboxNums` passed to `BuildDefaultBox`.
- `load_weights` (file I/O), `init_weights` (random initialisation) and `load_vgg_weights`.
- `SsdBase.InputShapeCheck`: Python drops `assert` statements under `-O`. The model always checks them.
- `DataUtils.BatchIndFn`: images are opaque values, so `torch.stack`'s shape check is not modelled. The `float32` conversion of `torch.Tensor` is also left out, and values stay `real`.
- `DataUtils.OneHotEncode`: indices are integers; numpy's handling of bool or float index arrays is not modelled.
- `_get_recurrsive_paths` (filesystem walk) and `_get_xml_et_value` (ElementTree lookup).
