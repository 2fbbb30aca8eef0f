# Bias channel layer — a Dafny model

This project models the CPU core of the "bias channel" layer of a Caffe-based
segmentation framework (DeepLab). The layer takes a score blob `bottom[0]` of
shape (N, C, H, W), stored flat in row-major NCHW order, and a label blob
`bottom[1]`. It outputs a copy of the scores with non-negative biases added:

- **IMAGE** labels have shape (N, L, 1, 1). Every label slot of image `n` that
  holds a non-ignored class `l` adds `bg_bias` (when `l == 0`) or `fg_bias`
  (otherwise) to every element of channel plane `(n, l)`.
- **PIXEL** labels have shape (N, 1, H, W). A non-ignored label at pixel `p`
  adds `bg_bias` to `(n, 0, p)`. A foreground class `l > 0` also adds `fg_bias`
  to `(n, l, p)`.

The ignore set always contains the filler label −1. A label that is neither
ignored nor a channel of the scores is fatal, with one exception. As written,
the PIXEL branch accepts label 0 without comparing it with the channel count
(see Findings). The backward pass copies the top gradient to the scores and
refuses to propagate to the labels.

Files:

- `wrappers.dfy`: the `Result` type. The host's `CHECK`/`LOG(FATAL)` failures
  become `Failure(e)`.
- `layout.dfy`: `Shape`, flat NCHW offsets, and the decomposition of a flat
  index into (image, channel, pixel). Includes the division lemmas these need.
- `bias_channel.dfy`: `SetUp`, `Reshape`, and the per-element reference
  output `Expected`. Also the forward pass as nested loops over flat sequences
  (`Forward`, `ForwardImage`, `ForwardPixel` and their per-image and per-slot
  steps) and `Backward`.
- `properties.dfy`: lemmas about `Expected`. They cover ignored labels, the
  IMAGE and PIXEL per-element formulas, accumulation of repeated labels, shift
  invariance (the reason for the identity backward pass) and non-negativity.

Scores are `real`; labels are `int`. The forward pass is specified against
`Expected`, a closed-form function of the input, the labels and the ignore set.
Each method's loop invariants connect the imperative loop to that function.
When `Forward` fails, the error names the first unaccepted label in scan order.
In both modes, scan order is the label blob's flat order.

The source's bias check messages say "positive", but the check is `>= 0`. The
model follows the check: zero biases are accepted.

## Model

| member | source | states |
|---|---|---|
| BiasChannel.SetUp | src/caffe/layers/bias_channel_layer.cpp:10-22 | set-up succeeds exactly when both biases are non-negative; a negative bg_bias is reported first, then a negative fg_bias; on success the ignore set is exactly {−1} plus the configured ignore labels, and the biases and label type are kept |
| BiasChannel.Reshape | src/caffe/layers/bias_channel_layer.cpp:25-52 | reshape succeeds exactly when the label num equals the data num, there is at least one label channel, IMAGE labels are 1×1, PIXEL labels have one channel and the data's height and width, and the label type is recognised; the output shape is the data shape; each failure is reported as the first check that fails, in the source's order (num, label channels ≥ 1, then the per-type height, width or channel check; an unrecognised type is fatal once the first two pass) |
| BiasChannel.ReshapeFixesLabelCount | src/caffe/layers/bias_channel_layer.cpp:34-46 | after a successful reshape the label blob holds N·L labels in IMAGE mode and N·H·W labels (one channel) in PIXEL mode |
| Layout.Decompose | src/caffe/layers/bias_channel_layer.cpp:76-88 | the offset `(n·C + c)·H·W + p` of in-range coordinates lies inside the blob and decomposes back to exactly (n, c, p) |
| Layout.Recompose | src/caffe/layers/bias_channel_layer.cpp:76-88 | every flat position is the offset of its own (image, channel, pixel) coordinates |
| Layout.PlaneMembership | src/caffe/layers/bias_channel_layer.cpp:69 | the H·W positions starting at plane (n, c) are exactly the positions whose image is n and channel is c |
| Layout.PlaneInBlob | src/caffe/layers/bias_channel_layer.cpp:69 | the channel plane written for an in-range (n, label) ends inside the score blob |
| BiasChannel.Expected | src/caffe/layers/bias_channel_layer.cpp:59-92 | the reference forward output: one element per input score, each the input plus BiasAt, the total bias its labels call for. Forward is proved equal to it. ImagePlaneElement, PixelBackgroundElement and PixelForegroundElement state its value at each coordinate |
| BiasChannel.BiasAt | src/caffe/layers/bias_channel_layer.cpp:61-92 | the bias for one element, taken from the IMAGE or the PIXEL rule by label type |
| BiasChannel.ImageBiasAt | src/caffe/layers/bias_channel_layer.cpp:62-73 | IMAGE mode: element i gains one BiasFor(c) per slot of its image naming its channel c, unless c is ignored; an element gains nothing unless its channel is non-ignored and named by a slot of its image |
| BiasChannel.PixelBiasAt | src/caffe/layers/bias_channel_layer.cpp:79-92 | PIXEL mode: for a non-ignored pixel label, the element gains bg_bias on channel 0 and fg_bias on the label's own channel; only those two channels of a non-ignored pixel gain anything |
| BiasChannel.Accepted | src/caffe/layers/bias_channel_layer.cpp:64-66 | a label passes when it is ignored or 0 ≤ label < channels; the IMAGE test, used as the corrected PIXEL test |
| BiasChannel.PixelAcceptedAsWritten | src/caffe/layers/bias_channel_layer.cpp:81-85 | the PIXEL test as written: ignored, label 0, or 0 < label < channels; it accepts everything Accepted does, and coincides with Accepted whenever the scores have at least one channel |
| BiasChannel.AsWrittenDiffersOnlyOnEmptyChannels | src/caffe/layers/bias_channel_layer.cpp:81-85 | the as-written PIXEL test and Accepted disagree exactly on a non-ignored label 0 with zero score channels |
| BiasChannel.AddScalar | src/caffe/layers/bias_channel_layer.cpp:69 | adding a scalar to a window adds it to each of the window's elements and leaves every other element unchanged |
| BiasChannel.AccumulatedIsProduct | src/caffe/layers/bias_channel_layer.cpp:62-69 | k additions of the same bias, one per label slot, add k times that bias |
| BiasChannel.ImageSeenStep | src/caffe/layers/bias_channel_layer.cpp:63-69 | processing one IMAGE label slot adds its bias to the elements of plane (n, label) exactly, when the label is not ignored, and to nothing else |
| BiasChannel.ForwardImageSlot | src/caffe/layers/bias_channel_layer.cpp:63-72 | one IMAGE label slot succeeds exactly when its label is ignored or a channel; on success the output has the slot's bias added to its plane; otherwise the error is that label |
| BiasChannel.ForwardImageSlots | src/caffe/layers/bias_channel_layer.cpp:62-73 | the label slots of one image either all pass and add their biases, or the first failing slot's label is reported |
| BiasChannel.ForwardImage | src/caffe/layers/bias_channel_layer.cpp:59-74 | IMAGE forward succeeds exactly when every label is ignored or a channel; the output is then the reference output element for element; otherwise the error is the first unaccepted label |
| BiasChannel.PixelSeenStep | src/caffe/layers/bias_channel_layer.cpp:80-88 | processing pixel j of image n adds bg_bias at (n, 0, j), and fg_bias at (n, l, j) for a foreground label l, and changes nothing else; an ignored label changes nothing |
| BiasChannel.ForwardPixelAt | src/caffe/layers/bias_channel_layer.cpp:80-91 | one PIXEL label succeeds exactly when it is ignored or a channel, with label 0 also checked against the channel count; it adds the biases of PixelSeenStep; otherwise the error is that label |
| BiasChannel.ForwardPixels | src/caffe/layers/bias_channel_layer.cpp:76-92 | the pixels of one image either all pass and add their biases, or the first failing pixel's label is reported |
| BiasChannel.ForwardPixel | src/caffe/layers/bias_channel_layer.cpp:75-93 | PIXEL forward succeeds exactly when every label is accepted; the output is then the reference output; otherwise the error is the first unaccepted label |
| BiasChannel.Forward | src/caffe/layers/bias_channel_layer.cpp:55-95 | after a successful reshape, forward dispatches on the label type: it fails exactly when some label is neither ignored nor a channel, reporting the first such label; otherwise the output has the input's shape and equals the reference output |
| BiasChannel.Backward | src/caffe/layers/bias_channel_layer.cpp:98-106 | a gradient request for the labels is an error; otherwise the score gradient becomes the top gradient element for element when requested and stays unchanged when not |
| BiasChannelProperties.ForwardIsShift | src/caffe/layers/bias_channel_layer.cpp:59-92 | shifting the input scores by d shifts every output element by exactly d, so the layer's Jacobian is the identity that Backward applies |
| BiasChannelProperties.IgnoredLabelsInvisible | src/caffe/layers/bias_channel_layer.cpp:64-65 | in both modes, replacing ignored labels by other ignored labels changes neither the output nor whether the label check passes |
| BiasChannelProperties.AllIgnoredIsIdentity | src/caffe/layers/bias_channel_layer.cpp:81-82 | a label blob of ignored labels (−1 included) passes the check and leaves every score unchanged |
| BiasChannelProperties.ImagePlaneElement | src/caffe/layers/bias_channel_layer.cpp:60-73 | IMAGE mode: element (n, c, p) of a non-ignored channel is its input plus one BiasFor(c) per label slot of image n naming c (bg_bias for c = 0, fg_bias otherwise) |
| BiasChannelProperties.ImageIgnoredChannelUnchanged | src/caffe/layers/bias_channel_layer.cpp:64-65 | IMAGE mode: every element of an ignored channel keeps its input value |
| BiasChannelProperties.ImageUnlabelledPlaneUnchanged | src/caffe/layers/bias_channel_layer.cpp:60-73 | IMAGE mode: the planes of a channel that no label slot of image n names keep their input values |
| BiasChannelProperties.ImageLabelAddsPlaneBias | src/caffe/layers/bias_channel_layer.cpp:66-69 | IMAGE mode: turning an ignored slot into a class l adds BiasFor(l) to exactly the elements of plane (n, l), so repeated labels accumulate |
| BiasChannelProperties.PixelBackgroundElement | src/caffe/layers/bias_channel_layer.cpp:81-87 | PIXEL mode: element (n, 0, p) gains bg_bias exactly when the label of pixel p is not ignored |
| BiasChannelProperties.PixelForegroundElement | src/caffe/layers/bias_channel_layer.cpp:85-88 | PIXEL mode: element (n, c, p) with c > 0 gains fg_bias exactly when pixel p carries label c and c is not ignored, and is otherwise unchanged |
| BiasChannelProperties.ScoresNeverDecrease | src/caffe/layers/bias_channel_layer.cpp:15-16 | with the non-negative biases set-up guarantees, no output score is below its input |
| BiasChannelProperties.CountOfUpdate | src/caffe/layers/bias_channel_layer.cpp:62-69 | overwriting one label slot moves one occurrence from the old label to the new one |
| BiasChannel.LabelZeroOverrunsEmptyBlob | src/caffe/layers/bias_channel_layer.cpp:83-84 | with zero score channels, Reshape accepts a PIXEL label blob, the PIXEL branch as written lets label 0 through, and the bg_bias write it triggers lies outside the score blob |
| BiasChannel.AcceptedPixelWritesInBlob | src/caffe/layers/bias_channel_layer.cpp:83-88 | every position an accepted, non-ignored PIXEL label writes to lies inside the score blob |

## Left out

- `Forward_gpu` and `Backward_gpu` (lines 108-147) are device dispatch. PIXEL mode on the GPU calls the CPU forward. IMAGE mode and the backward pass repeat the CPU logic with device calls.
- Layer registration and instantiation (lines 149-154), protobuf parameter parsing, and the Blob memory model are host-framework code. Blobs are sequences, and parameters are a `Param` record.
- `caffe_copy` and `caffe_add_scalar` are host routines. They are modelled by their effect: a sequence copy and `AddScalar`.
- Floating-point semantics of `Dtype`: scores and biases are `real`, so rounding and NaN are not modelled.
- The `static_cast<int>` of labels stored as `Dtype` (lines 63, 80) is not modelled. Labels are given as `int`.
- Process termination by `CHECK`/`LOG(FATAL)` is modelled as an `Error` result. Output written before a fatal label is discarded with the failure.
- `LayerSetUp` is modelled as running once on a fresh layer, so the ignore set starts empty before −1 is inserted.
- The source's forward has a third label-type case that only copies. It is unreachable after a successful `Reshape`, which `Forward` requires, so that case is not modelled.
- `Backward` takes two flags for `propagate_down[0]` and `propagate_down[1]`, not a vector.
- BiasChannelProperties.ImagePlaneElement: states the added bias as `Accumulated(count, bias)`, the repeated addition the loop performs. `AccumulatedIsProduct` equates that with `count × bias` separately.

## Findings

| source | as written | input that shows it | evidently intended | confidence | as-written member | corrected member |
|---|---|---|---|---|---|---|
| src/caffe/layers/bias_channel_layer.cpp:83-84 | in PIXEL mode, label 0 takes the `label == 0` branch, which never compares the label with `channels_` | PIXEL labels; a score blob of shape (1, 0, 1, 1) and a label blob of shape (1, 1, 1, 1) holding 0. Reshape accepts these shapes, and `top_data[0] += bg_bias` writes into an empty blob | label 0 accepted only when it is a channel, like IMAGE mode's `label >= 0 && label < channels_` | low (needs an empty channel dimension); not executed | BiasChannel.PixelAcceptedAsWritten, BiasChannel.AsWrittenDiffersOnlyOnEmptyChannels, BiasChannel.LabelZeroOverrunsEmptyBlob | BiasChannel.ForwardPixelAt, BiasChannel.AcceptedPixelWritesInBlob |
