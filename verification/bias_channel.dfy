/** The "bias channel" layer: given NCHW scores and a label blob, it copies the
    scores and adds a background bias to channel 0 and a foreground bias to the
    labelled class channels, either over a whole channel plane (IMAGE labels) or
    pixel by pixel (PIXEL labels). The host's CHECK and LOG(FATAL) failures are
    Failure results carrying an Error. */
module BiasChannel {
  import opened Wrappers
  import opened Layout

  /** How the label blob is to be read. */
  datatype LabelType =
    | Image                     // one list of class labels per image, shape (N, L, 1, 1)
    | Pixel                     // one class label per pixel, shape (N, 1, H, W)
    | Unrecognized(code: int)   // any other value of the parameter

  /** The layer's configuration parameters. */
  datatype Param = Param(bgBias: real, fgBias: real, ignoreLabels: seq<int>, labelType: LabelType)

  /** The layer's state once set up: both biases and the set of labels to skip. */
  datatype Layer = Layer(bgBias: real, fgBias: real, ignore: set<int>, labelType: LabelType) {

    /** What a successful set-up guarantees. */
    predicate Valid() {
      bgBias >= 0.0 && fgBias >= 0.0 && Filler in ignore
    }
  }

  /** The fatal conditions the layer checks for. */
  datatype Error =
    | NegativeBgBias
    | NegativeFgBias
    | NumMismatch
    | EmptyLabelBlob
    | BadLabelChannels
    | BadLabelHeight
    | BadLabelWidth
    | UnexpectedLabelType
    | UnexpectedLabel(got: int)
    | LabelGradient

  /** The filler label that pads IMAGE label lists; it is always ignored. */
  const Filler: int := -1

  /** The values occurring in s. */
  function Elements(s: seq<int>): set<int> {
    set k | 0 <= k < |s| :: s[k]
  }

  // ---------------------------------------------------------------------------
  // Set-up and reshape
  // ---------------------------------------------------------------------------

  /** LayerSetUp: validates the biases and builds the ignore set. */
  method SetUp(p: Param) returns (r: Result<Layer, Error>)
    ensures r.Success? <==> p.bgBias >= 0.0 && p.fgBias >= 0.0
    ensures p.bgBias < 0.0 ==> r == Failure(NegativeBgBias)
    ensures p.bgBias >= 0.0 && p.fgBias < 0.0 ==> r == Failure(NegativeFgBias)
    ensures r.Success? ==> r.value.Valid()
    ensures r.Success? ==> r.value.ignore == {Filler} + Elements(p.ignoreLabels)
    ensures r.Success? ==> r.value.bgBias == p.bgBias && r.value.fgBias == p.fgBias
    ensures r.Success? ==> r.value.labelType == p.labelType
  {
    if p.bgBias < 0.0 {
      return Failure(NegativeBgBias);
    }
    if p.fgBias < 0.0 {
      return Failure(NegativeFgBias);
    }
    var ignore := {Filler};
    var i := 0;
    while i < |p.ignoreLabels|
      invariant 0 <= i <= |p.ignoreLabels|
      invariant ignore == {Filler} + Elements(p.ignoreLabels[..i])
    {
      assert p.ignoreLabels[..i + 1] == p.ignoreLabels[..i] + [p.ignoreLabels[i]];
      ignore := ignore + {p.ignoreLabels[i]};
      i := i + 1;
    }
    assert p.ignoreLabels[..i] == p.ignoreLabels;
    return Success(Layer(p.bgBias, p.fgBias, ignore, p.labelType));
  }

  /** Reshape: checks the label blob against the score blob and gives the output shape. */
  function Reshape(mode: LabelType, data: Shape, labelShape: Shape): (r: Result<Shape, Error>)
    ensures r.Success? <==>
      && labelShape.num == data.num
      && labelShape.channels >= 1
      && !mode.Unrecognized?
      && (mode == Image ==> labelShape.height == 1 && labelShape.width == 1)
      && (mode == Pixel ==> labelShape.channels == 1 && labelShape.height == data.height && labelShape.width == data.width)
    ensures r.Success? ==> r.value == data
    ensures r == Failure(NumMismatch) <==> labelShape.num != data.num
    ensures r == Failure(EmptyLabelBlob) <==> labelShape.num == data.num && labelShape.channels == 0
    ensures r == Failure(UnexpectedLabelType) <==>
      labelShape.num == data.num && labelShape.channels >= 1 && mode.Unrecognized?
    ensures r == Failure(BadLabelChannels) <==>
      labelShape.num == data.num && labelShape.channels > 1 && mode == Pixel
    ensures r == Failure(BadLabelHeight) <==>
      && labelShape.num == data.num && labelShape.channels >= 1
      && ((mode == Image && labelShape.height != 1)
          || (mode == Pixel && labelShape.channels == 1 && labelShape.height != data.height))
    ensures r == Failure(BadLabelWidth) <==>
      && labelShape.num == data.num && labelShape.channels >= 1
      && ((mode == Image && labelShape.height == 1 && labelShape.width != 1)
          || (mode == Pixel && labelShape.channels == 1 && labelShape.height == data.height
              && labelShape.width != data.width))
  {
    if labelShape.num != data.num then Failure(NumMismatch)
    else if labelShape.channels < 1 then Failure(EmptyLabelBlob)
    else match mode
      case Image =>
        if labelShape.height != 1 then Failure(BadLabelHeight)
        else if labelShape.width != 1 then Failure(BadLabelWidth)
        else Success(data)
      case Pixel =>
        if labelShape.channels != 1 then Failure(BadLabelChannels)
        else if labelShape.height != data.height then Failure(BadLabelHeight)
        else if labelShape.width != data.width then Failure(BadLabelWidth)
        else Success(data)
      case Unrecognized(_) => Failure(UnexpectedLabelType)
  }

  /** After a successful Reshape the label blob holds num * L labels for IMAGE
      (L = label channels) and num * Spatial() labels for PIXEL. */
  lemma ReshapeFixesLabelCount(mode: LabelType, data: Shape, labelShape: Shape)
    requires Reshape(mode, data, labelShape).Success?
    ensures mode == Image ==> labelShape.Count() == data.num * labelShape.channels
    ensures mode == Pixel ==> labelShape.Count() == data.num * data.Spatial() && labelShape.channels == 1
  {
  }

  // ---------------------------------------------------------------------------
  // The expected output, element by element
  // ---------------------------------------------------------------------------

  /** A label the forward pass accepts: ignored, or a channel of the scores.
      This is the IMAGE branch's test, and the corrected PIXEL test. */
  predicate Accepted(layer: Layer, channels: nat, lab: int) {
    lab in layer.ignore || 0 <= lab < channels
  }

  /** The acceptance test Forward_cpu's PIXEL branch applies as written:
      label 0 passes without being compared with the channel count. Once the
      scores have a channel it is the IMAGE branch's test; it never rejects a
      label that test accepts. */
  predicate PixelAcceptedAsWritten(layer: Layer, channels: nat, lab: int)
    ensures Accepted(layer, channels, lab) ==> PixelAcceptedAsWritten(layer, channels, lab)
    ensures channels > 0 ==> (PixelAcceptedAsWritten(layer, channels, lab) <==> Accepted(layer, channels, lab))
  {
    lab in layer.ignore || lab == 0 || (0 < lab < channels)
  }

  /** With an empty channel dimension the as-written test lets label 0 through,
      and the bg_bias write it triggers at (0, 0, 0) lies outside the score blob,
      although Reshape accepts the shapes. */
  lemma LabelZeroOverrunsEmptyBlob()
    ensures var layer := Layer(0.0, 0.0, {Filler}, Pixel);
      var data := Shape(1, 0, 1, 1);
      && Reshape(Pixel, data, Shape(1, 1, 1, 1)).Success?
      && PixelAcceptedAsWritten(layer, data.channels, 0)
      && !Accepted(layer, data.channels, 0)
      && data.Offset(0, 0, 0) >= data.Count()
  {
  }

  /** The as-written PIXEL test and Accepted disagree on exactly one kind of
      input: a label 0 that is not ignored, with an empty channel dimension. */
  lemma AsWrittenDiffersOnlyOnEmptyChannels(layer: Layer, channels: nat, lab: int)
    ensures PixelAcceptedAsWritten(layer, channels, lab) != Accepted(layer, channels, lab)
        <==> channels == 0 && lab == 0 && lab !in layer.ignore
  {
  }

  /** Every position a PIXEL label that passes Accepted writes to lies inside
      the score blob; this is what the corrected test guarantees. */
  lemma AcceptedPixelWritesInBlob(layer: Layer, data: Shape, lab: int, n: nat, j: nat)
    requires n < data.num && j < data.Spatial()
    requires Accepted(layer, data.channels, lab) && lab !in layer.ignore
    ensures data.Offset(n, 0, j) < data.Count()
    ensures lab > 0 ==> data.Offset(n, lab, j) < data.Count()
  {
    Decompose(data, n, 0, j);
    Decompose(data, n, lab, j);
  }

  /** Every label of s is accepted. */
  predicate AllAccepted(layer: Layer, channels: nat, s: seq<int>) {
    forall k :: 0 <= k < |s| ==> Accepted(layer, channels, s[k])
  }

  /** e reports the first label of s, in scan order, that is not accepted. */
  predicate FirstUnexpected(layer: Layer, channels: nat, s: seq<int>, e: Error) {
    exists k :: 0 <= k < |s| && !Accepted(layer, channels, s[k])
      && AllAccepted(layer, channels, s[..k]) && e == UnexpectedLabel(s[k])
  }

  /** The bias a label contributes to its own channel: background for class 0, foreground otherwise. */
  function BiasFor(layer: Layer, lab: int): real {
    if lab == 0 then layer.bgBias else layer.fgBias
  }

  /** Number of occurrences of v in s. */
  function CountOf(s: seq<int>, v: int): (k: nat)
    ensures k <= |s|
    ensures k == 0 <==> v !in s
    ensures k == |s| <==> forall j :: 0 <= j < |s| ==> s[j] == v
  {
    if |s| == 0 then 0
    else
      assert s == s[..|s| - 1] + [s[|s| - 1]];
      CountOf(s[..|s| - 1], v) + (if s[|s| - 1] == v then 1 else 0)
  }

  /** The label slots of image n in an IMAGE label blob of num * L labels. */
  function ImageLabels(num: nat, L: nat, labels: seq<int>, n: nat): (s: seq<int>)
    requires |labels| == num * L && n < num
    ensures |s| == L
  {
    MulStep(n, num, L);
    labels[n * L .. n * L + L]
  }

  /** The label of pixel p of image n in a PIXEL label blob of num * Spatial() labels. */
  function PixelLabel(data: Shape, labels: seq<int>, n: nat, p: nat): int
    requires |labels| == data.num * data.Spatial() && n < data.num && p < data.Spatial()
  {
    MulStep(n, data.num, data.Spatial());
    labels[n * data.Spatial() + p]
  }

  /** IMAGE mode: the total bias added to score element i once all label slots
      are processed. Only a non-ignored channel that some slot of its image
      names receives anything. */
  function ImageBiasAt(layer: Layer, data: Shape, L: nat, labels: seq<int>, i: nat): (b: real)
    requires i < data.Count() && |labels| == data.num * L
    ensures b != 0.0 ==>
      data.ChannelOf(i) !in layer.ignore && data.ChannelOf(i) in ImageLabels(data.num, L, labels, data.ImageOf(i))
  {
    var c := data.ChannelOf(i);
    if c in layer.ignore then 0.0
    else Accumulated(CountOf(ImageLabels(data.num, L, labels, data.ImageOf(i)), c), BiasFor(layer, c))
  }

  /** PIXEL mode: the total bias added to score element i. Only the background
      channel and the label's own channel of a non-ignored pixel receive anything. */
  function PixelBiasAt(layer: Layer, data: Shape, labels: seq<int>, i: nat): (b: real)
    requires i < data.Count() && |labels| == data.num * data.Spatial()
    ensures b != 0.0 ==> labels[data.PixelPos(i)] !in layer.ignore
    ensures b != 0.0 ==> data.ChannelOf(i) == 0 || data.ChannelOf(i) == labels[data.PixelPos(i)]
  {
    var c := data.ChannelOf(i);
    var lab := labels[data.PixelPos(i)];
    if lab in layer.ignore then 0.0
    else if c == 0 then layer.bgBias
    else if lab == c then layer.fgBias
    else 0.0
  }

  /** Whether the label blob has the size the label type reads. */
  predicate LabelsFit(mode: LabelType, data: Shape, L: nat, labels: seq<int>) {
    match mode
    case Image => |labels| == data.num * L
    case Pixel => |labels| == data.num * data.Spatial()
    case Unrecognized(_) => true
  }

  /** The bias the forward pass adds to score element i. */
  function BiasAt(layer: Layer, data: Shape, L: nat, labels: seq<int>, i: nat): real
    requires i < data.Count() && LabelsFit(layer.labelType, data, L, labels)
  {
    match layer.labelType
    case Image => ImageBiasAt(layer, data, L, labels, i)
    case Pixel => PixelBiasAt(layer, data, labels, i)
    case Unrecognized(_) => 0.0
  }

  /** The forward output: each score plus the bias its labels call for. */
  function Expected(layer: Layer, data: Shape, L: nat, bottom: seq<real>, labels: seq<int>): (top: seq<real>)
    requires |bottom| == data.Count() && LabelsFit(layer.labelType, data, L, labels)
    ensures |top| == |bottom|
  {
    seq(|bottom|, i requires 0 <= i < |bottom| => bottom[i] + BiasAt(layer, data, L, labels, i))
  }

  // ---------------------------------------------------------------------------
  // Forward pass
  // ---------------------------------------------------------------------------

  /** caffe_add_scalar on a window: adds alpha to the len elements from start. */
  method AddScalar(x: seq<real>, start: nat, len: nat, alpha: real) returns (y: seq<real>)
    requires start + len <= |x|
    ensures |y| == |x|
    ensures forall i :: 0 <= i < |x| ==> y[i] == x[i] + (if start <= i < start + len then alpha else 0.0)
  {
    y := x;
    var k := 0;
    while k < len
      invariant 0 <= k <= len
      invariant |y| == |x|
      invariant forall i :: 0 <= i < |x| ==> y[i] == x[i] + (if start <= i < start + k then alpha else 0.0)
    {
      y := y[start + k := y[start + k] + alpha];
      k := k + 1;
    }
  }

  /** IMAGE mode: the bias element i has received once images before n and
      the first j label slots of image n are processed. */
  function ImageBiasSeen(layer: Layer, data: Shape, L: nat, labels: seq<int>, n: nat, j: nat, i: nat): real
    requires i < data.Count() && |labels| == data.num * L && j <= L
  {
    var m, c := data.ImageOf(i), data.ChannelOf(i);
    var seen := if m < n then L else if m == n then j else 0;
    if c in layer.ignore then 0.0
    else Accumulated(CountOf(ImageLabels(data.num, L, labels, m)[..seen], c), BiasFor(layer, c))
  }

  /** Processing label slot j of image n adds its bias to plane (n, label) and to nothing else. */
  lemma ImageSeenStep(layer: Layer, data: Shape, L: nat, labels: seq<int>, n: nat, j: nat, i: nat)
    requires i < data.Count() && |labels| == data.num * L
    requires n < data.num && j < L
    ensures var lab := ImageLabels(data.num, L, labels, n)[j];
      ImageBiasSeen(layer, data, L, labels, n, j + 1, i)
      == ImageBiasSeen(layer, data, L, labels, n, j, i)
         + (if lab !in layer.ignore && data.ImageOf(i) == n && data.ChannelOf(i) == lab
            then BiasFor(layer, lab) else 0.0)
  {
    var c := data.ChannelOf(i);
    if data.ImageOf(i) == n && c !in layer.ignore {
      var s := ImageLabels(data.num, L, labels, n);
      assert s[..j + 1][..j] == s[..j];
      var k := CountOf(s[..j], c);
      assert CountOf(s[..j + 1], c) == k + (if s[j] == c then 1 else 0);
    }
  }

  /** The total of k additions of bias, one per label occurrence. */
  function Accumulated(k: nat, bias: real): real {
    if k == 0 then 0.0 else Accumulated(k - 1, bias) + bias
  }

  /** k additions of a bias add k times that bias. */
  lemma {:induction false} AccumulatedIsProduct(k: nat, bias: real)
    ensures Accumulated(k, bias) == (k as real) * bias
  {
    if k > 0 {
      AccumulatedIsProduct(k - 1, bias);
    }
  }

  /** Having processed every slot of image n is having processed none of image n + 1. */
  lemma ImageSeenNext(layer: Layer, data: Shape, L: nat, labels: seq<int>, n: nat, i: nat)
    requires i < data.Count() && |labels| == data.num * L
    ensures ImageBiasSeen(layer, data, L, labels, n, L, i) == ImageBiasSeen(layer, data, L, labels, n + 1, 0, i)
  {
  }

  /** Once every image is processed the seen bias is the full IMAGE bias. */
  lemma ImageSeenAll(layer: Layer, data: Shape, L: nat, labels: seq<int>, i: nat)
    requires i < data.Count() && |labels| == data.num * L
    ensures ImageBiasSeen(layer, data, L, labels, data.num, 0, i) == ImageBiasAt(layer, data, L, labels, i)
  {
    var s := ImageLabels(data.num, L, labels, data.ImageOf(i));
    assert s[..L] == s;
  }

  /** Label slot j of image n of Forward_cpu's IMAGE branch: an
      ignored label is skipped, a class label adds bg_bias (class 0) or fg_bias
      to every element of its channel plane, any other label is fatal. */
  method ForwardImageSlot(layer: Layer, data: Shape, L: nat, bottom: seq<real>, labels: seq<int>,
                          top0: seq<real>, n: nat, j: nat)
    returns (r: Result<seq<real>, Error>)
    requires |bottom| == data.Count() && |labels| == data.num * L && n < data.num && j < L
    requires n * L + L <= |labels|
    requires AllAccepted(layer, data.channels, labels[..n * L + j])
    requires |top0| == |bottom|
    requires forall i :: 0 <= i < |top0| ==> top0[i] == bottom[i] + ImageBiasSeen(layer, data, L, labels, n, j, i)
    ensures r.Success? <==> Accepted(layer, data.channels, labels[n * L + j])
    ensures r.Success? ==> AllAccepted(layer, data.channels, labels[..n * L + j + 1])
    ensures r.Success? ==> |r.value| == |bottom|
    ensures r.Success? ==> forall i :: 0 <= i < |r.value| ==>
      r.value[i] == bottom[i] + ImageBiasSeen(layer, data, L, labels, n, j + 1, i)
    ensures r.Failure? ==> FirstUnexpected(layer, data.channels, labels, r.error)
  {
    var top := top0;
    var lab := labels[n * L + j];
    assert lab == ImageLabels(data.num, L, labels, n)[j];
    if lab in layer.ignore {
      // skipped
    } else if 0 <= lab < data.channels {
      var bias := if lab == 0 then layer.bgBias else layer.fgBias;
      PlaneInBlob(data, n, lab);
      top := AddScalar(top, data.Offset(n, lab, 0), data.Spatial(), bias);
      forall i | 0 <= i < |top|
        ensures data.Offset(n, lab, 0) <= i < data.Offset(n, lab, 0) + data.Spatial()
                <==> data.ImageOf(i) == n && data.ChannelOf(i) == lab
      {
        PlaneMembership(data, n, lab, i);
      }
    } else {
      assert labels[..n * L + j + 1][n * L + j] == lab;
      return Failure(UnexpectedLabel(lab));
    }
    forall i | 0 <= i < |top|
      ensures top[i] == bottom[i] + ImageBiasSeen(layer, data, L, labels, n, j + 1, i)
    {
      ImageSeenStep(layer, data, L, labels, n, j, i);
    }
    assert labels[..n * L + j + 1] == labels[..n * L + j] + [lab];
    return Success(top);
  }

  /** The label slots of image n of Forward_cpu's IMAGE branch:
      each accepted, non-ignored label adds its bias to its channel plane. */
  method ForwardImageSlots(layer: Layer, data: Shape, L: nat, bottom: seq<real>, labels: seq<int>,
                           top0: seq<real>, n: nat)
    returns (r: Result<seq<real>, Error>)
    requires |bottom| == data.Count() && |labels| == data.num * L && n < data.num
    requires n * L + L <= |labels|
    requires AllAccepted(layer, data.channels, labels[..n * L])
    requires |top0| == |bottom|
    requires forall i :: 0 <= i < |top0| ==> top0[i] == bottom[i] + ImageBiasSeen(layer, data, L, labels, n, 0, i)
    ensures r.Success? ==> AllAccepted(layer, data.channels, labels[..n * L + L])
    ensures r.Success? ==> |r.value| == |bottom|
    ensures r.Success? ==> forall i :: 0 <= i < |r.value| ==>
      r.value[i] == bottom[i] + ImageBiasSeen(layer, data, L, labels, n, L, i)
    ensures r.Failure? ==> FirstUnexpected(layer, data.channels, labels, r.error)
  {
    var top := top0;
    var j := 0;
    while j < L
      invariant 0 <= j <= L
      invariant |top| == |bottom|
      invariant AllAccepted(layer, data.channels, labels[..n * L + j])
      invariant forall i :: 0 <= i < |top| ==>
        top[i] == bottom[i] + ImageBiasSeen(layer, data, L, labels, n, j, i)
    {
      var step := ForwardImageSlot(layer, data, L, bottom, labels, top, n, j);
      if step.Failure? {
        return step;
      }
      top := step.value;
      j := j + 1;
    }
    return Success(top);
  }

  /** Forward_cpu, IMAGE branch. */
  method ForwardImage(layer: Layer, data: Shape, L: nat, bottom: seq<real>, labels: seq<int>)
    returns (r: Result<seq<real>, Error>)
    requires layer.labelType == Image
    requires |bottom| == data.Count() && |labels| == data.num * L
    ensures r.Success? <==> AllAccepted(layer, data.channels, labels)
    ensures r.Success? ==> r.value == Expected(layer, data, L, bottom, labels)
    ensures r.Failure? ==> FirstUnexpected(layer, data.channels, labels, r.error)
  {
    var top := bottom;
    var n := 0;
    while n < data.num
      invariant 0 <= n <= data.num
      invariant |top| == |bottom|
      invariant n * L <= |labels|
      invariant AllAccepted(layer, data.channels, labels[..n * L])
      invariant forall i :: 0 <= i < |top| ==>
        top[i] == bottom[i] + ImageBiasSeen(layer, data, L, labels, n, 0, i)
    {
      MulStep(n, data.num, L);
      var step := ForwardImageSlots(layer, data, L, bottom, labels, top, n);
      if step.Failure? {
        assert !AllAccepted(layer, data.channels, labels);
        return step;
      }
      top := step.value;
      forall i | 0 <= i < |top|
        ensures top[i] == bottom[i] + ImageBiasSeen(layer, data, L, labels, n + 1, 0, i)
      {
        ImageSeenNext(layer, data, L, labels, n, i);
      }
      assert (n + 1) * L == n * L + L;
      n := n + 1;
    }
    forall i | 0 <= i < |top|
      ensures top[i] == Expected(layer, data, L, bottom, labels)[i]
    {
      ImageSeenAll(layer, data, L, labels, i);
    }
    assert labels[..data.num * L] == labels;
    return Success(top);
  }

  /** PIXEL mode: the bias element i has received once images before n and
      the first j pixels of image n are processed. */
  function PixelBiasSeen(layer: Layer, data: Shape, labels: seq<int>, n: nat, j: nat, i: nat): real
    requires i < data.Count() && |labels| == data.num * data.Spatial()
  {
    var m := data.ImageOf(i);
    if m < n || (m == n && data.PixelOf(i) < j) then PixelBiasAt(layer, data, labels, i) else 0.0
  }

  /** Processing pixel j of image n adds bg_bias at (n, 0, j) and, for a
      foreground label l, fg_bias at (n, l, j), and nothing elsewhere. */
  lemma PixelSeenStep(layer: Layer, data: Shape, labels: seq<int>, n: nat, j: nat, lab: int, i: nat)
    requires i < data.Count() && |labels| == data.num * data.Spatial()
    requires n < data.num && j < data.Spatial()
    requires n * data.Spatial() + j < |labels| && lab == labels[n * data.Spatial() + j]
    requires Accepted(layer, data.channels, lab)
    ensures PixelBiasSeen(layer, data, labels, n, j + 1, i)
      == PixelBiasSeen(layer, data, labels, n, j, i)
         + (if lab in layer.ignore then 0.0
            else ((if i == data.Offset(n, 0, j) then layer.bgBias else 0.0)
                  + (if 0 < lab && i == data.Offset(n, lab, j) then layer.fgBias else 0.0)))
  {
    var m, c, p := data.ImageOf(i), data.ChannelOf(i), data.PixelOf(i);
    Recompose(data, i);
    assert i == data.Offset(m, c, p);
    if m == n && p == j {
      assert data.PixelPos(i) == n * data.Spatial() + j;
    }
    if lab !in layer.ignore {
      var k0 := data.Offset(n, 0, j);
      Decompose(data, n, 0, j);
      assert (i == k0) == (m == n && c == 0 && p == j);
      if 0 < lab {
        var k1 := data.Offset(n, lab, j);
        Decompose(data, n, lab, j);
        assert (i == k1) == (m == n && c == lab && p == j);
      }
    }
  }

  /** Having processed every pixel of image n is having processed none of image n + 1. */
  lemma PixelSeenNext(layer: Layer, data: Shape, labels: seq<int>, n: nat, i: nat)
    requires i < data.Count() && |labels| == data.num * data.Spatial()
    ensures PixelBiasSeen(layer, data, labels, n, data.Spatial(), i) == PixelBiasSeen(layer, data, labels, n + 1, 0, i)
  {
  }

  /** Pixel j of image n of Forward_cpu's PIXEL branch: an ignored
      label is skipped, label 0 adds bg_bias at (n, 0, j), a foreground class l
      adds bg_bias at (n, 0, j) and fg_bias at (n, l, j), any other label is fatal.
      Label 0 is checked against the channel count like every other class. */
  method ForwardPixelAt(layer: Layer, data: Shape, bottom: seq<real>, labels: seq<int>,
                        top0: seq<real>, n: nat, j: nat)
    returns (r: Result<seq<real>, Error>)
    requires |bottom| == data.Count() && |labels| == data.num * data.Spatial()
    requires n < data.num && j < data.Spatial() && n * data.Spatial() + data.Spatial() <= |labels|
    requires AllAccepted(layer, data.channels, labels[..n * data.Spatial() + j])
    requires |top0| == |bottom|
    requires forall i :: 0 <= i < |top0| ==> top0[i] == bottom[i] + PixelBiasSeen(layer, data, labels, n, j, i)
    ensures r.Success? <==> Accepted(layer, data.channels, labels[n * data.Spatial() + j])
    ensures r.Success? ==> AllAccepted(layer, data.channels, labels[..n * data.Spatial() + j + 1])
    ensures r.Success? ==> |r.value| == |bottom|
    ensures r.Success? ==> forall i :: 0 <= i < |r.value| ==>
      r.value[i] == bottom[i] + PixelBiasSeen(layer, data, labels, n, j + 1, i)
    ensures r.Failure? ==> FirstUnexpected(layer, data.channels, labels, r.error)
  {
    var S := data.Spatial();
    var top := top0;
    var lab := labels[n * S + j];
    if lab in layer.ignore {
      // skipped
    } else if lab == 0 && 0 < data.channels {
      Decompose(data, n, 0, j);
      var k := data.Offset(n, 0, j);
      top := top[k := top[k] + layer.bgBias];
    } else if 0 < lab < data.channels {
      Decompose(data, n, 0, j);
      Decompose(data, n, lab, j);
      var k0, k1 := data.Offset(n, 0, j), data.Offset(n, lab, j);
      top := top[k0 := top[k0] + layer.bgBias];
      top := top[k1 := top[k1] + layer.fgBias];
    } else {
      assert labels[..n * S + j + 1][n * S + j] == lab;
      return Failure(UnexpectedLabel(lab));
    }
    forall i | 0 <= i < |top|
      ensures top[i] == bottom[i] + PixelBiasSeen(layer, data, labels, n, j + 1, i)
    {
      PixelSeenStep(layer, data, labels, n, j, lab, i);
    }
    assert labels[..n * S + j + 1] == labels[..n * S + j] + [lab];
    return Success(top);
  }

  /** The pixels of image n of Forward_cpu's PIXEL branch, with
      label 0 checked against the channel count like every other class. */
  method ForwardPixels(layer: Layer, data: Shape, bottom: seq<real>, labels: seq<int>,
                       top0: seq<real>, n: nat)
    returns (r: Result<seq<real>, Error>)
    requires |bottom| == data.Count() && |labels| == data.num * data.Spatial() && n < data.num
    requires n * data.Spatial() + data.Spatial() <= |labels|
    requires AllAccepted(layer, data.channels, labels[..n * data.Spatial()])
    requires |top0| == |bottom|
    requires forall i :: 0 <= i < |top0| ==> top0[i] == bottom[i] + PixelBiasSeen(layer, data, labels, n, 0, i)
    ensures r.Success? ==> AllAccepted(layer, data.channels, labels[..n * data.Spatial() + data.Spatial()])
    ensures r.Success? ==> |r.value| == |bottom|
    ensures r.Success? ==> forall i :: 0 <= i < |r.value| ==>
      r.value[i] == bottom[i] + PixelBiasSeen(layer, data, labels, n, data.Spatial(), i)
    ensures r.Failure? ==> FirstUnexpected(layer, data.channels, labels, r.error)
  {
    var S := data.Spatial();
    var top := top0;
    var j := 0;
    while j < S
      invariant 0 <= j <= S
      invariant |top| == |bottom|
      invariant AllAccepted(layer, data.channels, labels[..n * S + j])
      invariant forall i :: 0 <= i < |top| ==>
        top[i] == bottom[i] + PixelBiasSeen(layer, data, labels, n, j, i)
    {
      var step := ForwardPixelAt(layer, data, bottom, labels, top, n, j);
      if step.Failure? {
        return step;
      }
      top := step.value;
      j := j + 1;
    }
    return Success(top);
  }

  /** Forward_cpu, PIXEL branch. */
  method ForwardPixel(layer: Layer, data: Shape, bottom: seq<real>, labels: seq<int>)
    returns (r: Result<seq<real>, Error>)
    requires layer.labelType == Pixel
    requires |bottom| == data.Count() && |labels| == data.num * data.Spatial()
    ensures r.Success? <==> AllAccepted(layer, data.channels, labels)
    ensures r.Success? ==> r.value == Expected(layer, data, 1, bottom, labels)
    ensures r.Failure? ==> FirstUnexpected(layer, data.channels, labels, r.error)
  {
    var top := bottom;
    var S := data.Spatial();
    var n := 0;
    while n < data.num
      invariant 0 <= n <= data.num
      invariant |top| == |bottom|
      invariant n * S <= |labels|
      invariant AllAccepted(layer, data.channels, labels[..n * S])
      invariant forall i :: 0 <= i < |top| ==>
        top[i] == bottom[i] + PixelBiasSeen(layer, data, labels, n, 0, i)
    {
      MulStep(n, data.num, S);
      var step := ForwardPixels(layer, data, bottom, labels, top, n);
      if step.Failure? {
        assert !AllAccepted(layer, data.channels, labels);
        return step;
      }
      top := step.value;
      forall i | 0 <= i < |top|
        ensures top[i] == bottom[i] + PixelBiasSeen(layer, data, labels, n + 1, 0, i)
      {
        PixelSeenNext(layer, data, labels, n, i);
      }
      assert (n + 1) * S == n * S + S;
      n := n + 1;
    }
    assert labels[..data.num * S] == labels;
    return Success(top);
  }

  /** Forward_cpu: copies the scores and biases them according to the label type.
      The host calls it only after a successful Reshape, on blobs of those shapes. */
  method Forward(layer: Layer, data: Shape, labelShape: Shape, bottom: seq<real>, labels: seq<int>)
    returns (r: Result<seq<real>, Error>)
    requires Reshape(layer.labelType, data, labelShape).Success?
    requires |bottom| == data.Count() && |labels| == labelShape.Count()
    ensures LabelsFit(layer.labelType, data, labelShape.channels, labels)
    ensures r.Success? <==> AllAccepted(layer, data.channels, labels)
    ensures r.Success? ==> r.value == Expected(layer, data, labelShape.channels, bottom, labels)
    ensures r.Failure? ==> FirstUnexpected(layer, data.channels, labels, r.error)
  {
    ReshapeFixesLabelCount(layer.labelType, data, labelShape);
    if layer.labelType == Image {
      r := ForwardImage(layer, data, labelShape.channels, bottom, labels);
    } else {
      r := ForwardPixel(layer, data, bottom, labels);
    }
  }

  // ---------------------------------------------------------------------------
  // Backward pass
  // ---------------------------------------------------------------------------

  /** Backward_cpu: the new gradient of the scores. No gradient flows to the
      labels; the score gradient is the top gradient when requested, and is left
      as it was otherwise. */
  function Backward(propagateScores: bool, propagateLabels: bool, topDiff: seq<real>, bottomDiff: seq<real>)
    : (r: Result<seq<real>, Error>)
    requires |topDiff| == |bottomDiff|
    ensures r.Failure? <==> propagateLabels
    ensures r.Failure? ==> r.error == LabelGradient
    ensures r.Success? ==> |r.value| == |bottomDiff|
    ensures r.Success? && propagateScores ==> forall i :: 0 <= i < |topDiff| ==> r.value[i] == topDiff[i]
    ensures r.Success? && !propagateScores ==> r.value == bottomDiff
  {
    if propagateLabels then Failure(LabelGradient)
    else if propagateScores then Success(topDiff)
    else Success(bottomDiff)
  }
}
