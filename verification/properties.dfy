/** Properties of the bias channel layer's forward output, stated against the
    element-by-element definition Expected and the NCHW coordinates of Layout. */
module BiasChannelProperties {
  import opened Layout
  import opened BiasChannel

  // ---------------------------------------------------------------------------
  // Counting label occurrences
  // ---------------------------------------------------------------------------

  /** Two label lists that hold v at the same positions count v equally often. */
  lemma {:induction false} CountOfAgree(s: seq<int>, t: seq<int>, v: int)
    requires |s| == |t|
    requires forall k :: 0 <= k < |s| ==> (s[k] == v <==> t[k] == v)
    ensures CountOf(s, v) == CountOf(t, v)
  {
    if |s| > 0 {
      CountOfAgree(s[..|s| - 1], t[..|t| - 1], v);
    }
  }

  /** Overwriting slot k of s with w moves one occurrence from s[k] to w. */
  lemma {:induction false} CountOfUpdate(s: seq<int>, k: nat, w: int, v: int)
    requires k < |s|
    ensures CountOf(s[k := w], v) + (if s[k] == v then 1 else 0)
         == CountOf(s, v) + (if w == v then 1 else 0)
  {
    var t := s[k := w];
    if k == |s| - 1 {
      assert t[..|t| - 1] == s[..|s| - 1];
    } else {
      assert t[..|t| - 1] == s[..|s| - 1][k := w];
      CountOfUpdate(s[..|s| - 1], k, w, v);
    }
  }

  /** Accumulating a non-negative bias never decreases a score. */
  lemma {:induction false} AccumulatedNonNegative(k: nat, bias: real)
    requires bias >= 0.0
    ensures Accumulated(k, bias) >= 0.0
  {
    if k > 0 {
      AccumulatedNonNegative(k - 1, bias);
    }
  }

  // ---------------------------------------------------------------------------
  // Ignored labels
  // ---------------------------------------------------------------------------

  /** Label lists that differ only where both hold ignored labels. */
  predicate SameUpToIgnored(layer: Layer, labels: seq<int>, labels': seq<int>) {
    && |labels| == |labels'|
    && forall k :: 0 <= k < |labels| ==>
         labels[k] == labels'[k] || (labels[k] in layer.ignore && labels'[k] in layer.ignore)
  }

  /** An ignored label changes nothing: replacing ignored labels by other ignored
      labels leaves both the output and the outcome of the label check unchanged. */
  lemma IgnoredLabelsInvisible(layer: Layer, data: Shape, L: nat, bottom: seq<real>,
                               labels: seq<int>, labels': seq<int>)
    requires |bottom| == data.Count() && LabelsFit(layer.labelType, data, L, labels)
    requires SameUpToIgnored(layer, labels, labels')
    ensures LabelsFit(layer.labelType, data, L, labels')
    ensures AllAccepted(layer, data.channels, labels) <==> AllAccepted(layer, data.channels, labels')
    ensures Expected(layer, data, L, bottom, labels) == Expected(layer, data, L, bottom, labels')
  {
    forall i | 0 <= i < |bottom|
      ensures BiasAt(layer, data, L, labels, i) == BiasAt(layer, data, L, labels', i)
    {
      if layer.labelType == Image && data.ChannelOf(i) !in layer.ignore {
        var n, c := data.ImageOf(i), data.ChannelOf(i);
        var s, t := ImageLabels(data.num, L, labels, n), ImageLabels(data.num, L, labels', n);
        MulStep(n, data.num, L);
        assert forall k :: 0 <= k < L ==> s[k] == labels[n * L + k] && t[k] == labels'[n * L + k];
        CountOfAgree(s, t, c);
      }
    }
    assert forall k :: 0 <= k < |labels| ==>
      (Accepted(layer, data.channels, labels[k]) <==> Accepted(layer, data.channels, labels'[k]));
  }

  /** A label blob holding only ignored labels leaves the scores unchanged. */
  lemma AllIgnoredIsIdentity(layer: Layer, data: Shape, L: nat, bottom: seq<real>, labels: seq<int>)
    requires |bottom| == data.Count() && LabelsFit(layer.labelType, data, L, labels)
    requires forall k :: 0 <= k < |labels| ==> labels[k] in layer.ignore
    ensures AllAccepted(layer, data.channels, labels)
    ensures Expected(layer, data, L, bottom, labels) == bottom
  {
    forall i | 0 <= i < |bottom|
      ensures BiasAt(layer, data, L, labels, i) == 0.0
    {
      if layer.labelType == Image && data.ChannelOf(i) !in layer.ignore {
        var n, c := data.ImageOf(i), data.ChannelOf(i);
        var s := ImageLabels(data.num, L, labels, n);
        MulStep(n, data.num, L);
        assert forall k :: 0 <= k < L ==> s[k] == labels[n * L + k];
        assert c !in s;
      }
    }
  }

  // ---------------------------------------------------------------------------
  // IMAGE mode
  // ---------------------------------------------------------------------------

  /** IMAGE mode, element (n, c, p) of a channel that is not ignored: it receives
      its bias once per label slot of image n naming c. */
  lemma ImagePlaneElement(layer: Layer, data: Shape, L: nat, bottom: seq<real>, labels: seq<int>,
                          n: nat, c: nat, p: nat)
    requires layer.labelType == Image
    requires |bottom| == data.Count() && |labels| == data.num * L
    requires n < data.num && c < data.channels && p < data.Spatial()
    requires c !in layer.ignore
    ensures data.Offset(n, c, p) < |bottom|
    ensures Expected(layer, data, L, bottom, labels)[data.Offset(n, c, p)]
         == bottom[data.Offset(n, c, p)]
            + Accumulated(CountOf(ImageLabels(data.num, L, labels, n), c), BiasFor(layer, c))
  {
    Decompose(data, n, c, p);
  }

  /** IMAGE mode: the planes of an ignored channel keep their scores. */
  lemma ImageIgnoredChannelUnchanged(layer: Layer, data: Shape, L: nat, bottom: seq<real>, labels: seq<int>,
                                     n: nat, c: nat, p: nat)
    requires layer.labelType == Image
    requires |bottom| == data.Count() && |labels| == data.num * L
    requires n < data.num && c < data.channels && p < data.Spatial()
    requires c in layer.ignore
    ensures data.Offset(n, c, p) < |bottom|
    ensures Expected(layer, data, L, bottom, labels)[data.Offset(n, c, p)] == bottom[data.Offset(n, c, p)]
  {
    Decompose(data, n, c, p);
  }

  /** IMAGE mode: a channel that no label slot of image n names keeps its scores. */
  lemma ImageUnlabelledPlaneUnchanged(layer: Layer, data: Shape, L: nat, bottom: seq<real>,
                                      labels: seq<int>, n: nat, c: nat, p: nat)
    requires layer.labelType == Image
    requires |bottom| == data.Count() && |labels| == data.num * L
    requires n < data.num && c < data.channels && p < data.Spatial()
    requires c !in ImageLabels(data.num, L, labels, n)
    ensures data.Offset(n, c, p) < |bottom|
    ensures Expected(layer, data, L, bottom, labels)[data.Offset(n, c, p)] == bottom[data.Offset(n, c, p)]
  {
    Decompose(data, n, c, p);
  }

  /** IMAGE mode: turning an ignored slot j of image n into an accepted class l
      adds BiasFor(l) to every element of plane (n, l) and changes nothing else;
      labels therefore accumulate, one bias per slot. */
  lemma ImageLabelAddsPlaneBias(layer: Layer, data: Shape, L: nat, bottom: seq<real>, labels: seq<int>,
                                n: nat, j: nat, l: nat)
    requires layer.labelType == Image
    requires |bottom| == data.Count() && |labels| == data.num * L
    requires n < data.num && j < L && n * L + j < |labels|
    requires labels[n * L + j] in layer.ignore && l !in layer.ignore && l < data.channels
    ensures forall i :: 0 <= i < |bottom| ==>
      Expected(layer, data, L, bottom, labels[n * L + j := l])[i]
      == Expected(layer, data, L, bottom, labels)[i]
         + (if data.ImageOf(i) == n && data.ChannelOf(i) == l then BiasFor(layer, l) else 0.0)
  {
    forall i | 0 <= i < |bottom|
      ensures ImageBiasAt(layer, data, L, labels[n * L + j := l], i)
           == ImageBiasAt(layer, data, L, labels, i)
              + (if data.ImageOf(i) == n && data.ChannelOf(i) == l then BiasFor(layer, l) else 0.0)
    {
      ImageLabelAddsAt(layer, data, L, labels, n, j, l, i);
    }
  }

  /** The effect of ImageLabelAddsPlaneBias on the single element i. */
  lemma ImageLabelAddsAt(layer: Layer, data: Shape, L: nat, labels: seq<int>, n: nat, j: nat, l: nat, i: nat)
    requires |labels| == data.num * L && i < data.Count()
    requires n < data.num && j < L && n * L + j < |labels|
    requires labels[n * L + j] in layer.ignore && l !in layer.ignore
    ensures ImageBiasAt(layer, data, L, labels[n * L + j := l], i)
         == ImageBiasAt(layer, data, L, labels, i)
            + (if data.ImageOf(i) == n && data.ChannelOf(i) == l then BiasFor(layer, l) else 0.0)
  {
    var m, c := data.ImageOf(i), data.ChannelOf(i);
    if c !in layer.ignore && m == n {
      var s := ImageLabels(data.num, L, labels, n);
      SameImageLabelsUpdated(data.num, L, labels, n, j, l);
      CountOfUpdate(s, j, l, c);
      assert s[j] != c;
    } else if c !in layer.ignore {
      OtherImageLabelsUnaffected(data.num, L, labels, n, j, l, m);
    }
  }

  /** Overwriting slot j of image n overwrites slot j of that image's label slots. */
  lemma SameImageLabelsUpdated(num: nat, L: nat, labels: seq<int>, n: nat, j: nat, l: int)
    requires |labels| == num * L && n < num && j < L
    requires n * L + j < |labels|
    ensures ImageLabels(num, L, labels[n * L + j := l], n) == ImageLabels(num, L, labels, n)[j := l]
    ensures ImageLabels(num, L, labels, n)[j] == labels[n * L + j]
  {
    MulStep(n, num, L);
    SliceUpdated(labels, n * L, L, j, l);
  }

  /** Overwriting slot j of image n leaves the label slots of every other image m as they were. */
  lemma OtherImageLabelsUnaffected(num: nat, L: nat, labels: seq<int>, n: nat, j: nat, l: int, m: nat)
    requires |labels| == num * L && n < num && m < num && m != n && j < L
    requires n * L + j < |labels|
    ensures ImageLabels(num, L, labels[n * L + j := l], m) == ImageLabels(num, L, labels, m)
  {
    MulStep(m, num, L);
    var lo, k := m * L, n * L + j;
    if m < n {
      MulStep(m, n, L);
      assert lo + L <= k;
    } else {
      MulStep(n, m, L);
      assert k < lo;
    }
    SliceUnaffected(labels, lo, lo + L, k, l);
  }

  /** Updating a position inside a slice updates the slice at the relative position. */
  lemma SliceUpdated(s: seq<int>, lo: nat, len: nat, j: nat, v: int)
    requires j < len && lo + len <= |s|
    ensures s[lo + j := v][lo .. lo + len] == s[lo .. lo + len][j := v]
  {
  }

  /** Updating a position outside a slice leaves the slice as it was. */
  lemma SliceUnaffected(s: seq<int>, lo: nat, hi: nat, k: nat, v: int)
    requires lo <= hi <= |s| && k < |s| && (k < lo || hi <= k)
    ensures s[k := v][lo .. hi] == s[lo .. hi]
  {
  }

  // ---------------------------------------------------------------------------
  // PIXEL mode
  // ---------------------------------------------------------------------------

  /** PIXEL mode, element (n, 0, p): the background channel receives bg_bias
      exactly when the label of pixel p is not ignored. */
  lemma PixelBackgroundElement(layer: Layer, data: Shape, bottom: seq<real>, labels: seq<int>,
                               n: nat, p: nat)
    requires layer.labelType == Pixel
    requires |bottom| == data.Count() && |labels| == data.num * data.Spatial()
    requires n < data.num && 0 < data.channels && p < data.Spatial()
    ensures data.Offset(n, 0, p) < |bottom|
    ensures Expected(layer, data, 1, bottom, labels)[data.Offset(n, 0, p)]
         == bottom[data.Offset(n, 0, p)]
            + (if PixelLabel(data, labels, n, p) in layer.ignore then 0.0 else layer.bgBias)
  {
    Decompose(data, n, 0, p);
  }

  /** PIXEL mode, element (n, c, p) with c > 0: a foreground channel receives
      fg_bias exactly when pixel p carries label c and c is not ignored. */
  lemma PixelForegroundElement(layer: Layer, data: Shape, bottom: seq<real>, labels: seq<int>,
                               n: nat, c: nat, p: nat)
    requires layer.labelType == Pixel
    requires |bottom| == data.Count() && |labels| == data.num * data.Spatial()
    requires n < data.num && 0 < c < data.channels && p < data.Spatial()
    ensures data.Offset(n, c, p) < |bottom|
    ensures Expected(layer, data, 1, bottom, labels)[data.Offset(n, c, p)]
         == bottom[data.Offset(n, c, p)]
            + (if PixelLabel(data, labels, n, p) == c && c !in layer.ignore then layer.fgBias else 0.0)
  {
    Decompose(data, n, c, p);
  }

  // ---------------------------------------------------------------------------
  // Both modes
  // ---------------------------------------------------------------------------

  /** The biases do not depend on the scores: moving the input by d moves the
      output by exactly d. The layer's Jacobian is the identity, which is why
      Backward copies the top gradient unchanged. */
  lemma ForwardIsShift(layer: Layer, data: Shape, L: nat, bottom: seq<real>, d: seq<real>, labels: seq<int>)
    requires |bottom| == data.Count() && |d| == |bottom| && LabelsFit(layer.labelType, data, L, labels)
    ensures var shifted := seq(|bottom|, i requires 0 <= i < |bottom| => bottom[i] + d[i]);
      forall i :: 0 <= i < |bottom| ==>
        Expected(layer, data, L, shifted, labels)[i] == Expected(layer, data, L, bottom, labels)[i] + d[i]
  {
  }

  /** With the non-negative biases a successful set-up guarantees, no score decreases. */
  lemma ScoresNeverDecrease(layer: Layer, data: Shape, L: nat, bottom: seq<real>, labels: seq<int>)
    requires layer.Valid()
    requires |bottom| == data.Count() && LabelsFit(layer.labelType, data, L, labels)
    ensures forall i :: 0 <= i < |bottom| ==> Expected(layer, data, L, bottom, labels)[i] >= bottom[i]
  {
    forall i | 0 <= i < |bottom|
      ensures BiasAt(layer, data, L, labels, i) >= 0.0
    {
      if layer.labelType == Image && data.ChannelOf(i) !in layer.ignore {
        var n, c := data.ImageOf(i), data.ChannelOf(i);
        AccumulatedNonNegative(CountOf(ImageLabels(data.num, L, labels, n), c), BiasFor(layer, c));
      }
    }
  }
}
