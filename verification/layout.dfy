/** Flat row-major NCHW addressing of a four-dimensional blob.
    Element (n, c, h, w) of a blob lives at ((n * channels + c) * height + h) * width + w;
    the layer never separates h from w, so a pixel is addressed by p = h * width + w. */
module Layout {

  /** The four dimensions of a blob: images, channels, rows and columns. */
  datatype Shape = Shape(num: nat, channels: nat, height: nat, width: nat) {

    /** Number of elements in one channel plane (the layer's spatial_dim). */
    function Spatial(): nat {
      height * width
    }

    /** Number of elements in one image (all of its channel planes). */
    function ImageSize(): nat {
      channels * Spatial()
    }

    /** Number of elements in the whole blob. */
    function Count(): nat {
      num * ImageSize()
    }

    /** Flat position of pixel p of channel c of image n. */
    function Offset(n: nat, c: nat, p: nat): nat {
      (n * channels + c) * Spatial() + p
    }

    /** Image that flat position i belongs to. */
    function ImageOf(i: nat): (n: nat)
      requires i < Count()
      ensures n < num
    {
      DivBelow(i, ImageSize(), num);
      i / ImageSize()
    }

    /** Channel that flat position i belongs to. */
    function ChannelOf(i: nat): (c: nat)
      requires i < Count()
      ensures c < channels
    {
      (i / Spatial()) % channels
    }

    /** Pixel (position inside its channel plane) of flat position i. */
    function PixelOf(i: nat): (p: nat)
      requires i < Count()
      ensures p < Spatial()
    {
      i % Spatial()
    }

    /** Flat position, in a one-channel blob of the same num, height and
        width, of the pixel that flat position i lies on. */
    function PixelPos(i: nat): (q: nat)
      requires i < Count()
      ensures q < num * Spatial()
    {
      MulStep(ImageOf(i), num, Spatial());
      ImageOf(i) * Spatial() + PixelOf(i)
    }
  }

  /** n + 1 <= m scales: n * k + k <= m * k. */
  lemma MulStep(n: nat, m: nat, k: nat)
    requires n < m
    ensures n * k + k <= m * k
  {
    assert m * k == n * k + k + (m - n - 1) * k;
  }

  /** A non-negative number below m * d has a quotient by d below m. */
  lemma DivBelow(x: nat, d: nat, m: nat)
    requires x < m * d
    ensures d > 0 && x / d < m
  {
    MulMonoIf(m, x / d, d);
  }

  /** Multiplication by a non-negative factor is monotone. */
  lemma MulMonoIf(a: nat, b: nat, k: nat)
    ensures a <= b ==> a * k <= b * k
  {
    if a <= b {
      MulMono(a, b, k);
    }
  }

  /** Multiplication by a non-negative factor is monotone. */
  lemma MulMono(a: nat, b: nat, k: nat)
    requires a <= b
    ensures a * k <= b * k
  {
    assert b * k == a * k + (b - a) * k;
  }

  /** Euclidean division is unique: x == q * d + r with 0 <= r < d fixes both. */
  lemma DivModUnique(x: nat, d: nat, q: nat, r: nat)
    requires d > 0 && r < d && x == q * d + r
    ensures x / d == q && x % d == r
  {
    var q', r' := x / d, x % d;
    assert x == q' * d + r';
    MulMonoIf(q' + 1, q, d);
    MulMonoIf(q + 1, q', d);
  }

  /** Offsets of in-range coordinates lie in the blob and decompose back. */
  lemma Decompose(s: Shape, n: nat, c: nat, p: nat)
    requires n < s.num && c < s.channels && p < s.Spatial()
    ensures s.Offset(n, c, p) < s.Count()
    ensures s.ImageOf(s.Offset(n, c, p)) == n
    ensures s.ChannelOf(s.Offset(n, c, p)) == c
    ensures s.PixelOf(s.Offset(n, c, p)) == p
  {
    var S, C := s.Spatial(), s.channels;
    var i := s.Offset(n, c, p);
    DivModUnique(i, S, n * C + c, p);
    DivModUnique(n * C + c, C, n, c);
    MulStep(c, C, S);
    assert i == n * (C * S) + (c * S + p);
    DivModUnique(i, C * S, n, c * S + p);
    MulStep(n, s.num, C * S);
  }

  /** Every position of the blob is the offset of its own coordinates. */
  lemma Recompose(s: Shape, i: nat)
    requires i < s.Count()
    ensures i == s.Offset(s.ImageOf(i), s.ChannelOf(i), s.PixelOf(i))
  {
    var S, C := s.Spatial(), s.channels;
    var q, r := i / S, i % S;
    var a, b := q / C, q % C;
    assert i == q * S + r;
    assert q == a * C + b;
    MulStep(b, C, S);
    assert i == a * (C * S) + (b * S + r);
    DivModUnique(i, C * S, a, b * S + r);
  }

  /** The channel plane (n, c) ends inside the blob. */
  lemma PlaneInBlob(s: Shape, n: nat, c: nat)
    requires n < s.num && c < s.channels
    ensures s.Offset(n, c, 0) + s.Spatial() <= s.Count()
  {
    var C, S := s.channels, s.Spatial();
    MulMono(n * C + c + 1, (n + 1) * C, S);
    MulMono(n + 1, s.num, C * S);
    assert (n * C + c + 1) * S == s.Offset(n, c, 0) + S;
    assert (n + 1) * C * S == (n + 1) * (C * S);
  }

  /** The channel plane (n, c) occupies exactly the Spatial() positions from Offset(n, c, 0). */
  lemma PlaneMembership(s: Shape, n: nat, c: nat, i: nat)
    requires n < s.num && c < s.channels && i < s.Count()
    ensures s.Offset(n, c, 0) <= i < s.Offset(n, c, 0) + s.Spatial()
        <==> s.ImageOf(i) == n && s.ChannelOf(i) == c
  {
    Recompose(s, i);
    if s.Offset(n, c, 0) <= i < s.Offset(n, c, 0) + s.Spatial() {
      Decompose(s, n, c, i - s.Offset(n, c, 0));
    }
  }
}
