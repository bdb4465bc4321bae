/**
  The integer image helpers of the native kernel: a 3x3 box blur with
  edge handling and an unsharp mask built on it. Images are row-major
  arrays of packed ARGB words, `w * h` of them.
 */
module Helper {
  import opened Pixel

  // ---------------------------------------------------------------------
  // Row-major indexing

  predicate InImage(w: int, h: int, x: int, y: int) {
    0 <= x < w && 0 <= y < h
  }

  /** Pixel (x, y) sits at index y * w + x, inside the w * h buffer. */
  lemma IndexInRange(w: int, h: int, x: int, y: int)
    requires InImage(w, h, x, y)
    ensures 0 <= y * w + x < w * h
  {
    assert y * w + x < y * w + w == (y + 1) * w;
    assert (y + 1) * w <= h * w by {
      assert y + 1 <= h;
    }
  }

  /** Multiplying by a non-negative factor keeps the order. */
  lemma MulMonotone(a: int, b: int, w: int)
    requires 0 <= w
    ensures a <= b ==> a * w <= b * w
  {
    if a <= b {
      assert b * w == a * w + (b - a) * w;
    }
  }

  lemma MulSucc(v: int, n: int)
    ensures v * (n + 1) == v * n + v
  {
  }

  lemma MulDiv(v: int, n: int)
    requires 0 < n
    ensures (v * n) / n == v
  {
    RowMajor(n, 0, v);
  }

  /** A multiple of w strictly between -w and w is 0 * w. */
  lemma SmallMultiple(d: int, w: int)
    requires 0 < w && -w < d * w < w
    ensures d == 0
  {
    MulMonotone(1, d, w);
    MulMonotone(d, -1, w);
  }

  /** Index i of a w-wide buffer is pixel (i % w, i / w), and back. */
  lemma RowMajor(w: int, x: int, y: int)
    requires 0 <= x < w
    ensures (y * w + x) / w == y && (y * w + x) % w == x
  {
    var i := y * w + x;
    var q, r := i / w, i % w;
    assert i == q * w + r && 0 <= r < w;
    assert (q - y) * w == x - r;
    SmallMultiple(q - y, w);
  }

  /** The coordinates of every index of a w * h buffer are in the image. */
  lemma Coordinates(w: int, h: int, i: int)
    requires 0 <= w && 0 <= h && 0 <= i < w * h
    ensures w > 0 && InImage(w, h, i % w, i / w)
    ensures (i / w) * w + i % w == i
  {
    MulMonotone(h, i / w, w);
  }

  function At(s: seq<bv32>, w: int, h: int, x: int, y: int): bv32
    requires |s| == w * h && InImage(w, h, x, y)
  {
    IndexInRange(w, h, x, y);
    s[y * w + x]
  }

  // ---------------------------------------------------------------------
  // The 3x3 neighbourhood, visited in the order of the two kernel loops:
  // offset k (0 <= k < 9) is (kx, ky) = (k % 3 - 1, k / 3 - 1).

  datatype Chan = R | G | B

  function Channel(c: bv32, ch: Chan): int {
    match ch
    case R => Red(c)
    case G => Green(c)
    case B => Blue(c)
  }

  /** The k-th neighbour of (x, y) is inside the image. */
  predicate NeighbourIn(w: int, h: int, x: int, y: int, k: int) {
    InImage(w, h, x + k % 3 - 1, y + k / 3 - 1)
  }

  /** How many of the first k neighbours are inside the image (`count`). */
  function NeighbourCount(w: int, h: int, x: int, y: int, k: nat): nat
    requires k <= 9
  {
    if k == 0 then 0
    else NeighbourCount(w, h, x, y, k - 1) + (if NeighbourIn(w, h, x, y, k - 1) then 1 else 0)
  }

  /** The sum of channel `ch` over the first k in-image neighbours (`r`, `g`, `b`). */
  function ChannelSum(s: seq<bv32>, w: int, h: int, x: int, y: int, k: nat, ch: Chan): int
    requires |s| == w * h && k <= 9
  {
    if k == 0 then 0
    else
      var term := if NeighbourIn(w, h, x, y, k - 1)
                  then Channel(At(s, w, h, x + (k - 1) % 3 - 1, y + (k - 1) / 3 - 1), ch) else 0;
      ChannelSum(s, w, h, x, y, k - 1, ch) + term
  }

  /** The blurred value of pixel (x, y): opaque, each channel the integer
      mean over the in-image neighbours; the source pixel if there were none. */
  function BlurAt(s: seq<bv32>, w: int, h: int, x: int, y: int): bv32
    requires |s| == w * h && InImage(w, h, x, y)
  {
    var n := NeighbourCount(w, h, x, y, 9);
    if n > 0 then
      SumBound(s, w, h, x, y, 9, R);
      SumBound(s, w, h, x, y, 9, G);
      SumBound(s, w, h, x, y, 9, B);
      MeanIsByte(ChannelSum(s, w, h, x, y, 9, R), n);
      MeanIsByte(ChannelSum(s, w, h, x, y, 9, G), n);
      MeanIsByte(ChannelSum(s, w, h, x, y, 9, B), n);
      Pack(0xFF, ChannelSum(s, w, h, x, y, 9, R) / n, ChannelSum(s, w, h, x, y, 9, G) / n,
           ChannelSum(s, w, h, x, y, 9, B) / n)
    else At(s, w, h, x, y)
  }

  /** The whole blurred image, index by index. */
  function Blurred(s: seq<bv32>, w: int, h: int): (r: seq<bv32>)
    requires 0 <= w && 0 <= h && |s| == w * h
    ensures |r| == w * h
  {
    seq(w * h, i requires 0 <= i < w * h => Coordinates(w, h, i); BlurAt(s, w, h, i % w, i / w))
  }

  // ---------------------------------------------------------------------
  // Facts about the neighbourhood

  /** Never more neighbours than offsets visited. */
  lemma {:induction false} CountAtMost(w: int, h: int, x: int, y: int, k: nat)
    requires k <= 9
    ensures NeighbourCount(w, h, x, y, k) <= k
  {
    if k > 0 {
      CountAtMost(w, h, x, y, k - 1);
    }
  }

  /** Adding offsets never lowers the count. */
  lemma {:induction false} CountMonotone(w: int, h: int, x: int, y: int, j: nat, k: nat)
    requires j <= k <= 9
    ensures NeighbourCount(w, h, x, y, j) <= NeighbourCount(w, h, x, y, k)
    decreases k - j
  {
    if j < k {
      CountMonotone(w, h, x, y, j, k - 1);
    }
  }

  /** Every pixel of a non-empty image has between 1 and 9 in-image
      neighbours (itself among them), so the copy-source fallback is dead. */
  lemma NeighbourCountRange(w: int, h: int, x: int, y: int)
    requires InImage(w, h, x, y)
    ensures 1 <= NeighbourCount(w, h, x, y, 9) <= 9
  {
    assert NeighbourIn(w, h, x, y, 4);
    CountMonotone(w, h, x, y, 5, 9);
    CountAtMost(w, h, x, y, 9);
  }

  /** A channel sum is at most 255 per counted neighbour. */
  lemma {:induction false} SumBound(s: seq<bv32>, w: int, h: int, x: int, y: int, k: nat, ch: Chan)
    requires |s| == w * h && k <= 9
    ensures 0 <= ChannelSum(s, w, h, x, y, k, ch) <= 255 * NeighbourCount(w, h, x, y, k)
  {
    if k > 0 {
      SumBound(s, w, h, x, y, k - 1, ch);
    }
  }

  lemma MeanIsByte(sum: int, n: int)
    requires 0 < n && 0 <= sum <= 255 * n
    ensures IsByte(sum / n)
  {
    MulMonotone(256, sum / n, n);
  }

  /** Each blurred pixel is opaque and each channel is the floor of the mean
      of that channel over the in-image neighbours. */
  lemma BlurAtChannels(s: seq<bv32>, w: int, h: int, x: int, y: int)
    requires |s| == w * h && InImage(w, h, x, y)
    ensures var n, c := NeighbourCount(w, h, x, y, 9), BlurAt(s, w, h, x, y);
      && 1 <= n <= 9
      && Alpha(c) == 0xFF
      && Red(c) == ChannelSum(s, w, h, x, y, 9, R) / n
      && Green(c) == ChannelSum(s, w, h, x, y, 9, G) / n
      && Blue(c) == ChannelSum(s, w, h, x, y, 9, B) / n
  {
    NeighbourCountRange(w, h, x, y);
  }

  /** The sum over a region where every pixel has channel value v. */
  lemma {:induction false} UniformSum(s: seq<bv32>, w: int, h: int, x: int, y: int, k: nat, ch: Chan, v: int)
    requires |s| == w * h && k <= 9
    requires forall i :: 0 <= i < |s| ==> Channel(s[i], ch) == v
    ensures ChannelSum(s, w, h, x, y, k, ch) == v * NeighbourCount(w, h, x, y, k)
  {
    if k > 0 {
      UniformSum(s, w, h, x, y, k - 1, ch, v);
      var n := NeighbourCount(w, h, x, y, k - 1);
      var nx, ny := x + (k - 1) % 3 - 1, y + (k - 1) / 3 - 1;
      if NeighbourIn(w, h, x, y, k - 1) {
        IndexInRange(w, h, nx, ny);
        assert Channel(At(s, w, h, nx, ny), ch) == v;
        MulSucc(v, n);
      }
    }
  }

  /** Blurring an image whose pixels all share one colour keeps that colour. */
  lemma BlurUniform(s: seq<bv32>, w: int, h: int, x: int, y: int, r: int, g: int, b: int)
    requires |s| == w * h && InImage(w, h, x, y)
    requires forall i :: 0 <= i < |s| ==> Red(s[i]) == r && Green(s[i]) == g && Blue(s[i]) == b
    ensures var c := BlurAt(s, w, h, x, y); Red(c) == r && Green(c) == g && Blue(c) == b
  {
    BlurAtChannels(s, w, h, x, y);
    var n := NeighbourCount(w, h, x, y, 9);
    UniformSum(s, w, h, x, y, 9, R, r);
    UniformSum(s, w, h, x, y, 9, G, g);
    UniformSum(s, w, h, x, y, 9, B, b);
    MulDiv(r, n);
    MulDiv(g, n);
    MulDiv(b, n);
  }

  // ---------------------------------------------------------------------
  // boxBlur

  /** `boxBlur`: writes the blur of `src` into every index of `dst` and
      leaves `src` alone. */
  method BoxBlur(src: array<bv32>, dst: array<bv32>, w: int, h: int)
    requires src != dst && 0 <= w && 0 <= h
    requires src.Length == w * h && dst.Length == w * h
    modifies dst
    ensures dst[..] == Blurred(src[..], w, h)
    ensures src[..] == old(src[..])
  {
    ghost var s := src[..];
    ghost var bl := Blurred(s, w, h);
    ghost var i := 0;   // y * w + x, the next index to write
    var y := 0;
    while y < h
      invariant 0 <= y <= h && i == y * w && i <= w * h
      invariant forall j :: 0 <= j < i ==> dst[j] == bl[j]
    {
      var x := 0;
      while x < w
        invariant 0 <= x <= w && i == y * w + x && i <= w * h
        invariant forall j :: 0 <= j < i ==> dst[j] == bl[j]
      {
        var c := BlurPixel(src, w, h, x, y);
        dst[y * w + x] := c;
        x := x + 1;
        i := i + 1;
      }
      NextRow(w, y);
      y := y + 1;
    }
    assert dst[..] == bl;
  }

  lemma NextRow(w: int, y: int)
    ensures y * w + w == (y + 1) * w
  {
  }

  /** One pixel of `boxBlur`: the kernel sums, then their means. */
  method BlurPixel(src: array<bv32>, w: int, h: int, x: int, y: int) returns (c: bv32)
    requires src.Length == w * h && InImage(w, h, x, y)
    ensures 0 <= y * w + x < w * h && c == Blurred(src[..], w, h)[y * w + x]
  {
    BlurredAt(src[..], w, h, x, y);
    var r, g, b, count := KernelSums(src, w, h, x, y);
    MeanPixel(src[..], w, h, x, y, r, g, b, count);
    if count > 0 {
      c := Pack(0xFF, r / count, g / count, b / count);
    } else {
      // the copy-source fallback: unreachable, see NeighbourCountRange
      assert false;
    }
  }

  /** Pixel (x, y) of the blurred image sits at index y * w + x. */
  lemma BlurredAt(s: seq<bv32>, w: int, h: int, x: int, y: int)
    requires 0 <= w && 0 <= h && |s| == w * h && InImage(w, h, x, y)
    ensures 0 <= y * w + x < w * h
    ensures Blurred(s, w, h)[y * w + x] == BlurAt(s, w, h, x, y)
  {
    IndexInRange(w, h, x, y);
    RowMajor(w, x, y);
  }

  /** The sums the kernel loops produce give the blurred pixel. */
  lemma MeanPixel(s: seq<bv32>, w: int, h: int, x: int, y: int, r: int, g: int, b: int, count: int)
    requires |s| == w * h && InImage(w, h, x, y)
    requires r == ChannelSum(s, w, h, x, y, 9, R) && g == ChannelSum(s, w, h, x, y, 9, G)
    requires b == ChannelSum(s, w, h, x, y, 9, B) && count == NeighbourCount(w, h, x, y, 9)
    ensures count > 0 && IsByte(r / count) && IsByte(g / count) && IsByte(b / count)
    ensures BlurAt(s, w, h, x, y) == Pack(0xFF, r / count, g / count, b / count)
  {
    NeighbourCountRange(w, h, x, y);
    SumBound(s, w, h, x, y, 9, R);
    SumBound(s, w, h, x, y, 9, G);
    SumBound(s, w, h, x, y, 9, B);
    MeanIsByte(r, count);
    MeanIsByte(g, count);
    MeanIsByte(b, count);
  }

  /** The two kernel loops of `boxBlur` for pixel (x, y): the running sums
      of the three channels and the neighbour count. */
  method KernelSums(src: array<bv32>, w: int, h: int, x: int, y: int)
    returns (r: int, g: int, b: int, count: int)
    requires src.Length == w * h && InImage(w, h, x, y)
    ensures r == ChannelSum(src[..], w, h, x, y, 9, R)
    ensures g == ChannelSum(src[..], w, h, x, y, 9, G)
    ensures b == ChannelSum(src[..], w, h, x, y, 9, B)
    ensures count == NeighbourCount(w, h, x, y, 9)
  {
    ghost var s := src[..];
    ghost var k: nat := 0;
    r, g, b, count := 0, 0, 0, 0;
    var ky := -1;
    while ky <= 1
      invariant -1 <= ky <= 2 && k == 3 * (ky + 1)
      invariant r == ChannelSum(s, w, h, x, y, k, R)
      invariant g == ChannelSum(s, w, h, x, y, k, G)
      invariant b == ChannelSum(s, w, h, x, y, k, B)
      invariant count == NeighbourCount(w, h, x, y, k)
    {
      var kx := -1;
      while kx <= 1
        invariant -1 <= kx <= 2 && k == 3 * (ky + 1) + kx + 1
        invariant r == ChannelSum(s, w, h, x, y, k, R)
        invariant g == ChannelSum(s, w, h, x, y, k, G)
        invariant b == ChannelSum(s, w, h, x, y, k, B)
        invariant count == NeighbourCount(w, h, x, y, k)
      {
        Offset(kx, ky);
        r, g, b, count := Visit(src, w, h, x, y, kx, ky, k, r, g, b, count);
        k := k + 1;
        kx := kx + 1;
      }
      ky := ky + 1;
    }
  }

  /** One pass of the inner kernel loop: neighbour (x + kx, y + ky) is added
      to the sums and the count if it lies inside the image. */
  method Visit(src: array<bv32>, w: int, h: int, x: int, y: int, kx: int, ky: int, ghost k: nat,
               r: int, g: int, b: int, count: int)
    returns (r': int, g': int, b': int, count': int)
    requires src.Length == w * h && k < 9 && k % 3 - 1 == kx && k / 3 - 1 == ky
    ensures r' == r + ChannelSum(src[..], w, h, x, y, k + 1, R) - ChannelSum(src[..], w, h, x, y, k, R)
    ensures g' == g + ChannelSum(src[..], w, h, x, y, k + 1, G) - ChannelSum(src[..], w, h, x, y, k, G)
    ensures b' == b + ChannelSum(src[..], w, h, x, y, k + 1, B) - ChannelSum(src[..], w, h, x, y, k, B)
    ensures count' == count + NeighbourCount(w, h, x, y, k + 1) - NeighbourCount(w, h, x, y, k)
  {
    r', g', b', count' := r, g, b, count;
    var ny := y + ky;
    var nx := x + kx;
    if ny >= 0 && ny < h && nx >= 0 && nx < w {
      IndexInRange(w, h, nx, ny);
      var c := src[ny * w + nx];
      SumStep(src[..], w, h, x, y, k, c);
      r' := r' + Red(c);
      g' := g' + Green(c);
      b' := b' + Blue(c);
      count' := count' + 1;
    } else {
      SkipStep(src[..], w, h, x, y, k);
    }
  }

  /** The kernel loops visit offset (kx, ky) as offset number 3 * (ky + 1) + kx + 1. */
  lemma Offset(kx: int, ky: int)
    requires -1 <= kx <= 1 && -1 <= ky <= 1
    ensures var k := 3 * (ky + 1) + kx + 1; k % 3 - 1 == kx && k / 3 - 1 == ky
  {
  }

  /** Visiting an in-image neighbour adds its channels and one to the count. */
  lemma SumStep(s: seq<bv32>, w: int, h: int, x: int, y: int, k: nat, c: bv32)
    requires |s| == w * h && k < 9 && NeighbourIn(w, h, x, y, k)
    requires c == At(s, w, h, x + k % 3 - 1, y + k / 3 - 1)
    ensures ChannelSum(s, w, h, x, y, k + 1, R) == ChannelSum(s, w, h, x, y, k, R) + Red(c)
    ensures ChannelSum(s, w, h, x, y, k + 1, G) == ChannelSum(s, w, h, x, y, k, G) + Green(c)
    ensures ChannelSum(s, w, h, x, y, k + 1, B) == ChannelSum(s, w, h, x, y, k, B) + Blue(c)
    ensures NeighbourCount(w, h, x, y, k + 1) == NeighbourCount(w, h, x, y, k) + 1
  {
  }

  /** Visiting an offset outside the image changes nothing. */
  lemma SkipStep(s: seq<bv32>, w: int, h: int, x: int, y: int, k: nat)
    requires |s| == w * h && k < 9 && !NeighbourIn(w, h, x, y, k)
    ensures ChannelSum(s, w, h, x, y, k + 1, R) == ChannelSum(s, w, h, x, y, k, R)
    ensures ChannelSum(s, w, h, x, y, k + 1, G) == ChannelSum(s, w, h, x, y, k, G)
    ensures ChannelSum(s, w, h, x, y, k + 1, B) == ChannelSum(s, w, h, x, y, k, B)
    ensures NeighbourCount(w, h, x, y, k + 1) == NeighbourCount(w, h, x, y, k)
  {
  }

  // ---------------------------------------------------------------------
  // unsharpMask

  /** `orig + (int)((orig - blur) * amount)` clamped: `scaled` stands for the
      float product and its truncation, d |-> (int)(d * amount). */
  function SharpChannel(orig: int, blur: int, scaled: int -> int): int {
    Clamp(orig + scaled(orig - blur))
  }

  function SharpPixel(orig: bv32, blur: bv32, scaled: int -> int): bv32 {
    Pack(0xFF, SharpChannel(Red(orig), Red(blur), scaled),
         SharpChannel(Green(orig), Green(blur), scaled),
         SharpChannel(Blue(orig), Blue(blur), scaled))
  }

  /** Each pixel of `s` sharpened against the same pixel of the blurred image `bl`. */
  function SharpenedWith(s: seq<bv32>, bl: seq<bv32>, scaled: int -> int): (r: seq<bv32>)
    requires |bl| == |s|
    ensures |r| == |s|
  {
    seq(|s|, i requires 0 <= i < |s| => SharpPixel(s[i], bl[i], scaled))
  }

  /** The image `unsharpMask` produces. */
  function Sharpened(s: seq<bv32>, w: int, h: int, scaled: int -> int): (r: seq<bv32>)
    requires 0 <= w && 0 <= h && |s| == w * h
    ensures |r| == |s|
  {
    SharpenedWith(s, Blurred(s, w, h), scaled)
  }

  /** Whatever `amount` is, a sharpened pixel is opaque and each channel is
      the clamped sharpened value. */
  lemma SharpPixelChannels(orig: bv32, blur: bv32, scaled: int -> int)
    ensures var c := SharpPixel(orig, blur, scaled);
      && Alpha(c) == 0xFF
      && Red(c) == Clamp(Red(orig) + scaled(Red(orig) - Red(blur)))
      && Green(c) == Clamp(Green(orig) + scaled(Green(orig) - Green(blur)))
      && Blue(c) == Clamp(Blue(orig) + scaled(Blue(orig) - Blue(blur)))
  {
  }

  /** Every pixel `unsharpMask` writes is opaque. */
  lemma SharpenedOpaque(s: seq<bv32>, w: int, h: int, scaled: int -> int, i: int)
    requires 0 <= w && 0 <= h && |s| == w * h && 0 <= i < |s|
    ensures Alpha(Sharpened(s, w, h, scaled)[i]) == 0xFF
  {
    SharpPixelChannels(s[i], Blurred(s, w, h)[i], scaled);
  }

  /** With a zero difference term (for instance amount = 0) sharpening keeps
      every colour channel and only forces alpha to 0xFF. */
  lemma SharpenZeroAmount(s: seq<bv32>, w: int, h: int, scaled: int -> int)
    requires 0 <= w && 0 <= h && |s| == w * h
    requires forall d :: scaled(d) == 0
    ensures forall i :: 0 <= i < |s| ==>
      var c := Sharpened(s, w, h, scaled)[i];
      Alpha(c) == 0xFF && Red(c) == Red(s[i]) && Green(c) == Green(s[i]) && Blue(c) == Blue(s[i])
  {
    forall i | 0 <= i < |s|
      ensures var c := Sharpened(s, w, h, scaled)[i];
        Alpha(c) == 0xFF && Red(c) == Red(s[i]) && Green(c) == Green(s[i]) && Blue(c) == Blue(s[i])
    {
      SharpPixelChannels(s[i], Blurred(s, w, h)[i], scaled);
    }
  }

  /** `unsharpMask`: blur into a fresh buffer, then write the sharpened
      pixels into `dst`. */
  method UnsharpMask(src: array<bv32>, dst: array<bv32>, w: int, h: int, scaled: int -> int)
    requires src != dst && 0 <= w && 0 <= h
    requires src.Length == w * h && dst.Length == w * h
    modifies dst
    ensures dst[..] == Sharpened(old(src[..]), w, h, scaled)
    ensures src[..] == old(src[..])
  {
    var blur := new bv32[w * h];
    BoxBlur(src, blur, w, h);
    SharpenPass(src, blur, dst, scaled);
  }

  /** One pass of the second loop of `unsharpMask`. */
  method SharpenOne(orig: bv32, blurred: bv32, scaled: int -> int) returns (d: bv32)
    ensures d == SharpPixel(orig, blurred, scaled)
  {
    var origR, origG, origB := Red(orig), Green(orig), Blue(orig);
    var blurR, blurG, blurB := Red(blurred), Green(blurred), Blue(blurred);
    var sharpR := origR + scaled(origR - blurR);
    var sharpG := origG + scaled(origG - blurG);
    var sharpB := origB + scaled(origB - blurB);
    assert Clamp(sharpR) == SharpChannel(Red(orig), Red(blurred), scaled);
    assert Clamp(sharpG) == SharpChannel(Green(orig), Green(blurred), scaled);
    assert Clamp(sharpB) == SharpChannel(Blue(orig), Blue(blurred), scaled);
    d := Pack(0xFF, Clamp(sharpR), Clamp(sharpG), Clamp(sharpB));
  }

  /** The second loop of `unsharpMask`: every pixel of `dst` becomes the
      opaque, clamped sharpening of the same pixel of `src` against `blur`. */
  method SharpenPass(src: array<bv32>, blur: array<bv32>, dst: array<bv32>, scaled: int -> int)
    requires dst != src && dst != blur
    requires blur.Length == src.Length && dst.Length == src.Length
    modifies dst
    ensures dst[..] == SharpenedWith(src[..], blur[..], scaled)
  {
    ghost var sh := SharpenedWith(src[..], blur[..], scaled);
    var i := 0;
    while i < src.Length
      invariant 0 <= i <= src.Length
      invariant forall j :: 0 <= j < i ==> dst[j] == sh[j]
    {
      dst[i] := SharpenOne(src[i], blur[i], scaled);
      i := i + 1;
    }
    assert dst[..] == sh;
  }
}
