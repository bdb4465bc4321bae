/**
  `processImage`, the JNI entry point of the native kernel: lock both
  bitmaps, copy the source pixels into the output, optionally sharpen,
  then run every pixel through the parameter-gated colour stages and pack
  it again with `clamp`.

  The colour stages themselves are float code (`powf`, `sqrtf`, HSV
  conversion, IEEE rounding). They are parameters here: a `Stages` value
  holds one function per stage, over reals. What is modelled exactly is
  the skeleton around them: which stage runs when, in which order, on
  which pixel, what is unpacked and repacked, and the lock discipline.
 */
module ImageAdjust {
  import opened Pixel
  import opened Helper
  import opened Config

  // ---------------------------------------------------------------------
  // The float side of a pixel

  /** The three float channels `r`, `g`, `b` of the pixel loop. */
  datatype Rgb = Rgb(r: real, g: real, b: real)

  /** One function per colour stage, each taking the channels and the
      stage's parameter. `grain` also takes the noise drawn for the pixel,
      `vignette` the pixel's column and row (the image centre and the
      maximal distance are fixed for one call). `sharpen(amount)` is the
      truncated float product d |-> (int)(d * amount) of `unsharpMask`. */
  datatype Stages = Stages(
    brightness: (Rgb, real) -> Rgb,
    exposure: (Rgb, real) -> Rgb,
    contrast: (Rgb, real) -> Rgb,
    hue: (Rgb, real) -> Rgb,
    saturation: (Rgb, real) -> Rgb,
    highlight: (Rgb, real) -> Rgb,
    shadows: (Rgb, real) -> Rgb,
    grain: (Rgb, real, real) -> Rgb,
    vignette: (Rgb, real, int, int) -> Rgb,
    sharpen: real -> (int -> int))

  /** The gate of every stage but the vignette: `fabs(v) > 0.001f`. */
  predicate Active(v: real) {
    (if v < 0.0 then -v else v) > 0.001
  }

  /** C's float-to-int conversion `(int)v`: truncation toward zero. */
  function Trunc(v: real): (n: int)
    ensures 0.0 <= v ==> n as real <= v < n as real + 1.0
    ensures v < 0.0 ==> n as real - 1.0 < v <= n as real
  {
    if v >= 0.0 then v.Floor else -((-v).Floor)
  }

  /** `((rand() % 200) - 100) / 100.0f` for a draw `n` of `rand()`. */
  function Noise(n: nat): (z: real)
    ensures -1.0 <= z < 1.0
  {
    ((n % 200) - 100) as real / 100.0
  }

  // Each colour stage behind its gate: the stage applied if the gate is
  // open, the channels unchanged otherwise.

  function BrightnessStage(v: Rgb, p: AdjustmentConfig, st: Stages): Rgb {
    if Active(p.brightness) then st.brightness(v, p.brightness) else v
  }

  function ExposureStage(v: Rgb, p: AdjustmentConfig, st: Stages): Rgb {
    if Active(p.exposure) then st.exposure(v, p.exposure) else v
  }

  function ContrastStage(v: Rgb, p: AdjustmentConfig, st: Stages): Rgb {
    if Active(p.contrast) then st.contrast(v, p.contrast) else v
  }

  function HueStage(v: Rgb, p: AdjustmentConfig, st: Stages): Rgb {
    if Active(p.hue) then st.hue(v, p.hue) else v
  }

  function SaturationStage(v: Rgb, p: AdjustmentConfig, st: Stages): Rgb {
    if Active(p.saturation) then st.saturation(v, p.saturation) else v
  }

  function HighlightStage(v: Rgb, p: AdjustmentConfig, st: Stages): Rgb {
    if Active(p.highlight) then st.highlight(v, p.highlight) else v
  }

  function ShadowsStage(v: Rgb, p: AdjustmentConfig, st: Stages): Rgb {
    if Active(p.shadows) then st.shadows(v, p.shadows) else v
  }

  function GrainStage(v: Rgb, p: AdjustmentConfig, st: Stages, draw: nat): Rgb {
    if Active(p.grain) then st.grain(v, p.grain, Noise(draw)) else v
  }

  /** The only gate that is an exact comparison: `vignette != 0.0f`. */
  function VignetteStage(v: Rgb, x: int, y: int, p: AdjustmentConfig, st: Stages): Rgb {
    if p.vignette != 0.0 then st.vignette(v, p.vignette, x, y) else v
  }

  /** The colour stages of the main loop, in source order. `draw` is the
      `rand()` result the grain stage of the pixel gets. */
  function Pipeline(v: Rgb, x: int, y: int, p: AdjustmentConfig, st: Stages, draw: nat): Rgb {
    var v1 := BrightnessStage(v, p, st);
    var v2 := ExposureStage(v1, p, st);
    var v3 := ContrastStage(v2, p, st);
    var v4 := HueStage(v3, p, st);
    var v5 := SaturationStage(v4, p, st);
    var v6 := HighlightStage(v5, p, st);
    var v7 := ShadowsStage(v6, p, st);
    var v8 := GrainStage(v7, p, st, draw);
    VignetteStage(v8, x, y, p, st)
  }

  /** The unpacked channels of a pixel, as floats. */
  function Channels(c: bv32): Rgb {
    Rgb(Red(c) as real, Green(c) as real, Blue(c) as real)
  }

  /** One iteration of the main loop on pixel `c` at (x, y): the alpha byte
      read from the pixel is written back, and each colour channel is the
      stage output truncated toward zero and clamped into a byte. */
  function AdjustPixel(c: bv32, x: int, y: int, p: AdjustmentConfig, st: Stages, draw: nat): (d: bv32)
    ensures Alpha(d) == Alpha(c)
    ensures var v := Pipeline(Channels(c), x, y, p, st, draw);
      && Red(d) == Clamp(Trunc(v.r)) && Green(d) == Clamp(Trunc(v.g)) && Blue(d) == Clamp(Trunc(v.b))
    ensures IsByte(Red(d)) && IsByte(Green(d)) && IsByte(Blue(d))
  {
    var v := Pipeline(Channels(c), x, y, p, st, draw);
    Pack(Alpha(c), Clamp(Trunc(v.r)), Clamp(Trunc(v.g)), Clamp(Trunc(v.b)))
  }

  /** The main loop over a w * h buffer: pixel i at (i % w, i / w), with the
      i-th draw of `rand`. */
  function Adjusted(s: seq<bv32>, w: int, h: int, p: AdjustmentConfig, st: Stages, rand: nat -> nat): (r: seq<bv32>)
    requires 0 <= w && 0 <= h && |s| == w * h
    ensures |r| == |s|
  {
    seq(|s|, i requires 0 <= i < |s| =>
      Coordinates(w, h, i);
      AdjustPixel(s[i], i % w, i / w, p, st, rand(i)))
  }

  /** The buffer the main loop starts from: the copied source, sharpened
      with amount `sharpness * 3` when the sharpness gate is open. */
  function Prepared(s: seq<bv32>, w: int, h: int, p: AdjustmentConfig, st: Stages): (r: seq<bv32>)
    requires 0 <= w && 0 <= h && |s| == w * h
    ensures |r| == |s|
  {
    if Active(p.sharpness) then Sharpened(s, w, h, st.sharpen(p.sharpness * 3.0)) else s
  }

  /** The whole output image for source pixels `s`. */
  function Processed(s: seq<bv32>, w: int, h: int, p: AdjustmentConfig, st: Stages, rand: nat -> nat): (r: seq<bv32>)
    requires 0 <= w && 0 <= h && |s| == w * h
    ensures |r| == |s|
  {
    Adjusted(Prepared(s, w, h, p, st), w, h, p, st, rand)
  }

  // ---------------------------------------------------------------------
  // Properties of the per-pixel pipeline

  lemma TruncOfInt(n: int)
    ensures Trunc(n as real) == n
  {
  }

  /** A closed gate leaves the channels alone: with every parameter zero the
      pipeline is the identity, whatever the stages compute. */
  lemma PipelineZero(v: Rgb, x: int, y: int, st: Stages, draw: nat)
    ensures Pipeline(v, x, y, Zero, st, draw) == v
  {
  }

  /** With all ten parameters zero a pixel comes out of the main loop as it
      went in: unpack, truncate, clamp and pack round-trip. */
  lemma AdjustPixelZero(c: bv32, x: int, y: int, st: Stages, draw: nat)
    ensures AdjustPixel(c, x, y, Zero, st, draw) == c
  {
    PipelineZero(Channels(c), x, y, st, draw);
    TruncOfInt(Red(c));
    TruncOfInt(Green(c));
    TruncOfInt(Blue(c));
    UnpackPack(c);
  }

  /** With all ten parameters zero the output is the copied source. */
  lemma ProcessedZero(s: seq<bv32>, w: int, h: int, st: Stages, rand: nat -> nat)
    requires 0 <= w && 0 <= h && |s| == w * h
    ensures Processed(s, w, h, Zero, st, rand) == s
  {
    var r := Processed(s, w, h, Zero, st, rand);
    forall i | 0 <= i < |s|
      ensures r[i] == s[i]
    {
      Coordinates(w, h, i);
      AdjustPixelZero(s[i], i % w, i / w, st, rand(i));
    }
  }

  /** The alpha byte written back is the one read from the pixel after the
      optional sharpening: 0xFF when sharpening ran, the source alpha
      otherwise. */
  lemma ProcessedAlpha(s: seq<bv32>, w: int, h: int, p: AdjustmentConfig, st: Stages, rand: nat -> nat)
    requires 0 <= w && 0 <= h && |s| == w * h
    ensures forall i :: 0 <= i < |s| ==>
      Alpha(Processed(s, w, h, p, st, rand)[i]) == if Active(p.sharpness) then 0xFF else Alpha(s[i])
  {
    var r := Processed(s, w, h, p, st, rand);
    forall i | 0 <= i < |s|
      ensures Alpha(r[i]) == if Active(p.sharpness) then 0xFF else Alpha(s[i])
    {
      Coordinates(w, h, i);
      var base := Prepared(s, w, h, p, st);
      assert r[i] == AdjustPixel(base[i], i % w, i / w, p, st, rand(i));
      if Active(p.sharpness) {
        SharpenedOpaque(s, w, h, st.sharpen(p.sharpness * 3.0), i);
      }
    }
  }

  /** Two stage sets that agree on every stage whose gate is open. */
  ghost predicate AgreeWhereActive(p: AdjustmentConfig, st1: Stages, st2: Stages) {
    && (Active(p.brightness) ==> st1.brightness == st2.brightness)
    && (Active(p.exposure) ==> st1.exposure == st2.exposure)
    && (Active(p.contrast) ==> st1.contrast == st2.contrast)
    && (Active(p.hue) ==> st1.hue == st2.hue)
    && (Active(p.saturation) ==> st1.saturation == st2.saturation)
    && (Active(p.highlight) ==> st1.highlight == st2.highlight)
    && (Active(p.shadows) ==> st1.shadows == st2.shadows)
    && (Active(p.grain) ==> st1.grain == st2.grain)
    && (p.vignette != 0.0 ==> st1.vignette == st2.vignette)
    && (Active(p.sharpness) ==> st1.sharpen == st2.sharpen)
  }

  /** The pipeline only consults stages whose gate is open. */
  lemma PipelineAgree(v: Rgb, x: int, y: int, p: AdjustmentConfig, st1: Stages, st2: Stages, draw: nat)
    requires AgreeWhereActive(p, st1, st2)
    ensures Pipeline(v, x, y, p, st1, draw) == Pipeline(v, x, y, p, st2, draw)
  {
  }

  /** The main loop only consults stages whose gate is open. */
  lemma AdjustedAgree(s: seq<bv32>, w: int, h: int, p: AdjustmentConfig, st1: Stages, st2: Stages, rand: nat -> nat)
    requires 0 <= w && 0 <= h && |s| == w * h
    requires AgreeWhereActive(p, st1, st2)
    ensures Adjusted(s, w, h, p, st1, rand) == Adjusted(s, w, h, p, st2, rand)
  {
    var r1, r2 := Adjusted(s, w, h, p, st1, rand), Adjusted(s, w, h, p, st2, rand);
    forall i | 0 <= i < |s|
      ensures r1[i] == r2[i]
    {
      Coordinates(w, h, i);
      PipelineAgree(Channels(s[i]), i % w, i / w, p, st1, st2, rand(i));
    }
  }

  /** A stage whose gate is closed is never consulted: the output depends
      only on the stages that run. */
  lemma ClosedStagesIgnored(s: seq<bv32>, w: int, h: int, p: AdjustmentConfig, st1: Stages, st2: Stages, rand: nat -> nat)
    requires 0 <= w && 0 <= h && |s| == w * h
    requires AgreeWhereActive(p, st1, st2)
    ensures Processed(s, w, h, p, st1, rand) == Processed(s, w, h, p, st2, rand)
  {
    assert Prepared(s, w, h, p, st1) == Prepared(s, w, h, p, st2);
    AdjustedAgree(Prepared(s, w, h, p, st1), w, h, p, st1, st2, rand);
  }

  // ---------------------------------------------------------------------
  // Bitmaps and the lock discipline

  /** An Android bitmap as the native side sees it: its size, its pixel
      buffer (one packed word per pixel, no row padding) and whether its
      pixels are locked. `lockCount` counts successful locks. */
  class NativeBitmap {
    const width: int
    const height: int
    const pixels: array<bv32>
    var locked: bool
    var lockCount: nat

    ghost predicate Valid()
      reads this
    {
      0 <= width && 0 <= height && pixels.Length == width * height
    }

    constructor (w: int, h: int)
      requires 0 <= w && 0 <= h
      ensures Valid() && width == w && height == h && !locked && lockCount == 0
      ensures fresh(pixels)
    {
      width, height := w, h;
      pixels := new bv32[w * h];
      locked, lockCount := false, 0;
    }
  }

  /** `AndroidBitmap_lockPixels`; `succeeds` is the platform's answer. */
  method LockPixels(b: NativeBitmap, succeeds: bool) returns (ok: bool)
    requires !b.locked
    modifies b`locked, b`lockCount
    ensures ok == succeeds && b.locked == ok
    ensures b.lockCount == old(b.lockCount) + (if ok then 1 else 0)
  {
    ok := succeeds;
    if ok {
      b.locked := true;
      b.lockCount := b.lockCount + 1;
    }
  }

  /** `AndroidBitmap_unlockPixels`: only ever called on a locked bitmap. */
  method UnlockPixels(b: NativeBitmap)
    requires b.locked
    modifies b`locked
    ensures !b.locked
  {
    b.locked := false;
  }

  /** One pass of the main loop: pixel `c` is unpacked, sent through the
      open stages and packed again with its own alpha byte. */
  method AdjustOne(c: bv32, i: nat, x: int, y: int, p: AdjustmentConfig, st: Stages, rand: nat -> nat)
    returns (d: bv32)
    ensures d == AdjustPixel(c, x, y, p, st, rand(i))
  {
    var a := Alpha(c);
    var v := ColourStages(Channels(c), i, x, y, p, st, rand);
    d := Pack(a, Clamp(Trunc(v.r)), Clamp(Trunc(v.g)), Clamp(Trunc(v.b)));
  }

  /** The gated stages of the main loop body, in source order. `i` is the
      pixel's index, which is also the number of the `rand()` draw. */
  method ColourStages(v0: Rgb, i: nat, x: int, y: int, p: AdjustmentConfig, st: Stages, rand: nat -> nat)
    returns (v: Rgb)
    ensures v == Pipeline(v0, x, y, p, st, rand(i))
  {
    v := v0;
    if Active(p.brightness) { v := st.brightness(v, p.brightness); }
    if Active(p.exposure) { v := st.exposure(v, p.exposure); }
    if Active(p.contrast) { v := st.contrast(v, p.contrast); }
    if Active(p.hue) { v := st.hue(v, p.hue); }
    if Active(p.saturation) { v := st.saturation(v, p.saturation); }
    if Active(p.highlight) { v := st.highlight(v, p.highlight); }
    if Active(p.shadows) { v := st.shadows(v, p.shadows); }
    if Active(p.grain) { v := st.grain(v, p.grain, Noise(rand(i))); }
    if p.vignette != 0.0 {
      v := st.vignette(v, p.vignette, x, y);
    }
  }

  /** The main pixel loop: every index of `pixels` is visited once, in
      order, and replaced by the adjusted pixel. */
  method AdjustAll(pixels: array<bv32>, w: int, h: int, p: AdjustmentConfig, st: Stages, rand: nat -> nat)
    requires 0 <= w && 0 <= h && pixels.Length == w * h
    modifies pixels
    ensures pixels[..] == Adjusted(old(pixels[..]), w, h, p, st, rand)
  {
    ghost var s := pixels[..];
    ghost var target := Adjusted(s, w, h, p, st, rand);
    var size := w * h;
    var i := 0;
    while i < size
      invariant 0 <= i <= size
      invariant forall j :: 0 <= j < i ==> pixels[j] == target[j]
      invariant forall j :: i <= j < size ==> pixels[j] == s[j]
    {
      Coordinates(w, h, i);
      pixels[i] := AdjustOne(pixels[i], i, i % w, i / w, p, st, rand);
      i := i + 1;
    }
    assert pixels[..] == target;
  }

  /** `memcpy` of a whole pixel buffer. */
  method CopyPixels(src: array<bv32>, dst: array<bv32>)
    requires src != dst && dst.Length == src.Length
    modifies dst
    ensures dst[..] == src[..]
  {
    forall j | 0 <= j < src.Length {
      dst[j] := src[j];
    }
  }

  /** "Apply sharpness first": unsharp-mask the buffer into a temporary
      one and copy the result back. */
  method SharpenInPlace(pixels: array<bv32>, w: int, h: int, scaled: int -> int)
    requires 0 <= w && 0 <= h && pixels.Length == w * h
    modifies pixels
    ensures pixels[..] == Sharpened(old(pixels[..]), w, h, scaled)
  {
    var temp := new bv32[w * h];
    UnsharpMask(pixels, temp, w, h, scaled);
    CopyPixels(temp, pixels);
  }

  /** What `processImage` does between locking and unlocking: copy the
      source into the output, sharpen it if the gate is open, then run the
      main loop over it. */
  method Kernel(src: array<bv32>, pixels: array<bv32>, w: int, h: int,
                p: AdjustmentConfig, st: Stages, rand: nat -> nat)
    requires src != pixels && 0 <= w && 0 <= h
    requires src.Length == w * h && pixels.Length == w * h
    modifies pixels
    ensures pixels[..] == Processed(src[..], w, h, p, st, rand)
  {
    ghost var s := src[..];
    ghost var base := Prepared(s, w, h, p, st);
    CopyPixels(src, pixels);
    if Active(p.sharpness) {
      SharpenInPlace(pixels, w, h, st.sharpen(p.sharpness * 3.0));
    }
    assert pixels[..] == base;
    AdjustAll(pixels, w, h, p, st, rand);
  }

  /** `processImage(original, output, ...)`. `infoOk`, `srcLockOk` and
      `dstLockOk` are the answers of `AndroidBitmap_getInfo` and of the two
      `AndroidBitmap_lockPixels` calls. Whatever they are, no bitmap is left
      locked and the source pixels are untouched; only when all three
      succeed is the output rewritten, with the processed source. */
  method ProcessImage(original: NativeBitmap, output: NativeBitmap,
                      infoOk: bool, srcLockOk: bool, dstLockOk: bool,
                      p: AdjustmentConfig, st: Stages, rand: nat -> nat)
    requires original != output && original.pixels != output.pixels
    requires original.Valid() && output.pixels.Length == original.pixels.Length
    requires !original.locked && !output.locked
    modifies original`locked, original`lockCount, output`locked, output`lockCount, output.pixels
    ensures !original.locked && !output.locked
    ensures original.pixels[..] == old(original.pixels[..])
    ensures infoOk && srcLockOk && dstLockOk ==>
      output.pixels[..] == Processed(old(original.pixels[..]), original.width, original.height, p, st, rand)
    ensures !(infoOk && srcLockOk && dstLockOk) ==> output.pixels[..] == old(output.pixels[..])
    ensures !infoOk ==> original.lockCount == old(original.lockCount) && output.lockCount == old(output.lockCount)
    ensures infoOk ==> original.lockCount == old(original.lockCount) + (if srcLockOk then 1 else 0)
    ensures !(infoOk && srcLockOk) ==> output.lockCount == old(output.lockCount)
    ensures infoOk && srcLockOk ==> output.lockCount == old(output.lockCount) + (if dstLockOk then 1 else 0)
  {
    if !infoOk {
      return;
    }
    var srcOk := LockPixels(original, srcLockOk);
    if !srcOk {
      return;
    }
    var dstOk := LockPixels(output, dstLockOk);
    if !dstOk {
      UnlockPixels(original);
      return;
    }
    Kernel(original.pixels, output.pixels, original.width, original.height, p, st, rand);
    UnlockPixels(original);
    UnlockPixels(output);
  }
}
