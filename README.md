# ImgCraft core, modelled in Dafny

ImgCraft is an Android image-adjustment library. A UI moves ten sliders:
brightness, exposure, contrast, hue, saturation, highlight, shadows, grain,
sharpness and vignette. The `ImageCraft` engine stores the values and
coalesces bursts of changes into renders on a background thread. Each
render calls a native kernel. The kernel copies the preview into a work
bitmap, optionally sharpens it with an unsharp mask built on a 3x3 box
blur, runs every pixel through parameter-gated colour stages and packs it
back into ARGB_8888. The sample app shows the tools in a list whose
adapter keeps exactly one tool selected.

The project has eight modules:

- `Config`: the ten-field `AdjustmentConfig`, the `Param` names, the
  per-field ranges and Kotlin's `coerceIn`.
- `Scheduler`: the render engine as a state machine over values. Each
  thread's action is one atomic `Event`: a setter, `reset`, the render
  callback firing, the kernel call ending (with the result written, after
  an early return, or with an exception), a delivery runnable running,
  `release`. Invariants and trace lemmas cover:
  - mutual exclusion;
  - coalescing: a burst of changes ends in exactly one render, and that
    render reads the final configuration;
  - termination of the retry chain;
  - finality of `release`.
- `Engine`: the `ImageCraft` class itself, with the Kotlin fields and
  one method per event. Each method is proved to move `View()` exactly as
  `Scheduler.Step` does, so every `Scheduler` lemma applies to the class.
  - The handler queues are counters.
  - The bitmaps are objects that record what they show and whether they
    were recycled.
  - `previews` lists every bitmap handed to the `onPreviewReady` callback.
- `Pixel`: packed ARGB words as `bv32`, channel extraction, packing, and
  `clamp`.
- `Helper`: `boxBlur` and `unsharpMask` of `helper.cpp` as array methods
  with loops. They are proved against specification functions (`Blurred`,
  `Sharpened`), and lemmas establish what the source promises about
  those functions.
- `ImageAdjust`: `processImage` of `image-adjust.cpp`, covering:
  - the lock and unlock paths;
  - the copy and the optional in-place sharpening;
  - the pixel loop.

  The float colour stages are parameters (a `Stages` value, one function
  per stage over reals). What is proved is the skeleton around them:
  - which stage runs when, on which pixel and in which order;
  - what is unpacked and repacked;
  - that the output equals the source when every parameter is zero;
  - that no bitmap stays locked.
- `Tools`: the `AdjustmentTool` record, the `ToolDefaults` constants and
  the sample app's `tools` table. It also covers the slider-to-setter
  mapping through which each tool drives one engine parameter.
- `Adapter`: `AdjustmentAdapter` with `selectItem`, the click handler
  and `getItemCount`.

What the code does, which the model follows:

- The engine keeps one `displayBitmap`. Every render that does not throw
  redraws it in place and posts that same object to the callback again.
  `Engine.ImageCraft.FinishRender` overwrites the display bitmap's frame
  even though the bitmap may already be in `previews`.
- `release` sets `isReleased`, drops the queued render callbacks and
  recycles the display and work bitmaps. It does not wait for a render
  already running on the render thread. That render draws, swaps and posts
  a delivery only when `release` comes after its `drawBitmap`. When
  `release` comes first, `drawBitmap` throws on the recycled bitmap, the
  exception is caught and logged, and nothing is swapped or posted (the
  `Threw` outcome). Either way its `finally` block clears the busy flag and
  calls `scheduleRender`, which sees the flag and queues nothing.
  `Scheduler.FinishEffect` holds whether or not the engine is released, and
  the posted delivery checks the flag again before handing the bitmap out.
- `update` writes the configuration before `scheduleRender` checks the
  flag, so a setter called after `release` still changes its field while
  nothing is queued (`Scheduler.SetEffect`).
- `processImage` never throws. When the bitmap info or one of the two locks
  is refused, it logs and returns without writing the output
  (`ImageAdjust.ProcessImage`). `render()` then draws the front work buffer
  into the display, swaps and delivers as after a success. That buffer
  holds the result of the render before the previous one, or the fully
  transparent contents of a new bitmap, whose drawing leaves the display
  as it was (`Scheduler.StaleFrames`).
- The render thread reads the ten fields one by one from the shared
  mutable `config` while the UI may write them. The model reads them
  atomically at the `Fire` event (see "Left out").

## Model

| member | source | states |
|---|---|---|
| `Config.CoerceIn` | app/imgcraft/src/main/java/com/github/muhammadnoman11/imgcraft/core/ImageCraft.kt:157-166 | `v.coerceIn(lo, hi)` lies in [lo, hi]. It is `v` inside the range, `lo` below it and `hi` above it. |
| `Config.With` | app/imgcraft/src/main/java/com/github/muhammadnoman11/imgcraft/core/ImageCraft.kt:157-166 | Writing one field of the config changes that field to the new value and leaves the other nine equal. |
| `Config.Clamped` | app/imgcraft/src/main/java/com/github/muhammadnoman11/imgcraft/core/ImageCraft.kt:157-166 | A setter leaves its field inside the field's range, keeps an in-range argument as is, leaves the other nine fields unchanged, and keeps every field in range. |
| `Config.ZeroFields` | app/imgcraft/src/main/java/com/github/muhammadnoman11/imgcraft/model/AdjustmentConfig.kt:9-21 | The default config has all ten fields 0, and 0 lies in every field's range. |
| `Scheduler.Step` | app/imgcraft/src/main/java/com/github/muhammadnoman11/imgcraft/core/ImageCraft.kt:157-318 | The effect of each event. Only `release` sets the released flag and nothing clears it. Only a setter or `reset` changes the config. Only a callback firing on an idle, unreleased engine starts a render. Only the end of a render clears the busy flag or posts a delivery. |
| `Scheduler.Schedule` | app/imgcraft/src/main/java/com/github/muhammadnoman11/imgcraft/core/ImageCraft.kt:221-228 | `scheduleRender` changes nothing once released. Otherwise the pending count grows by one and exactly one render callback is queued. |
| `Scheduler.InitialInv` | app/imgcraft/src/main/java/com/github/muhammadnoman11/imgcraft/core/ImageCraft.kt:99-105 | The state after initialisation (idle, nothing pending, nothing queued, default config) satisfies the scheduler invariant. |
| `Scheduler.StepInv` | app/imgcraft/src/main/java/com/github/muhammadnoman11/imgcraft/core/ImageCraft.kt:221-274 | Every event preserves the invariant. At most one callback is queued. A queued callback implies pending >= 1. Nothing is queued once released. Pending work always has a queued callback or a running render. With nothing pending, the latest kernel call read the current config. A running render has a config snapshot. Every field stays in its range. |
| `Scheduler.SetEffect` | app/imgcraft/src/main/java/com/github/muhammadnoman11/imgcraft/core/ImageCraft.kt:157-174 | A setter stores its argument clamped into the field's range and leaves the other nine fields alone. Unless released, it queues exactly one render and raises the pending count by one. Once released, it still writes the field but queues nothing. |
| `Scheduler.ResetEffect` | app/imgcraft/src/main/java/com/github/muhammadnoman11/imgcraft/core/ImageCraft.kt:195-210 | `reset` sets all ten fields to 0 and, unless released, queues a render with pending >= 1. |
| `Scheduler.FireEffect` | app/imgcraft/src/main/java/com/github/muhammadnoman11/imgcraft/core/ImageCraft.kt:234-254 | When the callback fires, the queue is emptied. A render that starts sets processing, clears pending and passes the current config to the kernel. When the engine is released or busy, the callback changes nothing else. |
| `Scheduler.NoOverlappingRenders` | app/imgcraft/src/main/java/com/github/muhammadnoman11/imgcraft/core/ImageCraft.kt:236 | While a render runs, no event starts another one. Only the kernel's return clears the busy flag. |
| `Scheduler.FinishEffect` | app/imgcraft/src/main/java/com/github/muhammadnoman11/imgcraft/core/ImageCraft.kt:241-273 | After the kernel call, the busy flag is cleared. Unless something threw, the front buffer is drawn into the display, front and back swap, and one delivery is posted. After a write the display shows the config the render read. After an early return it shows the stale front buffer, or keeps what it showed when that buffer is still blank. After a throw none of this happens. Unless released, a render is queued again exactly when pending > 0. |
| `Scheduler.StaleFrames` | app/imgcraft/src/main/java/com/github/muhammadnoman11/imgcraft/core/ImageCraft.kt:241-266 | A render whose kernel returns early still presents the front buffer. A failed first render leaves the preview showing. A failed second render leaves the first one's result showing. After two good renders, a failed third shows the first one's result again. |
| `Scheduler.ReleasedIsFinal` | app/imgcraft/src/main/java/com/github/muhammadnoman11/imgcraft/core/ImageCraft.kt:309-312 | After `release`, every event keeps the flag set and the queue empty. No event starts a render, changes the pending count or changes the snapshot. |
| `Scheduler.ReleaseIdempotent` | app/imgcraft/src/main/java/com/github/muhammadnoman11/imgcraft/core/ImageCraft.kt:309-318 | A second `release` changes nothing. After `release`, the flag is set and nothing is queued. |
| `Scheduler.InternalStepDecreases` | app/imgcraft/src/main/java/com/github/muhammadnoman11/imgcraft/core/ImageCraft.kt:270-272 | Every engine-internal event (fire, finish, deliver) strictly lowers a potential. A render start uses up one of the starts still possible. |
| `Scheduler.QuiescentIffNoPotential` | app/imgcraft/src/main/java/com/github/muhammadnoman11/imgcraft/core/ImageCraft.kt:221-274 | The engine is quiescent (nothing queued, running or posted) exactly when the potential is 0. Otherwise some internal event is enabled. |
| `Scheduler.ChainEnds` | app/imgcraft/src/main/java/com/github/muhammadnoman11/imgcraft/core/ImageCraft.kt:270-272 | The retry chain ends. Without UI calls, a run has at most `Potential` events and at most one render start. It keeps the invariant, the config and the released flag. |
| `Scheduler.QuiescentIsSettled` | app/imgcraft/src/main/java/com/github/muhammadnoman11/imgcraft/core/ImageCraft.kt:239 | An unreleased, quiescent engine has nothing pending, and its latest kernel call read the current config. |
| `Scheduler.Coalescing` | app/imgcraft/src/main/java/com/github/muhammadnoman11/imgcraft/core/ImageCraft.kt:224-272 | When a render is owed, every run of internal events that comes to rest starts exactly one kernel call. That call reads the config the UI left. |
| `Scheduler.SetThenSettle` | app/imgcraft/src/main/java/com/github/muhammadnoman11/imgcraft/core/ImageCraft.kt:157-254 | A setter followed by the engine's own events, until rest, gives exactly one render. That render sees the value just set, clamped. |
| `Engine.ImageCraft.constructor` | app/imgcraft/src/main/java/com/github/muhammadnoman11/imgcraft/core/ImageCraft.kt:121-149 | Initialisation creates four fresh, distinct bitmaps with front = workBitmap1 and back = workBitmap2, both still blank, and the preview drawn into the display bitmap. It hands the display bitmap to the callback once, and the object invariant holds. |
| `Engine.ImageCraft.ScheduleRender` | app/imgcraft/src/main/java/com/github/muhammadnoman11/imgcraft/core/ImageCraft.kt:221-228 | The fields move exactly as `Scheduler.Schedule` prescribes. |
| `Engine.ImageCraft.Set` | app/imgcraft/src/main/java/com/github/muhammadnoman11/imgcraft/core/ImageCraft.kt:157-174 | `set*` then `update` moves the engine as the `Set` event does. The field holds the clamped argument, the other nine are unchanged, and the invariant (distinct work bitmaps included) is kept. |
| `Engine.ImageCraft.Reset` | app/imgcraft/src/main/java/com/github/muhammadnoman11/imgcraft/core/ImageCraft.kt:195-210 | `reset` moves the engine as the `Reset` event does and leaves every field 0. |
| `Engine.ImageCraft.ShowBefore` | app/imgcraft/src/main/java/com/github/muhammadnoman11/imgcraft/core/ImageCraft.kt:181-184 | The preview bitmap is handed out, or nothing happens once released. |
| `Engine.ImageCraft.ShowAfter` | app/imgcraft/src/main/java/com/github/muhammadnoman11/imgcraft/core/ImageCraft.kt:187-190 | The display bitmap is handed out, or nothing happens once released. |
| `Engine.ImageCraft.Render` | app/imgcraft/src/main/java/com/github/muhammadnoman11/imgcraft/core/ImageCraft.kt:234-254 | `render()` up to the kernel call moves the engine as the `Fire` event does. That covers the compare-and-set guard, clearing the pending count and the config passed to the kernel. |
| `Engine.ImageCraft.Present` | app/imgcraft/src/main/java/com/github/muhammadnoman11/imgcraft/core/ImageCraft.kt:256-266 | The display bitmap takes the front bitmap's frame, unless that bitmap is still blank. Front and back trade places and one delivery is posted. |
| `Engine.ImageCraft.FinishRender` | app/imgcraft/src/main/java/com/github/muhammadnoman11/imgcraft/core/ImageCraft.kt:241-273 | The kernel call ends, then the rest of `try` and `finally` run, as the `Finish` event prescribes. After a write the old front bitmap holds the rendered config. After an early return it keeps its contents. Unless something threw, the old front bitmap is drawn into the display bitmap (a still blank one leaves it as it was) and front and back trade places. After a throw no bitmap changes. Only bitmap contents may change, never a `recycled` flag. The config, the released flag and the handed-out list are unchanged. |
| `Engine.ImageCraft.Deliver` | app/imgcraft/src/main/java/com/github/muhammadnoman11/imgcraft/core/ImageCraft.kt:264-266 | The posted runnable hands out the display bitmap unless the engine is released. |
| `Engine.ImageCraft.Release` | app/imgcraft/src/main/java/com/github/muhammadnoman11/imgcraft/core/ImageCraft.kt:309-318 | `release` moves the engine as the `Release` event does. The display bitmap and both work bitmaps end recycled, their contents and the preview are untouched, and the method is safe to call again. |
| `Pixel.Alpha` | app/imgcraft/src/main/cpp/image-adjust.cpp:84 | `(c >> 24) & 0xFF` is a byte. |
| `Pixel.Red` | app/imgcraft/src/main/cpp/image-adjust.cpp:85 | `(c >> 16) & 0xFF` is a byte. |
| `Pixel.Green` | app/imgcraft/src/main/cpp/image-adjust.cpp:86 | `(c >> 8) & 0xFF` is a byte. |
| `Pixel.Blue` | app/imgcraft/src/main/cpp/image-adjust.cpp:87 | `c & 0xFF` is a byte. |
| `Pixel.Pack` | app/imgcraft/src/main/cpp/image-adjust.cpp:226 | Packing four byte-valued channels lets each be read back unchanged, so no channel bleeds into another. |
| `Pixel.UnpackPack` | app/imgcraft/src/main/cpp/image-adjust.cpp:84-87 | Unpacking a pixel into a, r, g, b and packing them again gives back the same word. |
| `Pixel.Clamp` | app/imgcraft/src/main/cpp/helper.cpp:58-60 | `clamp` returns a byte. It is the identity on [0, 255], gives 0 below and 255 above. |
| `Pixel.ClampIdempotent` | app/imgcraft/src/main/cpp/helper.cpp:58-60 | Clamping twice is clamping once. |
| `Helper.IndexInRange` | app/imgcraft/src/main/cpp/helper.cpp:100 | An in-image pixel (x, y) sits at index y * w + x, inside the w * h buffer. |
| `Helper.Coordinates` | app/imgcraft/src/main/cpp/image-adjust.cpp:210-211 | Every index i < w * h splits into x = i % w < w and y = i / w < h with y * w + x = i. |
| `Helper.NeighbourCountRange` | app/imgcraft/src/main/cpp/helper.cpp:94-112 | Every in-image pixel has between 1 and 9 in-image neighbours, so the `count > 0` fallback is never taken. |
| `Helper.SumBound` | app/imgcraft/src/main/cpp/helper.cpp:99-105 | A running channel sum is at most 255 per neighbour counted. |
| `Helper.MeanIsByte` | app/imgcraft/src/main/cpp/helper.cpp:110 | The integer mean of such a sum is a byte. |
| `Helper.BlurAtChannels` | app/imgcraft/src/main/cpp/helper.cpp:91-110 | A blurred pixel is opaque. Each channel is the floor of that channel's sum over the in-image neighbours, divided by their count (1 to 9). |
| `Helper.UniformSum` | app/imgcraft/src/main/cpp/helper.cpp:99-105 | Where every pixel has channel value v, the sum over k neighbours is v times their count. |
| `Helper.BlurUniform` | app/imgcraft/src/main/cpp/helper.cpp:91-110 | Blurring an image whose pixels all share one RGB keeps that RGB. |
| `Helper.BoxBlur` | app/imgcraft/src/main/cpp/helper.cpp:88-116 | `boxBlur` writes the blur of `src` at every index of `dst` and leaves `src` unchanged. |
| `Helper.BlurPixel` | app/imgcraft/src/main/cpp/helper.cpp:91-113 | The body of the two outer loops computes the blurred pixel for index y * w + x, which is in range. |
| `Helper.KernelSums` | app/imgcraft/src/main/cpp/helper.cpp:91-107 | The two kernel loops end with `r`, `g`, `b` equal to the channel sums over the in-image neighbours and `count` equal to their number. |
| `Helper.Visit` | app/imgcraft/src/main/cpp/helper.cpp:96-105 | One kernel offset adds the neighbour's channels and 1 to the count when the neighbour is inside the image, and nothing otherwise. |
| `Helper.SharpPixelChannels` | app/imgcraft/src/main/cpp/helper.cpp:135-139 | Whatever `amount` is, a sharpened pixel is opaque and each channel is `clamp(orig + (int)((orig - blur) * amount))`. |
| `Helper.SharpenedOpaque` | app/imgcraft/src/main/cpp/helper.cpp:139 | Every pixel `unsharpMask` writes has alpha 0xFF. |
| `Helper.SharpenZeroAmount` | app/imgcraft/src/main/cpp/helper.cpp:135-139 | When the scaled difference term is 0 (e.g. amount 0), every output pixel has the source's RGB and alpha 0xFF. |
| `Helper.UnsharpMask` | app/imgcraft/src/main/cpp/helper.cpp:119-143 | `unsharpMask` writes the sharpening of `src` against its box blur into `dst` and leaves `src` unchanged. |
| `Helper.SharpenOne` | app/imgcraft/src/main/cpp/helper.cpp:124-139 | One pass of the second loop computes the sharpened pixel of `orig` against `blurred`. |
| `Helper.SharpenPass` | app/imgcraft/src/main/cpp/helper.cpp:123-140 | The second loop replaces every pixel of `dst` by the sharpening of the same pixel of `src` against `blur`. |
| `ImageAdjust.Trunc` | app/imgcraft/src/main/cpp/image-adjust.cpp:226 | `(int)r` truncates toward zero. The result is the floor for r >= 0 and the ceiling for r < 0. |
| `ImageAdjust.TruncOfInt` | app/imgcraft/src/main/cpp/image-adjust.cpp:85-87 | Converting an integer channel to float and back gives the same integer. |
| `ImageAdjust.Noise` | app/imgcraft/src/main/cpp/image-adjust.cpp:200 | The grain noise `((rand() % 200) - 100) / 100` lies in [-1, 1). |
| `ImageAdjust.AdjustPixel` | app/imgcraft/src/main/cpp/image-adjust.cpp:83-226 | One loop iteration writes back the alpha byte it read. Each colour channel is the stage output truncated and clamped, and so is a byte. |
| `ImageAdjust.PipelineZero` | app/imgcraft/src/main/cpp/image-adjust.cpp:89-223 | With all parameters zero every gate is closed, so the channels pass through unchanged whatever the stages compute. |
| `ImageAdjust.AdjustPixelZero` | app/imgcraft/src/main/cpp/image-adjust.cpp:82-227 | With all parameters zero a pixel leaves the loop exactly as it entered (unpack, truncate, clamp and pack round-trip). |
| `ImageAdjust.ProcessedZero` | app/imgcraft/src/main/cpp/image-adjust.cpp:55-227 | With all ten parameters zero the output equals the copied source, pixel for pixel. |
| `ImageAdjust.ProcessedAlpha` | app/imgcraft/src/main/cpp/image-adjust.cpp:72-226 | Each output pixel's alpha is the one read after the optional sharpening: 0xFF when sharpening ran, the source alpha otherwise. |
| `ImageAdjust.PipelineAgree` | app/imgcraft/src/main/cpp/image-adjust.cpp:89-223 | A stage runs only when its gate is open: `fabs(v) > 0.001`, or `v != 0` for vignette. Two stage sets that agree on the open stages give the same channels. |
| `ImageAdjust.AdjustedAgree` | app/imgcraft/src/main/cpp/image-adjust.cpp:82-227 | The main loop's output depends only on the stages whose gates are open. |
| `ImageAdjust.ClosedStagesIgnored` | app/imgcraft/src/main/cpp/image-adjust.cpp:72-227 | The whole output depends only on the open stages, sharpening included. |
| `ImageAdjust.LockPixels` | app/imgcraft/src/main/cpp/image-adjust.cpp:44-47 | Locking succeeds as the platform answers. A success locks the bitmap and counts one lock. |
| `ImageAdjust.UnlockPixels` | app/imgcraft/src/main/cpp/image-adjust.cpp:230-231 | Unlocking is only applied to a locked bitmap and leaves it unlocked. |
| `ImageAdjust.AdjustOne` | app/imgcraft/src/main/cpp/image-adjust.cpp:83-226 | The loop body computes the adjusted pixel, with the pixel's own rand() draw. |
| `ImageAdjust.ColourStages` | app/imgcraft/src/main/cpp/image-adjust.cpp:89-223 | The gated stages run in source order, each only when its gate is open. |
| `ImageAdjust.AdjustAll` | app/imgcraft/src/main/cpp/image-adjust.cpp:82-227 | Each index i < width * height is visited once, in order, at (i % width, i / width), and replaced by its adjusted pixel. |
| `ImageAdjust.CopyPixels` | app/imgcraft/src/main/cpp/image-adjust.cpp:57 | `memcpy` of the whole buffer makes the destination equal to the source. |
| `ImageAdjust.SharpenInPlace` | app/imgcraft/src/main/cpp/image-adjust.cpp:72-79 | Sharpening into a temporary buffer and copying it back leaves the sharpened image in place. |
| `ImageAdjust.Kernel` | app/imgcraft/src/main/cpp/image-adjust.cpp:55-227 | Between lock and unlock, the output becomes the processed source: copied, sharpened when the gate is open, then run through the loop. |
| `ImageAdjust.ProcessImage` | app/imgcraft/src/main/cpp/image-adjust.cpp:33-232 | On every path both bitmaps end unlocked and the source pixels are untouched. An info failure locks nothing. Each lock obtained is counted once. A destination-lock failure unlocks the source. The output is rewritten, with the processed source, exactly when info and both locks succeed. |
| `Tools.NewTools` | app/src/main/java/com/example/imgcraft/sample/util/Helper.kt:15-26 | The table builds ten fresh, distinct tools in order. Each has its name and default, rests at its default and is not selected. |
| `Tools.TableShape` | app/src/main/java/com/example/imgcraft/sample/util/Helper.kt:16-25 | There are ten pairwise distinct names. The first seven defaults are CENTER = 50 and the last three are ZERO = 0. |
| `Tools.ParamOf` | app/src/main/java/com/example/imgcraft/sample/MainActivity.kt:156-166 | The slider listener's `when (tool.name)` picks a setter exactly for the ten table names. |
| `Tools.SliderValue` | app/src/main/java/com/example/imgcraft/sample/MainActivity.kt:157-166 | Signed adjustments get `(progress - 50) / 50`. Grain, sharpness and vignette get `progress / 100`. |
| `Tools.RowParam` | app/src/main/java/com/example/imgcraft/sample/MainActivity.kt:156-166 | Row i's name selects the setter of the i-th parameter. |
| `Tools.ParamOrder` | app/src/main/java/com/example/imgcraft/sample/util/Helper.kt:16-25 | The table's parameters list every engine parameter exactly once. |
| `Tools.ToolsCoverParams` | app/src/main/java/com/example/imgcraft/sample/util/Helper.kt:15-26 | Every row drives a different parameter and every parameter has its row. |
| `Tools.DefaultsAreNeutral` | app/src/main/java/com/example/imgcraft/sample/util/Helper.kt:16-25 | A tool resting at its default drives its parameter to 0, the value `reset` restores. |
| `Tools.SliderInRange` | app/src/main/java/com/example/imgcraft/sample/MainActivity.kt:157-166 | Every slider position 0..100 gives a value inside the setter's range, so `coerceIn` keeps it. |
| `Tools.AdjustmentTool.constructor` | app/src/main/java/com/example/imgcraft/sample/adapter/AdjustmentTool.kt:8-13 | A new tool has the given name, progress and default, and is not selected. |
| `Adapter.SelectionCount` | app/src/main/java/com/example/imgcraft/sample/adapter/AdjustmentAdapter.kt:47-50 | After `selectItem(p)` exactly one tool is selected when p is a position of the list, and none otherwise. |
| `Adapter.CountSelected` | app/src/main/java/com/example/imgcraft/sample/adapter/AdjustmentAdapter.kt:47-50 | Only a counting helper: the number of set flags is at most the list length. What it is used for, exactly one selected tool, is `Adapter.SelectionCount`. |
| `Adapter.AdjustmentAdapter.ItemCount` | app/src/main/java/com/example/imgcraft/sample/adapter/AdjustmentAdapter.kt:45 | `getItemCount` is the list size. `OnClick` accepts exactly the positions below it. |
| `Adapter.AdjustmentAdapter.Flags` | app/src/main/java/com/example/imgcraft/sample/adapter/AdjustmentAdapter.kt:36 | The selection flags the rows are coloured by, in list order. |
| `Adapter.AdjustmentAdapter.SelectItem` | app/src/main/java/com/example/imgcraft/sample/adapter/AdjustmentAdapter.kt:47-52 | Tool i ends selected exactly when i == position, and progress values are unchanged. Names, defaults, length and order are fixed by construction. A repeated call changes nothing. |
| `Adapter.AdjustmentAdapter.OnClick` | app/src/main/java/com/example/imgcraft/sample/adapter/AdjustmentAdapter.kt:39-42 | A click first runs `selectItem(position)`, then passes that row's tool to the callback. The tool is already selected, and it is the only one selected. |
| `Adapter.ClickOnTable` | app/src/main/java/com/example/imgcraft/sample/MainActivity.kt:72 | The list built from the `tools` table meets the adapter's precondition. A click at any of its ten positions selects that row's tool. |

## Left out

- Threads and time: the render thread, the main looper, coroutines, the
  16 ms delay and `quitSafely` are replaced by interleaved atomic events.
  - `Fire` may occur whenever a callback is queued, even while a render is
    still running. This covers more interleavings than the serial render
    thread allows.
  - The non-volatile `isReleased` is treated as if every thread saw each
    write at once.
  - `scheduleRender` is one atomic step. In the code, a setter's call on
    the UI thread can interleave with the call from `render()`'s `finally`
    block between `removeCallbacksAndMessages` and `postDelayed`. Both then
    post, and two callbacks are queued. The second one causes a redundant
    render, not a lost one, but `Scheduler.StepInv`'s "at most one callback
    is queued" holds only for the atomic step.
- Torn reads: the render thread reads the ten fields one at a time while a
  setter may be running. The model reads the whole config at once at the
  kernel call.
- The asynchronous decode and allocation in `init`, calls made before it
  finishes (the `lateinit` bitmaps are not set yet), and `renderFinal`, the
  full-resolution export. `Engine.ImageCraft.constructor` starts in the state
  that `init` reaches.
- Engine.ImageCraft.FinishRender: the kernel result is a value
  (`Rendered(config)`), not pixels. The native kernel is modelled
  separately by `ImageAdjust.ProcessImage`. How the call ends is the free
  parameter `outcome`: `Written` when the info and both locks are
  obtained, `Unwritten` when `processImage` returns early, `Threw` when a
  Java exception escapes the call or `drawBitmap` (for instance on a
  recycled bitmap after `release`). A `drawBitmap` that throws after the
  kernel wrote the front buffer is modelled as `Threw` with the front
  buffer's old contents.
- Engine.ImageCraft.FinishRender: `drawBitmap` with a null paint blends
  the front buffer over the display with SRC_OVER. The model covers the two
  ends: a fully transparent (still blank) buffer leaves the display as it
  was, and any other frame replaces it. That is exact for opaque results.
  The composition of partly translucent pixels over the previous display is
  not modelled.
- Float arithmetic: the colour-stage bodies (`powf`, `sqrtf`, HSV
  conversion, the contrast curve, the highlight and shadow masks) are
  functions supplied as parameters over reals. The model has no IEEE
  rounding and no NaN. `coerceIn` on NaN is not modelled.
- The sharpening product `(int)((orig - blur) * amount)` is the parameter
  `scaled`, so `amount * 3` is not computed in floats. Likewise the gate
  constant `0.001f` is read as the exact real 0.001.
- `rand()`: the grain stage gets the i-th draw as `rand(i)`. Its
  statistical behaviour is not modelled.
- Memory layout: `memcpy` of `height * stride` bytes is taken as a copy of
  `width * height` words. The row stride is assumed to be `width * 4`, and
  the output bitmap is required to have as many pixels as the source. The
  engine always passes a work bitmap of the preview's size.
- `new uint32_t[size]` is taken never to return null, so the `if (temp)`
  test is always true, and the buffer's contents before the write are
  irrelevant. `delete[]` is not modelled.
- `AndroidBitmap_getInfo` and `AndroidBitmap_lockPixels` are boolean
  parameters. The JNI environment, logging, and `NativeImageProcessor`
  forwarding arguments are not modelled.
- C integer behaviour: `0xFF << 24` and `a << 24` are read as the unsigned
  words they are meant to be. Channel sums stay far below `int` range, so
  overflow cannot occur. `width * height` overflow on huge images is not
  modelled.
- Adapter.AdjustmentAdapter.SelectItem: requires the tools in the list
  to be distinct objects. With the same tool at two positions the later
  write would win. The `tools` table satisfies the requirement
  (`Tools.NewTools`).
- View binding, `notifyDataSetChanged`, the row colours and the rest of the
  sample UI are not modelled. MainActivity.kt, MainActivity2.kt and
  ImageEditorScreen.kt are not part of this model, except that the slider
  mapping (`Tools.ParamOf`, `Tools.SliderValue`) is taken from
  MainActivity.kt to state what the table's defaults mean.
- Bitmap recycling is a flag. Drawing into, or handing out, a recycled
  bitmap is not checked.
