/**
  `ImageCraft`, the preview engine, as a class whose fields are the
  Kotlin fields. Each method is one atomic event of the scheduler (see
  module Scheduler) and is proved to move the abstract view `View()`
  exactly as `Scheduler.Step` does, so every lemma proved there is a
  statement about this class.

  The handler queues are counters: `renderQueue` is the number of render
  callbacks posted to `renderHandler`, `mainQueue` the number of delivery
  runnables posted to `mainHandler`. `previews` records, in order, every
  bitmap handed to the `onPreviewReady` callback.
 */
module Engine {
  import opened Config
  import opened Scheduler

  /** An Android bitmap as the engine sees it: what it currently shows and
      whether `recycle()` was called on it. */
  class Bitmap {
    var frame: Frame
    var recycled: bool

    constructor (f: Frame)
      ensures frame == f && !recycled
    {
      frame := f;
      recycled := false;
    }
  }

  class ImageCraft {
    var config: AdjustmentConfig
    var isProcessing: bool
    var pendingRenderCount: int
    var isReleased: bool
    var renderQueue: nat
    var mainQueue: nat
    /** The configuration passed to the latest `processor.process` call. */
    var kernelConfig: Option<AdjustmentConfig>

    const previewOriginal: Bitmap
    const displayBitmap: Bitmap
    const workBitmap1: Bitmap
    const workBitmap2: Bitmap
    var frontWorkBitmap: Bitmap
    var backWorkBitmap: Bitmap

    var previews: seq<Bitmap>

    function View(): State
      reads this, displayBitmap, frontWorkBitmap, backWorkBitmap
    {
      State(config, isReleased, isProcessing, pendingRenderCount, renderQueue,
            mainQueue, kernelConfig, displayBitmap.frame, frontWorkBitmap.frame,
            backWorkBitmap.frame, frontWorkBitmap == workBitmap1)
    }

    /** The object invariant: four distinct bitmaps, front and back are the
        two work bitmaps in some order, only the preview or the display
        bitmap is ever handed out, and the scheduler invariant holds. */
    ghost predicate Valid()
      reads this, displayBitmap, frontWorkBitmap, backWorkBitmap
    {
      && previewOriginal != displayBitmap && previewOriginal != workBitmap1
      && previewOriginal != workBitmap2 && displayBitmap != workBitmap1
      && displayBitmap != workBitmap2 && workBitmap1 != workBitmap2
      && ((frontWorkBitmap == workBitmap1 && backWorkBitmap == workBitmap2)
          || (frontWorkBitmap == workBitmap2 && backWorkBitmap == workBitmap1))
      && (forall i :: 0 <= i < |previews| ==> previews[i] in {previewOriginal, displayBitmap})
      && Inv(View())
    }

    /** The state reached by the main-thread part of `init`: three bitmaps of
        the preview's size, front = workBitmap1, back = workBitmap2, the
        preview drawn into the display bitmap and handed to the callback. */
    constructor ()
      ensures Valid() && View() == Initial
      ensures fresh(previewOriginal) && fresh(displayBitmap) && fresh(workBitmap1) && fresh(workBitmap2)
      ensures frontWorkBitmap == workBitmap1 && backWorkBitmap == workBitmap2
      ensures previews == [displayBitmap]
    {
      config := Zero;
      isProcessing, pendingRenderCount, isReleased := false, 0, false;
      renderQueue, mainQueue := 0, 0;
      kernelConfig := None;
      previewOriginal := new Bitmap(Original);
      displayBitmap := new Bitmap(Original);
      workBitmap1 := new Bitmap(Blank);
      workBitmap2 := new Bitmap(Blank);
      frontWorkBitmap := workBitmap1;
      backWorkBitmap := workBitmap2;
      previews := [displayBitmap];
      new;
      InitialInv();
    }

    /** `scheduleRender`. */
    method ScheduleRender()
      modifies this`pendingRenderCount, this`renderQueue
      ensures View() == Schedule(old(View()))
    {
      if isReleased {
        return;
      }
      pendingRenderCount := pendingRenderCount + 1;
      renderQueue := 0;                 // removeCallbacksAndMessages(null)
      renderQueue := renderQueue + 1;   // postDelayed({ render() }, 16)
    }

    /** `setBrightness` ... `setVignette`: `update { config.p = v.coerceIn(..) }`. */
    method Set(p: Param, v: real)
      requires Valid()
      modifies this`config, this`pendingRenderCount, this`renderQueue
      ensures Valid()
      ensures View() == Step(old(View()), Event.Set(p, v))
      ensures Get(config, p) == CoerceIn(v, Lower(p), Upper(p))
      ensures forall q :: q != p ==> Get(config, q) == Get(old(config), q)
    {
      ghost var s := View();
      config := With(config, p, CoerceIn(v, Lower(p), Upper(p)));
      ScheduleRender();
      StepInv(s, Event.Set(p, v));
    }

    /** `reset`: all ten fields to 0, then `scheduleRender`. */
    method Reset()
      requires Valid()
      modifies this`config, this`pendingRenderCount, this`renderQueue
      ensures Valid()
      ensures View() == Step(old(View()), Event.Reset)
      ensures forall p :: Get(config, p) == 0.0
    {
      ghost var s := View();
      config := config.(brightness := 0.0, contrast := 0.0, exposure := 0.0,
                        hue := 0.0, saturation := 0.0, highlight := 0.0,
                        shadows := 0.0, grain := 0.0, sharpness := 0.0,
                        vignette := 0.0);
      ScheduleRender();
      StepInv(s, Event.Reset);
      ZeroFields();
    }

    /** `showBefore`: hand out the unadjusted preview unless released. */
    method ShowBefore()
      requires Valid()
      modifies this`previews
      ensures Valid()
      ensures previews == if isReleased then old(previews) else old(previews) + [previewOriginal]
    {
      if isReleased {
        return;
      }
      previews := previews + [previewOriginal];
    }

    /** `showAfter`: hand out the display bitmap unless released. */
    method ShowAfter()
      requires Valid()
      modifies this`previews
      ensures Valid()
      ensures previews == if isReleased then old(previews) else old(previews) + [displayBitmap]
    {
      if isReleased {
        return;
      }
      previews := previews + [displayBitmap];
    }

    /** The render thread runs the queued callback: `render()` up to the
        kernel call, which receives the configuration as it is now. */
    method Render()
      requires Valid() && renderQueue > 0
      modifies this`renderQueue, this`isProcessing, this`pendingRenderCount, this`kernelConfig
      ensures Valid()
      ensures View() == Step(old(View()), Event.Fire)
    {
      ghost var s := View();
      renderQueue := renderQueue - 1;
      if isReleased {
        return;
      }
      if isProcessing {                 // compareAndSet(false, true) failed
        return;
      }
      isProcessing := true;
      pendingRenderCount := 0;
      kernelConfig := Some(config);     // processor.process(previewOriginal, frontWorkBitmap, config...)
      StepInv(s, Event.Fire);
    }

    /** The rest of the `try` block after the kernel call: draw the front
        buffer into the display bitmap (a still blank, fully transparent
        buffer leaves it as it was), swap front and back, post a delivery. */
    method Present()
      requires displayBitmap != frontWorkBitmap
      modifies this`frontWorkBitmap, this`backWorkBitmap, this`mainQueue, displayBitmap`frame
      ensures displayBitmap.frame == if old(frontWorkBitmap.frame) == Blank then old(displayBitmap.frame)
                                     else old(frontWorkBitmap.frame)
      ensures frontWorkBitmap == old(backWorkBitmap) && backWorkBitmap == old(frontWorkBitmap)
      ensures mainQueue == old(mainQueue) + 1
    {
      if frontWorkBitmap.frame != Blank {                  // displayCanvas.drawBitmap
        displayBitmap.frame := frontWorkBitmap.frame;
      }
      frontWorkBitmap, backWorkBitmap := backWorkBitmap, frontWorkBitmap;
      mainQueue := mainQueue + 1;                          // mainHandler.post { ... }
    }

    /** The kernel call ends with `outcome`; then the rest of the `try`
        block and `finally`. Unless something threw, the front buffer (the
        kernel's result, or what it held before when the kernel returned
        early) is drawn into the display bitmap, which a still blank,
        fully transparent buffer leaves as it was; front and back are swapped
        and a delivery is posted. Only the two bitmaps' contents may change;
        whether they were recycled does not. */
    method FinishRender(outcome: Outcome)
      requires Valid() && isProcessing
      modifies this, frontWorkBitmap`frame, displayBitmap`frame
      ensures Valid()
      ensures View() == Step(old(View()), Event.Finish(outcome))
      ensures outcome == Written ==> old(frontWorkBitmap).frame == Rendered(old(kernelConfig).value)
      ensures outcome == Unwritten ==> old(frontWorkBitmap).frame == old(frontWorkBitmap.frame)
      ensures outcome != Threw ==> && displayBitmap.frame == (if old(frontWorkBitmap).frame == Blank
                                                              then old(displayBitmap.frame)
                                                              else old(frontWorkBitmap).frame)
                                   && frontWorkBitmap == old(backWorkBitmap)
                                   && backWorkBitmap == old(frontWorkBitmap)
      ensures outcome == Threw ==> frontWorkBitmap == old(frontWorkBitmap) && backWorkBitmap == old(backWorkBitmap)
                                   && unchanged(old(frontWorkBitmap)) && unchanged(displayBitmap)
      ensures previews == old(previews) && unchanged(previewOriginal)
      ensures config == old(config) && isReleased == old(isReleased)
    {
      ghost var s := View();
      if outcome != Threw {
        if outcome == Written {
          frontWorkBitmap.frame := Rendered(kernelConfig.value);   // processImage writes the result
        }
        Present();
      }
      isProcessing := false;
      if pendingRenderCount > 0 {
        ScheduleRender();
      }
      StepInv(s, Event.Finish(outcome));
    }

    /** The posted runnable runs on the main thread. */
    method Deliver()
      requires Valid() && mainQueue > 0
      modifies this`mainQueue, this`previews
      ensures Valid()
      ensures View() == Step(old(View()), Event.Deliver)
      ensures previews == if isReleased then old(previews) else old(previews) + [displayBitmap]
    {
      mainQueue := mainQueue - 1;
      if !isReleased {
        previews := previews + [displayBitmap];
      }
    }

    /** `release`: set the flag, drop queued render callbacks and recycle the
        display and work bitmaps. Safe to call again. */
    method Release()
      requires Valid()
      modifies this`isReleased, this`renderQueue, displayBitmap`recycled, workBitmap1`recycled, workBitmap2`recycled
      ensures Valid()
      ensures View() == Step(old(View()), Event.Release)
      ensures displayBitmap.recycled && workBitmap1.recycled && workBitmap2.recycled
      ensures displayBitmap.frame == old(displayBitmap.frame)
      ensures workBitmap1.frame == old(workBitmap1.frame) && workBitmap2.frame == old(workBitmap2.frame)
      ensures unchanged(previewOriginal)
    {
      ghost var s := View();
      isReleased := true;
      renderQueue := 0;                 // renderHandler.removeCallbacksAndMessages(null)
      if !displayBitmap.recycled {
        displayBitmap.recycled := true;
      }
      if !workBitmap1.recycled {
        workBitmap1.recycled := true;
      }
      if !workBitmap2.recycled {
        workBitmap2.recycled := true;
      }
      StepInv(s, Event.Release);
    }
  }
}
