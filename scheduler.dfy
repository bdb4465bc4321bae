/**
  The render scheduler of `ImageCraft` as a state machine over values.

  The engine's threads (UI thread, render `HandlerThread`, main-thread
  delivery) are modelled as interleaved atomic events on one state:
    - `Set`/`Reset`: a UI call, which writes the configuration and then runs
      `scheduleRender`;
    - `Fire`: the queued render callback runs `render()` up to and including
      the kernel call (the configuration is read at that point);
    - `Finish(o)`: the kernel call ends with outcome `o`, followed by the
      rest of the `try` block and the `finally` block;
    - `Deliver`: a posted main-thread runnable runs;
    - `Release`, `ShowBefore`, `ShowAfter`: the other UI calls.
  Time is not modelled: the 16 ms delay only means "a callback is queued".
  `Fire` is allowed whenever a callback is queued, even while a render is
  still running, which covers more interleavings than the serial render
  thread allows; every property below holds for all of them.
 */
module Scheduler {
  import opened Config

  datatype Option<T> = None | Some(value: T)

  /** What a bitmap shows: the fully transparent contents of a new bitmap,
      the untouched preview, or a kernel result for one configuration. */
  datatype Frame = Blank | Original | Rendered(cfg: AdjustmentConfig)

  /** How a kernel call ends. `processImage` never throws: when the bitmap
      info or one of the two locks is refused it logs and returns without
      writing the output, and `render()` carries on as after a success. */
  datatype Outcome =
    | Written     // info and both locks obtained: the output holds the result
    | Unwritten   // an early return: the output keeps what it held
    | Threw       // the call or the drawing threw; `catch` only logs

  datatype State = State(
    config: AdjustmentConfig,             // `config`
    released: bool,                       // `isReleased`
    processing: bool,                     // `isProcessing`
    pending: int,                         // `pendingRenderCount`
    renderQueue: nat,                     // render callbacks queued on `renderHandler`
    deliveries: nat,                      // runnables posted to `mainHandler`
    snapshot: Option<AdjustmentConfig>,   // configuration passed to the latest kernel call
    display: Frame,                       // contents of `displayBitmap`
    front: Frame,                         // contents of `frontWorkBitmap`
    back: Frame,                          // contents of `backWorkBitmap`
    frontIsFirst: bool)                   // `frontWorkBitmap === workBitmap1`

  /** The state right after initialisation has drawn the preview into the
      display bitmap; the two work bitmaps are still blank. */
  const Initial := State(Zero, false, false, 0, 0, 0, None, Original, Blank, Blank, true)

  datatype Event =
    | Set(p: Param, v: real)
    | Reset
    | ShowBefore
    | ShowAfter
    | Fire
    | Finish(outcome: Outcome)
    | Deliver
    | Release

  /** `scheduleRender`: bump the pending count, drop every queued callback
      and queue exactly one new one; nothing once released. */
  function Schedule(s: State): (t: State)
    ensures s.released ==> t == s
    ensures !s.released ==> t.pending == s.pending + 1 && t.renderQueue == 1
  {
    if s.released then s
    // removeCallbacksAndMessages(null) empties the queue, then postDelayed
    // queues one callback
    else s.(pending := s.pending + 1, renderQueue := 1)
  }

  /** Whether event `e` can occur in state `s`: a callback must be queued to
      fire, a render must be running to finish, a runnable posted to run. */
  predicate Enabled(s: State, e: Event) {
    match e
    case Fire => s.renderQueue > 0
    case Finish(_) => s.processing && s.snapshot.Some?
    case Deliver => s.deliveries > 0
    case _ => true
  }

  /** The effect of event `e`. Only `release` sets the released flag and
      nothing clears it; only the UI calls change the configuration; only a
      callback firing on an idle, unreleased engine starts a render, and
      only the end of a render clears the busy flag or posts a delivery. */
  function Step(s: State, e: Event): (t: State)
    requires Enabled(s, e)
    ensures t.released == (s.released || e == Release)
    ensures !(e.Set? || e == Reset) ==> t.config == s.config
    ensures t.processing && !s.processing ==> Starts(s, e)
    ensures e.Finish? ==> !t.processing
    ensures s.processing && !t.processing ==> e.Finish?
    ensures t.deliveries > s.deliveries ==> e.Finish?
  {
    match e
    case Set(p, v) => Schedule(s.(config := Clamped(s.config, p, v)))
    case Reset => Schedule(s.(config := Zero))
    case ShowBefore => s
    case ShowAfter => s
    case Fire =>
      var t := s.(renderQueue := s.renderQueue - 1);
      if t.released then t
      else if t.processing then t
      else t.(processing := true, pending := 0, snapshot := Some(t.config))
    case Finish(o) =>
      // the front buffer after the kernel call
      var f := if o == Written then Rendered(s.snapshot.value) else s.front;
      // unless something threw: draw the front buffer into the display
      // (drawing a fully transparent bitmap over it changes nothing), swap
      // the buffers and post a delivery
      var t := if o == Threw then s
               else s.(display := if f == Blank then s.display else f,
                       front := s.back, back := f,
                       frontIsFirst := !s.frontIsFirst,
                       deliveries := s.deliveries + 1);
      var u := t.(processing := false);
      if u.pending > 0 then Schedule(u) else u
    case Deliver => s.(deliveries := s.deliveries - 1)
    case Release => s.(released := true, renderQueue := 0)
  }

  /** `Fire` in `s` actually starts a kernel call. */
  predicate Starts(s: State, e: Event) {
    e == Fire && s.renderQueue > 0 && !s.released && !s.processing
  }

  /** The render state is up to date: the latest kernel call read the
      current configuration (or nothing has been set since start-up). */
  predicate Settled(s: State) {
    s.snapshot == Some(s.config) || (s.snapshot == None && s.config == Zero)
  }

  /** The invariant of the scheduler. */
  predicate Inv(s: State) {
    && s.pending >= 0
    && s.renderQueue <= 1
    && (s.renderQueue > 0 ==> s.pending > 0)
    && (s.released ==> s.renderQueue == 0)
    && (!s.released && s.pending > 0 ==> s.renderQueue > 0 || s.processing)
    && (!s.released && s.pending == 0 ==> Settled(s))
    && (s.processing ==> s.snapshot.Some?)
    && InRange(s.config)
  }

  lemma InitialInv()
    ensures Inv(Initial)
  {
    ZeroFields();
  }

  /** Every event keeps the invariant. */
  lemma StepInv(s: State, e: Event)
    requires Inv(s) && Enabled(s, e)
    ensures Inv(Step(s, e))
  {
  }

  /** A setter stores its argument clamped into the field's range, leaves the
      other nine fields alone and, unless released, queues exactly one render
      and raises the pending count. */
  lemma SetEffect(s: State, p: Param, v: real)
    requires Inv(s)
    ensures var t := Step(s, Set(p, v));
      && Get(t.config, p) == CoerceIn(v, Lower(p), Upper(p))
      && (forall q :: q != p ==> Get(t.config, q) == Get(s.config, q))
      && (!s.released ==> t.renderQueue == 1 && t.pending == s.pending + 1)
      && (s.released ==> t.renderQueue == 0 && t.pending == s.pending)
  {
  }

  /** `reset` zeroes all ten fields and schedules a render. */
  lemma ResetEffect(s: State)
    requires Inv(s)
    ensures var t := Step(s, Reset);
      && (forall p :: Get(t.config, p) == 0.0)
      && (!s.released ==> t.renderQueue == 1 && t.pending >= 1)
  {
    ZeroFields();
  }

  /** A render that starts clears the pending count and reads the current
      configuration; a `Fire` that finds a render running or the engine
      released starts nothing and only consumes the callback. */
  lemma FireEffect(s: State)
    requires Inv(s) && Enabled(s, Fire)
    ensures var t := Step(s, Fire);
      && t.renderQueue == 0
      && (Starts(s, Fire) ==> t.processing && t.pending == 0 && t.snapshot == Some(s.config))
      && (!Starts(s, Fire) ==> t.processing == s.processing && t.pending == s.pending && t.snapshot == s.snapshot)
  {
  }

  /** Mutual exclusion: no event starts a second kernel call while one runs. */
  lemma NoOverlappingRenders(s: State, e: Event)
    requires Inv(s) && Enabled(s, e) && s.processing
    ensures !Starts(s, e)
    ensures !e.Finish? ==> Step(s, e).processing
  {
  }

  /** A finished render clears the busy flag. Unless something threw, the
      front buffer is drawn into the display, the two work buffers trade
      places and one delivery is posted: after a write the display shows the
      configuration the render read; after an early return it shows the
      stale front buffer, or keeps what it showed when that buffer is still
      blank. After a throw none of this happens. Either way a
      render is queued again exactly when requests are pending. */
  lemma FinishEffect(s: State, o: Outcome)
    requires Inv(s) && Enabled(s, Finish(o))
    ensures var t := Step(s, Finish(o));
      && !t.processing
      && (o == Written ==> t.display == Rendered(s.snapshot.value))
      && (o == Written ==> t.back == t.display)
      && (o == Unwritten ==> && t.display == (if s.front == Blank then s.display else s.front)
                             && t.back == s.front)
      && (o != Threw ==> && t.front == s.back
                         && t.frontIsFirst == !s.frontIsFirst
                         && t.deliveries == s.deliveries + 1)
      && (o == Threw ==> && t.display == s.display && t.front == s.front && t.back == s.back
                         && t.frontIsFirst == s.frontIsFirst && t.deliveries == s.deliveries)
      && (!s.released ==> (t.renderQueue == 1 <==> s.pending > 0))
  {
  }

  /** A setter on an idle engine followed by the render it triggers,
      whose kernel call ends with `o`. */
  function SetAndRender(s: State, p: Param, v: real, o: Outcome): (t: State)
    requires !s.released && !s.processing
    ensures !t.released && !t.processing && t.config == Clamped(s.config, p, v)
  {
    var a := Step(s, Set(p, v));
    Step(Step(a, Fire), Finish(o))
  }

  /** A render whose kernel returns early still presents the front buffer,
      which holds the result of the render before the previous one: a
      failed first render leaves the preview showing, a failed second
      render leaves the first render's result showing, and a failed third
      render shows the first render's result again, over the second's. */
  lemma StaleFrames(p: Param, v1: real, v2: real, v3: real)
    ensures SetAndRender(Initial, p, v1, Unwritten).display == Original
    ensures var b := SetAndRender(Initial, p, v1, Written);
      var c := SetAndRender(b, p, v2, Written);
      && b.display == Rendered(b.config)
      && SetAndRender(b, p, v2, Unwritten).display == b.display
      && c.display == Rendered(c.config)
      && SetAndRender(c, p, v3, Unwritten).display == b.display
  {
  }

  /** After `release` nothing is queued, and no later event clears the flag,
      queues a render, starts one, or changes the pending count. */
  lemma ReleasedIsFinal(s: State, e: Event)
    requires Inv(s) && s.released && Enabled(s, e)
    ensures var t := Step(s, e);
      && t.released && t.renderQueue == 0 && t.pending == s.pending
      && !Starts(s, e) && t.snapshot == s.snapshot
  {
  }

  lemma ReleaseIdempotent(s: State)
    ensures Step(Step(s, Release), Release) == Step(s, Release)
    ensures Step(s, Release).released && Step(s, Release).renderQueue == 0
  {
  }

  // ---------------------------------------------------------------------
  // What happens once the UI stops calling: only the engine's own events.

  predicate Internal(e: Event) {
    e == Fire || e.Finish? || e == Deliver
  }

  /** No internal event can occur: nothing queued, running or posted. */
  predicate Quiescent(s: State) {
    s.renderQueue == 0 && !s.processing && s.deliveries == 0
  }

  /** `t` is a sequence of internal events, each enabled when it occurs. */
  predicate InternalRun(s: State, t: seq<Event>)
    decreases |t|
  {
    t == [] || (Internal(t[0]) && Enabled(s, t[0]) && InternalRun(Step(s, t[0]), t[1..]))
  }

  function Final(s: State, t: seq<Event>): State
    requires InternalRun(s, t)
    decreases |t|
  {
    if t == [] then s else Final(Step(s, t[0]), t[1..])
  }

  /** Number of kernel calls started along `t`. */
  function StartCount(s: State, t: seq<Event>): nat
    requires InternalRun(s, t)
    decreases |t|
  {
    if t == [] then 0
    else (if Starts(s, t[0]) then 1 else 0) + StartCount(Step(s, t[0]), t[1..])
  }

  /** An upper bound on the internal events still possible. */
  function Potential(s: State): nat {
    var p := if s.processing then (if s.pending > 0 then 3 else 1) + s.renderQueue
             else 2 * s.renderQueue;
    2 * p + s.deliveries
  }

  /** An upper bound on the kernel calls still possible without UI calls. */
  function StartsLeft(s: State): nat {
    if s.processing then (if s.pending > 0 then 1 else 0)
    else (if s.renderQueue > 0 then 1 else 0)
  }

  lemma InternalStepDecreases(s: State, e: Event)
    requires Inv(s) && Internal(e) && Enabled(s, e)
    ensures Potential(Step(s, e)) < Potential(s)
    ensures StartsLeft(Step(s, e)) + (if Starts(s, e) then 1 else 0) <= StartsLeft(s)
  {
  }

  lemma QuiescentIffNoPotential(s: State)
    requires Inv(s)
    ensures Quiescent(s) <==> Potential(s) == 0
    ensures !Quiescent(s) ==> exists e :: Internal(e) && Enabled(s, e)
  {
    if !Quiescent(s) {
      if s.renderQueue > 0 {
        assert Internal(Fire) && Enabled(s, Fire);
      } else if s.deliveries > 0 {
        assert Internal(Deliver) && Enabled(s, Deliver);
      } else {
        assert Internal(Finish(Threw)) && Enabled(s, Finish(Threw));
      }
    }
  }

  /** The retry chain ends: without UI calls at most Potential(s) events can
      happen, and at most one of them starts a kernel call. */
  lemma {:induction false} ChainEnds(s: State, t: seq<Event>)
    requires Inv(s) && InternalRun(s, t)
    ensures |t| <= Potential(s)
    ensures StartCount(s, t) <= StartsLeft(s) <= 1
    ensures Inv(Final(s, t))
    ensures Final(s, t).config == s.config && Final(s, t).released == s.released
    ensures s.snapshot.Some? ==> Final(s, t).snapshot.Some?
    decreases |t|
  {
    if t != [] {
      var s' := Step(s, t[0]);
      StepInv(s, t[0]);
      InternalStepDecreases(s, t[0]);
      ChainEnds(s', t[1..]);
    }
  }

  /** While the engine is not released, a quiescent state is settled: the
      latest kernel call read the configuration the UI last wrote. */
  lemma QuiescentIsSettled(s: State)
    requires Inv(s) && !s.released && Quiescent(s)
    ensures s.pending == 0 && Settled(s)
  {
  }

  /** Coalescing: after any burst of UI calls that left a render owed, every
      run of the engine's own events that comes to rest has started exactly
      one kernel call, and that call read the configuration as the UI left it. */
  lemma {:induction false} Coalescing(s: State, t: seq<Event>)
    requires Inv(s) && !s.released && s.pending > 0
    requires InternalRun(s, t) && Quiescent(Final(s, t))
    ensures StartCount(s, t) == 1
    ensures Final(s, t).snapshot == Some(s.config)
    decreases |t|
  {
    ChainEnds(s, t);
    if t == [] {
      assert false;
    } else {
      var s' := Step(s, t[0]);
      StepInv(s, t[0]);
      if Starts(s, t[0]) {
        ChainEnds(s', t[1..]);
        QuiescentIsSettled(Final(s', t[1..]));
      } else {
        Coalescing(s', t[1..]);
      }
    }
  }

  /** A setter followed by the engine's own events: one render, with the
      value just set. */
  lemma SetThenSettle(s: State, p: Param, v: real, t: seq<Event>)
    requires Inv(s) && !s.released
    requires InternalRun(Step(s, Set(p, v)), t) && Quiescent(Final(Step(s, Set(p, v)), t))
    ensures StartCount(Step(s, Set(p, v)), t) == 1
    ensures Final(Step(s, Set(p, v)), t).snapshot.Some?
    ensures Get(Final(Step(s, Set(p, v)), t).snapshot.value, p) == CoerceIn(v, Lower(p), Upper(p))
  {
    StepInv(s, Set(p, v));
    Coalescing(Step(s, Set(p, v)), t);
  }
}
