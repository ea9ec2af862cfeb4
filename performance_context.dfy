/**
 * The performance provider: a frame-rate monitor that counts animation
 * frames, takes one FPS sample per second into a ten-entry history, and
 * consults the optimizer's `adaptQuality` when the "below 30 FPS on
 * average" flag flips; a memory-pressure check; and the page-visibility
 * handler. The host's frame scheduler is modelled explicitly: the
 * callbacks waiting for the next animation frame, in request order, and
 * whether the one the provider's frame reference names is still waiting
 * (cancelling the reference cancels only that one).
 */
module PerformanceContext {
  import opened Wrappers
  import opened PerformanceUtils
  import opened FpsHistory

  /** The FPS history keeps at most this many samples. */
  const HistoryCap: nat := 10
  /** Below this average the page counts as low-performance. */
  const LowFpsBound: int := 30
  /** The frame rate the memory-pressure check hands to `adaptQuality`. */
  const MemoryPressureFps: real := 20.0
  /** `currentFPS` before the first sample. */
  const InitialFps: int := 60

  /** The animation-frame callbacks the provider requests: the measuring
      loop, and the one-shot reset the visibility handler schedules. */
  datatype Callback = Measure | ResetReference

  /** Everything the provider keeps: the shared optimizer's mode, its React
      state, its refs, and the frames it has requested. */
  datatype ProviderState = ProviderState(
    mode: Mode,
    animationSettings: AnimationSettings,
    settings3D: Settings3D,
    currentFps: int,
    isLowPerformance: bool,
    frameCount: nat,
    lastTime: int,
    history: seq<int>,
    pending: seq<Callback>,
    refPending: bool)

  /** The history is within its cap, the published settings are those of the
      optimizer's current mode, and a live frame reference names a waiting callback. */
  predicate ValidState(s: ProviderState)
  {
    && |s.history| <= HistoryCap
    && s.animationSettings == AnimationSettingsFor(s.mode)
    && s.settings3D == Settings3DFor(s.mode)
    && (s.refPending ==> s.pending != [])
  }

  // ---------------------------------------------------------------------
  // Transitions
  // ---------------------------------------------------------------------

  /** Mounting: settings read from the optimizer, 60 FPS shown, an empty
      history, and the measuring loop requested. */
  function Mount(mode: Mode, now: int): (s: ProviderState)
    ensures ValidState(s)
  {
    ProviderState(mode, AnimationSettingsFor(mode), Settings3DFor(mode), InitialFps, false,
                  0, now, [], [Measure], true)
  }

  /** `animationFrameRef.current = requestAnimationFrame(cb)`. */
  function Request(s: ProviderState, cb: Callback): ProviderState
  {
    s.(pending := s.pending + [cb], refPending := true)
  }

  /** `cancelAnimationFrame(animationFrameRef.current)`: only the most recently
      requested callback can be cancelled, and only while it still waits. */
  function Cancel(s: ProviderState): ProviderState
  {
    if s.refPending && s.pending != [] then
      s.(pending := s.pending[..|s.pending| - 1], refPending := false)
    else s
  }

  /** The monitoring effect re-running after `isLowPerformance` changed:
      its cleanup cancels the reference, then it requests the loop again. */
  function RestartMeasuring(s: ProviderState): ProviderState
  {
    Request(Cancel(s), Measure)
  }

  /** Calling `adaptQuality(fps)` and publishing its settings when it returns any. */
  function ApplyAdapt(s: ProviderState, fps: real): ProviderState
  {
    var a := Adapt(s.mode, fps);
    if a.settings.Some? then
      s.(mode := a.mode, animationSettings := a.settings.value, settings3D := Settings3DFor(a.mode))
    else s
  }

  /** The sampling half of `measureFPS`, on a state whose frame counter
      already includes the current frame: the sample, the bounded history,
      the low-performance flag and, when the flag flips, the adaptation. */
  function SampleStep(s: ProviderState, now: int): ProviderState
    requires now - s.lastTime >= SampleWindowMs
  {
    var fps := FpsSample(s.frameCount, now - s.lastTime);
    var h := Push(s.history, fps, HistoryCap);
    var nowLow := AverageBelow(h, LowFpsBound);
    var sampled := s.(currentFps := fps, history := h);
    var adapted :=
      if nowLow != s.isLowPerformance then ApplyAdapt(sampled.(isLowPerformance := nowLow), Mean(h))
      else sampled;
    adapted.(frameCount := 0, lastTime := now)
  }

  /** One run of `measureFPS` at time `now`: count the frame, sample once a
      second has passed, and request the next frame. */
  function MeasureStep(s: ProviderState, now: int): ProviderState
  {
    Request(CountFrame(s, now), Measure)
  }

  /** The body of `measureFPS` before it requests the next frame: count the
      frame, and sample once a second has passed. */
  function CountFrame(s: ProviderState, now: int): ProviderState
  {
    var counted := s.(frameCount := s.frameCount + 1);
    if now - s.lastTime >= SampleWindowMs then SampleStep(counted, now) else counted
  }

  /** The one-shot callback the visibility handler schedules on show. */
  function ResetStep(s: ProviderState, now: int): ProviderState
  {
    s.(lastTime := now, frameCount := 0)
  }

  function RunCallback(s: ProviderState, cb: Callback, now: int): ProviderState
  {
    match cb
    case Measure => MeasureStep(s, now)
    case ResetReference => ResetStep(s, now)
  }

  /** Running a batch of callbacks in request order. */
  function RunBatch(s: ProviderState, batch: seq<Callback>, now: int): ProviderState
    decreases |batch|
  {
    if batch == [] then s
    else RunCallback(RunBatch(s, batch[..|batch| - 1], now), batch[|batch| - 1], now)
  }

  /** An animation frame at time `now`: every waiting callback runs, callbacks
      requested meanwhile wait for the next frame, and if the low-performance
      flag ended up changed the monitoring effect re-runs. */
  function RunFrame(s: ProviderState, now: int): ProviderState
  {
    var after := RunBatch(s.(pending := [], refPending := false), s.pending, now);
    if after.isLowPerformance != s.isLowPerformance then RestartMeasuring(after) else after
  }

  /** The page became hidden: the referenced frame is cancelled. */
  function Hide(s: ProviderState): ProviderState
  {
    Cancel(s)
  }

  /** The page became visible: one reset callback is requested; the
      measuring loop is not requested again. */
  function Show(s: ProviderState): ProviderState
  {
    Request(s, ResetReference)
  }

  /** The five-second memory check, given the heap's used size and limit:
      `used / limit > 0.8`, decided by cross-multiplication. */
  function MemoryCheck(s: ProviderState, used: nat, limit: nat): ProviderState
  {
    if used * 5 > limit * 4 && !s.isLowPerformance then
      RestartMeasuring(ApplyAdapt(s.(isLowPerformance := true), MemoryPressureFps))
    else s
  }

  /** What the host can do to a mounted provider. */
  datatype Event = Frame(now: int) | PageHidden | PageVisible | MemorySample(used: nat, limit: nat)

  function Step(s: ProviderState, e: Event): ProviderState
  {
    match e
    case Frame(now) => RunFrame(s, now)
    case PageHidden => Hide(s)
    case PageVisible => Show(s)
    case MemorySample(used, limit) => MemoryCheck(s, used, limit)
  }

  function Run(s: ProviderState, events: seq<Event>): ProviderState
    decreases |events|
  {
    if events == [] then s else Step(Run(s, events[..|events| - 1]), events[|events| - 1])
  }

  // ---------------------------------------------------------------------
  // Properties
  // ---------------------------------------------------------------------

  /** Adapting keeps the published settings those of the mode and never raises it. */
  lemma ApplyAdaptKeepsInvariant(s: ProviderState, fps: real)
    requires ValidState(s)
    ensures ValidState(ApplyAdapt(s, fps))
    ensures Rank(ApplyAdapt(s, fps).mode) <= Rank(s.mode)
  {
    AdaptNeverRaises(s.mode, fps);
  }

  /** Requesting a frame keeps the invariant and the mode. */
  lemma RequestKeepsInvariant(s: ProviderState, cb: Callback)
    requires ValidState(s)
    ensures ValidState(Request(s, cb)) && Request(s, cb).mode == s.mode
  {
  }

  lemma SampleStepKeepsInvariant(s: ProviderState, now: int)
    requires ValidState(s) && now - s.lastTime >= SampleWindowMs
    ensures ValidState(SampleStep(s, now))
    ensures Rank(SampleStep(s, now).mode) <= Rank(s.mode)
  {
    var fps := FpsSample(s.frameCount, now - s.lastTime);
    var h := Push(s.history, fps, HistoryCap);
    var nowLow := AverageBelow(h, LowFpsBound);
    var sampled := s.(currentFps := fps, history := h);
    assert ValidState(sampled) by {
      PushKeepsNewest(s.history, fps, HistoryCap);
    }
    var adapted :=
      if nowLow != s.isLowPerformance then ApplyAdapt(sampled.(isLowPerformance := nowLow), Mean(h))
      else sampled;
    assert ValidState(adapted) && Rank(adapted.mode) <= Rank(s.mode) by {
      if nowLow != s.isLowPerformance {
        ApplyAdaptKeepsInvariant(sampled.(isLowPerformance := nowLow), Mean(h));
      }
    }
    assert SampleStep(s, now) == adapted.(frameCount := 0, lastTime := now);
  }

  lemma MeasureStepKeepsInvariant(s: ProviderState, now: int)
    requires ValidState(s)
    ensures ValidState(MeasureStep(s, now))
    ensures Rank(MeasureStep(s, now).mode) <= Rank(s.mode)
  {
    CountFrameKeepsInvariant(s, now);
    RequestKeepsInvariant(CountFrame(s, now), Measure);
  }

  lemma CountFrameKeepsInvariant(s: ProviderState, now: int)
    requires ValidState(s)
    ensures ValidState(CountFrame(s, now))
    ensures Rank(CountFrame(s, now).mode) <= Rank(s.mode)
  {
    if now - s.lastTime >= SampleWindowMs {
      SampleStepKeepsInvariant(s.(frameCount := s.frameCount + 1), now);
    }
  }

  /** Running any batch of callbacks keeps the invariant and never raises the mode. */
  lemma {:induction false} RunBatchKeepsInvariant(s: ProviderState, batch: seq<Callback>, now: int)
    requires ValidState(s)
    ensures ValidState(RunBatch(s, batch, now))
    ensures Rank(RunBatch(s, batch, now).mode) <= Rank(s.mode)
    decreases |batch|
  {
    if batch != [] {
      var prefix := RunBatch(s, batch[..|batch| - 1], now);
      RunBatchKeepsInvariant(s, batch[..|batch| - 1], now);
      if batch[|batch| - 1] == Measure {
        MeasureStepKeepsInvariant(prefix, now);
      }
    }
  }

  /** Every event keeps the invariant and never raises the mode. */
  lemma StepKeepsInvariant(s: ProviderState, e: Event)
    requires ValidState(s)
    ensures ValidState(Step(s, e))
    ensures Rank(Step(s, e).mode) <= Rank(s.mode)
  {
    match e
    case Frame(now) =>
      RunBatchKeepsInvariant(s.(pending := [], refPending := false), s.pending, now);
    case PageHidden =>
    case PageVisible =>
    case MemorySample(used, limit) =>
      ApplyAdaptKeepsInvariant(s.(isLowPerformance := true), MemoryPressureFps);
  }

  /** Over any sequence of frames, visibility changes and memory checks the
      tier never rises, the history never exceeds ten samples, and the
      published settings stay those of the current tier. */
  lemma {:induction false} TierNeverRises(s: ProviderState, events: seq<Event>)
    requires ValidState(s)
    ensures ValidState(Run(s, events))
    ensures Rank(Run(s, events).mode) <= Rank(s.mode)
    decreases |events|
  {
    if events != [] {
      TierNeverRises(s, events[..|events| - 1]);
      StepKeepsInvariant(Run(s, events[..|events| - 1]), events[|events| - 1]);
    }
  }

  /** The published animation and 3D settings never move to a higher tier,
      even though the low-performance flag can flip back to false. */
  lemma {:induction false} PublishedSettingsNeverRise(s: ProviderState, events: seq<Event>)
    requires ValidState(s)
    ensures Run(s, events).animationSettings.frameRate <= s.animationSettings.frameRate
    ensures Run(s, events).animationSettings.particleCount <= s.animationSettings.particleCount
    ensures Run(s, events).settings3D.enabled ==> s.settings3D.enabled
  {
    TierNeverRises(s, events);
    var m := Run(s, events).mode;
    if Rank(m) < Rank(s.mode) {
      SettingsOrderedByTier(m, s.mode);
    } else {
      assert m == s.mode;
    }
  }

  /** A sample is taken only once a second has passed; it resets the frame
      counter and the reference time and appends the sample to the history. */
  lemma MeasureStepSampling(s: ProviderState, now: int)
    ensures now - s.lastTime < SampleWindowMs ==>
      MeasureStep(s, now).frameCount == s.frameCount + 1
      && MeasureStep(s, now).history == s.history
      && MeasureStep(s, now).mode == s.mode
    ensures now - s.lastTime >= SampleWindowMs ==>
      var fps := FpsSample(s.frameCount + 1, now - s.lastTime);
      && MeasureStep(s, now).frameCount == 0
      && MeasureStep(s, now).lastTime == now
      && MeasureStep(s, now).currentFps == fps
      && MeasureStep(s, now).history == Push(s.history, fps, HistoryCap)
    ensures MeasureStep(s, now).pending == s.pending + [Measure]
  {
  }

  /** `adaptQuality` is consulted only on a sample where the flag flips: a
      measurement that leaves the flag as it was leaves the mode as it was. */
  lemma AdaptOnlyOnFlip(s: ProviderState, now: int)
    requires MeasureStep(s, now).isLowPerformance == s.isLowPerformance
    ensures MeasureStep(s, now).mode == s.mode
    ensures MeasureStep(s, now).animationSettings == s.animationSettings
  {
  }

  /** A page that keeps averaging 30 FPS or more is never adapted, however
      far below 40 it runs: with the flag still false there is no flip. */
  lemma {:induction false} SteadyRateKeepsTier(s: ProviderState, now: int)
    requires !s.isLowPerformance
    requires forall i :: 0 <= i < |s.history| ==> s.history[i] >= LowFpsBound
    requires now - s.lastTime >= SampleWindowMs
    requires FpsSample(s.frameCount + 1, now - s.lastTime) >= LowFpsBound
    ensures MeasureStep(s, now).mode == s.mode
    ensures !MeasureStep(s, now).isLowPerformance
  {
    var h := Push(s.history, FpsSample(s.frameCount + 1, now - s.lastTime), HistoryCap);
    forall i | 0 <= i < |h|
      ensures h[i] >= LowFpsBound
    {
      var grown := s.history + [FpsSample(s.frameCount + 1, now - s.lastTime)];
      if |grown| > HistoryCap {
        assert h[i] == grown[i + 1];
      } else {
        assert h[i] == grown[i];
      }
    }
    SamplesAtLeastBound(h, LowFpsBound);
  }

  /** The memory-pressure path sets the flag and can only demote high to medium. */
  lemma MemoryPressureStopsAtMedium(s: ProviderState, used: nat, limit: nat)
    ensures MemoryCheck(s, used, limit).mode ==
      if used * 5 > limit * 4 && !s.isLowPerformance && s.mode == High then Medium else s.mode
    ensures s.mode != Low ==> MemoryCheck(s, used, limit).mode != Low
    ensures used * 5 > limit * 4 ==> MemoryCheck(s, used, limit).isLowPerformance
  {
  }

  /** Hiding cancels the measuring loop; showing schedules a single reset of
      the reference time and the counter, after which nothing is waiting:
      the measuring loop stays stopped. */
  lemma HideShowStopsLoop(s: ProviderState, t: int)
    requires s.pending == [Measure] && s.refPending
    ensures Hide(s).pending == []
    ensures RunFrame(Show(Hide(s)), t).lastTime == t
    ensures RunFrame(Show(Hide(s)), t).frameCount == 0
    ensures RunFrame(Show(Hide(s)), t).pending == []
    ensures RunFrame(Show(Hide(s)), t).history == s.history
  {
    assert Show(Hide(s)).pending == [ResetReference];
    assert [ResetReference][..0] == [];
  }

  /** The visible branch as its comment intends: reset the reference time and
      the counter, then resume the measuring loop in the same frame. */
  function ShowResuming(s: ProviderState): ProviderState
  {
    Request(Request(s, ResetReference), Measure)
  }

  /** With the loop resumed on show, a hide and a show leave the measuring
      loop running: the next frame resets the reference, counts itself and
      requests the next measurement; the invariant is kept. */
  lemma ShowResumesLoop(s: ProviderState, t: int)
    requires s.pending == [Measure] && s.refPending
    ensures RunFrame(ShowResuming(Hide(s)), t).lastTime == t
    ensures RunFrame(ShowResuming(Hide(s)), t).frameCount == 1
    ensures RunFrame(ShowResuming(Hide(s)), t).pending == [Measure]
    ensures RunFrame(ShowResuming(Hide(s)), t).history == s.history
    ensures ValidState(s) ==> ValidState(ShowResuming(s))
  {
    var shown := ShowResuming(Hide(s));
    assert shown.pending == [ResetReference, Measure];
    assert [ResetReference, Measure][..1] == [ResetReference];
    assert [ResetReference][..0] == [];
    var cleared := shown.(pending := [], refPending := false);
    assert RunBatch(cleared, [ResetReference], t) == ResetStep(cleared, t);
  }

  /** After mounting, the first frame counts one frame and waits for the next. */
  lemma FirstFrameCounts(mode: Mode, t0: int, t1: int)
    requires t1 - t0 < SampleWindowMs
    ensures RunFrame(Mount(mode, t0), t1).frameCount == 1
    ensures RunFrame(Mount(mode, t0), t1).pending == [Measure]
  {
    assert [Measure][..0] == [];
  }

  // ---------------------------------------------------------------------
  // The provider object
  // ---------------------------------------------------------------------

  /** `PerformanceProvider`: the shared optimizer, the React state it publishes,
      its refs, and the frames it has requested. */
  class PerformanceProvider {
    const optimizer: PerformanceOptimizer
    var animationSettings: AnimationSettings
    var settings3D: Settings3D
    var currentFps: int
    var isLowPerformance: bool
    var frameCount: nat
    var lastTime: int
    var fpsHistory: seq<int>
    var pending: seq<Callback>
    var refPending: bool

    function State(): ProviderState
      reads this, optimizer
    {
      ProviderState(optimizer.performanceMode, animationSettings, settings3D, currentFps,
                    isLowPerformance, frameCount, lastTime, fpsHistory, pending, refPending)
    }

    ghost predicate Valid()
      reads this, optimizer
    {
      ValidState(State())
    }

    /** Mounting at time `now`. */
    constructor (optimizer: PerformanceOptimizer, now: int)
      ensures this.optimizer == optimizer
      ensures State() == Mount(optimizer.performanceMode, now)
      ensures Valid()
    {
      this.optimizer := optimizer;
      animationSettings := optimizer.GetAnimationSettings();
      settings3D := optimizer.Get3DSettings();
      currentFps := InitialFps;
      isLowPerformance := false;
      frameCount := 0;
      lastTime := now;
      fpsHistory := [];
      pending := [Measure];
      refPending := true;
    }

    method RequestFrame(cb: Callback)
      modifies this
      ensures State() == Request(old(State()), cb)
    {
      pending := pending + [cb];
      refPending := true;
    }

    method CancelFrame()
      modifies this
      ensures State() == Cancel(old(State()))
    {
      if refPending && pending != [] {
        pending := pending[..|pending| - 1];
        refPending := false;
      }
    }

    /** Calling `adaptQuality(fps)` and publishing what it returns. */
    method AdaptTo(fps: real)
      modifies this, optimizer
      ensures State() == ApplyAdapt(old(State()), fps)
    {
      var newSettings := optimizer.AdaptQuality(fps);
      if newSettings.Some? {
        animationSettings := newSettings.value;
        settings3D := optimizer.Get3DSettings();
      }
    }

    /** The sampling half of `measureFPS`. */
    method TakeSample(now: int)
      requires now - lastTime >= SampleWindowMs
      modifies this, optimizer
      ensures State() == SampleStep(old(State()), now)
    {
      var fps := FpsSample(frameCount, now - lastTime);
      currentFps := fps;
      fpsHistory := fpsHistory + [fps];
      if |fpsHistory| > HistoryCap {
        fpsHistory := fpsHistory[1..];
      }
      var nowLow := AverageBelow(fpsHistory, LowFpsBound);
      if nowLow != isLowPerformance {
        isLowPerformance := nowLow;
        AdaptTo(Mean(fpsHistory));
      }
      frameCount := 0;
      lastTime := now;
    }

    /** `measureFPS`. */
    method MeasureFps(now: int)
      modifies this, optimizer
      ensures State() == MeasureStep(old(State()), now)
    {
      frameCount := frameCount + 1;
      if now - lastTime >= SampleWindowMs {
        TakeSample(now);
      }
      RequestFrame(Measure);
    }

    /** The callback scheduled when the page becomes visible. */
    method ResetMeasurement(now: int)
      modifies this
      ensures State() == ResetStep(old(State()), now)
    {
      lastTime := now;
      frameCount := 0;
    }

    /** One animation frame: runs every waiting callback in request order. */
    method AnimationFrame(now: int)
      modifies this, optimizer
      ensures State() == RunFrame(old(State()), now)
    {
      var batch := pending;
      var wasLow := isLowPerformance;
      pending, refPending := [], false;
      ghost var start := State();
      var i := 0;
      while i < |batch|
        invariant 0 <= i <= |batch|
        invariant State() == RunBatch(start, batch[..i], now)
      {
        match batch[i] {
          case Measure => MeasureFps(now);
          case ResetReference => ResetMeasurement(now);
        }
        assert batch[..i + 1][..i] == batch[..i];
        i := i + 1;
      }
      assert batch[..|batch|] == batch;
      if isLowPerformance != wasLow {
        CancelFrame();
        RequestFrame(Measure);
      }
    }

    /** `handleVisibilityChange`. */
    method VisibilityChange(hidden: bool)
      modifies this
      ensures State() == if hidden then Hide(old(State())) else Show(old(State()))
    {
      if hidden {
        CancelFrame();
      } else {
        RequestFrame(ResetReference);
      }
    }

    /** `checkMemoryPressure`, given the heap's used size and limit. */
    method CheckMemoryPressure(usedHeap: nat, heapLimit: nat)
      modifies this, optimizer
      ensures State() == MemoryCheck(old(State()), usedHeap, heapLimit)
    {
      if usedHeap * 5 > heapLimit * 4 && !isLowPerformance {
        isLowPerformance := true;
        AdaptTo(MemoryPressureFps);
        CancelFrame();
        RequestFrame(Measure);
      }
    }

    /** Unmounting: the monitoring effect's cleanup cancels the referenced frame. */
    method Unmount()
      modifies this
      ensures State() == Cancel(old(State()))
    {
      CancelFrame();
    }

    /** One host event. */
    method Handle(e: Event)
      requires Valid()
      modifies this, optimizer
      ensures State() == Step(old(State()), e)
      ensures Valid() && Rank(optimizer.performanceMode) <= Rank(old(optimizer.performanceMode))
    {
      ghost var before := State();
      match e {
        case Frame(now) => AnimationFrame(now);
        case PageHidden => VisibilityChange(true);
        case PageVisible => VisibilityChange(false);
        case MemorySample(used, limit) => CheckMemoryPressure(used, limit);
      }
      StepKeepsInvariant(before, e);
    }

    /** A sequence of host events, in order; the provider stays valid and the
        tier never rises. */
    method HandleAll(events: seq<Event>)
      requires Valid()
      modifies this, optimizer
      ensures State() == Run(old(State()), events)
      ensures Valid() && Rank(optimizer.performanceMode) <= Rank(old(optimizer.performanceMode))
    {
      ghost var start := State();
      var i := 0;
      while i < |events|
        invariant 0 <= i <= |events|
        invariant State() == Run(start, events[..i])
        invariant Valid() && Rank(optimizer.performanceMode) <= Rank(start.mode)
      {
        Handle(events[i]);
        assert events[..i + 1][..i] == events[..i];
        i := i + 1;
      }
      assert events[..|events|] == events;
    }

    /** The value the provider hands to its consumers. */
    function ContextValue(): PerformanceContextValue
      reads this, optimizer
    {
      PerformanceContextValue(optimizer.capabilities, animationSettings, settings3D, currentFps,
                              isLowPerformance, optimizer.GetIntersectionObserverSettings())
    }
  }

  // ---------------------------------------------------------------------
  // Consumers: usePerformance, withPerformanceOptimization, useAdaptiveAnimation
  // ---------------------------------------------------------------------

  /** What `usePerformance` returns; `shouldLazyLoad` is the optimizer's rule
      over `capabilities`. */
  datatype PerformanceContextValue = PerformanceContextValue(
    capabilities: DeviceCapabilities,
    animationSettings: AnimationSettings,
    settings3D: Settings3D,
    currentFps: int,
    isLowPerformance: bool,
    intersectionSettings: IntersectionSettings)

  const OutsideProviderMessage: string := "usePerformance must be used within a PerformanceProvider"

  /** `usePerformance`: the nearest provider's value, or an error outside one. */
  function UsePerformance(ctx: Option<PerformanceContextValue>): Result<PerformanceContextValue, string>
  {
    match ctx
    case Some(v) => Success(v)
    case None => Failure(OutsideProviderMessage)
  }

  /** What a component wrapped by `withPerformanceOptimization` renders. */
  datatype Rendering =
    | Fallback
    | Enhanced(performanceSettings: AnimationSettings, isLowPerformance: bool)

  /** `PerformanceOptimizedComponent`; `hasFallback` is whether the fallback
      option is present and truthy. */
  function OptimizedRendering(ctx: Option<PerformanceContextValue>, componentType: Option<ComponentType>,
                              hasFallback: bool): Result<Rendering, string>
  {
    match UsePerformance(ctx)
    case Failure(e) => Failure(e)
    case Success(v) =>
      var t := componentType.GetOr(MediumComponent);
      if ShouldLazyLoadFor(v.capabilities, t) && v.isLowPerformance && hasFallback then Success(Fallback)
      else Success(Enhanced(v.animationSettings, v.isLowPerformance))
  }

  /** The fallback is shown exactly when the component should be lazy loaded
      (as a medium component unless told otherwise), the page is running
      slowly and a fallback was given. */
  lemma FallbackRule(v: PerformanceContextValue, componentType: Option<ComponentType>, hasFallback: bool)
    ensures OptimizedRendering(Some(v), componentType, hasFallback) == Success(Fallback) <==>
      ShouldLazyLoadFor(v.capabilities, componentType.GetOr(MediumComponent))
      && v.isLowPerformance && hasFallback
    ensures OptimizedRendering(None, componentType, hasFallback) == Failure(OutsideProviderMessage)
  {
  }

  /** Animation timing as passed to and returned by `useAdaptiveAnimation`. */
  datatype AnimationTimingInput = AnimationTimingInput(duration: Option<real>, delay: Option<real>, iterations: Option<real>)
  datatype AnimationTiming = AnimationTiming(duration: real, delay: real, iterations: real)

  /** `x || d` for an optional number: missing and zero both read as `d`. */
  function OrDefault(x: Option<real>, d: real): real
  {
    if x.Some? && x.value != 0.0 then x.value else d
  }

  /** `useAdaptiveAnimation`. */
  function AdaptiveAnimation(ctx: Option<PerformanceContextValue>, base: AnimationTimingInput): Result<AnimationTiming, string>
  {
    match UsePerformance(ctx)
    case Failure(e) => Failure(e)
    case Success(v) =>
      if !v.animationSettings.enableAnimations || v.animationSettings.reducedMotion then
        Success(AnimationTiming(0.0, 0.0, 1.0))
      else
        var multiplier := if v.isLowPerformance then 0.5 else 1.0;
        Success(AnimationTiming(OrDefault(base.duration, 1000.0) * multiplier,
                                OrDefault(base.delay, 0.0) * multiplier,
                                OrDefault(base.iterations, 1.0)))
  }

  /** In low mode every animation collapses to an instant one; otherwise a
      slow page halves duration and delay, and a zero input counts as missing. */
  lemma AdaptiveAnimationRules(v: PerformanceContextValue, base: AnimationTimingInput)
    requires v.animationSettings == AnimationSettingsFor(Low)
    ensures AdaptiveAnimation(Some(v), base) == Success(AnimationTiming(0.0, 0.0, 1.0))
  {
  }

  lemma AdaptiveAnimationScales(v: PerformanceContextValue, base: AnimationTimingInput)
    requires v.animationSettings.enableAnimations && !v.animationSettings.reducedMotion
    ensures var r := AdaptiveAnimation(Some(v), base).value;
      && r.duration == (if v.isLowPerformance then 0.5 else 1.0) * OrDefault(base.duration, 1000.0)
      && (base.duration == Some(0.0) ==> r.duration == AdaptiveAnimation(Some(v), base.(duration := None)).value.duration)
      && r.delay == (if v.isLowPerformance then 0.5 else 1.0) * OrDefault(base.delay, 0.0)
      && r.iterations == OrDefault(base.iterations, 1.0)
  {
  }
}
