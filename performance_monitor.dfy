/**
 * The developer overlay that shows frame rate, heap usage and sampling
 * interval, toggled with Ctrl+Shift+P, and the `usePerformanceMonitor`
 * hook that keeps the last five samples and reports whether their
 * average is below 30 FPS.
 */
module PerformanceMonitor {
  import opened Wrappers
  import opened Numeric
  import opened FpsHistory

  /** `usedJSHeapSize / 1024 / 1024`. */
  const BytesPerMegabyte: int := 1048576

  // ---------------------------------------------------------------------
  // The overlay
  // ---------------------------------------------------------------------

  /** The colour class the overlay gives the FPS figure. */
  datatype FpsColor = Green | Yellow | Red

  /** `getFPSColor`. */
  function FpsColorFor(fps: int): FpsColor
  {
    if fps >= 55 then Green else if fps >= 30 then Yellow else Red
  }

  function ColorRank(c: FpsColor): nat
  {
    match c
    case Red => 0
    case Yellow => 1
    case Green => 2
  }

  /** Green from 55 FPS, red below 30, yellow in between; a higher rate never
      gets a worse colour. */
  lemma FpsColorBands(fps: int, other: int)
    ensures FpsColorFor(fps) == Green <==> fps >= 55
    ensures FpsColorFor(fps) == Red <==> fps < 30
    ensures FpsColorFor(fps) == Yellow <==> 30 <= fps < 55
    ensures fps <= other ==> ColorRank(FpsColorFor(fps)) <= ColorRank(FpsColorFor(other))
  {
  }

  /** The overlay's metrics. */
  datatype Metrics = Metrics(fps: int, memoryUsage: int, renderTime: int, isVisible: bool)

  /** The metrics and the refs of the measuring loop. */
  datatype MonitorState = MonitorState(metrics: Metrics, frameCount: nat, lastTime: int)

  function InitialMonitor(now: int): MonitorState
  {
    MonitorState(Metrics(0, 0, 0, false), 0, now)
  }

  /** The heap in whole megabytes, rounded to nearest; 0 when the host
      does not expose `performance.memory`. */
  function MemoryMegabytes(heapUsed: Option<nat>): (mb: int)
    ensures heapUsed.None? ==> mb == 0
    ensures heapUsed.Some? ==>
      mb >= 0 && -BytesPerMegabyte <= 2 * (heapUsed.value - mb * BytesPerMegabyte) < BytesPerMegabyte
  {
    match heapUsed
    case None => 0
    case Some(used) => RoundDiv(used, BytesPerMegabyte)
  }

  /** One run of the overlay's `measurePerformance`; the loop only exists
      while the overlay is enabled. */
  function MonitorFrame(enabled: bool, s: MonitorState, now: int, heapUsed: Option<nat>): MonitorState
  {
    if !enabled then s
    else
      var count := s.frameCount + 1;
      if now - s.lastTime >= SampleWindowMs then
        var fps := FpsSample(count, now - s.lastTime);
        var m := s.metrics.(fps := fps, memoryUsage := MemoryMegabytes(heapUsed), renderTime := now - s.lastTime);
        MonitorState(m, 0, now)
      else s.(frameCount := count)
  }

  /** A sample reports the rounded frame rate over the elapsed interval and
      the interval itself, and never changes whether the overlay is shown. */
  lemma MonitorFrameRules(s: MonitorState, now: int, heapUsed: Option<nat>)
    ensures MonitorFrame(false, s, now, heapUsed) == s
    ensures MonitorFrame(true, s, now, heapUsed).metrics.isVisible == s.metrics.isVisible
    ensures now - s.lastTime >= SampleWindowMs ==>
      var r := MonitorFrame(true, s, now, heapUsed);
      && r.metrics.renderTime == now - s.lastTime
      && -(now - s.lastTime) <= 2 * ((s.frameCount + 1) * 1000 - r.metrics.fps * (now - s.lastTime)) < now - s.lastTime
      && r.frameCount == 0 && r.lastTime == now
    ensures now - s.lastTime < SampleWindowMs ==>
      MonitorFrame(true, s, now, heapUsed) == s.(frameCount := s.frameCount + 1)
  {
  }

  /** The key handler: Ctrl+Shift+P (capital P) flips the overlay's visibility. */
  function KeyDown(m: Metrics, ctrlKey: bool, shiftKey: bool, key: string): Metrics
  {
    if ctrlKey && shiftKey && key == "P" then m.(isVisible := !m.isVisible) else m
  }

  /** The overlay renders only when enabled and toggled visible. */
  predicate Rendered(enabled: bool, m: Metrics)
  {
    enabled && m.isVisible
  }

  /** The shortcut flips visibility and nothing else, twice restores it,
      and any other key changes nothing. */
  lemma ShortcutToggles(m: Metrics, ctrlKey: bool, shiftKey: bool, key: string)
    ensures KeyDown(m, ctrlKey, shiftKey, key).isVisible ==
      (if ctrlKey && shiftKey && key == "P" then !m.isVisible else m.isVisible)
    ensures KeyDown(m, ctrlKey, shiftKey, key).(isVisible := m.isVisible) == m
    ensures KeyDown(KeyDown(m, ctrlKey, shiftKey, key), ctrlKey, shiftKey, key) == m
    ensures key == "p" ==> KeyDown(m, ctrlKey, shiftKey, key) == m
  {
  }

  /** Until the shortcut is pressed the overlay renders nothing. */
  lemma HiddenUntilToggled(enabled: bool, now: int)
    ensures !Rendered(enabled, InitialMonitor(now).metrics)
    ensures Rendered(enabled, KeyDown(InitialMonitor(now).metrics, true, true, "P")) <==> enabled
  {
  }

  /** `PerformanceMonitor`: its `enabled` prop, the metrics state and the refs. */
  class PerformanceMonitorComponent {
    const enabled: bool
    var metrics: Metrics
    var frameCount: nat
    var lastTime: int

    function State(): MonitorState
      reads this
    {
      MonitorState(metrics, frameCount, lastTime)
    }

    constructor (enabled: bool, now: int)
      ensures this.enabled == enabled
      ensures State() == InitialMonitor(now)
    {
      this.enabled := enabled;
      metrics := Metrics(0, 0, 0, false);
      frameCount := 0;
      lastTime := now;
    }

    /** `measurePerformance`, given the host's heap size when it exposes one. */
    method MeasurePerformance(now: int, heapUsed: Option<nat>)
      modifies this
      ensures State() == MonitorFrame(enabled, old(State()), now, heapUsed)
    {
      if !enabled {
        return;
      }
      frameCount := frameCount + 1;
      if now - lastTime >= SampleWindowMs {
        var fps := FpsSample(frameCount, now - lastTime);
        var memoryUsage := MemoryMegabytes(heapUsed);
        metrics := metrics.(fps := fps, memoryUsage := memoryUsage, renderTime := now - lastTime);
        frameCount := 0;
        lastTime := now;
      }
    }

    /** `handleKeyPress`. */
    method HandleKeyPress(ctrlKey: bool, shiftKey: bool, key: string)
      modifies this
      ensures State() == old(State()).(metrics := KeyDown(old(metrics), ctrlKey, shiftKey, key))
    {
      if ctrlKey && shiftKey && key == "P" {
        metrics := metrics.(isVisible := !metrics.isVisible);
      }
    }
  }

  // ---------------------------------------------------------------------
  // usePerformanceMonitor
  // ---------------------------------------------------------------------

  /** The hook keeps this many samples. */
  const DetectorCap: nat := 5
  /** Below this average the hook reports low performance. */
  const DetectorBound: int := 30

  datatype DetectorState = DetectorState(isLowPerformance: bool, history: seq<int>, frameCount: nat, lastTime: int)

  /** The flag always describes the current history, which holds at most
      five samples, none of them negative. */
  predicate DetectorValid(s: DetectorState)
  {
    && |s.history| <= DetectorCap
    && (forall i :: 0 <= i < |s.history| ==> s.history[i] >= 0)
    && s.isLowPerformance == AverageBelow(s.history, DetectorBound)
  }

  function InitialDetector(now: int): (s: DetectorState)
    ensures DetectorValid(s)
  {
    DetectorState(false, [], 0, now)
  }

  /** One run of `checkPerformance`: unlike the provider, the flag is
      recomputed on every sample, so it can return to false. */
  function DetectorFrame(s: DetectorState, now: int): DetectorState
  {
    var count := s.frameCount + 1;
    if now - s.lastTime >= SampleWindowMs then
      var fps := FpsSample(count, now - s.lastTime);
      var h := Push(s.history, fps, DetectorCap);
      DetectorState(AverageBelow(h, DetectorBound), h, 0, now)
    else s.(frameCount := count)
  }

  /** Frames at the given times, in order. */
  function DetectorRun(s: DetectorState, times: seq<int>): DetectorState
    decreases |times|
  {
    if times == [] then s else DetectorFrame(DetectorRun(s, times[..|times| - 1]), times[|times| - 1])
  }

  /** Over any run of frames the history stays within five samples and the
      flag says exactly whether their average is below 30 FPS. */
  lemma {:induction false} DetectorFlagTracksAverage(s: DetectorState, times: seq<int>)
    requires DetectorValid(s)
    ensures DetectorValid(DetectorRun(s, times))
    decreases |times|
  {
    if times != [] {
      var prev := DetectorRun(s, times[..|times| - 1]);
      DetectorFlagTracksAverage(s, times[..|times| - 1]);
      var now := times[|times| - 1];
      if now - prev.lastTime >= SampleWindowMs {
        PushKeepsSign(prev.history, FpsSample(prev.frameCount + 1, now - prev.lastTime));
      }
    }
  }

  /** A push of a non-negative sample onto a valid history stays within the
      cap and non-negative, and ends with the new sample. */
  lemma PushKeepsSign(history: seq<int>, fps: nat)
    requires |history| <= DetectorCap && forall i :: 0 <= i < |history| ==> history[i] >= 0
    ensures var h := Push(history, fps, DetectorCap);
      && 0 < |h| <= DetectorCap && h[|h| - 1] == fps
      && forall i :: 0 <= i < |h| ==> h[i] >= 0
  {
    PushKeepsNewest(history, fps, DetectorCap);
    var grown := history + [fps];
    assert forall i :: 0 <= i < |grown| ==> grown[i] >= 0;
  }

  /** The flag recovers, unlike the provider's one-way tier: whatever the
      history, a second sampled at 150 FPS or more (five times the bound)
      lifts the average of the newest five samples to 30 or above. */
  lemma DetectorRecovers(s: DetectorState, now: int)
    requires DetectorValid(s) && now - s.lastTime >= SampleWindowMs
    requires FpsSample(s.frameCount + 1, now - s.lastTime) >= DetectorCap * DetectorBound
    ensures DetectorValid(DetectorFrame(s, now))
    ensures !DetectorFrame(s, now).isLowPerformance
  {
    var fps := FpsSample(s.frameCount + 1, now - s.lastTime);
    var h := Push(s.history, fps, DetectorCap);
    PushKeepsSign(s.history, fps);
    SumAtLeastLast(h);
  }

  /** A fast second alone does not always clear the flag: after four seconds
      at 0 FPS a second at 100 FPS averages 20, and the page stays flagged. */
  lemma SlowHistoryOutweighsFastSample(t: int)
    ensures DetectorValid(DetectorState(true, [0, 0, 0, 0], 99, t))
    ensures DetectorFrame(DetectorState(true, [0, 0, 0, 0], 99, t), t + 1000).isLowPerformance
  {
    RoundDivUnique(100 * 1000, 1000, 100);
    assert FpsSample(100, 1000) == 100;
    var h := [0, 0, 0, 0, 100];
    assert [0, 0, 0, 0] + [100] == h;
    SamplesAtLeastBound(h[..4], 0);
    SamplesAtMostBound(h[..4], 0);
    assert h[..4] == [0, 0, 0, 0];
  }

  /** A sum of non-negative samples is at least its last sample. */
  lemma SumAtLeastLast(h: seq<int>)
    requires |h| > 0 && forall i :: 0 <= i < |h| ==> h[i] >= 0
    ensures Sum(h) >= h[|h| - 1]
  {
    SamplesAtLeastBound(h[..|h| - 1], 0);
  }

  /** The `usePerformanceMonitor` hook's closure variables and its state. */
  class LowPerformanceDetector {
    var isLowPerformance: bool
    var fpsHistory: seq<int>
    var frameCount: nat
    var lastTime: int

    function State(): DetectorState
      reads this
    {
      DetectorState(isLowPerformance, fpsHistory, frameCount, lastTime)
    }

    constructor (now: int)
      ensures State() == InitialDetector(now)
    {
      isLowPerformance := false;
      fpsHistory := [];
      frameCount := 0;
      lastTime := now;
    }

    /** `checkPerformance`. */
    method CheckPerformance(now: int)
      modifies this
      ensures State() == DetectorFrame(old(State()), now)
    {
      frameCount := frameCount + 1;
      if now - lastTime >= SampleWindowMs {
        var fps := FpsSample(frameCount, now - lastTime);
        fpsHistory := fpsHistory + [fps];
        if |fpsHistory| > DetectorCap {
          fpsHistory := fpsHistory[1..];
        }
        isLowPerformance := AverageBelow(fpsHistory, DetectorBound);
        frameCount := 0;
        lastTime := now;
      }
    }
  }
}
