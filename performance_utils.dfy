/**
 * The quality-tier policy: device capabilities read once from the host,
 * the initial performance mode chosen from them, the settings bundles each
 * mode stands for, the lazy-loading and intersection-observer rules, and
 * the one-way demotion `adaptQuality` applies when the frame rate drops.
 */
module PerformanceUtils {
  import opened Wrappers
  import opened Text

  // ---------------------------------------------------------------------
  // Data model
  // ---------------------------------------------------------------------

  /** The three quality tiers, ordered low < medium < high. */
  datatype Mode = Low | Medium | High

  function Rank(m: Mode): nat
  {
    match m
    case Low => 0
    case Medium => 1
    case High => 2
  }

  datatype ConnectionSpeed = Slow | Fast | Unknown

  /** How expensive a component is to initialise. */
  datatype ComponentType = HeavyComponent | MediumComponent | LightComponent

  datatype GradientComplexity = SimpleGradient | MediumGradient | ComplexGradient

  datatype AnimationSettings = AnimationSettings(
    enableAnimations: bool,
    reducedMotion: bool,
    frameRate: nat,
    blurEffects: bool,
    gradientComplexity: GradientComplexity,
    particleCount: nat)

  /** 3D settings; `quality` and `textureQuality` take the values 'low',
      'medium' and 'high', which are the names of the tiers. */
  datatype Settings3D = Settings3D(
    enabled: bool,
    quality: Mode,
    antialiasing: bool,
    shadows: bool,
    textureQuality: Mode)

  datatype IntersectionSettings = IntersectionSettings(threshold: real, rootMargin: string)

  datatype DeviceCapabilities = DeviceCapabilities(
    isLowEnd: bool,
    supportsWebGL: bool,
    hasHighRefreshRate: bool,
    memoryLimit: real,
    connectionSpeed: ConnectionSpeed,
    prefersReducedMotion: bool)

  /** `navigator.connection`, when the browser provides it. */
  datatype NetworkInformation = NetworkInformation(effectiveType: Option<string>)

  /** The navigator signals the probes read; each may be missing. */
  datatype Navigator = Navigator(
    hardwareConcurrency: Option<int>,
    deviceMemory: Option<real>,
    userAgent: string,
    connection: Option<NetworkInformation>)

  /** Where the code runs. On the server there is no window; in a browser the
      WebGL, refresh-rate and reduced-motion probes are given as their answers. */
  datatype Host =
    | Server
    | Browser(navigator: Navigator, supportsWebGL: bool, hasHighRefreshRate: bool, prefersReducedMotion: bool)

  // ---------------------------------------------------------------------
  // Capability probes
  // ---------------------------------------------------------------------

  /** `navigator.hardwareConcurrency || 4`: a missing or zero count reads as 4. */
  function CoreCount(nav: Navigator): int
  {
    match nav.hardwareConcurrency
    case Some(n) => if n == 0 then 4 else n
    case None => 4
  }

  /** The user-agent fragments that mark a legacy low-end device. */
  const LowEndIndicators: seq<string> := [
    "android 4", "android 5", "android 6",
    "iphone os 10", "iphone os 11",
    "windows phone",
    "opera mini",
    "ucbrowser"
  ]

  /** `indicators.some(i => ua.includes(i))`. */
  function AnyIndicator(ua: string, indicators: seq<string>): (r: bool)
    ensures r <==> exists i :: 0 <= i < |indicators| && Contains(ua, indicators[i])
  {
    if indicators == [] then false
    else Contains(ua, indicators[0]) || AnyIndicator(ua, indicators[1..])
  }

  /** `checkIsLowEndDevice`: few cores, little memory, or a legacy user agent. */
  function IsLowEndDevice(nav: Navigator): bool
  {
    if CoreCount(nav) <= 2 then true
    else if nav.deviceMemory.Some? && nav.deviceMemory.value != 0.0 && nav.deviceMemory.value <= 2.0 then true
    else AnyIndicator(Lower(nav.userAgent), LowEndIndicators)
  }

  /** `estimateMemoryLimit`: device memory in MB, else one GB per core. */
  function EstimateMemoryLimit(nav: Navigator): real
  {
    if nav.deviceMemory.Some? && nav.deviceMemory.value != 0.0 then nav.deviceMemory.value * 1024.0
    else CoreCount(nav) as real * 1024.0
  }

  /** `getConnectionSpeed`. */
  function GetConnectionSpeed(nav: Navigator): ConnectionSpeed
  {
    match nav.connection
    case None => Unknown
    case Some(info) =>
      if info.effectiveType == Some("slow-2g") || info.effectiveType == Some("2g") then Slow
      else if info.effectiveType == Some("3g") then Slow
      else Fast
  }

  /** `getDeviceCapabilities`. */
  function GetDeviceCapabilities(host: Host): DeviceCapabilities
  {
    match host
    case Server =>
      DeviceCapabilities(false, false, false, 4096.0, Unknown, false)
    case Browser(nav, webgl, highRefresh, reducedMotion) =>
      DeviceCapabilities(IsLowEndDevice(nav), webgl, highRefresh, EstimateMemoryLimit(nav),
                         GetConnectionSpeed(nav), reducedMotion)
  }

  // ---------------------------------------------------------------------
  // Policy
  // ---------------------------------------------------------------------

  /** `determinePerformanceMode`: the first rule that applies decides. */
  function DetermineMode(caps: DeviceCapabilities): Mode
  {
    if caps.prefersReducedMotion then Low
    else if caps.isLowEnd then Low
    else if caps.connectionSpeed == Slow then Medium
    else if !caps.supportsWebGL then Medium
    else High
  }

  /** `getAnimationSettings` for a mode. */
  function AnimationSettingsFor(m: Mode): AnimationSettings
  {
    match m
    case Low => AnimationSettings(false, true, 15, false, SimpleGradient, 0)
    case Medium => AnimationSettings(true, false, 30, false, MediumGradient, 10)
    case High => AnimationSettings(true, false, 60, true, ComplexGradient, 50)
  }

  /** `get3DSettings` for a mode. */
  function Settings3DFor(m: Mode): Settings3D
  {
    match m
    case Low => Settings3D(false, Low, false, false, Low)
    case Medium => Settings3D(true, Medium, false, false, Medium)
    case High => Settings3D(true, High, true, true, High)
  }

  /** `shouldLazyLoad`. */
  function ShouldLazyLoadFor(caps: DeviceCapabilities, t: ComponentType): bool
  {
    if caps.connectionSpeed == Slow then true
    else if caps.isLowEnd && t != LightComponent then true
    else t == HeavyComponent
  }

  /** `getIntersectionObserverSettings`. */
  function IntersectionSettingsFor(m: Mode, caps: DeviceCapabilities): IntersectionSettings
  {
    IntersectionSettings(
      if m == Low then 0.5 else 0.1,
      if caps.connectionSpeed == Slow then "10px" else "50px")
  }

  /** The outcome of `adaptQuality`: the new mode and what it returns
      (the new animation settings, or null when nothing changed). */
  datatype Adaptation = Adaptation(mode: Mode, settings: Option<AnimationSettings>)

  /** `adaptQuality(fps)` applied to mode `m`. */
  function Adapt(m: Mode, fps: real): Adaptation
  {
    if fps < 20.0 && m != Low then Adaptation(Low, Some(AnimationSettingsFor(Low)))
    else if fps < 40.0 && m == High then Adaptation(Medium, Some(AnimationSettingsFor(Medium)))
    else Adaptation(m, None)
  }

  // ---------------------------------------------------------------------
  // The optimizer object and its lazily created single instance
  // ---------------------------------------------------------------------

  /** `PerformanceOptimizer`: the capabilities read at construction and the
      mutable performance mode. */
  class PerformanceOptimizer {
    const capabilities: DeviceCapabilities
    var performanceMode: Mode

    constructor (host: Host)
      ensures capabilities == GetDeviceCapabilities(host)
      ensures performanceMode == DetermineMode(capabilities)
    {
      capabilities := GetDeviceCapabilities(host);
      performanceMode := DetermineMode(GetDeviceCapabilities(host));
    }

    function GetAnimationSettings(): AnimationSettings
      reads this
    {
      AnimationSettingsFor(performanceMode)
    }

    function Get3DSettings(): Settings3D
      reads this
    {
      Settings3DFor(performanceMode)
    }

    function ShouldLazyLoad(t: ComponentType): bool
    {
      ShouldLazyLoadFor(capabilities, t)
    }

    function GetIntersectionObserverSettings(): IntersectionSettings
      reads this
    {
      IntersectionSettingsFor(performanceMode, capabilities)
    }

    /** `adaptQuality`: demotes at most one way and reports the settings of
        the new mode exactly when the mode changed. */
    method AdaptQuality(currentFps: real) returns (settings: Option<AnimationSettings>)
      modifies this
      ensures Adaptation(performanceMode, settings) == Adapt(old(performanceMode), currentFps)
      ensures Rank(performanceMode) <= Rank(old(performanceMode))
      ensures settings.Some? <==> performanceMode != old(performanceMode)
      ensures settings.Some? ==> settings.value == GetAnimationSettings()
    {
      if currentFps < 20.0 && performanceMode != Low {
        performanceMode := Low;
        return Some(GetAnimationSettings());
      }
      if currentFps < 40.0 && performanceMode == High {
        performanceMode := Medium;
        return Some(GetAnimationSettings());
      }
      return None;
    }
  }

  /** The module-level `performanceOptimizer` variable behind `getPerformanceOptimizer`. */
  class OptimizerSingleton {
    var instance: PerformanceOptimizer?

    constructor ()
      ensures instance == null
    {
      instance := null;
    }

    /** `getPerformanceOptimizer`: creates the optimizer on first use and
        returns that same object on every later call. */
    method GetPerformanceOptimizer(host: Host) returns (o: PerformanceOptimizer)
      modifies this
      ensures instance == o
      ensures old(instance) != null ==> o == old(instance)
      ensures old(instance) == null ==>
        fresh(o) && o.capabilities == GetDeviceCapabilities(host)
        && o.performanceMode == DetermineMode(o.capabilities)
    {
      if instance == null {
        instance := new PerformanceOptimizer(host);
      }
      o := instance;
    }
  }

  /** Two calls, even with different hosts, hand out one object. */
  method SingletonClient(slot: OptimizerSingleton, first: Host, second: Host)
    returns (a: PerformanceOptimizer, b: PerformanceOptimizer)
    modifies slot
    ensures a == b && slot.instance == a
  {
    a := slot.GetPerformanceOptimizer(first);
    b := slot.GetPerformanceOptimizer(second);
  }

  // ---------------------------------------------------------------------
  // Properties
  // ---------------------------------------------------------------------

  /** The first-match order of the initial-mode rules. */
  lemma InitialModeRules(caps: DeviceCapabilities)
    ensures DetermineMode(caps) == Low <==> caps.prefersReducedMotion || caps.isLowEnd
    ensures DetermineMode(caps) == Medium <==>
      !caps.prefersReducedMotion && !caps.isLowEnd
      && (caps.connectionSpeed == Slow || !caps.supportsWebGL)
    ensures DetermineMode(caps) == High <==>
      !caps.prefersReducedMotion && !caps.isLowEnd
      && caps.connectionSpeed != Slow && caps.supportsWebGL
  {
  }

  /** `a` is no more capable than `b` in every respect the mode depends on. */
  predicate NoMoreCapable(a: DeviceCapabilities, b: DeviceCapabilities)
  {
    && (b.prefersReducedMotion ==> a.prefersReducedMotion)
    && (b.isLowEnd ==> a.isLowEnd)
    && (b.connectionSpeed == Slow ==> a.connectionSpeed == Slow)
    && (a.supportsWebGL ==> b.supportsWebGL)
  }

  /** A less capable device never starts in a higher tier. */
  lemma InitialModeMonotone(a: DeviceCapabilities, b: DeviceCapabilities)
    requires NoMoreCapable(a, b)
    ensures Rank(DetermineMode(a)) <= Rank(DetermineMode(b))
  {
  }

  /** `adaptQuality` never raises the mode, changes it exactly when it
      returns settings, and then returns the settings of the new mode. */
  lemma AdaptNeverRaises(m: Mode, fps: real)
    ensures Rank(Adapt(m, fps).mode) <= Rank(m)
    ensures Adapt(m, fps).settings.Some? <==> Adapt(m, fps).mode != m
    ensures Adapt(m, fps).settings.Some? ==>
      Adapt(m, fps).settings.value == AnimationSettingsFor(Adapt(m, fps).mode)
  {
  }

  /** The three cases of `adaptQuality`. */
  lemma AdaptCases(m: Mode, fps: real)
    ensures fps < 20.0 ==> Adapt(m, fps).mode == Low
    ensures 20.0 <= fps < 40.0 ==> Adapt(m, fps).mode == (if m == High then Medium else m)
    ensures fps >= 40.0 ==> Adapt(m, fps) == Adaptation(m, None)
  {
  }

  /** Adapting twice to the same frame rate is the same as adapting once. */
  lemma AdaptIdempotent(m: Mode, fps: real)
    ensures Adapt(Adapt(m, fps).mode, fps).mode == Adapt(m, fps).mode
    ensures Adapt(Adapt(m, fps).mode, fps).settings == None
  {
  }

  /** `adaptQuality(20)`, the memory-pressure call, can only take high to
      medium: 20 is not below 20, so it never reaches low. */
  lemma AdaptAtTwentyNeverReachesLow(m: Mode)
    ensures Adapt(m, 20.0).mode == (if m == High then Medium else m)
  {
  }

  /** The settings bundles are fixed per tier and grow with it: frame rate and
      particle budget strictly increase from low to high, animation and 3D are
      on exactly above low, antialiasing and shadows exactly at high. */
  lemma SettingsOrderedByTier(a: Mode, b: Mode)
    requires Rank(a) < Rank(b)
    ensures AnimationSettingsFor(a).frameRate < AnimationSettingsFor(b).frameRate
    ensures AnimationSettingsFor(a).particleCount < AnimationSettingsFor(b).particleCount
    ensures !Settings3DFor(b).enabled ==> !Settings3DFor(a).enabled
  {
  }

  lemma SettingsByTier(m: Mode)
    ensures AnimationSettingsFor(m).enableAnimations <==> m != Low
    ensures AnimationSettingsFor(m).reducedMotion <==> m == Low
    ensures Settings3DFor(m).enabled <==> m != Low
    ensures Settings3DFor(m).antialiasing <==> m == High
    ensures Settings3DFor(m).shadows <==> m == High
    ensures Settings3DFor(m).quality == m && Settings3DFor(m).textureQuality == m
  {
  }

  /** Distinct tiers publish distinct settings, so a published bundle names its tier. */
  lemma SettingsDetermineTier(a: Mode, b: Mode)
    requires AnimationSettingsFor(a) == AnimationSettingsFor(b) || Settings3DFor(a) == Settings3DFor(b)
    ensures a == b
  {
  }

  /** Heavy components are always deferred, light ones only on a slow
      connection, and a heavier component is deferred whenever a lighter one is. */
  lemma LazyLoadRules(caps: DeviceCapabilities)
    ensures ShouldLazyLoadFor(caps, HeavyComponent)
    ensures ShouldLazyLoadFor(caps, LightComponent) <==> caps.connectionSpeed == Slow
    ensures ShouldLazyLoadFor(caps, MediumComponent) <==> caps.connectionSpeed == Slow || caps.isLowEnd
    ensures ShouldLazyLoadFor(caps, LightComponent) ==> ShouldLazyLoadFor(caps, MediumComponent)
  {
  }

  /** The observer waits for half the element only in low mode and widens its
      margin only off a slow connection. */
  lemma IntersectionRules(m: Mode, caps: DeviceCapabilities)
    ensures IntersectionSettingsFor(m, caps).threshold == 0.5 <==> m == Low
    ensures IntersectionSettingsFor(m, caps).rootMargin == "10px" <==> caps.connectionSpeed == Slow
  {
  }

  /** Low-end detection is an OR of three independent tests. */
  lemma LowEndIsDisjunction(nav: Navigator)
    ensures IsLowEndDevice(nav) <==>
      || CoreCount(nav) <= 2
      || (nav.deviceMemory.Some? && nav.deviceMemory.value != 0.0 && nav.deviceMemory.value <= 2.0)
      || exists i :: 0 <= i < |LowEndIndicators| && Contains(Lower(nav.userAgent), LowEndIndicators[i])
  {
  }

  /** One instance of the user-agent test: the agent `Opera Mini/8.0`, in
      mixed case, marks the device low-end even with many cores and plenty
      of memory. */
  lemma OperaMiniIsLowEnd(nav: Navigator)
    requires nav.userAgent == "Opera Mini/8.0"
    ensures IsLowEndDevice(nav)
  {
    OperaMiniLowered(nav.userAgent);
    ContainsAt(Lower(nav.userAgent), "opera mini", 0);
    assert LowEndIndicators[6] == "opera mini";
  }

  lemma OperaMiniLowered(ua: string)
    requires ua == "Opera Mini/8.0"
    ensures |Lower(ua)| >= 10 && Lower(ua)[..10] == "opera mini"
  {
    var low := Lower(ua);
    assert low[0] == LowerChar('O') == 'o';
    assert low[6] == LowerChar('M') == 'm';
    forall i | 0 <= i < 10 && i != 0 && i != 6 ensures low[i] == ua[i] {
      assert !IsAsciiUpper(ua[i]);
    }
  }

  /** Missing signals fall back to the conservative values. */
  lemma CapabilityDefaults(nav: Navigator)
    requires nav.hardwareConcurrency == None && nav.deviceMemory == None && nav.connection == None
    ensures EstimateMemoryLimit(nav) == 4096.0
    ensures GetConnectionSpeed(nav) == Unknown
    ensures GetDeviceCapabilities(Server).memoryLimit == 4096.0
    ensures !GetDeviceCapabilities(Server).isLowEnd
    ensures GetDeviceCapabilities(Server).connectionSpeed == Unknown
  {
  }

  /** 2G, slow 2G and 3G are slow; any other reported type, or none, is fast. */
  lemma ConnectionSpeedRules(nav: Navigator)
    ensures nav.connection == None <==> GetConnectionSpeed(nav) == Unknown
    ensures GetConnectionSpeed(nav) == Slow <==>
      nav.connection.Some? && nav.connection.value.effectiveType in {Some("slow-2g"), Some("2g"), Some("3g")}
  {
  }
}
