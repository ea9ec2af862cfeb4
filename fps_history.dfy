/**
 * The frame-rate sampling shared by the performance provider and the
 * performance monitor: one FPS sample per window of at least a second,
 * a history that keeps only the most recent samples, and the average
 * that decides whether the page is running slowly.
 */
module FpsHistory {
  import opened Numeric

  /** A sample is taken once at least this many milliseconds have passed. */
  const SampleWindowMs: int := 1000

  /** `Math.round(frames * 1000 / elapsedMs)`. */
  function FpsSample(frames: nat, elapsedMs: int): (fps: nat)
    requires elapsedMs > 0
    ensures -elapsedMs <= 2 * (frames * 1000 - fps * elapsedMs) < elapsedMs
  {
    RoundDiv(frames * 1000, elapsedMs)
  }

  /** Pushing a sample and then shifting the oldest one out when the
      history has grown beyond `cap`. */
  function Push(history: seq<int>, fps: int, cap: nat): seq<int>
  {
    var grown := history + [fps];
    if |grown| > cap then grown[1..] else grown
  }

  /** The last `n` elements of `s` (all of them when `s` is shorter). */
  function LastN(s: seq<int>, n: nat): (r: seq<int>)
    ensures |r| == if |s| < n then |s| else n
  {
    if |s| < n then s else s[|s| - n..]
  }

  /** One push on a history within its cap keeps it within the cap and
      holds exactly the newest `cap` of the old entries and the new sample. */
  lemma PushKeepsNewest(history: seq<int>, fps: int, cap: nat)
    requires cap > 0 && |history| <= cap
    ensures Push(history, fps, cap) == LastN(history + [fps], cap)
    ensures |Push(history, fps, cap)| <= cap
    ensures Push(history, fps, cap)[|Push(history, fps, cap)| - 1] == fps
  {
  }

  /** The history after pushing every sample of `samples`, oldest first. */
  function PushAll(history: seq<int>, samples: seq<int>, cap: nat): seq<int>
    decreases |samples|
  {
    if samples == [] then history
    else Push(PushAll(history, samples[..|samples| - 1], cap), samples[|samples| - 1], cap)
  }

  /** Starting empty, the history is always the newest `cap` samples taken,
      in the order they were taken: first in, first out. */
  lemma {:induction false} HistoryIsNewestSamples(samples: seq<int>, cap: nat)
    requires cap > 0
    ensures PushAll([], samples, cap) == LastN(samples, cap)
    decreases |samples|
  {
    if samples != [] {
      var init := samples[..|samples| - 1];
      var x := samples[|samples| - 1];
      calc {
        PushAll([], samples, cap);
        Push(PushAll([], init, cap), x, cap);
        { HistoryIsNewestSamples(init, cap);
          PushKeepsNewest(PushAll([], init, cap), x, cap); }
        LastN(LastN(init, cap) + [x], cap);
        { LastNStep(init, x, cap); }
        LastN(init + [x], cap);
        { assert init + [x] == samples; }
        LastN(samples, cap);
      }
    }
  }

  /** Keeping the newest `cap` before appending loses nothing the newest
      `cap` after it would keep. */
  lemma LastNStep(s: seq<int>, x: int, cap: nat)
    requires cap > 0
    ensures LastN(LastN(s, cap) + [x], cap) == LastN(s + [x], cap)
  {
    if |s| >= cap {
      assert LastN(s, cap) + [x] == (s + [x])[|s| - cap..];
    }
  }

  /** The sum of the samples (`reduce((a, b) => a + b, 0)`). */
  function Sum(s: seq<int>): int
  {
    if s == [] then 0 else Sum(s[..|s| - 1]) + s[|s| - 1]
  }

  /** `avg < bound`, decided by cross-multiplication; false for an empty history. */
  predicate AverageBelow(s: seq<int>, bound: int)
  {
    |s| > 0 && Sum(s) < bound * |s|
  }

  /** The average as the number handed to `adaptQuality`. */
  function Mean(s: seq<int>): real
    requires |s| > 0
  {
    Sum(s) as real / |s| as real
  }

  /** The cross-multiplied comparison agrees with comparing the average. */
  lemma AverageBelowIsMeanBelow(s: seq<int>, bound: int)
    requires |s| > 0
    ensures AverageBelow(s, bound) <==> Mean(s) < bound as real
  {
    var n := |s| as real;
    assert Mean(s) * n == Sum(s) as real;
    if Mean(s) < bound as real {
      assert Mean(s) * n < bound as real * n;
    } else {
      assert Mean(s) * n >= bound as real * n;
    }
  }

  /** When every sample is at least `bound`, the average is not below it. */
  lemma {:induction false} SamplesAtLeastBound(s: seq<int>, bound: int)
    requires forall i :: 0 <= i < |s| ==> s[i] >= bound
    ensures Sum(s) >= bound * |s|
    decreases |s|
  {
    if s != [] {
      SamplesAtLeastBound(s[..|s| - 1], bound);
    }
  }

  /** When no sample exceeds `bound`, neither does the average. */
  lemma {:induction false} SamplesAtMostBound(s: seq<int>, bound: int)
    requires forall i :: 0 <= i < |s| ==> s[i] <= bound
    ensures Sum(s) <= bound * |s|
    decreases |s|
  {
    if s != [] {
      SamplesAtMostBound(s[..|s| - 1], bound);
    }
  }
}
