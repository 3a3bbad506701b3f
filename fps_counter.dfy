/** Model of `FpsCounter` (src/fps_counter/mod.rs): a frame pacer and a rolling
  * frames-per-second average over the last five one-second windows.
  *
  * Time is an explicit clock reading `now` in integer nanoseconds instead of
  * `Instant::now()`, and `Frame` returns how long the source would sleep instead of
  * sleeping; the clock after the sleep is `now` plus that amount.
  */
module Fps {

  const NANOS_PER_SEC: nat := 1_000_000_000

  /** Length of the ring buffer of per-second frame counts. */
  const SLOTS: nat := 5

  const U32_MODULUS: nat := 0x1_0000_0000

  /** `Duration::from_secs_f64(1.0 / target_fps)`: one frame period, to the nearest nanosecond. */
  function FrameDuration(targetFps: nat): (d: nat)
    requires targetFps > 0
    ensures 2 * d * targetFps <= 2 * NANOS_PER_SEC + targetFps
    ensures 2 * NANOS_PER_SEC + targetFps < 2 * (d + 1) * targetFps
  {
    var n, q := 2 * NANOS_PER_SEC + targetFps, 2 * targetFps;
    assert n == q * (n / q) + n % q;
    n / q
  }

  /** `later.duration_since(earlier)`, which is zero rather than negative. */
  function Since(later: int, earlier: int): nat
  {
    if later >= earlier then later - earlier else 0
  }

  /** `frame_duration * (frame_count + 2) as u32`: the target time, within the current
    * window, by which the next frame should start; `as u32` keeps the low 32 bits. */
  function DesignatedTime(frameDuration: nat, frameCount: nat): (t: nat)
    ensures frameCount + 2 < U32_MODULUS ==> t == frameDuration * (frameCount + 2)
  {
    frameDuration * ((frameCount + 2) % U32_MODULUS)
  }

  /** The pacing sleep: only when limited, and only while the designated time is still ahead. */
  function SleepFor(isLimited: bool, designated: nat, elapsed: nat): (sleep: nat)
    ensures !isLimited ==> sleep == 0
    ensures isLimited ==> elapsed + sleep == if designated > elapsed then designated else elapsed
  {
    if isLimited && designated > elapsed then designated - elapsed else 0
  }

  /** The fields of an `FpsCounter`, as a value. */
  datatype CounterState = CounterState(
    targetFps: nat,
    frameDuration: nat,
    frameCount: nat,
    lastFrameTime: int,
    lastFpsUpdate: int,
    slots: seq<nat>,
    lastIndex: nat,
    deltaTime: nat)
  {
    /** Five slots, a write index inside them, and the frame period of the target rate. */
    predicate Valid()
    {
      && targetFps > 0
      && frameDuration == FrameDuration(targetFps)
      && |slots| == SLOTS
      && lastIndex < SLOTS
    }
  }

  /** `FpsCounter::new(target_fps)` at clock reading `now`. */
  function Init(targetFps: nat, now: int): (c: CounterState)
    requires targetFps > 0
    ensures c.Valid()
    ensures c.targetFps == targetFps && c.frameCount == 0 && c.lastIndex == 0 && c.deltaTime == 0
    ensures c.lastFrameTime == now && c.lastFpsUpdate == now
    ensures forall j :: 0 <= j < SLOTS ==> c.slots[j] == 0
  {
    CounterState(targetFps, FrameDuration(targetFps), 0, now, now, [0, 0, 0, 0, 0], 0, 0)
  }

  /** One call of `frame(is_limited)` at clock reading `now`: the new state and the sleep.
    * The window test uses the elapsed time read before the sleep. */
  function Step(c: CounterState, isLimited: bool, now: int): (r: (CounterState, nat))
    requires c.Valid()
    ensures r.0.Valid()
    ensures r.0.targetFps == c.targetFps && r.0.frameDuration == c.frameDuration
    ensures r.0.deltaTime == Since(now, c.lastFrameTime)
    ensures r.1 == SleepFor(isLimited, DesignatedTime(c.frameDuration, c.frameCount), Since(now, c.lastFpsUpdate))
    ensures r.0.lastFrameTime == now + r.1
    ensures isLimited && now >= c.lastFpsUpdate ==>
      r.0.lastFrameTime >= c.lastFpsUpdate + DesignatedTime(c.frameDuration, c.frameCount)
    ensures Since(now, c.lastFpsUpdate) < NANOS_PER_SEC ==>
      && r.0.frameCount == c.frameCount + 1
      && r.0.slots == c.slots
      && r.0.lastIndex == c.lastIndex
      && r.0.lastFpsUpdate == c.lastFpsUpdate
    ensures Since(now, c.lastFpsUpdate) >= NANOS_PER_SEC ==>
      && r.0.slots[c.lastIndex] == c.frameCount + 1
      && (forall j :: 0 <= j < SLOTS && j != c.lastIndex ==> r.0.slots[j] == c.slots[j])
      && r.0.lastIndex == (c.lastIndex + 1) % SLOTS
      && r.0.frameCount == 0
      && r.0.lastFpsUpdate == now + r.1
  {
    var elapsed := Since(now, c.lastFpsUpdate);
    var sleep := SleepFor(isLimited, DesignatedTime(c.frameDuration, c.frameCount), elapsed);
    var count := c.frameCount + 1;
    var next := c.(deltaTime := Since(now, c.lastFrameTime), lastFrameTime := now + sleep, frameCount := count);
    if elapsed >= NANOS_PER_SEC then
      (next.(slots := c.slots[c.lastIndex := count], lastIndex := (c.lastIndex + 1) % SLOTS,
             frameCount := 0, lastFpsUpdate := now + sleep), sleep)
    else
      (next, sleep)
  }

  /** `set_target_fps`: a new rate and frame period; counters, slots and index untouched. */
  function SetTarget(c: CounterState, targetFps: nat): (r: CounterState)
    requires c.Valid() && targetFps > 0
    ensures r.Valid() && r.targetFps == targetFps
    ensures r.frameCount == c.frameCount && r.slots == c.slots && r.lastIndex == c.lastIndex
    ensures r.lastFrameTime == c.lastFrameTime && r.lastFpsUpdate == c.lastFpsUpdate && r.deltaTime == c.deltaTime
  {
    c.(targetFps := targetFps, frameDuration := FrameDuration(targetFps))
  }

  function Sum(s: seq<nat>): nat
  {
    if s == [] then 0 else s[0] + Sum(s[1..])
  }

  lemma {:induction false} SumZero(s: seq<nat>)
    ensures Sum(s) == 0 <==> forall j :: 0 <= j < |s| ==> s[j] == 0
  {
    if s != [] {
      SumZero(s[1..]);
      assert forall j :: 1 <= j < |s| ==> s[j] == s[1..][j - 1];
    }
  }

  lemma SumOfFive(s: seq<nat>)
    requires |s| == 5
    ensures Sum(s) == s[0] + s[1] + s[2] + s[3] + s[4]
  {
    assert s[1..][1..] == s[2..] && s[2..][1..] == s[3..] && s[3..][1..] == s[4..] && s[4..][1..] == [];
    assert Sum(s[4..]) == s[4];
    assert Sum(s[3..]) == s[3] + s[4];
    assert Sum(s[2..]) == s[2] + s[3] + s[4];
    assert Sum(s[1..]) == s[1] + s[2] + s[3] + s[4];
  }

  /** `average_fps()`: the mean of the five slots, unfilled slots counting as zero. */
  function Average(c: CounterState): (r: real)
    requires c.Valid()
    ensures r >= 0.0
    ensures r == 0.0 <==> forall j :: 0 <= j < SLOTS ==> c.slots[j] == 0
  {
    SumZero(c.slots);
    Sum(c.slots) as real / SLOTS as real
  }

  /** Before any window closes the average is zero. */
  lemma InitialAverage(targetFps: nat, now: int)
    requires targetFps > 0
    ensures Average(Init(targetFps, now)) == 0.0
  {
  }

  // ---------------------------------------------------------------------------
  // Several frames
  // ---------------------------------------------------------------------------

  /** `frame(is_limited)` called once at each clock reading of `times`, in order. */
  function Run(c: CounterState, isLimited: bool, times: seq<int>): (r: CounterState)
    requires c.Valid()
    ensures r.Valid() && r.targetFps == c.targetFps
    decreases |times|
  {
    if times == [] then c else Run(Step(c, isLimited, times[0]).0, isLimited, times[1..])
  }

  /** How many of those calls closed a window. */
  function Closes(c: CounterState, isLimited: bool, times: seq<int>): nat
    requires c.Valid()
    decreases |times|
  {
    if times == [] then 0
    else
      (if Since(times[0], c.lastFpsUpdate) >= NANOS_PER_SEC then 1 else 0)
      + Closes(Step(c, isLimited, times[0]).0, isLimited, times[1..])
  }

  /** The write index advances by exactly one, modulo five, per closed window. */
  lemma {:induction false} IndexCountsWindows(c: CounterState, isLimited: bool, times: seq<int>)
    requires c.Valid()
    ensures Run(c, isLimited, times).lastIndex == (c.lastIndex + Closes(c, isLimited, times)) % SLOTS
    decreases |times|
  {
    if times != [] {
      var next := Step(c, isLimited, times[0]).0;
      IndexCountsWindows(next, isLimited, times[1..]);
    }
  }

  /** While every call falls inside the current window, frames are only counted:
    * the slots, the index and the window start stay as they were. */
  lemma {:induction false} RunWithinWindow(c: CounterState, isLimited: bool, times: seq<int>)
    requires c.Valid()
    requires forall t <- times :: Since(t, c.lastFpsUpdate) < NANOS_PER_SEC
    ensures var r := Run(c, isLimited, times);
      && r.frameCount == c.frameCount + |times|
      && r.slots == c.slots && r.lastIndex == c.lastIndex && r.lastFpsUpdate == c.lastFpsUpdate
    ensures Closes(c, isLimited, times) == 0
    decreases |times|
  {
    if times != [] {
      assert times[0] in times;
      assert forall t <- times[1..] :: t in times;
      RunWithinWindow(Step(c, isLimited, times[0]).0, isLimited, times[1..]);
    }
  }

  lemma {:induction false} RunAppend(c: CounterState, isLimited: bool, a: seq<int>, b: seq<int>)
    requires c.Valid()
    ensures Run(c, isLimited, a + b) == Run(Run(c, isLimited, a), isLimited, b)
    ensures Closes(c, isLimited, a + b) == Closes(c, isLimited, a) + Closes(Run(c, isLimited, a), isLimited, b)
    decreases |a|
  {
    if a == [] {
      assert a + b == b;
    } else {
      assert (a + b)[0] == a[0] && (a + b)[1..] == a[1..] + b;
      RunAppend(Step(c, isLimited, a[0]).0, isLimited, a[1..], b);
    }
  }

  /** The counts the window-closing calls of a run write into the slots, in order. */
  function Windows(c: CounterState, isLimited: bool, times: seq<int>): seq<nat>
    requires c.Valid()
    decreases |times|
  {
    if times == [] then []
    else
      (if Since(times[0], c.lastFpsUpdate) >= NANOS_PER_SEC then [c.frameCount + 1] else [])
      + Windows(Step(c, isLimited, times[0]).0, isLimited, times[1..])
  }

  /** One count is written per closed window. */
  lemma {:induction false} WindowsCount(c: CounterState, isLimited: bool, times: seq<int>)
    requires c.Valid()
    ensures |Windows(c, isLimited, times)| == Closes(c, isLimited, times)
    decreases |times|
  {
    if times != [] {
      WindowsCount(Step(c, isLimited, times[0]).0, isLimited, times[1..]);
    }
  }

  /** Five slots after writing `ws` one by one, starting at `index` and wrapping around. */
  function Ring(slots: seq<nat>, index: nat, ws: seq<nat>): (r: seq<nat>)
    requires |slots| == SLOTS && index < SLOTS
    ensures |r| == SLOTS
    decreases |ws|
  {
    if ws == [] then slots else Ring(slots[index := ws[0]], (index + 1) % SLOTS, ws[1..])
  }

  /** The last write of a ring lands `|ws|` places after the start. */
  lemma {:induction false} RingSnoc(slots: seq<nat>, index: nat, ws: seq<nat>, w: nat)
    requires |slots| == SLOTS && index < SLOTS
    ensures Ring(slots, index, ws + [w]) == Ring(slots, index, ws)[(index + |ws|) % SLOTS := w]
    decreases |ws|
  {
    if ws == [] {
      assert ([] + [w])[1..] == [];
    } else {
      assert (ws + [w])[0] == ws[0] && (ws + [w])[1..] == ws[1..] + [w];
      RingSnoc(slots[index := ws[0]], (index + 1) % SLOTS, ws[1..], w);
      assert ((index + 1) % SLOTS + |ws[1..]|) % SLOTS == (index + |ws|) % SLOTS;
    }
  }

  /** The slot holding the write `j + 1` places back, when the next write goes to `next`. */
  function Recent(next: nat, j: nat): nat
    requires j < SLOTS
  {
    (next + SLOTS - 1 - j) % SLOTS
  }

  /** The slot `j` places after `index`. */
  function Ahead(index: nat, j: nat): nat
  {
    (index + j) % SLOTS
  }

  lemma RingPositions(index: nat, n: nat, j: nat)
    requires index < SLOTS && j < SLOTS
    ensures Recent((index + n + 1) % SLOTS, 0) == Ahead(index, n)
    ensures 0 < j ==> Recent((index + n + 1) % SLOTS, j) == Recent(Ahead(index, n), j - 1) != Ahead(index, n)
    ensures n < j ==> Ahead(index, j) != Ahead(index, n)
  {
    var p := (index + n) % SLOTS;
    assert (index + n + 1) % SLOTS == (p + 1) % SLOTS;
  }

  /** A ring holds the last five values written, the newest just before the next write
    * position, and keeps the old value in every slot not yet reached. */
  lemma {:induction false} RingRecent(slots: seq<nat>, index: nat, ws: seq<nat>)
    requires |slots| == SLOTS && index < SLOTS
    ensures forall j :: 0 <= j < |ws| && j < SLOTS ==>
      Ring(slots, index, ws)[Recent(Ahead(index, |ws|), j)] == ws[|ws| - 1 - j]
    ensures forall j :: |ws| <= j < SLOTS ==>
      Ring(slots, index, ws)[Ahead(index, j)] == slots[Ahead(index, j)]
    decreases |ws|
  {
    if ws != [] {
      var n := |ws| - 1;
      var front, w := ws[..n], ws[n];
      assert ws == front + [w];
      RingRecent(slots, index, front);
      RingSnoc(slots, index, front, w);
      var before := Ring(slots, index, front);
      var after := Ring(slots, index, ws);
      assert after == before[Ahead(index, n) := w];
      forall j | 0 <= j < |ws| && j < SLOTS
        ensures after[Recent(Ahead(index, |ws|), j)] == ws[|ws| - 1 - j]
      {
        RingPositions(index, n, j);
        if j > 0 {
          assert before[Recent(Ahead(index, n), j - 1)] == front[n - 1 - (j - 1)];
        }
      }
      forall j | |ws| <= j < SLOTS
        ensures after[Ahead(index, j)] == slots[Ahead(index, j)]
      {
        RingPositions(index, n, j);
      }
    }
  }

  /** A run writes its window counts into the slots as a ring starting at the write index. */
  lemma {:induction false} RunWritesRing(c: CounterState, isLimited: bool, times: seq<int>)
    requires c.Valid()
    ensures Run(c, isLimited, times).slots == Ring(c.slots, c.lastIndex, Windows(c, isLimited, times))
    decreases |times|
  {
    if times != [] {
      var next := Step(c, isLimited, times[0]).0;
      var rest := Windows(next, isLimited, times[1..]);
      RunWritesRing(next, isLimited, times[1..]);
      if Since(times[0], c.lastFpsUpdate) >= NANOS_PER_SEC {
        var ws := [c.frameCount + 1] + rest;
        assert ws[0] == c.frameCount + 1 && ws[1..] == rest;
        assert next.slots == c.slots[c.lastIndex := c.frameCount + 1];
      } else {
        assert [] + rest == rest;
      }
    }
  }

  /** After any run the slots hold the counts of the last five closed windows: the j-th
    * newest sits j + 1 places before the write index, and slots the run has not reached
    * keep their earlier counts. */
  lemma RecentWindows(c: CounterState, isLimited: bool, times: seq<int>)
    requires c.Valid()
    ensures var r, ws := Run(c, isLimited, times), Windows(c, isLimited, times);
      && r.lastIndex == Ahead(c.lastIndex, |ws|)
      && (forall j :: 0 <= j < |ws| && j < SLOTS ==> r.slots[Recent(r.lastIndex, j)] == ws[|ws| - 1 - j])
      && (forall j :: |ws| <= j < SLOTS ==> r.slots[Ahead(c.lastIndex, j)] == c.slots[Ahead(c.lastIndex, j)])
  {
    WindowsCount(c, isLimited, times);
    IndexCountsWindows(c, isLimited, times);
    RunWritesRing(c, isLimited, times);
    RingRecent(c.slots, c.lastIndex, Windows(c, isLimited, times));
  }

  /** Clock readings `step`, `2 * step`, ..., `n * step`. */
  function Ticks(n: nat, step: nat): (ts: seq<int>)
    ensures |ts| == n && forall k :: 0 <= k < n ==> ts[k] == (k + 1) * step
  {
    seq(n, k => (k + 1) * step)
  }

  /** At 10 frames per second, 25 unpaced frames 40 ms apart starting from a counter made at
    * time 0: the 25th frame comes exactly one second in, so exactly one window closes,
    * holding 25 frames, and the average is 25 / 5. */
  lemma TenFpsScenario()
    ensures var c0 := Init(10, 0);
      var c := Run(c0, false, Ticks(25, 40_000_000));
      && Closes(c0, false, Ticks(25, 40_000_000)) == 1
      && c.slots == [25, 0, 0, 0, 0] && c.lastIndex == 1 && c.frameCount == 0
      && c.lastFpsUpdate == NANOS_PER_SEC
      && Average(c) == 5.0
  {
    var c0 := Init(10, 0);
    var ts := Ticks(25, 40_000_000);
    var first := ts[..24];
    assert ts == first + [NANOS_PER_SEC];
    FirstSecond(c0, first);
    RunAppend(c0, false, first, [NANOS_PER_SEC]);
    var mid := Run(c0, false, first);
    assert Run(c0, false, ts) == Run(mid, false, [NANOS_PER_SEC]);
    LastFrame(mid);
  }

  /** The first 24 frames of that scenario stay inside the first window. */
  lemma FirstSecond(c0: CounterState, first: seq<int>)
    requires c0 == Init(10, 0)
    requires |first| == 24 && forall k :: 0 <= k < 24 ==> first[k] == (k + 1) * 40_000_000
    ensures var mid := Run(c0, false, first);
      mid.frameCount == 24 && mid.slots == c0.slots && mid.lastIndex == 0 && mid.lastFpsUpdate == 0
    ensures Closes(c0, false, first) == 0
  {
    forall t <- first
      ensures Since(t, c0.lastFpsUpdate) < NANOS_PER_SEC
    {
      var k :| 0 <= k < 24 && first[k] == t;
    }
    RunWithinWindow(c0, false, first);
  }

  /** The 25th frame, one second in, closes the window with 25 frames. */
  lemma LastFrame(mid: CounterState)
    requires mid.Valid()
    requires mid.frameCount == 24 && mid.slots == [0, 0, 0, 0, 0] && mid.lastIndex == 0 && mid.lastFpsUpdate == 0
    ensures var c := Run(mid, false, [NANOS_PER_SEC]);
      c.slots == [25, 0, 0, 0, 0] && c.lastIndex == 1 && c.frameCount == 0 && c.lastFpsUpdate == NANOS_PER_SEC
      && Average(c) == 5.0
    ensures Closes(mid, false, [NANOS_PER_SEC]) == 1
  {
    var c := Step(mid, false, NANOS_PER_SEC).0;
    assert [NANOS_PER_SEC][1..] == [];
    assert Run(mid, false, [NANOS_PER_SEC]) == c;
    SumOfFive(c.slots);
  }

  // ---------------------------------------------------------------------------
  // The counter object
  // ---------------------------------------------------------------------------

  /** `FpsCounter`: its fields, with the five per-second counts in an array written in place. */
  class FpsCounter {
    var targetFps: nat
    var frameDuration: nat
    var frameCount: nat
    var lastFrameTime: int
    var lastFpsUpdate: int
    const averageFps: array<nat>
    var lastIndex: nat
    var deltaTime: nat

    function State(): CounterState
      reads this, averageFps
    {
      CounterState(targetFps, frameDuration, frameCount, lastFrameTime, lastFpsUpdate,
                   averageFps[..], lastIndex, deltaTime)
    }

    ghost predicate Valid()
      reads this, averageFps
    {
      averageFps.Length == SLOTS && State().Valid()
    }

    /** `FpsCounter::new(target_fps)`; both start instants are `now`. */
    constructor (targetFps: nat, now: int)
      requires targetFps > 0
      ensures Valid() && fresh(averageFps)
      ensures State() == Init(targetFps, now)
    {
      this.targetFps := targetFps;
      frameDuration := FrameDuration(targetFps);
      frameCount := 0;
      lastFrameTime := now;
      lastFpsUpdate := now;
      averageFps := new nat[SLOTS](_ => 0);
      lastIndex := 0;
      deltaTime := 0;
      new;
      assert averageFps[..] == [0, 0, 0, 0, 0];
    }

    /** `frame(is_limited)` at clock reading `now`; returns the pacing sleep. */
    method Frame(isLimited: bool, now: int) returns (sleep: nat)
      requires Valid()
      modifies this, averageFps
      ensures Valid()
      ensures (State(), sleep) == Step(old(State()), isLimited, now)
    {
      deltaTime := Since(now, lastFrameTime);
      var designated := DesignatedTime(frameDuration, frameCount);
      var elapsed := Since(now, lastFpsUpdate);
      sleep := 0;
      if isLimited && designated > elapsed {
        sleep := designated - elapsed;
      }
      lastFrameTime := now + sleep;
      frameCount := frameCount + 1;
      if elapsed >= NANOS_PER_SEC {
        averageFps[lastIndex] := frameCount;
        lastIndex := (lastIndex + 1) % averageFps.Length;
        frameCount := 0;
        lastFpsUpdate := now + sleep;
      }
    }

    /** `set_target_fps`. */
    method SetTargetFps(targetFps: nat)
      requires Valid() && targetFps > 0
      modifies this
      ensures Valid()
      ensures State() == SetTarget(old(State()), targetFps)
    {
      this.targetFps := targetFps;
      frameDuration := FrameDuration(targetFps);
    }

    /** `average_fps()`. */
    function AverageFps(): (r: real)
      reads this, averageFps
      requires Valid()
      ensures r == Average(State())
    {
      // the fold adds each slot divided by the slot count
      SumOfFive(averageFps[..]);
      var n := SLOTS as real;
      averageFps[0] as real / n + averageFps[1] as real / n + averageFps[2] as real / n
        + averageFps[3] as real / n + averageFps[4] as real / n
    }

    /** `delta_time()`. */
    function DeltaTime(): (d: nat)
      reads this
    {
      deltaTime
    }
  }
}
