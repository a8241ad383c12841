/** The frame counter of the single-window simulator (src/FPS.java). The millisecond clock
    `System.currentTimeMillis()` is passed in as `now`. */
module ClassicFps {

  /** Half a second in milliseconds: the counter reports twice per second. */
  const Window: int := 500

  datatype Counter = Counter(lastTimeCheck: int, frameCount: int, fps: int)

  /** fps is a doubled frame count, so never negative and always even. */
  predicate Valid(c: Counter)
  {
    c.frameCount >= 0 && c.fps >= 0 && c.fps % 2 == 0
  }

  /** One `update()` at clock reading `now`. */
  function Tick(c: Counter, now: int): (r: Counter)
    // at least half a second elapsed: report twice the frames of the window, this one included
    ensures now - c.lastTimeCheck >= Window ==> r == Counter(now, 0, 2 * (c.frameCount + 1))
    // otherwise only the frame count moves, by one
    ensures now - c.lastTimeCheck < Window ==>
      r.fps == c.fps && r.lastTimeCheck == c.lastTimeCheck && r.frameCount == c.frameCount + 1
    ensures Valid(c) ==> Valid(r)
  {
    var elapsed := now - c.lastTimeCheck;
    var frameCount := c.frameCount + 1;
    if elapsed >= Window then Counter(now, 0, frameCount * 2) else c.(frameCount := frameCount)
  }

  /** `update()` called at each of the clock readings in `times`, in order. */
  function Run(c: Counter, times: seq<int>): Counter
  {
    if times == [] then c else Tick(Run(c, times[..|times| - 1]), times[|times| - 1])
  }

  /** fps stays even and non-negative over any run from a valid counter. */
  lemma {:induction false} RunValid(c: Counter, times: seq<int>)
    requires Valid(c)
    ensures Valid(Run(c, times))
  {
    if times != [] {
      RunValid(c, times[..|times| - 1]);
    }
  }

  /** With the clock inside the window, updates only count frames. */
  lemma {:induction false} RunQuiet(c: Counter, times: seq<int>)
    requires forall i :: 0 <= i < |times| ==> times[i] - c.lastTimeCheck < Window
    ensures Run(c, times) == c.(frameCount := c.frameCount + |times|)
  {
    if times != [] {
      RunQuiet(c, times[..|times| - 1]);
    }
  }

  class Fps {
    var lastTimeCheck: int
    var frameCount: int
    var fps: int

    constructor (now: int)
      ensures State() == Counter(now, 0, 0) && Valid(State())
    {
      lastTimeCheck := now;
      frameCount := 0;
      fps := 0;
    }

    function State(): Counter
      reads this
    {
      Counter(lastTimeCheck, frameCount, fps)
    }

    method Update(now: int)
      modifies this
      ensures State() == Tick(old(State()), now)
    {
      var elapsedTime := now - lastTimeCheck;
      frameCount := frameCount + 1;
      if elapsedTime >= Window {
        fps := frameCount * 2;
        frameCount := 0;
        lastTimeCheck := now;
      }
    }

    method GetFps() returns (r: int)
      ensures r == fps
    {
      r := fps;
    }
  }
}
