/** The frame counter of the explorer client (Simulator/src/FPS.java). The nanosecond clock
    `System.nanoTime()` is passed in as `now`. */
module SimFps {

  /** One second in nanoseconds. */
  const Second: int := 1_000_000_000

  datatype Counter = Counter(lastTime: int, frames: int, fps: real)

  predicate Valid(c: Counter)
  {
    c.frames >= 0 && c.fps >= 0.0
  }

  /** One `update()` at clock reading `now`. */
  function Tick(c: Counter, now: int): (r: Counter)
    // the window start moves by exactly one second or not at all, never to `now`
    ensures r.lastTime == c.lastTime || r.lastTime == c.lastTime + Second
    ensures r.lastTime != c.lastTime <==> now - c.lastTime >= Second
    // when a second has passed, fps is the frame count including this frame and counting restarts
    ensures now - c.lastTime >= Second ==> r.fps == (c.frames + 1) as real && r.frames == 0
    // otherwise only the frame count moves, by one
    ensures now - c.lastTime < Second ==> r.fps == c.fps && r.frames == c.frames + 1
    ensures Valid(c) ==> Valid(r)
  {
    var frames := c.frames + 1;
    if now - c.lastTime >= Second then Counter(c.lastTime + Second, 0, frames as real)
    else c.(frames := frames)
  }

  /** `update()` called at each of the clock readings in `times`, in order. */
  function Run(c: Counter, times: seq<int>): Counter
  {
    if times == [] then c else Tick(Run(c, times[..|times| - 1]), times[|times| - 1])
  }

  /** `lastTime` never decreases and always lies a whole number of seconds after its start. */
  lemma {:induction false} RunLastTime(c: Counter, times: seq<int>)
    ensures Run(c, times).lastTime >= c.lastTime
    ensures (Run(c, times).lastTime - c.lastTime) % Second == 0
  {
    if times != [] {
      RunLastTime(c, times[..|times| - 1]);
      var d := Run(c, times[..|times| - 1]).lastTime - c.lastTime;
      assert d % Second == 0 && (d + Second) % Second == 0;
    }
  }

  /** Within one second of the window start, each update adds exactly one frame and nothing else
      changes. */
  lemma {:induction false} RunQuiet(c: Counter, times: seq<int>)
    requires forall i :: 0 <= i < |times| ==> times[i] - c.lastTime < Second
    ensures Run(c, times) == c.(frames := c.frames + |times|)
  {
    if times != [] {
      RunQuiet(c, times[..|times| - 1]);
    }
  }

  /** After a reset, the next reported fps is the number of updates since that reset, the one
      that crosses the second included. */
  lemma FpsCountsFrames(c: Counter, times: seq<int>, now: int)
    requires c.frames == 0
    requires forall i :: 0 <= i < |times| ==> times[i] - c.lastTime < Second
    requires now - c.lastTime >= Second
    ensures Run(c, times + [now]) == Counter(c.lastTime + Second, 0, (|times| + 1) as real)
  {
    assert (times + [now])[..|times|] == times;
    RunQuiet(c, times);
  }

  class Fps {
    var lastTime: int
    var frames: int
    var fps: real

    constructor (now: int)
      ensures State() == Counter(now, 0, 0.0) && Valid(State())
    {
      lastTime := now;
      frames := 0;
      fps := 0.0;
    }

    function State(): Counter
      reads this
    {
      Counter(lastTime, frames, fps)
    }

    method Update(now: int)
      modifies this
      ensures State() == Tick(old(State()), now)
    {
      frames := frames + 1;
      if now - lastTime >= Second {
        fps := frames as real;
        frames := 0;
        lastTime := lastTime + Second;
      }
    }

    method GetFps() returns (r: real)
      ensures r == fps
    {
      r := fps;
    }
  }
}
