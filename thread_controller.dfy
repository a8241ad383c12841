/** The adaptive partition manager of the networked simulator (Simulator/src/ThreadController.java).
    It owns an append-only list of partitions, a global particle counter that mirrors the sum of
    the partition sizes, a rolling window of per-cycle average processing times, and the particle
    count at the last growth (the watermark). Work dispatch to the thread pool is modelled as one
    sequential step. */
module SimThreadController {
  import opened Kinematics
  import SimBall

  type Ball = SimBall.Ball

  /** Capacity of the rolling window of average processing times. */
  const HistorySize: int := 20

  /** A `ParticleProcessor`: the canvas size it was created with, the particles its controller
      owns, and the duration of its last run. */
  datatype Processor = Processor(canvasWidth: int, canvasHeight: int, particles: seq<Ball>, lastProcessingTime: int)

  /** Sum of the partition sizes. */
  function Count(ps: seq<Processor>): nat
  {
    if ps == [] then 0 else Count(ps[..|ps| - 1]) + |ps[|ps| - 1].particles|
  }

  /** All particles of all partitions, with multiplicity. */
  function Members(ps: seq<Processor>): (m: multiset<Ball>)
    ensures |m| == Count(ps)
  {
    if ps == [] then multiset{} else Members(ps[..|ps| - 1]) + multiset(ps[|ps| - 1].particles)
  }

  /** The union of two runs of partitions is the sum of their unions. */
  lemma {:induction false} MembersConcat(a: seq<Processor>, b: seq<Processor>)
    ensures Members(a + b) == Members(a) + Members(b)
  {
    if b == [] {
      assert a + b == a;
    } else {
      var n := |b| - 1;
      assert (a + b)[..|a + b| - 1] == a + b[..n];
      MembersConcat(a, b[..n]);
    }
  }

  /** Appending a particle to one partition adds exactly that particle to the union. */
  lemma MembersInsert(ps: seq<Processor>, k: int, b: Ball)
    requires 0 <= k < |ps|
    ensures Members(ps[k := ps[k].(particles := ps[k].particles + [b])]) == Members(ps) + multiset{b}
  {
    var p := ps[k].(particles := ps[k].particles + [b]);
    var qs := ps[k := p];
    assert ps == ps[..k] + [ps[k]] + ps[k + 1..];
    assert qs == ps[..k] + [p] + ps[k + 1..];
    MembersConcat(ps[..k] + [ps[k]], ps[k + 1..]);
    MembersConcat(ps[..k], [ps[k]]);
    MembersConcat(ps[..k] + [p], ps[k + 1..]);
    MembersConcat(ps[..k], [p]);
    assert [p][..0] == [] && [ps[k]][..0] == [];
  }

  /** Partitions holding the same particles hold the same union, whatever else differs. */
  lemma {:induction false} MembersSameParticles(ps: seq<Processor>, qs: seq<Processor>)
    requires |ps| == |qs|
    requires forall i :: 0 <= i < |ps| ==> ps[i].particles == qs[i].particles
    ensures Members(ps) == Members(qs)
  {
    if ps != [] {
      MembersSameParticles(ps[..|ps| - 1], qs[..|qs| - 1]);
    }
  }

  /** A pool whose partitions are all empty holds no particle. */
  lemma {:induction false} CountEmptied(ps: seq<Processor>)
    requires forall i :: 0 <= i < |ps| ==> ps[i].particles == []
    ensures Count(ps) == 0
  {
    if ps != [] {
      CountEmptied(ps[..|ps| - 1]);
    }
  }

  /** `getParticles`: the particles of all partitions, concatenated in partition order. */
  function AllParticles(ps: seq<Processor>): (r: seq<Ball>)
    ensures multiset(r) == Members(ps)
  {
    if ps == [] then [] else AllParticles(ps[..|ps| - 1]) + ps[|ps| - 1].particles
  }

  /** The partition `Stream.min` picks: a smallest one, the earliest among equals
      (the stream keeps its current candidate unless a later one is strictly smaller). */
  function LeastLoaded(ps: seq<Processor>): (k: nat)
    requires |ps| > 0
    ensures k < |ps|
    ensures forall j :: 0 <= j < |ps| ==> |ps[k].particles| <= |ps[j].particles|
    ensures forall j :: 0 <= j < k ==> |ps[j].particles| > |ps[k].particles|
  {
    if |ps| == 1 then 0
    else
      var k := LeastLoaded(ps[..|ps| - 1]);
      if |ps[k].particles| <= |ps[|ps| - 1].particles| then k else |ps| - 1
  }

  /** How many particles a partition gives away when the pool grows to `parts` partitions. */
  function Share(p: Processor, parts: int): (n: nat)
    requires parts > 0
    ensures n <= |p.particles|
  {
    QuotientAtMost(|p.particles|, parts);
    |p.particles| / parts
  }

  lemma QuotientAtMost(a: nat, d: int)
    requires d > 0
    ensures 0 <= a / d <= a
  {
    DivisionFacts(a, d);
    MulMonotone(a / d, 1, d);
  }

  /** Euclidean division by a positive divisor, as multiplication facts. */
  lemma DivisionFacts(a: int, d: int)
    requires d > 0
    ensures a == d * (a / d) + a % d && 0 <= a % d < d
    ensures a >= 0 ==> a / d >= 0
  {
  }

  lemma MulMonotone(n: int, a: int, b: int)
    requires n >= 0 && a <= b
    ensures n * a <= n * b
  {
  }

  /** `s / n` lies in [lo, hi] when `s` lies in [n * lo, n * hi]. */
  lemma FloorBounds(s: int, n: int, lo: int, hi: int)
    requires n > 0 && n * lo <= s <= n * hi
    ensures lo <= s / n <= hi
  {
    var q := s / n;
    DivisionFacts(s, n);
    assert n * (q + 1) == n * q + n;
    MulCancel(n, lo, q + 1);
    MulCancel(n, q, hi + 1);
  }

  lemma MulCancel(n: int, a: int, b: int)
    requires n > 0 && n * a < n * b
    ensures a < b
  {
    if a >= b {
      MulMonotone(n, b, a);
    }
  }

  /** The partitions after each gave away its share from the front. */
  function Kept(ps: seq<Processor>, parts: int): seq<Processor>
    requires parts > 0
  {
    seq(|ps|, i requires 0 <= i < |ps| => ps[i].(particles := ps[i].particles[Share(ps[i], parts)..]))
  }

  /** The particles given away: every partition's share, taken from its front. */
  function Donated(ps: seq<Processor>, parts: int): multiset<Ball>
    requires parts > 0
  {
    if ps == [] then multiset{}
    else
      var last := ps[|ps| - 1];
      Donated(ps[..|ps| - 1], parts) + multiset(last.particles[..Share(last, parts)])
  }

  /** Giving away shares neither loses nor duplicates a particle. */
  lemma {:induction false} DonationConserves(ps: seq<Processor>, parts: int)
    requires parts > 0
    ensures Members(Kept(ps, parts)) + Donated(ps, parts) == Members(ps)
  {
    if ps != [] {
      var n := |ps| - 1;
      var kept := Kept(ps, parts);
      KeptPrefix(ps, parts);
      assert Members(kept) == Members(Kept(ps[..n], parts)) + multiset(kept[n].particles);
      DonationConserves(ps[..n], parts);
      var s := ps[n].particles;
      var sh := Share(ps[n], parts);
      assert s == s[..sh] + s[sh..];
      assert multiset(s) == multiset(s[..sh]) + multiset(kept[n].particles);
      assert Donated(ps, parts) == Donated(ps[..n], parts) + multiset(s[..sh]);
      assert Members(ps) == Members(ps[..n]) + multiset(s);
    }
  }

  /** Trimming all but the last partition is trimming the prefix. */
  lemma KeptPrefix(ps: seq<Processor>, parts: int)
    requires parts > 0 && |ps| > 0
    ensures Kept(ps, parts)[..|ps| - 1] == Kept(ps[..|ps| - 1], parts)
  {
  }

  /** `after` is `before` grown by one partition that holds exactly the donated particles, each
      old partition having given away `size / (|before| + 1)` particles from its front. The order
      inside the new partition is left open: the source gathers it from a parallel stream. */
  ghost predicate RebalanceOf(before: seq<Processor>, after: seq<Processor>, width: int, height: int)
  {
    var p := |before|;
    |after| == p + 1 &&
    after[..p] == Kept(before, p + 1) &&
    after[p].canvasWidth == width && after[p].canvasHeight == height &&
    after[p].lastProcessingTime == 0 &&
    multiset(after[p].particles) == Donated(before, p + 1)
  }

  /** A rebalance keeps every particle, once: the union of the partitions is unchanged. */
  lemma RebalanceConserves(before: seq<Processor>, after: seq<Processor>, width: int, height: int)
    requires RebalanceOf(before, after, width, height)
    ensures Members(after) == Members(before)
    ensures Count(after) == Count(before)
  {
    var p := |before|;
    assert after[..p] == Kept(before, p + 1);
    DonationConserves(before, p + 1);
  }

  /** Appending the donations to the partitions that gave them completes a rebalance. */
  lemma RebalanceAppend(before: seq<Processor>, donated: seq<Ball>, width: int, height: int)
    requires multiset(donated) == Donated(before, |before| + 1)
    ensures RebalanceOf(before, Kept(before, |before| + 1) + [Processor(width, height, donated, 0)], width, height)
    ensures Count(Kept(before, |before| + 1) + [Processor(width, height, donated, 0)]) == Count(before)
  {
    var kept := Kept(before, |before| + 1);
    var after := kept + [Processor(width, height, donated, 0)];
    assert after[..|before|] == kept;
    RebalanceConserves(before, after, width, height);
  }

  /** The donations of a prefix of the partitions grow by one partition's share at a time. */
  lemma DonatedPrefix(ps: seq<Processor>, parts: int, i: int)
    requires parts > 0 && 0 <= i < |ps|
    ensures Donated(ps[..i + 1], parts) == Donated(ps[..i], parts) + multiset(ps[i].particles[..Share(ps[i], parts)])
  {
    assert ps[..i + 1][..i] == ps[..i];
  }

  /** Trimming one more partition extends the trimmed prefix. */
  lemma KeptStep(before: seq<Processor>, parts: int, prev: seq<Processor>, i: int, rest: seq<Ball>)
    requires parts > 0 && 0 <= i < |before| == |prev|
    requires prev[..i] == Kept(before, parts)[..i] && prev[i..] == before[i..]
    requires rest == before[i].particles[Share(before[i], parts)..]
    ensures var now := prev[i := prev[i].(particles := rest)];
      now[..i + 1] == Kept(before, parts)[..i + 1] && now[i + 1..] == before[i + 1..]
  {
    var kept := Kept(before, parts);
    var now := prev[i := prev[i].(particles := rest)];
    assert prev[i] == before[i];
    assert now[..i + 1] == now[..i] + [now[i]];
    assert kept[..i + 1] == kept[..i] + [kept[i]];
    assert now[..i] == prev[..i];
  }

  /** A list cut into a front of length k and the rest: the front is the first k items. */
  lemma FrontSplit(list: seq<Ball>, k: int, front: seq<Ball>, rest: seq<Ball>)
    requires 0 <= k <= |list| && |front| == k && front + rest == list
    ensures front == list[..k] && rest == list[k..]
  {
  }

  /** `popItems`: removes `min(|list|, k)` particles from the front (none when k <= 0) and returns
      them in order; `rest` is the list left behind. */
  method PopItems(list: seq<Ball>, numberOfItemsToPop: int) returns (popped: seq<Ball>, rest: seq<Ball>)
    ensures |popped| == if numberOfItemsToPop <= 0 then 0
                        else if numberOfItemsToPop < |list| then numberOfItemsToPop else |list|
    ensures popped + rest == list
  {
    popped, rest := [], list;
    var size := |list|;
    var endIndex := if size < numberOfItemsToPop then size else numberOfItemsToPop;
    var i := 0;
    while i < endIndex
      invariant 0 <= i <= if endIndex < 0 then 0 else endIndex
      invariant |popped| == i && popped + rest == list
    {
      popped := popped + [rest[0]];
      rest := rest[1..];
      i := i + 1;
    }
  }

  /** Sum of the last run durations of the partitions. */
  function TotalTime(ps: seq<Processor>): int
  {
    if ps == [] then 0 else TotalTime(ps[..|ps| - 1]) + ps[|ps| - 1].lastProcessingTime
  }

  function Sum(h: seq<int>): int
  {
    if h == [] then 0 else Sum(h[..|h| - 1]) + h[|h| - 1]
  }

  /** Java's integer division of `long`s: truncation toward zero. */
  function Quot(a: int, b: int): (q: int)
    requires b > 0
    ensures a >= 0 ==> 0 <= q && q * b <= a < (q + 1) * b
    ensures a < 0 ==> q <= 0 && (q - 1) * b < a <= q * b
  {
    if a >= 0 then
      FloorBracket(a, b);
      a / b
    else
      FloorBracket(-a, b);
      -((-a) / b)
  }

  /** A non-negative dividend lies between two consecutive multiples of the divisor. */
  lemma FloorBracket(a: int, b: int)
    requires a >= 0 && b > 0
    ensures 0 <= a / b && (a / b) * b <= a < (a / b + 1) * b
    ensures (-(a / b) - 1) * b < -a <= -(a / b) * b
  {
    var q := a / b;
    DivisionFacts(a, b);
    assert (q + 1) * b == q * b + b;
    assert (-q - 1) * b == -(q * b) - b && -q * b == -(q * b);
  }

  /** The truncated mean of a non-empty window. */
  function Mean(h: seq<int>): int
    requires |h| > 0
  {
    Quot(Sum(h), |h|)
  }

  lemma {:induction false} SumBounds(h: seq<int>, lo: int, hi: int)
    requires forall i :: 0 <= i < |h| ==> lo <= h[i] <= hi
    ensures |h| * lo <= Sum(h) <= |h| * hi
  {
    if h != [] {
      SumBounds(h[..|h| - 1], lo, hi);
    }
  }

  lemma QuotBounds(s: int, n: int, lo: int, hi: int)
    requires n > 0 && n * lo <= s <= n * hi
    ensures lo <= Quot(s, n) <= hi
  {
    if s >= 0 {
      FloorBounds(s, n, lo, hi);
    } else {
      assert n * (-hi) == -(n * hi) && n * (-lo) == -(n * lo);
      FloorBounds(-s, n, -hi, -lo);
    }
  }

  /** The rolling average lies between the smallest and the largest sample in the window. */
  lemma MeanBounds(h: seq<int>, lo: int, hi: int)
    requires |h| > 0
    requires forall i :: 0 <= i < |h| ==> lo <= h[i] <= hi
    ensures lo <= Mean(h) <= hi
  {
    SumBounds(h, lo, hi);
    QuotBounds(Sum(h), |h|, lo, hi);
  }

  /** The window after recording `sample`: the sample is the newest entry, the oldest entry is
      evicted when the window would exceed its capacity. */
  function Record(h: seq<int>, sample: int): (r: seq<int>)
    ensures |r| > 0 && r[|r| - 1] == sample
    ensures |h| <= HistorySize ==> |r| <= HistorySize
    ensures |r| == |h| + 1 || |r| == |h|
    ensures r == (h + [sample])[|h| + 1 - |r|..]
    ensures |h| < HistorySize ==> r == h + [sample]
    ensures |h| >= HistorySize ==> r == h[1..] + [sample]
  {
    var h' := h + [sample];
    if |h'| > HistorySize then h'[1..] else h'
  }

  /** `particleSize >= watermark * 1.10`, read over the rationals. */
  predicate SignificantIncrease(particleSize: int, watermark: int)
  {
    10 * particleSize >= 11 * watermark
  }

  class ThreadController {
    var processors: seq<Processor>
    var canvasWidth: int
    var canvasHeight: int
    var particleSize: int
    var lastAverageProcessingTime: int
    var processingTimesHistory: seq<int>
    var lastParticleSizeAtThreadAddition: int
    var isPaused: bool

    /** The counter mirrors the partitions and the window respects its capacity. */
    ghost predicate Valid()
      reads this
    {
      Count(processors) == particleSize && |processingTimesHistory| <= HistorySize
    }

    /** No partition yet: `setCanvasSize` must run before any particle is added. */
    constructor ()
      ensures Valid()
      ensures processors == [] && particleSize == 0 && processingTimesHistory == []
      ensures lastAverageProcessingTime == 0 && lastParticleSizeAtThreadAddition == 0 && !isPaused
    {
      processors := [];
      canvasWidth, canvasHeight := 0, 0;
      particleSize := 0;
      lastAverageProcessingTime := 0;
      processingTimesHistory := [];
      lastParticleSizeAtThreadAddition := 0;
      isPaused := false;
    }

    /** Each call records the canvas size and appends one new, empty partition. */
    method SetCanvasSize(width: int, height: int)
      modifies this`canvasWidth, this`canvasHeight, this`processors, this`lastParticleSizeAtThreadAddition
      ensures canvasWidth == width && canvasHeight == height
      ensures processors == old(processors) + [Processor(width, height, [], 0)]
      ensures lastParticleSizeAtThreadAddition == particleSize
      ensures old(Valid()) ==> Valid()
    {
      canvasWidth := width;
      canvasHeight := height;
      AddProcessor([]);
    }

    /** Both `addProcessor` overloads: appends a partition holding `particles` (none for the
        no-argument one) and moves the watermark to the current particle count. */
    method AddProcessor(particles: seq<Ball>)
      modifies this`processors, this`lastParticleSizeAtThreadAddition
      ensures processors == old(processors) + [Processor(canvasWidth, canvasHeight, particles, 0)]
      ensures Count(processors) == old(Count(processors)) + |particles|
      ensures lastParticleSizeAtThreadAddition == particleSize
    {
      var processor := Processor(canvasWidth, canvasHeight, particles, 0);
      processors := processors + [processor];
      assert processors[..|processors| - 1] == old(processors);
      lastParticleSizeAtThreadAddition := particleSize;
    }

    /** The three-way growth gate: the latest cycle average is above the rolling average, the
        pool is below the hardware parallelism, and the particle count has grown by 10% since
        the last growth. False while no sample has been recorded. */
    predicate GrowthWarranted(availableProcessors: int)
      reads this
    {
      |processingTimesHistory| > 0 &&
      processingTimesHistory[|processingTimesHistory| - 1] > lastAverageProcessingTime &&
      |processors| < availableProcessors &&
      SignificantIncrease(particleSize, lastParticleSizeAtThreadAddition)
    }

    method ShouldAddThread(availableProcessors: int) returns (grow: bool)
      ensures grow == GrowthWarranted(availableProcessors)
      ensures processingTimesHistory == [] ==> !grow
    {
      if processingTimesHistory == [] {
        return false;
      }
      var currentAverageProcessingTime := processingTimesHistory[|processingTimesHistory| - 1];
      var processingTimeIncreasing := currentAverageProcessingTime > lastAverageProcessingTime;
      var significantParticleIncrease := SignificantIncrease(particleSize, lastParticleSizeAtThreadAddition);
      grow := processingTimeIncreasing && |processors| < availableProcessors && significantParticleIncrease;
    }

    /** Grows the pool by one rebalanced partition exactly when the gate is open; growth never
        takes the pool past the hardware parallelism. */
    method CheckAndAdjustThread(availableProcessors: int)
      modifies this`processors, this`lastParticleSizeAtThreadAddition
      ensures old(GrowthWarranted(availableProcessors)) ==>
        RebalanceOf(old(processors), processors, canvasWidth, canvasHeight) &&
        lastParticleSizeAtThreadAddition == particleSize
      ensures !old(GrowthWarranted(availableProcessors)) ==>
        processors == old(processors) &&
        lastParticleSizeAtThreadAddition == old(lastParticleSizeAtThreadAddition)
      ensures |processors| > |old(processors)| ==> |processors| <= availableProcessors
      ensures old(Valid()) ==> Valid()
    {
      var grow := ShouldAddThread(availableProcessors);
      if grow {
        RedistributeParticles();
      }
    }

    /** `redistributeParticles`, run sequentially: with P partitions, each gives away
        `size / (P + 1)` particles from its front into one new partition. */
    method RedistributeParticles()
      modifies this`processors, this`lastParticleSizeAtThreadAddition
      ensures RebalanceOf(old(processors), processors, canvasWidth, canvasHeight)
      ensures lastParticleSizeAtThreadAddition == particleSize
      ensures old(Valid()) ==> Valid()
    {
      ghost var before := processors;
      var processorSize := |processors|;
      var newParticles := PopShares(processorSize + 1);
      AddProcessor(newParticles);
      RebalanceAppend(before, newParticles, canvasWidth, canvasHeight);
    }

    /** The gathering loop of `redistributeParticles`: every partition gives `size / parts`
        particles from its front; the particles given are returned. */
    method PopShares(parts: int) returns (newParticles: seq<Ball>)
      requires parts > 0
      modifies this`processors
      ensures processors == Kept(old(processors), parts)
      ensures multiset(newParticles) == Donated(old(processors), parts)
    {
      ghost var before := processors;
      newParticles := [];
      var i := 0;
      while i < |processors|
        invariant 0 <= i <= |processors| == |before|
        invariant processors[..i] == Kept(before, parts)[..i] && processors[i..] == before[i..]
        invariant multiset(newParticles) == Donated(before[..i], parts)
      {
        var processor := processors[i];
        assert processor == before[i];
        var popCount := |processor.particles| / parts;
        assert popCount == Share(processor, parts);
        var particles, rest := PopItems(processor.particles, popCount);
        FrontSplit(processor.particles, popCount, particles, rest);
        DonatedPrefix(before, parts, i);
        KeptStep(before, parts, processors, i, rest);
        newParticles := newParticles + particles;
        processors := processors[i := processor.(particles := rest)];
        i := i + 1;
      }
      assert before[..i] == before;
      assert processors == processors[..i];
    }

    /** `addParticle(Ball)`: counts the particle, then appends it to the least-loaded partition.
        With no partition the source throws after counting; `ok` is false and the counter is then
        one above the partition total. */
    method AddParticle(particle: Ball) returns (ok: bool)
      modifies this`particleSize, this`processors
      ensures particleSize == old(particleSize) + 1
      ensures ok <==> old(processors) != []
      ensures !ok ==> processors == old(processors)
      ensures ok ==>
        var k := LeastLoaded(old(processors));
        processors == old(processors)[k := old(processors)[k].(particles := old(processors)[k].particles + [particle])]
      ensures ok ==> Members(processors) == Members(old(processors)) + multiset{particle}
      ensures ok && old(Valid()) ==> Valid()
    {
      particleSize := particleSize + 1;
      if processors == [] {
        return false;
      }
      var k := LeastLoaded(processors);
      var leastLoadedProcessor := processors[k];
      processors := processors[k := leastLoadedProcessor.(particles := leastLoadedProcessor.particles + [particle])];
      MembersInsert(old(processors), k, particle);
      ok := true;
    }

    /** `addParticle(x, y, angle, velocity)`: as `AddParticle` for a new ball; `id` is the UUID
        the source draws and (vx, vy) the `cos`/`sin` components of the velocity. */
    method AddParticleAt(id: string, x: int, y: int, vx: real, vy: real) returns (ok: bool)
      modifies this`particleSize, this`processors
      ensures particleSize == old(particleSize) + 1
      ensures ok <==> old(processors) != []
      ensures !ok ==> processors == old(processors)
      ensures ok ==>
        var k := LeastLoaded(old(processors));
        var before := old(processors)[k].particles;
        |processors| == |old(processors)| &&
        (forall j :: 0 <= j < |processors| && j != k ==> processors[j] == old(processors)[j]) &&
        processors[k] == old(processors)[k].(particles := processors[k].particles) &&
        |processors[k].particles| == |before| + 1 &&
        processors[k].particles[..|before|] == before &&
        fresh(processors[k].particles[|before|]) &&
        processors[k].particles[|before|].id == id &&
        processors[k].particles[|before|].State() == Motion(x as real, y as real, vx, vy)
      ensures ok ==> Count(processors) == old(Count(processors)) + 1
      ensures ok && old(Valid()) ==> Valid()
    {
      particleSize := particleSize + 1;
      if processors == [] {
        return false;
      }
      var k := LeastLoaded(processors);
      var particle := new SimBall.Ball(id, x, y, vx, vy);
      var leastLoadedProcessor := processors[k];
      processors := processors[k := leastLoadedProcessor.(particles := leastLoadedProcessor.particles + [particle])];
      MembersInsert(old(processors), k, particle);
      assert |Members(processors)| == |Members(old(processors))| + 1;
      assert processors[k].particles[..|leastLoadedProcessor.particles|] == leastLoadedProcessor.particles;
      ok := true;
    }

    /** Common contract of the three bulk generators: `addParticle` is called once per step,
        `n` times (none when n <= 0); with no partition the first call throws and ends the loop. */
    twostate predicate BulkAdded(n: int, ok: bool)
      reads this
    {
      (ok <==> (n <= 0 || old(processors) != [])) &&
      particleSize == old(particleSize) + (if n <= 0 then 0 else if ok then n else 1) &&
      |processors| == |old(processors)| &&
      Count(processors) == old(Count(processors)) + (if n > 0 && ok then n else 0) &&
      (ok && old(Valid()) ==> Valid())
    }

    /** `addParticlesWithUniformDistance`: the i-th particle at (x1 + ⌊i·dx⌋, y1 + ⌊i·dy⌋), all
        with the same heading; `ids(i)` is the UUID of the i-th particle and `polar(a, v)` stands
        for (cos(a)·v, sin(a)·v). */
    method AddParticlesWithUniformDistance(n: int, x1: int, y1: int, x2: int, y2: int, angle: real, velocity: real,
                                           ids: int -> string, polar: (real, real) -> (real, real))
      returns (ok: bool)
      modifies this`particleSize, this`processors
      ensures BulkAdded(n, ok)
    {
      ok := true;
      var i := 0;
      while i < n
        invariant 0 <= i <= if n <= 0 then 0 else n
        invariant ok && (i > 0 ==> old(processors) != [])
        invariant particleSize == old(particleSize) + i
        invariant |processors| == |old(processors)|
        invariant Count(processors) == old(Count(processors)) + i
        invariant old(Valid()) ==> Valid()
      {
        var x := x1 + Offset(i, n, x1, x2);
        var y := y1 + Offset(i, n, y1, y2);
        var (vx, vy) := polar(angle, velocity);
        ok := AddParticleAt(ids(i), x, y, vx, vy);
        if !ok {
          return;
        }
        i := i + 1;
      }
    }

    /** `addParticlesWithUniformAngle`: headings evenly spaced from `startTheta` to `endTheta`. */
    method AddParticlesWithUniformAngle(n: int, x: int, y: int, startTheta: real, endTheta: real, velocity: real,
                                        ids: int -> string, polar: (real, real) -> (real, real))
      returns (ok: bool)
      modifies this`particleSize, this`processors
      ensures BulkAdded(n, ok)
    {
      ok := true;
      var i := 0;
      while i < n
        invariant 0 <= i <= if n <= 0 then 0 else n
        invariant ok && (i > 0 ==> old(processors) != [])
        invariant particleSize == old(particleSize) + i
        invariant |processors| == |old(processors)|
        invariant Count(processors) == old(Count(processors)) + i
        invariant old(Valid()) ==> Valid()
      {
        var angle := Interpolate(i, n, startTheta, endTheta);
        var (vx, vy) := polar(angle, velocity);
        ok := AddParticleAt(ids(i), x, y, vx, vy);
        if !ok {
          return;
        }
        i := i + 1;
      }
    }

    /** `addParticlesWithUniformVelocity`: speeds evenly spaced from `startVelocity` to
        `endVelocity`. */
    method AddParticlesWithUniformVelocity(n: int, x: int, y: int, angle: real, startVelocity: real, endVelocity: real,
                                           ids: int -> string, polar: (real, real) -> (real, real))
      returns (ok: bool)
      modifies this`particleSize, this`processors
      ensures BulkAdded(n, ok)
    {
      ok := true;
      var i := 0;
      while i < n
        invariant 0 <= i <= if n <= 0 then 0 else n
        invariant ok && (i > 0 ==> old(processors) != [])
        invariant particleSize == old(particleSize) + i
        invariant |processors| == |old(processors)|
        invariant Count(processors) == old(Count(processors)) + i
        invariant old(Valid()) ==> Valid()
      {
        var velocity := Interpolate(i, n, startVelocity, endVelocity);
        var (vx, vy) := polar(angle, velocity);
        ok := AddParticleAt(ids(i), x, y, vx, vy);
        if !ok {
          return;
        }
        i := i + 1;
      }
    }

    /** `updateParticles`: unless paused, every partition runs once; a run leaves behind its
        duration, given here as `times` (one per partition, in order). */
    method UpdateParticles(times: seq<int>)
      requires |times| == |processors|
      modifies this`processors
      ensures isPaused ==> processors == old(processors)
      ensures !isPaused ==>
        |processors| == |old(processors)| &&
        forall j :: 0 <= j < |processors| ==> processors[j] == old(processors)[j].(lastProcessingTime := times[j])
      ensures Members(processors) == Members(old(processors))
    {
      if !isPaused {
        var i := 0;
        while i < |processors|
          invariant 0 <= i <= |processors| == |old(processors)|
          invariant forall j :: 0 <= j < i ==> processors[j] == old(processors)[j].(lastProcessingTime := times[j])
          invariant processors[i..] == old(processors)[i..]
        {
          var processor := processors[i];
          processors := processors[i := processor.(lastProcessingTime := times[i])];
          i := i + 1;
        }
      }
      MembersSameParticles(processors, old(processors));
    }

    method PauseParticles()
      modifies this`isPaused
      ensures isPaused
    {
      isPaused := true;
    }

    /** Clears the pause flag and dispatches one round at once. */
    method ResumeParticles(times: seq<int>)
      requires |times| == |processors|
      modifies this`isPaused, this`processors
      ensures !isPaused
      ensures |processors| == |old(processors)| &&
        forall j :: 0 <= j < |processors| ==> processors[j] == old(processors)[j].(lastProcessingTime := times[j])
    {
      isPaused := false;
      UpdateParticles(times);
    }

    /** `updateProcessingTimes`: records the mean last-run duration of the partitions in the
        window and recomputes the rolling average. With no partition the source divides by zero
        before changing anything; `ok` is then false. */
    method UpdateProcessingTimes() returns (ok: bool)
      modifies this`processingTimesHistory, this`lastAverageProcessingTime
      ensures ok <==> processors != []
      ensures !ok ==> processingTimesHistory == old(processingTimesHistory) &&
                      lastAverageProcessingTime == old(lastAverageProcessingTime)
      ensures ok ==>
        processingTimesHistory == Record(old(processingTimesHistory), Quot(TotalTime(processors), |processors|)) &&
        lastAverageProcessingTime == Mean(processingTimesHistory)
      ensures old(Valid()) ==> Valid()
    {
      if processors == [] {
        return false;
      }
      var totalProcessingTime := 0;
      var i := 0;
      while i < |processors|
        invariant 0 <= i <= |processors|
        invariant totalProcessingTime == TotalTime(processors[..i])
      {
        assert processors[..i + 1][..i] == processors[..i];
        totalProcessingTime := totalProcessingTime + processors[i].lastProcessingTime;
        i := i + 1;
      }
      assert processors[..i] == processors;
      var currentAverageProcessingTime := Quot(totalProcessingTime, |processors|);

      processingTimesHistory := processingTimesHistory + [currentAverageProcessingTime];
      if |processingTimesHistory| > HistorySize {
        processingTimesHistory := processingTimesHistory[1..];
      }

      lastAverageProcessingTime := Quot(Sum(processingTimesHistory), |processingTimesHistory|);
      ok := true;
    }

    /** Empties every partition and zeroes the counter; the pool keeps its size. */
    method ClearParticles()
      modifies this`processors, this`particleSize
      ensures |processors| == |old(processors)|
      ensures forall j :: 0 <= j < |processors| ==> processors[j] == old(processors)[j].(particles := [])
      ensures particleSize == 0 && Count(processors) == 0
      ensures old(Valid()) ==> Valid()
    {
      var i := 0;
      while i < |processors|
        invariant 0 <= i <= |processors| == |old(processors)|
        invariant forall j :: 0 <= j < i ==> processors[j] == old(processors)[j].(particles := [])
        invariant processors[i..] == old(processors)[i..]
      {
        processors := processors[i := processors[i].(particles := [])];
        i := i + 1;
      }
      CountEmptied(processors);
      particleSize := 0;
    }
  }

  /** The truncated offset `(int) (i * ((b - a) / (double) (n - 1)))` of the uniform-distance
      generator, read over the reals: the first particle sits at `a`, the last at `b`, and every
      one in between lies on the segment. With n == 1 only i == 0 occurs, where the source
      multiplies 0 by an infinite or NaN step; `(int)` of that NaN is 0. */
  function Offset(i: int, n: int, a: int, b: int): (r: int)
    ensures i == 0 ==> r == 0
    ensures n > 1 && i == n - 1 ==> r == b - a
    ensures n > 1 && 0 <= i < n ==>
      (a <= b ==> 0 <= r <= b - a) && (b <= a ==> b - a <= r <= 0)
  {
    if n <= 1 then 0
    else
      var t := i as real * ((b - a) as real / (n - 1) as real);
      if 0 <= i < n then
        StepWithin(i, n, (b - a) as real);
        Trunc(t)
      else Trunc(t)
  }

  /** `start + i * ((end - start) / (n - 1))`: the first value is `start`, the last is `end`, and
      every one in between lies between them. For n == 1 the source's step is not finite and the
      model takes `start`. */
  function Interpolate(i: int, n: int, start: real, end: real): (r: real)
    ensures i == 0 ==> r == start
    ensures n > 1 && i == n - 1 ==> r == end
    ensures n > 1 && 0 <= i < n ==> Min(start, end) <= r <= Max(start, end)
  {
    if n <= 1 then start
    else
      var t := i as real * ((end - start) / (n - 1) as real);
      if 0 <= i < n then
        StepWithin(i, n, end - start);
        start + t
      else start + t
  }

  /** The i-th of n evenly spaced steps across a span `d` lies between 0 and `d`, and the last
      one is `d` itself. */
  lemma StepWithin(i: int, n: int, d: real)
    requires 1 < n && 0 <= i < n
    ensures var t := i as real * (d / (n - 1) as real);
      (d >= 0.0 ==> 0.0 <= t <= d) && (d <= 0.0 ==> d <= t <= 0.0) && (i == n - 1 ==> t == d)
  {
    var s := d / (n - 1) as real;
    assert (n - 1) as real * s == d;
    assert (n - 1) as real * s - i as real * s == (n - 1 - i) as real * s;
    if d >= 0.0 {
      assert s >= 0.0;
      assert (n - 1 - i) as real * s >= 0.0;
    } else {
      assert s <= 0.0;
      assert (n - 1 - i) as real * s <= 0.0;
    }
  }
}
