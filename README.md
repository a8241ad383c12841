# Particle simulator — verified model

This project is a Dafny model of the particle simulator, which comes in two variants.

- **Networked simulator** (`Simulator/src`):
  - Particles bounce inside a canvas.
  - They are spread over a growing pool of partitions, each advanced by its own worker.
  - An adaptive manager (`ThreadController`) decides when to add a partition and rebalances the particles into it.
  - A server broadcasts one-line text records of particles and explorers. It sends a record only when it differs from the last one sent for that id.
  - Remote clients parse those records and steer their own explorer with key commands.
- **Single-window simulator** (`src`): the same bouncing particles in one list, with a simpler frame counter.

The model keeps the source's own form:

- Objects whose fields change become classes. Their methods are proved against pure specification functions:
  - `Step` for one particle or explorer update;
  - `Tick` for one frame-counter update;
  - `Diff` for one broadcaster pass;
  - `Decode` for one client line;
  - `RebalanceOf`, `LeastLoaded` and `Record` for the partition manager.
- The properties the source promises are proved about those functions:
  - bounds;
  - the reflection and clamping rules;
  - conservation of particles across a rebalance;
  - the 20-entry window;
  - idempotent change detection;
  - the server-record to client-update round trip.

Modules:

- `Kinematics`: the `Motion` value and `(int)` truncation.
- `SimBall`, `SimExplorer`, `SimController`: `Simulator/src/Ball.java`, `Explorer.java`, `Controller.java`.
- `SimThreadController`: the partition manager, `Simulator/src/ThreadController.java`.
- `SimFps`: `Simulator/src/FPS.java`.
- `JavaText`: Java's `String.split` for a literal two-character separator.
  - It keeps leading empty pieces and drops trailing ones.
  - It returns the whole input when the separator does not occur.
- `SimServer`: `Simulator/src/Main.java` (records, `getDelta*Data`, `ClientHandler`).
- `SimClient`: `Simulator/src/ExplorerClient.java` (`handleServerMessage`).
- `ClassicBall`, `ClassicController`, `ClassicFps`: the `src` variant.
- `BallVariants`: how the two particle variants relate.

## Model

| member | source | states |
|---|---|---|
| Kinematics.Trunc | Simulator/src/ExplorerClient.java:79 | the `(int)` cast of a coordinate is within 1 of it and no farther from 0 |
| SimBall.Step | Simulator/src/Ball.java:14-29 | the moved x is ≤ 5 or ≥ width−5 exactly when vx is negated, else vx is kept (same for y); \|vx\|, \|vy\| unchanged; 5 ≤ x ≤ width−5 and 5 ≤ y ≤ height−5 once the canvas is ≥ 10; strictly inside the band the move is kept; at an edge the coordinate is pinned there |
| SimBall.AxesIndependent | Simulator/src/Ball.java:19-28 | the y result does not depend on x, vx or the width, and vice versa |
| SimBall.Ball.constructor | Simulator/src/Ball.java:7-12 | a ball starts at the given integer position with the given velocity and id |
| SimBall.Ball.Update | Simulator/src/Ball.java:14-29 | the new state is `Step` of the old state |
| SimExplorer.Step | Simulator/src/Explorer.java:17-25 | velocity never changes; x ≤ width−10 and y ≤ height−10 always, ≥ 0 once the canvas is ≥ 10; an on-canvas move is kept, otherwise clamped to the nearer limit |
| SimExplorer.Explorer.constructor | Simulator/src/Explorer.java:9-15 | a new explorer stands still at (x, y) |
| SimExplorer.Explorer.Update | Simulator/src/Explorer.java:17-25 | the new state is `Step` of the old state |
| SimExplorer.Explorer.SetVelocity | Simulator/src/Explorer.java:32-35 | sets exactly vx and vy |
| SimExplorer.Explorer.SetPosition | Simulator/src/Explorer.java:37-40 | sets exactly x and y |
| SimController.Controller.constructor | Simulator/src/Controller.java:6-8 | no particles and no explorer |
| SimController.Controller.AddParticleAt | Simulator/src/Controller.java:10-13 | appends one fresh ball with the given id, position and velocity; earlier particles untouched |
| SimController.Controller.AddParticle | Simulator/src/Controller.java:15-17 | the list becomes the old list plus the ball at the end |
| SimController.Controller.AddExplorer | Simulator/src/Controller.java:19-22 | any old explorer is replaced by a fresh one standing still at (x, y); particles untouched |
| SimController.Controller.UpdateParticles | Simulator/src/Controller.java:28-35 | every particle advances by exactly one `SimBall.Step`, then the explorer (if any) by one `SimExplorer.Step`; the list is unchanged |
| SimController.Controller.ClearParticles | Simulator/src/Controller.java:59-62 | the list is empty and the explorer is null |
| SimController.InView | Simulator/src/Controller.java:66 | the viewport test is the closed rectangle viewLeft ≤ x ≤ viewRight, viewTop ≤ y ≤ viewBottom |
| SimController.Controller.DrawParticlesInView | Simulator/src/Controller.java:64-73 | a particle is drawn iff it is in the list and viewLeft ≤ x ≤ viewRight and viewTop ≤ y ≤ viewBottom |
| SimFps.Tick | Simulator/src/FPS.java:12-20 | lastTime moves iff a second has elapsed, and then by exactly 10⁹ ns; on that tick fps is the frame count including this frame and frames resets to 0; otherwise fps is kept and frames grows by 1 |
| SimFps.RunLastTime | Simulator/src/FPS.java:7-18 | over any run lastTime never decreases and stays its start plus a multiple of 10⁹ |
| SimFps.RunQuiet | Simulator/src/FPS.java:14-19 | while no second has elapsed every update only adds one frame |
| SimFps.FpsCountsFrames | Simulator/src/FPS.java:12-20 | after a reset, the fps reported at the next full second is the number of updates since then |
| SimFps.Fps.constructor | Simulator/src/FPS.java:6-10 | starts at the given clock with no frame and fps 0 |
| SimFps.Fps.Update | Simulator/src/FPS.java:12-20 | the new state is `Tick` of the old state at the given clock |
| SimFps.Fps.GetFps | Simulator/src/FPS.java:22-24 | returns the current fps |
| SimThreadController.Members | Simulator/src/ThreadController.java:213-256 | the union of the partitions has as many particles as the partition sizes add up to |
| SimThreadController.AllParticles | Simulator/src/ThreadController.java:133-139 | `getParticles` returns exactly the union of the partitions |
| SimThreadController.MembersInsert | Simulator/src/ThreadController.java:241-243 | appending a ball to one partition adds exactly that ball to the union |
| SimThreadController.LeastLoaded | Simulator/src/ThreadController.java:70-72 | the partition picked is no larger than any other and strictly smaller than every earlier one (the first minimum) |
| SimThreadController.Share | Simulator/src/ThreadController.java:151 | a partition never gives away more than it holds |
| SimThreadController.DonationConserves | Simulator/src/ThreadController.java:149-156 | what the partitions keep plus what they give away is exactly what they held |
| SimThreadController.RebalanceConserves | Simulator/src/ThreadController.java:145-159 | a rebalance keeps every particle exactly once: same union, same total |
| SimThreadController.ThreadController.PopShares | Simulator/src/ThreadController.java:149-156 | every partition gives up its share from the front and keeps the rest; the particles returned are exactly the donations |
| SimThreadController.MembersConcat | Simulator/src/ThreadController.java:133-139 | the union of two runs of partitions is the sum of their unions |
| SimThreadController.RebalanceAppend | Simulator/src/ThreadController.java:158 | appending one partition holding the donations to the trimmed partitions is a rebalance |
| SimThreadController.PopItems | Simulator/src/ThreadController.java:161-169 | pops min(\|list\|, k) items (none for k ≤ 0) from the front, in order; popped + rest is the original list |
| SimThreadController.Quot | Simulator/src/ThreadController.java:176 | `long` division truncates toward zero: the quotient's magnitude is the largest whose product with the divisor does not exceed the dividend's, with the dividend's sign |
| SimThreadController.MeanBounds | Simulator/src/ThreadController.java:183 | the truncated rolling average lies between the smallest and largest sample |
| SimThreadController.Record | Simulator/src/ThreadController.java:178-181 | the sample becomes the newest entry; below 20 entries nothing is evicted, from 20 entries on exactly the oldest is; the window never exceeds 20 |
| SimThreadController.ThreadController.constructor | Simulator/src/ThreadController.java:8-25 | no partitions, count 0, empty history, not paused |
| SimThreadController.ThreadController.SetCanvasSize | Simulator/src/ThreadController.java:27-31 | records the size and appends one empty partition; the watermark becomes the particle count |
| SimThreadController.ThreadController.AddProcessor | Simulator/src/ThreadController.java:33-45 | appends one partition holding the given particles; the watermark becomes the particle count |
| SimThreadController.ThreadController.ShouldAddThread | Simulator/src/ThreadController.java:53-65 | false on an empty history, else true exactly when the latest average exceeds the rolling average, the pool is below the core count and the count grew by 10% since the watermark |
| SimThreadController.ThreadController.CheckAndAdjustThread | Simulator/src/ThreadController.java:47-51 | rebalances into one more partition exactly when the gate is open, else changes nothing; growth never passes the core count; the counter invariant is kept |
| SimThreadController.ThreadController.RedistributeParticles | Simulator/src/ThreadController.java:145-159 | with P partitions each gives size/(P+1) from its front to one new partition holding exactly those; the watermark becomes the count; the total is unchanged |
| SimThreadController.ThreadController.AddParticle | Simulator/src/ThreadController.java:67-75 | the count grows by 1 even when there is no partition (then it fails and nothing else changes); otherwise the ball is appended to the least-loaded partition and nothing else changes |
| SimThreadController.ThreadController.AddParticleAt | Simulator/src/ThreadController.java:77-86 | as `AddParticle` for a fresh ball with the given id, position and velocity |
| SimThreadController.ThreadController.AddParticlesWithUniformDistance | Simulator/src/ThreadController.java:88-97 | adds exactly max(n, 0) particles, or fails on the first when there is no partition |
| SimThreadController.Offset | Simulator/src/ThreadController.java:89-94 | the i-th offset `(int) (i * ((b - a) / (double) (n - 1)))` with the step read over the reals: 0 for the first particle, exactly b − a for the last, and between 0 and b − a for every one in between, so each particle lies on the segment |
| SimThreadController.Interpolate | Simulator/src/ThreadController.java:100-112 | `start + i * delta` with delta = (end − start) / (n − 1), read over the reals: start for the first particle, end for the last, and between the two for every one in between; with n ≤ 1 it is start |
| SimThreadController.ThreadController.AddParticlesWithUniformAngle | Simulator/src/ThreadController.java:99-106 | adds exactly max(n, 0) particles, or fails on the first when there is no partition |
| SimThreadController.ThreadController.AddParticlesWithUniformVelocity | Simulator/src/ThreadController.java:108-115 | adds exactly max(n, 0) particles, or fails on the first when there is no partition |
| SimThreadController.ThreadController.UpdateParticles | Simulator/src/ThreadController.java:117-121 | while paused nothing runs; otherwise every partition runs once and records its duration; membership never changes |
| SimThreadController.ThreadController.PauseParticles | Simulator/src/ThreadController.java:199-201 | sets the pause flag |
| SimThreadController.ThreadController.ResumeParticles | Simulator/src/ThreadController.java:203-206 | clears the flag and every partition runs once |
| SimThreadController.ThreadController.UpdateProcessingTimes | Simulator/src/ThreadController.java:171-184 | records the truncated mean of the last run durations in the window and sets the rolling average to the window's truncated mean; fails without a partition, changing nothing |
| SimThreadController.ThreadController.ClearParticles | Simulator/src/ThreadController.java:208-211 | every partition is emptied, the pool keeps its size, the count is 0 |
| JavaText.Split | Simulator/src/ExplorerClient.java:62 | `split` returns the whole text when the separator does not occur in it, and no piece it returns contains the separator |
| JavaText.IndexOf | Simulator/src/ExplorerClient.java:62 | the separator's leftmost occurrence, or -1 when it occurs nowhere |
| JavaText.DropTrailingEmpty | Simulator/src/ExplorerClient.java:62 | a prefix of the pieces that ends in a non-empty piece, only empty pieces removed |
| JavaText.PiecesJoin | Simulator/src/ExplorerClient.java:67 | cutting a joined text at the separator gives the pieces back |
| JavaText.SplitJoin | Simulator/src/ExplorerClient.java:67 | `split` undoes a join of separator-free pieces whose last piece is non-empty |
| JavaText.SplitDropsTrailingEmpty | Simulator/src/ExplorerClient.java:62 | a join ending in an empty piece splits into fewer pieces |
| SimServer.ParticleRecord | Simulator/src/Main.java:108 | the particle record: tag PARTICLE, then id, x, y, vx and vy, the numbers as `show` writes them |
| SimServer.ExplorerRecord | Simulator/src/Main.java:96 | the explorer record: tag EXPLORER, then id, x and y |
| SimServer.ControlledExplorerRecord | Simulator/src/Main.java:192 | the record naming a client's explorer: tag CONTROLLED_EXPLORER, then the id |
| SimServer.ParticleLayout | Simulator/src/Main.java:108 | the particle record is the tag PARTICLE, `": "`, and id, x, y, vx, vy joined by `", "` |
| SimServer.ExplorerLayout | Simulator/src/Main.java:96 | the explorer record is the tag EXPLORER, `": "`, and id, x, y joined by `", "` |
| SimServer.ControlledLayout | Simulator/src/Main.java:192 | the assignment record is the tag CONTROLLED_EXPLORER, `": "`, and the id |
| SimServer.Diff | Simulator/src/Main.java:105-115 | the last-sent map gains exactly the ids seen and keeps the record of every id not seen; at most one record per entity |
| SimServer.DiffLastWins | Simulator/src/Main.java:109-111 | after a pass each id holds the record of its last occurrence |
| SimServer.DiffSendsChanged | Simulator/src/Main.java:109-112 | with distinct ids the records sent are exactly those differing from the map before the pass, in order |
| SimServer.DiffStable | Simulator/src/Main.java:105-115 | a pass over records the map already holds sends nothing and changes nothing |
| SimServer.DiffIdempotent | Simulator/src/Main.java:105-115 | a second pass over unchanged entities sends nothing |
| SimServer.Server.constructor | Simulator/src/Main.java:21-22 | both last-sent maps start empty |
| SimServer.Server.GetDeltaParticleData | Simulator/src/Main.java:105-115 | returns and stores exactly one `Diff` pass over the particles' records |
| SimServer.Server.GetDeltaExplorerData | Simulator/src/Main.java:92-103 | returns and stores exactly one `Diff` pass over the explorers' records |
| SimServer.CommandVelocity | Simulator/src/Main.java:171-189 | exactly the five commands set a velocity, each along one axis by at most 5; only STOP_MOVE stops |
| SimServer.CommandDirection | Simulator/src/Main.java:173-186 | away from the edges, MOVE_UP/DOWN/LEFT/RIGHT move the explorer 5 px that way and STOP_MOVE holds it |
| SimServer.ClientHandler.constructor | Simulator/src/Main.java:137-144 | each client gets a fresh stationary explorer at (640, 360) |
| SimServer.ClientHandler.HandleClientMessage | Simulator/src/Main.java:171-189 | a command sets the velocity `CommandVelocity` gives; any other text changes nothing |
| SimClient.Decode | Simulator/src/ExplorerClient.java:59-84 | a line that does not split into exactly two parts is ignored; a two-part line tagged CONTROLLED_EXPLORER names the explorer given by its second part; any other two-part line is split into fields: an EXPLORER line with three fields places that explorer, any line with five fields places a particle with its position cut to whole pixels, every other field count is ignored; the result is `Malformed` exactly when a used line has a numeric field that does not parse |
| SimClient.ExplorerClient.constructor | Simulator/src/ExplorerClient.java:20-22 | no explorers, no particles, no controlled id |
| SimClient.ExplorerClient.HandleServerMessage | Simulator/src/ExplorerClient.java:59-84 | applies `Decode`: sets the controlled id, puts a stationary explorer, or puts a particle at the truncated position; an unparsable number fails with nothing stored |
| SimClient.ExplorerClient.GetControlledExplorer | Simulator/src/ExplorerClient.java:86-88 | as written: a `NullPointerException` exactly when no id has been received yet; otherwise the explorer stored under the id, if there is one |
| SimClient.ExplorerClient.ControlledExplorer | Simulator/src/ExplorerClient.java:86-88 | as intended by the renderer's null test: the explorer stored under the controlled id when both exist, nothing otherwise |
| SimClient.FreshClientLookup | Simulator/src/ExplorerClient.java:22 | on a freshly built client the lookup as written throws while the intended one reports no explorer |
| SimClient.LookupsAgreeOnceNamed | Simulator/src/ExplorerClient.java:64-65 | once an id has been received, the two lookups find the same explorer |
| SimClient.SplitTag | Simulator/src/ExplorerClient.java:62 | a tag and a non-empty body joined by `": "` split back into exactly those two parts |
| SimClient.SplitRecord | Simulator/src/ExplorerClient.java:62-67 | a tag + `": "` + fields joined by `", "` splits back into the tag and exactly those fields |
| SimClient.FiveFieldsPlaceParticle | Simulator/src/ExplorerClient.java:73-80 | any five-field line not tagged CONTROLLED_EXPLORER places a particle, whatever its tag |
| SimClient.ParticleRoundTrip | Simulator/src/ExplorerClient.java:73-79 | a particle record the server sends is read back as that particle, position truncated |
| SimClient.ExplorerRoundTrip | Simulator/src/ExplorerClient.java:68-72 | an explorer record the server sends is read back as that explorer's position |
| SimClient.ControlledRoundTrip | Simulator/src/ExplorerClient.java:64-65 | the controlled-explorer record is read back as its id when the id is non-empty |
| SimClient.ControlledEmptyIdIgnored | Simulator/src/ExplorerClient.java:62-63 | with an empty id that record splits into one part and is ignored |
| ClassicBall.Step | src/Ball.java:13-32 | 5 ≤ x ≤ width−5 once the canvas is ≥ 10; moved x ≤ 5 pins to 5 and flips vx, else moved x ≥ width−5 pins to width−5 and flips vx; strictly inside, the move and vx are kept; each component flips at most once (same for y) |
| ClassicBall.AxesIndependent | src/Ball.java:17-31 | the y result does not depend on x, vx or the width, and vice versa |
| ClassicBall.Ball.constructor | src/Ball.java:6-11 | a ball starts at the given integer position with the given velocity |
| ClassicBall.Ball.Update | src/Ball.java:13-32 | the new state is `Step` of the old state |
| BallVariants.VariantsAgree | Simulator/src/Ball.java:19-28 | on every canvas at least 10 wide and high the two particle variants compute the same update |
| BallVariants.VariantsDifferOnNarrowCanvas | src/Ball.java:17-23 | on an 8-wide canvas they differ: one pins to width−5, the other to 5 |
| ClassicController.Controller.constructor | src/Controller.java:5-6 | the list starts empty |
| ClassicController.Controller.AddParticleAt | src/Controller.java:8-10 | appends one fresh ball with the given position and velocity; earlier particles untouched |
| ClassicController.Controller.AddParticle | src/Controller.java:12-14 | the list becomes the old list plus the ball at the end |
| ClassicController.Controller.UpdateParticles | src/Controller.java:16-20 | every ball advances by exactly one `ClassicBall.Step`; the list is unchanged |
| ClassicController.Controller.GetParticles | src/Controller.java:22-24 | returns the controller's own list |
| ClassicController.Controller.ClearParticles | src/Controller.java:31-33 | the list is empty |
| ClassicFps.Tick | src/FPS.java:12-23 | after 500 ms fps becomes twice the frame count including this frame, frames reset and the check time becomes now; otherwise only frames grows by 1; fps stays even and non-negative |
| ClassicFps.RunValid | src/FPS.java:6-23 | over any run fps stays even and non-negative |
| ClassicFps.RunQuiet | src/FPS.java:12-23 | within the window every update only adds one frame |
| ClassicFps.Fps.constructor | src/FPS.java:6-10 | starts at the given clock with no frame and fps 0 |
| ClassicFps.Fps.Update | src/FPS.java:12-23 | the new state is `Tick` of the old state at the given clock |
| ClassicFps.Fps.GetFps | src/FPS.java:25-27 | returns the current fps |

## Findings

| source | as written | input that shows it | evidently intended | confidence | as-written member | corrected member |
|---|---|---|---|---|---|---|
| Simulator/src/ExplorerClient.java:86-88 | `explorers.get(controlledExplorerId)` on a `ConcurrentHashMap`, whose `get` throws `NullPointerException` for a null key | a freshly built client, whose `controlledExplorerId` is still null (line 22), painted before the server's `CONTROLLED_EXPLORER` line arrives | report no explorer, as the caller's null test at lines 162-164 expects | likely; not executed | SimClient.ExplorerClient.GetControlledExplorer (shown by SimClient.FreshClientLookup) | SimClient.ExplorerClient.ControlledExplorer |

## Left out

- Concurrency is not modelled: the fork-join pool, parallel streams, copy-on-write lists, thread pre-warming, and the server, client and broadcaster threads. Every operation runs sequentially.
- The random order of a parallel gather is not fixed. `RebalanceOf` states the new partition's contents as a multiset.
- Dispatching a partition is modelled as recording its run duration. The durations and `Runtime.availableProcessors()` are inputs, because they come from the wall clock and the machine.
- A partition's run also advances its balls. That step is modelled by `SimController.Controller.UpdateParticles`; the partition manager keeps partitions as values and tracks only membership and durations.
- The clocks (`System.nanoTime`, `System.currentTimeMillis`) are parameters of the frame counters.
- UUIDs, `Math.cos`/`Math.sin`, `Double.toString` and `Double.parseDouble` are parameters: `id`, `ids`, `polar`, `show` and `parse`.
- `double` is modelled as `real`, so rounding, infinities and NaN are not captured.
- `long` and `int` are modelled as unbounded integers, so overflow of the counters and sums is not captured.
- All drawing, the Swing and AWT interfaces, sockets, `broadcast`, `sendMessage`, the initial explorer burst to a new client, `getAllParticleDataWithIds` and the bootstrap `src/Main.java` are not part of this model.
- SimThreadController.SignificantIncrease: reads `particleSize >= watermark * 1.10` over the rationals as 10·p ≥ 11·w. The source's `double` product first differs at w = 50, p = 55: 50 * 1.10 evaluates to 55.00000000000001, so the source's gate stays closed where the model's opens.
- SimThreadController.ThreadController.AddParticlesWithUniformDistance: positions use real arithmetic. With n = 1 the source divides by zero and multiplies by an infinite or NaN step; the model takes offset 0.
- SimThreadController.Offset: reads the step `(b - a) / (double) (n - 1)` over the reals, so the last offset is exactly b − a. The source's rounded step can leave the last particle 1 px short: for a = 0, b = 1, n = 50, `49 * (1 / 49.0)` is 0.9999999999999999 and `(int)` of it is 0, so the last particle lands on a.
- SimThreadController.Interpolate: reads the step over the reals, so the last value is exactly `end`. In the source `start + (n - 1) * delta` can miss `end` by a rounding error.
- SimThreadController.ThreadController.AddParticlesWithUniformAngle: with n = 1 the source divides by zero, so the step is NaN when the end angle equals the start and ±Infinity otherwise; the angle, 0 times that step, is NaN either way. The model takes the start angle.
- SimThreadController.ThreadController.AddParticlesWithUniformVelocity: with n = 1 the source divides by zero, so the step is NaN when the end speed equals the start and ±Infinity otherwise; the speed, 0 times that step, is NaN either way. The model takes the start speed.
- SimThreadController.ThreadController.AddParticle: the source increments `particleSize` before it finds there is no partition and throws. The model follows the code: the counter ends one above the partition total, so after a failed call the counter no longer equals the partition total.
- SimThreadController.ThreadController.AddProcessor: the source hands the new partition to the executor at once, and that run advances its balls a second time in the same cycle and sets its `lastProcessingTime`. The model leaves the new partition's balls untouched and its duration at 0.
- SimController.Controller.UpdateParticles: per-ball results are stated only for balls that occur once in the list. A ball listed twice is advanced twice in the source.
- ClassicController.Controller.UpdateParticles: per-ball results are stated only for balls that occur once in the list, for the same reason.
- ClassicController.Controller.GetParticles: returns the list's current value. The sharing of the live list object with the caller is not modelled.
- SimServer.ClientHandler.constructor: the source also calls `simulationPanel.addExplorer(explorer)`, registering the new explorer with the simulation's window. That belongs to the window, which is not part of this model, and the window class as published does not define `addExplorer`.
- SimClient.ExplorerClient.HandleServerMessage: the maps store each explorer's and particle's state as a value, not as `Explorer`/`Ball` objects.
- SimClient.ExplorerClient.HandleServerMessage: a `NumberFormatException` is modelled as the `false` result with nothing stored. In the source that exception also ends the receiving loop.
- Kinematics.Trunc: models `(int)` truncation toward zero without Java's saturation at the `int` range.
- SimServer.Server.GetDeltaParticleData: takes the particle sequence as a parameter. In the source it is `getParticles()`, which `SimThreadController.AllParticles` models.
