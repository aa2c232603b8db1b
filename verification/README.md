# On-the-fly mean-squared-displacement tracker

A Dafny model of `OnTheFlyMSD`, the analysis object of the kinetic Monte Carlo
engine that follows particles of one element through a simulation. For each
followed particle it keeps a short, newest-first history of
(absolute position, time) samples. It also keeps a time histogram of summed
squared displacements. Each particle moved by an executed event

- gets its new absolute position: the newest recorded position plus its move
  vector;
- contributes (dx², dy², dz²) against each of its retained samples. The
  contribution goes to the bucket `floor(Δt / (t_max / n_bins))` for the
  elapsed time Δt;
- receives the new sample at the front of its buffer, which drops its oldest
  sample once it holds more than `history_steps`.

The behaviour is the one pinned down by the unit tests of
`c++/unittest/test_ontheflymsd.cpp`. Those tests cover:

- the constructor;
- `registerStep(time, configuration)`;
- the two read-outs `historyBuffer()` and `histogramBuffer()`. The model
  exposes them as the `history` and `histogram` fields of the tracker state.

Files:

- `coord.dfy` (module `Coordinates`): three-component real vectors, their sum
  and difference, the componentwise square.
- `history.dfy` (module `HistoryStore`): the bounded newest-first buffer: push
  with eviction, batch pushes, the retention law.
- `histogram.dfy` (module `TimeHistogram`): bucket arithmetic, one deposit, a
  batch of deposits, and conservation of the histogram's total.
- `tracker.dfy` (module `OnTheFlyMSD`): the tracker state and its invariant,
  construction, one move, one event (`RegisterStep`) and a run of events.
- `scenario.dfy` (modules `Axes`, `Scenarios`): the six-particle line of the
  stepping tests, along x, y and z, with the concrete outcomes the tests assert.

The moved particles of an event are given as an ordered list of
(particle id, unwrapped move vector) pairs. In the source, the configuration
object handed to `registerStep` supplies them.

## Model

| member | source | states |
|---|---|---|
| OnTheFlyMSD.Construct | c++/unittest/test_ontheflymsd.cpp:42-58 | The initial state satisfies the tracker invariant. Exactly the particles whose element equals the tracked type are followed. Each of them holds one sample, (initial position, t0). Every other particle's buffer is empty. All buckets are zero and the clock reads t0. |
| Scenarios.ConstructionSeeds | c++/unittest/test_ontheflymsd.cpp:21-58 | Two "AA" particles, at the origin and at (1, 2, 3), tracked with t0 = 1.23: each buffer's first sample is that particle's coordinate at 1.23. |
| HistoryStore.Push | c++/unittest/test_ontheflymsd.cpp:197-204 | The new sample is at the front and the old contents follow in order. The buffer grows by one until it reaches its capacity and then keeps its length. |
| HistoryStore.PushKeepsNewestFirst | c++/unittest/test_ontheflymsd.cpp:202-203 | A push of a sample no older than the current front keeps the buffer ordered newest first. |
| HistoryStore.PushAllKeepsNewest | c++/unittest/test_ontheflymsd.cpp:316-324 | After any number of pushes onto a buffer within capacity, it holds the newest `Min(n, capacity)` of the `n` samples it has seen, newest first. Those are the pushed ones reversed, then the original contents. |
| HistoryStore.PushAllAppend | c++/unittest/test_ontheflymsd.cpp:276-299 | Pushing two batches one after the other equals pushing their concatenation. |
| HistoryStore.RetainedCount | c++/unittest/test_ontheflymsd.cpp:310-312 | A buffer whose times come from pushing `moves` onto an earlier buffer holds `Min(|moves| + |before|, capacity)` samples. |
| HistoryStore.RetainedNewest | c++/unittest/test_ontheflymsd.cpp:316-324 | A buffer whose times come from pushing `moves` onto an earlier buffer holds, newest first, the pushed times reversed and then the earlier times, cut to `Min(|moves| + |before|, capacity)`. |
| HistoryStore.ReverseAppend | c++/unittest/test_ontheflymsd.cpp:316-324 | Reversing a concatenation is the concatenation of the reversed parts, swapped. |
| TimeHistogram.Scaled | c++/unittest/test_ontheflymsd.cpp:209 | The elapsed time measured in bucket widths, `delta_t / binsize`, is non-negative for a non-negative elapsed time. |
| TimeHistogram.ScaledBack | c++/unittest/test_ontheflymsd.cpp:209 | Multiplying the scaled elapsed time back by the bucket width gives the elapsed time. |
| OnTheFlyMSD.Params.BinSize | c++/unittest/test_ontheflymsd.cpp:208 | The bucket width `t_max / n_bins` is positive for valid parameters. |
| TimeHistogram.ScaledIntervals | c++/unittest/test_ontheflymsd.cpp:206-209 | On unscaled times, bucket k is the half-open interval [k·binsize, (k+1)·binsize), and the buckets end at n·binsize. |
| TimeHistogram.BinIndex | c++/unittest/test_ontheflymsd.cpp:207-209 | Truncating the non-negative scaled elapsed time gives a bucket whose interval contains it. |
| TimeHistogram.BinIndexUnique | c++/unittest/test_ontheflymsd.cpp:210-220 | No other bucket's interval contains that time: buckets do not overlap. |
| TimeHistogram.Zeroed | c++/unittest/test_ontheflymsd.cpp:210-220 | A fresh histogram has `n` buckets, all zero. |
| TimeHistogram.Deposit | c++/unittest/test_ontheflymsd.cpp:206-224 | The bucket whose interval contains the elapsed time gains (dx², dy², dz²). Every other bucket is unchanged. Nothing changes when the time lies at or beyond the window. |
| TimeHistogram.DepositTotal | c++/unittest/test_ontheflymsd.cpp:206-224 | Conservation: a deposit inside the window adds its squared displacement to the histogram's total exactly once, and one outside adds nothing. |
| TimeHistogram.TotalUpdate | c++/unittest/test_ontheflymsd.cpp:222-224 | Replacing one bucket changes the total by exactly the difference. |
| TimeHistogram.DepositAll | c++/unittest/test_ontheflymsd.cpp:210-220 | A batch of deposits keeps the bucket count and never lowers a bucket. A bucket that none of the batch's elapsed times falls into is left unchanged. |
| TimeHistogram.DepositAllBuckets | c++/unittest/test_ontheflymsd.cpp:206-224 | Bucket law for a batch: every bucket ends as its old value plus the squares of exactly those contributions whose elapsed time falls in its interval, each counted once. |
| TimeHistogram.DepositAllTotal | c++/unittest/test_ontheflymsd.cpp:206-224 | Conservation for a batch: the total grows by the squared displacement of every contribution inside the window, each counted once. |
| TimeHistogram.DepositOne | c++/unittest/test_ontheflymsd.cpp:206-224 | A batch of one contribution is a single deposit. |
| Coordinates.Square | c++/unittest/test_ontheflymsd.cpp:222-224 | The quantity deposited, (dx², dy², dz²), is non-negative in every component. |
| Coordinates.Add | c++/unittest/test_ontheflymsd.cpp:199-200 | Subtracting either operand from the sum gives back the other: the new position minus the old one is the move vector. |
| OnTheFlyMSD.BinsSpanTMax | c++/unittest/test_ontheflymsd.cpp:206-209 | n_bins buckets of width t_max / n_bins span exactly t_max. |
| OnTheFlyMSD.WindowEndsAtTMax | c++/unittest/test_ontheflymsd.cpp:206-209 | An elapsed time falls into some bucket exactly when it is below t_max. |
| OnTheFlyMSD.WindowContributions | c++/unittest/test_ontheflymsd.cpp:206-209 | One contribution per retained sample, each with a non-negative elapsed time. Contribution i's displacement takes sample i's position to the new position. It falls in bucket k exactly when the time elapsed since sample i lies in [k·binsize, (k+1)·binsize). |
| OnTheFlyMSD.WindowContributionsBin | c++/unittest/test_ontheflymsd.cpp:206-224 | The contributions of a window that fall in bucket k sum to the squared displacements of exactly the samples whose elapsed time lies in bucket k's interval. |
| OnTheFlyMSD.WindowContributionsSum | c++/unittest/test_ontheflymsd.cpp:206-224 | The in-window contributions of a window sum to the squared displacements of exactly those samples taken less than t_max before the event. |
| OnTheFlyMSD.ApplyMove | c++/unittest/test_ontheflymsd.cpp:189-204 | For a followed particle, the buffer becomes (old newest position + move, event time) followed by the old samples, cut to the history depth. Moves of particles that are not followed change nothing. No other buffer changes, buckets only grow, and the invariant is kept. |
| OnTheFlyMSD.ApplyMoveBuckets | c++/unittest/test_ontheflymsd.cpp:206-224 | Bucket law for one move: bucket k gains the squared displacement, from the new position, of exactly those retained samples taken between k·binsize and (k+1)·binsize before the event. |
| OnTheFlyMSD.ApplyMoveTotal | c++/unittest/test_ontheflymsd.cpp:206-224 | Conservation for one move: the histogram's total grows by the squared displacement, from the new position, of every retained sample less than t_max old. |
| OnTheFlyMSD.ApplyMoves | c++/unittest/test_ontheflymsd.cpp:189-190 | Applying one event's moves in order keeps the invariant. Particles not mentioned keep their buffers, and buckets only grow. |
| OnTheFlyMSD.FirstUnknown | c++/unittest/test_ontheflymsd.cpp:189-190 | Returns the position of the first move that names an unknown particle, or the list length when there is none. |
| OnTheFlyMSD.RegisterStep | c++/unittest/test_ontheflymsd.cpp:189-190 | An event is refused exactly when its time is earlier than the last one or it names an unknown particle. Otherwise it is accepted, the clock advances, and the invariant holds. Unmoved particles keep their buffers, unfollowed ones stay empty, and buckets only grow. |
| OnTheFlyMSD.AdvanceValid | c++/unittest/test_ontheflymsd.cpp:244-245 | Moving the clock forward keeps every buffer valid. |
| OnTheFlyMSD.UntrackedMovesIgnored | c++/unittest/test_ontheflymsd.cpp:268-271 | Moves of particles that are not followed have no effect: applying an event equals applying only its followed moves. |
| OnTheFlyMSD.TrackedMoves | c++/unittest/test_ontheflymsd.cpp:189-190 | A move is kept exactly when its particle is followed. |
| OnTheFlyMSD.SingleTrackedMove | c++/unittest/test_ontheflymsd.cpp:189-190 | An event with exactly one followed move is accepted and has that move's effect alone, made at the event's time. |
| OnTheFlyMSD.SeedOnlyMoveHistogram | c++/unittest/test_ontheflymsd.cpp:206-224 | Moving a particle that holds only its seed deposits exactly one contribution: its move vector over the time elapsed since the seed. |
| OnTheFlyMSD.OneEntryWindowBuffer | c++/unittest/test_ontheflymsd.cpp:189-204 | An event that moves one followed particle holding just its seed is accepted. The buffer becomes (seed position + move, event time) then the seed, newest first. |
| OnTheFlyMSD.OneEntryWindowHistogram | c++/unittest/test_ontheflymsd.cpp:206-224 | The same event's histogram is the old one plus one deposit, the move vector's square, at the time elapsed since the seed. |
| OnTheFlyMSD.Run | c++/unittest/test_ontheflymsd.cpp:276-299 | A run of events succeeds exactly when every event is well formed from the previous time on. The invariant, the followed set and the particle count are kept. |
| OnTheFlyMSD.WellFormedAppend | c++/unittest/test_ontheflymsd.cpp:276-299 | Well-formedness of concatenated event lists splits at the join. |
| OnTheFlyMSD.MoveTimesAppend | c++/unittest/test_ontheflymsd.cpp:276-299 | The move times of concatenated event lists are concatenated. |
| OnTheFlyMSD.ApplyMovesTimes | c++/unittest/test_ontheflymsd.cpp:189-204 | Within one event, a followed particle's buffer times are its old times with one copy of the event time pushed per move of that particle. |
| OnTheFlyMSD.RunTimes | c++/unittest/test_ontheflymsd.cpp:276-299 | Across a run, a followed particle's buffer times are its initial times with the times of all its moves pushed, oldest first. |
| OnTheFlyMSD.RunBufferSize | c++/unittest/test_ontheflymsd.cpp:310-312 | Capacity law: a followed particle ends with `Min(initial samples + moves, history_steps)` samples. |
| OnTheFlyMSD.RunKeepsNewest | c++/unittest/test_ontheflymsd.cpp:316-324 | Retention: a followed particle's buffer times are, newest first, its latest move times and then its initial times, cut to the history depth. |
| OnTheFlyMSD.MoveTimesInEmpty | c++/unittest/test_ontheflymsd.cpp:272 | A particle has no move times in an event exactly when no move of the event names it. |
| OnTheFlyMSD.RunUnmovedKeepsBuffer | c++/unittest/test_ontheflymsd.cpp:314 | A particle that no event moves keeps its buffer exactly. |
| OnTheFlyMSD.RunUntrackedStaysEmpty | c++/unittest/test_ontheflymsd.cpp:311-313 | A particle that is not followed never gains a sample, however often it moves. |
| Scenarios.SetupFollowsEvenParticles | c++/unittest/test_ontheflymsd.cpp:76-89 | On the six-particle line with particles 0, 2 and 4 of type "V", the tracker follows exactly {0, 2, 4}, each seeded with its position at 1.2. |
| Scenarios.FirstStepBucket | c++/unittest/test_ontheflymsd.cpp:206-209 | The bucket width is 0.05 and the first event's elapsed time, 4.3 - 1.2, falls in bucket 62. |
| Scenarios.FirstEventFiltered | c++/unittest/test_ontheflymsd.cpp:169-170 | Of the first event's moves (particle 2 by -u, particle 1 by +u), only particle 2's concerns a followed particle. |
| Scenarios.FirstStepBuffer | c++/unittest/test_ontheflymsd.cpp:189-204 | For any move vector u, the first event is accepted. Particle 2's buffer becomes [(2u - u, 4.3), (2u, 1.2)]. |
| Scenarios.FirstStepHistogram | c++/unittest/test_ontheflymsd.cpp:206-224 | For any move vector u, bucket 62 holds the square of -u and every other bucket is zero. |
| Scenarios.DepositIntoEmpty | c++/unittest/test_ontheflymsd.cpp:210-224 | Depositing at scaled time 62 into 200 zero buckets fills bucket 62 with the square and leaves every other bucket zero. |
| Scenarios.FirstStepX | c++/unittest/test_ontheflymsd.cpp:189-224 | Along x: buffer [((1,0,0), 4.3), ((2,0,0), 1.2)], bucket 62 holds (1, 0, 0), all others zero. |
| Scenarios.FirstStepY | c++/unittest/test_ontheflymsd.cpp:455-489 | Along y: buffer [((0,1,0), 4.3), ((0,2,0), 1.2)], bucket 62 holds (0, 1, 0), all others zero. |
| Scenarios.FirstStepZ | c++/unittest/test_ontheflymsd.cpp:719-753 | Along z: buffer [((0,0,1), 4.3), ((0,0,2), 1.2)], bucket 62 holds (0, 0, 1), all others zero. |
| Scenarios.RoundWellFormed | c++/unittest/test_ontheflymsd.cpp:288-299 | A swap and its reverse at increasing times are accepted. |
| Scenarios.SwapMoveTimes | c++/unittest/test_ontheflymsd.cpp:244-249 | A swap moves each of its two particles once, at the event time. |
| Scenarios.RoundMoveTimes | c++/unittest/test_ontheflymsd.cpp:288-299 | A round moves each of its two particles at both of its times. |
| Scenarios.TraceWellFormed | c++/unittest/test_ontheflymsd.cpp:276-299 | All twelve events of the series are accepted. Their times are non-decreasing and all six particles exist. |
| Scenarios.TraceMoveTimes | c++/unittest/test_ontheflymsd.cpp:276-299 | Across the series particle 0 moves at 10.6 and 11.9, particle 2 ten times from 4.3 to 37.9, and particle 4 never. |
| Scenarios.TraceAccepted | c++/unittest/test_ontheflymsd.cpp:276-299 | The whole series runs without error from the constructed tracker. |
| Scenarios.FirstRoundParticle2Size | c++/unittest/test_ontheflymsd.cpp:270 | After the first round, particle 2 holds 3 samples. |
| Scenarios.FirstRoundUnmovedKept | c++/unittest/test_ontheflymsd.cpp:268-272 | After the first round, particles 0 and 4 still hold only their seeds. |
| Scenarios.FirstRoundUnfollowedEmpty | c++/unittest/test_ontheflymsd.cpp:269-271 | After the first round, particles 1 and 3 are empty, although particle 1 moved twice. |
| Scenarios.TraceParticle0Size | c++/unittest/test_ontheflymsd.cpp:310 | After the series, particle 0 (moved twice) holds 3 samples. |
| Scenarios.TraceParticle2Size | c++/unittest/test_ontheflymsd.cpp:312 | After the series, particle 2 (moved ten times, depth 5) holds 5 samples. |
| Scenarios.TraceParticle4Kept | c++/unittest/test_ontheflymsd.cpp:314 | After the series, particle 4 (never moved) holds exactly its seed. |
| Scenarios.TraceUnfollowedEmpty | c++/unittest/test_ontheflymsd.cpp:311-313 | After the series, particles 1 and 3 are empty. |
| Scenarios.NewestFive | c++/unittest/test_ontheflymsd.cpp:316-324 | The newest five of particle 2's move times, newest first, are 37.9, 36.6, 31.4, 30.1, 24.9. |
| Scenarios.TraceNewestTimes | c++/unittest/test_ontheflymsd.cpp:316-324 | After the series, particle 2's buffer times are 37.9, 36.6, 31.4, 30.1, 24.9, newest first. |

## Left out

- The implementation file of `OnTheFlyMSD` is not part of this model. The
  model follows the behaviour its unit tests assert and, where the tests are
  silent, the update rule described at the top of this file.
- `Configuration`, `LatticeMap`, `Process`, match lists and the remapping of
  sites to atom ids are outside the tracker. The tracker receives their
  result as a list of (id, move vector) pairs. The move order of the first
  two events is the one the tests assert (lines 169-170 and 248-249). The
  same order is assumed for the later events, where the tests assert none.
- The assertions at lines 166-186 and 247-265 concern those collaborators,
  not the tracker.
- Periodic wrapping: move vectors arrive already unwrapped. Positions are
  absolute and never folded back into the cell.
- Floating point: times and coordinates are exact reals, and the tests' 1e-12
  tolerance does not appear. Bucket 62 in `Scenarios.FirstStepBucket`,
  `Scenarios.FirstStepHistogram` and `Scenarios.FirstStepX`/`Y`/`Z` is the
  exact-real bucket of 3.1 / 0.05. In IEEE-754 doubles, lines 207-209
  compute 4.3 - 1.2 = 3.0999999999999996, and dividing by 0.05 gives
  61.99999999999999, which truncates to 61. So the program deposits into
  bucket 61. The test still passes because it computes the bucket it checks
  by the same expression. Exact binning can thus move a contribution across
  a bucket boundary relative to the program.
- Elapsed times at or beyond t_max fall into no bucket. No test exercises
  this case; the model drops such contributions.
- Against a window of several samples, each retained sample contributes once.
  Contributions are taken against the buffer as it was before the new sample
  is pushed. No test asserts a bucket value after a multi-sample window
  (`testCalculateAndBinMSD`, lines 860-863, is empty).
- Errors: an event time earlier than the last one and a move naming an
  unknown particle are refused with an error and leave the tracker
  unchanged. The tests call neither case.
- Two moves of the same particle in one event are applied one after the
  other, in list order.
- Normalisation and reporting of the histogram: not present in the tests.
- The test at lines 316-324 checks only the newest four of particle 2's five
  retained times. The model states all five.
- The clock, I/O and the CppUnit test framework are not modelled.
