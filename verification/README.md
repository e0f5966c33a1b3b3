# Verified models of the engine's indexes, pipelines and state machines

This project models the parts of the engine whose correctness spans many calls or many threads, and proves what
they keep true. `dafny verify dfyconfig.toml` checks everything.

- **Collision cooking and query** (`Geometry`, `Sorting`, `Bvh`, `BvhQuery`, `BvhCycles`, `BvhValidation`,
  `Quadtree`, `BspCook`). A triangle soup is split by a quadtree into chunks, the chunks are put into a node array by
  a median-split builder, an explicit-stack query reads the array, and a validator re-checks it. The builder, the
  query, the validator and the quadtree are methods over sequences, arrays and object fields, as in the source. A
  ghost tree describes what the node array stores; the query is proved to select what testing every chunk would
  select, and on hierarchies that were not built what a walk down through meeting boxes leads to, whenever no such
  walk comes to a node twice.
- **The PCM pipeline** (`PcmStream`, `PcmProtocol`, `PcmCallback`, `PcmWriter`, `VideoWorker`). The callback's
  chunked queue is a class over its fields with one flat sample sequence as its meaning. The writers'
  compare-and-exchange loop, the channel and the callback form an interleaving system with one step per atomic access, for any number of writers.
  The same push is also a method whose counter is changed by other threads between its accesses; the accesses it
  makes are proved to be those of a writer of the system, and the callback's methods those of its callback. The video
  worker's audio section is a class that uses that push, for any number of channels and any conversion. Together:
  what is heard of the worker is a prefix of the stream its packets decode to.
- **Jobs and assets** (`JobQueue`, `AssetSlot`, `AssetManager`, `AssetRuns`, `AssetLoads`). Job queues, sleeping
  workers, depth and active counters, cancellation, shutdown and completions form one interleaving system for both queues, tied to the
  methods of the locked queue. Asset slots have one method per transition; the scheduler's pass over a queue is a
  method; requests, reloads, purges, the drain in its single steps, the two stages of a load and cancellations form a
  second interleaving system, whose drain steps are proved to add up to one pass over each of the three queues, and
  whose load steps to the two completions of a load.
- **The level graph** (`LevelGraph`). A recursive search over mutable maps, a path stack and a finished set.
- **The quake index file** (`IndexText`, `QuakeIndex`, `QuakeIndexRoundTrip`). Escaping, lines and fields, the writer
  and the reader.
- **The upload queue** (`UploadQueue`). Three job classes drained under a budget of jobs and bytes.

`Results`, `Sequences`, `Words` and `Text` hold shared values: results, sequence facts, 32- and 64-bit arithmetic,
and the string operations of the standard library.

## Where the code does not do what one may expect

- The job depth counter is changed outside the queue's lock, so a worker can count its pop before the submitter
  counts the push. The counter then wraps to its largest value while the queue is empty (`JobQueue.DepthCanWrap`).
  It is right exactly when as many pops as pushes are still uncounted (`JobQueue.DepthIsExactIff`).
- Every worker thread holds on to the shared state of the pool until it leaves, and leaves only once that state is
  dropped. So dropping the last `Jobs` of a pool with a worker never runs the drop: no queue is closed, no thread is
  joined, and workers and queues stay behind (`JobQueue.WorkersKeepThePoolAlive`). The drop can run exactly for a pool
  without workers (`JobQueue.DropPossibleIff`).
- Cancelling an asset leaves its request in the queue, or its load with the job queues. A reload afterwards gives the
  slot a second place or load exactly when something was under way before the cancellation
  (`AssetRuns.CancelThenReloadIff`), unless the job is dropped first (`AssetRuns.CancelDropThenReload`). Runs in which
  no cancellation fails a slot with something under way keep one place and one load (`AssetRuns.OnePlaceOneLoad`);
  setting cancel flags does no harm to that.
- A cancellation checks the status and fails the slot under two separate locks. Whatever happens in between, its
  second half fails one request exactly when one is open then (`AssetSlot.GapFailsIff`), and a later one than the
  cancellation exactly when a reload from in between is still open (`AssetSlot.GapFailsLaterIff`). One reload is
  enough (`AssetSlot.GapFailsReload`).
- A cancelled reload leaves its slot ready with the earlier value at first. The completion of its reading, unless the
  job was withdrawn before, then marks the slot failed (`AssetLoads.CancelledReloadEndsFailed`): only the first failure
  after a reload falls back on the earlier value (`AssetSlot.FailedReloadKeepsValue`, `AssetSlot.SecondFailureFails`).
- An upload job that the budget turns away goes to the back of its class, not back to the front, so jobs of one
  class can overtake it (`UploadQueue.RefusedJobIsOvertaken`). The order within a class survives exactly when no job
  of it is turned away or the one turned away is alone (`UploadQueue.DistinctOrderKeptIff`).
- The validator does not look for cycles in the node array, and a query of an accepted array may never end
  (`BvhValidation.ValidCycleNeverEnds`). It ends exactly when no way down through boxes that meet the query comes to
  a node twice (`BvhCycles.SearchEndsIffNoCycle`), which holds of every built hierarchy
  (`BvhCycles.BuiltMeetsNoCycle`).
- The upload queue's byte counter saturates. It stays the sum of the pending bytes exactly as long as that sum fits
  64 bits (`UploadQueue.UploadQueue.EnqueueImage`).
- A push drops the samples of an incomplete last frame, and everything on a writer without capacity or channels,
  while reporting success. Exactly the inputs of whole frames are kept in full (`PcmProtocol.KeptWholeIff`), so a
  video's audio arrives whole exactly when every converted packet is whole frames
  (`VideoWorker.AudioWorker.NothingDroppedIff`).
- Reading a written index gives it back exactly when the index is in the form that building leaves behind: version 1,
  a trimmed one-line fingerprint, non-empty sorted lists under their own path
  (`QuakeIndexRoundTrip.RoundTripIffNormal`).

## Model

| member | source | states |
|---|---|---|
| Geometry.IntersectsIffCommonPoint | collision_world/src/lib.rs:408-418 | two valid boxes intersect exactly when they share a point |
| Geometry.ContainsIff | collision_world/src/lib.rs:396-406 | a box contains a valid box with a tolerance exactly when every point of the other lies in it with each face moved out by that much |
| Geometry.NearEqIff | collision_world/src/lib.rs:429-439 | two boxes are nearly equal exactly when each contains the other with that tolerance |
| Geometry.ValidIffInhabited | collision_world/src/lib.rs:421-427 | a box is valid exactly when some point lies in it |
| Geometry.CenterIsMiddle | collision_world/src/lib.rs:388-394 | the centre is as far from either face along every axis |
| Geometry.UnionFoldIsHull | collision_world/src/lib.rs:336-348 | folding `union` over boxes gives the least box that covers them all |
| Geometry.HullIsUnique | collision_world/src/lib.rs:373-386 | the least covering box is unique, so unions do not depend on order |
| Bvh.UnionOfPermutation | collision_world/src/lib.rs:336-348 | the union of chunk boxes is the same for every order of the indices |
| Bvh.SortAndHalve | collision_world/src/lib.rs:301-320 | sorting by centre and index and splitting at the middle loses no index, gives the halves their sizes, and puts no index of the left half after one of the right half |
| Bvh.BeforeIsStrict | collision_world/src/lib.rs:301-313 | the builder's order compares the sums of the faces along the axis, and two different chunks never tie |
| Bvh.BvhBuilder.PushNode | collision_world/src/lib.rs:331-333 | appends one node and returns its index |
| Bvh.BvhBuilder.PushLeaf | collision_world/src/lib.rs:284-299 | appends a leaf node whose range is exactly the indices appended to the leaf list |
| Bvh.BvhBuilder.BuildNode | collision_world/src/lib.rs:276-334 | appends to both arrays a subtree over a permutation of the indices: boxes are exact unions, splits are along the longest axis, halves are balanced, children come before parents, everything written before is kept |
| Bvh.BuildChunkBoundsBvh | collision_world/src/lib.rs:252-274 | no chunks is an error; otherwise the arrays hold such a tree over every chunk, with the root as last node |
| Bvh.BuiltShape | collision_world/src/lib.rs:276-334 | leaves hold 2 to 4 chunks (1 only for a single chunk), nodes number 2*leaves-1 and at most max(1, n-1), height is logarithmic in n, children precede parents |
| Bvh.BuiltLeafSizes | collision_world/src/lib.rs:276-299 | of two or more chunks every leaf node holds two to four, a single chunk has a leaf of one |
| BvhQuery.SelectTreeIsFilter | collision_world/src/lib.rs:72-117 | pruning by boxes keeps exactly the matching chunks below a subtree |
| BvhQuery.SelectIsBruteForce | collision_world/src/lib.rs:72-117 | what the tree selects is, as a multiset, what testing every chunk selects |
| BvhQuery.BruteForceIsExact | collision_world/src/lib.rs:72-117 | the reference filter lists each meeting chunk once and no other |
| BvhQuery.SelectIntersecting | collision_world/src/lib.rs:72-117 | whenever the search ends, on whatever hierarchy, the query selects what its root reaches; on a built one it ends and selects exactly the chunks that meet the box, each once, nodes are popped at most once each in falling index order, and after no number of turns is the stack higher than logarithmic in the number of chunks; the empty cases return nothing |
| BvhQuery.ReachIff | collision_world/src/lib.rs:72-117 | a node reaches a chunk exactly when a way down through boxes that all meet the query ends in a leaf that lists the chunk, and the chunk meets the query |
| BvhQuery.SearchEndsIff | collision_world/src/lib.rs:76-115 | the loop ends exactly when the ways down through meeting boxes are bounded in length |
| BvhCycles.SearchEndsIffNoCycle | collision_world/src/lib.rs:76-115 | for every node array and query, the loop ends exactly when no way from the root through boxes that meet the query visits a node twice; then no way is longer than there are nodes |
| BvhCycles.ShallowMeetsNoCycle | collision_world/src/lib.rs:76-115 | ways of bounded length never come back to a node |
| BvhCycles.BuiltMeetsNoCycle | collision_world/src/lib.rs:76-334 | no way down a built hierarchy visits a node twice, so every query of it ends |
| BvhQuery.VisitReaches | collision_world/src/lib.rs:76-115 | one turn of the loop selects what the top node holds, leaves the rest to its children and is one visit |
| BvhQuery.Search | collision_world/src/lib.rs:76-115 | the stack loop selects what the root reaches in exactly as many turns as there are visits; over a stored tree it visits falling node indices, and the stack is never higher than height + 1 after any number of turns |
| BvhQuery.VisitNode | collision_world/src/lib.rs:79-113 | one turn skips a missing node or one whose box misses the query, scans a leaf in range, and pushes the children otherwise |
| BvhQuery.ScanLeaf | collision_world/src/lib.rs:92-105 | a leaf's scan returns its matching references in stored order |
| BvhValidation.MarkLeaf | collision_world/src/lib.rs:496-520 | marks exactly the leaf's chunks, and reports nothing exactly when all exist and none was marked before |
| BvhValidation.ValidateNode | collision_world/src/lib.rs:463-537 | reports nothing for a node exactly when it is a sound leaf or a sound branch that repeats no chunk |
| BvhValidation.ReportUncovered | collision_world/src/lib.rs:539-545 | reports nothing exactly when every chunk is covered |
| BvhValidation.ValidateChunkBoundsBvh | collision_world/src/lib.rs:445-546 | no error exactly when the root exists, every node is sound, and every chunk is covered exactly once; without an error every point of a listed chunk lies within 0.0001 of its leaf's box |
| BvhValidation.EveryChunkHasALeaf | collision_world/src/lib.rs:486-545 | in an accepted hierarchy each chunk is listed by a leaf node whose box is within 0.0001 of all the chunk's points |
| BvhValidation.BranchIsNear | collision_world/src/lib.rs:468-485 | every point of a node's box lies within 0.0001 of the box of the branch above it |
| BvhValidation.NodeHasOneShape | collision_world/src/lib.rs:463-537 | an accepted node has a valid box and either two children that exist or a leaf range that exists, never both |
| BvhValidation.BuiltIsValid | collision_world/src/lib.rs:276-546 | every built hierarchy over valid boxes passes the validator |
| BvhValidation.ValidCycleNeverEnds | collision_world/src/lib.rs:463-546 | a node array with a cycle that the validator accepts and on which the query never ends |
| BvhValidation.StoredRefs | collision_world/src/lib.rs:276-334 | reading the leaves in node order gives the tree's chunks in order |
| BvhValidation.ValidateChunks | collision_world/src/lib.rs:196-229 | no error exactly when every chunk has names and a valid box; returns the union of the boxes and exactly the warnings about triangle counts |
| BvhValidation.Validate | collision_world/src/lib.rs:155-249 | no error exactly when version, scale, root box, chunks and hierarchy are all sound; then every point of every chunk lies within 0.0001 of the root box; the warnings are the specified ones in order |
| BvhValidation.AcceptedWorldMeans | collision_world/src/lib.rs:155-249 | a world without errors has version 1 and a positive scale, a root box and chunk boxes that are not empty, and names that are not all white space; every point of a chunk lies within 0.0001 of the root box |
| BvhValidation.WarningsMean | collision_world/src/lib.rs:175-243 | each of the five warnings is given exactly when there is reason for it |
| Quadtree.BucketsPartition | map_cook/src/quadtree.rs:112-124 | the four buckets together hold every triangle of the node exactly once |
| Quadtree.FillBuckets | map_cook/src/quadtree.rs:112-124 | the bucketing loop puts each triangle into its quadrant's bucket, in order |
| Quadtree.QuadrantIff | map_cook/src/quadtree.rs:110-124 | a centroid goes to the upper half along an axis exactly when it is at least as far from the lower side of the cell as from the upper one |
| Quadtree.CentroidIsMean | map_cook/src/quadtree.rs:76-77 | three times the centroid is the sum of the three corners |
| Quadtree.ChildIsQuarter | map_cook/src/quadtree.rs:110-142 | each child is half as wide and half as long as its parent, in the corner its number says |
| Quadtree.ChildrenTile | map_cook/src/quadtree.rs:125-142 | the four children fill their parent, and two of them share points only on a middle line |
| Quadtree.CellOfPath | map_cook/src/quadtree.rs:87-158 | the cell at the end of a path is the cell of the regular grid, of 2^steps columns and rows over the root, that the path names in binary |
| Quadtree.ChunkIdsDiffer | map_cook/src/quadtree.rs:172-172 | chunk names begin with the map's label, end with the padded number, and differ for different numbers |
| Quadtree.ChunkEmitter.EmitChunk | map_cook/src/quadtree.rs:160-182 | appends the chunk with the next number, the union of its triangles' boxes and their count |
| Quadtree.ChunkEmitter.SplitNode | map_cook/src/quadtree.rs:87-158 | appends one chunk per group of a partition of the triangles; each group is what descends to its cell, and splitting stopped there and nowhere before |
| Quadtree.ReachedMeans | map_cook/src/quadtree.rs:87-158 | a group is all of the triangles that descend along its path, a stop condition holds there, and its depth is within the limit |
| Quadtree.BuildQuadtreeChunks | map_cook/src/quadtree.rs:40-69 | the two error cases, and otherwise a build explained by such a partition with ids from 0 in order |
| Quadtree.ChunkBoxesAreHulls | map_cook/src/quadtree.rs:160-205 | every chunk box is valid and the exact union of its triangles' boxes |
| Quadtree.TriangleHasChunk | map_cook/src/quadtree.rs:87-205 | every triangle is in a chunk whose box covers the triangle, even where it spills over its cell |
| Quadtree.ChunksFillRoot | map_cook/src/quadtree.rs:40-69 | the union of the chunk boxes is the root box |
| Quadtree.CountsSumToInput | map_cook/src/quadtree.rs:160-182 | the recorded triangle counts add up to the input |
| Quadtree.ChunkOrigin | map_cook/src/quadtree.rs:87-157 | a chunk's triangles have their centroids over its cell, a cell of the regular grid over the root; there one of the four stop conditions holds, stated for the root's extents and the number of halvings, and none of them holds on the way |
| BspCook.BuildBspCollisionWorld | map_cook/src/bsp_cook.rs:21-62 | cooks exactly the inputs with a map id, a positive scale, triangles, a label and a positive leaf size, and composes quadtree and hierarchy; otherwise the error is the first that applies in the source's order |
| BspCook.LabelIsClean | map_cook/src/bsp_cook.rs:245-251 | a label has no colon, no backslash, and no slash at its ends; it is empty exactly when the trimmed name is made of these |
| BspCook.CookedWorldIsValid | map_cook/src/bsp_cook.rs:50-61 | every cooked world passes validation without errors and without the root warning |
| BspCook.CookAndSelect | map_cook/src/bsp_cook.rs:21-62 | end to end: a cooked world passes validation, a query of it misses no triangle whose box it meets, and selects no chunk in vain or twice |
| PcmStream.MixingSplits | audio/src/lib.rs:549-565 | playing does not depend on how the output is cut into periods |
| PcmStream.Stream.DrainRx | audio/src/lib.rs:512-521 | appends everything received in order, and is active once anything was received |
| PcmStream.Stream.MixSamples | audio/src/lib.rs:549-565 | mixes the first min(output, queued) samples at the matching positions and removes exactly those |
| PcmStream.Stream.MixInto | audio/src/lib.rs:530-576 | each output sample grows by the queued sample at its position times the volume, those past the queue stay; the samples used are removed, their room is given back, and floor(missing/channels) underruns are counted exactly when active with channels |
| PcmStream.Stream.Clear | audio/src/lib.rs:523-528 | empties the queue and makes it inactive |
| PcmProtocol.KeptWholeIff | audio/src/lib.rs:105-114 | a push keeps its input in full exactly when it is empty, or whole frames on a writer with capacity and channels |
| PcmProtocol.CounterIsExact | audio/src/lib.rs:104-159 | in every interleaving the counter is reserved plus in-channel plus queued plus consumed-not-returned plus lost at closing, stays within the capacity, and no subtraction takes more than it holds |
| PcmProtocol.RoomComesBack | audio/src/lib.rs:104-159 | with everyone at rest, the counter is exactly what was sent and not yet played |
| PcmProtocol.PlaybackFollowsTheChannel | audio/src/lib.rs:512-565 | played, queued and in-channel samples are the sent ones in order |
| PcmProtocol.PushesAreHonest | audio/src/lib.rs:104-159 | every finished push sent exactly the part it did not hand back; a writer's samples in the channel are these parts in order |
| PcmProtocol.EveryRunKeepsTheBooks | audio/src/lib.rs:104-159 | all of this is kept by every step of writers and callback |
| PcmProtocol.RunsFollow | audio/src/lib.rs:104-159 | in every run each writer goes through its own accesses as if it were alone with the values they find |
| PcmProtocol.WriterIsHeardInOrder | audio/src/lib.rs:104-565 | in every run, what is heard of a writer is a prefix of what its finished pushes delivered, in their order; with a single writer nothing else is heard |
| PcmCallback.TurnInSteps | audio/src/lib.rs:418-424 | the callback's single steps, taken in a row, move the channel behind the stream, play its first samples and give back exactly their room |
| PcmCallback.MixStream | audio/src/lib.rs:418-424 | the stream's methods do to stream, channel and counter what these steps do, and add to each output sample exactly the sample the steps play there, times the volume |
| PcmCallback.PushCanBeHeard | audio/src/lib.rs:104-565 | whole frames that fit an idle engine are taken whole by one push, played in the next turn, and their room comes back |
| PcmWriter.Writer.Reserve | audio/src/lib.rs:116-134 | the compare-and-exchange loop reserves, against any interference, as many frames as the counter left room for, or stops when there is none |
| PcmWriter.Writer.TryPush | audio/src/lib.rs:104-159 | sends one buffer of whole frames and hands back the rest, or hands back everything and releases its reservation when the receiver is gone; the counter value it reserved against is one that some thread left there; its accesses to counter and channel are those of one writer of the interleaving system from rest to rest |
| PcmWriter.TookWhatFits | audio/src/lib.rs:116-138 | what is sent is whole frames within the capacity, and nothing exactly when not one frame fits |
| PcmWriter.TookAllIff | audio/src/lib.rs:116-151 | a push takes all it keeps exactly when there is a receiver and room for every frame; otherwise, with a receiver, it leaves no room for a frame |
| VideoWorker.AudioWorker.Offer | pallet/src/video.rs:359-380 | a buffer is taken exactly when it holds no whole frame, or there is a receiver and the counter, as some thread left it, had room for all its frames; what is not taken goes back to the front, with the frame count adjusted, and then no frame fits any more or nobody receives |
| VideoWorker.AudioWorker.DeliverPending | pallet/src/video.rs:358-381 | sends the first waiting buffers whole and then what there is room for of the next, in order and with nothing else changed; it stops before the end only when no frame fits any more or nobody receives |
| VideoWorker.AudioWorker.ProcessPacket | pallet/src/video.rs:384-573 | a packet at the prebuffer limit or more than two seconds ahead stays and nothing at all changes; any other is converted, or reported with the converter's error; the next one then waits exactly when playback has begun and not all samples were taken, for lack of room or a receiver; before playback nothing is sent |
| VideoWorker.AudioWorker.GatedIff | pallet/src/video.rs:385-399 | a packet stays exactly when, before playback, the waiting frames reach the limit, if any; or during playback when it is to be played more than 2000 ms from now, counted from the first packet |
| VideoWorker.AudioWorker.OutputIs | pallet/src/video.rs:402-419 | a packet passes unchanged exactly when its rate and its channels, at least one, are the output's; any other goes through the converter |
| VideoWorker.AudioWorker.ProcessPackets | pallet/src/video.rs:383-574 | packets are taken in order until one cannot be converted, or every packet left waits for one of these reasons |
| VideoWorker.AudioWorker.CheckEnded | pallet/src/video.rs:575-584 | the end is reported once, with nothing waiting and playback 500 ms past the last sample |
| VideoWorker.AudioWorker.PumpAudio | pallet/src/video.rs:346-595 | one round keeps delivered plus waiting buffers equal to the whole frames of the processed packets, for any writer and any conversion, and what waits does so for a reason; the end is reported exactly when it was not before, nothing waits and playback is 500 ms past the end of the decoded stream, and then all of it was delivered; work is reported exactly when a push took something |
| VideoWorker.AudioWorker.StreamIsWhole | pallet/src/video.rs:346-574 | delivered samples, waiting buffers and waiting packets make up what can be delivered of the received stream |
| VideoWorker.AudioWorker.NothingDroppedIff | pallet/src/video.rs:384-573 | the whole decoded stream can be delivered exactly when each converted packet is empty, or whole frames for a usable writer |
| VideoWorker.AudioWorker.WholeStreamIsKept | pallet/src/video.rs:346-574 | with whole packets only, delivered samples and waiting buffers together are the decoded stream itself |
| VideoWorker.KeptAllIff | audio/src/lib.rs:105-114 | pushes keep all of some buffers exactly when each of them is whole frames |
| VideoWorker.ListenerHearsStream | pallet/src/video.rs:346-574 | in every run of writers and callback with the worker's pushes, what is heard of the worker is a prefix of the whole frames its packets decode to, and of the decoded stream when every packet was whole frames |
| VideoWorker.AudioWorker.RunRounds | pallet/src/video.rs:198-595 | over any rounds of arriving packets and interference all of this is kept, what still waits after the last round has a reason to, the end is reported once at most, and a packet that cannot be converted stops the thread with the packets before it processed in order |
| VideoWorker.PlayStereo | pallet/src/video.rs:198-595 | a worker on a fresh stereo writer accounts for every received packet; once nothing waits it has delivered the decoded stream exactly when every packet was whole frames |
| VideoWorker.HalfFrameIsDropped | audio/src/lib.rs:105-114 | a stereo packet of three samples loses its third |
| JobQueue.LockedQueue.Push | engine_core/src/jobs.rs:313-324 | fails fast when closed or full without change, else appends and notifies one waiting thread |
| JobQueue.LockedQueue.PopOnce | engine_core/src/jobs.rs:326-337 | the oldest job, or waiting exactly when open and empty, or the end when closed |
| JobQueue.LockedQueue.Shutdown | engine_core/src/jobs.rs:339-343 | closes the queue and notifies every waiting thread |
| JobQueue.LaneIsQueue | engine_core/src/jobs.rs:313-343 | the steps of the interleaving system do to a queue and its sleepers what these three methods do |
| JobQueue.QueuedJobsHaveTakers | engine_core/src/jobs.rs:313-337 | no lost wake-up: while a worker sleeps, queued jobs are no more than the workers heading for them; a non-empty queue never has all workers asleep |
| JobQueue.JobsLeaveInOrder | engine_core/src/jobs.rs:313-337 | pops follow pushes in order, each job is with one worker at most, the length stays within the capacity |
| JobQueue.CompletionsRunOnce | engine_core/src/jobs.rs:175-230 | a completion runs at most once, in the order sent, and never for a job recorded as cancelled while queued |
| JobQueue.PoppedJobsAreAccounted | engine_core/src/jobs.rs:175-194 | in every run a job that left its queue is with a worker, or its completion was sent, or it was cancelled |
| JobQueue.EveryJobCompletes | engine_core/src/jobs.rs:175-230 | once no worker has a job of a queue, a job that was not cancelled has exactly one completion, run or waiting, when it left the queue, and none otherwise |
| JobQueue.CancelledWhileQueued | engine_core/src/jobs.rs:368-380 | a job cancelled while queued never has a completion, whatever happens afterwards |
| JobQueue.OldestJobCanComplete | engine_core/src/jobs.rs:368-380 | a worker at an open queue can take the oldest job and, unless it is cancelled, send its completion, which leaves the worker where it was |
| JobQueue.DepthIsExactIff | engine_core/src/jobs.rs:241-273 | the depth counter is the queue length exactly when as many pops as pushes are uncounted; the active counter is always exact |
| JobQueue.DepthCanWrap | engine_core/src/jobs.rs:241-273 | a run in which the depth counter wraps below zero |
| JobQueue.WakeupKept | engine_core/src/jobs.rs:313-343 | each push, pop, wait, notification, shutdown and spurious wake-up keeps the wake-up invariant |
| JobQueue.WorkersLeave | engine_core/src/jobs.rs:326-337 | were a queue closed while it has workers, each would take at most seven more steps, whatever the pool does, and no queued job would be taken |
| JobQueue.ClosedWorkersCanLeave | engine_core/src/jobs.rs:368-380 | they could then all leave: a worker that has not left can always step, and after these steps all are gone |
| JobQueue.QueuedJobsAreDropped | engine_core/src/jobs.rs:326-343 | a job still queued on a closed queue never has a completion |
| JobQueue.WorkersKeepThePoolAlive | engine_core/src/jobs.rs:346-380 | no run of a pool with a worker closes a queue or lets a worker leave, so its drop and the joins in it never run |
| JobQueue.DropPossibleIff | engine_core/src/jobs.rs:346-366 | some run reaches the drop exactly when the pool has no workers |
| JobQueue.Completions.PumpCompletions | engine_core/src/jobs.rs:212-230 | runs everything that waits or arrives meanwhile, in order, until it finds nothing, and counts it |
| JobQueue.PumpIsRun | engine_core/src/jobs.rs:212-230 | pumping is a run of single steps of the pool |
| AssetSlot.SlotStaysOk | engine_core/src/asset_manager.rs:1143-1193 | under every sequence of transitions, cancellations and stale ones included: ready means a value, a value means version above zero, the version counts finishes, pending and in flight exclude each other, loading means in flight, queued means pending |
| AssetSlot.ValueNeverDisappears | engine_core/src/asset_manager.rs:1164-1193 | a value once present stays, and versions never fall |
| AssetSlot.ChangeKeepsOk | engine_core/src/asset_manager.rs:1143-1193 | one transition raises the version by one exactly when it is a finish, below the counter's limit |
| AssetSlot.SharedSlot.StartReload | engine_core/src/asset_manager.rs:724-748 | resets the slot and remembers a retained value, unless a request is under way |
| AssetSlot.SharedSlot.Finish | engine_core/src/asset_manager.rs:1164-1177 | the new value, a higher version, ready, nothing under way |
| AssetSlot.SharedSlot.Fail | engine_core/src/asset_manager.rs:1179-1192 | failed, or ready again when an earlier value was retained |
| AssetSlot.FailedReloadKeepsValue | engine_core/src/asset_manager.rs:736-748 | a reload that fails, whatever dispatches, purges and cancel flags come in between, leaves a slot that had a value ready with this value and version, and any other failed |
| AssetSlot.FinishedLoadIsReady | engine_core/src/asset_manager.rs:1164-1177 | one that finishes leaves it ready with the new value, one version further |
| AssetSlot.SecondFailureFails | engine_core/src/asset_manager.rs:1179-1192 | a failure after an outcome marks the slot failed, although its value stays |
| AssetSlot.SharedSlot.Cancel | engine_core/src/asset_manager.rs:479-489 | marks the slot, and unless it is ready fails it after whatever happens to it in the gap between the two locks |
| AssetSlot.GapFailsReload | engine_core/src/asset_manager.rs:479-489 | the shortest case: one reload of a slot neither ready nor under way, in that gap, is failed by the earlier cancellation |
| AssetSlot.GapFailsIff | engine_core/src/asset_manager.rs:479-489 | whatever happens in that gap, the cancellation's second half fails one request exactly when one is open then, and leaves nothing under way; a reload from the gap that is still open is failed, although accepted later |
| AssetSlot.GapFailsLaterIff | engine_core/src/asset_manager.rs:479-489 | it fails a request accepted after the cancellation began exactly when a reload from the gap is still open, and an earlier one exactly when something is open but no such reload |
| AssetManager.Scheduler.ScheduleQueue | engine_core/src/asset_manager.rs:896-918 | one pass leaves the throttled and refused requests in order, tries every other request once in order, and counts the throttled ones |
| AssetManager.PassPartitions | engine_core/src/asset_manager.rs:896-918 | each request is either kept or started, none twice |
| AssetManager.PassCounts | engine_core/src/asset_manager.rs:411-434 | a pass spends nothing, and each tag's counter grows by its throttled requests |
| AssetManager.UrgentIsNeverPutOff | engine_core/src/asset_manager.rs:926-933 | high priority and boot work is never put off |
| AssetManager.PutOffIff | engine_core/src/asset_manager.rs:920-946 | who is put off: never high priority or boot work; without a budget everyone else; once all tags together spent it, background work and low priority |
| AssetManager.SpendAdds | engine_core/src/asset_manager.rs:411-421 | time spent is added to its own tag and to the total, up to the counters' width, and to nothing else |
| AssetRuns.SlotsAlwaysOk | engine_core/src/asset_manager.rs:609-804 | every slot is sound at every point of every run, cancellation and purge included; its value, once present, stays and its version never falls |
| AssetRuns.OnePlaceOneLoad | engine_core/src/asset_manager.rs:609-763 | in every run in which no cancellation fails a slot with something under way and no load is lost, cancel flags set at any time included, a slot is queued once exactly when pending, has one load exactly when in flight, and accepted requests are finishes plus fails plus what is under way |
| AssetRuns.StepKeepsBooksIff | engine_core/src/asset_manager.rs:896-1033 | a step keeps this accounting exactly when it neither fails a slot with something under way by cancelling nor drops a load |
| AssetRuns.CancelThenReloadIff | engine_core/src/asset_manager.rs:479-489 | after a cancellation and a reload the slot has one place or load exactly when nothing was under way before; otherwise it has two |
| AssetRuns.CancelDropThenReload | engine_core/src/asset_manager.rs:479-489 | when the cancelled job is dropped before its completion runs, the reload is alone |
| AssetRuns.DispatchRequest | engine_core/src/asset_manager.rs:948-1033 | what a dispatch makes of the slot for each answer of the job queue, and when the request stays |
| AssetRuns.DispatchInSteps | engine_core/src/asset_manager.rs:948-1033 | the single steps of a dispatch, reading the path, reading the cancel flag, marking, submitting and settling, do the same when taken in a row |
| AssetRuns.SchedulePassIsRun | engine_core/src/asset_manager.rs:896-918 | the single steps of a drain over a queue leave queue and budget as the scheduler's pass does, the other queues as they were, and one load with slot and tag for each request taken on |
| AssetRuns.DrainIsThreePasses | engine_core/src/asset_manager.rs:806-842 | a whole drain, from a free lock to a free lock, is one pass over each of the high, normal and low queue in this order: each queue is left as its pass leaves it, the budget is what the three passes make of it, and the loads taken on come in this order |
| AssetRuns.VerdictIsConstantDuringDrain | engine_core/src/asset_manager.rs:806-842 | no throttling verdict changes as long as a drain holds the lock |
| AssetRuns.BootIsNeverThrottled | engine_core/src/asset_manager.rs:920-933 | no run counts a throttled boot request |
| AssetLoads.FirstRequest | engine_core/src/asset_manager.rs:609-704 | the first request of a key gives it a slot of its own, queued under the request's priority with its path, or failed with the reason |
| AssetLoads.FurtherRequest | engine_core/src/asset_manager.rs:614-632 | a further request changes nothing; one of another kind gets a failed slot that no key leads to |
| AssetLoads.KeysHaveOwnSlots | engine_core/src/asset_manager.rs:609-804 | in every run different keys have different slots |
| AssetLoads.PurgeForgets | engine_core/src/asset_manager.rs:795-804 | a purge takes the key away and fails its slot, which keeps its value; nothing else changes |
| AssetLoads.CompleteReading | engine_core/src/asset_manager.rs:978-1017 | what the completion of the reading makes of the slot, and when the bytes are handed on to be decoded |
| AssetLoads.ReadingInSteps | engine_core/src/asset_manager.rs:978-1017 | the single steps of this completion, in a row, do the same; the load goes on under its tag or is over |
| AssetLoads.LoadCanFinish | engine_core/src/asset_manager.rs:978-1012 | a load of a slot that is not cancelled can always come to its end, ready with what was decoded |
| AssetLoads.CancelledReloadEndsFailed | engine_core/src/asset_manager.rs:479-489 | cancelling a reload leaves the slot ready with its earlier value, and the completion of its reading then marks it failed |
| AssetLoads.TimeIsRecordedOnce | engine_core/src/asset_manager.rs:1000-1012 | every decode's time is recorded once, in the order the decodes ended, or still waits to be |
| AssetLoads.SpendingAddsUp | engine_core/src/asset_manager.rs:411-421 | within a tick, what was spent under a tag grows by exactly the time recorded for loads of this tag |
| LevelGraph.CanonicalIdentifies | engine_core/src/asset_id.rs:42-88 | parsed keys are equal exactly when their canonical names are |
| LevelGraph.EdgeIff | tools/src/main.rs:3393-3397 | a level depends on the keys of its manifest of kind `level` in the namespace `engine`, and on no others |
| LevelGraph.NodeDependenciesSorted | tools/src/main.rs:3381-3391 | a node lists the manifest's dependencies in the order of their canonical names |
| LevelGraph.CycleFound | tools/src/main.rs:3372-3376 | a level met again on the stack closes a real dependency path from a reachable level |
| LevelGraph.PathsGoBack | tools/src/main.rs:3393-3401 | every path from a finished level stays among levels finished before it |
| LevelGraph.FinishedMeansBuildable | tools/src/main.rs:3350-3402 | a finished search has seen exactly the reachable levels, all available, none on a cycle |
| LevelGraph.GraphBuilder.Visit | tools/src/main.rs:3361-3402 | finishes a level with all it depends on and restores the stack, or fails with a true explanation |
| LevelGraph.BuildLevelGraph | tools/src/main.rs:3350-3359 | succeeds exactly when every reachable level is available and none is on a reachable cycle; the nodes are the reachable levels; an error names a missing level or a real cycle |
| Text.ParsePrinted | engine_core/src/quake_index.rs:675-694 | a printed number parses back |
| Text.LexLeIff | tools/src/main.rs:3382-3382 | the order of names: a prefix first, otherwise the first character that differs decides |
| IndexText.EscapeIsOnePass | engine_core/src/quake_index.rs:736-742 | the four replacements in a row escape each character once |
| IndexText.UnescapeField | engine_core/src/quake_index.rs:744-771 | the character loop computes the recursive unescaping |
| IndexText.UnescapeUndoesEscape | engine_core/src/quake_index.rs:736-771 | unescaping undoes escaping for every string |
| IndexText.OtherCodesStay | engine_core/src/quake_index.rs:744-771 | a text without any of the four codes is left as it is, other or incomplete codes included |
| IndexText.EscapedIsOneField | engine_core/src/quake_index.rs:736-742 | an escaped field holds no separator and no line break |
| IndexText.SplitJoin | engine_core/src/quake_index.rs:299-302 | splitting undoes joining for separator-free parts |
| IndexText.LinesOfJoined | engine_core/src/quake_index.rs:274-284 | the lines of joined plain lines are these lines |
| QuakeIndex.WriteTo | engine_core/src/quake_index.rs:209-276 | the writing loops produce the specified lines, with the paths in sorted order |
| QuakeIndex.CountersAreRight | engine_core/src/quake_index.rs:214-272 | the two counters in a written file are the numbers of mount lines and of entry lines that follow them |
| QuakeIndex.ReadFrom | engine_core/src/quake_index.rs:278-378 | the reading loop computes the specified reader, stopping at the first error |
| QuakeIndexRoundTrip.MountReadsBack | engine_core/src/quake_index.rs:304-322 | a mount's fields parse back to it |
| QuakeIndexRoundTrip.EntryReadsBack | engine_core/src/quake_index.rs:323-360 | an entry's fields parse back to it, under the key they were written with |
| QuakeIndexRoundTrip.ReadUndoesWrite | engine_core/src/quake_index.rs:209-378 | reading undoes writing for every index in normal form, the re-sort included |
| QuakeIndexRoundTrip.ReadIsNormal | engine_core/src/quake_index.rs:278-378 | every text that reads as an index gives one in normal form |
| QuakeIndexRoundTrip.LowestMountWins | engine_core/src/quake_index.rs:456-462 | of the entries of a path that was read, the first comes from a lowest mount, and within it has the first source kind; an index that reads has version 1 |
| QuakeIndexRoundTrip.RoundTripIffNormal | engine_core/src/quake_index.rs:209-378 | the round trip holds exactly for indexes in normal form |
| QuakeIndexRoundTrip.WriteThenRead | engine_core/src/quake_index.rs:209-378 | the writer followed by the reader returns the index exactly when it is in normal form |
| UploadQueue.UploadQueue.EnqueueImage | render_wgpu/src/lib.rs:281-303 | appends to the job's class; the byte counter stays exact exactly when the new total fits |
| UploadQueue.UploadQueue.Drain | render_wgpu/src/lib.rs:305-373 | uploads the specified jobs, leaves the specified queues, keeps the byte counter exact and records the totals |
| UploadQueue.UploadQueue.DrainAmid | render_wgpu/src/lib.rs:305-373 | while other threads enqueue jobs and change limits, a drain takes exactly the specified course: it uploads what it finds first at each look and leaves what that course leaves; it loses and duplicates nothing, uploads no more jobs than the largest limit, and keeps the byte counter exact while the total fits |
| UploadQueue.CourseStops | render_wgpu/src/lib.rs:315-342 | amid whatever events, a drain stops only when the queue is empty or its first job is refused, which then goes to the back of its class |
| UploadQueue.QuietCourse | render_wgpu/src/lib.rs:305-373 | without interference that course is the drain by itself |
| UploadQueue.UploadQueue.RunFrames | render_wgpu/src/lib.rs:265-373 | a number of frames with the same limits drains what the repeated specification says, and empties the queue given enough frames |
| UploadQueue.DrainTakesPrefix | render_wgpu/src/lib.rs:315-342 | the uploaded jobs are a prefix of high, normal, low order |
| UploadQueue.DrainConserves | render_wgpu/src/lib.rs:315-342 | uploaded and remaining jobs are together the jobs before |
| UploadQueue.DrainWithinJobs | render_wgpu/src/lib.rs:322-329 | at most `jobs_per_frame` jobs |
| UploadQueue.DrainWithinBytes | render_wgpu/src/lib.rs:334-339 | the byte counter exceeds `bytes_per_frame` only when the first job alone does; below the largest limit that holds of the bytes themselves |
| UploadQueue.DrainStopsAtLimit | render_wgpu/src/lib.rs:322-339 | jobs are left behind only when a limit is reached |
| UploadQueue.DrainRotatesRefused | render_wgpu/src/lib.rs:334-339 | the remaining jobs keep their order by class, except that the refused one moves to the back of its class |
| UploadQueue.OrderKeptIff | render_wgpu/src/lib.rs:334-339 | a drain keeps the order within a class exactly when it turns no job of the class away, or all its waiting jobs are equal |
| UploadQueue.DistinctOrderKeptIff | render_wgpu/src/lib.rs:334-339 | with a slot of its own for each job: exactly when it turns none away, or the one it turns away is alone in its class |
| UploadQueue.RefusedJobIsOvertaken | render_wgpu/src/lib.rs:322-329 | three jobs of one class under a limit of one: the third overtakes the second |
| UploadQueue.DrainMakesProgress | render_wgpu/src/lib.rs:315-363 | a drain of a non-empty queue uploads something exactly when both limits are non-zero |
| UploadQueue.RepeatedDrainsEmpty | render_wgpu/src/lib.rs:305-373 | repeated drains with non-zero limits empty the queue and upload each job once |

## Left out

- Floating point: coordinates, samples and volumes are reals, so rounding, NaN, infinities and the checks for finite values are not modelled.
- Sizes: lengths of vectors and deques are unbounded; chunk and triangle counts below 2^32 are assumed where the source casts to 32 bits. `queued_samples` and `pending_sample_frames` cannot saturate.
- The BSP readers, the degenerate-triangle filter and the map-to-world transform: the cook takes the triangle list, or the reason it could not be read.
- TOML forms of the collision world, and the texts of errors and warnings, which are enumerated values here.
- `clear_pcm`: it empties the stream under the lock and zeroes the counter afterwards, so it is not a step of the interleaving system.
- PcmProtocol.CounterIsExact: closing the engine is one step taken while the callback is idle; samples then in the channel and the stream are counted as lost.
- VideoWorker.AudioWorker.PumpAudio: the converter is an abstract function of the packets before.
- Decoder pumping, video frames, predecode timing and debug statistics of the video worker.
- BspCook.BuildBspCollisionWorld: takes the triangle list; the check for a finite origin has no counterpart in reals.
- BvhValidation.Validate: the checks for finite values have no counterpart in reals.
- Relaxed memory order: every interleaving system takes one access at a time, in one order for all threads. The cancel flags of jobs are relaxed atomics (`engine_core/src/jobs.rs:96`, `engine_core/src/jobs.rs:176`, `engine_core/src/jobs.rs:374`), and so are the depth and active counters.
- JobQueue.CompletionsRunOnce: that a job withdrawn while queued has no completion rests on this order; with relaxed flags a worker may still miss a flag set before its pop.
- Panicking jobs, the inline mode, and the computation inside a job.
- AssetSlot.GapFailsLaterIff: takes dispatches of requests under way; a stale dispatch in the gap opens the slot without a new request, and is then what the cancellation fails. That an open reload is failed, `AssetSlot.GapFailsIff` states without this.
- A reload's reset of the slot, its clearing of the cancel flag and its enqueueing, all under the manager's lock, are one step of `AssetRuns`.
- AssetRuns.OnePlaceOneLoad: excludes the failing half of a cancellation of a slot with something under way, for which `AssetRuns.StepKeepsBooksIff` and `AssetRuns.CancelThenReloadIff` show that it fails.
- AssetSlot.SharedSlot.Cancel: the cancellation of the job's handle is the step that drops a load in `AssetRuns`.
- Asset metrics, timestamps, content hashes, `await_ready`, the synchronous-load policy, and the contents of decoded assets.
- AssetManager.Scheduler.ScheduleQueue: the answers of the job queues are given per position; what a dispatch does to the slot is `AssetRuns.DispatchRequest`, and `AssetRuns.SchedulePassIsRun` joins the two.
- Reading and parsing level manifests: a manifest that can be resolved and read is an entry of a finite map.
- Building an index from a directory, paths that are not valid text, and the remaining index queries.
- QuakeIndex.WriteTo: ends with the text, which the program then writes to a file.
- UploadQueue.UploadQueue.Drain: is the drain without interference, which `UploadQueue.UploadQueue.DrainAmid` has; upload results and slot statuses are left out of both.
- Console, configuration files, scripting, rendering, physics and windowing.
