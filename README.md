# HSCL lock-fairness benchmark drivers, modelled in Dafny

This project models the sequential core of three benchmark drivers for
hierarchical and classical locks: `upscale_fairness_test`,
`upscale_fairness_cgroups` and `upscale_mutex`. Each driver starts up to 16
worker threads. The workers run an insert/find/update workload against an
embedded key-value store under one global lock. When the run ends, the
driver reduces the per-thread counters to fairness figures.

- `upscale_fairness_test` builds a scheduling tree for a hierarchical fair
  lock. The shape is flat, balanced, skewed, deep or grouped. Every thread
  is bound to a non-root node of the tree (node i + 1, or its own node below
  the group nodes in the grouped shape) with a nice value and a weight.
- `upscale_fairness_cgroups` builds the tree so that it looks like Linux
  control groups. There are five cgroup nodes under the root. A thread's
  cgroup sets its nice value, its lock weight, a CPU throttle and the
  length of its breaks. The report also totals work per cgroup and
  compares each cgroup's share with its `cpu_shares`.
- `upscale_mutex` runs the threads at five hierarchy levels over one
  unfair lock: a mutex, spinlock, rwlock or adaptive mutex. After every
  acquisition a "last holder" tracker records handoffs between threads and
  between levels. The report computes per-level and overall Jain indices,
  the coefficient of variation, the Gini coefficient, a spread and
  several verdicts.

Files and modules:

| file | module | what it holds |
|---|---|---|
| `keys.dfy` | `Keys` | the `T%02d_K%08d` key rendering, its parser partner, length and injectivity |
| `common.dfy` | `Common` | constants, unsigned 64-bit arithmetic, the tree node record and rooted-tree predicate, operation choice, key pick, the store operations, the per-thread counters, the key-id counter, command-line validation |
| `metrics.dfy` | `Metrics` | sums, Jain's index, Gini, CoV², grouping of threads into classes, the min/max scan, the spread, and the fairness index of the two fairness drivers (as written and corrected) |
| `arith.dfy` | `Arith` | small real-arithmetic lemmas the metric proofs use |
| `fairness_test.dfy` | `FairnessTest` | the five tree builders, thread binding, lock weights, the worker loop, `main` |
| `cgroups.dfy` | `Cgroups` | the cgroup table, the tree and the bindings, weights, throttling, breaks, the per-cgroup report and `main` |
| `mutex.dfy` | `HierarchyMutex` | levels, `init_lock`, the acquisition tracker (in place and as a replay over an acquisition order), starvation gaps, the worker loop, the per-level and overall report, `main` |

Several things are injected as inputs rather than computed:

- `rand()` draws, as naturals up to `RAND_MAX` = 2147483647.
- Cycle-counter readings, as unsigned 64-bit values.
- Store status codes, as opaque values.
- The success of each pthread or store initialiser, as a boolean.

A worker's `while (!stop)` loop is a method that runs one iteration per
element of a sequence of observations. Each such method is proved equal to
a fold function, and the lemmas about that fold state what the loop
guarantees. `unsigned long long` arithmetic wraps explicitly (`SubU64`,
`AddU64`). Doubles are modelled as exact reals. A 0/0 that yields NaN in
the driver is `None`.

## Model

| member | source | states |
|---|---|---|
| `Keys.GenerateKey` | test_lock/upscale_fairness_test.c:84-86 | the rendered key always fits the 16-byte buffer with its terminator |
| `Keys.FormatKeyShape` | test_lock/upscale_fairness_test.c:84-86 | for thread < 100 and key id < 10^10 the untruncated key fits the buffer, and its fields at positions 1-2 and 5.. are the zero-padded thread and key ids |
| `Keys.GenerateKeyLength` | test_lock/upscale_fairness_test.c:84-86 | for thread < 100 and key id < 10^8 the key is exactly 13 characters |
| `Keys.ParseGenerateKey` | test_lock/upscale_fairness_cgroups.c:229-231 | parsing a generated key gives back its thread and key id (round trip) |
| `Keys.GenerateKeyInjective` | test_lock/upscale_mutex.c:136-138 | distinct (thread, key id) pairs give distinct keys |
| `Common.SubU64` | test_lock/upscale_fairness_test.c:248 | `unsigned long long` subtraction: the plain difference when no borrow, otherwise wrapped by 2^64 |
| `Common.AddU64` | test_lock/upscale_fairness_test.c:248 | `unsigned long long` addition equals the plain sum when it fits in 64 bits |
| `Common.ReachesRoot` | test_lock/upscale_fairness_test.c:307-471 | in a tree where every node's parent precedes it, every node reaches root 0 in exactly Depth steps, and Depth is at most the node index (no cycles) |
| `Common.ChooseOp` | test_lock/upscale_fairness_test.c:232-240 | insert iff the fraction is below insert_ratio; find iff it lies in [insert, insert+find); update otherwise |
| `Common.ChooseOpMonotone` | test_lock/upscale_fairness_cgroups.c:409-418 | for any two draws in [0, RAND_MAX] and any ratios, the larger draw never selects an earlier operation, so the operations occupy consecutive intervals |
| `Common.PureFindWorkload` | test_lock/upscale_mutex.c:498-507 | with ratios 0/1 every draw gives find except rand() == RAND_MAX, which gives update |
| `Common.PickKey` | test_lock/upscale_fairness_cgroups.c:281-288 | no key while next_key_id ≤ 1; otherwise key id in [1, next-1] and target thread in [0, 15] |
| `Common.PickKeyCovers` | test_lock/upscale_fairness_cgroups.c:317-322 | every issued key id can be drawn, with any target thread |
| `Common.PerformInsert` | test_lock/upscale_fairness_test.c:102-130 | one insert, whose key parses back to the thread and key id whenever both fit the key's fields; failure logged iff status is neither success nor duplicate; elapsed is the wrapped cycle difference |
| `Common.InsertKeysDistinct` | test_lock/upscale_fairness_test.c:102-130 | inserts issued for different (thread, key id) pairs use different keys |
| `Common.PerformFind` | test_lock/upscale_fairness_test.c:132-164 | empty key space: no store call and 0 cycles (logged only by the verbose drivers); otherwise one find of the key generated for the randomly picked (thread, key id), which parses back to that pair, logged iff status is neither success nor not-found |
| `Common.PerformUpdate` | test_lock/upscale_fairness_test.c:166-201 | empty key space: nothing; otherwise a find of the key generated for the randomly picked (thread, key id), which parses back to that pair, then an overwrite of the same key exactly when the find succeeded; the last status decides the log line |
| `Common.LookupKeyWellFormed` | test_lock/upscale_fairness_test.c:136-146 | a find or update asks only for a 13-character key that parses to an issued id |
| `Common.KeyCounter.constructor` | test_lock/upscale_fairness_test.c:79 | the shared counter starts at 1 |
| `Common.KeyCounter.GetNextKeyId` | test_lock/upscale_fairness_test.c:97-99 | fetch-and-add: returns the old value and increments the counter |
| `Common.IssueKeyIds` | test_lock/upscale_fairness_cgroups.c:242-244 | k calls on a fresh counter return 1, 2, …, k in call order and leave the counter at k+1 |
| `Common.Record` | test_lock/upscale_fairness_test.c:248-272 | one iteration adds one to total and acquisitions and to exactly the chosen kind, so it preserves insert+find+update = total = acquisitions |
| `Common.Validate` | test_lock/upscale_fairness_test.c:640-672 | usage error iff argc < 4; accepted iff argc ≥ 4, 1 ≤ threads ≤ 16 and insert+find ≤ 1.0 (defaults 0.3 and 0.6); an accepted line has update ratio ≥ 0 |
| `Common.RatioSumRejected` | test_lock/upscale_fairness_cgroups.c:743-746 | with the ratio arguments present and a valid thread count, validation fails for the ratio sum iff insert_ratio + find_ratio exceeds 1 |
| `Metrics.CauchySchwarz` | test_lock/upscale_mutex.c:694-701 | twice (n·Σx² − (Σx)²) is the sum of all squared pairwise differences, hence (Σx)² ≤ n·Σx² |
| `Metrics.JainBounds` | test_lock/upscale_mutex.c:694-701 | for Σx > 0 Jain's index lies in [1/n, 1] and equals 1 iff all counts are equal |
| `Metrics.GiniBounds` | test_lock/upscale_mutex.c:715-721 | for Σx > 0 the Gini coefficient lies in [0, (n−1)/n] and is 0 iff all counts are equal |
| `Metrics.OneThreadDoesAllWork` | test_lock/upscale_mutex.c:694-721 | counts [0, …, 0, x] reach both extremes: Jain 1/n and Gini (n−1)/n |
| `Metrics.OneThreadSums` | test_lock/upscale_mutex.c:694-721 | the counts [0, …, 0, x] have sum x, sum of squares x², and pairwise absolute differences 2·m·x |
| `Metrics.JainFromCov` | test_lock/upscale_mutex.c:704-712 | Jain · (1 + CoV²) = 1 with the population variance the driver uses |
| `Metrics.MembersStep` | test_lock/upscale_mutex.c:589-590 | one more thread adds its count to its own class and to no other |
| `Metrics.MemberPresent` | test_lock/upscale_fairness_cgroups.c:656 | every thread's class has at least one member |
| `Metrics.GroupsPartition` | test_lock/upscale_fairness_cgroups.c:651-657 | when every class is below k, the per-class totals add up to the overall total and the per-class sizes to the number of threads |
| `Metrics.ScanTotals` | test_lock/upscale_fairness_test.c:613-619 | the scan returns the total and a minimum and maximum that are attained and bound every count |
| `Metrics.MinAvgMax` | test_lock/upscale_fairness_test.c:613-619 | min ≤ average ≤ max |
| `Metrics.SpreadExample` | test_lock/upscale_mutex.c:728-729 | counts 80, 100, 120 give a spread of 40 % |
| `Metrics.SpreadNonNegative` | test_lock/upscale_fairness_test.c:631-636 | with any work done the spread is printed, is never negative, and is 0 iff min == max |
| `Metrics.IndexIgnoresDistribution` | test_lock/upscale_fairness_test.c:622-626 | the index as written depends only on the total: equal totals score equally however the work was split |
| `Metrics.IndexIsOneWhenExact` | test_lock/upscale_fairness_test.c:622-626 | whenever total² fits 64 bits and n divides it, the index as written is exactly 1 |
| `Metrics.IndexCounterexamples` | test_lock/upscale_fairness_cgroups.c:692-696 | counts [10, 0] score 1.0 as written while Jain gives 0.5; counts [1, 0] divide by an integer zero |
| `Metrics.FairnessIndex` | test_lock/upscale_fairness_test.c:622-626 | the corrected index: 0 without work; otherwise in [1/n, 1] and 1 iff the work was split evenly |
| `Metrics.FairnessStats` | test_lock/upscale_fairness_test.c:580-637 | the report's total, attained min and max, the average total / n with min ≤ avg ≤ max, the printed index as written, the corrected (Jain) index beside it, and the spread |
| `Metrics.IndexAtLeastOne` | test_lock/upscale_fairness_test.c:622-626 | with any work done the index as written is +inf or at least 1, so it never reports an unfair split |
| `FairnessTest.SelectTopology` | test_lock/upscale_fairness_test.c:657-662 | main never selects the custom shape; it selects the flat one when no shape argument is given or the selector lies outside 0..4, and otherwise the shape whose enum value is the selector |
| `FairnessTest.InitFlatHierarchy` | test_lock/upscale_fairness_test.c:307-332 | the array holds the flat tree: n+1 nodes, all under the root |
| `FairnessTest.InitBalancedHierarchy` | test_lock/upscale_fairness_test.c:335-361 | the array holds the binary-heap tree, parent (i−1)/2 |
| `FairnessTest.InitSkewedHierarchy` | test_lock/upscale_fairness_test.c:364-399 | the array holds a chain of the first n/2 nodes with the rest under the root |
| `FairnessTest.InitDeepHierarchy` | test_lock/upscale_fairness_test.c:402-427 | the array holds the linear chain, parent i−1 |
| `FairnessTest.InitGroupedHierarchy` | test_lock/upscale_fairness_test.c:430-471 | the array holds the root, four groups and n thread nodes of weight 1024 under group i%4+1 |
| `FairnessTest.InitHierarchy` | test_lock/upscale_fairness_test.c:473-500 | dispatch on the shape; an unknown shape gets the flat tree |
| `FairnessTest.HierarchyIsRootedTree` | test_lock/upscale_fairness_test.c:307-471 | every builder makes node 0 its own parent and gives node i ≥ 1 a parent below i |
| `FairnessTest.FlatDepths` | test_lock/upscale_fairness_test.c:322-329 | every flat thread node is at depth 1 |
| `FairnessTest.DeepDepths` | test_lock/upscale_fairness_test.c:417-424 | deep node i is at depth i |
| `FairnessTest.SkewedDepths` | test_lock/upscale_fairness_test.c:379-395 | skewed node i is at depth i for i ≤ n/2 and at depth 1 beyond |
| `FairnessTest.BalancedDepths` | test_lock/upscale_fairness_test.c:351-358 | balanced node i is at depth ⌊log2(i+1)⌋ |
| `FairnessTest.GroupedShape` | test_lock/upscale_fairness_test.c:446-467 | groups 1..4 sit under the root with weight 0; thread i's node 5+i sits under group i%4+1 at depth 2 with weight 1024 |
| `FairnessTest.ConfigureThreadsForHierarchy` | test_lock/upscale_fairness_test.c:503-550 | the first n records get each shape's nice value, weight and node; the rest are untouched |
| `FairnessTest.BindingNamesTreeNode` | test_lock/upscale_fairness_test.c:512-538 | each thread's parent_node is a non-root node of the tree built for its shape (a thread node in the grouped shape) |
| `FairnessTest.GroupedClassesAgree` | test_lock/upscale_fairness_test.c:537-544 | in the grouped shape two threads share a group node iff they share a nice value |
| `FairnessTest.LockWeightsPositive` | test_lock/upscale_fairness_test.c:218-219 | for up to 16 threads weight·(20+nice) is positive in every shape and at most 58880 |
| `FairnessTest.RunWorker` | test_lock/upscale_fairness_test.c:204-286 | a thread whose setpriority fails for another reason than permission runs no iteration; otherwise the loop's final state is the fold of the per-iteration step over the observations |
| `FairnessTest.WorkerIteration` | test_lock/upscale_fairness_test.c:231-286 | one pass of the loop body yields exactly the per-iteration step on the observed clock, draw and store status |
| `FairnessTest.RunCounts` | test_lock/upscale_fairness_test.c:232-272 | each iteration is one acquisition and one operation of the kind its draw chose; the counter discipline is kept; slice violations never exceed iterations |
| `FairnessTest.RunPauses` | test_lock/upscale_fairness_test.c:284-286 | the thread pauses once per multiple of 100 its total passes |
| `FairnessTest.FairnessTestMain` | test_lock/upscale_fairness_test.c:639-768 | exit 0 iff validation, lock init, environment and database all succeed; the tree is built iff validation passed, with the selected shape; otherwise exit 1 and no worker runs |
| `Cgroups.CgroupOf` | test_lock/upscale_fairness_cgroups.c:522-532 | every thread joins a configured non-root cgroup |
| `Cgroups.ThreadCountClosed` | test_lock/upscale_fairness_cgroups.c:513-536 | the occupancy after n threads in closed form: realtime takes the first 2 threads, system the next 2, interactive the next 4, user the next 4 and batch all the rest; root and unused slots get none |
| `Cgroups.ThreadCountsFit` | test_lock/upscale_fairness_cgroups.c:125-218 | for n ≤ 16 the cgroup thread counts add up to n, root gets none, and no cgroup exceeds its max_threads |
| `Cgroups.CgroupsHierarchy` | test_lock/upscale_fairness_cgroups.c:484-485 | the tree has 1 + (num_cgroups − 1) + n nodes |
| `Cgroups.CgroupRegistry.constructor` | test_lock/upscale_fairness_cgroups.c:117-118 | the static table starts zeroed with no cgroups |
| `Cgroups.CgroupRegistry.InitCgroupConfigs` | test_lock/upscale_fairness_cgroups.c:121-226 | slots 0-5 get the configured cgroups, the rest are unchanged, num_cgroups becomes 6 |
| `Cgroups.CgroupRegistry.InitCgroupsHierarchy` | test_lock/upscale_fairness_cgroups.c:482-543 | the node array is the cgroup tree, and each cgroup's thread_count grows by the threads assigned to it |
| `Cgroups.FillCgroupNodes` | test_lock/upscale_fairness_cgroups.c:494-511 | nodes 0 .. num_cgroups − 1 are the root and the cgroups, each under the root with its cgroup's weight; the thread slots are untouched |
| `Cgroups.CgroupRegistry.AddThreadNodes` | test_lock/upscale_fairness_cgroups.c:513-543 | node num_cgroups + i is thread i under its cgroup with weight 1024, and each cgroup's thread_count grows by the threads assigned to it |
| `Cgroups.CgroupRegistry.ConfigureThreadsForCgroups` | test_lock/upscale_fairness_cgroups.c:546-580 | the first n records get their cgroup's nice value and type, their class weight and node (num_cgroups − 1) + 1 + i |
| `Cgroups.CgroupsTreeShape` | test_lock/upscale_fairness_cgroups.c:482-543 | the tree is rooted; cgroup nodes sit under the root with their weight; every thread node sits at depth 2 under its cgroup |
| `Cgroups.BindingMatchesTree` | test_lock/upscale_fairness_cgroups.c:574-578 | a thread's parent_node is its own node, whose parent is the thread's recorded cgroup, whose nice value and type the thread carries |
| `Cgroups.LockWeightValues` | test_lock/upscale_fairness_cgroups.c:377 | the adjusted weights are exact: 8192, 3072, 1920, 1024, 256 |
| `Cgroups.LockWeightOrder` | test_lock/upscale_fairness_cgroups.c:552-571 | a later thread never gets a larger lock weight; different cgroups get different weights; the minimum is 256 |
| `Cgroups.RunCgroupWorker` | test_lock/upscale_fairness_cgroups.c:350-479 | a thread whose setpriority fails for another reason than permission runs no iteration; otherwise the loop equals the fold of the cgroup step |
| `Cgroups.CgroupIteration` | test_lock/upscale_fairness_cgroups.c:393-471 | one pass of the loop body yields exactly the cgroup step: throttle check, acquisition, operation, slice check and break |
| `Cgroups.CgroupRunCounts` | test_lock/upscale_fairness_cgroups.c:425-458 | each iteration is one acquisition and one operation whatever the throttle does; the counter discipline is kept |
| `Cgroups.ThrottleAdvance` | test_lock/upscale_fairness_cgroups.c:394-406 | one throttle check adds one to throttles·period + counter and keeps the counter below the period |
| `Cgroups.CgroupRunThrottles` | test_lock/upscale_fairness_cgroups.c:394-406 | with a positive quota the throttles taken are the quotient and the counter the remainder of the iterations divided by 101 − quota (by 1 once the quota reaches 100); without a quota nothing is throttled |
| `Cgroups.CgroupRunBreaks` | test_lock/upscale_fairness_cgroups.c:460-471 | the break microseconds of a run are the difference of the break totals at its end and start |
| `Cgroups.BreakTotalClosed` | test_lock/upscale_fairness_cgroups.c:460-471 | the breaks over a thread's first n operations in closed form: 0.5 ms per 50 for interactive threads, 1 ms per 100 plus 1 ms more per 500 for batch threads, 1 ms per 100 for the rest |
| `Cgroups.BatchRestsLonger` | test_lock/upscale_fairness_cgroups.c:460-471 | per 500 operations a batch thread rests 6 ms (one 2 ms break in place of the 1 ms one, plus four 1 ms breaks), a user or interactive thread 5 ms |
| `Cgroups.AggregateByCgroup` | test_lock/upscale_fairness_cgroups.c:637-658 | the arrays hold each cgroup's operation total, thread count and wrapped throttle total |
| `Cgroups.AggregateStep` | test_lock/upscale_fairness_cgroups.c:655-657 | one more thread adds its operations, one thread and its throttle time to its own cgroup's entries and leaves every other cgroup's alone |
| `Cgroups.CgroupsPartition` | test_lock/upscale_fairness_cgroups.c:651-657 | the per-cgroup totals add up to the overall total and the per-cgroup thread counts to the number of threads |
| `Cgroups.ReportedIds` | test_lock/upscale_fairness_cgroups.c:670-671 | the listed cgroups are non-root ids below num_cgroups with threads |
| `Cgroups.ReportedIdsOrdered` | test_lock/upscale_fairness_cgroups.c:670-671 | cgroups are listed in increasing order, so none twice |
| `Cgroups.ReportedIdsComplete` | test_lock/upscale_fairness_cgroups.c:670-671 | every non-root cgroup with threads is listed |
| `Cgroups.EveryThreadsCgroupReported` | test_lock/upscale_fairness_cgroups.c:655-671 | the cgroup of every thread in a non-root cgroup appears in the summary |
| `Cgroups.SummaryRowFor` | test_lock/upscale_fairness_cgroups.c:672-678 | a row carries the cgroup's threads, operations and throttle, and average × threads = operations |
| `Cgroups.SummaryRows` | test_lock/upscale_fairness_cgroups.c:670-680 | one summary row per listed cgroup, in order |
| `Cgroups.ExpectedAsWrittenClosed` | test_lock/upscale_fairness_cgroups.c:712 | the expected shares as written add up to the listed cgroups' cpu_shares over 1024 |
| `Cgroups.ExpectedSharesAsWritten` | test_lock/upscale_fairness_cgroups.c:710-719 | with the configured table and 16 threads the expected shares as written add up to 9.0 (900 %) |
| `Cgroups.ExpectedSharesSumToOne` | test_lock/upscale_fairness_cgroups.c:710-719 | the corrected expected shares of the listed cgroups add up to 1 |
| `Cgroups.ShareOf` | test_lock/upscale_fairness_cgroups.c:712-714 | actual share defined iff there was work, with actual × total = ops; ratio defined iff also the expected share is non-zero, with ratio × expected = actual |
| `Cgroups.ProportionalShareScoresOne` | test_lock/upscale_fairness_cgroups.c:712-714 | a cgroup whose operations are proportional to its cpu_shares among the listed cgroups gets ratio 1 with the corrected expected share |
| `Cgroups.ShareRows` | test_lock/upscale_fairness_cgroups.c:710-719 | one printed share line per listed cgroup, in order, with the expected share as written (cpu_shares / 1024) |
| `Cgroups.CorrectedShareRows` | test_lock/upscale_fairness_cgroups.c:710-719 | one share line per listed cgroup, in order, with the corrected expected share |
| `Cgroups.ExpectedShareScale` | test_lock/upscale_fairness_cgroups.c:712 | the expected share as written is the corrected share scaled by the listed cgroups' total cpu_shares over 1024 |
| `Cgroups.FullOccupancyShares` | test_lock/upscale_fairness_cgroups.c:712 | with the configured table and 16 threads the listed cgroups' cpu_shares add up to 9216, nine times 1024 |
| `Cgroups.CgroupsStats` | test_lock/upscale_fairness_cgroups.c:622-720 | the report's total, attained min and max, average, index as written, corrected Jain index and spread come from the per-thread totals; the summary, printed share lines and corrected share lines from the per-cgroup aggregation |
| `Cgroups.CgroupsMain` | test_lock/upscale_fairness_cgroups.c:722-847 | exit 0 iff validation, lock init, environment and database succeed; the tree is built iff validation passed; otherwise exit 1 |
| `HierarchyMutex.Rank` | test_lock/upscale_mutex.c:34-40 | the five levels take enum values 0..4 |
| `HierarchyMutex.LevelOf` | test_lock/upscale_mutex.c:835 | thread i runs at level i % 5 |
| `HierarchyMutex.LockKindOf` | test_lock/upscale_mutex.c:43-48 | a lock type names a lock iff it is 0..3 |
| `HierarchyMutex.InitLock` | test_lock/upscale_mutex.c:205-261 | returns 0 or −1; 0 iff the type is known and the spinlock or adaptive-mutex initialisers it needs succeed; an unknown type gives −1 |
| `HierarchyMutex.Starvation` | test_lock/upscale_mutex.c:313-325 | no gap is recorded while last_lock_time is 0; otherwise the maximum grows to at least the gap and periods count a gap over 100 ms; last_lock_time becomes now |
| `HierarchyMutex.TrackHandoff` | test_lock/upscale_mutex.c:327-356 | a re-acquisition only extends the consecutive run; any other acquisition restarts it at 1 and records the new holder; a switch is counted iff a previous holder existed at another level |
| `HierarchyMutex.Dominance` | test_lock/upscale_mutex.c:333-345 | on a handoff from a lower level the thread dominated, from a higher level it was starved; the two counts grow together exactly as the switch count does |
| `HierarchyMutex.LockTracker.constructor` | test_lock/upscale_mutex.c:114-118 | the tracker starts with no holder, level BACKGROUND and zero counts |
| `HierarchyMutex.ThreadLock.constructor` | test_lock/upscale_mutex.c:846-862 | a thread's starvation and dominance fields start at 0 |
| `HierarchyMutex.AcquireLock` | test_lock/upscale_mutex.c:285-359 | returns the wrapped wait time; the tracker and the thread's fields become the tracker and starvation/dominance step of their old values |
| `HierarchyMutex.CheckStarvation` | test_lock/upscale_mutex.c:313-324 | the thread's fields become the starvation step of their old values at the acquisition time |
| `HierarchyMutex.TrackHierarchy` | test_lock/upscale_mutex.c:326-356 | the tracker globals become the handoff step and the thread's dominance counters the dominance step of their old values |
| `HierarchyMutex.ReplayLastHolder` | test_lock/upscale_mutex.c:354-355 | after any acquisitions the tracker names the last acquirer and its level |
| `HierarchyMutex.ReplaySwitches` | test_lock/upscale_mutex.c:346-347 | hierarchy_switches equals the number of adjacent acquisitions at different levels |
| `HierarchyMutex.ReplayDominance` | test_lock/upscale_mutex.c:337-347 | hierarchy_switches equals the sum over threads of dominated + starved |
| `HierarchyMutex.ReplayConsecutive` | test_lock/upscale_mutex.c:328-331 | consecutive_same_thread is the length of the last holder's unbroken run |
| `HierarchyMutex.ReplayStarvation` | test_lock/upscale_mutex.c:313-325 | a thread's starvation fields depend only on its own acquisition times |
| `HierarchyMutex.StarvationRunGaps` | test_lock/upscale_mutex.c:313-325 | max_starvation_time is the longest gap between the thread's acquisitions, starvation_periods the number of gaps over 100 ms, last_lock_time the latest acquisition |
| `HierarchyMutex.RunMutexWorker` | test_lock/upscale_mutex.c:496-552 | the loop's final state is the fold of the per-iteration step over the observations |
| `HierarchyMutex.MutexIteration` | test_lock/upscale_mutex.c:497-552 | one pass of the loop body yields exactly the per-iteration step on the observed clock, draw, status and consecutive count |
| `HierarchyMutex.MutexRunCounts` | test_lock/upscale_mutex.c:510-540 | each iteration is one acquisition and one operation of the kind its draw chose; insert + find + update = total = acquisitions is kept |
| `HierarchyMutex.MutexRunMaxConsecutive` | test_lock/upscale_mutex.c:514-517 | max_consecutive_acquisitions is the running maximum of the observed consecutive_same_thread |
| `HierarchyMutex.MutexRunYields` | test_lock/upscale_mutex.c:548-551 | the thread yields once per multiple of 10 its total passes |
| `HierarchyMutex.LevelTags` | test_lock/upscale_mutex.c:589-590 | thread i is counted at level i % 5 with its own total |
| `HierarchyMutex.AggregateByLevel` | test_lock/upscale_mutex.c:575-591 | the arrays hold each level's operation total and thread count |
| `HierarchyMutex.LevelsPartition` | test_lock/upscale_mutex.c:575-591 | threads_by_hierarchy adds up to n and total_ops_by_hierarchy to total_ops |
| `HierarchyMutex.LevelSizes` | test_lock/upscale_mutex.c:835 | level l gets ⌈(n − l)/5⌉ of n threads, so every level is populated from 5 threads on |
| `HierarchyMutex.AssessMonotone` | test_lock/upscale_mutex.c:648-672 | more throughput never worsens the verdict of CRITICAL, HIGH and NORMAL, and never improves that of LOW and BACKGROUND |
| `HierarchyMutex.LevelFairness` | test_lock/upscale_mutex.c:610-642 | a lone thread scores 1.0; NaN exactly for several idle threads; otherwise the level index lies in [1/count, 1] |
| `HierarchyMutex.LevelIndexCov` | test_lock/upscale_mutex.c:624-642 | every level's index and CoV² satisfy index · (1 + CoV²) = 1 |
| `HierarchyMutex.LevelAverage` | test_lock/upscale_mutex.c:607-608 | the level average times its thread-seconds gives back the level total |
| `HierarchyMutex.LevelRowFacts` | test_lock/upscale_mutex.c:605-677 | a row has the level's thread count and average; a lone thread has index 1.0 and CoV 0; the verdict is that of the average |
| `HierarchyMutex.GradeMonotone` | test_lock/upscale_mutex.c:736-747 | a higher overall index never gets a worse label |
| `HierarchyMutex.GradeExtremes` | test_lock/upscale_mutex.c:694-747 | an even, non-idle split is EXCELLENT; a run with no operations (NaN index) is VERY POOR |
| `HierarchyMutex.CriticalVsBackground` | test_lock/upscale_mutex.c:750-767 | the comparison is reported iff both CRITICAL and BACKGROUND have threads |
| `HierarchyMutex.VerdictMatchesRatio` | test_lock/upscale_mutex.c:753-766 | with background work: GOOD iff ratio > 2, FAIR iff 1 < ratio ≤ 2, POOR iff ratio ≤ 1; with an idle background the ratio is the critical average, GOOD iff critical did work, never FAIR |
| `HierarchyMutex.HierarchyStats` | test_lock/upscale_mutex.c:563-772 | the report: level rows, total, attained min and max around the average total / n, Jain, CoV², Gini, spread and grade of the totals, the switches, and the critical-vs-background comparison from the level aggregation |
| `HierarchyMutex.MutexMain` | test_lock/upscale_mutex.c:774-913 | exit 0 or 1; 0 iff validation, init_lock, environment and database succeed, exactly when workers run; an unknown lock type exits 1; workers run with the named lock at levels i % 5 |

## Left out

- Concurrency is not modelled: thread creation and join, the stop flag, and the interleaving of workers. Each worker's loop is modelled alone over a sequence of its observations. The tracker is modelled over one acquisition order, which the lock serialises.
- The lock primitives themselves are external code: `hfairlock_init/acquire/release/thread_init` and the pthread locks. The model keeps only the values passed to them (tree, weight, node) and the slice end that `hfairlock_release` returns, which is an input.
- Sleeps and scheduling calls (`sleep`, `usleep`, `sched_yield`) only take time. The model counts them: pauses, throttle sleeps, break microseconds, yields.
- `setpriority`, `sched_setscheduler`, affinity, `setup_thread_hierarchy` and the `hierarchy_config` priority table are OS calls whose effect on scheduling is not modelled. `upscale_mutex` ignores their outcome. In the two fairness drivers a worker returns before its loop when `setpriority` fails with an error other than EPERM or EACCES. That outcome is the `prioritySet` input of `FairnessTest.RunWorker` and `Cgroups.RunCgroupWorker`.
- `simulate_work` is a busy loop over doubles with no observable result.
- The per-operation cycle count a worker adds to its time total (`FairnessTest.Tick.elapsed`, `Cgroups.CgroupTick.elapsed`, `HierarchyMutex.MutexTick.elapsed`) is an input of each iteration. It is not tied to the `elapsed` of `Common.PerformInsert`, `Common.PerformFind` or `Common.PerformUpdate`, nor to `Common.KeyCounter`, so the worker loops and the store-operation members are not composed. The worker properties hold for any elapsed value.
- The key-value store is external. Its statuses are opaque inputs. `generate_data` only fills the value buffer with random letters.
- `rdtsc`, `rand`, `srand` and `time` are replaced by injected values.
- Floating point is modelled as exact reals. IEEE rounding and NaN propagation are not modelled beyond the 0/0 cases, which are `None`. `sqrt` is not modelled: the coefficient of variation is carried as its square, CoV².
- Output formatting is not modelled: `printf`, ops/sec and millisecond conversions, and the `print_hierarchy_structure`/`print_cgroups_hierarchy_structure` dumps. Cgroup names are kept only as table data.
- `atoi`/`atof` parsing is not modelled: the command line arrives as already-converted numbers.
- `destroy_lock`, `release_lock` and the store cleanup at exit only release resources.
- `Cgroups.ThrottleSleepMicros`: the microseconds slept per throttle are stated in the model but not summed.
- The realtime cgroup's attempt at `SCHED_FIFO` scheduling is an OS call whose failure only prints a line.
- The 32-bit `next_key_id` overflow is not modelled. `Keys` lemmas require key ids below 10^10, and the fixed 13-character length requires ids below 10^8.
- The per-thread `ull` operation counters are unbounded naturals. Only the cycle-time sums and the index denominator wrap modulo 2^64.
- `HierarchyMutex.LevelFairness`: the driver computes a level's index and CoV over ops/sec (count / duration). The model uses the raw counts. Both figures are scale-free, but that equivalence is not proved.
- `HierarchyMutex.HierarchyStats`: requires a positive duration. The driver never checks it, so a zero or negative duration gives infinities or negative averages in doubles.
- The worker's observed `consecutive_same_thread` (`HierarchyMutex.MutexTick.consecutive`) is an input per iteration. The replay lemmas state what the tracker holds after each acquisition, but the two are not linked across threads.
- `HierarchyMutex.StarvationRunGaps`: requires every acquisition time to be non-zero, since a zero cycle reading would count as "no previous acquisition". `HierarchyMutex.ReplayStarvation` holds without that condition.
- `FairnessTest.LockWeightsPositive`: requires at most 16 threads, the limit `main` enforces. Beyond that the skewed shape's `2048 >> i` reaches 0.
- Thread-creation failure in `main` (stop and join the started threads) is not modelled.
- `plot_fairness_results.py` plots CSV output and is not part of this model.

## Findings

| source | as written | input that shows it | evidently intended | confidence | as-written member | corrected member |
|---|---|---|---|---|---|---|
| test_lock/upscale_fairness_test.c:622-626 (same code at test_lock/upscale_fairness_cgroups.c:692-696) | the "fairness index" is avg²·n / ⌊(total² mod 2^64) / n⌋, which depends only on the total | per-thread counts [10, 0]: index 1.0 although one thread did all the work (Jain 0.5); counts [1, 0]: integer divisor 0, index +inf | Jain's index (Σx)² / (n·Σx²) of the per-thread counts, in [1/n, 1] and 1 iff the split is even | not executed | `Metrics.IndexCounterexamples` (with `Metrics.IndexIgnoresDistribution` on `Metrics.IndexAsWritten`) | `Metrics.FairnessIndex` |
| test_lock/upscale_fairness_cgroups.c:712 | expected share = cpu_shares / 1024, a multiple of the default weight | the configured table with 16 threads: the five listed cgroups expect 200 % + 400 % + 150 % + 100 % + 50 % = 900 %, while actual shares add up to 100 % | cpu_shares over the listed cgroups' total cpu_shares, adding up to 100 % | not executed | `Cgroups.ExpectedSharesAsWritten` | `Cgroups.ExpectedSharesSumToOne` (on `Cgroups.ExpectedShare`) |

The reports keep the figures the drivers print: `Metrics.FairnessReport.index` is the index as written and `Cgroups.CgroupsReport.shares` uses cpu_shares / 1024. The corrected figures sit beside them, in `Metrics.FairnessReport.jain` and `Cgroups.CgroupsReport.correctedShares`.
