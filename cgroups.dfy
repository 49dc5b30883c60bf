/** upscale_fairness_cgroups: the same global fair lock, but the scheduling
    tree mimics Linux control groups. Five cgroup nodes sit under the root,
    each thread's node sits under the cgroup its index assigns it to, and
    the cgroup decides the thread's nice value, its lock weight, a CPU
    throttle and the length of its breaks. The report also totals the work
    per cgroup and compares each cgroup's share with its cpu_shares. */
module Cgroups {
  import opened Common
  import Metrics
  import Arith

  const MaxCgroups: nat := 8
  /** init_cgroup_configs fills the first six slots. */
  const ConfiguredCount: nat := 6

  // ---------------------------------------------------------------------
  // The cgroup table (cgroup_config_t, init_cgroup_configs)

  datatype CgroupType = CgRoot | CgSystem | CgUser | CgRealtime | CgBatch | CgInteractive | CgNetwork | CgIo

  datatype CgroupConfig = CgroupConfig(
    cgroupId: int, kind: CgroupType, name: string,
    weight: int, cpuShares: int, memoryLimitMb: int, ioWeight: int,
    rtPriority: int, niceValue: int, throttleQuota: int,
    threadCount: int, maxThreads: int)

  /** A slot of the zero-initialised static table. */
  const EmptyCgroup := CgroupConfig(0, CgRoot, "", 0, 0, 0, 0, 0, 0, 0, 0, 0)

  /** The six cgroups init_cgroup_configs writes, in slot order. The slot
      index is the cgroup id; it is not the type's enum value. */
  function ConfiguredCgroups(): (t: seq<CgroupConfig>)
    ensures |t| == ConfiguredCount
  {
    [ CgroupConfig(0, CgRoot, "root", 1024, 1024, 0, 1000, 0, 0, 0, 0, MaxThreads),
      CgroupConfig(1, CgSystem, "system", 2048, 2048, 512, 1000, 10, -10, 0, 0, 4),
      CgroupConfig(2, CgRealtime, "realtime", 4096, 4096, 256, 1000, 20, -20, 0, 0, 2),
      CgroupConfig(3, CgInteractive, "interactive", 1536, 1536, 1024, 800, 0, -5, 0, 0, 6),
      CgroupConfig(4, CgUser, "user", 1024, 1024, 2048, 500, 0, 0, 0, 0, 8),
      CgroupConfig(5, CgBatch, "batch", 512, 512, 4096, 200, 0, 10, 50, 0, 4) ]
  }

  /** The table main works with: the six configured slots and two empty ones. */
  function DefaultTable(): (t: seq<CgroupConfig>)
    ensures |t| == MaxCgroups
  {
    ConfiguredCgroups() + [EmptyCgroup, EmptyCgroup]
  }

  /** The cgroup thread i joins: threads 0-1 realtime, 2-3 system, 4-7
      interactive, 8-11 user, the rest batch. */
  function CgroupOf(i: nat): (g: nat)
    ensures 1 <= g < ConfiguredCount
  {
    if i < 2 then 2 else if i < 4 then 1 else if i < 8 then 3 else if i < 12 then 4 else 5
  }

  /** The thread weight configure_threads_for_cgroups gives thread i. */
  function ClassWeight(i: nat): int {
    if i < 2 then 2048 else if i < 4 then 1536 else if i < 8 then 1280 else if i < 12 then 1024 else 512
  }

  /** How many of threads 0 .. n-1 join cgroup g. */
  function ThreadCount(n: nat, g: nat): nat {
    if n == 0 then 0 else ThreadCount(n - 1, g) + (if CgroupOf(n - 1) == g then 1 else 0)
  }

  function Clamp(x: int, cap: nat): nat {
    if x < 0 then 0 else if x > cap then cap else x
  }

  /** The occupancy of every cgroup after n threads, in closed form. */
  lemma {:induction false} ThreadCountClosed(n: nat)
    ensures ThreadCount(n, 2) == Clamp(n, 2)
    ensures ThreadCount(n, 1) == Clamp(n - 2, 2)
    ensures ThreadCount(n, 3) == Clamp(n - 4, 4)
    ensures ThreadCount(n, 4) == Clamp(n - 8, 4)
    ensures ThreadCount(n, 5) == Clamp(n - 12, n)
    ensures forall g :: (g == 0 || g >= ConfiguredCount) ==> ThreadCount(n, g) == 0
  {
    if n > 0 {
      ThreadCountClosed(n - 1);
      forall g | g == 0 || g >= ConfiguredCount
        ensures ThreadCount(n, g) == 0
      {
        assert ThreadCount(n, g) == ThreadCount(n - 1, g);
      }
    }
  }

  /** Every thread joins exactly one configured non-root cgroup, and for up to
      MAX_THREADS threads no cgroup receives more than its max_threads. */
  lemma ThreadCountsFit(n: nat)
    requires n <= MaxThreads
    ensures ThreadCount(n, 1) + ThreadCount(n, 2) + ThreadCount(n, 3) + ThreadCount(n, 4) + ThreadCount(n, 5) == n
    ensures ThreadCount(n, 0) == 0
    ensures forall g :: 0 <= g < ConfiguredCount ==> ThreadCount(n, g) <= ConfiguredCgroups()[g].maxThreads
  {
    ThreadCountClosed(n);
  }

  // ---------------------------------------------------------------------
  // The global table and the builders that use it

  /** The per-thread record configure_threads_for_cgroups writes. */
  datatype CgroupThread = CgroupThread(threadId: nat, priority: int, weight: int, parentNode: int,
                                       cgroupId: nat, kind: CgroupType)

  /** The node init_cgroups_hierarchy writes at index i: the root and the
      cgroup nodes carry their cgroup's weight and hang under the root; the
      thread nodes carry weight 1024 and hang under their cgroup's node. */
  function CgroupNode(table: seq<CgroupConfig>, numCgroups: nat, now: U64, i: nat): Node
    requires |table| == MaxCgroups && 1 <= numCgroups <= MaxCgroups
  {
    if i < numCgroups then Node(i, 0, table[i].weight, 0, now, 0)
    else Node(i, CgroupOf(i - numCgroups), 1024, 0, now, 0)
  }

  /** The tree: 1 + (numCgroups - 1) + n nodes. */
  function CgroupsHierarchy(table: seq<CgroupConfig>, numCgroups: nat, n: nat, now: U64): (h: seq<Node>)
    requires |table| == MaxCgroups && 1 <= numCgroups <= MaxCgroups
    ensures |h| == numCgroups + n
  {
    seq(numCgroups + n, i requires 0 <= i < numCgroups + n => CgroupNode(table, numCgroups, now, i))
  }

  /** The table after n threads were counted into their cgroups. */
  function WithThreadCounts(table: seq<CgroupConfig>, n: nat): (t: seq<CgroupConfig>)
    ensures |t| == |table|
  {
    seq(|table|, g requires 0 <= g < |table| => table[g].(threadCount := table[g].threadCount + ThreadCount(n, g)))
  }

  /** Counting thread n into its cgroup takes the table for n threads to the one for n + 1. */
  lemma WithThreadCountsStep(table: seq<CgroupConfig>, n: nat)
    requires CgroupOf(n) < |table|
    ensures var t, g := WithThreadCounts(table, n), CgroupOf(n);
      WithThreadCounts(table, n + 1) == t[g := t[g].(threadCount := t[g].threadCount + 1)]
  {
  }

  /** What thread i is told by configure_threads_for_cgroups. */
  function CgroupBinding(table: seq<CgroupConfig>, numCgroups: nat, i: nat): CgroupThread
    requires |table| == MaxCgroups
  {
    var g := CgroupOf(i);
    CgroupThread(i, table[g].niceValue, ClassWeight(i), (numCgroups - 1) + 1 + i, g, table[g].kind)
  }

  /** The root and cgroup loop of init_cgroups_hierarchy: node i is cgroup
      i under the root, with the cgroup's weight; later slots are untouched. */
  method FillCgroupNodes(h: array<Node>, table: seq<CgroupConfig>, m: nat, now: U64)
    requires |table| == MaxCgroups && 1 <= m <= MaxCgroups && m <= h.Length
    modifies h
    ensures forall j :: 0 <= j < m ==> h[j] == CgroupNode(table, m, now, j)
    ensures forall j :: m <= j < h.Length ==> h[j] == old(h[j])
  {
    h[0] := Node(0, 0, table[0].weight, 0, now, 0);
    for i := 1 to m
      invariant forall j :: 0 <= j < i ==> h[j] == CgroupNode(table, m, now, j)
      invariant forall j :: m <= j < h.Length ==> h[j] == old(h[j])
    {
      h[i] := Node(i, 0, table[i].weight, 0, now, 0);
    }
  }

  /** The static cgroups[] array and num_cgroups. */
  class CgroupRegistry {
    var cgroups: seq<CgroupConfig>
    var numCgroups: nat

    predicate Valid()
      reads this
    {
      |cgroups| == MaxCgroups && numCgroups <= MaxCgroups
    }

    constructor ()
      ensures Valid() && numCgroups == 0
      ensures forall g :: 0 <= g < MaxCgroups ==> cgroups[g] == EmptyCgroup
    {
      cgroups := seq(MaxCgroups, _ => EmptyCgroup);
      numCgroups := 0;
    }

    /** init_cgroup_configs: overwrite slots 0-5 and set num_cgroups to 6. */
    method InitCgroupConfigs()
      requires Valid()
      modifies this
      ensures Valid()
      ensures cgroups == ConfiguredCgroups() + old(cgroups)[ConfiguredCount..]
      ensures numCgroups == ConfiguredCount
    {
      cgroups := ConfiguredCgroups() + cgroups[ConfiguredCount..];
      numCgroups := ConfiguredCount;
    }

    /** init_cgroups_hierarchy: a new node array for the root, the cgroup
        nodes and one node per thread, counting each thread into its cgroup. */
    method InitCgroupsHierarchy(n: nat, now: U64) returns (h: array<Node>)
      requires Valid() && numCgroups >= 1
      modifies this
      ensures Valid() && numCgroups == old(numCgroups)
      ensures h[..] == CgroupsHierarchy(old(cgroups), numCgroups, n, now)
      ensures cgroups == WithThreadCounts(old(cgroups), n)
    {
      h := new Node[numCgroups + n](_ => Node(0, 0, 0, 0, 0, 0));
      FillCgroupNodes(h, cgroups, numCgroups, now);
      AddThreadNodes(h, n, now);
    }

    /** The thread loop of init_cgroups_hierarchy: node numCgroups + i is
        thread i under its cgroup, and the cgroup counts the thread. */
    method AddThreadNodes(h: array<Node>, n: nat, now: U64)
      requires Valid() && numCgroups >= 1 && h.Length == numCgroups + n
      requires forall j :: 0 <= j < numCgroups ==> h[j] == CgroupNode(cgroups, numCgroups, now, j)
      modifies this, h
      ensures Valid() && numCgroups == old(numCgroups)
      ensures h[..] == CgroupsHierarchy(old(cgroups), numCgroups, n, now)
      ensures cgroups == WithThreadCounts(old(cgroups), n)
    {
      var table := cgroups;
      var m := numCgroups;
      for i := 0 to n
        invariant forall j :: 0 <= j < m + i ==> h[j] == CgroupNode(table, m, now, j)
        invariant cgroups == WithThreadCounts(table, i) && numCgroups == m
      {
        var nodeId := m + i;
        var g := CgroupOf(i);
        WithThreadCountsStep(table, i);
        h[nodeId] := Node(nodeId, g, 1024, 0, now, 0);
        cgroups := cgroups[g := cgroups[g].(threadCount := cgroups[g].threadCount + 1)];
      }
      assert h[..] == CgroupsHierarchy(table, m, n, now);
    }

    /** configure_threads_for_cgroups: the first n records get their
        cgroup's nice value and type, their class weight and node. */
    method ConfigureThreadsForCgroups(threads: array<CgroupThread>, n: nat)
      requires Valid() && n <= threads.Length
      modifies threads
      ensures forall i :: 0 <= i < n ==> threads[i] == CgroupBinding(cgroups, numCgroups, i)
      ensures forall i :: n <= i < threads.Length ==> threads[i] == old(threads[i])
    {
      for i := 0 to n
        invariant forall j :: 0 <= j < i ==> threads[j] == CgroupBinding(cgroups, numCgroups, j)
        invariant forall j :: i <= j < threads.Length ==> threads[j] == old(threads[j])
      {
        var g: nat;
        var w: int;
        if i < 2 {
          g, w := 2, 2048;
        } else if i < 4 {
          g, w := 1, 1536;
        } else if i < 8 {
          g, w := 3, 1280;
        } else if i < 12 {
          g, w := 4, 1024;
        } else {
          g, w := 5, 512;
        }
        threads[i] := CgroupThread(i, cgroups[g].niceValue, w, (numCgroups - 1) + 1 + i, g, cgroups[g].kind);
      }
    }
  }

  // ---------------------------------------------------------------------
  // What the tree and the bindings guarantee

  /** With every cgroup a thread can join present, the tree is rooted, the
      cgroup nodes sit directly under the root and every thread node sits
      two levels down, under the node of its own cgroup. */
  lemma CgroupsTreeShape(table: seq<CgroupConfig>, numCgroups: nat, n: nat, now: U64, i: nat)
    requires |table| == MaxCgroups && ConfiguredCount <= numCgroups <= MaxCgroups && i < n
    ensures var h := CgroupsHierarchy(table, numCgroups, n, now);
      && RootedTree(h)
      && (forall g :: 1 <= g < numCgroups ==> h[g].parent == 0 && h[g].weight == table[g].weight)
      && h[numCgroups + i].parent == CgroupOf(i)
      && Depth(h, numCgroups + i) == 2
  {
    var h := CgroupsHierarchy(table, numCgroups, n, now);
    assert RootedTree(h);
    var g := CgroupOf(i);
    assert h[numCgroups + i].parent == g;
    assert Depth(h, g) == 1 by { assert h[g].parent == 0; }
  }

  /** Each thread's parent_node is its own node in the tree, the node's
      parent is the cgroup recorded in the thread, and the thread runs with
      that cgroup's nice value. */
  lemma BindingMatchesTree(table: seq<CgroupConfig>, numCgroups: nat, n: nat, now: U64, i: nat)
    requires |table| == MaxCgroups && ConfiguredCount <= numCgroups <= MaxCgroups && i < n
    ensures var h := CgroupsHierarchy(table, numCgroups, n, now);
      var b := CgroupBinding(table, numCgroups, i);
      && numCgroups <= b.parentNode < |h|
      && h[b.parentNode].parent == b.cgroupId
      && b.priority == table[b.cgroupId].niceValue
      && b.kind == table[b.cgroupId].kind
  {
  }

  /** (int)(cgroup_weight * (thread_weight / 1024.0)): the conversion
      truncates toward zero. */
  function TruncToInt(x: real): int {
    if x >= 0.0 then x.Floor else -((-x).Floor)
  }

  function AdjustedWeight(cgroupWeight: int, threadWeight: int): int {
    TruncToInt(cgroupWeight as real * (threadWeight as real / 1024.0))
  }

  /** The lock weight each thread registers with the configured table. */
  function ThreadLockWeight(i: nat): int {
    AdjustedWeight(DefaultTable()[CgroupOf(i)].weight, ClassWeight(i))
  }

  /** The five weights: realtime 8192, system 3072, interactive 1920,
      user 1024, batch 256 (every product is exact). */
  lemma LockWeightValues(i: nat)
    ensures ThreadLockWeight(i) == (if i < 2 then 8192 else if i < 4 then 3072 else if i < 8 then 1920
                                    else if i < 12 then 1024 else 256)
  {
  }

  /** A thread created later never gets a larger lock weight, and threads of
      different cgroups get different weights: the weight orders the cgroups
      realtime, system, interactive, user, batch. */
  lemma LockWeightOrder(i: nat, j: nat)
    requires i <= j
    ensures ThreadLockWeight(j) <= ThreadLockWeight(i)
    ensures CgroupOf(i) != CgroupOf(j) ==> ThreadLockWeight(j) < ThreadLockWeight(i)
    ensures ThreadLockWeight(j) >= 256
  {
    LockWeightValues(i);
    LockWeightValues(j);
  }

  // ---------------------------------------------------------------------
  // The worker loop (worker_thread)

  /** One iteration's observations: the two cycle-counter reads around a
      throttle sleep, then the same readings as the fairness driver. */
  datatype CgroupTick = CgroupTick(throttleStart: U64, throttleEnd: U64, draw: nat,
                                   lockStart: U64, lockEnd: U64, elapsed: U64, sliceEnd: U64, now: U64)

  predicate ValidCgroupTicks(ticks: seq<CgroupTick>) {
    forall k :: 0 <= k < |ticks| ==> ticks[k].draw <= RandMax
  }

  /** The counters, slice_violations, operations_since_throttle,
      cgroup_throttle_time, the number of throttle sleeps and the total
      microseconds of the breaks taken after operations. */
  datatype CgroupWorker = CgroupWorker(counters: OpCounters, sliceViolations: nat, sinceThrottle: int,
                                       throttleTime: U64, throttles: nat, breakMicros: nat)

  /** The throttle at the top of each iteration. throttle_start is always 0
      when it is tested (it starts at 0 and is reset after each sleep), so
      the time added is the cycles between the two reads around the sleep. */
  function Throttle(quota: int, s: CgroupWorker, tk: CgroupTick): CgroupWorker {
    if quota <= 0 then s
    else if s.sinceThrottle + 1 > 100 - quota then
      s.(sinceThrottle := 0, throttleTime := AddU64(s.throttleTime, SubU64(tk.throttleEnd, tk.throttleStart)),
         throttles := s.throttles + 1)
    else s.(sinceThrottle := s.sinceThrottle + 1)
  }

  /** The microseconds slept by usleep(1000 * quota / 100) at a throttle. */
  function ThrottleSleepMicros(quota: int): int {
    1000 * quota / 100
  }

  /** The break after the operation that brought the count to total: the
      tests run in order, so a batch thread that misses its 500 falls
      through to the common 100. */
  function BreakMicros(kind: CgroupType, total: nat): nat {
    if kind == CgInteractive && total % 50 == 0 then 500
    else if kind == CgBatch && total % 500 == 0 then 2000
    else if total % 100 == 0 then 1000
    else 0
  }

  function CgroupStep(quota: int, kind: CgroupType, s: CgroupWorker, tk: CgroupTick,
                      insertRatio: real, findRatio: real): CgroupWorker
    requires tk.draw <= RandMax
  {
    var s1 := Throttle(quota, s, tk);
    var op := ChooseOp(tk.draw, insertRatio, findRatio);
    var c := Record(s1.counters, op, SubU64(tk.lockEnd, tk.lockStart), tk.elapsed);
    s1.(counters := c,
        sliceViolations := s1.sliceViolations + (if tk.now > tk.sliceEnd then 1 else 0),
        breakMicros := s1.breakMicros + BreakMicros(kind, c.totalOperations))
  }

  function CgroupRun(quota: int, kind: CgroupType, s: CgroupWorker, ticks: seq<CgroupTick>,
                     insertRatio: real, findRatio: real): CgroupWorker
    requires ValidCgroupTicks(ticks)
  {
    if ticks == [] then s
    else CgroupStep(quota, kind, CgroupRun(quota, kind, s, ticks[..|ticks| - 1], insertRatio, findRatio),
                    ticks[|ticks| - 1], insertRatio, findRatio)
  }

  /** Running one tick more is one more CgroupStep. */
  lemma CgroupRunPrefixStep(quota: int, kind: CgroupType, s: CgroupWorker, ticks: seq<CgroupTick>, k: nat,
                            insertRatio: real, findRatio: real)
    requires ValidCgroupTicks(ticks) && k < |ticks|
    ensures CgroupRun(quota, kind, s, ticks[..k + 1], insertRatio, findRatio)
         == CgroupStep(quota, kind, CgroupRun(quota, kind, s, ticks[..k], insertRatio, findRatio), ticks[k],
                       insertRatio, findRatio)
  {
    assert ticks[..k + 1][..k] == ticks[..k];
  }

  /** One pass of the loop body: the throttle check, the operation under
      the lock, the slice check and the break after the operation. */
  method CgroupIteration(quota: int, kind: CgroupType, s: CgroupWorker, tk: CgroupTick,
                         insertRatio: real, findRatio: real) returns (r: CgroupWorker)
    requires tk.draw <= RandMax
    ensures r == CgroupStep(quota, kind, s, tk, insertRatio, findRatio)
  {
    var since := s.sinceThrottle;
    var throttleTime := s.throttleTime;
    var throttles := s.throttles;
    if quota > 0 {
      since := since + 1;
      if since > 100 - quota {
        throttleTime := AddU64(throttleTime, SubU64(tk.throttleEnd, tk.throttleStart));
        throttles := throttles + 1;
        since := 0;
      }
    }
    var op := ChooseOp(tk.draw, insertRatio, findRatio);
    var c := Record(s.counters, op, SubU64(tk.lockEnd, tk.lockStart), tk.elapsed);
    var violations := s.sliceViolations;
    if tk.now > tk.sliceEnd {
      violations := violations + 1;
    }
    var pause := BreakMicros(kind, c.totalOperations);
    r := CgroupWorker(c, violations, since, throttleTime, throttles, s.breakMicros + pause);
  }

  /** worker_thread for a thread of the given cgroup. prioritySet says that
      setpriority succeeded or failed only for lack of permission; any other
      failure ends the thread before its loop. */
  method RunCgroupWorker(group: CgroupConfig, prioritySet: bool, init: CgroupWorker, ticks: seq<CgroupTick>,
                         insertRatio: real, findRatio: real) returns (s: CgroupWorker)
    requires ValidCgroupTicks(ticks)
    ensures prioritySet ==> s == CgroupRun(group.throttleQuota, group.kind, init, ticks, insertRatio, findRatio)
    ensures !prioritySet ==> s == init
  {
    s := init;
    if !prioritySet {
      return;
    }
    var quota := group.throttleQuota;
    var k := 0;
    while k < |ticks|
      invariant 0 <= k <= |ticks|
      invariant s == CgroupRun(quota, group.kind, init, ticks[..k], insertRatio, findRatio)
    {
      CgroupRunPrefixStep(quota, group.kind, init, ticks, k, insertRatio, findRatio);
      s := CgroupIteration(quota, group.kind, s, ticks[k], insertRatio, findRatio);
      k := k + 1;
    }
    assert ticks[..k] == ticks;
  }

  /** Every iteration is one operation and one lock acquisition, whatever
      the throttle does. */
  lemma {:induction false} CgroupRunCounts(quota: int, kind: CgroupType, s: CgroupWorker, ticks: seq<CgroupTick>,
                                           insertRatio: real, findRatio: real)
    requires ValidCgroupTicks(ticks)
    ensures var r := CgroupRun(quota, kind, s, ticks, insertRatio, findRatio);
      && r.counters.totalOperations == s.counters.totalOperations + |ticks|
      && r.counters.lockAcquisitions == s.counters.lockAcquisitions + |ticks|
      && r.sliceViolations <= s.sliceViolations + |ticks|
      && (CountsConsistent(s.counters) ==> CountsConsistent(r.counters))
  {
    if ticks != [] {
      CgroupRunCounts(quota, kind, s, ticks[..|ticks| - 1], insertRatio, findRatio);
    }
  }

  /** Iterations per throttle: 101 - quota, or every iteration once the
      quota reaches 100. */
  function ThrottlePeriod(quota: int): nat
    requires quota > 0
  {
    if quota >= 100 then 1 else 101 - quota
  }

  /** The step leaves the throttle fields as the throttle set them. */
  lemma StepThrottleFields(quota: int, kind: CgroupType, s: CgroupWorker, tk: CgroupTick,
                           insertRatio: real, findRatio: real)
    requires tk.draw <= RandMax
    ensures CgroupStep(quota, kind, s, tk, insertRatio, findRatio).sinceThrottle == Throttle(quota, s, tk).sinceThrottle
    ensures CgroupStep(quota, kind, s, tk, insertRatio, findRatio).throttles == Throttle(quota, s, tk).throttles
  {
  }

  /** One more iteration adds one to throttles * period + counter and keeps
      the counter below the period. */
  lemma ThrottleAdvance(quota: int, s: CgroupWorker, tk: CgroupTick)
    requires quota > 0 && 0 <= s.sinceThrottle < ThrottlePeriod(quota)
    ensures var r := Throttle(quota, s, tk);
      && 0 <= r.sinceThrottle < ThrottlePeriod(quota)
      && r.throttles * ThrottlePeriod(quota) + r.sinceThrottle
         == s.throttles * ThrottlePeriod(quota) + s.sinceThrottle + 1
  {
    var p := ThrottlePeriod(quota);
    if s.sinceThrottle + 1 > 100 - quota {
      assert s.sinceThrottle + 1 == p;
      assert (s.throttles + 1) * p == s.throttles * p + p;
    }
  }

  /** With a positive quota a run is a division by the period: the throttles
      taken are the quotient and the counter the remainder of the
      iterations (plus the starting counter), so a throttle falls on every
      period-th iteration; without a quota nothing is throttled. The batch
      cgroup (quota 50) sleeps once every 51 iterations. */
  lemma {:induction false} CgroupRunThrottles(quota: int, kind: CgroupType, s: CgroupWorker, ticks: seq<CgroupTick>,
                                              insertRatio: real, findRatio: real)
    requires ValidCgroupTicks(ticks)
    requires quota > 0 ==> 0 <= s.sinceThrottle < ThrottlePeriod(quota)
    ensures quota > 0 ==>
      var r := CgroupRun(quota, kind, s, ticks, insertRatio, findRatio);
      && 0 <= r.sinceThrottle < ThrottlePeriod(quota)
      && r.throttles * ThrottlePeriod(quota) + r.sinceThrottle
         == s.throttles * ThrottlePeriod(quota) + s.sinceThrottle + |ticks|
    ensures quota <= 0 ==>
      var r := CgroupRun(quota, kind, s, ticks, insertRatio, findRatio);
      r.sinceThrottle == s.sinceThrottle && r.throttles == s.throttles
  {
    if ticks != [] {
      var init := ticks[..|ticks| - 1];
      var tk := ticks[|ticks| - 1];
      CgroupRunThrottles(quota, kind, s, init, insertRatio, findRatio);
      var prev := CgroupRun(quota, kind, s, init, insertRatio, findRatio);
      StepThrottleFields(quota, kind, prev, tk, insertRatio, findRatio);
      if quota > 0 {
        ThrottleAdvance(quota, prev, tk);
      }
    }
  }

  /** Total break microseconds of the operations 1 .. total. */
  function BreakTotal(kind: CgroupType, total: nat): nat {
    if total == 0 then 0 else BreakTotal(kind, total - 1) + BreakMicros(kind, total)
  }

  /** The breaks in closed form: interactive threads take 0.5 ms every 50
      operations, batch threads 2 ms every 500 and 1 ms at the other
      multiples of 100, every other thread 1 ms every 100. */
  function BreakSchedule(kind: CgroupType, total: nat): nat {
    if kind == CgInteractive then 500 * (total / 50)
    else if kind == CgBatch then 1000 * (total / 100) + 1000 * (total / 500)
    else 1000 * (total / 100)
  }

  lemma {:induction false} BreakTotalClosed(kind: CgroupType, total: nat)
    ensures BreakTotal(kind, total) == BreakSchedule(kind, total)
  {
    if total > 0 {
      BreakTotalClosed(kind, total - 1);
      ScheduleStep(kind, total - 1);
    }
  }

  /** The closed form grows by the break after each operation. */
  lemma ScheduleStep(kind: CgroupType, t: nat)
    ensures BreakSchedule(kind, t + 1) == BreakSchedule(kind, t) + BreakMicros(kind, t + 1)
  {
    if kind == CgInteractive {
      InteractiveScheduleStep(t);
    } else if kind == CgBatch {
      BatchScheduleStep(t);
    } else {
      PlainScheduleStep(kind, t);
    }
  }

  lemma InteractiveScheduleStep(t: nat)
    ensures BreakSchedule(CgInteractive, t + 1) == BreakSchedule(CgInteractive, t) + BreakMicros(CgInteractive, t + 1)
  {
    Arith.NextQuotient(t, 50);
  }

  lemma BatchScheduleStep(t: nat)
    ensures BreakSchedule(CgBatch, t + 1) == BreakSchedule(CgBatch, t) + BreakMicros(CgBatch, t + 1)
  {
    Arith.NextQuotient(t, 100);
    Arith.NextQuotient(t, 500);
    Arith.HundredsOfFiveHundred(t + 1);
  }

  lemma PlainScheduleStep(kind: CgroupType, t: nat)
    requires kind != CgInteractive && kind != CgBatch
    ensures BreakSchedule(kind, t + 1) == BreakSchedule(kind, t) + BreakMicros(kind, t + 1)
  {
    Arith.NextQuotient(t, 100);
  }

  /** A step counts one operation and adds the break taken after it. */
  lemma StepBreaks(quota: int, kind: CgroupType, s: CgroupWorker, tk: CgroupTick, insertRatio: real, findRatio: real)
    requires tk.draw <= RandMax
    ensures CgroupStep(quota, kind, s, tk, insertRatio, findRatio).counters.totalOperations
         == s.counters.totalOperations + 1
    ensures CgroupStep(quota, kind, s, tk, insertRatio, findRatio).breakMicros
         == s.breakMicros + BreakMicros(kind, s.counters.totalOperations + 1)
  {
  }

  /** The breaks a run takes add up to the difference of BreakTotal
      between the operation counts at its end and at its start. */
  lemma {:induction false} CgroupRunBreaks(quota: int, kind: CgroupType, s: CgroupWorker, ticks: seq<CgroupTick>,
                                           insertRatio: real, findRatio: real)
    requires ValidCgroupTicks(ticks)
    ensures var r := CgroupRun(quota, kind, s, ticks, insertRatio, findRatio);
      r.breakMicros + BreakTotal(kind, s.counters.totalOperations)
      == s.breakMicros + BreakTotal(kind, r.counters.totalOperations)
  {
    if ticks != [] {
      var prev := CgroupRun(quota, kind, s, ticks[..|ticks| - 1], insertRatio, findRatio);
      CgroupRunBreaks(quota, kind, s, ticks[..|ticks| - 1], insertRatio, findRatio);
      StepBreaks(quota, kind, prev, ticks[|ticks| - 1], insertRatio, findRatio);
    }
  }

  /** Over every 500 operations a batch thread rests 6 ms (one 2 ms break
      and four 1 ms breaks), more than the 5 ms of a user or system thread:
      the batch test adds a longer break but does not remove the common ones. */
  lemma BatchRestsLonger(m: nat)
    requires m >= 1
    ensures BreakTotal(CgBatch, 500 * m) == 6000 * m
    ensures BreakTotal(CgUser, 500 * m) == 5000 * m
    ensures BreakTotal(CgInteractive, 500 * m) == 5000 * m
  {
    BreakTotalClosed(CgBatch, 500 * m);
    BreakTotalClosed(CgUser, 500 * m);
    BreakTotalClosed(CgInteractive, 500 * m);
    assert (500 * m) / 500 == m;
    assert (500 * m) / 100 == 5 * m;
    assert (500 * m) / 50 == 10 * m;
  }

  // ---------------------------------------------------------------------
  // print_cgroups_fairness_stats

  /** What the report reads from each thread after the run. */
  datatype CgroupResult = CgroupResult(cgroupId: nat, totalOperations: nat, throttleTime: U64)

  predicate ValidResults(rs: seq<CgroupResult>) {
    forall k :: 0 <= k < |rs| ==> rs[k].cgroupId < MaxCgroups
  }

  /** Each thread's cgroup and operation count, for the grouping in Metrics. */
  function Tags(rs: seq<CgroupResult>): (ts: seq<Metrics.Tagged>)
    ensures |ts| == |rs|
    ensures forall k :: 0 <= k < |rs| ==> ts[k] == Metrics.Tagged(rs[k].cgroupId, rs[k].totalOperations)
  {
    seq(|rs|, k requires 0 <= k < |rs| => Metrics.Tagged(rs[k].cgroupId, rs[k].totalOperations))
  }

  /** Every thread's operation count, in thread order. */
  function Totals(rs: seq<CgroupResult>): seq<nat> {
    Metrics.Counts(Tags(rs))
  }

  /** cgroup_throttle_time[g], summed in unsigned 64-bit arithmetic. */
  function GroupThrottle(rs: seq<CgroupResult>, g: nat): U64 {
    if rs == [] then 0
    else AddU64(GroupThrottle(rs[..|rs| - 1], g), if rs[|rs| - 1].cgroupId == g then rs[|rs| - 1].throttleTime else 0)
  }

  /** The per-cgroup arrays the report fills, as functions of the threads. */
  function GroupOpsAll(rs: seq<CgroupResult>): (ops: seq<nat>)
    ensures |ops| == MaxCgroups
  {
    seq(MaxCgroups, g requires 0 <= g < MaxCgroups => Metrics.Sum(Metrics.Members(Tags(rs), g)))
  }

  function GroupSizes(rs: seq<CgroupResult>): (threads: seq<nat>)
    ensures |threads| == MaxCgroups
  {
    seq(MaxCgroups, g requires 0 <= g < MaxCgroups => |Metrics.Members(Tags(rs), g)|)
  }

  function GroupThrottles(rs: seq<CgroupResult>): (throttle: seq<U64>)
    ensures |throttle| == MaxCgroups
  {
    seq(MaxCgroups, g requires 0 <= g < MaxCgroups => GroupThrottle(rs, g))
  }

  /** One more thread adds its operations, one thread and its throttle
      time to its own cgroup's entries and leaves the others alone. */
  lemma AggregateStep(rs: seq<CgroupResult>, k: nat)
    requires ValidResults(rs) && k < |rs|
    ensures var p, g := rs[..k], rs[k].cgroupId;
      && GroupOpsAll(rs[..k + 1]) == GroupOpsAll(p)[g := GroupOpsAll(p)[g] + rs[k].totalOperations]
      && GroupSizes(rs[..k + 1]) == GroupSizes(p)[g := GroupSizes(p)[g] + 1]
      && GroupThrottles(rs[..k + 1]) == GroupThrottles(p)[g := AddU64(GroupThrottles(p)[g], rs[k].throttleTime)]
  {
    var p, q, g := rs[..k], rs[..k + 1], rs[k].cgroupId;
    var ts := Tags(rs);
    assert Tags(p) == ts[..k] && Tags(q) == ts[..k + 1];
    assert q[..k] == p;
    forall c | 0 <= c < MaxCgroups
      ensures GroupOpsAll(q)[c] == GroupOpsAll(p)[c] + (if c == g then rs[k].totalOperations else 0)
      ensures GroupSizes(q)[c] == GroupSizes(p)[c] + (if c == g then 1 else 0)
      ensures GroupThrottles(q)[c] == if c == g then AddU64(GroupThrottles(p)[c], rs[k].throttleTime) else GroupThrottles(p)[c]
    {
      Metrics.MembersStep(ts, k, c);
    }
  }

  /** The per-cgroup accumulation loop over the threads. */
  method AggregateByCgroup(rs: seq<CgroupResult>) returns (ops: seq<nat>, threads: seq<nat>, throttle: seq<U64>)
    requires ValidResults(rs)
    ensures ops == GroupOpsAll(rs) && threads == GroupSizes(rs) && throttle == GroupThrottles(rs)
  {
    ops := seq(MaxCgroups, _ => 0);
    threads := seq(MaxCgroups, _ => 0);
    throttle := seq(MaxCgroups, _ => 0);
    assert rs[..0] == [];
    var k := 0;
    while k < |rs|
      invariant 0 <= k <= |rs|
      invariant ops == GroupOpsAll(rs[..k]) && threads == GroupSizes(rs[..k]) && throttle == GroupThrottles(rs[..k])
    {
      AggregateStep(rs, k);
      var g := rs[k].cgroupId;
      ops := ops[g := ops[g] + rs[k].totalOperations];
      threads := threads[g := threads[g] + 1];
      throttle := throttle[g := AddU64(throttle[g], rs[k].throttleTime)];
      k := k + 1;
    }
    assert rs[..k] == rs;
  }

  /** The per-cgroup totals partition the threads: they add up to the
      overall total and to the number of threads. */
  lemma CgroupsPartition(rs: seq<CgroupResult>)
    requires ValidResults(rs)
    ensures Metrics.TotalBelow(Tags(rs), MaxCgroups) == Metrics.Sum(Totals(rs))
    ensures Metrics.SizeBelow(Tags(rs), MaxCgroups) == |rs|
  {
    Metrics.GroupsPartition(Tags(rs), MaxCgroups);
  }

  // ---------------------------------------------------------------------
  // The cgroups the report lists

  /** The cgroups 1 .. k-1 that have threads, in increasing order: both
      report loops start at 1, skipping the root cgroup, and list only the
      cgroups with threads. */
  function ReportedIds(threads: seq<nat>, k: nat): (ids: seq<nat>)
    requires |threads| == MaxCgroups && k <= MaxCgroups
    ensures forall r :: 0 <= r < |ids| ==> 1 <= ids[r] < k && threads[ids[r]] > 0
  {
    if k <= 1 then []
    else ReportedIds(threads, k - 1) + (if threads[k - 1] > 0 then [k - 1] else [])
  }

  predicate Increasing(s: seq<nat>) {
    forall r, q :: 0 <= r < q < |s| ==> s[r] < s[q]
  }

  /** The report lists the cgroups in increasing order, so none twice. */
  lemma {:induction false} ReportedIdsOrdered(threads: seq<nat>, k: nat)
    requires |threads| == MaxCgroups && k <= MaxCgroups
    ensures Increasing(ReportedIds(threads, k))
  {
    if k > 1 {
      ReportedIdsOrdered(threads, k - 1);
      var prefix := ReportedIds(threads, k - 1);
      var ids := ReportedIds(threads, k);
      if threads[k - 1] > 0 {
        assert ids == prefix + [k - 1];
        forall r, q | 0 <= r < q < |ids|
          ensures ids[r] < ids[q]
        {
          assert ids[r] == prefix[r];
          if q < |prefix| {
            assert ids[q] == prefix[q];
          } else {
            assert ids[q] == k - 1;
            assert prefix[r] < k - 1;
          }
        }
      } else {
        assert ids == prefix;
      }
    }
  }

  /** The report lists every non-root cgroup below k that has threads. */
  lemma {:induction false} ReportedIdsComplete(threads: seq<nat>, k: nat)
    requires |threads| == MaxCgroups && k <= MaxCgroups
    ensures forall g :: 1 <= g < k && threads[g] > 0 ==> g in ReportedIds(threads, k)
  {
    if k > 1 {
      ReportedIdsComplete(threads, k - 1);
    }
  }

  /** The cgroup of every thread that sits in a listed cgroup shows up in
      the report. */
  lemma EveryThreadsCgroupReported(rs: seq<CgroupResult>, numCgroups: nat, k: nat)
    requires numCgroups <= MaxCgroups && k < |rs| && 1 <= rs[k].cgroupId < numCgroups
    ensures rs[k].cgroupId in ReportedIds(GroupSizes(rs), numCgroups)
  {
    Metrics.MemberPresent(Tags(rs), k);
    ReportedIdsComplete(GroupSizes(rs), numCgroups);
  }

  // ---------------------------------------------------------------------
  // The cgroup summary

  datatype SummaryRow = SummaryRow(cgroupId: nat, threads: nat, ops: nat, avgOps: real, throttle: U64)

  /** A cgroup's row: its thread count, its operations, the average per
      thread and its throttle time. */
  function SummaryRowFor(g: nat, ops: seq<nat>, threads: seq<nat>, throttle: seq<U64>): (row: SummaryRow)
    requires |ops| == |threads| == |throttle| == MaxCgroups && g < MaxCgroups && threads[g] > 0
    ensures row.cgroupId == g && row.threads == threads[g] && row.ops == ops[g] && row.throttle == throttle[g]
    ensures row.avgOps * row.threads as real == row.ops as real
  {
    Arith.DivTimes(ops[g] as real, threads[g] as real);
    SummaryRow(g, threads[g], ops[g], ops[g] as real / threads[g] as real, throttle[g])
  }

  /** One row per listed cgroup. */
  function SummaryRows(numCgroups: nat, ops: seq<nat>, threads: seq<nat>, throttle: seq<U64>): (rows: seq<SummaryRow>)
    requires |ops| == |threads| == |throttle| == MaxCgroups && numCgroups <= MaxCgroups
    ensures |rows| == |ReportedIds(threads, numCgroups)|
    ensures forall r :: 0 <= r < |rows| ==>
      rows[r] == SummaryRowFor(ReportedIds(threads, numCgroups)[r], ops, threads, throttle)
  {
    var ids := ReportedIds(threads, numCgroups);
    seq(|ids|, r requires 0 <= r < |ids| => SummaryRowFor(ids[r], ops, threads, throttle))
  }

  // ---------------------------------------------------------------------
  // The share analysis

  /** Sum of cpu_shares over the cgroups ReportedIds lists. */
  function ReportedShares(table: seq<CgroupConfig>, threads: seq<nat>, k: nat): int
    requires |table| == |threads| == MaxCgroups && k <= MaxCgroups
  {
    if k <= 1 then 0
    else ReportedShares(table, threads, k - 1) + (if threads[k - 1] > 0 then table[k - 1].cpuShares else 0)
  }

  /** The expected share as written: cpu_shares / 1024, a multiple of the
      default weight rather than a fraction of the reported whole. */
  function ExpectedShareAsWritten(c: CgroupConfig): real {
    c.cpuShares as real / 1024.0
  }

  function SumExpectedAsWritten(table: seq<CgroupConfig>, threads: seq<nat>, k: nat): real
    requires |table| == |threads| == MaxCgroups && k <= MaxCgroups
  {
    if k <= 1 then 0.0
    else SumExpectedAsWritten(table, threads, k - 1)
         + (if threads[k - 1] > 0 then ExpectedShareAsWritten(table[k - 1]) else 0.0)
  }

  lemma {:induction false} ExpectedAsWrittenClosed(table: seq<CgroupConfig>, threads: seq<nat>, k: nat)
    requires |table| == |threads| == MaxCgroups && k <= MaxCgroups
    ensures SumExpectedAsWritten(table, threads, k) == ReportedShares(table, threads, k) as real / 1024.0
  {
    if k > 1 {
      ExpectedAsWrittenClosed(table, threads, k - 1);
      var x := if threads[k - 1] > 0 then table[k - 1].cpuShares else 0;
      Arith.AddFractions(ReportedShares(table, threads, k - 1) as real, x as real, 1024.0);
    }
  }

  /** The occupancy of every cgroup when main runs MAX_THREADS threads. */
  function FullOccupancy(): (threads: seq<nat>)
    ensures |threads| == MaxCgroups
  {
    seq(MaxCgroups, g requires 0 <= g < MaxCgroups => ThreadCount(MaxThreads, g))
  }

  /** With the configured table and 16 threads every non-root cgroup has
      threads, and the expected shares as written add up to 900%, although
      the actual shares of a run add up to 100%. */
  lemma ExpectedSharesAsWritten()
    ensures SumExpectedAsWritten(DefaultTable(), FullOccupancy(), ConfiguredCount) == 9.0
  {
    var threads := FullOccupancy();
    ThreadCountClosed(MaxThreads);
    assert threads[1] == 2 && threads[2] == 2 && threads[3] == 4 && threads[4] == 4 && threads[5] == 4;
    ExpectedAsWrittenClosed(DefaultTable(), threads, ConfiguredCount);
    assert ReportedShares(DefaultTable(), threads, ConfiguredCount) == 9216;
  }

  /** The share a cgroup is entitled to among the cgroups listed: its
      cpu_shares over their total (0 when they hold no shares at all). */
  function ExpectedShare(table: seq<CgroupConfig>, threads: seq<nat>, numCgroups: nat, g: nat): real
    requires |table| == |threads| == MaxCgroups && numCgroups <= MaxCgroups && g < MaxCgroups
  {
    var whole := ReportedShares(table, threads, numCgroups);
    if whole == 0 then 0.0 else table[g].cpuShares as real / whole as real
  }

  function SumExpected(table: seq<CgroupConfig>, threads: seq<nat>, numCgroups: nat, k: nat): real
    requires |table| == |threads| == MaxCgroups && numCgroups <= MaxCgroups && k <= MaxCgroups
  {
    if k <= 1 then 0.0
    else SumExpected(table, threads, numCgroups, k - 1)
         + (if threads[k - 1] > 0 then ExpectedShare(table, threads, numCgroups, k - 1) else 0.0)
  }

  lemma {:induction false} SumExpectedClosed(table: seq<CgroupConfig>, threads: seq<nat>, numCgroups: nat, k: nat)
    requires |table| == |threads| == MaxCgroups && numCgroups <= MaxCgroups && k <= MaxCgroups
    requires ReportedShares(table, threads, numCgroups) != 0
    ensures SumExpected(table, threads, numCgroups, k)
         == ReportedShares(table, threads, k) as real / ReportedShares(table, threads, numCgroups) as real
  {
    if k > 1 {
      SumExpectedClosed(table, threads, numCgroups, k - 1);
      var x := if threads[k - 1] > 0 then table[k - 1].cpuShares else 0;
      var whole := ReportedShares(table, threads, numCgroups) as real;
      Arith.AddFractions(ReportedShares(table, threads, k - 1) as real, x as real, whole);
    }
  }

  /** The corrected expected shares of the listed cgroups add up to 100%. */
  lemma ExpectedSharesSumToOne(table: seq<CgroupConfig>, threads: seq<nat>, numCgroups: nat)
    requires |table| == |threads| == MaxCgroups && numCgroups <= MaxCgroups
    requires ReportedShares(table, threads, numCgroups) != 0
    ensures SumExpected(table, threads, numCgroups, numCgroups) == 1.0
  {
    SumExpectedClosed(table, threads, numCgroups, numCgroups);
    Arith.SelfRatio(ReportedShares(table, threads, numCgroups) as real);
  }

  /** The printed expected share is the corrected one scaled by the listed
      cgroups' cpu_shares over 1024: nine times too large with the
      configured table and 16 threads. */
  lemma ExpectedShareScale(table: seq<CgroupConfig>, threads: seq<nat>, numCgroups: nat, g: nat)
    requires |table| == |threads| == MaxCgroups && numCgroups <= MaxCgroups && g < MaxCgroups
    requires ReportedShares(table, threads, numCgroups) > 0
    ensures ExpectedShareAsWritten(table[g])
         == ExpectedShare(table, threads, numCgroups, g) * (ReportedShares(table, threads, numCgroups) as real / 1024.0)
  {
    Arith.Rescale(table[g].cpuShares as real, ReportedShares(table, threads, numCgroups) as real, 1024.0);
  }

  /** With the configured table and 16 threads the listed cpu_shares add up
      to 9216 = 9 * 1024. */
  lemma FullOccupancyShares()
    ensures ReportedShares(DefaultTable(), FullOccupancy(), ConfiguredCount) == 9216
  {
    ThreadCountClosed(MaxThreads);
    var threads := FullOccupancy();
    assert threads[1] == 2 && threads[2] == 2 && threads[3] == 4 && threads[4] == 4 && threads[5] == 4;
  }

  /** One line of the share analysis: expected share, actual share and their
      ratio. The actual share is undefined without any operation, and the
      ratio without an expected share. */
  datatype ShareRow = ShareRow(cgroupId: nat, expected: real, actual: Option<real>, ratio: Option<real>)

  function ShareOf(cgroupId: nat, expected: real, ops: nat, total: nat): (r: ShareRow)
    ensures r.cgroupId == cgroupId && r.expected == expected
    ensures r.actual.Some? <==> total > 0
    ensures r.actual.Some? ==> r.actual.value * total as real == ops as real
    ensures r.ratio.Some? <==> total > 0 && expected != 0.0
    ensures r.ratio.Some? ==> r.ratio.value * expected == r.actual.value
  {
    var actual := if total > 0 then Some(ops as real / total as real) else None;
    var ratio := if actual.Some? && expected != 0.0 then Some(actual.value / expected) else None;
    ShareRow(cgroupId, expected, actual, ratio)
  }

  /** A cgroup whose operations are exactly proportional to its cpu_shares
      among the listed cgroups scores a ratio of 1. */
  lemma ProportionalShareScoresOne(table: seq<CgroupConfig>, threads: seq<nat>, numCgroups: nat, g: nat,
                                   ops: nat, total: nat)
    requires |table| == |threads| == MaxCgroups && numCgroups <= MaxCgroups && g < MaxCgroups
    requires ReportedShares(table, threads, numCgroups) > 0 && table[g].cpuShares > 0 && total > 0
    requires ops * ReportedShares(table, threads, numCgroups) == table[g].cpuShares * total
    ensures ShareOf(g, ExpectedShare(table, threads, numCgroups, g), ops, total).ratio == Some(1.0)
  {
    var s := ReportedShares(table, threads, numCgroups);
    var c := table[g].cpuShares;
    Arith.CastMul(ops, s);
    Arith.CastMul(c, total);
    Arith.ShareRatioOne(ops as real, total as real, c as real, s as real);
  }

  /** The share lines as printed: one per listed cgroup, in order, with the
      expected share cpu_shares / 1024. */
  function ShareRows(table: seq<CgroupConfig>, numCgroups: nat, ops: seq<nat>, threads: seq<nat>, total: nat)
    : (rows: seq<ShareRow>)
    requires |table| == |ops| == |threads| == MaxCgroups && numCgroups <= MaxCgroups
    ensures |rows| == |ReportedIds(threads, numCgroups)|
    ensures forall r :: 0 <= r < |rows| ==>
      var g := ReportedIds(threads, numCgroups)[r];
      rows[r] == ShareOf(g, ExpectedShareAsWritten(table[g]), ops[g], total)
  {
    var ids := ReportedIds(threads, numCgroups);
    seq(|ids|, r requires 0 <= r < |ids| =>
      ShareOf(ids[r], ExpectedShareAsWritten(table[ids[r]]), ops[ids[r]], total))
  }

  /** The share lines with the corrected expected share: each listed
      cgroup's cpu_shares over the listed cgroups' total. */
  function CorrectedShareRows(table: seq<CgroupConfig>, numCgroups: nat, ops: seq<nat>, threads: seq<nat>, total: nat)
    : (rows: seq<ShareRow>)
    requires |table| == |ops| == |threads| == MaxCgroups && numCgroups <= MaxCgroups
    ensures |rows| == |ReportedIds(threads, numCgroups)|
    ensures forall r :: 0 <= r < |rows| ==>
      var g := ReportedIds(threads, numCgroups)[r];
      rows[r] == ShareOf(g, ExpectedShare(table, threads, numCgroups, g), ops[g], total)
  {
    var ids := ReportedIds(threads, numCgroups);
    seq(|ids|, r requires 0 <= r < |ids| =>
      ShareOf(ids[r], ExpectedShare(table, threads, numCgroups, ids[r]), ops[ids[r]], total))
  }

  /** Everything print_cgroups_fairness_stats derives from the threads: the
      overall figures and share lines as printed, and beside them the share
      lines with the corrected expected share. */
  datatype CgroupsReport = CgroupsReport(overall: Metrics.FairnessReport, summary: seq<SummaryRow>,
                                         shares: seq<ShareRow>, correctedShares: seq<ShareRow>)

  method CgroupsStats(table: seq<CgroupConfig>, numCgroups: nat, rs: seq<CgroupResult>) returns (r: CgroupsReport)
    requires |table| == MaxCgroups && numCgroups <= MaxCgroups && 1 <= |rs| && ValidResults(rs)
    ensures var xs := Totals(rs);
      && r.overall.totalOps == Metrics.Sum(xs)
      && (forall i :: 0 <= i < |xs| ==> r.overall.minOps <= xs[i] <= r.overall.maxOps)
      && (exists i :: 0 <= i < |xs| && xs[i] == r.overall.minOps)
      && (exists i :: 0 <= i < |xs| && xs[i] == r.overall.maxOps)
      && r.overall.avgOps == Metrics.Sum(xs) as real / |xs| as real
      && r.overall.index == Metrics.IndexAsWritten(xs)
      && r.overall.jain == Metrics.FairnessIndex(xs)
      && r.overall.variation == Metrics.Spread(r.overall.minOps, r.overall.maxOps, r.overall.totalOps, |xs|)
    ensures r.summary == SummaryRows(numCgroups, GroupOpsAll(rs), GroupSizes(rs), GroupThrottles(rs))
    ensures r.shares == ShareRows(table, numCgroups, GroupOpsAll(rs), GroupSizes(rs), Metrics.Sum(Totals(rs)))
    ensures r.correctedShares
         == CorrectedShareRows(table, numCgroups, GroupOpsAll(rs), GroupSizes(rs), Metrics.Sum(Totals(rs)))
  {
    var ops, threads, throttle := AggregateByCgroup(rs);
    var overall := Metrics.FairnessStats(Totals(rs));
    var summary := SummaryRows(numCgroups, ops, threads, throttle);
    var shares := ShareRows(table, numCgroups, ops, threads, overall.totalOps);
    var corrected := CorrectedShareRows(table, numCgroups, ops, threads, overall.totalOps);
    r := CgroupsReport(overall, summary, shares, corrected);
  }

  // ---------------------------------------------------------------------
  // main

  datatype CgroupsOutcome = CgroupsOutcome(exitCode: int, builtTree: bool, ranWorkers: bool)

  /** main: validation, the cgroup table, the tree, hfairlock_init, then the
      store environment and database. */
  function CgroupsMain(cl: CommandLine, lockInitOk: bool, envOk: bool, dbOk: bool): (o: CgroupsOutcome)
    ensures o.exitCode == 0 <==> Validate(cl).None? && lockInitOk && envOk && dbOk
    ensures o.exitCode == 0 <==> o.ranWorkers
    ensures o.exitCode != 0 ==> o.exitCode == 1
    ensures o.builtTree <==> Validate(cl).None?
  {
    if Validate(cl).Some? then CgroupsOutcome(1, false, false)
    else if !lockInitOk || !envOk || !dbOk then CgroupsOutcome(1, true, false)
    else CgroupsOutcome(0, true, true)
  }
}
