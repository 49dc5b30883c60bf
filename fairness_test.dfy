/** upscale_fairness_test: one global hierarchical fair lock over a
    scheduling tree of a selectable shape; every worker thread is bound to a
    non-root node of it (node i + 1, or its own node below the group nodes
    in the grouped shape), runs the store workload under the lock, and the report
    compares the threads' operation counts. */
module FairnessTest {
  import opened Common
  import Metrics
  import Arith

  // ---------------------------------------------------------------------
  // Hierarchy shapes (hierarchy_type_t)

  datatype Topology = Flat | Balanced | Skewed | Deep | Grouped | Custom

  const NumGroups: nat := 4

  /** The enumerator values of hierarchy_type_t. */
  function TypeNumber(t: Topology): nat {
    match t
    case Flat => 0
    case Balanced => 1
    case Skewed => 2
    case Deep => 3
    case Grouped => 4
    case Custom => 5
  }

  /** The shape main selects: argument 6 when it is 0..4, FLAT otherwise. */
  function SelectTopology(cl: CommandLine): (t: Topology)
    ensures t != Custom
    ensures cl.argc <= 6 ==> t == Flat
    ensures cl.argc > 6 && !(0 <= cl.selectorArg <= 4) ==> t == Flat
    ensures cl.argc > 6 && 0 <= cl.selectorArg <= 4 ==> TypeNumber(t) == cl.selectorArg
  {
    if cl.argc > 6 && 0 <= cl.selectorArg <= 4 then
      [Flat, Balanced, Skewed, Deep, Grouped][cl.selectorArg]
    else Flat
  }

  /** Nodes in the tree: root and one node per thread, plus the four group
      nodes of the grouped shape (the total_nodes main prints). */
  function NodeCount(t: Topology, n: nat): nat {
    if t == Grouped then n + NumGroups + 1 else n + 1
  }

  /** The node a builder writes at index i: id i, cs 0, slice 0, banned
      until the time the builder read; only the grouped shape gives its
      thread nodes a weight. Custom falls back to the flat builder. */
  function TreeNode(t: Topology, n: nat, now: U64, i: nat): Node
    requires i < NodeCount(t, n)
  {
    var parent :=
      if i == 0 then 0
      else match t
        case Balanced => (i - 1) / 2
        case Skewed => if i <= n / 2 then i - 1 else 0
        case Deep => i - 1
        case Grouped => if i <= NumGroups then 0 else (i - NumGroups - 1) % NumGroups + 1
        case _ => 0;
    var weight := if t == Grouped && i > NumGroups then 1024 else 0;
    Node(i, parent, weight, 0, now, 0)
  }

  function Hierarchy(t: Topology, n: nat, now: U64): (h: seq<Node>)
    ensures |h| == NodeCount(t, n)
  {
    seq(NodeCount(t, n), i requires 0 <= i < NodeCount(t, n) => TreeNode(t, n, now, i))
  }

  // ---------------------------------------------------------------------
  // The builders (init_*_hierarchy) and init_hierarchy

  /** The root written by every builder. */
  method WriteRoot(h: array<Node>, now: U64)
    requires h.Length >= 1
    modifies h
    ensures h[0] == Node(0, 0, 0, 0, now, 0)
    ensures forall j :: 1 <= j < h.Length ==> h[j] == old(h[j])
  {
    h[0] := Node(0, 0, 0, 0, now, 0);
  }

  method InitFlatHierarchy(n: nat, now: U64) returns (h: array<Node>)
    ensures h[..] == Hierarchy(Flat, n, now)
  {
    h := new Node[n + 1](_ => Node(0, 0, 0, 0, 0, 0));
    WriteRoot(h, now);
    for i := 1 to n + 1
      invariant forall j :: 0 <= j < i ==> h[j] == TreeNode(Flat, n, now, j)
    {
      h[i] := Node(i, 0, 0, 0, now, 0);
    }
  }

  method InitBalancedHierarchy(n: nat, now: U64) returns (h: array<Node>)
    ensures h[..] == Hierarchy(Balanced, n, now)
  {
    h := new Node[n + 1](_ => Node(0, 0, 0, 0, 0, 0));
    WriteRoot(h, now);
    for i := 1 to n + 1
      invariant forall j :: 0 <= j < i ==> h[j] == TreeNode(Balanced, n, now, j)
    {
      h[i] := Node(i, (i - 1) / 2, 0, 0, now, 0);
    }
  }

  method InitSkewedHierarchy(n: nat, now: U64) returns (h: array<Node>)
    ensures h[..] == Hierarchy(Skewed, n, now)
  {
    h := new Node[n + 1](_ => Node(0, 0, 0, 0, 0, 0));
    WriteRoot(h, now);
    var mid := n / 2;
    for i := 1 to n + 1
      invariant forall j :: 0 <= j < i ==> h[j] == TreeNode(Skewed, n, now, j)
    {
      if i <= mid {
        h[i] := Node(i, i - 1, 0, 0, now, 0);
      } else {
        h[i] := Node(i, 0, 0, 0, now, 0);
      }
    }
  }

  method InitDeepHierarchy(n: nat, now: U64) returns (h: array<Node>)
    ensures h[..] == Hierarchy(Deep, n, now)
  {
    h := new Node[n + 1](_ => Node(0, 0, 0, 0, 0, 0));
    WriteRoot(h, now);
    for i := 1 to n + 1
      invariant forall j :: 0 <= j < i ==> h[j] == TreeNode(Deep, n, now, j)
    {
      h[i] := Node(i, i - 1, 0, 0, now, 0);
    }
  }

  method InitGroupedHierarchy(n: nat, now: U64) returns (h: array<Node>)
    ensures h[..] == Hierarchy(Grouped, n, now)
  {
    h := new Node[n + NumGroups + 1](_ => Node(0, 0, 0, 0, 0, 0));
    WriteRoot(h, now);
    for g := 1 to NumGroups + 1
      invariant forall j :: 0 <= j < g ==> h[j] == TreeNode(Grouped, n, now, j)
    {
      h[g] := Node(g, 0, 0, 0, now, 0);
    }
    for i := 0 to n
      invariant forall j :: 0 <= j < NumGroups + 1 + i ==> h[j] == TreeNode(Grouped, n, now, j)
    {
      var nodeId := NumGroups + 1 + i;
      var groupId := i % NumGroups + 1;
      h[nodeId] := Node(nodeId, groupId, 1024, 0, now, 0);
    }
  }

  /** init_hierarchy: dispatch on the shape; an unknown shape gets the flat tree. */
  method InitHierarchy(t: Topology, n: nat, now: U64) returns (h: array<Node>)
    ensures h[..] == Hierarchy(if t == Custom then Flat else t, n, now)
  {
    match t {
      case Flat => h := InitFlatHierarchy(n, now);
      case Balanced => h := InitBalancedHierarchy(n, now);
      case Skewed => h := InitSkewedHierarchy(n, now);
      case Deep => h := InitDeepHierarchy(n, now);
      case Grouped => h := InitGroupedHierarchy(n, now);
      case Custom => h := InitFlatHierarchy(n, now);
    }
  }

  // ---------------------------------------------------------------------
  // What the builders guarantee about the tree

  lemma HierarchyIsRootedTree(t: Topology, n: nat, now: U64)
    ensures RootedTree(Hierarchy(t, n, now))
  {
  }

  /** Flat: every thread node hangs directly under the root. */
  lemma FlatDepths(n: nat, now: U64, i: nat)
    requires 1 <= i <= n
    ensures RootedTree(Hierarchy(Flat, n, now)) && Depth(Hierarchy(Flat, n, now), i) == 1
  {
    HierarchyIsRootedTree(Flat, n, now);
    var h := Hierarchy(Flat, n, now);
    assert h[i].parent == 0;
  }

  /** Deep: node i sits i levels below the root. */
  lemma {:induction false} DeepDepths(n: nat, now: U64, i: nat)
    requires i <= n
    ensures RootedTree(Hierarchy(Deep, n, now)) && Depth(Hierarchy(Deep, n, now), i) == i
  {
    HierarchyIsRootedTree(Deep, n, now);
    if i > 0 {
      var h := Hierarchy(Deep, n, now);
      assert h[i].parent == i - 1;
      DeepDepths(n, now, i - 1);
    }
  }

  /** Skewed: the first n/2 nodes form a chain, the rest sit under the root. */
  lemma {:induction false} SkewedDepths(n: nat, now: U64, i: nat)
    requires i <= n
    ensures RootedTree(Hierarchy(Skewed, n, now)) &&
      Depth(Hierarchy(Skewed, n, now), i) == if i <= n / 2 then i else 1
  {
    HierarchyIsRootedTree(Skewed, n, now);
    var h := Hierarchy(Skewed, n, now);
    if 0 < i <= n / 2 {
      assert h[i].parent == i - 1;
      SkewedDepths(n, now, i - 1);
    } else if i > n / 2 {
      assert h[i].parent == 0;
    }
  }

  function Log2(x: nat): nat
    requires x >= 1
  {
    if x == 1 then 0 else 1 + Log2(x / 2)
  }

  /** Balanced: node i sits floor(log2(i + 1)) levels down, the depth of a
      binary heap; 3 nodes give depth 1, 7 nodes depth 2, 16 nodes depth 4. */
  lemma {:induction false} BalancedDepths(n: nat, now: U64, i: nat)
    requires i <= n
    ensures RootedTree(Hierarchy(Balanced, n, now)) &&
      Depth(Hierarchy(Balanced, n, now), i) == Log2(i + 1)
  {
    HierarchyIsRootedTree(Balanced, n, now);
    if i > 0 {
      var h := Hierarchy(Balanced, n, now);
      assert h[i].parent == (i - 1) / 2;
      BalancedDepths(n, now, (i - 1) / 2);
      assert (i - 1) / 2 + 1 == (i + 1) / 2;
    }
  }

  /** Grouped: the four group nodes sit under the root and thread i's node
      5 + i under group i % 4 + 1, with the thread-node weight 1024. */
  lemma GroupedShape(n: nat, now: U64, i: nat)
    requires i < n
    ensures RootedTree(Hierarchy(Grouped, n, now))
    ensures var h := Hierarchy(Grouped, n, now);
      && h[NumGroups + 1 + i].parent == i % NumGroups + 1
      && h[NumGroups + 1 + i].weight == 1024
      && Depth(h, NumGroups + 1 + i) == 2
      && (forall g :: 1 <= g <= NumGroups ==> h[g].parent == 0 && h[g].weight == 0)
  {
    HierarchyIsRootedTree(Grouped, n, now);
    var h := Hierarchy(Grouped, n, now);
    var g := i % NumGroups + 1;
    assert h[NumGroups + 1 + i].parent == g;
    assert Depth(h, g) == 1 by { assert h[g].parent == 0; }
  }

  // ---------------------------------------------------------------------
  // Thread configuration (configure_threads_for_hierarchy)

  datatype ThreadConfig = ThreadConfig(threadId: nat, priority: int, weight: int, parentNode: nat)

  function Pow2(k: nat): (p: nat)
    ensures p >= 1
  {
    if k == 0 then 1 else 2 * Pow2(k - 1)
  }

  /** x >> k on a non-negative int. */
  function ShiftRight(x: nat, k: nat): int {
    x / Pow2(k)
  }

  /** The priority, weight and node index each shape gives thread i. */
  function Binding(t: Topology, n: nat, i: nat): ThreadConfig {
    match t
    case Flat => ThreadConfig(i, -10 + i % 20, ShiftRight(1024, i % 4), i + 1)
    case Balanced => ThreadConfig(i, -5 + i % 10, 512 + (i % 3) * 256, i + 1)
    case Skewed =>
      if i < n / 2 then ThreadConfig(i, -10 + i, ShiftRight(2048, i), i + 1)
      else ThreadConfig(i, 0, 1024, i + 1)
    case Deep => ThreadConfig(i, -15 + i, 1024 + i * 128, i + 1)
    case Grouped => ThreadConfig(i, -10 + (i % 4) * 5, ShiftRight(1024, i % 4), 4 + 1 + i)
    case Custom => ThreadConfig(i, 0, 1024, i + 1)
  }

  method ConfigureThreadsForHierarchy(threads: array<ThreadConfig>, n: nat, t: Topology)
    requires n <= threads.Length
    modifies threads
    ensures forall i :: 0 <= i < n ==> threads[i] == Binding(t, n, i)
    ensures forall i :: n <= i < threads.Length ==> threads[i] == old(threads[i])
  {
    for i := 0 to n
      invariant forall j :: 0 <= j < i ==> threads[j] == Binding(t, n, j)
      invariant forall j :: i <= j < threads.Length ==> threads[j] == old(threads[j])
    {
      var c: ThreadConfig;
      match t {
        case Flat => c := ThreadConfig(i, -10 + i % 20, 1024 / Pow2(i % 4), i + 1);
        case Balanced => c := ThreadConfig(i, -5 + i % 10, 512 + (i % 3) * 256, i + 1);
        case Skewed =>
          if i < n / 2 {
            c := ThreadConfig(i, -10 + i, 2048 / Pow2(i), i + 1);
          } else {
            c := ThreadConfig(i, 0, 1024, i + 1);
          }
        case Deep => c := ThreadConfig(i, -15 + i, 1024 + i * 128, i + 1);
        case Grouped =>
          var group := i % 4;
          c := ThreadConfig(i, -10 + group * 5, 1024 / Pow2(group), 4 + 1 + i);
        case Custom => c := ThreadConfig(i, 0, 1024, i + 1);
      }
      threads[i] := c;
    }
  }

  /** Each thread's parent_node names a non-root node of the tree built for
      the same shape: node i + 1, or in the grouped shape its own node below
      the group nodes (Custom is built flat). */
  lemma BindingNamesTreeNode(t: Topology, n: nat, i: nat)
    requires i < n
    ensures 1 <= Binding(t, n, i).parentNode < NodeCount(if t == Custom then Flat else t, n)
    ensures t == Grouped ==> Binding(t, n, i).parentNode > NumGroups
  {
  }

  /** In the grouped shape, threads that share a priority class share a
      group node, and the class sets both the nice value and the weight. */
  lemma GroupedClassesAgree(n: nat, now: U64, i: nat, j: nat)
    requires i < n && j < n
    ensures var h := Hierarchy(Grouped, n, now);
      (h[Binding(Grouped, n, i).parentNode].parent == h[Binding(Grouped, n, j).parentNode].parent)
      <==> (Binding(Grouped, n, i).priority == Binding(Grouped, n, j).priority)
  {
    var h := Hierarchy(Grouped, n, now);
    assert h[Binding(Grouped, n, i).parentNode].parent == i % 4 + 1;
    assert h[Binding(Grouped, n, j).parentNode].parent == j % 4 + 1;
  }

  /** The weight handed to the fair lock: weight * (20 + nice). */
  function LockWeight(c: ThreadConfig): int {
    c.weight * (20 + c.priority)
  }

  /** For up to MAX_THREADS threads every shape gives a positive lock weight
      well inside int range (at most 58880, the last thread of the deep shape). */
  lemma LockWeightsPositive(t: Topology, n: nat, i: nat)
    requires i < n <= MaxThreads
    ensures 1 <= LockWeight(Binding(t, n, i)) <= 58880
  {
    var c := Binding(t, n, i);
    match t {
      case Flat =>
        QuarterShift(i % 4);
        Arith.ProductBounds(c.weight, 20 + c.priority, 128, 1024, 10, 29);
      case Balanced =>
        Arith.ProductBounds(c.weight, 20 + c.priority, 512, 1024, 15, 24);
      case Skewed =>
        if i < n / 2 {
          SkewedShift(i);
          Arith.ProductBounds(c.weight, 20 + c.priority, 16, 2048, 10, 17);
        }
      case Deep =>
        Arith.ProductBounds(c.weight, 20 + c.priority, 1024, 2944, 5, 20);
      case Grouped =>
        QuarterShift(i % 4);
        Arith.ProductBounds(c.weight, 20 + c.priority, 128, 1024, 10, 25);
      case Custom =>
    }
  }

  /** 1024 >> k for the four classes of the flat and grouped shapes. */
  lemma QuarterShift(k: nat)
    requires k < 4
    ensures 128 <= ShiftRight(1024, k) <= 1024
  {
    if k == 0 {
      assert ShiftRight(1024, 0) == 1024;
    } else if k == 1 {
      assert ShiftRight(1024, 1) == 512;
    } else if k == 2 {
      assert ShiftRight(1024, 2) == 256;
    } else {
      assert ShiftRight(1024, 3) == 128;
    }
  }

  /** 2048 >> i for the chained half of a skewed tree of up to 16 threads. */
  lemma SkewedShift(i: nat)
    requires i < 8
    ensures 16 <= ShiftRight(2048, i) <= 2048
  {
    if i == 0 {
      assert ShiftRight(2048, 0) == 2048;
    } else if i == 1 {
      assert ShiftRight(2048, 1) == 1024;
    } else if i == 2 {
      assert ShiftRight(2048, 2) == 512;
    } else if i == 3 {
      assert ShiftRight(2048, 3) == 256;
    } else if i == 4 {
      assert ShiftRight(2048, 4) == 128;
    } else if i == 5 {
      assert ShiftRight(2048, 5) == 64;
    } else if i == 6 {
      assert ShiftRight(2048, 6) == 32;
    } else {
      assert ShiftRight(2048, 7) == 16;
    }
  }

  // ---------------------------------------------------------------------
  // The worker loop (worker_thread)

  /** What one iteration observes: the rand() draw choosing the operation,
      the cycle counter around the lock acquisition, the cycles the store
      operation took, the slice end the release returned and the cycle
      counter read after the release. */
  datatype Tick = Tick(draw: nat, lockStart: U64, lockEnd: U64, elapsed: U64, sliceEnd: U64, now: U64)

  predicate ValidTicks(ticks: seq<Tick>) {
    forall k :: 0 <= k < |ticks| ==> ticks[k].draw <= RandMax
  }

  /** The thread's counters, its slice_violations and the number of 1 ms
      pauses it took. */
  datatype WorkerState = WorkerState(counters: OpCounters, sliceViolations: nat, pauses: nat)

  function Step(s: WorkerState, tk: Tick, insertRatio: real, findRatio: real): WorkerState
    requires tk.draw <= RandMax
  {
    var op := ChooseOp(tk.draw, insertRatio, findRatio);
    var c := Record(s.counters, op, SubU64(tk.lockEnd, tk.lockStart), tk.elapsed);
    WorkerState(c, s.sliceViolations + (if tk.now > tk.sliceEnd then 1 else 0),
                s.pauses + (if c.totalOperations % 100 == 0 then 1 else 0))
  }

  /** The state after running the iterations in order. */
  function Run(s: WorkerState, ticks: seq<Tick>, insertRatio: real, findRatio: real): WorkerState
    requires ValidTicks(ticks)
  {
    if ticks == [] then s
    else Step(Run(s, ticks[..|ticks| - 1], insertRatio, findRatio), ticks[|ticks| - 1], insertRatio, findRatio)
  }

  /** Running one tick more is one more Step. */
  lemma RunPrefixStep(s: WorkerState, ticks: seq<Tick>, k: nat, insertRatio: real, findRatio: real)
    requires ValidTicks(ticks) && k < |ticks|
    ensures Run(s, ticks[..k + 1], insertRatio, findRatio)
         == Step(Run(s, ticks[..k], insertRatio, findRatio), ticks[k], insertRatio, findRatio)
  {
    assert ticks[..k + 1][..k] == ticks[..k];
  }

  /** One pass of the loop body: choose the operation, count it, check the
      slice and pause on every hundredth operation. */
  method WorkerIteration(s: WorkerState, tk: Tick, insertRatio: real, findRatio: real) returns (r: WorkerState)
    requires tk.draw <= RandMax
    ensures r == Step(s, tk, insertRatio, findRatio)
  {
    var op := ChooseOp(tk.draw, insertRatio, findRatio);
    var c := s.counters;
    c := c.(lockWaitTime := AddU64(c.lockWaitTime, SubU64(tk.lockEnd, tk.lockStart)),
            lockAcquisitions := c.lockAcquisitions + 1);
    match op {
      case OpInsert => c := c.(insertTime := AddU64(c.insertTime, tk.elapsed), insertCount := c.insertCount + 1);
      case OpFind => c := c.(findTime := AddU64(c.findTime, tk.elapsed), findCount := c.findCount + 1);
      case OpUpdate => c := c.(updateTime := AddU64(c.updateTime, tk.elapsed), updateCount := c.updateCount + 1);
    }
    c := c.(totalOperations := c.totalOperations + 1);
    var violations := s.sliceViolations;
    if tk.now > tk.sliceEnd {
      violations := violations + 1;
    }
    var pauses := s.pauses;
    if c.totalOperations % 100 == 0 {
      pauses := pauses + 1;
    }
    r := WorkerState(c, violations, pauses);
  }

  /** worker_thread: prioritySet is false when setpriority failed for a
      reason other than EPERM or EACCES, and the thread then returns before
      its loop; otherwise one iteration per tick until the stop flag. */
  method RunWorker(prioritySet: bool, init: WorkerState, ticks: seq<Tick>, insertRatio: real, findRatio: real)
    returns (s: WorkerState)
    requires ValidTicks(ticks)
    ensures prioritySet ==> s == Run(init, ticks, insertRatio, findRatio)
    ensures !prioritySet ==> s == init
  {
    s := init;
    if !prioritySet {
      return;
    }
    var k := 0;
    while k < |ticks|
      invariant 0 <= k <= |ticks|
      invariant s == Run(init, ticks[..k], insertRatio, findRatio)
    {
      RunPrefixStep(init, ticks, k, insertRatio, findRatio);
      s := WorkerIteration(s, ticks[k], insertRatio, findRatio);
      k := k + 1;
    }
    assert ticks[..k] == ticks;
  }

  function CountOp(ticks: seq<Tick>, op: Op, insertRatio: real, findRatio: real): nat
    requires ValidTicks(ticks)
  {
    if ticks == [] then 0
    else CountOp(ticks[..|ticks| - 1], op, insertRatio, findRatio)
         + (if ChooseOp(ticks[|ticks| - 1].draw, insertRatio, findRatio) == op then 1 else 0)
  }

  /** Each iteration is one lock acquisition and one operation counted under
      the kind its draw chose; slice violations never exceed iterations. */
  lemma {:induction false} RunCounts(s: WorkerState, ticks: seq<Tick>, insertRatio: real, findRatio: real)
    requires ValidTicks(ticks)
    ensures var r := Run(s, ticks, insertRatio, findRatio);
      && r.counters.totalOperations == s.counters.totalOperations + |ticks|
      && r.counters.lockAcquisitions == s.counters.lockAcquisitions + |ticks|
      && r.counters.insertCount == s.counters.insertCount + CountOp(ticks, OpInsert, insertRatio, findRatio)
      && r.counters.findCount == s.counters.findCount + CountOp(ticks, OpFind, insertRatio, findRatio)
      && r.counters.updateCount == s.counters.updateCount + CountOp(ticks, OpUpdate, insertRatio, findRatio)
      && r.sliceViolations <= s.sliceViolations + |ticks|
      && (CountsConsistent(s.counters) ==> CountsConsistent(r.counters))
  {
    if ticks != [] {
      RunCounts(s, ticks[..|ticks| - 1], insertRatio, findRatio);
    }
  }

  /** The thread pauses once each time its operation count reaches a
      multiple of 100. */
  lemma {:induction false} RunPauses(s: WorkerState, ticks: seq<Tick>, insertRatio: real, findRatio: real)
    requires ValidTicks(ticks)
    ensures Run(s, ticks, insertRatio, findRatio).pauses
         == s.pauses + (s.counters.totalOperations + |ticks|) / 100 - s.counters.totalOperations / 100
  {
    if ticks != [] {
      var init := ticks[..|ticks| - 1];
      RunPauses(s, init, insertRatio, findRatio);
      RunCounts(s, init, insertRatio, findRatio);
      var t0 := s.counters.totalOperations + |init|;
      assert (t0 + 1) / 100 == t0 / 100 + (if (t0 + 1) % 100 == 0 then 1 else 0);
    }
  }

  // ---------------------------------------------------------------------
  // main

  /** How main ends: the exit status and the tree it built, if any. */
  datatype MainOutcome = MainOutcome(exitCode: int, built: Option<Topology>, ranWorkers: bool)

  /** main's control flow with the outcome of each external step as an input:
      argument validation, then the tree, then hfairlock_init, then the
      store environment and database. */
  function FairnessTestMain(cl: CommandLine, lockInitOk: bool, envOk: bool, dbOk: bool): (o: MainOutcome)
    ensures o.exitCode == 0 <==> Validate(cl).None? && lockInitOk && envOk && dbOk
    ensures o.exitCode == 0 <==> o.ranWorkers
    ensures o.exitCode != 0 ==> o.exitCode == 1
    ensures o.built.Some? <==> Validate(cl).None?
    ensures o.built.Some? ==> o.built.value == SelectTopology(cl)
  {
    if Validate(cl).Some? then MainOutcome(1, None, false)
    else
      var t := SelectTopology(cl);
      if !lockInitOk || !envOk || !dbOk then MainOutcome(1, Some(t), false)
      else MainOutcome(0, Some(t), true)
  }
}
