/** Definitions shared by the three benchmark drivers (upscale_fairness_test,
    upscale_fairness_cgroups, upscale_mutex): the constants, the unsigned
    64-bit time arithmetic, the scheduling-tree node record, the workload
    generator, the store calls each operation makes, the per-thread operation
    counters, the shared key-id counter and the command-line validation. */
module Common {
  import Keys

  const MaxThreads: nat := 16
  /** glibc's RAND_MAX; rand() returns values in [0, RandMax]. */
  const RandMax: nat := 2147483647
  /** CYCLE_PER_US, the cycle-counter calibration compiled into the drivers. */
  const CyclePerUs: nat := 2400

  // ---------------------------------------------------------------------
  // unsigned long long arithmetic (rdtsc values and time sums)

  const U64Modulus: nat := 0x1_0000_0000_0000_0000
  type U64 = x: nat | x < U64Modulus

  /** a - b on unsigned 64-bit values: wraps around when b > a. */
  function SubU64(a: U64, b: U64): (d: U64)
    ensures a >= b ==> d == a - b
    ensures a < b ==> d == a + U64Modulus - b
  {
    if a >= b then a - b else a + U64Modulus - b
  }

  /** a + b on unsigned 64-bit values: wraps around past 2^64 - 1. */
  function AddU64(a: U64, b: U64): (s: U64)
    ensures a + b < U64Modulus ==> s == a + b
  {
    (a + b) % U64Modulus
  }

  // ---------------------------------------------------------------------
  // node_t: one node of the scheduling tree handed to the fair lock

  datatype Node = Node(id: int, parent: int, weight: int, cs: int, bannedUntil: U64, slice: U64)

  /** The shape every builder must produce: node i has id i, node 0 is its
      own parent, and every other node's parent was defined before it. */
  ghost predicate RootedTree(h: seq<Node>) {
    && |h| >= 1
    && (forall i :: 0 <= i < |h| ==> h[i].id == i)
    && h[0].parent == 0
    && (forall i :: 1 <= i < |h| ==> 0 <= h[i].parent < i)
  }

  /** Number of parent steps from node i to the root. */
  ghost function Depth(h: seq<Node>, i: nat): nat
    requires RootedTree(h) && i < |h|
    decreases i
  {
    if i == 0 then 0 else 1 + Depth(h, h[i].parent as nat)
  }

  /** The node reached from node i after k parent steps (staying at the root). */
  ghost function Ancestor(h: seq<Node>, i: nat, k: nat): (a: nat)
    requires RootedTree(h) && i < |h|
    ensures a < |h|
    decreases k
  {
    if k == 0 || i == 0 then i else Ancestor(h, h[i].parent as nat, k - 1)
  }

  /** Every node reaches the root after exactly Depth parent steps, and the
      depth is at most the node's index, so the parent links have no cycle. */
  lemma {:induction false} ReachesRoot(h: seq<Node>, i: nat)
    requires RootedTree(h) && i < |h|
    ensures Ancestor(h, i, Depth(h, i)) == 0
    ensures Depth(h, i) <= i
    ensures i > 0 ==> Ancestor(h, i, Depth(h, i) - 1) != 0 || Depth(h, i) == 1
    decreases i
  {
    if i > 0 {
      ReachesRoot(h, h[i].parent as nat);
    }
  }

  // ---------------------------------------------------------------------
  // WorkloadGenerator: operation choice from a rand() draw

  datatype Op = OpInsert | OpFind | OpUpdate

  /** (double)rand() / RAND_MAX: a value in [0, 1], 1 included. */
  function Fraction(r: nat): real
    requires r <= RandMax
  {
    r as real / RandMax as real
  }

  /** Insert if the fraction is below insert_ratio, Find if it is below
      insert_ratio + find_ratio, otherwise Update. */
  function ChooseOp(r: nat, insertRatio: real, findRatio: real): (op: Op)
    requires r <= RandMax
    ensures op == OpInsert <==> Fraction(r) < insertRatio
    ensures op == OpFind <==> insertRatio <= Fraction(r) < insertRatio + findRatio
    ensures op == OpUpdate <==> insertRatio <= Fraction(r) && insertRatio + findRatio <= Fraction(r)
  {
    if Fraction(r) < insertRatio then OpInsert
    else if Fraction(r) < insertRatio + findRatio then OpFind
    else OpUpdate
  }

  function OpRank(op: Op): nat {
    match op
    case OpInsert => 0
    case OpFind => 1
    case OpUpdate => 2
  }

  /** A larger draw never selects an earlier operation: the draws that give
      each operation form consecutive intervals Insert, Find, Update. */
  lemma ChooseOpMonotone(r1: nat, r2: nat, insertRatio: real, findRatio: real)
    requires r1 <= r2 <= RandMax
    ensures OpRank(ChooseOp(r1, insertRatio, findRatio)) <= OpRank(ChooseOp(r2, insertRatio, findRatio))
  {
    assert Fraction(r1) <= Fraction(r2);
  }

  /** A pure find workload (insert 0, find 1) still issues an update on the one
      draw rand() == RAND_MAX, because the fraction then equals 1.0. */
  lemma PureFindWorkload(r: nat)
    requires r <= RandMax
    ensures ChooseOp(r, 0.0, 1.0) == (if r == RandMax then OpUpdate else OpFind)
  {
    if r < RandMax {
      assert Fraction(r) < 1.0;
    }
  }

  // ---------------------------------------------------------------------
  // Store status codes and the calls each operation makes

  /** ups_status_t values, as opaque outcomes of the external store. */
  datatype Status = Success | DuplicateKey | KeyNotFound | OtherStatus(code: int)

  datatype StoreCall = InsertCall(key: string) | FindCall(key: string) | OverwriteCall(key: string)

  /** What one perform_insert/perform_find/perform_update does: the store
      calls in order, the elapsed cycles it returns, and whether it prints a
      failure line. */
  datatype OpOutcome = OpOutcome(calls: seq<StoreCall>, elapsed: U64, logged: bool)

  datatype KeyChoice = NoKeys | Chosen(keyId: nat, targetThread: nat)

  /** The key selection of perform_find and perform_update: nothing while the
      key counter is still at 1, otherwise 1 + r1 % (next - 1) and a target
      thread r2 % MAX_THREADS. */
  function PickKey(nextKeyId: int, r1: nat, r2: nat): (c: KeyChoice)
    ensures c.NoKeys? <==> nextKeyId <= 1
    ensures c.Chosen? ==> 1 <= c.keyId < nextKeyId && c.targetThread < MaxThreads
  {
    if nextKeyId <= 1 then NoKeys else Chosen(1 + r1 % (nextKeyId - 1), r2 % MaxThreads)
  }

  /** Every key id already handed out can be drawn, with any target thread. */
  lemma PickKeyCovers(nextKeyId: int, keyId: nat, target: nat)
    requires 1 <= keyId < nextKeyId && target < MaxThreads
    ensures PickKey(nextKeyId, keyId - 1, target) == Chosen(keyId, target)
  {
  }

  /** A key built from a thread below 100 and an id below 10^10 reads back
      as that thread and id. */
  lemma IssuedKeyParses(threadId: nat, keyId: nat)
    ensures threadId < 100 && keyId < Keys.Pow10(10) ==>
      Keys.ParseKey(Keys.GenerateKey(threadId, keyId)) == Keys.Parsed(threadId, keyId)
  {
    if threadId < 100 && keyId < Keys.Pow10(10) {
      Keys.ParseGenerateKey(threadId, keyId);
    }
  }

  /** perform_insert with the key id it drew from the counter: one insert,
      of a key that names this thread and this id. */
  function PerformInsert(threadId: nat, keyId: nat, st: Status, t0: U64, t1: U64): (o: OpOutcome)
    ensures |o.calls| == 1 && o.calls[0].InsertCall?
    ensures threadId < 100 && keyId < Keys.Pow10(10) ==> Keys.ParseKey(o.calls[0].key) == Keys.Parsed(threadId, keyId)
    ensures o.logged <==> st != Success && st != DuplicateKey
    ensures o.elapsed == SubU64(t1, t0)
  {
    IssuedKeyParses(threadId, keyId);
    OpOutcome([InsertCall(Keys.GenerateKey(threadId, keyId))], SubU64(t1, t0),
              st != Success && st != DuplicateKey)
  }

  /** Inserts for distinct (thread, id) pairs within the key's fields never
      write the same key. */
  lemma InsertKeysDistinct(t1: nat, k1: nat, t2: nat, k2: nat, st1: Status, st2: Status, a: U64, b: U64)
    requires t1 < MaxThreads && t2 < MaxThreads && k1 < Keys.Pow10(10) && k2 < Keys.Pow10(10)
    requires t1 != t2 || k1 != k2
    ensures PerformInsert(t1, k1, st1, a, b).calls[0].key != PerformInsert(t2, k2, st2, a, b).calls[0].key
  {
    var o1, o2 := PerformInsert(t1, k1, st1, a, b), PerformInsert(t2, k2, st2, a, b);
    assert Keys.ParseKey(o1.calls[0].key) == Keys.Parsed(t1, k1);
    assert Keys.ParseKey(o2.calls[0].key) == Keys.Parsed(t2, k2);
  }

  /** perform_find: no store call and zero elapsed time against an empty key
      space; otherwise one find. The two fairness drivers (verbose) report
      the empty key space and every status other than success or not-found;
      upscale_mutex reports nothing. */
  function PerformFind(verbose: bool, nextKeyId: int, r1: nat, r2: nat, st: Status, t0: U64, t1: U64): (o: OpOutcome)
    ensures nextKeyId <= 1 ==> o.calls == [] && o.elapsed == 0 && (o.logged <==> verbose)
    ensures nextKeyId > 1 ==> |o.calls| == 1 && o.calls[0].FindCall? && o.elapsed == SubU64(t1, t0)
    ensures nextKeyId > 1 ==> var c := PickKey(nextKeyId, r1, r2);
      o.calls[0].key == Keys.GenerateKey(c.targetThread, c.keyId)
    ensures 1 < nextKeyId <= Keys.Pow10(10) ==> var c := PickKey(nextKeyId, r1, r2);
      Keys.ParseKey(o.calls[0].key) == Keys.Parsed(c.targetThread, c.keyId)
    ensures nextKeyId > 1 ==> (o.logged <==> verbose && st != Success && st != KeyNotFound)
  {
    match PickKey(nextKeyId, r1, r2)
    case NoKeys => OpOutcome([], 0, verbose)
    case Chosen(k, t) =>
      IssuedKeyParses(t, k);
      OpOutcome([FindCall(Keys.GenerateKey(t, k))], SubU64(t1, t0), verbose && st != Success && st != KeyNotFound)
  }

  /** perform_update: a find, followed by an overwriting insert only when the
      find succeeded; the status judged (by the verbose drivers) is the last
      one obtained. */
  function PerformUpdate(verbose: bool, nextKeyId: int, r1: nat, r2: nat, findSt: Status, overwriteSt: Status,
                         t0: U64, t1: U64): (o: OpOutcome)
    ensures nextKeyId <= 1 ==> o.calls == [] && o.elapsed == 0 && !o.logged
    ensures nextKeyId > 1 ==> |o.calls| == (if findSt == Success then 2 else 1)
    ensures nextKeyId > 1 && findSt == Success ==> o.calls[1] == OverwriteCall(o.calls[0].key)
    ensures nextKeyId > 1 ==> var c := PickKey(nextKeyId, r1, r2);
      o.calls[0] == FindCall(Keys.GenerateKey(c.targetThread, c.keyId))
    ensures 1 < nextKeyId <= Keys.Pow10(10) ==> var c := PickKey(nextKeyId, r1, r2);
      Keys.ParseKey(o.calls[0].key) == Keys.Parsed(c.targetThread, c.keyId)
    ensures nextKeyId > 1 ==>
      (o.logged <==> verbose && if findSt == Success then overwriteSt != Success && overwriteSt != KeyNotFound
                                else findSt != KeyNotFound)
  {
    match PickKey(nextKeyId, r1, r2)
    case NoKeys => OpOutcome([], 0, false)
    case Chosen(k, t) =>
      var key := Keys.GenerateKey(t, k);
      IssuedKeyParses(t, k);
      var last := if findSt == Success then overwriteSt else findSt;
      var calls := if findSt == Success then [FindCall(key), OverwriteCall(key)] else [FindCall(key)];
      OpOutcome(calls, SubU64(t1, t0), verbose && last != Success && last != KeyNotFound)
  }

  /** A find or an update only ever asks for a key that an earlier insert
      could have written: a 13-character key naming an issued id. */
  lemma LookupKeyWellFormed(nextKeyId: int, r1: nat, r2: nat)
    requires 1 < nextKeyId <= Keys.Pow10(8)
    ensures var c := PickKey(nextKeyId, r1, r2);
      c.Chosen? && |Keys.GenerateKey(c.targetThread, c.keyId)| == 13
      && Keys.ParseKey(Keys.GenerateKey(c.targetThread, c.keyId)) == Keys.Parsed(c.targetThread, c.keyId)
  {
    var c := PickKey(nextKeyId, r1, r2);
    Keys.GenerateKeyLength(c.targetThread, c.keyId);
    assert Keys.Pow10(8) <= Keys.Pow10(10) by {
      assert Keys.Pow10(10) == 100 * Keys.Pow10(8);
    }
    Keys.ParseGenerateKey(c.targetThread, c.keyId);
  }

  // ---------------------------------------------------------------------
  // The shared key counter (get_next_key_id)

  class KeyCounter {
    var nextKeyId: int

    constructor ()
      ensures nextKeyId == 1
    {
      nextKeyId := 1;
    }

    /** __sync_fetch_and_add(&next_key_id, 1): returns the old value. */
    method GetNextKeyId() returns (id: int)
      modifies this
      ensures id == old(nextKeyId)
      ensures nextKeyId == old(nextKeyId) + 1
    {
      id := nextKeyId;
      nextKeyId := nextKeyId + 1;
    }
  }

  /** Calls get_next_key_id k times on a fresh counter: the ids come out
      1, 2, 3, ... in call order, and the counter ends one past the last id. */
  method IssueKeyIds(k: nat) returns (ids: seq<int>, next: int)
    ensures |ids| == k
    ensures forall i :: 0 <= i < k ==> ids[i] == i + 1
    ensures next == k + 1
  {
    var counter := new KeyCounter();
    ids := [];
    while |ids| < k
      invariant |ids| <= k
      invariant counter.nextKeyId == |ids| + 1
      invariant forall i :: 0 <= i < |ids| ==> ids[i] == i + 1
    {
      var id := counter.GetNextKeyId();
      ids := ids + [id];
    }
    next := counter.nextKeyId;
  }

  // ---------------------------------------------------------------------
  // MetricsCollector: the per-thread operation counters

  datatype OpCounters = OpCounters(
    insertCount: nat, findCount: nat, updateCount: nat,
    insertTime: U64, findTime: U64, updateTime: U64,
    lockWaitTime: U64, totalOperations: nat, lockAcquisitions: nat)

  /** The counters main zeroes before it starts a thread. */
  const ZeroCounters := OpCounters(0, 0, 0, 0, 0, 0, 0, 0, 0)

  /** The counter discipline: every operation is counted once by kind, once in
      total_operations and once in lock_acquisitions. */
  predicate CountsConsistent(c: OpCounters) {
    c.insertCount + c.findCount + c.updateCount == c.totalOperations == c.lockAcquisitions
  }

  /** One loop iteration's bookkeeping: add the lock wait, count the
      acquisition, add the operation's time and count to its kind, and count
      the operation. */
  function Record(c: OpCounters, op: Op, wait: U64, elapsed: U64): (r: OpCounters)
    ensures CountsConsistent(c) ==> CountsConsistent(r)
    ensures r.totalOperations == c.totalOperations + 1 && r.lockAcquisitions == c.lockAcquisitions + 1
    ensures r.insertCount == c.insertCount + (if op == OpInsert then 1 else 0)
    ensures r.findCount == c.findCount + (if op == OpFind then 1 else 0)
    ensures r.updateCount == c.updateCount + (if op == OpUpdate then 1 else 0)
  {
    var c1 := c.(lockWaitTime := AddU64(c.lockWaitTime, wait), lockAcquisitions := c.lockAcquisitions + 1);
    var c2 := match op
      case OpInsert => c1.(insertTime := AddU64(c1.insertTime, elapsed), insertCount := c1.insertCount + 1)
      case OpFind => c1.(findTime := AddU64(c1.findTime, elapsed), findCount := c1.findCount + 1)
      case OpUpdate => c1.(updateTime := AddU64(c1.updateTime, elapsed), updateCount := c1.updateCount + 1);
    c2.(totalOperations := c2.totalOperations + 1)
  }

  // ---------------------------------------------------------------------
  // Command line: <num_threads> <duration> <db_file> [insert] [find] [selector]

  /** The arguments after atoi/atof; argc counts the program name. */
  datatype CommandLine = CommandLine(argc: int, numThreads: int, duration: int,
                                     insertArg: real, findArg: real, selectorArg: int)

  function InsertRatio(cl: CommandLine): real {
    if cl.argc > 4 then cl.insertArg else 0.3
  }

  function FindRatio(cl: CommandLine): real {
    if cl.argc > 5 then cl.findArg else 0.6
  }

  function UpdateRatio(cl: CommandLine): real {
    1.0 - InsertRatio(cl) - FindRatio(cl)
  }

  datatype Rejection = UsageMessage | BadThreadCount | BadRatioSum

  /** The checks every driver's main makes, in order, before building anything. */
  function Validate(cl: CommandLine): (rej: Option<Rejection>)
    ensures rej == Some(UsageMessage) <==> cl.argc < 4
    ensures rej.None? <==>
      cl.argc >= 4 && 1 <= cl.numThreads <= MaxThreads && InsertRatio(cl) + FindRatio(cl) <= 1.0
    ensures rej.None? ==> UpdateRatio(cl) >= 0.0
  {
    if cl.argc < 4 then Some(UsageMessage)
    else if cl.numThreads > MaxThreads || cl.numThreads < 1 then Some(BadThreadCount)
    else if InsertRatio(cl) + FindRatio(cl) > 1.0 then Some(BadRatioSum)
    else None
  }

  /** A command line with enough arguments and a valid thread count is
      rejected for its ratios exactly when they sum above 1.0, so the ratio
      message is the one shown. */
  lemma RatioSumRejected(cl: CommandLine)
    requires cl.argc >= 4 && 1 <= cl.numThreads <= MaxThreads
    ensures Validate(cl) == Some(BadRatioSum) <==> InsertRatio(cl) + FindRatio(cl) > 1.0
  {
  }

  datatype Option<T> = None | Some(value: T)
}
