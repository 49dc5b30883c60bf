/** The hierarchical mutex benchmark (upscale_mutex.c): threads at five
    hierarchy levels share one unfair lock; after every acquisition a small
    "last holder" tracker records handoffs between threads and between
    levels, and the report reduces the per-thread counts to per-level and
    overall fairness figures and verdicts. */
module HierarchyMutex {
  import opened Common
  import Metrics
  import Arith

  // ---------------------------------------------------------------------
  // Hierarchy levels and lock types

  datatype Level = Critical | High | Normal | Low | Background

  /** The enum value: CRITICAL is 0 and BACKGROUND is 4; a smaller value is
      a higher level. */
  function Rank(l: Level): (r: nat)
    ensures r < 5
  {
    match l
    case Critical => 0
    case High => 1
    case Normal => 2
    case Low => 3
    case Background => 4
  }

  lemma RankInjective(a: Level, b: Level)
    ensures Rank(a) == Rank(b) <==> a == b
  {
  }

  function LevelOfRank(r: nat): (l: Level)
    requires r < 5
    ensures Rank(l) == r
  {
    if r == 0 then Critical
    else if r == 1 then High
    else if r == 2 then Normal
    else if r == 3 then Low
    else Background
  }

  /** main assigns the levels cyclically, thread i at level i % 5, so that
      every level has a representative once there are five threads. */
  function LevelOf(threadId: nat): (l: Level)
    ensures Rank(l) == threadId % 5
    ensures threadId < 5 ==> Rank(l) == threadId
  {
    LevelOfRank(threadId % 5)
  }

  datatype LockKind = MutexLock | SpinLock | RwLock | AdaptiveMutex

  /** The lock_type_t value the command line names, if it names one. */
  function LockKindOf(t: int): (k: Option<LockKind>)
    ensures k.Some? <==> 0 <= t <= 3
  {
    if t == 0 then Some(MutexLock)
    else if t == 1 then Some(SpinLock)
    else if t == 2 then Some(RwLock)
    else if t == 3 then Some(AdaptiveMutex)
    else None
  }

  /** init_lock: the mutex and the rwlock are initialised statically; the
      spinlock and the adaptive mutex depend on the pthread initialisers,
      whose outcomes are inputs; any other value is an unknown lock type. */
  function InitLock(t: int, spinInitOk: bool, attrInitOk: bool, mutexInitOk: bool): (r: int)
    ensures r == 0 || r == -1
    ensures LockKindOf(t).None? ==> r == -1
    ensures r == 0 <==>
      LockKindOf(t).Some? && (t == 1 ==> spinInitOk) && (t == 3 ==> attrInitOk && mutexInitOk)
  {
    match LockKindOf(t)
    case None => -1
    case Some(k) =>
      match k
      case MutexLock => 0
      case SpinLock => if spinInitOk then 0 else -1
      case RwLock => 0
      case AdaptiveMutex => if attrInitOk && mutexInitOk then 0 else -1
  }

  // ---------------------------------------------------------------------
  // The acquisition tracker (acquire_lock)

  /** The globals last_thread_id, last_hierarchy, consecutive_same_thread,
      consecutive_same_hierarchy and hierarchy_switches. */
  datatype Tracker = Tracker(lastThreadId: int, lastLevel: Level, consecutiveThread: nat,
                             consecutiveLevel: nat, switches: nat)

  const InitialTracker := Tracker(-1, Background, 0, 0, 0)

  /** The fields of a thread's configuration that acquire_lock updates. */
  datatype LockStats = LockStats(lastLockTime: U64, maxStarvation: U64, starvationPeriods: nat,
                                 dominatedLower: nat, starvedByHigher: nat)

  /** The values main gives those fields before starting the thread. */
  const FreshStats := LockStats(0, 0, 0, 0, 0)

  /** 100 ms in cycles: a gap longer than this counts as a starvation period. */
  const StarvationThreshold: nat := 100 * CyclePerUs * 1000

  /** The starvation check on the gap since the thread's previous
      acquisition; a thread whose last_lock_time is still 0 records no gap. */
  function Starvation(st: LockStats, now: U64): (r: LockStats)
    ensures r.lastLockTime == now
    ensures r.dominatedLower == st.dominatedLower && r.starvedByHigher == st.starvedByHigher
    ensures st.lastLockTime == 0 ==>
      r.maxStarvation == st.maxStarvation && r.starvationPeriods == st.starvationPeriods
    ensures st.lastLockTime > 0 ==> var gap := SubU64(now, st.lastLockTime);
      && st.maxStarvation <= r.maxStarvation && gap <= r.maxStarvation
      && (r.maxStarvation == st.maxStarvation || r.maxStarvation == gap)
      && r.starvationPeriods == st.starvationPeriods + (if gap > StarvationThreshold then 1 else 0)
  {
    if st.lastLockTime > 0 then
      var gap := SubU64(now, st.lastLockTime);
      st.(maxStarvation := if gap > st.maxStarvation then gap else st.maxStarvation,
          starvationPeriods := st.starvationPeriods + (if gap > StarvationThreshold then 1 else 0),
          lastLockTime := now)
    else
      st.(lastLockTime := now)
  }

  /** A handoff: the lock had a previous holder and it was another thread. */
  predicate Handoff(tr: Tracker, threadId: nat) {
    tr.lastThreadId >= 0 && tr.lastThreadId != threadId
  }

  /** The tracker after thread threadId at the given level obtains the lock.
      A re-acquisition by the last holder only extends the run of
      consecutive acquisitions; any other acquisition starts a new run of 1
      and makes the thread the last holder, and a handoff between two
      levels counts one hierarchy switch. */
  function TrackHandoff(tr: Tracker, threadId: nat, level: Level): (r: Tracker)
    ensures tr.lastThreadId == threadId ==> r == tr.(consecutiveThread := tr.consecutiveThread + 1)
    ensures tr.lastThreadId != threadId ==>
      r.lastThreadId == threadId && r.lastLevel == level && r.consecutiveThread == 1
    ensures r.switches == tr.switches + (if Handoff(tr, threadId) && level != tr.lastLevel then 1 else 0)
    ensures Handoff(tr, threadId) ==>
      r.consecutiveLevel == (if level != tr.lastLevel then 1 else tr.consecutiveLevel + 1)
    ensures !Handoff(tr, threadId) ==> r.consecutiveLevel == tr.consecutiveLevel
  {
    if tr.lastThreadId == threadId then
      tr.(consecutiveThread := tr.consecutiveThread + 1)
    else if tr.lastThreadId >= 0 then
      var differ := tr.lastLevel != level;
      Tracker(threadId, level, 1, if differ then 1 else tr.consecutiveLevel + 1,
              tr.switches + (if differ then 1 else 0))
    else
      Tracker(threadId, level, 1, tr.consecutiveLevel, tr.switches)
  }

  /** The dominance counters of the acquiring thread: on a handoff from a
      lower level it dominated, from a higher level it was starved. Exactly
      the handoffs that count a hierarchy switch count one of the two. */
  function Dominance(st: LockStats, tr: Tracker, threadId: nat, level: Level): (r: LockStats)
    ensures r.lastLockTime == st.lastLockTime && r.maxStarvation == st.maxStarvation
    ensures r.starvationPeriods == st.starvationPeriods
    ensures r.dominatedLower == st.dominatedLower
                              + (if Handoff(tr, threadId) && Rank(level) < Rank(tr.lastLevel) then 1 else 0)
    ensures r.starvedByHigher == st.starvedByHigher
                               + (if Handoff(tr, threadId) && Rank(level) > Rank(tr.lastLevel) then 1 else 0)
    ensures r.dominatedLower + r.starvedByHigher + tr.switches
         == st.dominatedLower + st.starvedByHigher + TrackHandoff(tr, threadId, level).switches
  {
    RankInjective(level, tr.lastLevel);
    if Handoff(tr, threadId) then
      if Rank(level) < Rank(tr.lastLevel) then st.(dominatedLower := st.dominatedLower + 1)
      else if Rank(level) > Rank(tr.lastLevel) then st.(starvedByHigher := st.starvedByHigher + 1)
      else st
    else st
  }

  /** Everything acquire_lock does to the acquiring thread's fields. */
  function AcquireStats(st: LockStats, tr: Tracker, threadId: nat, level: Level, now: U64): LockStats {
    Dominance(Starvation(st, now), tr, threadId, level)
  }

  /** The tracker globals, updated in place by every acquisition. */
  class LockTracker {
    var lastThreadId: int
    var lastLevel: Level
    var consecutiveThread: nat
    var consecutiveLevel: nat
    var switches: nat

    function State(): Tracker
      reads this
    {
      Tracker(lastThreadId, lastLevel, consecutiveThread, consecutiveLevel, switches)
    }

    constructor ()
      ensures State() == InitialTracker
    {
      lastThreadId := -1;
      lastLevel := Background;
      consecutiveThread := 0;
      consecutiveLevel := 0;
      switches := 0;
    }
  }

  /** A thread's configuration: its identity and the fields acquire_lock
      updates in place. */
  class ThreadLock {
    const threadId: nat
    const level: Level
    var lastLockTime: U64
    var maxStarvation: U64
    var starvationPeriods: nat
    var dominatedLower: nat
    var starvedByHigher: nat

    function Stats(): LockStats
      reads this
    {
      LockStats(lastLockTime, maxStarvation, starvationPeriods, dominatedLower, starvedByHigher)
    }

    constructor (threadId: nat, level: Level)
      ensures this.threadId == threadId && this.level == level
      ensures Stats() == FreshStats
    {
      this.threadId := threadId;
      this.level := level;
      lastLockTime := 0;
      maxStarvation := 0;
      starvationPeriods := 0;
      dominatedLower := 0;
      starvedByHigher := 0;
    }
  }

  /** acquire_lock after the lock is obtained: the cycle counter read
      before and after the acquisition are startTime and endTime; returns
      the cycles spent waiting. */
  method AcquireLock(tracker: LockTracker, config: ThreadLock, startTime: U64, endTime: U64)
    returns (wait: U64)
    modifies tracker, config
    ensures wait == SubU64(endTime, startTime)
    ensures tracker.State() == TrackHandoff(old(tracker.State()), config.threadId, config.level)
    ensures config.Stats()
         == AcquireStats(old(config.Stats()), old(tracker.State()), config.threadId, config.level, endTime)
  {
    CheckStarvation(config, endTime);
    TrackHierarchy(tracker, config);
    wait := SubU64(endTime, startTime);
  }

  /** The starvation check of acquire_lock: the gap since the thread's last
      acquisition raises its longest gap and may count a starvation period. */
  method CheckStarvation(config: ThreadLock, now: U64)
    modifies config
    ensures config.Stats() == Starvation(old(config.Stats()), now)
  {
    if config.lastLockTime > 0 {
      var gap := SubU64(now, config.lastLockTime);
      if gap > config.maxStarvation {
        config.maxStarvation := gap;
      }
      if gap > StarvationThreshold {
        config.starvationPeriods := config.starvationPeriods + 1;
      }
    }
    config.lastLockTime := now;
  }

  /** The hierarchy tracking of acquire_lock: the tracker globals take the
      handoff step and the thread's dominance counters the dominance step. */
  method TrackHierarchy(tracker: LockTracker, config: ThreadLock)
    modifies tracker, config
    ensures tracker.State() == TrackHandoff(old(tracker.State()), config.threadId, config.level)
    ensures config.Stats() == Dominance(old(config.Stats()), old(tracker.State()), config.threadId, config.level)
  {
    if tracker.lastThreadId == config.threadId {
      tracker.consecutiveThread := tracker.consecutiveThread + 1;
    } else {
      tracker.consecutiveThread := 1;
      if tracker.lastThreadId >= 0 {
        var lastLevel := tracker.lastLevel;
        if Rank(config.level) < Rank(lastLevel) {
          config.dominatedLower := config.dominatedLower + 1;
        } else if Rank(config.level) > Rank(lastLevel) {
          config.starvedByHigher := config.starvedByHigher + 1;
        }
        if lastLevel != config.level {
          tracker.switches := tracker.switches + 1;
          tracker.consecutiveLevel := 1;
        } else {
          tracker.consecutiveLevel := tracker.consecutiveLevel + 1;
        }
      }
      tracker.lastThreadId := config.threadId;
      tracker.lastLevel := config.level;
    }
  }

  // ---------------------------------------------------------------------
  // Replaying an acquisition order

  /** One acquisition in the order the lock serialises them: the thread and
      the cycle counter after it obtained the lock. */
  datatype Acquisition = Acquisition(threadId: nat, time: U64)

  predicate ValidAcquisitions(n: nat, acqs: seq<Acquisition>) {
    forall k :: 0 <= k < |acqs| ==> acqs[k].threadId < n
  }

  /** The tracker and every thread's fields after the acquisitions. */
  datatype LockHistory = LockHistory(tracker: Tracker, stats: seq<LockStats>)

  function Replay(n: nat, acqs: seq<Acquisition>): (h: LockHistory)
    requires ValidAcquisitions(n, acqs)
    ensures |h.stats| == n
  {
    if acqs == [] then LockHistory(InitialTracker, seq(n, _ => FreshStats))
    else
      var prev := Replay(n, acqs[..|acqs| - 1]);
      var a := acqs[|acqs| - 1];
      var level := LevelOf(a.threadId);
      LockHistory(TrackHandoff(prev.tracker, a.threadId, level),
                  prev.stats[a.threadId := AcquireStats(prev.stats[a.threadId], prev.tracker, a.threadId, level, a.time)])
  }

  /** The last acquirer is the last holder the tracker remembers, with its
      own level; before any acquisition there is none. */
  lemma {:induction false} ReplayLastHolder(n: nat, acqs: seq<Acquisition>)
    requires ValidAcquisitions(n, acqs)
    ensures acqs == [] ==> Replay(n, acqs).tracker == InitialTracker
    ensures acqs != [] ==> var t := Replay(n, acqs).tracker;
      t.lastThreadId == acqs[|acqs| - 1].threadId && t.lastLevel == LevelOf(acqs[|acqs| - 1].threadId)
  {
    if acqs != [] {
      ReplayLastHolder(n, acqs[..|acqs| - 1]);
    }
  }

  /** Adjacent acquisitions at different levels. */
  function LevelChanges(acqs: seq<Acquisition>): nat {
    if |acqs| <= 1 then 0
    else LevelChanges(acqs[..|acqs| - 1])
         + (if LevelOf(acqs[|acqs| - 1].threadId) != LevelOf(acqs[|acqs| - 2].threadId) then 1 else 0)
  }

  /** hierarchy_switches counts exactly the adjacent acquisitions at
      different levels. */
  lemma {:induction false} ReplaySwitches(n: nat, acqs: seq<Acquisition>)
    requires ValidAcquisitions(n, acqs)
    ensures Replay(n, acqs).tracker.switches == LevelChanges(acqs)
  {
    if acqs != [] {
      var init := acqs[..|acqs| - 1];
      ReplaySwitches(n, init);
      ReplayLastHolder(n, init);
      if init != [] {
        assert init[|init| - 1] == acqs[|acqs| - 2];
      }
    }
  }

  /** The dominated_lower_threads and starved_by_higher counts of all threads. */
  function DominanceTotal(stats: seq<LockStats>): nat {
    if stats == [] then 0
    else DominanceTotal(stats[..|stats| - 1]) + stats[|stats| - 1].dominatedLower + stats[|stats| - 1].starvedByHigher
  }

  lemma {:induction false} DominanceTotalUpdate(stats: seq<LockStats>, i: nat, v: LockStats)
    requires i < |stats|
    ensures DominanceTotal(stats[i := v]) + stats[i].dominatedLower + stats[i].starvedByHigher
         == DominanceTotal(stats) + v.dominatedLower + v.starvedByHigher
  {
    var k := |stats| - 1;
    if i == k {
      assert stats[i := v][..k] == stats[..k];
    } else {
      assert stats[i := v][..k] == stats[..k][i := v];
      DominanceTotalUpdate(stats[..k], i, v);
    }
  }

  lemma {:induction false} FreshTotal(n: nat)
    ensures DominanceTotal(seq(n, _ => FreshStats)) == 0
  {
    if n > 0 {
      assert seq(n, _ => FreshStats)[..n - 1] == seq(n - 1, _ => FreshStats);
      FreshTotal(n - 1);
    }
  }

  /** Every hierarchy switch is charged to the acquiring thread as either a
      domination or a starvation, and nothing else is: the switches equal
      the sum over threads of dominated + starved. */
  lemma {:induction false} ReplayDominance(n: nat, acqs: seq<Acquisition>)
    requires ValidAcquisitions(n, acqs)
    ensures DominanceTotal(Replay(n, acqs).stats) == Replay(n, acqs).tracker.switches
  {
    if acqs == [] {
      FreshTotal(n);
    } else {
      var prev := Replay(n, acqs[..|acqs| - 1]);
      ReplayDominance(n, acqs[..|acqs| - 1]);
      var a := acqs[|acqs| - 1];
      var v := AcquireStats(prev.stats[a.threadId], prev.tracker, a.threadId, LevelOf(a.threadId), a.time);
      DominanceTotalUpdate(prev.stats, a.threadId, v);
    }
  }

  /** The length of the final run of acquisitions by one thread. */
  function TrailingRun(acqs: seq<Acquisition>): (r: nat)
    requires acqs != []
    ensures 1 <= r <= |acqs|
  {
    if |acqs| == 1 || acqs[|acqs| - 1].threadId != acqs[|acqs| - 2].threadId then 1
    else TrailingRun(acqs[..|acqs| - 1]) + 1
  }

  /** consecutive_same_thread is the length of the current holder's
      unbroken run of acquisitions. */
  lemma {:induction false} ReplayConsecutive(n: nat, acqs: seq<Acquisition>)
    requires ValidAcquisitions(n, acqs) && acqs != []
    ensures Replay(n, acqs).tracker.consecutiveThread == TrailingRun(acqs)
  {
    var init := acqs[..|acqs| - 1];
    ReplayLastHolder(n, init);
    if |acqs| > 1 {
      assert init[|init| - 1] == acqs[|acqs| - 2];
      if acqs[|acqs| - 1].threadId == acqs[|acqs| - 2].threadId {
        ReplayConsecutive(n, init);
      }
    }
  }

  // ---------------------------------------------------------------------
  // Starvation gaps

  /** The times at which thread t obtained the lock. */
  function TimesOf(acqs: seq<Acquisition>, t: nat): seq<U64> {
    if acqs == [] then []
    else TimesOf(acqs[..|acqs| - 1], t) + (if acqs[|acqs| - 1].threadId == t then [acqs[|acqs| - 1].time] else [])
  }

  /** One thread's starvation fields after acquisitions at the given times. */
  function StarvationRun(times: seq<U64>): LockStats {
    if times == [] then FreshStats else Starvation(StarvationRun(times[..|times| - 1]), times[|times| - 1])
  }

  function WithoutDominance(st: LockStats): LockStats {
    st.(dominatedLower := 0, starvedByHigher := 0)
  }

  /** A thread's starvation fields depend only on its own acquisition times. */
  lemma {:induction false} ReplayStarvation(n: nat, acqs: seq<Acquisition>, t: nat)
    requires ValidAcquisitions(n, acqs) && t < n
    ensures WithoutDominance(Replay(n, acqs).stats[t]) == StarvationRun(TimesOf(acqs, t))
  {
    if acqs != [] {
      var init := acqs[..|acqs| - 1];
      ReplayStarvation(n, init, t);
      var a := acqs[|acqs| - 1];
      if a.threadId != t {
        assert TimesOf(acqs, t) == TimesOf(init, t) + [];
        assert TimesOf(init, t) + [] == TimesOf(init, t);
        assert Replay(n, acqs).stats[t] == Replay(n, init).stats[t];
      } else {
        var times := TimesOf(acqs, t);
        assert times[..|times| - 1] == TimesOf(init, t);
      }
    }
  }

  /** The gaps between consecutive times. */
  function Gaps(times: seq<U64>): (gs: seq<U64>)
    ensures |gs| == if times == [] then 0 else |times| - 1
  {
    if |times| < 2 then []
    else Gaps(times[..|times| - 1]) + [SubU64(times[|times| - 1], times[|times| - 2])]
  }

  function MaxGap(gs: seq<U64>): (m: U64)
    ensures forall i :: 0 <= i < |gs| ==> gs[i] <= m
    ensures gs != [] ==> m in gs
    ensures gs == [] ==> m == 0
  {
    if gs == [] then 0
    else
      var m0 := MaxGap(gs[..|gs| - 1]);
      assert forall i :: 0 <= i < |gs| - 1 ==> gs[i] == gs[..|gs| - 1][i];
      if gs[|gs| - 1] > m0 then gs[|gs| - 1] else m0
  }

  function LongGaps(gs: seq<U64>): (c: nat)
    ensures c <= |gs|
  {
    if gs == [] then 0
    else LongGaps(gs[..|gs| - 1]) + (if gs[|gs| - 1] > StarvationThreshold then 1 else 0)
  }

  /** With a non-zero cycle counter, the first acquisition records no gap
      and afterwards max_starvation_time is the longest gap between two of
      the thread's acquisitions, starvation_periods the number of gaps over
      100 ms, and last_lock_time the latest acquisition. */
  lemma {:induction false} StarvationRunGaps(times: seq<U64>)
    requires forall k :: 0 <= k < |times| ==> times[k] > 0
    ensures var r := StarvationRun(times);
      && r.maxStarvation == MaxGap(Gaps(times))
      && r.starvationPeriods == LongGaps(Gaps(times))
      && r.lastLockTime == (if times == [] then 0 else times[|times| - 1])
      && r.dominatedLower == 0 && r.starvedByHigher == 0
  {
    if times != [] {
      var init := times[..|times| - 1];
      StarvationRunGaps(init);
      if |times| >= 2 {
        var gs := Gaps(times);
        assert gs[..|gs| - 1] == Gaps(init);
        assert init[|init| - 1] == times[|times| - 2];
      }
    }
  }

  // ---------------------------------------------------------------------
  // The worker loop (worker_thread)

  /** What one iteration observes: the rand() draw choosing the operation,
      the cycle counter around the acquisition, consecutive_same_thread as
      it stands once this thread holds the lock, and the cycles the store
      operation took. */
  datatype MutexTick = MutexTick(draw: nat, lockStart: U64, lockEnd: U64, consecutive: nat, elapsed: U64)

  predicate ValidMutexTicks(ticks: seq<MutexTick>) {
    forall k :: 0 <= k < |ticks| ==> ticks[k].draw <= RandMax
  }

  /** The thread's counters, its max_consecutive_acquisitions and the number
      of sched_yield calls. */
  datatype MutexWorker = MutexWorker(counters: OpCounters, maxConsecutive: nat, schedYields: nat)

  function MutexStep(s: MutexWorker, tk: MutexTick, insertRatio: real, findRatio: real): MutexWorker
    requires tk.draw <= RandMax
  {
    var op := ChooseOp(tk.draw, insertRatio, findRatio);
    var c := Record(s.counters, op, SubU64(tk.lockEnd, tk.lockStart), tk.elapsed);
    MutexWorker(c, if tk.consecutive > s.maxConsecutive then tk.consecutive else s.maxConsecutive,
                s.schedYields + (if c.totalOperations % 10 == 0 then 1 else 0))
  }

  function MutexRun(s: MutexWorker, ticks: seq<MutexTick>, insertRatio: real, findRatio: real): MutexWorker
    requires ValidMutexTicks(ticks)
  {
    if ticks == [] then s
    else MutexStep(MutexRun(s, ticks[..|ticks| - 1], insertRatio, findRatio), ticks[|ticks| - 1], insertRatio, findRatio)
  }

  /** Running one tick more is one more MutexStep. */
  lemma MutexRunPrefixStep(s: MutexWorker, ticks: seq<MutexTick>, k: nat, insertRatio: real, findRatio: real)
    requires ValidMutexTicks(ticks) && k < |ticks|
    ensures MutexRun(s, ticks[..k + 1], insertRatio, findRatio)
         == MutexStep(MutexRun(s, ticks[..k], insertRatio, findRatio), ticks[k], insertRatio, findRatio)
  {
    assert ticks[..k + 1][..k] == ticks[..k];
  }

  /** One pass of the loop body: acquire, track the longest run, perform
      the operation, count it and yield on every tenth operation. */
  method MutexIteration(s: MutexWorker, tk: MutexTick, insertRatio: real, findRatio: real) returns (r: MutexWorker)
    requires tk.draw <= RandMax
    ensures r == MutexStep(s, tk, insertRatio, findRatio)
  {
    var op := ChooseOp(tk.draw, insertRatio, findRatio);
    var c := s.counters;
    c := c.(lockWaitTime := AddU64(c.lockWaitTime, SubU64(tk.lockEnd, tk.lockStart)),
            lockAcquisitions := c.lockAcquisitions + 1);
    var maxConsecutive := s.maxConsecutive;
    if tk.consecutive > maxConsecutive {
      maxConsecutive := tk.consecutive;
    }
    match op {
      case OpInsert => c := c.(insertTime := AddU64(c.insertTime, tk.elapsed), insertCount := c.insertCount + 1);
      case OpFind => c := c.(findTime := AddU64(c.findTime, tk.elapsed), findCount := c.findCount + 1);
      case OpUpdate => c := c.(updateTime := AddU64(c.updateTime, tk.elapsed), updateCount := c.updateCount + 1);
    }
    c := c.(totalOperations := c.totalOperations + 1);
    var schedYields := s.schedYields;
    if c.totalOperations % 10 == 0 {
      schedYields := schedYields + 1;
    }
    r := MutexWorker(c, maxConsecutive, schedYields);
  }

  /** worker_thread's loop, one iteration per tick until the stop flag. */
  method RunMutexWorker(init: MutexWorker, ticks: seq<MutexTick>, insertRatio: real, findRatio: real)
    returns (s: MutexWorker)
    requires ValidMutexTicks(ticks)
    ensures s == MutexRun(init, ticks, insertRatio, findRatio)
  {
    s := init;
    var k := 0;
    while k < |ticks|
      invariant 0 <= k <= |ticks|
      invariant s == MutexRun(init, ticks[..k], insertRatio, findRatio)
    {
      MutexRunPrefixStep(init, ticks, k, insertRatio, findRatio);
      s := MutexIteration(s, ticks[k], insertRatio, findRatio);
      k := k + 1;
    }
    assert ticks[..k] == ticks;
  }

  function MutexCountOp(ticks: seq<MutexTick>, op: Op, insertRatio: real, findRatio: real): nat
    requires ValidMutexTicks(ticks)
  {
    if ticks == [] then 0
    else MutexCountOp(ticks[..|ticks| - 1], op, insertRatio, findRatio)
         + (if ChooseOp(ticks[|ticks| - 1].draw, insertRatio, findRatio) == op then 1 else 0)
  }

  /** Each iteration is one acquisition and one operation counted under the
      kind its draw chose, so insert + find + update = total = acquisitions. */
  lemma {:induction false} MutexRunCounts(s: MutexWorker, ticks: seq<MutexTick>, insertRatio: real, findRatio: real)
    requires ValidMutexTicks(ticks)
    ensures var r := MutexRun(s, ticks, insertRatio, findRatio);
      && r.counters.totalOperations == s.counters.totalOperations + |ticks|
      && r.counters.lockAcquisitions == s.counters.lockAcquisitions + |ticks|
      && r.counters.insertCount == s.counters.insertCount + MutexCountOp(ticks, OpInsert, insertRatio, findRatio)
      && r.counters.findCount == s.counters.findCount + MutexCountOp(ticks, OpFind, insertRatio, findRatio)
      && r.counters.updateCount == s.counters.updateCount + MutexCountOp(ticks, OpUpdate, insertRatio, findRatio)
      && (CountsConsistent(s.counters) ==> CountsConsistent(r.counters))
  {
    if ticks != [] {
      MutexRunCounts(s, ticks[..|ticks| - 1], insertRatio, findRatio);
    }
  }

  /** The largest consecutive_same_thread the thread observed, 0 for none. */
  function MaxObserved(ticks: seq<MutexTick>): (m: nat)
    ensures forall k :: 0 <= k < |ticks| ==> ticks[k].consecutive <= m
    ensures ticks == [] ==> m == 0
    ensures ticks != [] ==> exists k :: 0 <= k < |ticks| && ticks[k].consecutive == m
  {
    if ticks == [] then 0
    else
      var m0 := MaxObserved(ticks[..|ticks| - 1]);
      assert forall k :: 0 <= k < |ticks| - 1 ==> ticks[k] == ticks[..|ticks| - 1][k];
      if ticks[|ticks| - 1].consecutive > m0 then ticks[|ticks| - 1].consecutive else m0
  }

  /** max_consecutive_acquisitions is the running maximum of the observed
      consecutive_same_thread values. */
  lemma {:induction false} MutexRunMaxConsecutive(s: MutexWorker, ticks: seq<MutexTick>, insertRatio: real, findRatio: real)
    requires ValidMutexTicks(ticks)
    ensures MutexRun(s, ticks, insertRatio, findRatio).maxConsecutive
         == if MaxObserved(ticks) > s.maxConsecutive then MaxObserved(ticks) else s.maxConsecutive
  {
    if ticks != [] {
      MutexRunMaxConsecutive(s, ticks[..|ticks| - 1], insertRatio, findRatio);
    }
  }

  /** The thread yields once each time its operation count reaches a
      multiple of 10. */
  lemma {:induction false} MutexRunYields(s: MutexWorker, ticks: seq<MutexTick>, insertRatio: real, findRatio: real)
    requires ValidMutexTicks(ticks)
    ensures MutexRun(s, ticks, insertRatio, findRatio).schedYields
         == s.schedYields + (s.counters.totalOperations + |ticks|) / 10 - s.counters.totalOperations / 10
  {
    if ticks != [] {
      var init := ticks[..|ticks| - 1];
      MutexRunYields(s, init, insertRatio, findRatio);
      MutexRunCounts(s, init, insertRatio, findRatio);
      var t0 := s.counters.totalOperations + |init|;
      assert (t0 + 1) / 10 == t0 / 10 + (if (t0 + 1) % 10 == 0 then 1 else 0);
    }
  }

  // ---------------------------------------------------------------------
  // print_hierarchy_stats: the per-level aggregation

  /** Every thread's level (as its enum value) and operation count. */
  function LevelTags(totals: seq<nat>): (ts: seq<Metrics.Tagged>)
    ensures |ts| == |totals|
    ensures forall i :: 0 <= i < |totals| ==> ts[i] == Metrics.Tagged(i % 5, totals[i])
  {
    seq(|totals|, i requires 0 <= i < |totals| => Metrics.Tagged(Rank(LevelOf(i)), totals[i]))
  }

  /** The loop filling total_ops_by_hierarchy and threads_by_hierarchy. */
  method AggregateByLevel(totals: seq<nat>) returns (ops: seq<nat>, threads: seq<nat>)
    ensures |ops| == 5 && |threads| == 5
    ensures forall l :: 0 <= l < 5 ==>
      ops[l] == Metrics.Sum(Metrics.Members(LevelTags(totals), l))
      && threads[l] == |Metrics.Members(LevelTags(totals), l)|
  {
    var ts := LevelTags(totals);
    ops := [0, 0, 0, 0, 0];
    threads := [0, 0, 0, 0, 0];
    var i := 0;
    while i < |totals|
      invariant 0 <= i <= |totals|
      invariant |ops| == 5 && |threads| == 5
      invariant forall l :: 0 <= l < 5 ==>
        ops[l] == Metrics.Sum(Metrics.Members(ts[..i], l)) && threads[l] == |Metrics.Members(ts[..i], l)|
    {
      forall l | 0 <= l < 5
        ensures Metrics.Sum(Metrics.Members(ts[..i + 1], l))
             == Metrics.Sum(Metrics.Members(ts[..i], l)) + (if ts[i].group == l then ts[i].ops else 0)
        ensures |Metrics.Members(ts[..i + 1], l)| == |Metrics.Members(ts[..i], l)| + (if ts[i].group == l then 1 else 0)
      {
        Metrics.MembersStep(ts, i, l);
      }
      var level := Rank(LevelOf(i));
      ops := ops[level := ops[level] + totals[i]];
      threads := threads[level := threads[level] + 1];
      i := i + 1;
    }
    assert ts[..i] == ts;
  }

  /** The levels partition the threads: threads_by_hierarchy sums to the
      number of threads and total_ops_by_hierarchy to the total. */
  lemma LevelsPartition(totals: seq<nat>)
    ensures Metrics.TotalBelow(LevelTags(totals), 5) == Metrics.Sum(totals)
    ensures Metrics.SizeBelow(LevelTags(totals), 5) == |totals|
  {
    var ts := LevelTags(totals);
    Metrics.GroupsPartition(ts, 5);
    assert Metrics.Counts(ts) == totals;
  }

  lemma {:induction false} LevelSizesPrefix(totals: seq<nat>, k: nat, l: nat)
    requires k <= |totals| && l < 5
    ensures |Metrics.Members(LevelTags(totals)[..k], l)| == (k + 4 - l) / 5
  {
    var ts := LevelTags(totals);
    if k == 0 {
      assert ts[..0] == [];
    } else {
      LevelSizesPrefix(totals, k - 1, l);
      Metrics.MembersStep(ts, k - 1, l);
      Arith.CyclicCount(k, l);
    }
  }

  /** With cyclic assignment level l gets ceil((n - l) / 5) of n threads:
      with 16 threads CRITICAL gets 4 and every other level 3. */
  lemma LevelSizes(totals: seq<nat>, l: nat)
    requires l < 5
    ensures |Metrics.Members(LevelTags(totals), l)| == (|totals| + 4 - l) / 5
    ensures |totals| >= 5 ==> |Metrics.Members(LevelTags(totals), l)| > 0
  {
    LevelSizesPrefix(totals, |totals|, l);
    assert LevelTags(totals)[..|totals|] == LevelTags(totals);
  }

  // ---------------------------------------------------------------------
  // print_hierarchy_stats: the per-level rows

  datatype Assessment = Good | Fair | Poor

  /** The verdict the report prints for a level's average ops/sec: the
      upper levels are expected to dominate, the lower ones to starve. */
  function Assess(l: Level, avg: real): Assessment {
    match l
    case Critical => if avg > 50.0 then Good else Poor
    case High => if avg > 30.0 then Good else Poor
    case Normal => if avg > 15.0 then Good else Fair
    case Low => if avg < 20.0 then Good else Poor
    case Background => if avg < 10.0 then Good else Poor
  }

  function AssessmentScore(a: Assessment): nat {
    match a
    case Good => 2
    case Fair => 1
    case Poor => 0
  }

  /** For CRITICAL, HIGH and NORMAL more throughput never gives a worse
      verdict; for LOW and BACKGROUND it never gives a better one. */
  lemma AssessMonotone(l: Level, a: real, b: real)
    requires a <= b
    ensures Rank(l) <= 2 ==> AssessmentScore(Assess(l, a)) <= AssessmentScore(Assess(l, b))
    ensures Rank(l) >= 3 ==> AssessmentScore(Assess(l, a)) >= AssessmentScore(Assess(l, b))
  {
  }

  /** A populated level's row: average ops/sec per thread, the thread count,
      the Jain index over the level's threads (None where the driver divides
      0 by 0), the squared coefficient of variation and the verdict. */
  datatype LevelRow = LevelRow(avgOps: real, threads: nat, fairness: Option<real>, covSquared: real,
                               assessment: Assessment)

  /** The level's Jain index as the driver computes it: 1.0 for a lone
      thread, None where several idle threads make it 0 / 0. */
  function LevelFairness(members: seq<nat>): (f: Option<real>)
    requires |members| > 0
    ensures |members| == 1 ==> f == Some(1.0)
    ensures f.None? <==> |members| > 1 && Metrics.Sum(members) == 0
    ensures f.Some? ==> 1.0 / |members| as real <= f.value <= 1.0
  {
    Metrics.SumSqAtMostSquare(members);
    if |members| > 1 then
      if Metrics.Sum(members) > 0 then
        Metrics.JainBounds(members);
        Metrics.OverallJain(members)
      else Metrics.OverallJain(members)
    else Some(1.0)
  }

  /** The level's CoV^2: 0 for a lone thread or an idle level. */
  function LevelCov(members: seq<nat>): real
    requires |members| > 0
  {
    if |members| > 1 && Metrics.Sum(members) > 0 then Metrics.CovSquared(members) else 0.0
  }

  /** Index and variation of every level satisfy Jain = 1 / (1 + CoV^2). */
  lemma LevelIndexCov(members: seq<nat>)
    requires |members| > 0
    ensures LevelFairness(members).Some? ==> LevelFairness(members).value * (1.0 + LevelCov(members)) == 1.0
  {
    if |members| > 1 && Metrics.Sum(members) > 0 {
      Metrics.JainFromCov(members);
    }
  }

  /** Average operations per second per thread: the average times the
      thread-seconds gives back the total. */
  function LevelAverage(total: nat, n: nat, duration: nat): (avg: real)
    requires n > 0 && duration > 0
    ensures avg * (n * duration) as real == total as real
  {
    assert n * duration >= 1;
    Arith.DivTimes(total as real, (n * duration) as real);
    total as real / (n * duration) as real
  }

  function LevelRowFor(l: Level, members: seq<nat>, duration: nat): LevelRow
    requires |members| > 0 && duration > 0
  {
    var avg := LevelAverage(Metrics.Sum(members), |members|, duration);
    LevelRow(avg, |members|, LevelFairness(members), LevelCov(members), Assess(l, avg))
  }

  /** A level's row: a lone thread is perfectly fair with no variation,
      and in every row the average is the level's total over its
      thread-seconds and the verdict is the one for that average. */
  lemma LevelRowFacts(l: Level, members: seq<nat>, duration: nat)
    requires |members| > 0 && duration > 0
    ensures LevelRowFor(l, members, duration).threads == |members|
    ensures LevelRowFor(l, members, duration).avgOps == LevelAverage(Metrics.Sum(members), |members|, duration)
    ensures |members| == 1 ==>
      LevelRowFor(l, members, duration).fairness == Some(1.0) && LevelRowFor(l, members, duration).covSquared == 0.0
    ensures LevelRowFor(l, members, duration).assessment == Assess(l, LevelRowFor(l, members, duration).avgOps)
  {
  }

  /** The rows of the level table; an empty level prints no row. */
  function LevelRows(totals: seq<nat>, duration: nat): (rows: seq<Option<LevelRow>>)
    requires duration > 0
    ensures |rows| == 5
  {
    var ts := LevelTags(totals);
    seq(5, l requires 0 <= l < 5 =>
      var members := Metrics.Members(ts, l);
      if |members| > 0 then Some(LevelRowFor(LevelOfRank(l), members, duration)) else None)
  }

  // ---------------------------------------------------------------------
  // print_hierarchy_stats: the overall figures and verdicts

  datatype Grade = Excellent | MostlyFair | SomeUnfairness | SignificantUnfairness | HighlyUnfair

  /** The cascade on the overall Jain index. A NaN index (no operations at
      all) fails every comparison and lands in the last branch. */
  function GradeOf(index: Option<real>): Grade {
    match index
    case None => HighlyUnfair
    case Some(j) =>
      if j >= 0.95 then Excellent
      else if j >= 0.80 then MostlyFair
      else if j >= 0.60 then SomeUnfairness
      else if j >= 0.40 then SignificantUnfairness
      else HighlyUnfair
  }

  function Severity(g: Grade): nat {
    match g
    case Excellent => 0
    case MostlyFair => 1
    case SomeUnfairness => 2
    case SignificantUnfairness => 3
    case HighlyUnfair => 4
  }

  /** A higher index never gets a worse label. */
  lemma GradeMonotone(a: real, b: real)
    requires a <= b
    ensures Severity(GradeOf(Some(b))) <= Severity(GradeOf(Some(a)))
  {
  }

  /** An evenly split, non-idle run is graded EXCELLENT; a run with no
      operations at all is graded VERY POOR. */
  lemma GradeExtremes(xs: seq<nat>)
    requires |xs| > 0
    ensures Metrics.Sum(xs) > 0 && Metrics.AllEqual(xs) ==> GradeOf(Metrics.OverallJain(xs)) == Excellent
    ensures Metrics.Sum(xs) == 0 ==> GradeOf(Metrics.OverallJain(xs)) == HighlyUnfair
  {
    Metrics.SumSqAtMostSquare(xs);
    if Metrics.Sum(xs) > 0 {
      Metrics.JainBounds(xs);
    }
  }

  datatype HierarchyVerdict = Working | SomeEffect | NotWorking

  /** The printed ratio and the verdict on CRITICAL against BACKGROUND. */
  datatype Comparison = Comparison(ratio: real, verdict: HierarchyVerdict)

  function Average(ops: nat, threads: nat): real
    requires threads > 0
  {
    ops as real / threads as real
  }

  /** Reported only when both levels have threads; the ratio falls back to
      the critical average when the background average is 0. */
  function CriticalVsBackground(criticalOps: nat, criticalThreads: nat,
                                backgroundOps: nat, backgroundThreads: nat): (c: Option<Comparison>)
    ensures c.Some? <==> criticalThreads > 0 && backgroundThreads > 0
  {
    if criticalThreads > 0 && backgroundThreads > 0 then
      var ca := Average(criticalOps, criticalThreads);
      var ba := Average(backgroundOps, backgroundThreads);
      var ratio := if ba > 0.0 then ca / ba else ca;
      var verdict := if ca > ba * 2.0 then Working else if ca > ba then SomeEffect else NotWorking;
      Some(Comparison(ratio, verdict))
    else None
  }

  /** The verdict agrees with the printed ratio: GOOD exactly when the
      ratio exceeds 2, FAIR when it lies in (1, 2], POOR when it is at most
      1; with an idle background the ratio is the critical average and the
      verdict is GOOD exactly when critical threads did any work. */
  lemma VerdictMatchesRatio(criticalOps: nat, criticalThreads: nat, backgroundOps: nat, backgroundThreads: nat)
    requires criticalThreads > 0 && backgroundThreads > 0
    ensures var c := CriticalVsBackground(criticalOps, criticalThreads, backgroundOps, backgroundThreads).value;
      && (backgroundOps > 0 ==>
           && (c.verdict == Working <==> c.ratio > 2.0)
           && (c.verdict == SomeEffect <==> 1.0 < c.ratio <= 2.0)
           && (c.verdict == NotWorking <==> c.ratio <= 1.0))
      && (backgroundOps == 0 ==>
           && c.ratio == Average(criticalOps, criticalThreads)
           && (c.verdict == Working <==> criticalOps > 0)
           && c.verdict != SomeEffect)
  {
    var ca := Average(criticalOps, criticalThreads);
    var ba := Average(backgroundOps, backgroundThreads);
    if backgroundOps > 0 {
      assert ba > 0.0;
      Arith.RatioAbove(ca, ba, 2.0);
      Arith.RatioAbove(ca, ba, 1.0);
    } else {
      assert ba == 0.0;
    }
  }

  /** The overall figures: total, smallest and largest count, the average,
      Jain, CoV^2, Gini (None where the driver divides 0 by 0), the spread
      (0 when the average is 0) and the grade. */
  datatype OverallFigures = OverallFigures(totalOps: nat, minOps: nat, maxOps: nat, avgOps: real,
                                           jain: Option<real>, covSquared: real, gini: Option<real>,
                                           spread: real, grade: Grade)

  function SpreadOrZero(mn: nat, mx: nat, total: nat, n: nat): real
    requires n > 0
  {
    match Metrics.Spread(mn, mx, total, n)
    case None => 0.0
    case Some(v) => v
  }

  datatype HierarchyReport = HierarchyReport(levels: seq<Option<LevelRow>>, overall: OverallFigures,
                                             switches: nat, comparison: Option<Comparison>)

  method HierarchyStats(totals: seq<nat>, duration: nat, switches: nat) returns (r: HierarchyReport)
    requires |totals| >= 1 && duration > 0
    ensures r.levels == LevelRows(totals, duration)
    ensures r.overall.totalOps == Metrics.Sum(totals)
    ensures forall i :: 0 <= i < |totals| ==> r.overall.minOps <= totals[i] <= r.overall.maxOps
    ensures exists i :: 0 <= i < |totals| && totals[i] == r.overall.minOps
    ensures exists i :: 0 <= i < |totals| && totals[i] == r.overall.maxOps
    ensures r.overall.avgOps == Metrics.Sum(totals) as real / |totals| as real
    ensures r.overall.minOps as real <= r.overall.avgOps <= r.overall.maxOps as real
    ensures r.overall.jain == Metrics.OverallJain(totals)
    ensures r.overall.covSquared == if Metrics.Sum(totals) > 0 then Metrics.CovSquared(totals) else 0.0
    ensures r.overall.gini == Metrics.OverallGini(totals)
    ensures r.overall.spread == SpreadOrZero(r.overall.minOps, r.overall.maxOps, Metrics.Sum(totals), |totals|)
    ensures r.overall.grade == GradeOf(Metrics.OverallJain(totals))
    ensures r.switches == switches
    ensures var ts := LevelTags(totals);
      r.comparison == CriticalVsBackground(Metrics.Sum(Metrics.Members(ts, 0)), |Metrics.Members(ts, 0)|,
                                           Metrics.Sum(Metrics.Members(ts, 4)), |Metrics.Members(ts, 4)|)
  {
    var ops, threads := AggregateByLevel(totals);
    var mn, mx, total := Metrics.ScanTotals(totals);
    Metrics.MinAvgMax(totals, mn, mx);
    var avg := total as real / |totals| as real;
    var jain := Metrics.OverallJain(totals);
    var cov := if total > 0 then Metrics.CovSquared(totals) else 0.0;
    var overall := OverallFigures(total, mn, mx, avg, jain, cov, Metrics.OverallGini(totals),
                                  SpreadOrZero(mn, mx, total, |totals|), GradeOf(jain));
    r := HierarchyReport(LevelRows(totals, duration), overall, switches,
                         CriticalVsBackground(ops[0], threads[0], ops[4], threads[4]));
  }

  // ---------------------------------------------------------------------
  // main

  /** The lock type argument: argv[6] when present, MUTEX otherwise. */
  function LockTypeArg(cl: CommandLine): int {
    if cl.argc > 6 then cl.selectorArg else 0
  }

  /** How main ends: the exit status, the lock it initialised and the
      levels it gave the threads. */
  datatype MutexOutcome = MutexOutcome(exitCode: int, lock: Option<LockKind>, levels: seq<Level>, ranWorkers: bool)

  /** main's control flow with the outcome of each external step as an
      input: argument validation, then init_lock, then the store
      environment and database, then the threads at levels i % 5. */
  function MutexMain(cl: CommandLine, spinInitOk: bool, attrInitOk: bool, mutexInitOk: bool,
                     envOk: bool, dbOk: bool): (o: MutexOutcome)
    ensures o.exitCode == 0 || o.exitCode == 1
    ensures o.exitCode == 0 <==>
      Validate(cl).None? && InitLock(LockTypeArg(cl), spinInitOk, attrInitOk, mutexInitOk) == 0 && envOk && dbOk
    ensures o.exitCode == 0 <==> o.ranWorkers
    ensures Validate(cl).None? && LockKindOf(LockTypeArg(cl)).None? ==> o.exitCode == 1 && o.lock.None?
    ensures o.ranWorkers ==> o.lock == LockKindOf(LockTypeArg(cl)) && o.lock.Some?
    ensures o.ranWorkers ==> |o.levels| == cl.numThreads && forall i :: 0 <= i < |o.levels| ==> o.levels[i] == LevelOf(i)
  {
    if Validate(cl).Some? then MutexOutcome(1, None, [], false)
    else
      var t := LockTypeArg(cl);
      if InitLock(t, spinInitOk, attrInitOk, mutexInitOk) != 0 then MutexOutcome(1, None, [], false)
      else if !envOk || !dbOk then MutexOutcome(1, LockKindOf(t), [], false)
      else MutexOutcome(0, LockKindOf(t), seq(cl.numThreads, i requires 0 <= i < cl.numThreads => LevelOf(i)), true)
  }
}
