/** The supervising service (IonService): a worker that repeats the engine
    cycle, keeps a health flag, and gives up after too many consecutive
    faults. The worker thread is reduced to a "worker exists" flag, and one
    run of its loop to a method over a finite script of ticks: at each tick
    the environment says whether a stop was requested when the loop
    condition was checked, and whether that tick's engine cycle threw. */
module Service {
  import Engine

  /** Milliseconds given to each engine cycle. */
  const EVENT_WINDOW: int := 55
  /** Milliseconds slept between iterations. */
  const CHILL_WINDOW: int := 8
  /** Faults tolerated before the loop gives up. */
  const MAX_CONSECUTIVE_FAILS: nat := 5

  /** What the environment decides for one pass of the loop. */
  datatype Tick = Tick(stopRequested: bool, cycleFaults: bool)

  /** Why a run of the loop ended: the stop request was seen, the fault
      budget was exceeded, or the script of ticks ran out. */
  datatype Exit = StopObserved | Aborted | ScriptEnded

  /** Where a run of the loop ends. */
  datatype LoopEnd = LoopEnd(exit: Exit, failCount: nat, healthy: bool, cycles: nat)

  /** The leaky bucket: a fault adds one, a clean cycle removes one unless
      the bucket is already empty. */
  function Leak(failCount: nat, faulted: bool): nat
  {
    if faulted then failCount + 1
    else if failCount > 0 then failCount - 1
    else 0
  }

  /** The loop from a given point: each iteration first checks the stop
      request, then sets `healthy`, runs one cycle and updates the counter,
      breaking out right after the fault that takes it past the limit. */
  function RunFrom(ticks: seq<Tick>, failCount: nat, healthy: bool, cycles: nat): LoopEnd
    decreases |ticks|
  {
    if ticks == [] then LoopEnd(ScriptEnded, failCount, healthy, cycles)
    else if ticks[0].stopRequested then LoopEnd(StopObserved, failCount, healthy, cycles)
    else if ticks[0].cycleFaults && failCount + 1 > MAX_CONSECUTIVE_FAILS
    then LoopEnd(Aborted, failCount + 1, true, cycles + 1)
    else RunFrom(ticks[1..], Leak(failCount, ticks[0].cycleFaults), true, cycles + 1)
  }

  /** A run of the loop as the worker starts it: no faults counted yet. */
  function Run(ticks: seq<Tick>, healthy: bool): LoopEnd
  {
    RunFrom(ticks, 0, healthy, 0)
  }

  /** The stop request `loop` sees at one check of its condition, given
      whether start()'s token and the jthread's own token (the one `stop()`
      requests) have been requested. As written, the lambda hands `loop`
      start()'s token, so only that one is seen. */
  function SeenAsWritten(superRequested: bool, ownRequested: bool): bool
  {
    superRequested
  }

  /** The stop request `loop` sees once the jthread's own token reaches it
      as well, which is what `stop()` relies on to join the worker. */
  function SeenCorrected(superRequested: bool, ownRequested: bool): bool
  {
    superRequested || ownRequested
  }

  /** The number of ticks whose cycle faults. */
  function Faults(ticks: seq<Tick>): nat
  {
    if ticks == [] then 0 else (if ticks[0].cycleFaults then 1 else 0) + Faults(ticks[1..])
  }

  // ------------------------------------------------------------- lemmas

  /** The counter stays within the budget plus the one fault that ends the loop. */
  lemma {:induction false} FailCountBound(ticks: seq<Tick>, failCount: nat, healthy: bool, cycles: nat)
    requires failCount <= MAX_CONSECUTIVE_FAILS
    ensures RunFrom(ticks, failCount, healthy, cycles).failCount <= MAX_CONSECUTIVE_FAILS + 1
    ensures RunFrom(ticks, failCount, healthy, cycles).exit == Aborted <==>
      RunFrom(ticks, failCount, healthy, cycles).failCount == MAX_CONSECUTIVE_FAILS + 1
    decreases |ticks|
  {
    if ticks != [] && !ticks[0].stopRequested && !(ticks[0].cycleFaults && failCount + 1 > MAX_CONSECUTIVE_FAILS) {
      FailCountBound(ticks[1..], Leak(failCount, ticks[0].cycleFaults), true, cycles + 1);
    }
  }

  /** Giving up takes faults: the counter's start plus the faults of the
      script reach past the limit. From zero, at least six faulting cycles. */
  lemma {:induction false} AbortNeedsFaults(ticks: seq<Tick>, failCount: nat, healthy: bool, cycles: nat)
    requires RunFrom(ticks, failCount, healthy, cycles).exit == Aborted
    ensures failCount + Faults(ticks) > MAX_CONSECUTIVE_FAILS
    decreases |ticks|
  {
    if !(ticks[0].cycleFaults && failCount + 1 > MAX_CONSECUTIVE_FAILS) {
      AbortNeedsFaults(ticks[1..], Leak(failCount, ticks[0].cycleFaults), true, cycles + 1);
    }
  }

  /** Enough consecutive faults, with no stop request, end the loop by
      abort, right after the fault that crosses the limit. */
  lemma {:induction false} ConsecutiveFaultsAbort(ticks: seq<Tick>, failCount: nat, healthy: bool, cycles: nat)
    requires failCount <= MAX_CONSECUTIVE_FAILS
    requires |ticks| + failCount > MAX_CONSECUTIVE_FAILS
    requires forall k :: 0 <= k < |ticks| ==> ticks[k] == Tick(false, true)
    ensures RunFrom(ticks, failCount, healthy, cycles) ==
      LoopEnd(Aborted, MAX_CONSECUTIVE_FAILS + 1, true, cycles + MAX_CONSECUTIVE_FAILS + 1 - failCount)
    decreases |ticks|
  {
    assert ticks[0] == Tick(false, true);
    if failCount < MAX_CONSECUTIVE_FAILS {
      ConsecutiveFaultsAbort(ticks[1..], failCount + 1, true, cycles + 1);
    }
  }

  /** Up to the budget, consecutive faults do not end the loop: every cycle
      of the script runs and the counter holds one per fault. */
  lemma {:induction false} FaultsWithinBudget(ticks: seq<Tick>, failCount: nat, healthy: bool, cycles: nat)
    requires |ticks| > 0 || healthy
    requires |ticks| + failCount <= MAX_CONSECUTIVE_FAILS
    requires forall k :: 0 <= k < |ticks| ==> ticks[k] == Tick(false, true)
    ensures RunFrom(ticks, failCount, healthy, cycles) ==
      LoopEnd(ScriptEnded, failCount + |ticks|, true, cycles + |ticks|)
    decreases |ticks|
  {
    if ticks != [] {
      assert ticks[0] == Tick(false, true);
      FaultsWithinBudget(ticks[1..], failCount + 1, true, cycles + 1);
    }
  }

  /** From zero, six consecutive faults abort the loop and five do not. */
  lemma SixFaultsAbortFiveDoNot(healthy: bool)
    ensures Run(seq(6, k => Tick(false, true)), healthy) == LoopEnd(Aborted, 6, true, 6)
    ensures Run(seq(5, k => Tick(false, true)), healthy) == LoopEnd(ScriptEnded, 5, true, 5)
  {
    ConsecutiveFaultsAbort(seq(6, k => Tick(false, true)), 0, healthy, 0);
    FaultsWithinBudget(seq(5, k => Tick(false, true)), 0, healthy, 0);
  }

  /** The stop request is checked before any work: once it is seen at tick
      `k`, no cycle runs from then on and the loop does not outlast the script. */
  lemma {:induction false} StopBoundsCycles(ticks: seq<Tick>, failCount: nat, healthy: bool, cycles: nat, k: nat)
    requires k < |ticks| && ticks[k].stopRequested
    ensures RunFrom(ticks, failCount, healthy, cycles).cycles <= cycles + k
    ensures RunFrom(ticks, failCount, healthy, cycles).exit != ScriptEnded
    decreases |ticks|
  {
    if k > 0 && !ticks[0].stopRequested && !(ticks[0].cycleFaults && failCount + 1 > MAX_CONSECUTIVE_FAILS) {
      StopBoundsCycles(ticks[1..], Leak(failCount, ticks[0].cycleFaults), true, cycles + 1, k - 1);
    }
  }

  /** Each iteration sets `healthy` before its cycle: after a run the flag
      is set iff it was set before or at least one cycle ran. So a cleared
      flag stays cleared until the next iteration begins. */
  lemma {:induction false} HealthyIffCycled(ticks: seq<Tick>, failCount: nat, healthy: bool, cycles: nat)
    ensures RunFrom(ticks, failCount, healthy, cycles).cycles >= cycles
    ensures RunFrom(ticks, failCount, healthy, cycles).healthy <==>
      healthy || RunFrom(ticks, failCount, healthy, cycles).cycles > cycles
    decreases |ticks|
  {
    if ticks != [] && !ticks[0].stopRequested && !(ticks[0].cycleFaults && failCount + 1 > MAX_CONSECUTIVE_FAILS) {
      HealthyIffCycled(ticks[1..], Leak(failCount, ticks[0].cycleFaults), true, cycles + 1);
    }
  }

  /** Clean cycles with no stop request seen never end the loop: every
      tick runs a cycle, the counter stays at zero, and the script runs out. */
  lemma {:induction false} CleanTicksRunOn(ticks: seq<Tick>, healthy: bool, cycles: nat)
    requires forall k :: 0 <= k < |ticks| ==> ticks[k] == Tick(false, false)
    ensures RunFrom(ticks, 0, healthy, cycles) ==
      LoopEnd(ScriptEnded, 0, healthy || |ticks| > 0, cycles + |ticks|)
    decreases |ticks|
  {
    if ticks != [] {
      assert ticks[0] == Tick(false, false);
      CleanTicksRunOn(ticks[1..], true, cycles + 1);
    }
  }

  /** As written, `stop()` cannot end a worker started without a supervisor
      request: with the jthread's own token requested at every check, start()'s
      token never requested and no fault, the loop is still running after
      any number `n` of ticks, so the `join()` in `stop()` does not return. */
  lemma StopUnseenAsWritten(n: nat, healthy: bool)
    ensures Run(seq(n, k => Tick(SeenAsWritten(false, true), false)), healthy) ==
      LoopEnd(ScriptEnded, 0, healthy || n > 0, n)
  {
    CleanTicksRunOn(seq(n, k => Tick(SeenAsWritten(false, true), false)), healthy, 0);
  }

  /** Corrected, the request of `stop()` is seen at the loop's next check:
      the loop ends there with the stop observed and no further cycle. */
  lemma StopSeenCorrected(ticks: seq<Tick>, failCount: nat, healthy: bool, cycles: nat, superRequested: bool)
    requires |ticks| > 0 && ticks[0].stopRequested == SeenCorrected(superRequested, true)
    ensures RunFrom(ticks, failCount, healthy, cycles) == LoopEnd(StopObserved, failCount, healthy, cycles)
  {
  }

  // ------------------------------------------------------------ service

  class IonService {
    /** The engine the worker drives, built from the service's io reference. */
    const engine: Engine.StickyEngine
    var healthy: bool
    /** `worker.joinable()`: a worker thread has been started and not joined. */
    var worker: bool
    /** The worker's `loop` has returned: it saw a stop request or gave up. */
    ghost var loopEnded: bool

    /** A new service is healthy, not running, and owns an empty engine. */
    constructor ()
      ensures healthy && !worker
      ensures fresh(engine) && engine.Valid()
      ensures engine.connections == [] && engine.responses == [] && engine.trace == []
    {
      engine := new Engine.StickyEngine();
      healthy := true;
      worker := false;
      loopEnded := false;
    }

    function IsHealthy(): (b: bool)
      reads this`healthy
      ensures b <==> healthy
    {
      healthy
    }

    /** True while a worker exists, even after its loop has given up. */
    function IsRunning(): (b: bool)
      reads this`worker
      ensures b <==> worker
    {
      worker
    }

    /** `start()`: creates the worker, or is ignored when one exists. */
    method Start()
      modifies this`worker, this`loopEnded
      ensures worker
      ensures old(worker) ==> unchanged(this)
      ensures !old(worker) ==> !loopEnded
    {
      if worker {
        return;
      }
      worker := true;
      loopEnded := false;
    }

    /** `stop()` as written: the stop request goes to the jthread's own
        token, which `loop` does not see (`SeenAsWritten`), so `join()`
        returns only once the loop has already returned on its own. */
    method StopAsWritten()
      requires worker ==> loopEnded
      modifies this`worker
      ensures !worker
      ensures !old(worker) ==> unchanged(this)
    {
      if worker {
        worker := false;
      }
    }

    /** `stop()` as intended: the request reaches the loop (`SeenCorrected`),
        which ends at its next check, and the worker is joined; health is
        left as it is. */
    method Stop()
      modifies this`worker, this`loopEnded
      ensures !worker
      ensures old(worker) ==> loopEnded
      ensures !old(worker) ==> unchanged(this)
    {
      if worker {
        loopEnded := true;
        worker := false;
      }
    }

    method ResetHealth()
      modifies this`healthy
      ensures !healthy
    {
      healthy := false;
    }

    /** `loop(token)`, the worker's body, over a script of ticks: returns
        why it ended, the final counter and the number of cycles run. */
    method Loop(ticks: seq<Tick>) returns (exit: Exit, failCount: nat, cycles: nat)
      modifies this`healthy, this`loopEnded
      ensures LoopEnd(exit, failCount, healthy, cycles) == Run(ticks, old(healthy))
      ensures loopEnded <==> exit != ScriptEnded
    {
      failCount, cycles := 0, 0;
      exit := ScriptEnded;
      loopEnded := false;
      var i := 0;
      while i < |ticks|
        invariant 0 <= i <= |ticks|
        invariant RunFrom(ticks[i..], failCount, healthy, cycles) == Run(ticks, old(healthy))
        invariant exit == ScriptEnded && !loopEnded
      {
        if ticks[i].stopRequested {
          exit := StopObserved;
          loopEnded := true;
          return;
        }
        healthy := true;
        cycles := cycles + 1;
        if !ticks[i].cycleFaults {
          if failCount > 0 {
            failCount := failCount - 1;
          }
        } else {
          failCount := failCount + 1;
          if failCount > MAX_CONSECUTIVE_FAILS {
            exit := Aborted;
            loopEnded := true;
            return;
          }
        }
        assert ticks[i..][1..] == ticks[i + 1..];
        i := i + 1;
      }
      assert ticks[i..] == [];
    }
  }
}
