/**
 * The schedules of BaseTrainer.fit: which SWA slot a cycle writes, on which
 * cycles a progress report is printed and on which cycles the weights are
 * perturbed, together with the defaults compile_trainer fills in.
 */
module Schedule {
  import opened Outcomes

  function Min(a: int, b: int): int { if a <= b then a else b }

  function Max(a: int, b: int): int { if a <= b then b else a }

  /** How many times `for e in range(cycles)` runs its body. */
  function Iterations(cycles: int): (n: nat)
    ensures cycles >= 0 ==> n == cycles
    ensures cycles < 0 ==> n == 0
  {
    if cycles < 0 then 0 else cycles
  }

  /** The set of integers in [lo, hi). */
  function Interval(lo: int, hi: int): set<int>
    decreases hi - lo
  {
    if hi <= lo then {} else Interval(lo, hi - 1) + {hi - 1}
  }

  lemma {:induction false} IntervalMembers(lo: int, hi: int)
    ensures forall i :: i in Interval(lo, hi) <==> lo <= i < hi
    decreases hi - lo
  {
    if lo < hi {
      IntervalMembers(lo, hi - 1);
    }
  }

  lemma {:induction false} IntervalSize(lo: int, hi: int)
    ensures |Interval(lo, hi)| == Max(hi - lo, 0)
    decreases hi - lo
  {
    if lo < hi {
      IntervalMembers(lo, hi - 1);
      IntervalSize(lo, hi - 1);
    }
  }

  // ---------------------------------------------------------------------------
  // Stochastic weight averaging: save_running_weights

  /** Length of the trailing window of cycles whose weights are kept. */
  function SwaWindow(fullEpoch: bool): nat {
    if fullEpoch then 5 else 30
  }

  /** The guard of save_running_weights: cycle e lies in the trailing window. */
  predicate InSwaWindow(cycles: int, e: int, window: int) {
    cycles - e <= window
  }

  /** The slot cycle e writes; it is a valid slot exactly for the last `window` cycles of the run. */
  function SwaSlot(cycles: int, e: int, window: int): (slot: int)
    ensures InSwaWindow(cycles, e, window) <==> slot >= 0
    ensures 0 <= slot < window <==> cycles - window <= e < cycles
  {
    window - (cycles - e)
  }

  /** The slot cycle e writes, if any. */
  function SlotOf(cycles: int, e: int, window: int): set<int> {
    if InSwaWindow(cycles, e, window) then {SwaSlot(cycles, e, window)} else {}
  }

  /** The slots save_running_weights writes during cycles 0 .. k-1 of a run of `cycles` cycles. */
  function SlotsWritten(cycles: int, window: int, k: nat): set<int> {
    if k == 0 then {}
    else SlotsWritten(cycles, window, k - 1) + SlotOf(cycles, k - 1, window)
  }

  lemma {:induction false} SlotsWrittenInterval(cycles: int, window: int, k: nat)
    ensures SlotsWritten(cycles, window, k) == Interval(Max(window - cycles, 0), window - cycles + k)
  {
    if k > 0 {
      SlotsWrittenInterval(cycles, window, k - 1);
      var lo, hi := Max(window - cycles, 0), window - cycles + k;
      IntervalMembers(lo, hi);
      IntervalMembers(lo, hi - 1);
      if InSwaWindow(cycles, k - 1, window) {
        assert Interval(lo, hi) == Interval(lo, hi - 1) + {hi - 1};
      } else {
        assert Interval(lo, hi) == {} == Interval(lo, hi - 1);
      }
    }
  }

  /** After a run of `cycles` cycles the pool holds exactly the last min(cycles, window) slots. */
  lemma SnapshotsAfterRun(cycles: nat, window: nat)
    ensures SlotsWritten(cycles, window, cycles) == Interval(window - Min(cycles, window), window)
    ensures |SlotsWritten(cycles, window, cycles)| == Min(cycles, window)
  {
    SlotsWrittenInterval(cycles, window, cycles);
    assert Max(window - cycles, 0) == window - Min(cycles, window);
    IntervalSize(window - Min(cycles, window), window);
  }

  /** Every slot written lies in [0, window). */
  lemma SlotsWrittenInRange(cycles: int, window: int, k: nat)
    requires k <= Iterations(cycles)
    ensures forall i :: i in SlotsWritten(cycles, window, k) ==> 0 <= i < window
  {
    SlotsWrittenInterval(cycles, window, k);
    IntervalMembers(Max(window - cycles, 0), window - cycles + k);
  }

  /** The pool that averaging consumes is empty only when the run has no cycles. */
  lemma NoSnapshotsIffNoCycles(cycles: int, window: nat)
    requires window > 0
    ensures SlotsWritten(cycles, window, Iterations(cycles)) == {} <==> cycles <= 0
  {
    SlotsWrittenInterval(cycles, window, Iterations(cycles));
    IntervalMembers(Max(window - cycles, 0), window - cycles + Iterations(cycles));
    if cycles > 0 {
      assert window - 1 in Interval(Max(window - cycles, 0), window);
    }
  }

  // ---------------------------------------------------------------------------
  // Division facts for the counting lemmas

  lemma {:induction false} MulAtLeast(a: int, p: int)
    requires a >= 1 && p > 0
    ensures a * p >= p
    decreases a
  {
    if a > 1 {
      MulAtLeast(a - 1, p);
      assert a * p == (a - 1) * p + p;
    }
  }

  lemma DivUnique(n: int, p: int, q: int, r: int)
    requires p > 0 && n == q * p + r && 0 <= r < p
    ensures n / p == q && n % p == r
  {
    var q', r' := n / p, n % p;
    assert n == q' * p + r' && 0 <= r' < p;
    if q > q' {
      assert q * p == (q - q') * p + q' * p;
      MulAtLeast(q - q', p);
    } else if q < q' {
      assert q' * p == (q' - q) * p + q * p;
      MulAtLeast(q' - q, p);
    }
  }

  lemma DivStep(k: int, p: int)
    requires k >= 1 && p >= 1
    ensures k / p == (k - 1) / p + (if k % p == 0 then 1 else 0)
  {
    var q, r := (k - 1) / p, (k - 1) % p;
    assert k - 1 == q * p + r && 0 <= r < p;
    if r + 1 < p {
      DivUnique(k, p, q, r + 1);
    } else {
      assert k == (q + 1) * p + 0;
      DivUnique(k, p, q + 1, 0);
    }
  }

  // ---------------------------------------------------------------------------
  // Progress reports: `if e == 0 or (e+1) % self.print_loss == 0`

  /**
   * Whether cycle e is reported with period print_loss. The `e == 0` test
   * short-circuits, so a zero period divides by zero only from cycle 1 on.
   * Python's `%` and Dafny's differ for a negative period, but the remainder
   * is zero for the same operands.
   */
  function ReportDue(e: nat, period: int): (r: Result<bool>)
    ensures r.Failure? <==> e > 0 && period == 0
    ensures r.Failure? ==> r.error == ZeroDivisionError
    ensures e == 0 || period == 1 || period == -1 ==> r == Success(true)
  {
    if e == 0 then Success(true)
    else if period == 0 then Failure(ZeroDivisionError)
    else Success((e + 1) % period == 0)
  }

  /** Cycle e, if it prints a report. */
  function ReportAt(e: nat, period: int): seq<nat>
    requires e == 0 || period != 0
  {
    if ReportDue(e, period).value then [e] else []
  }

  /** The cycles among 0 .. k-1 that print a report, in order. */
  function ReportCycles(k: nat, period: int): seq<nat>
    requires k <= 1 || period != 0
  {
    if k == 0 then []
    else ReportCycles(k - 1, period) + ReportAt(k - 1, period)
  }

  lemma {:induction false} ReportCyclesMembers(k: nat, period: int)
    requires period != 0
    ensures forall e :: e in ReportCycles(k, period) <==> 0 <= e < k && (e == 0 || (e + 1) % period == 0)
    ensures forall i, j :: 0 <= i < j < |ReportCycles(k, period)| ==> ReportCycles(k, period)[i] < ReportCycles(k, period)[j]
  {
    if k > 0 {
      ReportCyclesMembers(k - 1, period);
      var prev := ReportCycles(k - 1, period);
      assert ReportDue(k - 1, period).value <==> k - 1 == 0 || k % period == 0;
      forall i | 0 <= i < |prev|
        ensures prev[i] < k - 1
      {
        assert prev[i] in prev;
      }
    }
  }

  /** Cycle 0 is always reported, then every cycle e with e+1 a multiple of the period. */
  lemma {:induction false} ReportCount(k: nat, period: int)
    requires period >= 1
    ensures |ReportCycles(k, period)| == if k == 0 then 0 else if period == 1 then k else 1 + k / period
  {
    if k > 0 {
      ReportCount(k - 1, period);
      if k >= 2 {
        DivStep(k, period);
      }
    }
  }

  /** print_loss as compile_trainer and ImSpecTrainer.__init__ set it: only an absent value is defaulted. */
  function DefaultPrintLoss(fullEpoch: bool, given: Option<int>): (p: int)
    ensures given.Some? ==> p == given.value
    ensures given.None? ==> p >= 1
  {
    match given
    case Some(v) => v
    case None => if fullEpoch then 1 else 100
  }

  /** With the default period, full-epoch training reports every cycle, fixed-cycle training every 100th. */
  lemma DefaultReportCount(fullEpoch: bool, k: nat)
    ensures |ReportCycles(k, DefaultPrintLoss(fullEpoch, None))|
            == if k == 0 then 0 else if fullEpoch then k else 1 + k / 100
  {
    ReportCount(k, DefaultPrintLoss(fullEpoch, None));
  }

  // ---------------------------------------------------------------------------
  // Weight perturbation: `(e + 1) % e_p == 0`

  /** Whether cycle e perturbs the weights with period e_p; a zero period divides by zero. */
  function PerturbDue(e: nat, period: int): (r: Result<bool>)
    ensures r.Failure? <==> period == 0
    ensures r.Failure? ==> r.error == ZeroDivisionError
    ensures period == 1 || period == -1 ==> r == Success(true)
  {
    if period == 0 then Failure(ZeroDivisionError) else Success((e + 1) % period == 0)
  }

  /** The e_p compile_trainer puts in the default perturbation dictionary. */
  function DefaultPerturbPeriod(fullEpoch: bool): (p: int)
    ensures p >= 1
  {
    if fullEpoch then 1 else 50
  }

  /** The cycles among 0 .. k-1 that perturb the weights, in order. */
  function PerturbCycles(k: nat, period: int): seq<nat>
    requires period != 0
  {
    if k == 0 then []
    else PerturbCycles(k - 1, period) + (if PerturbDue(k - 1, period).value then [k - 1] else [])
  }

  lemma {:induction false} PerturbCyclesMembers(k: nat, period: int)
    requires period != 0
    ensures forall e :: e in PerturbCycles(k, period) <==> 0 <= e < k && (e + 1) % period == 0
  {
    if k > 0 {
      PerturbCyclesMembers(k - 1, period);
      assert PerturbDue(k - 1, period).value <==> k % period == 0;
    }
  }

  /** Over k cycles the weights are perturbed k / e_p times. */
  lemma {:induction false} PerturbCount(k: nat, period: int)
    requires period >= 1
    ensures |PerturbCycles(k, period)| == k / period
  {
    if k > 0 {
      PerturbCount(k - 1, period);
      DivStep(k, period);
    }
  }
}
