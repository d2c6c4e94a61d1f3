/** The hands-on CPR timer of the action-guide drawer: a cyclic countdown over
    two phases (compressions, then rescue breaths), a cycle counter and a
    running flag. The once-a-second interval is the method `IntervalTick`. */
module CprTimer {

  /** The durations of CPR_PHASES, in seconds: 30 compressions, 2 breaths. */
  const PhaseDurations: seq<nat> := [20, 6]
  /** Seconds in one full cycle of both phases. */
  const CycleLength: nat := PhaseDurations[0] + PhaseDurations[1]

  /** The `state` cell: the current phase and the seconds left in it. */
  datatype TimerState = TimerState(phaseIndex: int, remaining: int)

  const Initial := TimerState(0, PhaseDurations[0])

  /** Every state the component can be in: a real phase, and between one
      second and that phase's full duration left. */
  predicate Valid(s: TimerState) {
    0 <= s.phaseIndex < |PhaseDurations| && 1 <= s.remaining <= PhaseDurations[s.phaseIndex]
  }

  /** The new state, and whether the phase wrapped back to the first one (the
      updater then calls setCycleCount). */
  datatype TickResult = TickResult(next: TimerState, wrapped: bool)

  /** The updater passed to setState each second. */
  function Tick(prev: TimerState): (t: TickResult)
    requires 0 <= prev.phaseIndex
    // the countdown keeps the component's invariant
    ensures Valid(prev) ==> Valid(t.next)
    // counting down inside a phase
    ensures prev.remaining > 1 ==> t.next == prev.(remaining := prev.remaining - 1)
    // moving to the next phase, cyclically, with its full duration
    ensures prev.remaining <= 1 ==>
              t.next.phaseIndex == (prev.phaseIndex + 1) % |PhaseDurations| &&
              t.next.remaining == PhaseDurations[t.next.phaseIndex]
    // a cycle is counted exactly when the phase wraps to the first one
    ensures t.wrapped <==> prev.remaining <= 1 && t.next.phaseIndex == 0
  {
    if prev.remaining > 1 then TickResult(prev.(remaining := prev.remaining - 1), false)
    else
      var nextPhaseIndex := (prev.phaseIndex + 1) % |PhaseDurations|;
      TickResult(TimerState(nextPhaseIndex, PhaseDurations[nextPhaseIndex]), nextPhaseIndex == 0)
  }

  /** Seconds elapsed since the start of the current cycle. */
  function CyclePosition(s: TimerState): (p: nat)
    requires Valid(s)
    ensures p < CycleLength
  {
    if s.phaseIndex == 0 then PhaseDurations[0] - s.remaining else PhaseDurations[0] + PhaseDurations[1] - s.remaining
  }

  /** A valid state is determined by its position in the cycle. */
  lemma PositionDeterminesState(a: TimerState, b: TimerState)
    requires Valid(a) && Valid(b) && CyclePosition(a) == CyclePosition(b)
    ensures a == b
  {
  }

  /** A tick advances the position by one second, modulo the cycle, and wraps
      exactly when it leaves the last second of the cycle. */
  lemma TickAdvances(s: TimerState)
    requires Valid(s)
    ensures CyclePosition(Tick(s).next) == (CyclePosition(s) + 1) % CycleLength
    ensures Tick(s).wrapped <==> CyclePosition(s) == CycleLength - 1
  {
  }

  /** n ticks in a row: the final state and how many cycles were completed. */
  datatype Run = Run(state: TimerState, cycles: nat)

  function Ticks(s: TimerState, n: nat): (r: Run)
    requires Valid(s)
    ensures Valid(r.state)
    decreases n
  {
    if n == 0 then Run(s, 0)
    else
      var t := Tick(s);
      var rest := Ticks(t.next, n - 1);
      Run(rest.state, rest.cycles + (if t.wrapped then 1 else 0))
  }

  lemma {:induction false} TicksAdvance(s: TimerState, n: nat)
    requires Valid(s)
    ensures CyclePosition(Ticks(s, n).state) == (CyclePosition(s) + n) % CycleLength
    ensures Ticks(s, n).cycles == (CyclePosition(s) + n) / CycleLength
    decreases n
  {
    if n > 0 {
      var t := Tick(s);
      TickAdvances(s);
      TicksAdvance(t.next, n - 1);
      var p := CyclePosition(s);
      if p < CycleLength - 1 {
        assert CyclePosition(t.next) == p + 1;
      } else {
        assert CyclePosition(t.next) == 0;
        assert (n - 1) / CycleLength + 1 == (n - 1 + CycleLength) / CycleLength;
      }
    }
  }

  /** Whole periods leave the position in the cycle unchanged. */
  lemma {:induction false} WholePeriods(p: nat, k: nat)
    requires p < CycleLength
    ensures (p + k * CycleLength) % CycleLength == p
    ensures (p + k * CycleLength) / CycleLength == k
  {
    if k > 0 {
      WholePeriods(p, k - 1);
      assert p + k * CycleLength == (p + (k - 1) * CycleLength) + CycleLength;
    }
  }

  /** The timer is periodic with period 26 seconds: from any state, k full
      periods of ticks come back to the same state and complete exactly k
      cycles. */
  lemma FullCycles(s: TimerState, k: nat)
    requires Valid(s)
    ensures Ticks(s, k * CycleLength) == Run(s, k)
  {
    var n := k * CycleLength;
    var p := CyclePosition(s);
    var r := Ticks(s, n);
    TicksAdvance(s, n);
    WholePeriods(p, k);
    assert CyclePosition(r.state) == p && r.cycles == k;
    PositionDeterminesState(r.state, s);
  }

  /** The share of the current phase already done, in percent. */
  function ProgressValue(s: TimerState): (p: real)
    requires 0 <= s.phaseIndex < |PhaseDurations|
    ensures Valid(s) ==> 0.0 <= p < 100.0
    ensures s.remaining == PhaseDurations[s.phaseIndex] ==> p == 0.0
  {
    var phaseDuration := PhaseDurations[s.phaseIndex];
    ((phaseDuration - s.remaining) as real / phaseDuration as real) * 100.0
  }

  /** The three state cells of the CprTimer component. */
  class CprTimerComponent {
    var state: TimerState
    var cycleCount: int
    var running: bool

    ghost predicate Invariant()
      reads this
    {
      Valid(state) && cycleCount >= 1
    }

    constructor ()
      ensures Invariant()
      ensures state == Initial && cycleCount == 1 && !running
    {
      state := Initial;
      cycleCount := 1;
      running := false;
    }

    /** One firing of the interval, which exists only while running. */
    method IntervalTick()
      requires Invariant()
      modifies this
      ensures Invariant()
      ensures running == old(running)
      ensures !old(running) ==> state == old(state) && cycleCount == old(cycleCount)
      ensures old(running) ==>
                var t := Tick(old(state));
                state == t.next && cycleCount == old(cycleCount) + (if t.wrapped then 1 else 0)
    {
      if !running {
        return;
      }
      var t := Tick(state);
      if t.wrapped {
        cycleCount := cycleCount + 1;
      }
      state := t.next;
    }

    /** setRunning. */
    method SetRunning(r: bool)
      requires Invariant()
      modifies this
      ensures Invariant()
      ensures running == r && state == old(state) && cycleCount == old(cycleCount)
    {
      running := r;
    }

    /** handleReset. */
    method HandleReset()
      requires Invariant()
      modifies this
      ensures Invariant()
      ensures !running && cycleCount == 1 && state == Initial
    {
      running := false;
      cycleCount := 1;
      state := Initial;
    }
  }
}
