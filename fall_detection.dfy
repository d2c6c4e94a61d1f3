/** The fall detector of the accelerometer demo: a two-variable state machine
    (`isFalling` and the pending freefall timer) driven by acceleration samples
    and by the timer's expiry.

    A sample is given by its magnitude in g, `ag`, which stands for
    sqrt(x*x + y*y + z*z) / G_VALUE; the square root and the division are not
    part of the model. The timer is a flag saying whether a timeout callback is
    pending, and its expiry is the event `TimerFired`. */
module FallDetection {

  /** Below this many g the device is taken to be in freefall. */
  const FreefallThresholdG: real := 0.5
  /** Above this many g, while falling, the sample is an impact. */
  const ImpactThresholdG: real := 3.5
  /** Standard gravity in m/s^2. */
  const GValue: real := 9.80665

  /** The detector's state: `isFalling`, and whether a timeout is pending. */
  datatype DetectorState = DetectorState(isFalling: bool, timerArmed: bool)

  /** The state at page load: not falling, no timer. */
  const Idle := DetectorState(false, false)

  /** In every reachable state the timer is pending exactly while falling. */
  predicate Consistent(s: DetectorState) {
    s.isFalling == s.timerArmed
  }

  /** The branch of the if/else-if chain that a sample enters. */
  datatype Branch = Freefall | Impact | Settled | NoBranch

  /** Picks the branch in the order the source tests them. The third test
      compares the g value with 0.8 * G_VALUE .. 1.2 * G_VALUE, literally; that
      band lies above the impact threshold, which is tested first, so no sample
      ever reaches it. */
  function BranchOf(isFalling: bool, ag: real): (b: Branch)
    ensures b != Settled
    ensures b == Freefall <==> ag < FreefallThresholdG
    ensures b == Impact <==> isFalling && ag > ImpactThresholdG
  {
    if ag < FreefallThresholdG then Freefall
    else if isFalling && ag > ImpactThresholdG then Impact
    else if isFalling && ag >= 0.8 * GValue && ag <= 1.2 * GValue then Settled
    else NoBranch
  }

  /** The state after a sample, and whether a fall was reported. */
  datatype Observation = Observation(state: DetectorState, fallDetected: bool)

  /** One call of checkFallDetection. */
  function Observe(s: DetectorState, ag: real): (o: Observation)
    // a fall is reported exactly on an impact sample while falling
    ensures o.fallDetected <==> s.isFalling && ag > ImpactThresholdG
    // a reported fall disarms the timer and ends the episode
    ensures o.fallDetected ==> o.state == Idle
    // entering freefall sets isFalling and arms a timer where none was pending
    ensures ag < FreefallThresholdG && !s.isFalling && Consistent(s) ==>
              !s.timerArmed && o.state == DetectorState(true, true)
    // a further freefall sample neither re-arms nor extends the window
    ensures ag < FreefallThresholdG && s.isFalling ==> o.state == s
    // a sample between the thresholds changes nothing
    ensures FreefallThresholdG <= ag <= ImpactThresholdG ==> o == Observation(s, false)
    ensures Consistent(s) ==> Consistent(o.state)
  {
    match BranchOf(s.isFalling, ag)
    case Freefall =>
      if !s.isFalling then Observation(DetectorState(true, true), false)
      else Observation(s, false)
    case Impact => Observation(Idle, true)
    case Settled => Observation(DetectorState(false, false), false)
    case NoBranch => Observation(s, false)
  }

  /** The freefall timeout: if it is pending, it fires and clears isFalling. */
  function Expire(s: DetectorState): (r: DetectorState)
    ensures r == Idle || r == s
    ensures s.timerArmed ==> r == Idle
    ensures Consistent(s) ==> Consistent(r) && !r.isFalling
  {
    if s.timerArmed then Idle else s
  }

  /** What the detector can observe: a sample, or the timer's expiry. */
  datatype Event = Reading(ag: real) | TimerFired

  predicate IsFreefallReading(e: Event) {
    e.Reading? && e.ag < FreefallThresholdG
  }

  function Step(s: DetectorState, e: Event): Observation {
    match e
    case Reading(ag) => Observe(s, ag)
    case TimerFired => Observation(Expire(s), false)
  }

  /** The final state and, per event, whether a fall was reported. */
  datatype Trace = Trace(final: DetectorState, reports: seq<bool>)

  function Run(s: DetectorState, events: seq<Event>): (t: Trace)
    ensures |t.reports| == |events|
    ensures Consistent(s) ==> Consistent(t.final)
    decreases |events|
  {
    if events == [] then Trace(s, [])
    else
      var o := Step(s, events[0]);
      var rest := Run(o.state, events[1..]);
      Trace(rest.final, [o.fallDetected] + rest.reports)
  }

  /** From a state that is not falling, a fall can only be reported after a
      freefall reading. */
  lemma {:induction false} FallNeedsFreefall(s: DetectorState, events: seq<Event>, j: nat)
    requires Consistent(s) && !s.isFalling
    requires j < |events| && Run(s, events).reports[j]
    ensures exists k :: 0 <= k < j && IsFreefallReading(events[k])
    decreases |events|
  {
    var o := Step(s, events[0]);
    if IsFreefallReading(events[0]) {
      if j == 0 {
        assert false;
      }
      assert IsFreefallReading(events[0]);
    } else {
      assert o == Observation(s, false);
      if j == 0 {
        assert false;
      }
      assert Run(s, events).reports[j] == Run(s, events[1..]).reports[j - 1];
      FallNeedsFreefall(s, events[1..], j - 1);
      var k :| 0 <= k < j - 1 && IsFreefallReading(events[1..][k]);
      assert IsFreefallReading(events[k + 1]);
    }
  }

  /** At most one fall per freefall episode: between two reported falls there
      is always a fresh freefall reading. */
  lemma {:induction false} AtMostOneFallPerEpisode(s: DetectorState, events: seq<Event>, i: nat, j: nat)
    requires Consistent(s)
    requires i < j < |events|
    requires Run(s, events).reports[i] && Run(s, events).reports[j]
    ensures exists k :: i < k < j && IsFreefallReading(events[k])
    decreases |events|
  {
    var o := Step(s, events[0]);
    assert Run(s, events).reports[j] == Run(o.state, events[1..]).reports[j - 1];
    if i == 0 {
      assert o.fallDetected;
      FallNeedsFreefall(o.state, events[1..], j - 1);
      var k :| 0 <= k < j - 1 && IsFreefallReading(events[1..][k]);
      assert IsFreefallReading(events[k + 1]);
    } else {
      assert Run(s, events).reports[i] == Run(o.state, events[1..]).reports[i - 1];
      AtMostOneFallPerEpisode(o.state, events[1..], i - 1, j - 1);
      var k :| i - 1 < k < j - 1 && IsFreefallReading(events[1..][k]);
      assert IsFreefallReading(events[k + 1]);
    }
  }

  /** Without a freefall reading, a detector that is not falling stays idle and
      reports nothing, whatever else it sees (including stray timer events). */
  lemma {:induction false} QuietWithoutFreefall(s: DetectorState, events: seq<Event>)
    requires Consistent(s) && !s.isFalling
    requires forall k :: 0 <= k < |events| ==> !IsFreefallReading(events[k])
    ensures Run(s, events).final == s
    ensures forall k :: 0 <= k < |events| ==> !Run(s, events).reports[k]
  {
    if events != [] {
      assert !IsFreefallReading(events[0]);
      assert Step(s, events[0]) == Observation(s, false);
      QuietWithoutFreefall(s, events[1..]);
      var t := Run(s, events[1..]);
      assert Run(s, events).reports == [false] + t.reports;
    }
  }

  /** The module-level variables `isFalling` and `fallTimer` of the demo page,
      with checkFallDetection and the timeout callback as methods. */
  class FallDetector {
    var isFalling: bool
    /** `fallTimer` refers to a timeout that has not yet fired or been cleared. */
    var timerArmed: bool

    function State(): DetectorState
      reads this
    {
      DetectorState(isFalling, timerArmed)
    }

    ghost predicate Valid()
      reads this
    {
      Consistent(State())
    }

    constructor ()
      ensures Valid() && State() == Idle
    {
      isFalling := false;
      timerArmed := false;
    }

    /** checkFallDetection, for a sample of magnitude `ag` g. */
    method CheckFallDetection(ag: real) returns (fallDetected: bool)
      requires Valid()
      modifies this
      ensures Valid()
      ensures Observation(State(), fallDetected) == Observe(old(State()), ag)
    {
      var falling, armed := isFalling, timerArmed;
      fallDetected := false;
      if ag < FreefallThresholdG {
        if !falling {
          falling := true;
          armed := true;
        }
      } else if falling && ag > ImpactThresholdG {
        armed := false;
        falling := false;
        fallDetected := true;
      } else if falling && ag >= 0.8 * GValue && ag <= 1.2 * GValue {
        if armed {
          armed := false;
        }
        falling := false;
      }
      isFalling, timerArmed := falling, armed;
    }

    /** The callback scheduled on entering freefall, run 1000 ms later
        unless it was cleared first. */
    method FreefallTimeout()
      requires Valid()
      modifies this
      ensures Valid() && !isFalling
      ensures State() == Expire(old(State()))
    {
      if timerArmed {
        isFalling := false;
        timerArmed := false;
      }
    }
  }
}
