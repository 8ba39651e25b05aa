/**
 * The shared pose of the pan/tilt rig and the background sweep of src/proto/emoweb.py.
 * The module-level globals `current_pan`, `current_tilt` and `is_scanning`, together with
 * the sweep's own `pan_direction`, are the fields of one `Rig` object; one pass of the
 * scanning loop is `Rig.ScanTick`, and `Rig.PanGoto` is the tracker's write path.
 */
module PanTilt {
  import opened Wrappers

  const PanMinAngle: real := 0.0
  const PanMaxAngle: real := 180.0
  const TiltMinAngle: real := 20.0
  const TiltMaxAngle: real := 90.0
  /** Degrees the sweep moves pan per tick. */
  const PanStep: real := 0.5
  /** Degrees the sweep moves tilt each time pan reverses. */
  const TiltStep: real := 5.0

  /** `max(lo, min(hi, x))`, the clamp of `set_servo_angle` and `pan_goto`. */
  function Clamp(lo: real, hi: real, x: real): (r: real)
    ensures lo <= hi ==> lo <= r <= hi
    ensures lo <= x <= hi ==> r == x
    ensures x < lo ==> r == lo
    ensures lo <= hi && hi < x ==> r == hi
  {
    var m := if hi < x then hi else x;
    if m < lo then lo else m
  }

  predicate PanInRange(pan: real) { PanMinAngle <= pan <= PanMaxAngle }
  predicate TiltInRange(tilt: real) { TiltMinAngle <= tilt <= TiltMaxAngle }

  /** The state one pass of the scanning loop reads and writes. */
  datatype SweepState = SweepState(pan: real, tilt: real, direction: int)

  /** The tilt update made at each pan reversal: step, wrapping back to the minimum past the maximum. */
  function NextTilt(tilt: real): (r: real)
    ensures TiltInRange(tilt) ==> TiltInRange(r)
    ensures r == tilt + TiltStep || r == TiltMinAngle
  {
    if tilt + TiltStep > TiltMaxAngle then TiltMinAngle else tilt + TiltStep
  }

  /** One pass of the scanning loop while `is_scanning` holds. */
  function Sweep(s: SweepState): (r: SweepState)
    // pan never leaves its range, whatever the starting state
    ensures PanInRange(r.pan)
    ensures TiltInRange(s.tilt) ==> TiltInRange(r.tilt)
    ensures (s.direction == 1 || s.direction == -1) ==> (r.direction == 1 || r.direction == -1)
    // away from the bounds, pan moves exactly one step in the current direction and nothing else changes
    ensures PanMinAngle < r.pan < PanMaxAngle ==>
      r.pan == s.pan + PanStep * s.direction as real && r.direction == s.direction && r.tilt == s.tilt
    // a bound is reached exactly when the step would reach or pass it; the direction then points back
    ensures s.pan + PanStep * s.direction as real >= PanMaxAngle <==> (r.pan == PanMaxAngle && r.direction == -1)
    ensures PanMinAngle < s.pan + PanStep * s.direction as real < PanMaxAngle ==> r.pan == s.pan + PanStep * s.direction as real
    ensures s.pan + PanStep * s.direction as real <= PanMinAngle ==> r.pan == PanMinAngle && r.direction == 1
    // tilt only moves at a reversal, by one tilt step or by wrapping
    ensures r.tilt != s.tilt ==> (r.pan == PanMinAngle || r.pan == PanMaxAngle) && r.tilt == NextTilt(s.tilt)
  {
    var moved := s.pan + PanStep * s.direction as real;
    if moved >= PanMaxAngle then SweepState(PanMaxAngle, NextTilt(s.tilt), -1)
    else if moved <= PanMinAngle then SweepState(PanMinAngle, NextTilt(s.tilt), 1)
    else SweepState(moved, s.tilt, s.direction)
  }

  /** The animation tag the sweep sends at a reversal ("A2" at the pan maximum, "A3" at the minimum). */
  function ReversalTag(s: SweepState): (r: Option<string>)
    ensures r == Some("A2") <==> s.pan + PanStep * s.direction as real >= PanMaxAngle
    ensures r == Some("A3") <==> s.pan + PanStep * s.direction as real <= PanMinAngle
    ensures r.None? <==> PanMinAngle < s.pan + PanStep * s.direction as real < PanMaxAngle
  {
    var moved := s.pan + PanStep * s.direction as real;
    if moved >= PanMaxAngle then Some("A2")
    else if moved <= PanMinAngle then Some("A3")
    else None
  }

  /** `k` consecutive sweep passes. */
  function Sweeps(s: SweepState, k: nat): SweepState {
    if k == 0 then s else Sweep(Sweeps(s, k - 1))
  }

  /**
   * Moving right from inside the range, pan grows by exactly one step per pass (strictly
   * monotone, tilt untouched) for as long as it stays below the maximum.
   */
  lemma {:induction false} SweepRightRun(s: SweepState, k: nat)
    requires s.direction == 1 && PanMinAngle <= s.pan
    requires s.pan + PanStep * k as real < PanMaxAngle
    ensures Sweeps(s, k) == SweepState(s.pan + PanStep * k as real, s.tilt, 1)
  {
    if k > 0 {
      SweepRightRun(s, k - 1);
    }
  }

  /** The mirror image: moving left, pan falls by one step per pass while it stays above the minimum. */
  lemma {:induction false} SweepLeftRun(s: SweepState, k: nat)
    requires s.direction == -1 && s.pan <= PanMaxAngle
    requires s.pan - PanStep * k as real > PanMinAngle
    ensures Sweeps(s, k) == SweepState(s.pan - PanStep * k as real, s.tilt, -1)
  {
    if k > 0 {
      SweepLeftRun(s, k - 1);
    }
  }

  /** Any number of passes from a state in range stays in range (pose bounds of the sweep). */
  lemma {:induction false} SweepsStayInRange(s: SweepState, k: nat)
    requires PanInRange(s.pan) && TiltInRange(s.tilt) && (s.direction == 1 || s.direction == -1)
    ensures var r := Sweeps(s, k);
      PanInRange(r.pan) && TiltInRange(r.tilt) && (r.direction == 1 || r.direction == -1)
  {
    if k > 0 {
      SweepsStayInRange(s, k - 1);
    }
  }

  /** The rig: the pose globals shared by the sweep and the tracker. */
  class Rig {
    var pan: real
    var tilt: real
    var scanning: bool
    /** `pan_direction` of the scanning thread: 1 is right, -1 is left. */
    var direction: int

    ghost predicate Valid()
      reads this
    {
      PanInRange(pan) && TiltInRange(tilt) && (direction == 1 || direction == -1)
    }

    function State(): SweepState
      reads this
    {
      SweepState(pan, tilt, direction)
    }

    /** Module start-up: pose (90, 20), scanning on, sweep heading right. */
    constructor ()
      ensures Valid()
      ensures pan == 90.0 && tilt == 20.0 && scanning && direction == 1
    {
      pan, tilt, scanning, direction := 90.0, 20.0, true, 1;
    }

    /** `pan_goto`: clamp both targets, store them as the current pose and return them. */
    method PanGoto(panTarget: real, tiltTarget: real) returns (p: real, t: real)
      modifies this
      ensures PanInRange(p) && TiltInRange(t)
      ensures p == Clamp(PanMinAngle, PanMaxAngle, panTarget)
      ensures t == Clamp(TiltMinAngle, TiltMaxAngle, tiltTarget)
      ensures pan == p && tilt == t
      ensures scanning == old(scanning) && direction == old(direction)
      ensures old(Valid()) ==> Valid()
    {
      p := Clamp(PanMinAngle, PanMaxAngle, panTarget);
      t := Clamp(TiltMinAngle, TiltMaxAngle, tiltTarget);
      pan, tilt := p, t;
    }

    /**
     * One pass of `scanning_thread_func`'s loop: while scanning, sweep one step and report
     * the reversal tag, if any; otherwise leave the pose alone (the source only sleeps).
     */
    method ScanTick() returns (tag: Option<string>)
      requires Valid()
      modifies this
      ensures Valid()
      ensures scanning == old(scanning)
      ensures old(scanning) ==> State() == Sweep(old(State())) && tag == ReversalTag(old(State()))
      ensures !old(scanning) ==> State() == old(State()) && tag.None?
    {
      tag := None;
      if scanning {
        var moved := pan + PanStep * direction as real;
        pan := moved;
        if pan >= PanMaxAngle {
          pan := PanMaxAngle;
          direction := -1;
          tag := Some("A2");
          tilt := tilt + TiltStep;
          if tilt > TiltMaxAngle {
            tilt := TiltMinAngle;
          }
        } else if pan <= PanMinAngle {
          pan := PanMinAngle;
          direction := 1;
          tag := Some("A3");
          tilt := tilt + TiltStep;
          if tilt > TiltMaxAngle {
            tilt := TiltMinAngle;
          }
        }
      }
    }
  }
}
