/**
 * The controller as a transition system: commands from outside and dispatch
 * steps interleave, each applied atomically to the current snapshot. This
 * module states the invariants every reachable state satisfies.
 */
module Safety {
  import opened Wrappers
  import opened ElevatorTypes
  import opened FloorQueue
  import opened ElevatorReducer
  import opened Dispatch

  /** One thing that can happen to the controller */
  datatype Event =
    | Call(floor: int)       // a floor's call button
    | Alarm(on: bool)        // the emergency switch
    | Restart                // the reset button
    | Tick(now: int)         // the dispatch loop acts, at clock time `now`

  /** One command through its wrapper, or one dispatch step. A call can only
      append its own floor to the queue; only a step moves the trip clock;
      the alarm sets the latch; a restart yields the initial state. */
  function Apply(c: Controller, e: Event): (r: Controller)
    ensures e.Call? ==> r.state.queue == c.state.queue || r.state.queue == c.state.queue + [e.floor]
    ensures !e.Tick? ==> r.tripStart == c.tripStart
    ensures e.Alarm? ==> r.state.isEmergency == e.on
    ensures e.Restart? ==> r.state == InitialState
    ensures e.Tick? ==> r.state.isEmergency == c.state.isEmergency
  {
    match e
    case Call(f) => UserRequest(c, f)
    case Alarm(on) => UserEmergency(c, on)
    case Restart => UserReset(c)
    case Tick(now) => Step(c, now)
  }

  /** A sequence of events applied in order. Without alarms or restarts the
      emergency latch never changes. */
  function Execute(c: Controller, es: seq<Event>): (r: Controller)
    ensures (forall i :: 0 <= i < |es| ==> es[i].Call? || es[i].Tick?) ==>
      r.state.isEmergency == c.state.isEmergency
    decreases |es|
  {
    if es == [] then c else Execute(Apply(c, es[0]), es[1..])
  }

  /** Every call placed lies within the building */
  predicate CallsInBuilding(es: seq<Event>) {
    forall i :: 0 <= i < |es| && es[i].Call? ==> IsFloor(es[i].floor)
  }

  /** A moving car has a target strictly ahead of it in its direction of travel. */
  predicate MotionOk(s: ElevatorState) {
    && (s.status == MovingUp ==> s.targetFloor.Some? && s.targetFloor.value > s.currentFloor && s.direction == Up)
    && (s.status == MovingDown ==> s.targetFloor.Some? && s.targetFloor.value < s.currentFloor && s.direction == Down)
  }

  /** The invariant of every reachable controller state */
  ghost predicate Inv(c: Controller) {
    var s := c.state;
    && Consistent(s)
    && NoDup(s.queue)
    && MotionOk(s)
    && (s.isEmergency <==> s.status == EmergencyStop)
    && !s.isMoving
    && (s.status == DoorsOpening ==> s.targetFloor == Some(s.currentFloor))
    && (s.status == DoorsOpen || s.status == DoorsClosing ==> s.doorOpen)
    && (s.status == MovingUp || s.status == MovingDown ==> c.tripStart.Some?)
  }

  /** The car, the target and every queued call lie within the building. */
  predicate InRange(s: ElevatorState) {
    && IsFloor(s.currentFloor)
    && (s.targetFloor.Some? ==> IsFloor(s.targetFloor.value))
    && (forall i :: 0 <= i < |s.queue| ==> IsFloor(s.queue[i]))
  }

  /** The start-up state satisfies the invariant. */
  lemma BootInv()
    ensures Inv(Boot) && InRange(Boot.state)
  {
  }

  /** Every dispatch step keeps the invariant and keeps the car within the building. */
  lemma StepInv(c: Controller, now: int)
    requires Inv(c)
    ensures Inv(Step(c, now))
    ensures InRange(c.state) ==> InRange(Step(c, now).state)
  {
    var s := c.state;
    if PickupEnabled(s) {
      var r := Pickup(c, now);
      assert r.state.queue == s.queue;
    } else if MoveEnabled(s) {
      var r := Move(c, now);
      assert r.state.queue == s.queue;
    } else if s.status == DoorsOpening {
      var r := FinishOpening(c);
      if InRange(s) {
        forall i | 0 <= i < |r.state.queue| ensures IsFloor(r.state.queue[i]) {
          assert r.state.queue[i] in s.queue;
        }
      }
    }
  }

  /** Every command and step keeps the invariant; one that places a call within
      the building also keeps every floor within the building. */
  lemma ApplyInv(c: Controller, e: Event)
    requires Inv(c)
    ensures Inv(Apply(c, e))
    ensures InRange(c.state) && (e.Call? ==> IsFloor(e.floor)) ==> InRange(Apply(c, e).state)
  {
    match e
    case Call(f) =>
    case Alarm(on) =>
    case Restart => BootInv();
    case Tick(now) => StepInv(c, now);
  }

  /** Safety: from start-up, under any interleaving of calls within the
      building, emergency switches, resets and dispatch steps, the invariant
      holds and the car never leaves floors 1..100. In particular a car
      moving up (down) always has a target strictly above (below) it. */
  lemma {:induction false} ExecuteInv(c: Controller, es: seq<Event>)
    requires Inv(c) && InRange(c.state)
    requires CallsInBuilding(es)
    ensures Inv(Execute(c, es)) && InRange(Execute(c, es).state)
    decreases |es|
  {
    if es != [] {
      ApplyInv(c, es[0]);
      assert CallsInBuilding(es[1..]) by {
        forall i | 0 <= i < |es| - 1 && es[1..][i].Call? ensures IsFloor(es[1..][i].floor) {
          assert es[1..][i] == es[i + 1];
        }
      }
      ExecuteInv(Apply(c, es[0]), es[1..]);
    }
  }

  /** The theorem for runs from start-up */
  lemma Reachable(es: seq<Event>)
    requires CallsInBuilding(es)
    ensures Inv(Execute(Boot, es))
    ensures MinFloor <= Execute(Boot, es).state.currentFloor <= MaxFloor
  {
    BootInv();
    ExecuteInv(Boot, es);
  }

  /** While the emergency latch is on, calls are ignored and no dispatch step
      changes anything. */
  lemma EmergencyFreezes(c: Controller, e: Event)
    requires Inv(c) && c.state.isEmergency
    requires e.Call? || e.Tick?
    ensures Apply(c, e) == c
  {
  }
}
