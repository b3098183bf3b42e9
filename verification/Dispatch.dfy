/**
 * The dispatch loop with React and the timers taken away. Each timer callback
 * (and the immediate pick-up of the next queued floor) is one atomic step:
 * the reducer actions it dispatches, composed in dispatch order, with every
 * condition read from the snapshot the step starts from. The wall clock is a
 * parameter `now`; the trip-start reference lives beside the state.
 */
module Dispatch {
  import opened Wrappers
  import opened ElevatorTypes
  import opened FloorQueue
  import opened ElevatorReducer

  /** The reducer state together with the trip-start timestamp, which the
      program keeps in a reference outside the reducer (so a reset does not
      clear it). */
  datatype Controller = Controller(state: ElevatorState, tripStart: Option<int>)

  const Boot: Controller := Controller(InitialState, None)

  // ---------------------------------------------------------------------
  // Commands issued from outside

  /** `requestElevator`: the emergency guard lives here, not in the reducer. */
  function UserRequest(c: Controller, f: int): (r: Controller)
    ensures c.state.isEmergency ==> r == c
    ensures !c.state.isEmergency ==> r.state == ApplyRequest(c.state, f)
    ensures r.tripStart == c.tripStart
  {
    if !c.state.isEmergency then c.(state := Reduce(c.state, RequestElevator(f))) else c
  }

  /** `resetSystem`: the state becomes the initial state from any state. */
  function UserReset(c: Controller): (r: Controller)
    ensures r.state.currentFloor == 1 && r.state.status == Idle && r.state.queue == []
    ensures r.state.targetFloor == None && !r.state.isEmergency && !r.state.doorOpen
    ensures r.state.direction == Stationary && r.state.lastTripTime == None && !r.state.isMoving
    ensures forall f :: !Flagged(r.state.floorRequests, f)
    ensures r.state == InitialState
    ensures r.tripStart == c.tripStart
  {
    InitialConsistent();
    c.(state := Reduce(c.state, ResetSystem))
  }

  /** `setEmergency` */
  function UserEmergency(c: Controller, on: bool): (r: Controller)
    ensures r.state.isEmergency == on && !r.state.isMoving
    ensures r.state.status == (if on then EmergencyStop else Idle)
    ensures r.state.targetFloor == None
    ensures r.state.queue == c.state.queue && r.state.floorRequests == c.state.floorRequests
    ensures r.state.currentFloor == c.state.currentFloor && r.state.doorOpen == c.state.doorOpen
    ensures r.state.direction == c.state.direction && r.state.lastTripTime == c.state.lastTripTime
    ensures r.state == ApplyEmergency(c.state, on)
    ensures r.tripStart == c.tripStart
  {
    c.(state := Reduce(c.state, SetEmergency(on)))
  }

  // ---------------------------------------------------------------------
  // The branches of the dispatch effect

  /** The idle car picks up the head of the queue. */
  predicate PickupEnabled(s: ElevatorState) {
    |s.queue| > 0 && s.status == Idle && !s.isEmergency
  }

  /** The car travels one floor. */
  predicate MoveEnabled(s: ElevatorState) {
    (s.status == MovingUp || s.status == MovingDown) && !s.isEmergency
  }

  /** Some branch of the dispatch effect acts on this snapshot. */
  predicate Enabled(s: ElevatorState) {
    || PickupEnabled(s)
    || MoveEnabled(s)
    || s.status == DoorsOpening
    || s.status == DoorsOpen
    || s.status == DoorsClosing
  }

  /** Pick-up: the queue head becomes the target and the car starts towards
      it, or starts opening its doors when it is already there (without
      touching the direction). The trip clock starts. */
  function Pickup(c: Controller, now: int): (r: Controller)
    requires PickupEnabled(c.state)
    ensures r.state.targetFloor == Some(c.state.queue[0])
    ensures r.state.status == MovingUp <==> c.state.queue[0] > c.state.currentFloor
    ensures r.state.status == MovingDown <==> c.state.queue[0] < c.state.currentFloor
    ensures r.state.status == DoorsOpening <==> c.state.queue[0] == c.state.currentFloor
    ensures r.state.status == MovingUp ==> r.state.direction == Up
    ensures r.state.status == MovingDown ==> r.state.direction == Down
    ensures r.state.status == DoorsOpening ==> r.state.direction == c.state.direction
    ensures r.state.(targetFloor := c.state.targetFloor, status := Idle, direction := c.state.direction) == c.state
    ensures r.tripStart == Some(now)
  {
    var s := c.state;
    var next := s.queue[0];
    var s1 := Reduce(s, SetTargetFloor(Some(next)));
    var s2 :=
      if next > s.currentFloor then Reduce(Reduce(s1, SetDirection(Up)), SetStatus(MovingUp))
      else if next < s.currentFloor then Reduce(Reduce(s1, SetDirection(Down)), SetStatus(MovingDown))
      else Reduce(s1, SetStatus(DoorsOpening));
    Controller(s2, Some(now))
  }

  /** One floor of travel in the status's direction. Arriving at the target
      starts the doors opening and records the trip time, once. */
  function Move(c: Controller, now: int): (r: Controller)
    requires MoveEnabled(c.state)
    ensures c.state.status == MovingUp ==> r.state.currentFloor == c.state.currentFloor + 1
    ensures c.state.status == MovingDown ==> r.state.currentFloor == c.state.currentFloor - 1
    ensures r.state.status == DoorsOpening <==> c.state.targetFloor == Some(r.state.currentFloor)
    ensures r.state.status != DoorsOpening ==>
      r.state.status == c.state.status && r.tripStart == c.tripStart && r.state.lastTripTime == c.state.lastTripTime
    ensures r.state.status == DoorsOpening ==> r.tripStart == None
    ensures r.state.status == DoorsOpening && c.tripStart.Some? ==>
      r.state.lastTripTime == Some(now - c.tripStart.value)
    ensures c.tripStart.None? ==> r.state.lastTripTime == c.state.lastTripTime
    ensures r.state.(currentFloor := c.state.currentFloor, status := c.state.status,
                     lastTripTime := c.state.lastTripTime) == c.state
  {
    var s := c.state;
    var newFloor := if s.status == MovingUp then s.currentFloor + 1 else s.currentFloor - 1;
    var s1 := Reduce(s, SetCurrentFloor(newFloor));
    if s.targetFloor == Some(newFloor) then
      var s2 := Reduce(s1, SetStatus(DoorsOpening));
      match c.tripStart
      case Some(start) => Controller(Reduce(s2, SetTripTime(now - start)), None)
      case None => Controller(s2, None)
    else
      Controller(s1, c.tripStart)
  }

  /** Doors finish opening: the door is open, the floor's call is served and
      dequeued, and the target is dropped when it is this floor. */
  function FinishOpening(c: Controller): (r: Controller)
    requires c.state.status == DoorsOpening
    ensures r.state.status == DoorsOpen && r.state.doorOpen
    ensures c.state.currentFloor !in r.state.queue
    ensures !Flagged(r.state.floorRequests, c.state.currentFloor)
    ensures forall g :: g != c.state.currentFloor ==> (g in r.state.queue <==> g in c.state.queue)
    ensures r.state.queue == Without(c.state.queue, c.state.currentFloor)
    ensures r.state.floorRequests.Keys == c.state.floorRequests.Keys + {c.state.currentFloor}
    ensures forall g :: g in c.state.floorRequests && g != c.state.currentFloor ==>
      g in r.state.floorRequests && r.state.floorRequests[g] == c.state.floorRequests[g]
    ensures c.state.targetFloor == Some(c.state.currentFloor) ==> r.state.targetFloor == None
    ensures c.state.targetFloor != Some(c.state.currentFloor) ==> r.state.targetFloor == c.state.targetFloor
    ensures r.state.currentFloor == c.state.currentFloor && r.state.direction == c.state.direction
    ensures r.state.isEmergency == c.state.isEmergency && r.state.isMoving == c.state.isMoving
    ensures r.state.lastTripTime == c.state.lastTripTime
    ensures Consistent(c.state) ==> Consistent(r.state)
    ensures NoDup(c.state.queue) ==> NoDup(r.state.queue)
    ensures r.tripStart == c.tripStart
  {
    var s := c.state;
    var s1 := Reduce(s, ToggleDoor(true));
    assert s1 == s.(doorOpen := true);
    var s2 := Reduce(s1, SetStatus(DoorsOpen));
    assert s2 == s1.(status := DoorsOpen);
    var s3 := Reduce(s2, ClearFloorRequest(s.currentFloor));
    assert s3 == ApplyClear(s2, s.currentFloor);
    var s4 := if s.targetFloor == Some(s.currentFloor) then Reduce(s3, SetTargetFloor(None)) else s3;
    Controller(s4, c.tripStart)
  }

  /** The open doors start closing; nothing else changes. */
  function BeginClosing(c: Controller): (r: Controller)
    requires c.state.status == DoorsOpen
    ensures r.state.status == DoorsClosing
    ensures r.state.(status := DoorsOpen) == c.state && r.tripStart == c.tripStart
  {
    Controller(Reduce(c.state, SetStatus(DoorsClosing)), c.tripStart)
  }

  /** The doors finish closing: the car is idle with no direction. */
  function FinishClosing(c: Controller): (r: Controller)
    requires c.state.status == DoorsClosing
    ensures r.state.status == Idle && !r.state.doorOpen && r.state.direction == Stationary
    ensures r.state.(status := DoorsClosing, doorOpen := c.state.doorOpen, direction := c.state.direction) == c.state
    ensures r.tripStart == c.tripStart
  {
    var s := c.state;
    var s1 := Reduce(s, ToggleDoor(false));
    var s2 := Reduce(s1, SetStatus(Idle));
    Controller(Reduce(s2, SetDirection(Stationary)), c.tripStart)
  }

  /** One step of the dispatch loop on the current snapshot. At most one branch
      applies, because each is keyed on a different status; when none applies
      no timer is armed and nothing changes. */
  function Step(c: Controller, now: int): (r: Controller)
    ensures Enabled(c.state) <==> r.state != c.state
    ensures !Enabled(c.state) ==> r == c
    ensures c.state.status == EmergencyStop ==> r == c
    ensures r.state.isEmergency == c.state.isEmergency && r.state.isMoving == c.state.isMoving
  {
    var s := c.state;
    if PickupEnabled(s) then Pickup(c, now)
    else if MoveEnabled(s) then Move(c, now)
    else if s.status == DoorsOpening then FinishOpening(c)
    else if s.status == DoorsOpen then BeginClosing(c)
    else if s.status == DoorsClosing then FinishClosing(c)
    else c
  }
}
