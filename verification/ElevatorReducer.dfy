/**
 * The state store: the initial state and the pure reducer that turns a state
 * and one action into the next state. Every change to the controller's state
 * goes through `Reduce`.
 */
module ElevatorReducer {
  import opened Wrappers
  import opened ElevatorTypes
  import opened FloorQueue

  /** The actions the reducer understands */
  datatype Action =
    | RequestElevator(floor: int)
    | SetStatus(status: Status)
    | SetCurrentFloor(floor: int)
    | SetTargetFloor(target: Option<int>)
    | SetDirection(direction: Direction)
    | ToggleDoor(open: bool)
    | SetTripTime(time: int)
    | ClearFloorRequest(floor: int)
    | ResetSystem
    | SetEmergency(isEmergency: bool)

  /** Floors 1..100, each with its call indicator off */
  const NoRequests: map<int, bool> := map f | MinFloor <= f <= MaxFloor :: false

  /** The state at start-up and after a reset */
  const InitialState: ElevatorState := ElevatorState(
    currentFloor := 1,
    targetFloor := None,
    status := Idle,
    direction := Stationary,
    doorOpen := false,
    queue := [],
    lastTripTime := None,
    floorRequests := NoRequests,
    isEmergency := false,
    isMoving := false)

  /** The call indicators agree with the queue: a floor is flagged exactly when it is queued. */
  ghost predicate Consistent(s: ElevatorState) {
    forall f :: Flagged(s.floorRequests, f) <==> f in s.queue
  }

  /** A request the reducer drops: the car is already standing at the floor
      (idle or with its doors open), the floor is already queued, or it is
      the floor the car is heading for. */
  predicate Redundant(s: ElevatorState, f: int) {
    || (s.currentFloor == f && (s.status == Idle || s.status == DoorsOpen))
    || f in s.queue
    || s.targetFloor == Some(f)
  }

  /** `REQUEST_ELEVATOR`: queue a call for floor `f` unless it is redundant. */
  function ApplyRequest(s: ElevatorState, f: int): (r: ElevatorState)
    ensures Redundant(s, f) ==> r == s
    ensures !Redundant(s, f) ==>
      && r.queue == s.queue + [f]
      && r.floorRequests.Keys == s.floorRequests.Keys + {f}
      && r.floorRequests[f]
      && (forall g :: g in s.floorRequests && g != f ==> r.floorRequests[g] == s.floorRequests[g])
      && (s.targetFloor.None? ==> r.targetFloor == Some(f))
      && (s.targetFloor.Some? ==> r.targetFloor == s.targetFloor)
      && r.(queue := s.queue, floorRequests := s.floorRequests, targetFloor := s.targetFloor) == s
    ensures f in r.queue || r == s
    ensures Consistent(s) ==> Consistent(r)
    ensures NoDup(s.queue) ==> NoDup(r.queue)
  {
    if s.currentFloor == f && (s.status == Idle || s.status == DoorsOpen) then s
    else if f in s.queue || s.targetFloor == Some(f) then s
    else
      s.(queue := s.queue + [f],
         floorRequests := s.floorRequests[f := true],
         targetFloor := if s.targetFloor == None then Some(f) else s.targetFloor)
  }

  /** `CLEAR_FLOOR_REQUEST`: drop floor `f` from the queue and lower its indicator. */
  function ApplyClear(s: ElevatorState, f: int): (r: ElevatorState)
    ensures r.queue == Without(s.queue, f)
    ensures f !in r.queue
    ensures forall g :: g != f ==> (g in r.queue <==> g in s.queue)
    ensures |r.queue| <= |s.queue|
    ensures f !in s.queue ==> r.queue == s.queue
    ensures r.floorRequests.Keys == s.floorRequests.Keys + {f}
    ensures !Flagged(r.floorRequests, f)
    ensures forall g :: g in s.floorRequests && g != f ==> r.floorRequests[g] == s.floorRequests[g]
    ensures r.(queue := s.queue, floorRequests := s.floorRequests) == s
    ensures Consistent(s) ==> Consistent(r)
    ensures NoDup(s.queue) ==> NoDup(r.queue)
  {
    assert f !in s.queue ==> Without(s.queue, f) == s.queue by {
      if f !in s.queue {
        WithoutAbsent(s.queue, f);
      }
    }
    s.(queue := Without(s.queue, f), floorRequests := s.floorRequests[f := false])
  }

  /** `SET_EMERGENCY`: latch or release the emergency stop. Either way the
      target is dropped; the queue, the indicators, the floor and the door
      are left as they are. */
  function ApplyEmergency(s: ElevatorState, on: bool): (r: ElevatorState)
    ensures r.isEmergency == on && !r.isMoving
    ensures on ==> r.status == EmergencyStop
    ensures !on ==> r.status == Idle
    ensures r.targetFloor == None
    ensures r.queue == s.queue && r.floorRequests == s.floorRequests
    ensures r.currentFloor == s.currentFloor && r.doorOpen == s.doorOpen && r.direction == s.direction
    ensures r.lastTripTime == s.lastTripTime
  {
    s.(isEmergency := on,
       isMoving := false,
       status := if on then EmergencyStop else Idle,
       targetFloor := None)
  }

  /** The reducer. Whatever the action, it keeps the call indicators in step
      with the queue and keeps the queue free of duplicates; only the
      request, clear and reset actions touch the queue, and only the
      emergency and reset actions touch `isMoving`. */
  function Reduce(s: ElevatorState, a: Action): (r: ElevatorState)
    ensures Consistent(s) ==> Consistent(r)
    ensures NoDup(s.queue) ==> NoDup(r.queue)
    ensures !(a.RequestElevator? || a.ClearFloorRequest? || a.ResetSystem?) ==>
      r.queue == s.queue && r.floorRequests == s.floorRequests
    ensures !(a.SetEmergency? || a.ResetSystem?) ==> r.isMoving == s.isMoving
    ensures !(a.SetEmergency? || a.ResetSystem?) ==> r.isEmergency == s.isEmergency
  {
    InitialConsistent();
    match a
    case RequestElevator(f) => ApplyRequest(s, f)
    case SetStatus(st) => s.(status := st)
    case SetCurrentFloor(f) => s.(currentFloor := f)
    case SetTargetFloor(t) => s.(targetFloor := t)
    case SetDirection(d) => s.(direction := d)
    case ToggleDoor(open) => s.(doorOpen := open)
    case SetTripTime(time) => s.(lastTripTime := Some(time))
    case ClearFloorRequest(f) => ApplyClear(s, f)
    case ResetSystem => InitialState
    case SetEmergency(on) => ApplyEmergency(s, on)
  }

  /** The initial state: floor 1, idle, nothing queued, every indicator off,
      no emergency, and the indicators agree with the (empty) queue. */
  lemma InitialConsistent()
    ensures Consistent(InitialState)
    ensures NoDup(InitialState.queue)
    ensures forall f :: !Flagged(InitialState.floorRequests, f)
    ensures forall f :: MinFloor <= f <= MaxFloor ==> f in InitialState.floorRequests
  {
  }

  /** A reset yields the initial state whatever state it is applied to. */
  lemma ResetIsInitial(s: ElevatorState)
    ensures Reduce(s, ResetSystem).currentFloor == 1
    ensures Reduce(s, ResetSystem).status == Idle && Reduce(s, ResetSystem).direction == Stationary
    ensures Reduce(s, ResetSystem).queue == [] && Reduce(s, ResetSystem).targetFloor == None
    ensures !Reduce(s, ResetSystem).isEmergency && !Reduce(s, ResetSystem).doorOpen
    ensures forall f :: !Flagged(Reduce(s, ResetSystem).floorRequests, f)
    ensures Reduce(s, ResetSystem).lastTripTime == None && !Reduce(s, ResetSystem).isMoving
    ensures Reduce(s, ResetSystem) == InitialState
    ensures Reduce(Reduce(s, ResetSystem), ResetSystem) == Reduce(s, ResetSystem)
  {
  }

  /** Requesting the same floor twice in a row is the same as requesting it once. */
  lemma RequestIdempotent(s: ElevatorState, f: int)
    ensures ApplyRequest(ApplyRequest(s, f), f) == ApplyRequest(s, f)
  {
  }

  /** After a request, the floor is queued exactly once, whether or not it was accepted,
      unless the car is standing at it or heading for it. */
  lemma RequestQueuesOnce(s: ElevatorState, f: int)
    requires NoDup(s.queue)
    requires s.targetFloor != Some(f)
    requires !(s.currentFloor == f && (s.status == Idle || s.status == DoorsOpen))
    ensures f in ApplyRequest(s, f).queue
    ensures forall i, j :: 0 <= i < j < |ApplyRequest(s, f).queue| ==>
      ApplyRequest(s, f).queue[i] != ApplyRequest(s, f).queue[j]
  {
  }
}
