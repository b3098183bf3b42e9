/**
 * What the dispatch loop does when left alone: runs of consecutive steps,
 * one trip, serving the head of the queue, and draining the whole queue in
 * call order. Also two reachable behaviours of the program that a reader
 * might not expect.
 */
module Trips {
  import opened Wrappers
  import opened ElevatorTypes
  import opened FloorQueue
  import opened ElevatorReducer
  import opened Dispatch
  import opened Safety
  import opened Runs

  /** The three door phases take one step each: opening finishes, closing begins, closing finishes. */
  lemma DoorPhases(c: Controller, clock: seq<int>)
    requires c.state.status == DoorsOpening && |clock| == 3
    ensures Run(c, clock) == FinishClosing(BeginClosing(FinishOpening(c)))
  {
    var c1 := FinishOpening(c);
    var c2 := BeginClosing(c1);
    var c3 := FinishClosing(c2);
    StepOpening(c, clock[0]);
    StepOpen(c1, clock[1]);
    StepClosing(c2, clock[2]);
    RunStep(c, clock);
    RunStep(c1, clock[1..]);
    RunStep(c2, clock[2..]);
    assert Run(c3, clock[3..]) == c3;
  }

  /** The door cycle: three steps from doors-opening leave the car idle at the
      same floor, door closed and no direction, with that floor's call served. */
  lemma DoorCycle(c: Controller, clock: seq<int>)
    requires c.state.status == DoorsOpening && |clock| == 3
    ensures Run(c, clock).state.status == Idle && !Run(c, clock).state.doorOpen
    ensures Run(c, clock).state.direction == Stationary
    ensures Run(c, clock).state.queue == Without(c.state.queue, c.state.currentFloor)
    ensures !Flagged(Run(c, clock).state.floorRequests, c.state.currentFloor)
    ensures c.state.targetFloor == Some(c.state.currentFloor) ==> Run(c, clock).state.targetFloor == None
    ensures Run(c, clock).state.currentFloor == c.state.currentFloor
    ensures Run(c, clock).state.isEmergency == c.state.isEmergency
  {
    DoorPhases(c, clock);
    DoorCycleEffect(c);
  }

  lemma DoorCycleEffect(c: Controller)
    requires c.state.status == DoorsOpening
    ensures var r := FinishClosing(BeginClosing(FinishOpening(c))).state;
      && r.status == Idle && !r.doorOpen && r.direction == Stationary
      && r.queue == Without(c.state.queue, c.state.currentFloor)
      && !Flagged(r.floorRequests, c.state.currentFloor)
      && (c.state.targetFloor == Some(c.state.currentFloor) ==> r.targetFloor == None)
      && r.currentFloor == c.state.currentFloor
      && r.isEmergency == c.state.isEmergency
  {
    var c1 := FinishOpening(c);
    assert c1.state.queue == ApplyClear(c.state, c.state.currentFloor).queue;
    var c2 := BeginClosing(c1);
    assert c2.state == c1.state.(status := DoorsClosing);
    var c3 := FinishClosing(c2);
    assert c3.state == c2.state.(status := Idle, doorOpen := false, direction := Stationary);
  }

  /** Opening finishes by dequeuing the current floor. */
  lemma OpeningDequeues(c: Controller)
    requires c.state.status == DoorsOpening
    ensures FinishOpening(c).state.queue == Without(c.state.queue, c.state.currentFloor)
  {
    assert FinishOpening(c).state.queue == ApplyClear(c.state, c.state.currentFloor).queue;
  }

  /** Floors left to travel on the current trip */
  function Distance(from: int, to: int): (r: nat) {
    if from <= to then to - from else from - to
  }

  /** +1 for a car moving up, -1 for one moving down */
  function Heading(s: ElevatorState): (r: int) {
    if s.status == MovingUp then 1 else -1
  }

  /** A trip: a moving car with its target d floors away advances one floor
      per step in its direction, keeps moving until the d-th step, and on that
      step starts opening its doors at the target and records the trip time
      as the clock at arrival minus the clock at departure. Nothing else
      changes on the way; so the car never leaves the floors between where it
      was and its target. */
  lemma {:induction false} Trip(c: Controller, clock: seq<int>)
    requires MoveEnabled(c.state) && MotionOk(c.state)
    requires |clock| <= Distance(c.state.currentFloor, c.state.targetFloor.value)
    ensures Run(c, clock).state.currentFloor == c.state.currentFloor + Heading(c.state) * |clock|
    ensures Distance(c.state.currentFloor, Run(c, clock).state.currentFloor) == |clock|
    ensures Distance(Run(c, clock).state.currentFloor, c.state.targetFloor.value)
         == Distance(c.state.currentFloor, c.state.targetFloor.value) - |clock|
    ensures |clock| < Distance(c.state.currentFloor, c.state.targetFloor.value) ==>
      Run(c, clock).state.status == c.state.status
      && Run(c, clock).tripStart == c.tripStart
      && Run(c, clock).state.lastTripTime == c.state.lastTripTime
    ensures |clock| == Distance(c.state.currentFloor, c.state.targetFloor.value) ==>
      Run(c, clock).state.status == DoorsOpening
      && Run(c, clock).state.currentFloor == c.state.targetFloor.value
      && Run(c, clock).tripStart == None
      && (c.tripStart.Some? ==> Run(c, clock).state.lastTripTime == Some(clock[|clock| - 1] - c.tripStart.value))
    ensures Run(c, clock).state.(currentFloor := c.state.currentFloor, status := c.state.status,
                                 lastTripTime := c.state.lastTripTime) == c.state
    decreases |clock|
  {
    if clock != [] {
      var c' := Step(c, clock[0]);
      StepMove(c, clock[0]);
      if |clock| == 1 {
        assert Run(c', clock[1..]) == c';
      } else {
        assert MoveEnabled(c'.state) && MotionOk(c'.state);
        Trip(c', clock[1..]);
        assert clock[1..][|clock[1..]| - 1] == clock[|clock| - 1];
      }
    }
  }

  /** Steps a car at `from` needs to serve a call at `to`: pick-up, the floors
      of travel, then doors opened, closing and closed. */
  function ServeTime(from: int, to: int): (r: nat) {
    Distance(from, to) + 4
  }

  /** The first part of serving the head of the queue: pick-up and travel.
      After them the car is opening its doors at the head floor, with the
      queue untouched and the head as target. */
  lemma ReachHead(c: Controller, clock: seq<int>)
    requires Inv(c) && PickupEnabled(c.state)
    requires |clock| == 1 + Distance(c.state.currentFloor, c.state.queue[0])
    ensures Inv(Run(c, clock))
    ensures Run(c, clock).state.status == DoorsOpening
    ensures Run(c, clock).state.currentFloor == c.state.queue[0]
    ensures Run(c, clock).state.queue == c.state.queue
    ensures Run(c, clock).state.targetFloor == Some(c.state.queue[0])
    ensures !Run(c, clock).state.isEmergency
  {
    var s := c.state;
    var d := Distance(s.currentFloor, s.queue[0]);
    var c1 := Step(c, clock[0]);
    StepPickup(c, clock[0]);
    assert Run(c, clock) == Run(c1, clock[1..]);
    if d > 0 {
      Trip(c1, clock[1..]);
    } else {
      assert Run(c1, clock[1..]) == c1;
    }
    RunInv(c, clock);
  }

  /** Serving the head of the queue: an idle car with calls queued and no
      emergency travels to the first call, opens, closes, and is idle again
      at that floor with the call dequeued, its indicator off, no target and
      no direction. */
  lemma ServeHead(c: Controller, clock: seq<int>)
    requires Inv(c) && PickupEnabled(c.state)
    requires |clock| == ServeTime(c.state.currentFloor, c.state.queue[0])
    ensures Inv(Run(c, clock))
    ensures Run(c, clock).state.status == Idle
    ensures Run(c, clock).state.currentFloor == c.state.queue[0]
    ensures Run(c, clock).state.queue == c.state.queue[1..]
    ensures !Flagged(Run(c, clock).state.floorRequests, c.state.queue[0])
    ensures Run(c, clock).state.targetFloor == None
    ensures !Run(c, clock).state.doorOpen && Run(c, clock).state.direction == Stationary
    ensures !Run(c, clock).state.isEmergency
  {
    var s := c.state;
    var head := s.queue[0];
    var k := 1 + Distance(s.currentFloor, head);
    ReachHead(c, clock[..k]);
    var c2 := Run(c, clock[..k]);
    assert clock == clock[..k] + clock[k..];
    RunAppend(c, clock[..k], clock[k..]);
    var r := Run(c2, clock[k..]);
    assert Run(c, clock) == r;
    DoorCycle(c2, clock[k..]);
    WithoutHead(s.queue);
    assert r.state.queue == s.queue[1..];
    RunInv(c, clock);
  }

  /** Steps needed to serve every queued call in order, starting from `from` */
  function DrainTime(from: int, q: seq<int>): (r: nat)
    decreases |q|
  {
    if q == [] then 0 else ServeTime(from, q[0]) + DrainTime(q[0], q[1..])
  }

  /** Draining the queue: left alone, an idle car with no emergency empties
      the queue in exactly `DrainTime` steps (each call served in turn from
      the head) and ends idle at the last call with every indicator off. */
  lemma {:induction false} Drain(c: Controller, clock: seq<int>)
    requires Inv(c) && c.state.status == Idle && !c.state.isEmergency
    requires |clock| == DrainTime(c.state.currentFloor, c.state.queue)
    ensures Inv(Run(c, clock))
    ensures Run(c, clock).state.status == Idle
    ensures Run(c, clock).state.queue == []
    ensures forall f :: !Flagged(Run(c, clock).state.floorRequests, f)
    ensures |c.state.queue| > 0 ==> Run(c, clock).state.currentFloor == c.state.queue[|c.state.queue| - 1]
    ensures c.state.queue == [] ==> Run(c, clock) == c
    decreases |c.state.queue|
  {
    var q := c.state.queue;
    if q != [] {
      var k := ServeTime(c.state.currentFloor, q[0]);
      ServeHead(c, clock[..k]);
      var c' := Run(c, clock[..k]);
      assert clock == clock[..k] + clock[k..];
      RunAppend(c, clock[..k], clock[k..]);
      Drain(c', clock[k..]);
      if |q| > 1 {
        assert c'.state.queue[|c'.state.queue| - 1] == q[|q| - 1];
      }
    }
  }

  /** Scenario: at floor 1, idle, a call for floor 5 puts 5 in the queue and
      as the target; one pick-up and four floors of travel later the car is
      opening its doors at floor 5 with the trip time measured from the
      pick-up. */
  lemma CallFromGround(t0: int, t1: int, t2: int, t3: int, t4: int)
    ensures UserRequest(Boot, 5).state.queue == [5]
    ensures UserRequest(Boot, 5).state.targetFloor == Some(5)
    ensures Run(UserRequest(Boot, 5), [t0, t1, t2, t3, t4]).state.currentFloor == 5
    ensures Run(UserRequest(Boot, 5), [t0, t1, t2, t3, t4]).state.status == DoorsOpening
    ensures Run(UserRequest(Boot, 5), [t0, t1, t2, t3, t4]).state.lastTripTime == Some(t4 - t0)
  {
    InitialConsistent();
    var c := UserRequest(Boot, 5);
    var c1 := Step(c, t0);
    StepPickup(c, t0);
    assert c1.state.status == MovingUp;
    var clock := [t0, t1, t2, t3, t4];
    RunStep(c, clock);
    Trip(c1, clock[1..]);
  }

  /** The door latch is not tied to the status: an emergency while the doors
      are open, released, followed by a call for another floor, sends the car
      moving with `doorOpen` still true. */
  lemma MovesWithDoorOpen(c: Controller, f: int, now: int)
    requires Inv(c) && c.state.status == DoorsOpen && c.state.queue == []
    requires f != c.state.currentFloor
    ensures var r := Execute(c, [Alarm(true), Alarm(false), Call(f), Tick(now)]);
      (r.state.status == MovingUp || r.state.status == MovingDown) && r.state.doorOpen
  {
    var c1 := UserEmergency(c, true);
    var c2 := UserEmergency(c1, false);
    var c3 := UserRequest(c2, f);
    assert c3.state.queue == [f] && c3.state.doorOpen;
    StepPickup(c3, now);
    var es := [Alarm(true), Alarm(false), Call(f), Tick(now)];
    ExecuteStep(c, es);
    ExecuteStep(c1, es[1..]);
    ExecuteStep(c2, es[2..]);
    ExecuteStep(c3, es[3..]);
  }

  /** With a single call queued, pick-up, the trip and one more step leave
      the car at that floor with its doors open and nothing queued. */
  lemma OpenAtOnlyCall(c: Controller, clock: seq<int>)
    requires Inv(c) && PickupEnabled(c.state) && |c.state.queue| == 1
    requires |clock| == 2 + Distance(c.state.currentFloor, c.state.queue[0])
    ensures var r := Run(c, clock);
      Inv(r) && r.state.status == DoorsOpen && r.state.doorOpen && r.state.queue == []
      && r.state.currentFloor == c.state.queue[0]
  {
    var n := |clock| - 1;
    var f := c.state.queue[0];
    ReachHead(c, clock[..n]);
    var c3 := Run(c, clock[..n]);
    WithoutHead(c3.state.queue);
    var c4 := FinishOpening(c3);
    assert c4.state.queue == [];
    RunLast(c, clock);
    StepOpening(c3, clock[n]);
    assert Run(c, clock) == c4;
    RunInv(c, clock);
  }

  /** Such a state is reached from start-up: a call for floor 2 and three
      steps leave the car at floor 2 with its doors open and nothing queued. */
  lemma OpenAtTwo(clock: seq<int>)
    requires |clock| == 3
    ensures var c := Run(UserRequest(Boot, 2), clock);
      Inv(c) && c.state.status == DoorsOpen && c.state.doorOpen && c.state.queue == []
      && c.state.currentFloor == 2
  {
    BootInv();
    var c1 := UserRequest(Boot, 2);
    assert c1.state.queue == [2] && c1.state.status == Idle && c1.state.currentFloor == 1;
    ApplyInv(Boot, Call(2));
    OpenAtOnlyCall(c1, clock);
  }

  /** Executing a non-empty list of events is applying the first one, then the rest. */
  lemma ExecuteStep(c: Controller, es: seq<Event>)
    requires |es| > 0
    ensures Execute(c, es) == Execute(Apply(c, es[0]), es[1..])
  {
  }

  /** An emergency in mid-trip, released, leaves the car idle with the
      `'up'` direction still shown and the unserved call still queued and lit. */
  lemma IdleFacingUp()
    ensures var c := Execute(Boot, [Call(3), Tick(0), Alarm(true), Alarm(false)]);
      c.state.status == Idle && c.state.direction == Up
      && c.state.queue == [3] && Flagged(c.state.floorRequests, 3)
  {
    var c1 := UserRequest(Boot, 3);
    assert c1.state.queue == [3] && c1.state.status == Idle;
    var c2 := Pickup(c1, 0);
    StepPickup(c1, 0);
    assert c2.state.status == MovingUp && c2.state.direction == Up;
    var c3 := UserEmergency(c2, true);
    var c4 := UserEmergency(c3, false);
    assert Flagged(c4.state.floorRequests, 3);
    var es := [Call(3), Tick(0), Alarm(true), Alarm(false)];
    ExecuteStep(Boot, es);
    ExecuteStep(c1, es[1..]);
    ExecuteStep(c2, es[2..]);
    ExecuteStep(c3, es[3..]);
  }

  /** An emergency stop holds the car where it is for any number of steps. */
  lemma {:induction false} EmergencyHolds(c: Controller, clock: seq<int>)
    requires c.state.status == EmergencyStop
    ensures Run(c, clock) == c
    decreases |clock|
  {
    if clock != [] {
      EmergencyHolds(Step(c, clock[0]), clock[1..]);
    }
  }
}
