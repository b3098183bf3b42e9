# Single-car elevator controller, modelled in Dafny

The program simulates one elevator car in a 100-floor building. Its core is a
state store and a dispatch loop:

- the **reducer** `elevatorReducer` turns the controller state and one action
  (`REQUEST_ELEVATOR`, the field setters, `CLEAR_FLOOR_REQUEST`,
  `RESET_SYSTEM`, `SET_EMERGENCY`) into the next state;
- the **dispatch effect** looks at the current state and picks up the head of
  the call queue at once, or, after a fixed delay, moves the car one floor or
  advances the door cycle (opening, open, closing, idle);
- the **building view** keeps a window of ten floors on screen, scrolls it
  five floors at a time, and follows the car.

This project models all three. The state is an immutable record
(`ElevatorTypes.ElevatorState`), the reducer is the pure function
`ElevatorReducer.Reduce`, and each dispatch branch is one atomic step
(`Dispatch.Step`): the reducer actions that branch dispatches, composed in
dispatch order, with every condition read from the snapshot the step starts
from. The effect's clean-up cancels the pending timer whenever the state
changes, so a step always applies to the current snapshot; commands (a call,
the emergency switch, a reset) and steps therefore interleave as a plain
sequential transition system (`Safety.Execute`).

The wall clock is a parameter `now` of each step. The trip-start timestamp,
which the program keeps in a reference outside the reducer, sits beside the
state in `Dispatch.Controller`; like the program, a reset does not clear it.

Main results:

- every reachable state keeps the call indicators equal to queue membership,
  the queue free of duplicates, a moving car's target strictly ahead of it in
  its direction, the emergency latch equal to the `'Emergency Stop'` status,
  and, when every call is for a floor in 1..100, the car within 1..100
  (`Safety.ExecuteInv`, `Safety.Reachable`);
- a trip of d floors takes d steps, ends opening the doors at the target and
  records the trip time (`Trips.Trip`); an idle car serves the head of the
  queue in |head − floor| + 4 steps (`Trips.ServeHead`) and, left alone,
  empties the queue call by call from the head (`Trips.Drain`);
- two behaviours of the program are shown reachable: the car can set off
  with `doorOpen` still true (`Trips.MovesWithDoorOpen`, from a doors-open
  state with nothing queued, which `Trips.OpenAtTwo` reaches from start-up),
  and it can be idle
  with the `'up'` direction still shown (`Trips.IdleFacingUp`). Both come
  from `SET_EMERGENCY` leaving the door and the direction as they were.

Some behaviours of the code that a reader might not expect, and that the
model keeps:

- the reducer accepts calls during an emergency; only the `requestElevator`
  wrapper refuses them (`Dispatch.UserRequest`);
- an emergency clears only the target, not the queue, so calls stay queued
  and lit and are served once the emergency is released;
- neither the direction nor the door flag is tied to the status: the two
  traces above show a car moving with `doorOpen` true and an idle car showing
  `'up'`;
- floor numbers are plain numbers in the code, so the range 1..100 is a
  precondition of the range results, not a property of a type.

## Model

| member | source | states |
|---|---|---|
| ElevatorTypes.StatusTagsRoundTrip | src/types/elevator.ts:5-12 | there are exactly seven statuses with seven distinct tags, each tag reads back to its status, and the emergency tag is `'Emergency Stop'`, not a kebab-case tag |
| ElevatorTypes.DirectionTagsRoundTrip | src/types/elevator.ts:3 | there are exactly three directions, tagged `up`, `down` and `idle`, and each tag reads back to its direction |
| ElevatorTypes.ParseStatus | src/types/elevator.ts:5-12 | a string read as a status is that status's tag |
| ElevatorTypes.ParseDirection | src/types/elevator.ts:3 | a string read as a direction is that direction's tag |
| FloorQueue.Without | src/context/ElevatorContext.tsx:97 | filtering floor f out of the queue keeps exactly the other floors, never lengthens it, and keeps a duplicate-free queue duplicate-free |
| FloorQueue.WithoutAppend | src/context/ElevatorContext.tsx:97 | filtering a concatenation is concatenating the filtered parts, so the remaining floors keep their call order |
| FloorQueue.WithoutSplit | src/context/ElevatorContext.tsx:97 | in a duplicate-free queue, filtering out the floor at position i gives the floors before it followed by the floors after it, in order |
| FloorQueue.WithoutAbsent | src/context/ElevatorContext.tsx:97 | filtering out a floor that is not queued leaves the queue as it was |
| FloorQueue.WithoutHead | src/context/ElevatorContext.tsx:97 | in a duplicate-free queue, filtering out the head is dequeuing it |
| ElevatorReducer.ApplyRequest | src/context/ElevatorContext.tsx:38-56 | a call for the car's floor while idle or doors-open, for a queued floor, or for the target returns the state unchanged; otherwise the floor is appended at the end of the queue and flagged, the target is set only when there was none, nothing else changes, and the indicator/queue agreement and duplicate-freedom are kept |
| ElevatorReducer.ApplyClear | src/context/ElevatorContext.tsx:94-102 | clearing floor f filters it out of the queue (the other floors in their order) and lowers its indicator, leaves every other floor's membership and indicator, and keeps agreement and duplicate-freedom |
| ElevatorReducer.ApplyEmergency | src/context/ElevatorContext.tsx:107-114 | the emergency switch sets the latch, clears `isMoving`, sets `'Emergency Stop'` or idle, drops the target, and leaves queue, indicators, floor, door and direction untouched |
| ElevatorReducer.Reduce | src/context/ElevatorContext.tsx:36-119 | every action keeps the indicators equal to queue membership and the queue duplicate-free; only request, clear and reset touch the queue; only emergency and reset touch `isMoving` and the latch |
| ElevatorReducer.InitialConsistent | src/context/ElevatorContext.tsx:11-22 | the initial state has every floor 1..100 with its indicator off, an empty queue, and indicators that agree with it |
| ElevatorReducer.ResetIsInitial | src/context/ElevatorContext.tsx:104-105 | a reset from any state yields exactly the initial state: floor 1, idle, no direction, empty queue, no target, no trip time, not moving, no emergency, door closed, every indicator off; resetting twice is resetting once |
| ElevatorReducer.RequestIdempotent | src/context/ElevatorContext.tsx:44-46 | requesting a floor twice in a row equals requesting it once |
| ElevatorReducer.RequestQueuesOnce | src/context/ElevatorContext.tsx:39-56 | after a call for a floor that is neither the target nor the floor the car stands at, the floor is queued, and the queue has no duplicates |
| Dispatch.UserRequest | src/context/ElevatorContext.tsx:127-131 | a call is ignored while the emergency latch is on and is handed to the reducer otherwise |
| Dispatch.UserReset | src/context/ElevatorContext.tsx:133-135 | a reset gives exactly the initial state (floor 1, idle, no direction, empty queue, no target, no trip time, not moving, no emergency, door closed, all indicators off) and keeps the trip-start timestamp |
| Dispatch.UserEmergency | src/context/ElevatorContext.tsx:137-139 | the emergency switch acts exactly as the reducer's `SET_EMERGENCY`: `'Emergency Stop'` or idle with no target, not moving, and keeps queue, indicators, floor, door, direction, trip time and the trip-start timestamp |
| Dispatch.Pickup | src/context/ElevatorContext.tsx:145-160 | pick-up makes the queue head the target and moves up, moves down or opens the doors exactly as the head is above, below or at the car; the direction follows the movement and is untouched when opening; the trip clock starts; nothing else changes |
| Dispatch.Move | src/context/ElevatorContext.tsx:163-181 | one movement step changes the floor by exactly one in the status's direction and switches to doors-opening exactly when the new floor is the target, then recording the trip time and clearing the trip start; nothing else changes |
| Dispatch.FinishOpening | src/context/ElevatorContext.tsx:183-193 | doors-opening becomes doors-open with the door open, the car's floor filtered out of the queue (the other calls in their order) and unflagged, other floors' indicators untouched, and the target dropped exactly when it is the car's floor |
| Dispatch.BeginClosing | src/context/ElevatorContext.tsx:195-199 | doors-open becomes doors-closing and nothing else changes |
| Dispatch.FinishClosing | src/context/ElevatorContext.tsx:201-207 | doors-closing becomes idle with the door closed and no direction; nothing else changes |
| Dispatch.Step | src/context/ElevatorContext.tsx:141-211 | a step changes the state exactly when some dispatch branch is enabled, does nothing in `'Emergency Stop'`, and never touches the latch or `isMoving` |
| Safety.Apply | src/context/ElevatorContext.tsx:126-211 | a call can only append its own floor to the queue; only a dispatch step touches the trip-start timestamp; the alarm sets the latch; a restart yields the initial state; a step never changes the latch |
| Safety.Execute | src/context/ElevatorContext.tsx:126-211 | applying events in order: with only calls and steps the emergency latch keeps its value |
| Safety.BootInv | src/context/ElevatorContext.tsx:11-22 | the start-up state satisfies the invariant and lies within the building |
| Safety.StepInv | src/context/ElevatorContext.tsx:141-211 | every dispatch step keeps the invariant and keeps car, target and queue within 1..100 |
| Safety.ApplyInv | src/context/ElevatorContext.tsx:127-211 | every command and step keeps the invariant; a call within 1..100 also keeps everything within the building |
| Safety.ExecuteInv | src/context/ElevatorContext.tsx:36-218 | any interleaving of commands and steps whose calls lie in 1..100 keeps the invariant and the range |
| Safety.Reachable | src/context/ElevatorContext.tsx:11-218 | every state reachable from start-up with calls in 1..100 satisfies the invariant, and the car stays on floors 1..100 |
| Safety.EmergencyFreezes | src/context/ElevatorContext.tsx:127-131 | while the latch is on, calls and dispatch steps change nothing |
| Runs.RunInv | src/context/ElevatorContext.tsx:141-218 | any run of dispatch steps keeps the invariant and the range |
| Trips.DoorCycle | src/context/ElevatorContext.tsx:183-207 | three steps from doors-opening leave the car idle, door closed, no direction, at the same floor, with that floor dequeued and unflagged and a target at that floor dropped |
| Trips.Trip | src/context/ElevatorContext.tsx:163-181 | a moving car d floors from its target advances one floor per step towards it, so it never leaves the floors between its start and the target, keeps its status until the d-th step, then starts opening its doors at the target with trip time = arrival clock − start clock; nothing else changes on the way |
| Trips.ReachHead | src/context/ElevatorContext.tsx:145-181 | from idle with calls queued, pick-up plus one step per floor between car and head bring the car to the head floor opening its doors, queue untouched |
| Trips.ServeHead | src/context/ElevatorContext.tsx:145-207 | from idle with calls queued, one step per floor between car and head plus four serve the head: idle again at that floor with it dequeued and unflagged, no target, door closed, no direction |
| Trips.Drain | src/context/ElevatorContext.tsx:141-211 | left alone, an idle car with no emergency empties the queue in exactly the steps needed to serve each call in turn from the head, and ends idle at the last call with every indicator off |
| Trips.CallFromGround | src/context/ElevatorContext.tsx:127-181 | from start-up, a call for floor 5 queues and targets it; five steps later the car starts opening its doors at floor 5 with the trip time measured from the pick-up |
| Trips.OpeningDequeues | src/context/ElevatorContext.tsx:183-191 | finishing the opening removes exactly the current floor from the queue |
| Trips.OpenAtOnlyCall | src/context/ElevatorContext.tsx:145-191 | with one call queued, pick-up, the trip and one more step leave the car at that floor with doors open, the queue empty and the invariant kept |
| Trips.OpenAtTwo | src/context/ElevatorContext.tsx:127-191 | from start-up, a call for floor 2 and three steps reach a state with the car at floor 2, doors open, nothing queued |
| Trips.MovesWithDoorOpen | src/context/ElevatorContext.tsx:107-114 | from any reachable state with doors open and nothing queued, an emergency, its release and a call for another floor followed by one step leave the car moving with `doorOpen` still true |
| Trips.IdleFacingUp | src/context/ElevatorContext.tsx:107-114 | an emergency mid-trip, released, leaves the car idle showing direction `up` with the call still queued and lit |
| Trips.EmergencyHolds | src/context/ElevatorContext.tsx:163-207 | in `'Emergency Stop'` any number of dispatch steps change nothing |
| Building.ScrollUp | src/components/Building.tsx:23-25 | scrolling up gives a start of at least 1, five lower unless clamped to 1, never above the old start, and keeps a valid start valid |
| Building.ScrollDown | src/components/Building.tsx:27-29 | scrolling down gives a start of at most 91, five higher unless clamped to 91, never below the old start, and keeps a valid start valid |
| Building.ScrollRoundTrip | src/components/Building.tsx:23-29 | for starts 6..86 scrolling up then down, or down then up, returns to the same start |
| Building.IsElevatorVisible | src/components/Building.tsx:37-38 | a floor counted visible in a window with a valid start is a floor of the building |
| Building.AutoScroll | src/components/Building.tsx:15-21 | a visible car leaves the window alone; for a car on 1..100 below the window the window starts at the car, above it the window ends at the car; either way the visibility test then holds, and a valid start stays valid |
| Building.AutoScrollIdempotent | src/components/Building.tsx:16-21 | for any car floor and window start, adjusting the window twice equals adjusting it once |
| Building.FloorList | src/components/Building.tsx:31-34 | the listed floors are ten ascending consecutive numbers from 92 − start to 101 − start, all within 1..100 for a start in 1..91 |
| Building.FloorListMissesCar | src/components/Building.tsx:31-38 | at start-up the car on floor 1 counts as visible while the listed floors are 91..100 |
| Building.IntendedFloorList | src/components/Building.tsx:81 | the window's floors run start, start + 1, …, start + 9 |
| Building.IntendedListMatchesWindow | src/components/Building.tsx:81 | the intended list starts and ends where the caption says, contains a floor exactly when the visibility test holds for it, and always contains the car's floor after the auto-scroll |
| Building.CarOffset | src/components/Building.tsx:36 | the car offset is non-negative exactly for floors up to 100, zero exactly at floor 100, and a multiple of 6 |
| Building.CarOffsetDecreasing | src/components/Building.tsx:36 | a higher floor has an offset smaller by 6 per floor |

## Left out

- The timer delays (500 ms per floor, 1000 ms opening, 2000 ms open, 1000 ms closing): each timer callback is one step, and time enters only as the `now` parameter of a step.
- `Date.now()`: replaced by the `now` parameter; the trip time is the difference of two such values.
- React effect re-runs, timer cancellation and batching: the clean-up cancels the pending timer on every state change, so each step is applied atomically to the current snapshot.
- The context plumbing (`createContext`, the provider's rendering, the error thrown by `useElevatorContext` outside a provider): no logic.
- The reducer's `default` branch: unreachable, because `Action` is a closed datatype.
- Floor numbers are JavaScript numbers; the model uses integers, so fractional floors and `NaN` are not modelled, and the record keys of `floorRequests` (strings in JavaScript) become integer map keys.
- src/components/StatusPanel.tsx, src/components/Elevator.tsx, src/components/EmergencyButton.tsx, src/App.tsx: rendering only; the trip-time formatting uses floating-point division.
- src/components/Floor.tsx: rendering; its call-button `disabled` test resembles the reducer's guard but checks `doorOpen` instead of the status and does not check the target.
- The building view's React state and the caption and button rendering: the window logic is modelled as pure functions of the car's floor and the window start.

## Findings

| source | as written | input that shows it | evidently intended | confidence | as-written member | corrected member |
|---|---|---|---|---|---|---|
| src/components/Building.tsx:31-34 | the listed floors are `100 - (start + i - 1)` reversed, i.e. 92 − start .. 101 − start | start 1 with the car on floor 1: the car counts as visible and the caption reads "1 to 10", but floors 91..100 are listed | the ten floors start .. start + 9, as the caption on line 81 and the visibility test on lines 37-38 say | medium, not executed | Building.FloorListMissesCar | Building.IntendedListMatchesWindow |
