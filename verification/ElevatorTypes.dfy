/**
 * The shared vocabulary of the elevator controller: floor numbers, the travel
 * direction, the seven car statuses with their string tags, and the state record.
 */
module ElevatorTypes {
  import opened Wrappers

  /** The building the controller is written for has floors 1 through 100.
      A floor number is a plain number in the program, so these bounds are not
      part of any type: they appear as preconditions where they matter. */
  const MinFloor: int := 1
  const MaxFloor: int := 100

  predicate IsFloor(f: int) {
    MinFloor <= f <= MaxFloor
  }

  /** Travel direction shown on the display. `Stationary` is the program's `'idle'` direction. */
  datatype Direction = Up | Down | Stationary

  /** The car's physical phase. `EmergencyStop` is the program's `'Emergency Stop'` status. */
  datatype Status =
    | Idle
    | MovingUp
    | MovingDown
    | DoorsOpening
    | DoorsClosing
    | DoorsOpen
    | EmergencyStop

  /** The string each direction carries in the program */
  function DirectionTag(d: Direction): (r: string) {
    match d
    case Up => "up"
    case Down => "down"
    case Stationary => "idle"
  }

  /** The string each status carries in the program; note the emergency tag is
      not kebab-case like the others. */
  function StatusTag(st: Status): (r: string) {
    match st
    case Idle => "idle"
    case MovingUp => "moving-up"
    case MovingDown => "moving-down"
    case DoorsOpening => "doors-opening"
    case DoorsClosing => "doors-closing"
    case DoorsOpen => "doors-open"
    case EmergencyStop => "Emergency Stop"
  }

  /** Reads a direction back from its tag; any other string is not a direction. */
  function ParseDirection(t: string): (r: Option<Direction>)
    ensures r.Some? ==> DirectionTag(r.value) == t
  {
    if t == "up" then Some(Up)
    else if t == "down" then Some(Down)
    else if t == "idle" then Some(Stationary)
    else None
  }

  /** Reads a status back from its tag; any other string is not a status. */
  function ParseStatus(t: string): (r: Option<Status>)
    ensures r.Some? ==> StatusTag(r.value) == t
  {
    if t == "idle" then Some(Idle)
    else if t == "moving-up" then Some(MovingUp)
    else if t == "moving-down" then Some(MovingDown)
    else if t == "doors-opening" then Some(DoorsOpening)
    else if t == "doors-closing" then Some(DoorsClosing)
    else if t == "doors-open" then Some(DoorsOpen)
    else if t == "Emergency Stop" then Some(EmergencyStop)
    else None
  }

  /** Every status, once each */
  const AllStatuses: seq<Status> :=
    [Idle, MovingUp, MovingDown, DoorsOpening, DoorsClosing, DoorsOpen, EmergencyStop]

  /** Every direction, once each */
  const AllDirections: seq<Direction> := [Up, Down, Stationary]

  /** The status union has exactly seven members with seven distinct tags, and
      each tag reads back to its own status. */
  lemma StatusTagsRoundTrip()
    ensures |AllStatuses| == 7
    ensures forall st: Status :: st in AllStatuses
    ensures forall a: Status, b: Status :: StatusTag(a) == StatusTag(b) ==> a == b
    ensures forall st: Status :: ParseStatus(StatusTag(st)) == Some(st)
    ensures StatusTag(EmergencyStop) == "Emergency Stop"
    ensures ParseStatus("emergency-stop") == None
  {
    forall st: Status ensures st in AllStatuses && ParseStatus(StatusTag(st)) == Some(st) {
      match st
      case Idle =>
      case MovingUp =>
      case MovingDown =>
      case DoorsOpening =>
      case DoorsClosing =>
      case DoorsOpen =>
      case EmergencyStop =>
    }
  }

  /** The direction union has exactly three members, `up`, `down` and `idle`. */
  lemma DirectionTagsRoundTrip()
    ensures |AllDirections| == 3
    ensures forall d: Direction :: d in AllDirections
    ensures forall d: Direction :: ParseDirection(DirectionTag(d)) == Some(d)
    ensures forall t :: ParseDirection(t).Some? <==> t in {"up", "down", "idle"}
  {
    forall d: Direction ensures d in AllDirections {
      match d
      case Up =>
      case Down =>
      case Stationary =>
    }
  }

  /**
   * The controller's whole state. `floorRequests` is the program's
   * number-keyed record of booleans; a key that is absent reads as false.
   */
  datatype ElevatorState = ElevatorState(
    currentFloor: int,
    targetFloor: Option<int>,
    status: Status,
    direction: Direction,
    doorOpen: bool,
    queue: seq<int>,
    lastTripTime: Option<int>,
    floorRequests: map<int, bool>,
    isEmergency: bool,
    isMoving: bool)

  /** Whether floor `f` shows an active call: a missing key is falsy. */
  predicate Flagged(requests: map<int, bool>, f: int) {
    f in requests && requests[f]
  }
}
