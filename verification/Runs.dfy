/** Runs of consecutive dispatch steps with no command in between, and which
    branch a single step takes. */
module Runs {
  import opened ElevatorTypes
  import opened Dispatch
  import opened Safety

  /** Consecutive dispatch steps, the i-th at clock time `clock[i]`, with no command in between */
  function Run(c: Controller, clock: seq<int>): (r: Controller)
    decreases |clock|
  {
    if clock == [] then c else Run(Step(c, clock[0]), clock[1..])
  }

  /** Running two stretches of steps is running their concatenation. */
  lemma {:induction false} RunAppend(c: Controller, a: seq<int>, b: seq<int>)
    ensures Run(c, a + b) == Run(Run(c, a), b)
    decreases |a|
  {
    if a != [] {
      assert (a + b)[1..] == a[1..] + b;
      RunAppend(Step(c, a[0]), a[1..], b);
    } else {
      assert a + b == b;
    }
  }

  /** The last tick of a run is one step after all the others. */
  lemma RunLast(c: Controller, clock: seq<int>)
    requires |clock| > 0
    ensures Run(c, clock) == Step(Run(c, clock[..|clock| - 1]), clock[|clock| - 1])
  {
    var n := |clock| - 1;
    assert clock == clock[..n] + clock[n..];
    RunAppend(c, clock[..n], clock[n..]);
    RunStep(Run(c, clock[..n]), clock[n..]);
  }

  /** Running steps from a non-empty clock is one step, then the rest. */
  lemma RunStep(c: Controller, clock: seq<int>)
    requires |clock| > 0
    ensures Run(c, clock) == Run(Step(c, clock[0]), clock[1..])
  {
  }

  // Which branch a step takes, by status

  lemma StepPickup(c: Controller, now: int)
    requires PickupEnabled(c.state)
    ensures Step(c, now) == Pickup(c, now)
  {
  }

  lemma StepMove(c: Controller, now: int)
    requires MoveEnabled(c.state)
    ensures Step(c, now) == Move(c, now)
  {
  }

  lemma StepOpening(c: Controller, now: int)
    requires c.state.status == DoorsOpening
    ensures Step(c, now) == FinishOpening(c)
  {
  }

  lemma StepOpen(c: Controller, now: int)
    requires c.state.status == DoorsOpen
    ensures Step(c, now) == BeginClosing(c)
  {
  }

  lemma StepClosing(c: Controller, now: int)
    requires c.state.status == DoorsClosing
    ensures Step(c, now) == FinishClosing(c)
  {
  }

  /** Runs of steps keep the invariant. */
  lemma {:induction false} RunInv(c: Controller, clock: seq<int>)
    requires Inv(c)
    ensures Inv(Run(c, clock))
    ensures InRange(c.state) ==> InRange(Run(c, clock).state)
    decreases |clock|
  {
    if clock != [] {
      StepInv(c, clock[0]);
      RunInv(Step(c, clock[0]), clock[1..]);
    }
  }
}
