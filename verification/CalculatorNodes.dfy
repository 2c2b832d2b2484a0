/** The node object: each method is one region that the node's lock protects. */
module CalculatorNodes {
  import opened NodeScheduling

  class CalculatorNode {
    var status: NodeStatus
    var schedulingState: SchedulingState
    var currentInFlight: int
    const maxInFlight: nat

    ghost function State(): Gate
      reads this
    {
      Gate(status, schedulingState, currentInFlight, maxInFlight)
    }

    /** A configured limit of 0 means 1. */
    constructor (configured: nat)
      ensures State() == Gate(Unopened, Idle, 0, if configured == 0 then 1 else configured)
    {
      maxInFlight := if configured == 0 then 1 else configured;
      status, schedulingState, currentInFlight := Unopened, Idle, 0;
    }

    method CheckIfBecameReady() returns (enterLoop: bool)
      modifies this
      ensures Passage(State(), enterLoop) == NodeScheduling.CheckIfBecameReady(old(State()))
    {
      if status != Opened {
        return false;
      }
      if schedulingState == Idle && currentInFlight < maxInFlight {
        schedulingState := Scheduling;
      } else {
        if schedulingState == Scheduling {
          schedulingState := SchedulingPending;
        }
        return false;
      }
      return true;
    }

    /** The count stays non-negative as long as only begun invocations end. */
    method EndScheduling() returns (enterLoop: bool)
      requires status == Opened || status == Active ==> currentInFlight > 0
      modifies this
      ensures Passage(State(), enterLoop) == NodeScheduling.EndScheduling(old(State()))
    {
      if status != Opened && status != Active {
        return false;
      }
      currentInFlight := currentInFlight - 1;
      assert currentInFlight >= 0;
      if schedulingState == Scheduling {
        schedulingState := SchedulingPending;
        return false;
      } else if schedulingState == SchedulingPending {
        return false;
      }
      schedulingState := Scheduling;
      return true;
    }

    method EnterSchedulingLoop() returns (proceed: bool, maxAllowance: int)
      modifies this
      ensures Passage(State(), proceed) == EnterLoop(old(State()))
      ensures proceed ==> maxAllowance == maxInFlight - currentInFlight
    {
      maxAllowance := 0;
      if status == Closed {
        schedulingState := Idle;
        return false, maxAllowance;
      }
      maxAllowance := maxInFlight - currentInFlight;
      proceed := true;
    }

    method EndSchedulingIteration() returns (again: bool, maxAllowance: int)
      modifies this
      ensures Passage(State(), again) == EndIteration(old(State()))
      ensures again ==> maxAllowance == maxInFlight - currentInFlight
    {
      maxAllowance := 0;
      if schedulingState == SchedulingPending && currentInFlight < maxInFlight {
        maxAllowance := maxInFlight - currentInFlight;
        schedulingState := Scheduling;
        again := true;
      } else {
        schedulingState := Idle;
        again := false;
      }
    }

    method TryToBeginScheduling() returns (begun: bool)
      modifies this
      ensures Passage(State(), begun) == NodeScheduling.TryToBeginScheduling(old(State()))
    {
      if currentInFlight < maxInFlight {
        currentInFlight := currentInFlight + 1;
        return true;
      }
      return false;
    }
  }
}
