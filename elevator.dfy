/**
 * The controller: the module-level state of the main program and the owned
 * order queue, with one method per piece of the main loop. Each method is
 * proved to change the state exactly as the matching function of module
 * ElevatorSpec says, and `Tick` as `ElevatorSpec.Step` says.
 */
module Elevator {
  import opened Hardware
  import opened Queue
  import opened ElevatorSpec

  class Controller {
    const floors: nat
    const queue: OrderQueue
    var state: State
    var floor: nat
    var direction: Movement
    // Last commands sent to the motor, the door and the stop lamp.
    var motor: Movement
    var doorOpen: bool
    var stopLamp: bool
    // How many times the door timer has been started.
    var timerStarts: nat

    ghost predicate Valid()
      reads this
    {
      floors > 0 && queue.Valid() && queue.floors == floors && floor < floors
    }

    /** The controller's state as a value. */
    ghost function Snapshot(): (s: Status)
      reads this, queue.orderUp, queue.orderDown
      requires Valid()
      ensures Fits(s) && Floors(s) == floors
    {
      Status(state, floor, direction, queue.Model(), motor, doorOpen, stopLamp, timerStarts)
    }

    /**
     * Program start and go_to_first_floor: drive down until the floor-0
     * sensor fires, then stop at floor 0 in standby, heading down. The
     * sensor's successive readings are `floorZero`; homing ends only if one
     * of them fires.
     */
    constructor (n: nat, floorZero: seq<bool>)
      requires n > 0
      requires true in floorZero
      ensures Valid() && floors == n
      ensures fresh(queue) && fresh(queue.orderUp) && fresh(queue.orderDown)
      ensures Snapshot() == Homed(n)
    {
      floors := n;
      queue := new OrderQueue(n);
      motor := MoveStop;
      var k := 0;
      while !floorZero[k]
        invariant 0 <= k < |floorZero|
        invariant true in floorZero[k..]
        decreases |floorZero| - k
      {
        motor := MoveDown;
        k := k + 1;
      }
      motor := MoveStop;
      floor := 0;
      state := Standby;
      direction := MoveDown;
      doorOpen := false;
      stopLamp := false;
      timerStarts := 0;
    }

    /** poll_order: record every call whose button reads pressed. */
    method PollOrder(b: Buttons)
      requires Valid() && ButtonsFit(b, floors)
      modifies queue.orderUp, queue.orderDown
      ensures queue.Model() == Polled(old(queue.Model()), b)
    {
      ghost var q0 := queue.Model();
      var f := 0;
      while f < floors
        invariant 0 <= f <= floors
        invariant queue.Model() == PollFloors(q0, b, f)
      {
        var k := 0;
        while k < |OrderTypes|
          invariant 0 <= k <= |OrderTypes|
          invariant queue.Model() == PollFloor(PollFloors(q0, b, f), b, f, k)
        {
          if Pressed(b, f, OrderTypes[k]) {
            queue.SetOrder(f, OrderTypes[k]);
          }
          k := k + 1;
        }
        f := f + 1;
      }
    }

    /** emergency_stop: on a pressed stop button, stop and enter the emergency state. */
    method EmergencyStop(stop: bool) returns (stopped: bool)
      requires Valid()
      modifies this
      ensures Valid() && stopped == stop
      ensures Snapshot() == if stop then Halted(old(Snapshot())) else old(Snapshot())
    {
      if stop {
        motor := MoveStop;
        stopLamp := true;
        state := Emergency;
        return true;
      }
      return false;
    }

    /**
     * The standby case of the main loop after the poll and the stop check.
     * The source calls the range queries without an argument; they are
     * asked here about the current floor.
     */
    method StandbyTick()
      requires Valid()
      modifies this
      ensures Valid() && Snapshot() == StandbyStep(old(Snapshot()))
    {
      if direction == MoveUp {
        var above := queue.OrderAbove(floor);
        if above {
          motor := MoveUp;
          state := Driving;
          return;
        }
        var below := queue.OrderBelow(floor);
        if below {
          motor := MoveDown;
          direction := MoveDown;
          state := Driving;
          return;
        }
      }
      if direction == MoveDown {
        var below := queue.OrderBelow(floor);
        if below {
          motor := MoveDown;
          state := Driving;
          return;
        }
        var above := queue.OrderAbove(floor);
        if above {
          motor := MoveUp;
          direction := MoveUp;
          state := Driving;
          return;
        }
      }
    }

    /** Stop at floor `i`, the block both driving scans run on a match. */
    method Arrive(i: nat)
      requires Valid() && i < floors
      modifies this, queue.orderUp, queue.orderDown
      ensures Valid() && Snapshot() == Arrived(old(Snapshot()), i)
    {
      motor := MoveStop;
      queue.DeleteElement(i);
      doorOpen := true;
      timerStarts := timerStarts + 1;
      floor := i;
      state := OpenDoor;
    }

    /**
     * The driving case of the main loop after the poll and the stop check:
     * scan upwards from the current floor when heading up, then downwards
     * when heading down, and stop at the first floor that has an order in
     * the travel direction and whose sensor is asserted.
     *
     * Two deviations from the text of the source, which does not compile as
     * written: the direction test of the upward scan is a comparison (the
     * source assigns, which would force the direction to up), and the
     * downward scan runs while the index is at least 0 (the source's bound
     * `i <= 0` would run it forever into negative indices). The current
     * floor changes only on a stop; passing a floor does not update it.
     */
    method DrivingTick(sensors: seq<bool>)
      requires Valid() && |sensors| == floors
      modifies this, queue.orderUp, queue.orderDown
      ensures Valid() && Snapshot() == DrivingStep(old(Snapshot()), sensors)
    {
      ghost var s0 := Snapshot();
      var i := floor;
      while i < floors
        invariant s0.floor <= i <= floors
        invariant Valid() && Snapshot() == s0
        invariant s0.direction == MoveUp ==> ScanUp(s0.orders, sensors, s0.floor) == ScanUp(s0.orders, sensors, i)
      {
        if direction == MoveUp {
          var here := queue.OrderAt(i, MoveUp);
          if here && sensors[i] {
            Arrive(i);
            break;
          }
        }
        i := i + 1;
      }
      ghost var s1 := Snapshot();
      assert s0.direction == MoveUp ==> s1 == DrivingStep(s0, sensors);
      assert s0.direction != MoveUp ==> s1 == s0;
      var j: int := floor;
      while j >= 0
        invariant -1 <= j <= floor
        invariant Valid() && Snapshot() == s1
        invariant s0.direction == MoveDown ==> ScanDown(s0.orders, sensors, s0.floor) == ScanDown(s0.orders, sensors, j)
      {
        if direction == MoveDown {
          var here := queue.OrderAt(j, MoveDown);
          if here && sensors[j] {
            Arrive(j);
            break;
          }
        }
        j := j - 1;
      }
    }

    /** The open-door case of the main loop after the poll and the stop check. */
    method OpenDoorTick(obstruction: bool, timerLessThan3: bool)
      requires Valid()
      modifies this
      ensures Valid() && Snapshot() == OpenDoorStep(old(Snapshot()), obstruction, timerLessThan3)
    {
      if obstruction {
        timerStarts := timerStarts + 1;
        return;
      }
      if timerLessThan3 {
        doorOpen := false;
        state := Standby;
        return;
      }
    }

    /** The emergency case of the main loop. */
    method EmergencyTick(stop: bool)
      requires Valid()
      modifies this, queue.orderUp, queue.orderDown
      ensures Valid() && Snapshot() == EmergencyStep(old(Snapshot()), stop)
    {
      queue.DeleteAll();
      if !stop {
        state := Standby;
        stopLamp := false;
      }
    }

    /** One iteration of the main loop, dispatched on the current state. */
    method Tick(inp: Inputs)
      requires Valid() && InputsFit(inp, floors)
      modifies this, queue.orderUp, queue.orderDown
      ensures Valid() && Snapshot() == Step(old(Snapshot()), inp)
    {
      match state
      case Standby =>
        PollOrder(inp.buttons);
        var stopped := EmergencyStop(inp.stop);
        if !stopped {
          StandbyTick();
        }
      case Driving =>
        PollOrder(inp.buttons);
        var stopped := EmergencyStop(inp.stop);
        if !stopped {
          DrivingTick(inp.floorSensors);
        }
      case OpenDoor =>
        PollOrder(inp.buttons);
        var stopped := EmergencyStop(inp.stop);
        if !stopped {
          OpenDoorTick(inp.obstruction, inp.timerLessThan3);
        }
      case Emergency =>
        EmergencyTick(inp.stop);
    }
  }
}
