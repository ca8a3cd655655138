# Elevator controller: order queue and control loop

This project models the control logic of a single-cabin elevator in Dafny.
It covers two parts of the C program and proves properties of both.

- **The order queue** (`source/queue.c`) holds two per-floor flag arrays,
  `order_up` and `order_down`. It has operations to record a call, to ask
  whether any floor at or above (or at or below) a floor has an order, to
  ask for one entry, and to clear one floor or every floor. The model is the
  class `Queue.OrderQueue`, which keeps two `array<bool>` of length N. Its
  methods are proved against the value type `Queue.Orders` and the
  functions over it.
- **The controller** (`source/main.c`) is a four-state machine: `STANDBY`,
  `DRIVING`, `OPEN_DOOR` and `EMERGENCY`. It works on the module-level
  variables `current_state`, `current_floor` and `current_direction`. Each
  iteration of the main loop polls the order buttons into the queue and
  checks the stop button. It then acts on the current state.
  - The model is the class `Elevator.Controller`. It owns an `OrderQueue`.
  - Its constructor is the homing routine `go_to_first_floor`.
  - Its method `Tick` is one iteration of the loop.
  - `Tick` is proved to change the state exactly as the function
    `ElevatorSpec.Step` says. `Step` maps a `Status` and the iteration's
    `Inputs` to the next `Status`.
  - The properties of `Step` and of finite runs (`ElevatorSpec.Run`) are
    proved in module `ElevatorProperties`.

Every hardware read of an iteration is a field of `ElevatorSpec.Inputs`:

- the floor sensors;
- the order buttons;
- the stop button;
- the obstruction switch;
- the value returned by `timer_less_than(3)`.

The motor, door and stop-lamp commands are kept as the last command sent.
Each call of `timer_start` adds one to a counter.

Files:

- `hardware.dfy`: the call types and motor movements.
- `wrappers.dfy`: `Option`.
- `queue.dfy`: the queue.
- `elevator_spec.dfy`: the transition function.
- `elevator.dfy`: the controller class.
- `elevator_properties.dfy`: the properties.

## Source defects and how they are modelled

`source/main.c` does not compile as written. The model follows the evident
intent of the code:

- main.c:74 lacks a `;` and main.c:168 lacks a `)`. Neither changes the
  meaning of the code.
- main.c:101, 106, 114 and 119 call `queue_order_above()` and
  `queue_order_below()` with no argument. The model passes `current_floor`.
- main.c:133 writes `current_direction = HARDWARE_MOVEMENT_UP` where a
  comparison is meant. Written that way it would force the direction to up
  on every driving iteration. The model compares.
- main.c:147 bounds the downward scan with `i <= 0`. Written that way, a
  scan from any floor above 0 would never run, and a scan from floor 0
  would run forever into negative indices. The model scans while `i >= 0`.
- Both scans keep their first-match-wins `break`. After a stop in the
  upward scan the downward loop still runs, but it does nothing because its
  own direction test fails. The model keeps that too.

## Where the code and the design description differ

The system's design description differs from the code at four points. The
model follows the code at each of them:

- **Homing.** The description says homing ends with the door open in
  DoorOpen. The code (main.c:76-79) ends in `STANDBY` and gives no door
  command.
- **Current floor while driving.** The description says the current floor
  is updated whenever a floor sensor fires while driving. The code changes
  `current_floor` only when it stops at a floor (main.c:141, 156).
- **Leaving the emergency state.** The description says that if the door
  is open when the stop button is released, the timer is restarted and the
  state becomes DoorOpen. The code (main.c:185-189) always moves to
  `STANDBY`.
  - The emergency case never closes the door.
  - So after a stop pressed with the door open, the cabin can drive with
    the door still commanded open. `DriveWithDoorOpenScenario` proves this
    for a concrete run.
- **Button polling in the emergency state.** The emergency case does not
  poll the order buttons (main.c:178-190). The other three states do.

The driving scan for the up direction looks only at `order_up`, and the
scan for the down direction only at `order_down`. A hall call for the
opposite direction therefore never stops the cabin. It can still start the
cabin from standby, because the range queries look at both arrays.
`DownCallPassedGoingUp` shows this for a concrete state.

## Model

| member | source | states |
|---|---|---|
| Queue.OrderQueue.constructor | source/queue.c:3-5 | The queue starts with every entry of both arrays false. |
| Queue.WithOrder | source/queue.c:7-18 | Recording a call keeps the queue's number of floors. |
| Queue.OrderQueue.SetOrder | source/queue.c:7-18 | The arrays afterwards hold `WithOrder` of the old queue: a cabin call sets both entries at the floor, an up or down call sets one. |
| Queue.WithOrderAt | source/queue.c:7-18 | After a call at floor f, the entry for direction m at floor g is set iff it was set before, or g = f and the call serves m. A cabin call serves up and down, a hall call only its own direction, and a stop serves nothing; no other floor changes. |
| Queue.WithOrderIdempotent | source/queue.c:7-18 | Recording the same call twice gives the same queue as recording it once. |
| Queue.OrderQueue.OrderAbove | source/queue.c:20-27 | Returns true iff some floor g with f <= g < N has an up or down order, f included. |
| Queue.OrderQueue.OrderBelow | source/queue.c:29-36 | Returns true iff some floor g with 0 <= g <= f has an up or down order, f included. |
| Queue.AboveOrBelow | source/queue.c:20-36 | From any floor, one of the two range queries holds iff some floor of the shaft has an order. |
| Queue.OrderQueue.OrderAt | source/queue.c:38-46 | Returns `order_up[f]` for up, `order_down[f]` for down, and false for a stop. |
| Queue.WithoutFloor | source/queue.c:48-51 | Clearing a floor keeps the queue's number of floors. |
| Queue.OrderQueue.DeleteElement | source/queue.c:48-51 | The arrays afterwards hold the old queue with both entries at f cleared. |
| Queue.WithoutFloorAt | source/queue.c:48-51 | After clearing f, floor f has no order and every other floor's entries are as before. |
| Queue.WithoutFloorIdempotent | source/queue.c:48-51 | Clearing a floor twice gives the same queue as clearing it once. |
| Queue.Cleared | source/queue.c:53-58 | The empty queue has the given number of floors. |
| Queue.OrderQueue.DeleteAll | source/queue.c:53-58 | Every entry of both arrays is false afterwards. |
| Queue.ClearedIsEmpty | source/queue.c:53-58 | On the empty queue, both range queries and every point query are false at every floor. |
| ElevatorSpec.PollFloor | source/main.c:21-26 | Polling the call types at one floor keeps the queue's number of floors. |
| ElevatorSpec.PollFloors | source/main.c:20-27 | Polling the floors one by one keeps the queue's number of floors. |
| ElevatorSpec.Polled | source/main.c:19-28 | A complete poll keeps the queue's number of floors. |
| ElevatorProperties.PollFloorAt | source/main.c:21-26 | After the poll has visited the first k call types at a floor (up, then cabin, then down), exactly the entries those pressed buttons serve have been added. |
| ElevatorProperties.PollFloorsAt | source/main.c:20-27 | After the poll has visited floors 0 .. f-1, an entry at a floor below f is set iff it was set before or a button serving it reads pressed. Floors from f up are unchanged. |
| ElevatorProperties.PolledAt | source/main.c:19-28 | After a complete poll, `order_up[g]` is set iff it was set before or the up or cabin button at g reads pressed. `order_down[g]` is set iff it was set before or the down or cabin button at g reads pressed. |
| ElevatorProperties.PollOnlyAdds | source/main.c:19-28 | The poll only adds orders: every pressed call sets the entries it serves, and no set entry is cleared. |
| Elevator.Controller.PollOrder | source/main.c:19-28 | The nested loop leaves the queue equal to `Polled` of the old queue and the read buttons. |
| Elevator.Controller.EmergencyStop | source/main.c:62-70 | Returns true iff the stop button reads pressed. When pressed, the motor is stopped, the stop lamp is lit and the state becomes Emergency. Otherwise nothing changes. |
| ElevatorProperties.StopWins | source/main.c:95-167 | In Standby, Driving and OpenDoor a pressed stop button wins the iteration, since it is checked before any other transition (main.c:97, 129, 165). The next state is Emergency with the motor stopped and the stop lamp lit. Floor, direction, door and timer are unchanged; the queue holds only the polled orders. |
| ElevatorProperties.NoStopNoEmergency | source/main.c:62-70 | Without a pressed stop button, no state other than Emergency moves to Emergency, and the stop lamp is unchanged. |
| Elevator.Controller.StandbyTick | source/main.c:100-126 | Changes the state exactly as `StandbyStep` says. |
| ElevatorProperties.StandbyHeadingUp | source/main.c:100-112 | In Standby heading up, an order at or above the current floor gives Driving, still up, with the motor up. Otherwise an order at or below gives Driving, down, with the motor down. Otherwise only the poll has an effect. |
| ElevatorProperties.StandbyHeadingDown | source/main.c:113-125 | The mirror image: below is preferred when heading down, and above turns the cabin round. |
| ElevatorProperties.StandbyIdle | source/main.c:100-126 | In Standby with an empty queue after the poll and no stop, state, floor, direction and commands are all unchanged. |
| ElevatorProperties.StandbyStartsOnAnyOrder | source/main.c:100-125 | In Standby with any order anywhere after the poll, and direction up or down, the next state is Driving with the motor running in the new direction. |
| ElevatorSpec.ScanUp | source/main.c:132-146 | The result is the first floor at or above the start floor, scanning upwards, that has an up order and an asserted sensor. None means no such floor exists. |
| ElevatorSpec.ScanDown | source/main.c:147-161 | The result is the first floor at or below the start floor, scanning downwards to 0, that has a down order and an asserted sensor. None means no such floor exists. |
| ElevatorSpec.Arrived | source/main.c:134-143 | A stop keeps the status well-formed over the same floors. |
| Elevator.Controller.Arrive | source/main.c:134-143 | The state afterwards is `Arrived`: motor stopped, both orders at i cleared, door opened, timer started, current floor i, state OpenDoor. |
| ElevatorSpec.DrivingStep | source/main.c:132-161 | A driving iteration keeps the status well-formed over the same floors. |
| Elevator.Controller.DrivingTick | source/main.c:132-161 | The two scan loops, each with its early `break`, change the state exactly as `DrivingStep` says. |
| ElevatorProperties.DrivingUpStopsAtFirstMatch | source/main.c:132-146 | When driving up, the cabin stops at the first floor i at or above the current floor that has an up order and an asserted sensor. Both entries at i are cleared, `current_floor` becomes i, the state becomes OpenDoor, the door opens, the timer starts, and no other floor's orders change. |
| ElevatorProperties.DrivingDownStopsAtFirstMatch | source/main.c:147-161 | The same for driving down, scanning from the current floor down to 0. |
| ElevatorProperties.DrivingStopsOnlyOnOrderAndSensor | source/main.c:132-161 | A driving iteration either stops or changes nothing but the poll. A stop is at a floor ahead (the current one included) with an order in the travel direction and an asserted sensor in the same iteration. If the cabin stays Driving, no floor ahead has both. |
| Elevator.Controller.OpenDoorTick | source/main.c:168-177 | Changes the state exactly as `OpenDoorStep` says. |
| ElevatorProperties.ObstructionKeepsDoorOpen | source/main.c:168-171 | In OpenDoor an obstruction keeps the state OpenDoor with the door command unchanged, and restarts the timer. |
| ElevatorProperties.DoorClosesOnTimer | source/main.c:172-177 | In OpenDoor with no obstruction, the state becomes Standby iff `timer_less_than(3)` returns true. Then the door is closed. Otherwise nothing but the poll changes. |
| ElevatorSpec.EmergencyStep | source/main.c:179-190 | An emergency iteration keeps the status well-formed over the same floors. |
| Elevator.Controller.EmergencyTick | source/main.c:179-190 | The queue is emptied. A released stop button gives Standby with the stop lamp off. |
| ElevatorProperties.EmergencyEmptiesQueue | source/main.c:179-190 | In Emergency every iteration empties the queue, so both range queries are false at every floor. A released stop gives Standby with the stop lamp off; a held one stays Emergency. Floor and motor are unchanged. |
| ElevatorSpec.AfterPoll | source/main.c:96 | Polling keeps the status well-formed over the same floors. |
| ElevatorSpec.Step | source/main.c:93-193 | One iteration keeps the status well-formed over the same floors. |
| Elevator.Controller.Tick | source/main.c:93-193 | One iteration of the switch changes the controller and its queue exactly as `Step` says. |
| ElevatorSpec.Homed | source/main.c:76-79 | The state after homing is well-formed over the given floors. |
| Elevator.Controller.constructor | source/main.c:72-80 | After homing: `current_floor` = 0, state Standby, direction down, motor stopped, queue empty. |
| ElevatorProperties.HomedIsCoherent | source/main.c:72-80 | The state after homing satisfies `Coherent`. |
| ElevatorProperties.StepKeepsCoherent | source/main.c:93-193 | Every iteration preserves `Coherent`. `Coherent` says: the direction is up or down; the motor runs in the travel direction exactly while Driving; the door is commanded open in OpenDoor; the stop lamp is on exactly in Emergency. |
| ElevatorSpec.Run | source/main.c:92-194 | A finite run of iterations keeps the status well-formed over the same floors. |
| ElevatorProperties.RunKeepsCoherent | source/main.c:92-194 | Every finite run from a `Coherent` state ends in a `Coherent` state. |
| ElevatorProperties.CabinCallScenario | source/main.c:95-176 | Four floors, homed at floor 0. A cabin call at floor 2 gives Driving up. Floor 2's sensor then gives OpenDoor at floor 2 with the queue empty and the door open. A true timer answer then gives Standby with the door closed. |
| ElevatorProperties.DriveWithDoorOpenScenario | source/main.c:163-190 | A stop pressed in OpenDoor, then released, then a call below: the cabin ends Driving down with the door still commanded open. |
| ElevatorProperties.DownCallPassedGoingUp | source/main.c:132-146 | Driving up with only a down hall call above: the cabin stays Driving even when that floor's sensor is asserted, and the order stays. |

## Left out

- `source/timer.c` and `source/timer.h` wrap the C library clock. Time enters the model only as the `timerLessThan3` input: the value `timer_less_than(3)` returns, used as main.c:172 uses it. `timer_start` is recorded by counting its calls. The header comment at timer.h:16 says the opposite of what timer.c:11-14 returns, and the model does not reconcile the two.
- The hardware interface header is not part of this model. Its reads are the fields of `Inputs`. Its motor, door and stop-lamp commands are recorded as the last command sent. The order lamps and the floor indicator (main.c:24, 33, 40-53, 137-138, 152-153, 180-184) are dropped, since they are output only. So is `hardware_init` with its error path (main.c:84-88).
- `HARDWARE_NUMBER_OF_FLOORS` is defined in that header. In the model it is the constructor's parameter `n`, which must be positive.
- The model assumes the call-type enumeration runs up, cabin, down, the order main.c:41-45 lists. So the poll's loop from `HARDWARE_ORDER_UP` to `HARDWARE_ORDER_DOWN` visits all three types.
- `arrive_at_destination` (main.c:30-37) is modelled as the read of the floor's sensor. Its floor-indicator command is dropped.
- `sigint_handler` and its registration (main.c:55-60, 90) are process and signal plumbing, and are left out.
- The endless `while(1)` is modelled as one `Tick`, plus `Run` over a finite trace of readings.
- `queue_print_up` and `queue_print_down` are declared in queue.h:10-11. No implementation of them is part of this model.
- Floors outside [0, N-1] are excluded by preconditions, not handled.
- Elevator.Controller.constructor: the homing busy-wait is modelled as a loop over the floor-0 sensor's successive readings. Homing must end, so at least one reading must fire. The repeated down commands leave no trace beyond the final stop.
- The initial value of `current_direction`, before homing assigns it, is never observed, so it is not modelled.
- The door command before the first door command is issued is taken to be closed.

