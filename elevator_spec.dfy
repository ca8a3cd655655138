/**
 * What one iteration of the controller's main loop does, as a function from
 * the controller's state and the hardware readings of that iteration to the
 * next state. The controller class in module Elevator is proved to implement
 * `Step`; the properties of `Step` are proved in module ElevatorProperties.
 */
module ElevatorSpec {
  import opened Wrappers
  import opened Hardware
  import opened Queue

  /** The controller's scheduling variable. */
  datatype State = Standby | Driving | OpenDoor | Emergency

  /** The order buttons as read by one poll: one flag per floor and call type. */
  datatype Buttons = Buttons(up: seq<bool>, inside: seq<bool>, down: seq<bool>)

  predicate ButtonsFit(b: Buttons, n: nat) {
    |b.up| == n && |b.inside| == n && |b.down| == n
  }

  /** The reading of the button for call type `o` at floor `f`. */
  function Pressed(b: Buttons, f: nat, o: Order): bool
    requires f < |b.up| && f < |b.inside| && f < |b.down|
  {
    match o
    case OrderUp => b.up[f]
    case OrderInside => b.inside[f]
    case OrderDown => b.down[f]
  }

  /**
   * Everything one loop iteration reads from outside: the floor sensors, the
   * order buttons, the stop button, the obstruction switch and the answer of
   * the door timer's "less than three seconds" query.
   */
  datatype Inputs = Inputs(
    floorSensors: seq<bool>,
    buttons: Buttons,
    stop: bool,
    obstruction: bool,
    timerLessThan3: bool)

  predicate InputsFit(inp: Inputs, n: nat) {
    |inp.floorSensors| == n && ButtonsFit(inp.buttons, n)
  }

  /**
   * The controller's state: the three module-level variables, the queue, the
   * last command sent to the motor, the door and the stop lamp, and how many
   * times the door timer has been started.
   */
  datatype Status = Status(
    state: State,
    floor: nat,
    direction: Movement,
    orders: Orders,
    motor: Movement,
    doorOpen: bool,
    stopLamp: bool,
    timerStarts: nat)

  /** The queue has at least one floor and the current floor is one of them. */
  predicate Fits(s: Status) {
    WellFormed(s.orders) && s.floor < Size(s.orders)
  }

  /** Number of floors of the shaft. */
  function Floors(s: Status): nat {
    Size(s.orders)
  }

  /** The state right after homing: at floor 0, heading down, nothing ordered. */
  function Homed(n: nat): (s: Status)
    requires n > 0
    ensures Fits(s) && Floors(s) == n
  {
    Status(Standby, 0, MoveDown, Cleared(n), MoveStop, false, false, 0)
  }

  // ---------------------------------------------------------------------
  // Polling the buttons

  /** The queue after the poll has visited the first `k` call types at floor `f`. */
  function PollFloor(q: Orders, b: Buttons, f: nat, k: nat): (r: Orders)
    requires WellFormed(q) && f < Size(q) && ButtonsFit(b, Size(q)) && k <= |OrderTypes|
    ensures WellFormed(r) && Size(r) == Size(q)
  {
    if k == 0 then q
    else
      var p := PollFloor(q, b, f, k - 1);
      if Pressed(b, f, OrderTypes[k - 1]) then WithOrder(p, f, OrderTypes[k - 1]) else p
  }

  /** The queue after the poll has visited floors 0 .. f-1. */
  function PollFloors(q: Orders, b: Buttons, f: nat): (r: Orders)
    requires WellFormed(q) && f <= Size(q) && ButtonsFit(b, Size(q))
    ensures WellFormed(r) && Size(r) == Size(q)
  {
    if f == 0 then q else PollFloor(PollFloors(q, b, f - 1), b, f - 1, |OrderTypes|)
  }

  /** The queue after a complete button poll. */
  function Polled(q: Orders, b: Buttons): (r: Orders)
    requires WellFormed(q) && ButtonsFit(b, Size(q))
    ensures WellFormed(r) && Size(r) == Size(q)
  {
    PollFloors(q, b, Size(q))
  }

  // ---------------------------------------------------------------------
  // The per-state transitions

  /** The stop button was read pressed: stop the motor, light the stop lamp. */
  function Halted(s: Status): Status {
    s.(state := Emergency, motor := MoveStop, stopLamp := true)
  }

  /**
   * Standby: keep the direction if an order lies that way (the current floor
   * included), otherwise turn round if an order lies the other way.
   */
  function StandbyStep(s: Status): Status
    requires Fits(s)
  {
    if s.direction == MoveUp then
      if AnyAbove(s.orders, s.floor) then s.(motor := MoveUp, state := Driving)
      else if AnyBelow(s.orders, s.floor) then s.(motor := MoveDown, direction := MoveDown, state := Driving)
      else s
    else if s.direction == MoveDown then
      if AnyBelow(s.orders, s.floor) then s.(motor := MoveDown, state := Driving)
      else if AnyAbove(s.orders, s.floor) then s.(motor := MoveUp, direction := MoveUp, state := Driving)
      else s
    else s
  }

  /**
   * The first floor, scanning upwards from `i`, with an up-order whose sensor
   * is asserted.
   */
  function ScanUp(q: Orders, sensors: seq<bool>, i: nat): (r: Option<nat>)
    requires WellFormed(q) && |sensors| == Size(q) && i <= Size(q)
    ensures r.Some? ==> i <= r.value < Size(q) && q.up[r.value] && sensors[r.value]
    ensures r.Some? ==> forall j :: i <= j < r.value ==> !(q.up[j] && sensors[j])
    ensures r.None? ==> forall j :: i <= j < Size(q) ==> !(q.up[j] && sensors[j])
    decreases Size(q) - i
  {
    if i == Size(q) then None
    else if q.up[i] && sensors[i] then Some(i)
    else ScanUp(q, sensors, i + 1)
  }

  /**
   * The first floor, scanning downwards from `i` to 0, with a down-order
   * whose sensor is asserted.
   */
  function ScanDown(q: Orders, sensors: seq<bool>, i: int): (r: Option<nat>)
    requires WellFormed(q) && |sensors| == Size(q) && -1 <= i < Size(q)
    ensures r.Some? ==> r.value <= i && q.down[r.value] && sensors[r.value]
    ensures r.Some? ==> forall j :: r.value < j <= i ==> !(q.down[j] && sensors[j])
    ensures r.None? ==> forall j :: 0 <= j <= i ==> !(q.down[j] && sensors[j])
    decreases i + 1
  {
    if i < 0 then None
    else if q.down[i] && sensors[i] then Some(i)
    else ScanDown(q, sensors, i - 1)
  }

  /** The floor, if any, the cabin stops at in this iteration while driving. */
  function Arrival(s: Status, sensors: seq<bool>): Option<nat>
    requires Fits(s) && |sensors| == Floors(s)
  {
    match s.direction
    case MoveUp => ScanUp(s.orders, sensors, s.floor)
    case MoveDown => ScanDown(s.orders, sensors, s.floor)
    case MoveStop => None
  }

  /**
   * Stopping at floor `i`: motor stopped, both orders at `i` cleared, door
   * opened, door timer started, `i` the current floor.
   */
  function Arrived(s: Status, i: nat): (r: Status)
    requires Fits(s) && i < Floors(s)
    ensures Fits(r) && Floors(r) == Floors(s)
  {
    s.(motor := MoveStop, orders := WithoutFloor(s.orders, i), doorOpen := true,
       timerStarts := s.timerStarts + 1, floor := i, state := OpenDoor)
  }

  function DrivingStep(s: Status, sensors: seq<bool>): (r: Status)
    requires Fits(s) && |sensors| == Floors(s)
    ensures Fits(r) && Floors(r) == Floors(s)
  {
    match Arrival(s, sensors)
    case None => s
    case Some(i) => Arrived(s, i)
  }

  /**
   * Door open: an obstruction restarts the door timer and keeps the door
   * open; otherwise, when the timer query answers true, close the door.
   */
  function OpenDoorStep(s: Status, obstruction: bool, timerLessThan3: bool): Status {
    if obstruction then s.(timerStarts := s.timerStarts + 1)
    else if timerLessThan3 then s.(doorOpen := false, state := Standby)
    else s
  }

  /** Emergency: empty the queue; leave for standby once the stop button reads released. */
  function EmergencyStep(s: Status, stop: bool): (r: Status)
    requires Fits(s)
    ensures Fits(r) && Floors(r) == Floors(s)
  {
    var c := s.(orders := Cleared(Floors(s)));
    if stop then c else c.(state := Standby, stopLamp := false)
  }

  /** The orders polled into the queue, before the state is looked at further. */
  function AfterPoll(s: Status, b: Buttons): (r: Status)
    requires Fits(s) && ButtonsFit(b, Floors(s))
    ensures Fits(r) && Floors(r) == Floors(s)
  {
    s.(orders := Polled(s.orders, b))
  }

  /** One iteration of the main loop. */
  function Step(s: Status, inp: Inputs): (r: Status)
    requires Fits(s) && InputsFit(inp, Floors(s))
    ensures Fits(r) && Floors(r) == Floors(s)
  {
    match s.state
    case Standby =>
      var p := AfterPoll(s, inp.buttons);
      if inp.stop then Halted(p) else StandbyStep(p)
    case Driving =>
      var p := AfterPoll(s, inp.buttons);
      if inp.stop then Halted(p) else DrivingStep(p, inp.floorSensors)
    case OpenDoor =>
      var p := AfterPoll(s, inp.buttons);
      if inp.stop then Halted(p) else OpenDoorStep(p, inp.obstruction, inp.timerLessThan3)
    case Emergency =>
      EmergencyStep(s, inp.stop)
  }

  /** Every reading in a trace fits a shaft of `n` floors. */
  predicate TraceFits(ins: seq<Inputs>, n: nat) {
    forall k :: 0 <= k < |ins| ==> InputsFit(ins[k], n)
  }

  /** A finite run of the main loop over a trace of readings. */
  function Run(s: Status, ins: seq<Inputs>): (r: Status)
    requires Fits(s) && TraceFits(ins, Floors(s))
    ensures Fits(r) && Floors(r) == Floors(s)
    decreases |ins|
  {
    if ins == [] then s else Run(Step(s, ins[0]), ins[1..])
  }
}
