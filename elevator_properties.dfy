/**
 * Properties of one iteration of the main loop (`ElevatorSpec.Step`) and of
 * finite runs of it.
 */
module ElevatorProperties {
  import opened Wrappers
  import opened Hardware
  import opened Queue
  import opened ElevatorSpec

  // ---------------------------------------------------------------------
  // The button poll

  /** What the poll has recorded after visiting the first `k` call types at floor `f`. */
  lemma {:induction false} PollFloorAt(q: Orders, b: Buttons, f: nat, k: nat, g: nat)
    requires WellFormed(q) && f < Size(q) && ButtonsFit(b, Size(q)) && k <= |OrderTypes| && g < Size(q)
    ensures PollFloor(q, b, f, k).up[g] ==
              (q.up[g] || (g == f && ((k >= 1 && b.up[f]) || (k >= 2 && b.inside[f]))))
    ensures PollFloor(q, b, f, k).down[g] ==
              (q.down[g] || (g == f && ((k >= 2 && b.inside[f]) || (k >= 3 && b.down[f]))))
  {
    if k > 0 {
      PollFloorAt(q, b, f, k - 1, g);
    }
  }

  /** What the poll has recorded after visiting floors 0 .. f-1. */
  lemma {:induction false} PollFloorsAt(q: Orders, b: Buttons, f: nat, g: nat)
    requires WellFormed(q) && f <= Size(q) && ButtonsFit(b, Size(q)) && g < Size(q)
    ensures PollFloors(q, b, f).up[g] == (q.up[g] || (g < f && (b.up[g] || b.inside[g])))
    ensures PollFloors(q, b, f).down[g] == (q.down[g] || (g < f && (b.down[g] || b.inside[g])))
  {
    if f > 0 {
      PollFloorsAt(q, b, f - 1, g);
      PollFloorAt(PollFloors(q, b, f - 1), b, f - 1, |OrderTypes|, g);
    }
  }

  /**
   * A complete poll sets the up entry of a floor exactly when it was set or
   * the floor's up or cabin button reads pressed, and the down entry likewise.
   */
  lemma PolledAt(q: Orders, b: Buttons, g: nat)
    requires WellFormed(q) && ButtonsFit(b, Size(q)) && g < Size(q)
    ensures Polled(q, b).up[g] == (q.up[g] || b.up[g] || b.inside[g])
    ensures Polled(q, b).down[g] == (q.down[g] || b.down[g] || b.inside[g])
  {
    PollFloorsAt(q, b, Size(q), g);
  }

  /**
   * The poll only adds orders: every pressed call is recorded afterwards, and
   * no entry that was set is cleared.
   */
  lemma PollOnlyAdds(q: Orders, b: Buttons, g: nat, o: Order, m: Movement)
    requires WellFormed(q) && ButtonsFit(b, Size(q)) && g < Size(q)
    ensures Pressed(b, g, o) && Serves(o, m) ==> OrderedAt(Polled(q, b), g, m)
    ensures OrderedAt(q, g, m) ==> OrderedAt(Polled(q, b), g, m)
  {
    PolledAt(q, b, g);
  }

  // ---------------------------------------------------------------------
  // The stop button

  /**
   * Outside the emergency state a pressed stop button wins the iteration:
   * the state becomes Emergency with the motor stopped and the stop lamp on,
   * and nothing but the polled orders changes otherwise.
   */
  lemma StopWins(s: Status, inp: Inputs)
    requires Fits(s) && InputsFit(inp, Floors(s))
    requires s.state != Emergency && inp.stop
    ensures Step(s, inp).state == Emergency
    ensures Step(s, inp).motor == MoveStop && Step(s, inp).stopLamp
    ensures Step(s, inp).floor == s.floor && Step(s, inp).direction == s.direction
    ensures Step(s, inp).doorOpen == s.doorOpen && Step(s, inp).timerStarts == s.timerStarts
    ensures Step(s, inp).orders == Polled(s.orders, inp.buttons)
  {
  }

  /** Without a pressed stop button no state outside emergency enters it. */
  lemma NoStopNoEmergency(s: Status, inp: Inputs)
    requires Fits(s) && InputsFit(inp, Floors(s))
    requires s.state != Emergency && !inp.stop
    ensures Step(s, inp).state != Emergency
    ensures Step(s, inp).stopLamp == s.stopLamp
  {
  }

  // ---------------------------------------------------------------------
  // Standby

  /**
   * Standby heading up: an order at or above the current floor starts the
   * cabin up; otherwise an order below turns it down; otherwise it stays.
   */
  lemma StandbyHeadingUp(s: Status, inp: Inputs)
    requires Fits(s) && InputsFit(inp, Floors(s))
    requires s.state == Standby && s.direction == MoveUp && !inp.stop
    ensures var q := Polled(s.orders, inp.buttons);
      var r := Step(s, inp);
      (AnyAbove(q, s.floor) ==> r.state == Driving && r.direction == MoveUp && r.motor == MoveUp) &&
      (!AnyAbove(q, s.floor) && AnyBelow(q, s.floor) ==>
         r.state == Driving && r.direction == MoveDown && r.motor == MoveDown) &&
      (!AnyAbove(q, s.floor) && !AnyBelow(q, s.floor) ==> r == AfterPoll(s, inp.buttons)) &&
      r.floor == s.floor && r.orders == q
  {
  }

  /**
   * Standby heading down: an order at or below the current floor starts the
   * cabin down; otherwise an order above turns it up; otherwise it stays.
   */
  lemma StandbyHeadingDown(s: Status, inp: Inputs)
    requires Fits(s) && InputsFit(inp, Floors(s))
    requires s.state == Standby && s.direction == MoveDown && !inp.stop
    ensures var q := Polled(s.orders, inp.buttons);
      var r := Step(s, inp);
      (AnyBelow(q, s.floor) ==> r.state == Driving && r.direction == MoveDown && r.motor == MoveDown) &&
      (!AnyBelow(q, s.floor) && AnyAbove(q, s.floor) ==>
         r.state == Driving && r.direction == MoveUp && r.motor == MoveUp) &&
      (!AnyBelow(q, s.floor) && !AnyAbove(q, s.floor) ==> r == AfterPoll(s, inp.buttons)) &&
      r.floor == s.floor && r.orders == q
  {
  }

  /**
   * Standby with nothing ordered anywhere after the poll: state, floor,
   * direction and commands stay as they were.
   */
  lemma StandbyIdle(s: Status, inp: Inputs)
    requires Fits(s) && InputsFit(inp, Floors(s))
    requires s.state == Standby && !inp.stop
    requires forall g :: 0 <= g < Floors(s) ==> !HasOrder(Polled(s.orders, inp.buttons), g)
    ensures Step(s, inp) == AfterPoll(s, inp.buttons)
  {
  }

  /**
   * Standby with some order anywhere in the shaft after the poll always
   * starts the cabin, when the direction is up or down.
   */
  lemma StandbyStartsOnAnyOrder(s: Status, inp: Inputs, g: nat)
    requires Fits(s) && InputsFit(inp, Floors(s))
    requires s.state == Standby && s.direction != MoveStop && !inp.stop
    requires g < Floors(s) && HasOrder(Polled(s.orders, inp.buttons), g)
    ensures Step(s, inp).state == Driving
    ensures Step(s, inp).motor == Step(s, inp).direction
  {
  }

  // ---------------------------------------------------------------------
  // Driving

  /**
   * Driving up: the first floor at or above the current one that has an
   * up-order and an asserted sensor is where the cabin stops; its orders are
   * cleared, it becomes the current floor, the door opens and its timer is
   * started, and no other floor's orders change.
   */
  lemma DrivingUpStopsAtFirstMatch(s: Status, inp: Inputs, i: nat)
    requires Fits(s) && InputsFit(inp, Floors(s))
    requires s.state == Driving && s.direction == MoveUp && !inp.stop
    requires s.floor <= i < Floors(s)
    requires var q := Polled(s.orders, inp.buttons);
      q.up[i] && inp.floorSensors[i] &&
      forall j :: s.floor <= j < i ==> !(q.up[j] && inp.floorSensors[j])
    ensures var q := Polled(s.orders, inp.buttons);
      var r := Step(s, inp);
      r.state == OpenDoor && r.floor == i && r.motor == MoveStop && r.doorOpen &&
      r.timerStarts == s.timerStarts + 1 && r.direction == s.direction &&
      !HasOrder(r.orders, i) &&
      forall g :: 0 <= g < Floors(s) && g != i ==> r.orders.up[g] == q.up[g] && r.orders.down[g] == q.down[g]
  {
  }

  /** Driving down: the mirror image, scanning from the current floor down to 0. */
  lemma DrivingDownStopsAtFirstMatch(s: Status, inp: Inputs, i: nat)
    requires Fits(s) && InputsFit(inp, Floors(s))
    requires s.state == Driving && s.direction == MoveDown && !inp.stop
    requires i <= s.floor
    requires var q := Polled(s.orders, inp.buttons);
      q.down[i] && inp.floorSensors[i] &&
      forall j :: i < j <= s.floor ==> !(q.down[j] && inp.floorSensors[j])
    ensures var q := Polled(s.orders, inp.buttons);
      var r := Step(s, inp);
      r.state == OpenDoor && r.floor == i && r.motor == MoveStop && r.doorOpen &&
      r.timerStarts == s.timerStarts + 1 && r.direction == s.direction &&
      !HasOrder(r.orders, i) &&
      forall g :: 0 <= g < Floors(s) && g != i ==> r.orders.up[g] == q.up[g] && r.orders.down[g] == q.down[g]
  {
  }

  /**
   * While driving the cabin stops only at a floor ahead of it (the current
   * one included) that has an order in the travel direction and whose sensor
   * is asserted in the same iteration; otherwise nothing but the poll
   * changes. An order alone or a sensor alone does not stop it.
   */
  lemma DrivingStopsOnlyOnOrderAndSensor(s: Status, inp: Inputs)
    requires Fits(s) && InputsFit(inp, Floors(s))
    requires s.state == Driving && !inp.stop
    ensures var q := Polled(s.orders, inp.buttons);
      var r := Step(s, inp);
      (r.state == OpenDoor || r == AfterPoll(s, inp.buttons)) &&
      (r.state == OpenDoor ==>
         OrderedAt(q, r.floor, s.direction) && inp.floorSensors[r.floor] &&
         (s.direction == MoveUp ==> s.floor <= r.floor) &&
         (s.direction == MoveDown ==> r.floor <= s.floor)) &&
      (r.state == Driving ==>
         forall j :: 0 <= j < Floors(s) && inp.floorSensors[j] &&
                     (s.direction == MoveUp ==> s.floor <= j) && (s.direction == MoveDown ==> j <= s.floor)
                     ==> !OrderedAt(q, j, s.direction))
  {
  }

  // ---------------------------------------------------------------------
  // Door open

  /** An obstruction keeps the door open and restarts the door timer. */
  lemma ObstructionKeepsDoorOpen(s: Status, inp: Inputs)
    requires Fits(s) && InputsFit(inp, Floors(s))
    requires s.state == OpenDoor && !inp.stop && inp.obstruction
    ensures Step(s, inp).state == OpenDoor && Step(s, inp).doorOpen == s.doorOpen
    ensures Step(s, inp).timerStarts == s.timerStarts + 1
  {
  }

  /**
   * Without an obstruction the door closes and the cabin returns to standby
   * exactly when the timer query answers true; otherwise nothing changes.
   */
  lemma DoorClosesOnTimer(s: Status, inp: Inputs)
    requires Fits(s) && InputsFit(inp, Floors(s))
    requires s.state == OpenDoor && !inp.stop && !inp.obstruction
    ensures Step(s, inp).state == Standby <==> inp.timerLessThan3
    ensures inp.timerLessThan3 ==> !Step(s, inp).doorOpen
    ensures !inp.timerLessThan3 ==> Step(s, inp) == AfterPoll(s, inp.buttons)
    ensures Step(s, inp).timerStarts == s.timerStarts
  {
  }

  // ---------------------------------------------------------------------
  // Emergency

  /**
   * In the emergency state every iteration empties the queue; a released
   * stop button leads to standby with the stop lamp off, a held one keeps
   * the emergency state.
   */
  lemma EmergencyEmptiesQueue(s: Status, inp: Inputs, f: nat)
    requires Fits(s) && InputsFit(inp, Floors(s))
    requires s.state == Emergency && f < Floors(s)
    ensures !AnyAbove(Step(s, inp).orders, f) && !AnyBelow(Step(s, inp).orders, f)
    ensures inp.stop ==> Step(s, inp).state == Emergency
    ensures !inp.stop ==> Step(s, inp).state == Standby && !Step(s, inp).stopLamp
    ensures Step(s, inp).floor == s.floor && Step(s, inp).motor == s.motor
  {
    ClearedIsEmpty(Floors(s), f, MoveUp);
  }

  // ---------------------------------------------------------------------
  // An invariant of every run

  /**
   * The direction is always up or down; the motor runs, in the travel
   * direction, exactly while driving; the door is commanded open whenever
   * the state is OpenDoor; the stop lamp is lit exactly in the emergency
   * state.
   */
  predicate Coherent(s: Status) {
    Fits(s) &&
    s.direction != MoveStop &&
    s.motor == (if s.state == Driving then s.direction else MoveStop) &&
    (s.state == OpenDoor ==> s.doorOpen) &&
    (s.stopLamp <==> s.state == Emergency)
  }

  lemma HomedIsCoherent(n: nat)
    requires n > 0
    ensures Coherent(Homed(n))
  {
  }

  lemma StepKeepsCoherent(s: Status, inp: Inputs)
    requires Coherent(s) && InputsFit(inp, Floors(s))
    ensures Coherent(Step(s, inp))
  {
  }

  lemma {:induction false} RunKeepsCoherent(s: Status, ins: seq<Inputs>)
    requires Coherent(s) && TraceFits(ins, Floors(s))
    ensures Coherent(Run(s, ins))
    decreases |ins|
  {
    if ins != [] {
      StepKeepsCoherent(s, ins[0]);
      RunKeepsCoherent(Step(s, ins[0]), ins[1..]);
    }
  }

  // ---------------------------------------------------------------------
  // Scenarios

  function NoButtons(n: nat): (b: Buttons)
    ensures ButtonsFit(b, n)
  {
    Buttons(seq(n, _ => false), seq(n, _ => false), seq(n, _ => false))
  }

  /** Readings with no button, no stop, no obstruction, the given floor sensors and timer answer. */
  function Quiet(sensors: seq<bool>, timerLessThan3: bool): (inp: Inputs)
    ensures InputsFit(inp, |sensors|)
  {
    Inputs(sensors, NoButtons(|sensors|), false, false, timerLessThan3)
  }

  /**
   * Four floors, cabin homed at floor 0: a cabin call at floor 2 starts it
   * up; when floor 2's sensor fires it stops there with the order cleared and
   * the door open; when the timer query answers true it closes the door.
   */
  lemma CabinCallScenario()
    ensures var s0 := Homed(4);
      var call := Inputs([true, false, false, false],
                         Buttons([false, false, false, false], [false, false, true, false], [false, false, false, false]),
                         false, false, false);
      var s1 := Step(s0, call);
      var s2 := Step(s1, Quiet([false, false, true, false], false));
      var s3 := Step(s2, Quiet([false, false, true, false], true));
      s1.state == Driving && s1.direction == MoveUp && s1.motor == MoveUp &&
      s2.state == OpenDoor && s2.floor == 2 && s2.doorOpen && s2.motor == MoveStop &&
      s2.orders == Cleared(4) &&
      s3.state == Standby && !s3.doorOpen
  {
    var call := Inputs([true, false, false, false],
                       Buttons([false, false, false, false], [false, false, true, false], [false, false, false, false]),
                       false, false, false);
    var q1 := Polled(Cleared(4), call.buttons);
    forall g | 0 <= g < 4
      ensures q1.up[g] == (g == 2) && q1.down[g] == (g == 2)
    {
      PolledAt(Cleared(4), call.buttons, g);
    }
    assert HasOrder(q1, 2);
    assert q1 == Orders([false, false, true, false], [false, false, true, false]);
    var q0 := Orders([false, false, false, false], [false, false, false, false]);
    assert Cleared(4) == q0;
    assert WithoutFloor(q1, 2) == q0;
    forall g | 0 <= g < 4
      ensures Polled(q0, NoButtons(4)).up[g] == false && Polled(q0, NoButtons(4)).down[g] == false
    {
      PolledAt(q0, NoButtons(4), g);
    }
    assert Polled(q0, NoButtons(4)) == q0;
  }

  /**
   * A stop pressed while the door is open leaves the door commanded open:
   * after the stop is released and a call is registered, the cabin drives
   * with the door still commanded open.
   */
  lemma DriveWithDoorOpenScenario()
    ensures var s0 := Status(OpenDoor, 1, MoveDown, Cleared(2), MoveStop, true, false, 1);
      var pressStop := Inputs([false, true], NoButtons(2), true, false, false);
      var release := Inputs([false, true], NoButtons(2), false, false, false);
      var call := Inputs([false, true], Buttons([false, false], [true, false], [false, false]), false, false, false);
      var r := Run(s0, [pressStop, release, call]);
      Coherent(s0) && r.state == Driving && r.motor == MoveDown && r.doorOpen
  {
    var s0 := Status(OpenDoor, 1, MoveDown, Cleared(2), MoveStop, true, false, 1);
    var pressStop := Inputs([false, true], NoButtons(2), true, false, false);
    var release := Inputs([false, true], NoButtons(2), false, false, false);
    var call := Inputs([false, true], Buttons([false, false], [true, false], [false, false]), false, false, false);
    var s1 := Step(s0, pressStop);
    var s2 := Step(s1, release);
    assert s2.state == Standby && s2.doorOpen && s2.floor == 1 && s2.direction == MoveDown;
    PolledAt(s2.orders, call.buttons, 0);
    assert HasOrder(Polled(s2.orders, call.buttons), 0);
    var s3 := Step(s2, call);
    assert s3.state == Driving && s3.motor == MoveDown && s3.doorOpen;
    assert Run(s3, []) == s3;
    assert [call][1..] == [];
    assert Run(s2, [call]) == s3;
    assert [release, call][1..] == [call];
    assert Run(s1, [release, call]) == s3;
    assert [pressStop, release, call][1..] == [release, call];
  }

  /**
   * Heading up, a hall call down at a floor above is never a reason to stop:
   * the up scan looks at up-orders only, so the cabin keeps driving past an
   * asserted sensor at that floor.
   */
  lemma DownCallPassedGoingUp()
    ensures var s0 := Status(Driving, 0, MoveUp, Orders([false, false, false], [false, false, true]),
                             MoveUp, false, false, 0);
      var r := Step(s0, Quiet([false, false, true], false));
      r.state == Driving && r.orders.down[2]
  {
    var q := Orders([false, false, false], [false, false, true]);
    forall g | 0 <= g < 3
      ensures Polled(q, NoButtons(3)).up[g] == q.up[g] && Polled(q, NoButtons(3)).down[g] == q.down[g]
    {
      PolledAt(q, NoButtons(3), g);
    }
    assert Polled(q, NoButtons(3)) == q;
  }
}
