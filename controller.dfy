/**
 * The globals and the main loop of Core/main.c as an object: the vehicle
 * registry kept in a fixed array, the state machine's variables, and the
 * indicator peripherals the loop drives. Each method is proved to follow
 * the value-level model in `Registry` and `Gate`.
 */
module Controller {
  import opened Common
  import opened Gate
  import AllowList
  import Registry
  import SevenSegment
  import Rgb
  import GateProperties

  /** The lamp colour for an occupancy: red when full, green when empty, blue in between. */
  function OccupancyColour(count: nat): (c: Rgb.Colour)
    requires count <= Registry.MAX_VEHICLES
    ensures c == Rgb.Red <==> count == Registry.MAX_VEHICLES
    ensures c == Rgb.Green <==> count == 0
    ensures c == Rgb.Blue <==> 0 < count < Registry.MAX_VEHICLES
  {
    if count == Registry.MAX_VEHICLES then Rgb.Red
    else if count == 0 then Rgb.Green
    else Rgb.Blue
  }

  class Controller {
    /** `vehicles_inside_db`: one row per parked vehicle; rows at and past `vehicleCount` are unused. */
    const db: array<Uid>
    /** `vehicle_count`. */
    var vehicleCount: nat
    var currentState: State
    var currentDirection: Direction
    /** `current_uid`: the UID latched at the last card read. */
    var currentUid: Uid
    var stateChangeTimestamp: U32
    var vehicleIsPassing: bool
    /** Whether the servo was last commanded to the open angle. */
    var barrierOpen: bool
    /** The text last written on the second LCD line. */
    var status: Status
    /** The number printed after "Free slot: " on the first LCD line. */
    var freeSlotsShown: int
    /** The 7-segment display chain and the timer driving the RGB lamp. */
    const display: SevenSegment.ShiftRegister
    const lamp: Rgb.Tim1

    ghost predicate Valid()
      reads this
    {
      && db.Length == Registry.MAX_VEHICLES
      && vehicleCount <= Registry.MAX_VEHICLES
      && display.ledType == SevenSegment.LED_TYPE
      && display.order321 == SevenSegment.ORDER_321
    }

    /** The registry: the rows in use, in array order. */
    ghost function Vehicles(): seq<Uid>
      reads this, db
      requires Valid()
    {
      db[..vehicleCount]
    }

    /** The state-machine variables as a `Gate` value. */
    ghost function Abstract(): Gate
      reads this, db
      requires Valid()
    {
      Gate(currentState, currentDirection, currentUid, stateChangeTimestamp,
           vehicleIsPassing, Vehicles(), barrierOpen, status)
    }

    /** Power-up: zeroed globals, empty registry, servo at the closed angle, peripherals initialised. */
    constructor ()
      ensures Valid() && Abstract() == Initial()
      ensures fresh(db) && fresh(display) && fresh(lamp)
      ensures display.line == [] && lamp.psc == 167 && lamp.arr == Rgb.PWM_ARR
    {
      db := new Uid[Registry.MAX_VEHICLES](_ => [0, 0, 0, 0]);
      vehicleCount := 0;
      currentState := Closed;
      currentDirection := NoDirection;
      currentUid := [0, 0, 0, 0];
      stateChangeTimestamp := 0;
      vehicleIsPassing := false;
      barrierOpen := false;
      status := Cleared;
      freeSlotsShown := 0;
      display := new SevenSegment.ShiftRegister(SevenSegment.LED_TYPE, SevenSegment.ORDER_321);
      lamp := new Rgb.Tim1.Init();
    }

    /** `find_vehicle_index`: a linear search of the rows in use. */
    method FindVehicleIndex(uid: Uid) returns (index: int)
      requires Valid()
      ensures index == Registry.IndexOf(Vehicles(), uid)
      ensures index == -1 <==> uid !in Vehicles()
    {
      for i := 0 to vehicleCount
        invariant forall j :: 0 <= j < i ==> db[j] != uid
      {
        if db[i] == uid {
          return i;
        }
      }
      return -1;
    }

    /** `add_vehicle`: copy `uid` into the next free row, unless all rows are in use. */
    method AddVehicle(uid: Uid) returns (ok: bool)
      requires Valid()
      modifies db, this`vehicleCount
      ensures Valid()
      ensures Registry.Added(ok, Vehicles()) == Registry.Add(old(Vehicles()), uid)
    {
      if vehicleCount >= Registry.MAX_VEHICLES {
        return false;
      }
      db[vehicleCount] := uid;
      vehicleCount := vehicleCount + 1;
      assert Vehicles() == old(Vehicles()) + [uid];
      return true;
    }

    /**
     * `remove_vehicle`: for an index of a row in use, copy the last row in
     * use over it byte by byte and drop the count; otherwise do nothing.
     */
    method RemoveVehicle(index: int)
      requires Valid()
      modifies db, this`vehicleCount
      ensures Valid()
      ensures Vehicles() == Registry.RemoveAt(old(Vehicles()), index)
    {
      if index < 0 || index >= vehicleCount {
        return;
      }
      var last := vehicleCount - 1;
      for i := 0 to 4
        invariant vehicleCount == old(vehicleCount)
        invariant forall k :: 0 <= k < db.Length && k != index ==> db[k] == old(db[k])
        invariant db[index][..i] == old(db[last])[..i]
        invariant db[index][i..] == old(db[index])[i..]
      {
        db[index] := db[index][i := db[last][i]];
      }
      assert db[index] == old(db[last]) by {
        assert db[index] == db[index][..4];
        assert old(db[last]) == old(db[last])[..4];
      }
      vehicleCount := vehicleCount - 1;
      assert Vehicles() == old(Vehicles())[index := old(db[last])][..last];
    }

    /**
     * One iteration of the main loop: refresh the indicators from the count
     * at the top of the loop, then run the state machine on this cycle's
     * snapshot of the card reader, the two beams and the clock.
     */
    method Step(card: Option<Uid>, entryBlocked: bool, exitBlocked: bool, now: U32)
      requires Valid()
      modifies this, db, display, lamp
      ensures Valid()
      ensures Abstract() == Next(old(Abstract()), Cycle(card, entryBlocked, exitBlocked, now))
      ensures freeSlotsShown == Registry.MAX_VEHICLES - old(vehicleCount)
      ensures display.line == old(display.line) +
        SevenSegment.DisplayPulses(SevenSegment.LED_TYPE, SevenSegment.ORDER_321, old(vehicleCount))
      ensures var (r, g, b) := Rgb.Components(OccupancyColour(old(vehicleCount)));
        lamp.ccr1 == Rgb.Scale8ToArr(r) && lamp.ccr2 == Rgb.Scale8ToArr(g) && lamp.ccr3 == Rgb.Scale8ToArr(b)
      ensures lamp.psc == old(lamp.psc) && lamp.arr == old(lamp.arr)
    {
      RefreshIndicators();
      var c := Cycle(card, entryBlocked, exitBlocked, now);
      match currentState
      case Closed => StepClosed(c);
      case AuthorizedWaitingVehicle => StepAuthorized(c);
      case Opening => StepOpening(c);
      case OpenWaitingPassage => StepPassage(c);
      case WaitBeforeClosing => StepWaitBeforeClosing(c);
      case Closing => StepClosing(c);
    }

    /**
     * The top of the loop: the free-slot count on the LCD, the vehicle count
     * on the 7-segment display, and the occupancy colour on the lamp.
     */
    method RefreshIndicators()
      requires Valid()
      modifies this`freeSlotsShown, display, lamp
      ensures Valid()
      ensures freeSlotsShown == Registry.MAX_VEHICLES - vehicleCount
      ensures display.line == old(display.line) +
        SevenSegment.DisplayPulses(SevenSegment.LED_TYPE, SevenSegment.ORDER_321, vehicleCount)
      ensures var (r, g, b) := Rgb.Components(OccupancyColour(vehicleCount));
        lamp.ccr1 == Rgb.Scale8ToArr(r) && lamp.ccr2 == Rgb.Scale8ToArr(g) && lamp.ccr3 == Rgb.Scale8ToArr(b)
      ensures lamp.psc == old(lamp.psc) && lamp.arr == old(lamp.arr)
    {
      freeSlotsShown := Registry.MAX_VEHICLES - vehicleCount;
      display.DisplayNumber(vehicleCount);
      if vehicleCount == Registry.MAX_VEHICLES {
        lamp.SetColor(255, 0, 0);
      } else if vehicleCount == 0 {
        lamp.SetColor(0, 255, 0);
      } else {
        lamp.SetColor(0, 0, 255);
      }
    }

    /** The CLOSED case of the loop: read a card and decide between entry, exit, "full" and "denied". */
    method StepClosed(c: Cycle)
      requires Valid() && currentState == Closed
      modifies this`currentUid, this`currentDirection, this`currentState,
               this`stateChangeTimestamp, this`status
      ensures Valid()
      ensures Abstract() == Next(old(Abstract()), c)
    {
      status := GateClosed;
      if c.card.Some? {
        currentUid := c.card.value;
        var authorized := AllowList.IsCardAuthorized(currentUid);
        if authorized {
          var vehicleIdx := FindVehicleIndex(currentUid);
          if vehicleIdx == -1 {
            if vehicleCount < Registry.MAX_VEHICLES {
              currentDirection := Entry;
              currentState := AuthorizedWaitingVehicle;
              stateChangeTimestamp := c.now;
              status := GateOpened;
            } else {
              status := ParkingFull;
            }
          } else {
            currentDirection := Exit;
            currentState := AuthorizedWaitingVehicle;
            stateChangeTimestamp := c.now;
            status := GateOpened;
          }
        } else {
          status := AccessDenied;
        }
      }
    }

    /** The AUTHORIZED_WAITING_VEHICLE case: sensor check first, timeout check second. */
    method StepAuthorized(c: Cycle)
      requires Valid() && currentState == AuthorizedWaitingVehicle
      modifies this`currentState, this`currentDirection
      ensures Valid()
      ensures Abstract() == Next(old(Abstract()), c)
    {
      if (currentDirection == Entry && c.entryBlocked) || (currentDirection == Exit && c.exitBlocked) {
        currentState := Opening;
      }
      if Elapsed(c.now, stateChangeTimestamp) > AUTHORIZED_TIMEOUT {
        currentState := Closed;
        currentDirection := NoDirection;
      }
    }

    /** The OPENING case: command the servo open, then wait for the passage with the flag cleared. */
    method StepOpening(c: Cycle)
      requires Valid() && currentState == Opening
      modifies this`status, this`barrierOpen, this`currentState,
               this`stateChangeTimestamp, this`vehicleIsPassing
      ensures Valid()
      ensures Abstract() == Next(old(Abstract()), c)
    {
      status := GateOpening;
      barrierOpen := true;
      currentState := OpenWaitingPassage;
      stateChangeTimestamp := c.now;
      vehicleIsPassing := false;
    }

    /**
     * The OPEN_WAITING_PASSAGE case: arm the passing flag, confirm the
     * passage and update the registry, then check the timeout.
     */
    method StepPassage(c: Cycle)
      requires Valid() && currentState == OpenWaitingPassage
      modifies db, this`vehicleCount, this`status, this`vehicleIsPassing,
               this`currentState, this`stateChangeTimestamp
      ensures Valid()
      ensures Abstract() == Next(old(Abstract()), c)
    {
      status := PleasePass;
      if !vehicleIsPassing {
        if (currentDirection == Entry && c.entryBlocked) || (currentDirection == Exit && c.exitBlocked) {
          vehicleIsPassing := true;
        }
      }
      if vehicleIsPassing {
        if !c.entryBlocked && !c.exitBlocked {
          if currentDirection == Entry {
            var added := AddVehicle(currentUid);
          } else if currentDirection == Exit {
            var vehicleIdx := FindVehicleIndex(currentUid);
            RemoveVehicle(vehicleIdx);
          }
          currentState := WaitBeforeClosing;
          stateChangeTimestamp := c.now;
        }
      }
      if Elapsed(c.now, stateChangeTimestamp) > PASSAGE_TIMEOUT {
        if !c.entryBlocked && !c.exitBlocked {
          currentState := Closing;
        }
      }
    }

    /** The WAIT_BEFORE_CLOSING case: move on to CLOSING once the settle delay has passed. */
    method StepWaitBeforeClosing(c: Cycle)
      requires Valid() && currentState == WaitBeforeClosing
      modifies this`status, this`currentState
      ensures Valid()
      ensures Abstract() == Next(old(Abstract()), c)
    {
      status := VehiclePassed;
      if Elapsed(c.now, stateChangeTimestamp) > DELAY_BEFORE_CLOSING {
        currentState := Closing;
      }
    }

    /** The CLOSING case: command the servo closed and drop the intent, only with both beams clear. */
    method StepClosing(c: Cycle)
      requires Valid() && currentState == Closing
      modifies this`status, this`barrierOpen, this`currentDirection, this`currentState
      ensures Valid()
      ensures Abstract() == Next(old(Abstract()), c)
    {
      if !c.entryBlocked && !c.exitBlocked {
        status := GateClosing;
        barrierOpen := false;
        currentDirection := NoDirection;
        currentState := Closed;
      }
    }

    /**
     * The first `|cycles|` iterations of the main loop, one per snapshot;
     * from a state satisfying the invariant, every state reached satisfies it.
     */
    method RunCycles(cycles: seq<Cycle>)
      requires Valid()
      modifies this, db, display, lamp
      ensures Valid()
      ensures Abstract() == Run(old(Abstract()), cycles)
      ensures Inv(old(Abstract())) ==> Inv(Abstract())
    {
      for k := 0 to |cycles|
        invariant Valid()
        invariant Abstract() == Run(old(Abstract()), cycles[..k])
      {
        var c := cycles[k];
        Step(c.card, c.entryBlocked, c.exitBlocked, c.now);
        RunSnoc(old(Abstract()), cycles[..k], c);
        assert cycles[..k + 1] == cycles[..k] + [c];
      }
      assert cycles[..|cycles|] == cycles;
      if Inv(old(Abstract())) {
        GateProperties.RunPreservesInv(old(Abstract()), cycles);
      }
    }
  }

  /** Running one more cycle after a sequence is running the extended sequence. */
  lemma {:induction false} RunSnoc(g: Gate, cs: seq<Cycle>, c: Cycle)
    ensures Run(g, cs + [c]) == Next(Run(g, cs), c)
    decreases |cs|
  {
    if cs == [] {
      assert [c][1..] == [];
    } else {
      assert (cs + [c])[1..] == cs[1..] + [c];
      RunSnoc(Next(g, cs[0]), cs[1..], c);
    }
  }
}
