/**
 * The barrier state machine of Core/main.c as a function on values: one
 * iteration of the main loop's `switch (currentState)`, fed by a single
 * snapshot of the card reader, the two infrared sensors and the tick clock.
 */
module Gate {
  import opened Common
  import AllowList
  import Registry

  /** `AUTHORIZED_TIMEOUT`, `PASSAGE_TIMEOUT`, `DELAY_BEFORE_CLOSING`, in milliseconds. */
  const AUTHORIZED_TIMEOUT: nat := 10000
  const PASSAGE_TIMEOUT: nat := 15000
  const DELAY_BEFORE_CLOSING: nat := 2000

  /** `BarrierState_t`. */
  datatype State =
    | Closed
    | AuthorizedWaitingVehicle
    | Opening
    | OpenWaitingPassage
    | Closing
    | WaitBeforeClosing

  /** `VehicleDirection_t`: the intent latched when a card is accepted. */
  datatype Direction = NoDirection | Entry | Exit

  /** The text last written to the second LCD line. */
  datatype Status =
    | Cleared
    | GateClosed
    | GateOpened
    | ParkingFull
    | AccessDenied
    | GateOpening
    | PleasePass
    | VehiclePassed
    | GateClosing

  /**
   * What one loop iteration observes: the card the reader returns in CLOSED
   * (or none), whether each infrared beam is interrupted, and the tick count.
   */
  datatype Cycle = Cycle(card: Option<Uid>, entryBlocked: bool, exitBlocked: bool, now: U32)

  /**
   * The controller's globals: `currentState`, `current_direction`,
   * `current_uid`, `state_change_timestamp`, `vehicle_is_passing`, the
   * registry rows in use, whether the servo was last commanded open, and
   * the status line.
   */
  datatype Gate = Gate(
    state: State,
    direction: Direction,
    currentUid: Uid,
    timestamp: U32,
    passing: bool,
    vehicles: seq<Uid>,
    barrierOpen: bool,
    status: Status)

  /** The globals at power-up: closed, no intent, zeroed storage, empty registry. */
  function Initial(): (g: Gate)
    ensures g.state == Closed && g.vehicles == [] && !g.barrierOpen
  {
    Gate(Closed, NoDirection, [0, 0, 0, 0], 0, false, [], false, Cleared)
  }

  /** Both beams are clear in this cycle's snapshot. */
  predicate BothClear(c: Cycle) {
    !c.entryBlocked && !c.exitBlocked
  }

  /** The beam on the side of the latched intent is interrupted. */
  predicate MatchingBlocked(d: Direction, c: Cycle) {
    (d == Entry && c.entryBlocked) || (d == Exit && c.exitBlocked)
  }

  /**
   * The registry update made when a passage is confirmed: an entry adds the
   * card when there is room, an exit takes one row away when the card is
   * registered, and anything else leaves the registry as it was.
   */
  function PassageUpdate(d: Direction, vs: seq<Uid>, uid: Uid): (r: seq<Uid>)
    ensures d == Entry && |vs| < Registry.MAX_VEHICLES ==> |r| == |vs| + 1 && uid in r
    ensures d == Exit && uid in vs ==> |r| == |vs| - 1
    ensures (d == Entry && |vs| >= Registry.MAX_VEHICLES) || (d == Exit && uid !in vs) || d == NoDirection ==> r == vs
  {
    match d
    case Entry => Registry.Add(vs, uid).vehicles
    case Exit => Registry.RemoveAt(vs, Registry.IndexOf(vs, uid))
    case NoDirection => vs
  }

  /** The CLOSED branch: read a card, check it, and latch an intent. */
  function ClosedStep(g: Gate, c: Cycle): (r: Gate)
    requires g.state == Closed
    ensures r.vehicles == g.vehicles && r.barrierOpen == g.barrierOpen
    ensures r.state == AuthorizedWaitingVehicle <==>
      c.card.Some? && AllowList.Authorized(c.card.value) &&
      (c.card.value in g.vehicles || |g.vehicles| < Registry.MAX_VEHICLES)
    ensures r.state != AuthorizedWaitingVehicle ==> r.state == Closed && r.direction == g.direction
  {
    var g0 := g.(status := GateClosed);
    match c.card
    case None => g0
    case Some(uid) =>
      var g1 := g0.(currentUid := uid);
      if !AllowList.Authorized(uid) then g1.(status := AccessDenied)
      else if Registry.IndexOf(g.vehicles, uid) == -1 then
        if |g.vehicles| < Registry.MAX_VEHICLES then
          g1.(direction := Entry, state := AuthorizedWaitingVehicle, timestamp := c.now, status := GateOpened)
        else
          g1.(status := ParkingFull)
      else
        g1.(direction := Exit, state := AuthorizedWaitingVehicle, timestamp := c.now, status := GateOpened)
  }

  /**
   * The AUTHORIZED_WAITING_VEHICLE branch: the matching beam starts the
   * opening, and a timeout checked afterwards cancels back to CLOSED.
   */
  function AuthorizedStep(g: Gate, c: Cycle): (r: Gate)
    requires g.state == AuthorizedWaitingVehicle
    ensures r.vehicles == g.vehicles && r.barrierOpen == g.barrierOpen
    ensures r.state == Closed <==> Elapsed(c.now, g.timestamp) > AUTHORIZED_TIMEOUT
    ensures r.state == Opening <==> Elapsed(c.now, g.timestamp) <= AUTHORIZED_TIMEOUT && MatchingBlocked(g.direction, c)
  {
    var g1 := if MatchingBlocked(g.direction, c) then g.(state := Opening) else g;
    if Elapsed(c.now, g.timestamp) > AUTHORIZED_TIMEOUT then
      g1.(state := Closed, direction := NoDirection)
    else g1
  }

  /**
   * The OPEN_WAITING_PASSAGE branch: stage 1 arms the passing flag, stage 2
   * confirms the passage once both beams are clear and updates the
   * registry, and the timeout check runs last.
   */
  function PassageStep(g: Gate, c: Cycle): (r: Gate)
    requires g.state == OpenWaitingPassage
    ensures r.state == OpenWaitingPassage || r.state == WaitBeforeClosing || r.state == Closing
    ensures r.vehicles != g.vehicles ==> g.passing && BothClear(c)
    ensures r.state != OpenWaitingPassage ==> BothClear(c)
    ensures r.barrierOpen == g.barrierOpen
  {
    var g0 := g.(status := PleasePass);
    var g1 := if !g0.passing && MatchingBlocked(g0.direction, c) then g0.(passing := true) else g0;
    var g2 :=
      if g1.passing && BothClear(c) then
        g1.(vehicles := PassageUpdate(g1.direction, g1.vehicles, g1.currentUid),
            state := WaitBeforeClosing, timestamp := c.now)
      else g1;
    if Elapsed(c.now, g2.timestamp) > PASSAGE_TIMEOUT && BothClear(c) then g2.(state := Closing)
    else g2
  }

  /**
   * The transitions the loop can take in one iteration: each state either
   * stays or moves along one edge of the barrier's state graph.
   */
  predicate Edge(from: State, to: State) {
    from == to ||
    match from
    case Closed => to == AuthorizedWaitingVehicle
    case AuthorizedWaitingVehicle => to == Opening || to == Closed
    case Opening => to == OpenWaitingPassage
    case OpenWaitingPassage => to == WaitBeforeClosing || to == Closing
    case WaitBeforeClosing => to == Closing
    case Closing => to == Closed
  }

  /**
   * One iteration of the main loop's state machine. It follows an edge of
   * the state graph, changes the registry by at most one row, commands the
   * servo only in OPENING and CLOSING, and latches a card only in CLOSED.
   */
  function Next(g: Gate, c: Cycle): (r: Gate)
    ensures Edge(g.state, r.state)
    ensures |g.vehicles| - 1 <= |r.vehicles| <= |g.vehicles| + 1
    ensures r.barrierOpen != g.barrierOpen ==> g.state == Opening || g.state == Closing
    ensures r.currentUid != g.currentUid ==> g.state == Closed
  {
    match g.state
    case Closed => ClosedStep(g, c)
    case AuthorizedWaitingVehicle => AuthorizedStep(g, c)
    case Opening =>
      g.(status := GateOpening, barrierOpen := true, state := OpenWaitingPassage,
         timestamp := c.now, passing := false)
    case OpenWaitingPassage => PassageStep(g, c)
    case WaitBeforeClosing =>
      var g0 := g.(status := VehiclePassed);
      if Elapsed(c.now, g.timestamp) > DELAY_BEFORE_CLOSING then g0.(state := Closing) else g0
    case Closing =>
      if BothClear(c) then
        g.(status := GateClosing, barrierOpen := false, direction := NoDirection, state := Closed)
      else g
  }

  /**
   * The state after running the loop once per cycle of `cs`, in order. The
   * registry grows or shrinks by at most one row per cycle.
   */
  function Run(g: Gate, cs: seq<Cycle>): (r: Gate)
    ensures |g.vehicles| - |cs| <= |r.vehicles| <= |g.vehicles| + |cs|
    decreases |cs|
  {
    if cs == [] then g else Run(Next(g, cs[0]), cs[1..])
  }

  /** The state is one in which a card has been accepted and the vehicle has not yet passed. */
  predicate Pending(s: State) {
    s == AuthorizedWaitingVehicle || s == Opening || s == OpenWaitingPassage
  }

  /**
   * What holds in every reachable state: the registry is bounded and
   * duplicate-free; an intent is latched exactly outside CLOSED; while a
   * request is pending an entering card is absent with a free row and an
   * exiting card is present; the servo is open exactly in the states after
   * OPENING and before CLOSED.
   */
  predicate Inv(g: Gate) {
    && |g.vehicles| <= Registry.MAX_VEHICLES
    && Registry.NoDuplicates(g.vehicles)
    && (g.direction == NoDirection <==> g.state == Closed)
    && (Pending(g.state) && g.direction == Entry ==>
          g.currentUid !in g.vehicles && |g.vehicles| < Registry.MAX_VEHICLES)
    && (Pending(g.state) && g.direction == Exit ==> g.currentUid in g.vehicles)
    && (g.barrierOpen <==> g.state in {OpenWaitingPassage, WaitBeforeClosing, Closing})
  }
}
