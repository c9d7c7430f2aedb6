/** What the barrier state machine of Core/main.c guarantees, proved about `Gate.Next`. */
module GateProperties {
  import opened Common
  import opened Gate
  import AllowList
  import Registry

  /** The power-up state satisfies the invariant. */
  lemma InitialInv()
    ensures Inv(Initial())
  {
  }

  /** One loop iteration preserves the invariant, whatever the card, sensors and clock. */
  lemma NextPreservesInv(g: Gate, c: Cycle)
    requires Inv(g)
    ensures Inv(Next(g, c))
  {
    match g.state
    case Closed =>
      if c.card.Some? {
        var uid := c.card.value;
        assert Registry.IndexOf(g.vehicles, uid) == -1 <==> uid !in g.vehicles;
      }
    case OpenWaitingPassage =>
      var g0 := g.(status := PleasePass);
      var g1 := if !g0.passing && MatchingBlocked(g0.direction, c) then g0.(passing := true) else g0;
      if g1.passing && BothClear(c) {
        if g.direction == Entry {
          Registry.AddKeepsNoDuplicates(g.vehicles, g.currentUid);
        } else {
          Registry.RemoveByUid(g.vehicles, g.currentUid);
        }
      }
    case _ =>
  }

  /** Every state reached from `g` by any sequence of cycles satisfies the invariant. */
  lemma {:induction false} RunPreservesInv(g: Gate, cs: seq<Cycle>)
    requires Inv(g)
    ensures Inv(Run(g, cs))
    decreases |cs|
  {
    if cs != [] {
      NextPreservesInv(g, cs[0]);
      RunPreservesInv(Next(g, cs[0]), cs[1..]);
    }
  }

  /**
   * From power-up, after any sequence of cycles: at most four vehicles, none
   * twice, and a pending entry has room and a pending exit is registered.
   */
  lemma ReachableInv(cs: seq<Cycle>)
    ensures |Run(Initial(), cs).vehicles| <= Registry.MAX_VEHICLES
    ensures Registry.NoDuplicates(Run(Initial(), cs).vehicles)
    ensures Inv(Run(Initial(), cs))
  {
    RunPreservesInv(Initial(), cs);
  }

  /**
   * The `add_vehicle` whose result the loop ignores cannot fail: in a
   * reachable state, confirming an entry appends the latched card.
   */
  lemma EntryAddSucceeds(g: Gate, c: Cycle)
    requires Inv(g) && g.state == OpenWaitingPassage && g.direction == Entry
    ensures Registry.Add(g.vehicles, g.currentUid).ok
    ensures Next(g, c).state == WaitBeforeClosing ==> Next(g, c).vehicles == g.vehicles + [g.currentUid]
  {
  }

  /**
   * In a reachable state, confirming an exit finds the latched card and
   * removes exactly it.
   */
  lemma ExitRemoveFinds(g: Gate, c: Cycle)
    requires Inv(g) && g.state == OpenWaitingPassage && g.direction == Exit
    ensures Registry.IndexOf(g.vehicles, g.currentUid) != -1
    ensures Next(g, c).state == WaitBeforeClosing ==>
      |Next(g, c).vehicles| == |g.vehicles| - 1 &&
      forall x :: x in Next(g, c).vehicles <==> x in g.vehicles && x != g.currentUid
  {
    Registry.RemoveByUid(g.vehicles, g.currentUid);
  }

  /**
   * CLOSED with no card, an unknown card, or an authorised new card while the
   * lot is full: the gate stays CLOSED and the registry and intent are unchanged.
   */
  lemma ClosedRejects(g: Gate, c: Cycle)
    requires g.state == Closed
    requires || c.card.None?
             || (c.card.Some? && !AllowList.Authorized(c.card.value))
             || (c.card.Some? && c.card.value !in g.vehicles && |g.vehicles| >= Registry.MAX_VEHICLES)
    ensures Next(g, c).state == Closed
    ensures Next(g, c).vehicles == g.vehicles
    ensures Next(g, c).direction == g.direction
    ensures Next(g, c).timestamp == g.timestamp
    ensures c.card.Some? && !AllowList.Authorized(c.card.value) ==> Next(g, c).status == AccessDenied
    ensures c.card.Some? && AllowList.Authorized(c.card.value) ==> Next(g, c).status == ParkingFull
  {
  }

  /**
   * CLOSED with an authorised card: a registered card latches EXIT, an
   * unregistered card with a free row latches ENTRY; either way the machine
   * waits for the vehicle with the timestamp taken now.
   */
  lemma ClosedAccepts(g: Gate, c: Cycle, uid: Uid)
    requires g.state == Closed && c.card == Some(uid) && AllowList.Authorized(uid)
    requires uid in g.vehicles || |g.vehicles| < Registry.MAX_VEHICLES
    ensures Next(g, c).state == AuthorizedWaitingVehicle
    ensures Next(g, c).direction == (if uid in g.vehicles then Exit else Entry)
    ensures Next(g, c).timestamp == c.now
    ensures Next(g, c).currentUid == uid
    ensures Next(g, c).vehicles == g.vehicles
  {
  }

  /**
   * The registry changes only when OPEN_WAITING_PASSAGE confirms a passage:
   * the flag was armed in an earlier cycle and both beams are clear now.
   */
  lemma RegistryChangesOnlyOnPassage(g: Gate, c: Cycle)
    requires Next(g, c).vehicles != g.vehicles
    ensures g.state == OpenWaitingPassage && g.passing && BothClear(c)
    ensures Next(g, c).state == WaitBeforeClosing
  {
  }

  /**
   * With one sensor snapshot per cycle, arming the passing flag and
   * confirming the passage never happen in the same cycle.
   */
  lemma NoArmAndConfirmInOneCycle(g: Gate, c: Cycle)
    requires g.state == OpenWaitingPassage && !g.passing
    ensures Next(g, c).vehicles == g.vehicles
    ensures Next(g, c).state != WaitBeforeClosing
    ensures Next(g, c).passing <==> MatchingBlocked(g.direction, c)
  {
  }

  /**
   * A passage confirmed after arming: both beams clear is enough, whichever
   * beam was interrupted before (a spurious block on the other side included).
   */
  lemma ArmedPassageConfirms(g: Gate, c: Cycle)
    requires g.state == OpenWaitingPassage && g.passing && BothClear(c)
    ensures Next(g, c).state == WaitBeforeClosing
    ensures Next(g, c).timestamp == c.now
    ensures Next(g, c).vehicles == PassageUpdate(g.direction, g.vehicles, g.currentUid)
  {
  }

  /**
   * The passage timeout leads to CLOSING only when both beams are clear and
   * never touches the registry; with a beam blocked the gate keeps waiting.
   */
  lemma PassageTimeout(g: Gate, c: Cycle)
    requires g.state == OpenWaitingPassage
    ensures Next(g, c).state == Closing ==>
      BothClear(c) && Next(g, c).vehicles == g.vehicles && Elapsed(c.now, g.timestamp) > PASSAGE_TIMEOUT
    ensures !BothClear(c) ==> Next(g, c).state == OpenWaitingPassage
    ensures !g.passing && BothClear(c) && Elapsed(c.now, g.timestamp) > PASSAGE_TIMEOUT ==>
      Next(g, c).state == Closing
  {
  }

  /**
   * CLOSING closes (and clears the intent) exactly when both beams are clear;
   * otherwise the state and intent are left as they were.
   */
  lemma ClosingInterlock(g: Gate, c: Cycle)
    requires g.state == Closing
    ensures Next(g, c).state == Closed <==> BothClear(c)
    ensures BothClear(c) ==> Next(g, c).direction == NoDirection && !Next(g, c).barrierOpen
    ensures !BothClear(c) ==> Next(g, c) == g
  {
  }

  /** The servo is never commanded closed while either beam is interrupted. */
  lemma NeverCloseOnObstruction(g: Gate, c: Cycle)
    requires g.barrierOpen && !Next(g, c).barrierOpen
    ensures BothClear(c)
    ensures g.state == Closing && Next(g, c).state == Closed
  {
  }

  /**
   * AUTHORIZED_WAITING_VEHICLE: a timeout cancels to CLOSED with no intent even
   * when the matching beam was interrupted in the same cycle; without a
   * timeout the matching beam starts OPENING and otherwise nothing changes.
   */
  lemma AuthorizedTimeoutWins(g: Gate, c: Cycle)
    requires g.state == AuthorizedWaitingVehicle
    ensures Elapsed(c.now, g.timestamp) > AUTHORIZED_TIMEOUT ==>
      Next(g, c).state == Closed && Next(g, c).direction == NoDirection && Next(g, c).vehicles == g.vehicles
    ensures Elapsed(c.now, g.timestamp) <= AUTHORIZED_TIMEOUT && MatchingBlocked(g.direction, c) ==>
      Next(g, c) == g.(state := Opening)
    ensures Elapsed(c.now, g.timestamp) <= AUTHORIZED_TIMEOUT && !MatchingBlocked(g.direction, c) ==>
      Next(g, c) == g
  {
  }

  /** WAIT_BEFORE_CLOSING moves to CLOSING once the settle delay has elapsed, whatever the beams show. */
  lemma SettleDelay(g: Gate, c: Cycle)
    requires g.state == WaitBeforeClosing
    ensures Next(g, c).state == (if Elapsed(c.now, g.timestamp) > DELAY_BEFORE_CLOSING then Closing else WaitBeforeClosing)
    ensures Next(g, c).vehicles == g.vehicles
  {
  }
}

/** A complete entry from power-up, cycle by cycle, as `Gate.Run` plays it out. */
module GateScenarios {
  import opened Common
  import opened Gate
  import AllowList

  /**
   * An authorised card on an empty lot, the entry beam interrupted, the
   * barrier opening: the registry is still empty while the vehicle passes
   * (the add happens only on confirmation). Then the beam is interrupted
   * again and clears: the card is registered and the gate waits to close.
   */
  lemma EntryScenario(a: Uid)
    requires AllowList.Authorized(a)
    ensures Run(Initial(), [Cycle(Some(a), false, false, 0), Cycle(None, true, false, 100),
                            Cycle(None, false, false, 200)]).state == OpenWaitingPassage
    ensures Run(Initial(), [Cycle(Some(a), false, false, 0), Cycle(None, true, false, 100),
                            Cycle(None, false, false, 200)]).vehicles == []
    ensures Run(Initial(), [Cycle(Some(a), false, false, 0), Cycle(None, true, false, 100),
                            Cycle(None, false, false, 200), Cycle(None, true, false, 300),
                            Cycle(None, false, false, 400)]).state == WaitBeforeClosing
    ensures Run(Initial(), [Cycle(Some(a), false, false, 0), Cycle(None, true, false, 100),
                            Cycle(None, false, false, 200), Cycle(None, true, false, 300),
                            Cycle(None, false, false, 400)]).vehicles == [a]
  {
    var c1, c2, c3 := Cycle(Some(a), false, false, 0), Cycle(None, true, false, 100), Cycle(None, false, false, 200);
    var c4, c5 := Cycle(None, true, false, 300), Cycle(None, false, false, 400);
    var g1 := Next(Initial(), c1);
    assert g1.state == AuthorizedWaitingVehicle && g1.direction == Entry && g1.currentUid == a && g1.timestamp == 0;
    var g2 := Next(g1, c2);
    assert g2.state == Opening && g2.vehicles == [];
    var g3 := Next(g2, c3);
    assert g3.state == OpenWaitingPassage && !g3.passing && g3.timestamp == 200;
    var g4 := Next(g3, c4);
    assert g4.state == OpenWaitingPassage && g4.passing && g4.vehicles == [];
    var g5 := Next(g4, c5);
    assert g5.state == WaitBeforeClosing && g5.vehicles == [a];
    RunUnfold(Initial(), [c1, c2, c3]);
    RunUnfold(g1, [c2, c3]);
    RunUnfold(g2, [c3]);
    RunUnfold(g3, []);
    RunUnfold(Initial(), [c1, c2, c3, c4, c5]);
    RunUnfold(g1, [c2, c3, c4, c5]);
    RunUnfold(g2, [c3, c4, c5]);
    RunUnfold(g3, [c4, c5]);
    RunUnfold(g4, [c5]);
    RunUnfold(g5, []);
  }

  /** `Run` takes the first cycle first. */
  lemma RunUnfold(g: Gate, cs: seq<Cycle>)
    ensures cs == [] ==> Run(g, cs) == g
    ensures cs != [] ==> Run(g, cs) == Run(Next(g, cs[0]), cs[1..])
  {
  }
}
