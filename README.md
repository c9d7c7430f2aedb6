# Parking-lot barrier controller — Dafny model

This project models the firmware core of a small parking-lot barrier built on
an STM32 board. The firmware reads RFID cards at one gate and checks them
against a fixed allow-list. It keeps a registry of at most four vehicles that
are inside, and it drives a barrier servo through a six-state machine, using
two infrared beams (entry side and exit side) and a millisecond tick clock.
On every pass of the main loop it also refreshes three indicators: the number
of free slots on the LCD, the vehicle count on a three-digit 7-segment display
driven through a 74HC595 shift-register chain, and an RGB lamp driven by three
PWM channels of timer TIM1.

Modules:

- `Common` (common.dfy): the 4-byte card identifier, `uint32_t` values, and
  the wrapping tick difference used by every timeout.
- `AllowList` (allow_list.dfy): the `VALID_UIDS` table and `is_card_authorized`.
- `Registry` (registry.dfy): the registry as a sequence of identifiers
  (`find_vehicle_index`, `add_vehicle`, `remove_vehicle`), with its multiset,
  capacity and no-duplicate laws.
- `Gate` (gate.dfy): one iteration of the `switch (currentState)` as the
  function `Gate.Next` on a value holding the controller's globals. It also
  defines the invariant `Gate.Inv` that every reachable state satisfies.
- `GateProperties` and `GateScenarios` (gate_properties.dfy): what the state
  machine guarantees, proved about `Gate.Next` and `Gate.Run`.
- `Controller` (controller.dfy): the globals of Core/main.c as a class.
  - The registry is an `array` of four rows plus `vehicleCount`, updated in
    place.
  - `Step` is one loop iteration, with one method per state.
  - Each method is proved to move the object exactly as `Gate.Next` moves its
    abstraction, and to drive the indicators from the count.
- `SevenSegment` (seven_segment.dfy): the 74HC595 driver.
  - Digit encoding, leading-zero blanking and byte order are modelled.
  - The serial line is modelled as a sequence of shift and latch pulses.
  - The round trip from a number to the pulses and back is proved.
- `Rgb` (rgb.dfy): `scale8_to_arr`, `compute_psc` with exact 32-bit wrap-around,
  and the three duty registers written by `RGB_SetColor`.

The card reader, the two beams and the clock are inputs: one snapshot
`Gate.Cycle(card, entryBlocked, exitBlocked, now)` per loop iteration. The
servo is recorded as the last command given (`barrierOpen`). The LCD's second
line is recorded as a status label.

The board is configured for a common-anode display with `ORDER_321` set. The
`SevenSegment.ShiftRegister` constructor takes both settings as parameters,
and `Controller` builds it with `LED_TYPE = CommonAnode` and
`ORDER_321 = true`.

## Model

| member | source | states |
|---|---|---|
| `Common.Elapsed` | Core/main.c:289 | the unsigned tick difference `now - ts`: exactly `now - ts` when the counter has not wrapped, `now + 2^32 - ts` when it has |
| `AllowList.IsCardAuthorized` | Core/main.c:85-91 | the row-by-row scan answers true iff the identifier is byte-for-byte equal to one of the `VALID_UIDS` rows |
| `AllowList.ValidUidsDistinct` | Core/main.c:47-55 | the allow-list has four rows and no card appears in it twice |
| `AllowList.Authorized` | Core/main.c:85-91 | no contract of its own: a card is authorised iff it is one of the `VALID_UIDS` rows; `AllowList.IsCardAuthorized` is proved to compute exactly this |
| `AllowList.AuthorizedRowUnique` | Core/main.c:47-52 | an authorised card matches exactly one row of the table (from `AllowList.ValidUidsDistinct`) |
| `Registry.IndexOf` | Core/main.c:98-105 | the search returns -1 iff the identifier is not among the rows in use; otherwise an index in range whose row equals it, with no earlier row equal |
| `Registry.Add` | Core/main.c:112-119 | adding succeeds iff fewer than four rows are in use; on failure nothing changes; on success the old rows are kept in place and the identifier fills the next row |
| `Registry.RemoveAt` | Core/main.c:125-134 | an index outside [0, count) changes nothing; a valid index shortens the registry by one |
| `Registry.AddMultiset` | Core/main.c:116-117 | a successful add adds exactly one copy of the identifier and nothing else |
| `Registry.AddKeepsNoDuplicates` | Core/main.c:112-119 | adding an identifier that is not yet present keeps the rows pairwise distinct |
| `Registry.AddWhenFull` | Core/main.c:113-115 | capacity law: with four rows in use, a further add returns false and the registry is unchanged |
| `Registry.RemoveAtMultiset` | Core/main.c:125-134 | removal leaves the old multiset minus exactly the removed entry |
| `Registry.RemoveAtShape` | Core/main.c:129-132 | every other row keeps its place, and the last row is moved into the hole |
| `Registry.RemoveAtKeepsNoDuplicates` | Core/main.c:125-134 | removal keeps the rows distinct; the removed identifier is then absent and every other identifier stays |
| `Registry.RemoveByUid` | Core/main.c:325 | removing by identifier: an absent identifier leaves the registry unchanged (idempotence); a present one is the only one to leave, and the count drops by one |
| `Gate.Initial` | Core/main.c:58-78 | power-up: state CLOSED, empty registry, barrier not commanded open |
| `Gate.PassageUpdate` | Core/main.c:322-326 | on a confirmed passage, an entry with room adds the card (one more row), an exit of a registered card takes one row away, and a full lot, an unregistered exit or no intent leave the registry as it was |
| `Gate.ClosedStep` | Core/main.c:243-279 | the CLOSED branch never changes the registry or the servo; it moves to AUTHORIZED_WAITING_VEHICLE iff a card was read that is authorised and either registered or has a free row, and otherwise stays CLOSED with the intent unchanged |
| `Gate.AuthorizedStep` | Core/main.c:281-293 | the AUTHORIZED_WAITING_VEHICLE branch never changes the registry or the servo; it returns to CLOSED iff the timeout has elapsed, and moves to OPENING iff it has not and the matching beam is interrupted |
| `Gate.PassageStep` | Core/main.c:305-338 | the OPEN_WAITING_PASSAGE branch stays, moves to WAIT_BEFORE_CLOSING or moves to CLOSING; it leaves only with both beams clear, and changes the registry only when the flag was armed in an earlier cycle and both beams are clear |
| `Gate.Next` | Core/main.c:242-359 | one iteration follows an edge of the state graph (CLOSED → AUTHORIZED_WAITING_VEHICLE → OPENING → OPEN_WAITING_PASSAGE → WAIT_BEFORE_CLOSING → CLOSING → CLOSED, plus the timeout edges to CLOSED and CLOSING) or stays; it changes the registry by at most one row, commands the servo only in OPENING and CLOSING, and latches a card only in CLOSED |
| `Gate.Run` | Core/main.c:222-361 | after `n` iterations the registry has grown or shrunk by at most `n` rows |
| `Gate.Inv` | Core/main.c:242-359 | no contract of its own: the invariant of reachable states (count ≤ 4, no duplicates, intent set exactly outside CLOSED, pending entry absent with room, pending exit present, servo open exactly in OPEN_WAITING_PASSAGE, WAIT_BEFORE_CLOSING and CLOSING); `GateProperties.InitialInv` establishes it and `GateProperties.NextPreservesInv` preserves it |
| `GateProperties.InitialInv` | Core/main.c:58-78 | the power-up state satisfies the invariant |
| `GateProperties.NextPreservesInv` | Core/main.c:242-359 | one loop iteration preserves the invariant (count ≤ 4, no duplicates, intent set exactly outside CLOSED, pending entry absent with room, pending exit present, servo open exactly in OPEN_WAITING_PASSAGE, WAIT_BEFORE_CLOSING and CLOSING), for every card, beam and clock input |
| `GateProperties.RunPreservesInv` | Core/main.c:222-361 | any sequence of loop iterations preserves the invariant |
| `GateProperties.ReachableInv` | Core/main.c:253-271 | after any sequence of cycles from power-up, at most four vehicles are registered, none twice, and the pending-entry and pending-exit facts hold |
| `GateProperties.EntryAddSucceeds` | Core/main.c:322-323 | the `add_vehicle` whose result the loop ignores cannot fail in a reachable state; a confirmed entry appends the latched card |
| `GateProperties.ExitRemoveFinds` | Core/main.c:324-325 | in a reachable state a confirmed exit finds the latched card and removes exactly it |
| `GateProperties.ClosedRejects` | Core/main.c:243-279 | in CLOSED, no card, an unknown card, or an authorised unregistered card with the lot full leaves the state CLOSED and the registry, intent and timestamp unchanged, with the "denied" or "full" notice |
| `GateProperties.ClosedAccepts` | Core/main.c:251-271 | in CLOSED, an authorised registered card latches EXIT and an authorised unregistered card with room latches ENTRY; both move to AUTHORIZED_WAITING_VEHICLE with the timestamp taken now |
| `GateProperties.RegistryChangesOnlyOnPassage` | Core/main.c:310-330 | the registry changes only in OPEN_WAITING_PASSAGE, when the passing flag was already armed and both beams are clear, and the state becomes WAIT_BEFORE_CLOSING |
| `GateProperties.NoArmAndConfirmInOneCycle` | Core/main.c:310-330 | with one sensor snapshot per cycle, the cycle that arms the passing flag never confirms the passage; the flag is armed iff the matching beam is interrupted |
| `GateProperties.ArmedPassageConfirms` | Core/main.c:317-329 | once armed, both beams clear confirm the passage whichever beam was interrupted before; the registry update is applied and the timestamp reset |
| `GateProperties.PassageTimeout` | Core/main.c:332-337 | the passage timeout moves to CLOSING only with both beams clear and never touches the registry; with a beam blocked the gate stays in OPEN_WAITING_PASSAGE |
| `GateProperties.ClosingInterlock` | Core/main.c:348-358 | CLOSING reaches CLOSED (intent cleared, servo closed) iff both beams are clear; otherwise nothing changes |
| `GateProperties.NeverCloseOnObstruction` | Core/main.c:350-356 | the servo is commanded closed only from CLOSING and only when both beams are clear |
| `GateProperties.AuthorizedTimeoutWins` | Core/main.c:283-292 | a timeout in AUTHORIZED_WAITING_VEHICLE returns to CLOSED with no intent even if the matching beam was interrupted in the same cycle; before the timeout the matching beam moves to OPENING, and otherwise nothing changes |
| `GateProperties.SettleDelay` | Core/main.c:339-347 | WAIT_BEFORE_CLOSING moves to CLOSING exactly when the settle delay has elapsed, and leaves the registry alone |
| `GateScenarios.EntryScenario` | Core/main.c:243-330 | a full entry from power-up: the registry is still empty while the barrier is open, and the card is registered once the beam has been interrupted and cleared |
| `Controller.OccupancyColour` | Core/main.c:233-239 | the lamp is red iff the lot is full, green iff it is empty, and blue iff it is partly occupied |
| `Controller.Controller.constructor` | Core/main.c:58-78 | the globals start zeroed with an empty registry; the display line is empty and the lamp timer runs with prescaler 167 and period 999 |
| `Controller.Controller.FindVehicleIndex` | Core/main.c:98-105 | the loop over the array returns what `Registry.IndexOf` returns on the rows in use, so -1 iff the card is not registered |
| `Controller.Controller.AddVehicle` | Core/main.c:112-119 | the in-place write to row `vehicle_count` and the increment give the result and rows `Registry.Add` specifies |
| `Controller.Controller.RemoveVehicle` | Core/main.c:125-134 | the byte-by-byte copy of the last row over row `index` and the decrement leave the rows `Registry.RemoveAt` specifies |
| `Controller.Controller.Step` | Core/main.c:222-361 | one loop iteration: the globals move exactly as `Gate.Next` on this cycle's snapshot; the LCD shows 4 − count, the display line receives the frame for the count, and the lamp gets the occupancy colour, all from the count at the top of the loop |
| `Controller.Controller.RefreshIndicators` | Core/main.c:223-239 | free slots = 4 − count, the 7-segment pulses for the count, and the lamp duty cycles for the occupancy colour; timer period and prescaler untouched |
| `Controller.Controller.StepClosed` | Core/main.c:243-279 | the CLOSED branch moves the globals as `Gate.Next` does |
| `Controller.Controller.StepAuthorized` | Core/main.c:281-293 | the AUTHORIZED_WAITING_VEHICLE branch, sensor check before timeout check, moves the globals as `Gate.Next` does |
| `Controller.Controller.StepOpening` | Core/main.c:295-303 | the OPENING branch commands the servo open, resets the flag and timestamp, as `Gate.Next` does |
| `Controller.Controller.StepPassage` | Core/main.c:305-338 | the OPEN_WAITING_PASSAGE branch (arm, confirm and update the array, then timeout) moves the globals as `Gate.Next` does |
| `Controller.Controller.StepWaitBeforeClosing` | Core/main.c:339-347 | the WAIT_BEFORE_CLOSING branch moves the globals as `Gate.Next` does |
| `Controller.Controller.StepClosing` | Core/main.c:348-358 | the CLOSING branch moves the globals as `Gate.Next` does |
| `Controller.Controller.RunCycles` | Core/main.c:222-361 | iterating the loop over a sequence of snapshots gives `Gate.Run` of them, and keeps the invariant |
| `SevenSegment.EncodeDigit` | Led_Segment/74hc595.c:70-77 | no digit pattern is the blank pattern |
| `SevenSegment.EncodeDecode` | Led_Segment/74hc595.c:70-77 | the pattern for `d` (complemented on a common-anode display) decodes back to `d % 10` |
| `SevenSegment.DigitCodesDistinct` | Led_Segment/74hc595.c:5-8 | the ten digit patterns are pairwise distinct and none equals the blank, for either polarity |
| `SevenSegment.Blank` | Led_Segment/74hc595.c:91-95 | the all-dark pattern (0x00 for common cathode, 0xFF for common anode) differs from the pattern of every digit |
| `SevenSegment.Clamp` | Led_Segment/74hc595.c:84 | numbers above 999 are shown as 999; others unchanged |
| `SevenSegment.SplitDigits` | Led_Segment/74hc595.c:86-88 | the three extracted digits are each below 10 and 100·h + 10·t + o equals the number |
| `SevenSegment.LeadingZeros` | Led_Segment/74hc595.c:86-88 | the hundreds digit of a number below 100, and the tens digit of a number below 10, are zero |
| `SevenSegment.DigitBytes` | Led_Segment/74hc595.c:97-100 | the hundreds byte is blank iff the number is below 100, the tens byte iff below 10, and the ones byte is never blank |
| `SevenSegment.LeadingByte` | Led_Segment/74hc595.c:98-99 | a hundreds or tens byte is the blank iff its digit is not shown |
| `SevenSegment.LeadingByteDecodes` | Led_Segment/74hc595.c:98-99 | a hundreds or tens byte is either the blank standing for a zero or a pattern that decodes to its digit |
| `SevenSegment.ShiftOrder` | Led_Segment/74hc595.c:103-111 | the reordered frame has three bytes; which byte goes first is stated by `SevenSegment.FrameOrder` |
| `SevenSegment.ShiftOrderInvolutive` | Led_Segment/74hc595.c:103-111 | reversing the byte order twice gives back the original bytes |
| `SevenSegment.Frame` | Led_Segment/74hc595.c:97-111 | the frame sent for a number has exactly three bytes |
| `SevenSegment.FrameOrder` | Led_Segment/74hc595.c:103-111 | under `ORDER_321` the ones byte is shifted first, then the tens byte, then the hundreds byte, with leading zeros blank; without it the order is hundreds, tens, ones |
| `SevenSegment.DecodeDigitBytes` | Led_Segment/74hc595.c:97-111 | three bytes that are digit patterns, or blanks for the leading zeros, decode in either order to the number they spell |
| `SevenSegment.FrameRoundTrip` | Led_Segment/74hc595.c:83-111 | decoding the three bytes sent for `num` gives back the clamped number |
| `SevenSegment.FrameInjective` | Led_Segment/74hc595.c:83-111 | two numbers in 0..999 are sent as the same three bytes only if they are equal |
| `SevenSegment.BitsMsbFirst` | Led_Segment/74hc595.c:47-53 | a byte is sent as exactly eight bits |
| `SevenSegment.AssemblePrefix` | Led_Segment/74hc595.c:47-53 | the first `k` bits sent, clocked into a shift register, hold the top `k` bits of the byte |
| `SevenSegment.SendByteRoundTrip` | Led_Segment/74hc595.c:47-53 | the eight bits sent, most significant first, reassemble to the byte |
| `SevenSegment.BytePulses` | Led_Segment/74hc595.c:47-53 | a sequence of bytes is sent as eight shift pulses per byte and no latch |
| `SevenSegment.DisplayPulses` | Led_Segment/74hc595.c:83-115 | a display update is 24 shift pulses followed by exactly one latch |
| `SevenSegment.DisplayRoundTrip` | Led_Segment/74hc595.c:83-115 | reading back the line (24 data pulses, then exactly one latch) shows the clamped number |
| `SevenSegment.ShiftRegister.constructor` | Led_Segment/74hc595.c:19-27 | after initialisation nothing has been sent, and the board configuration is recorded |
| `SevenSegment.ShiftRegister.SendBit` | Led_Segment/74hc595.c:33-41 | one shift pulse carrying the bit is appended to the line |
| `SevenSegment.ShiftRegister.SendByte` | Led_Segment/74hc595.c:47-53 | the loop that tests bit 7 and shifts the working copy left appends the byte's eight bits, most significant first |
| `SevenSegment.ShiftRegister.Latch` | Led_Segment/74hc595.c:58-63 | exactly one latch pulse is appended |
| `SevenSegment.ShiftRegister.DisplayNumber` | Led_Segment/74hc595.c:83-115 | the line receives the pulses of the clamped, blanked, ordered frame followed by one latch |
| `SevenSegment.ShiftRegister.SendThree` | Led_Segment/74hc595.c:104-106 | three byte sends in a row append the pulses of the three-byte frame |
| `Rgb.Scale8ToArr` | Led_RGB/rgb.c:43-47 | the duty value is at most `PWM_ARR` = 999 and is the rounding to nearest of v·999/255: v·999 − 128 < 255·r ≤ v·999 + 127 |
| `Rgb.Scale8Endpoints` | Led_RGB/rgb.c:45-46 | 0 maps to 0 and 255 maps to 999 |
| `Rgb.Scale8Monotone` | Led_RGB/rgb.c:43-47 | a brighter component never gets a smaller duty value |
| `Rgb.ComputePsc` | Led_RGB/rgb.c:29-36 | the zero guards make every division defined, and the `uint16_t` result is below 65536 |
| `Rgb.ComputePscIsCeiling` | Led_RGB/rgb.c:29-36 | without wrap-around, result + 1 is the ceiling of timclk / (fpwm·(arr+1)) |
| `Rgb.PrescalerAtInit` | Led_RGB/rgb.c:75-76 | the prescaler computed at initialisation is 167 |
| `Rgb.Components` | Core/main.c:233-239 | each colour the loop uses has 8-bit components |
| `Rgb.ColourLightsOneChannel` | Core/main.c:233-239 | each of red, green and blue drives its own channel to full duty and the other two to zero |
| `Rgb.Tim1.Init` | Led_RGB/rgb.c:75-82 | TIM1 starts with prescaler 167, period 999 and all three duty registers at zero |
| `Rgb.Tim1.SetColor` | Led_RGB/rgb.c:119-123 | CCR1, CCR2 and CCR3 receive the scaled red, green and blue, and the period and prescaler are unchanged |

## Left out

- The MFRC522 card reader (RFID/rc522.c) is not part of this model. A card read is an input `Option<Uid>` with a 4-byte identifier.
  - The driver's buffer handling is not modelled. It reads and writes a fifth check byte, and can write more, past the 4-byte `current_uid`.
  - A failed read leaves `currentUid` unchanged in the model, while the driver may already have overwritten its first bytes. The value is only used after a successful read.
- The servo (Servo/servo.c) is not part of this model: its angle mapping is floating point. The servo is recorded as the last command given (`barrierOpen`).
- Hardware bring-up is left out: `GPIO_pinsConfig`, `SystemClock_Config`, `Error_Handler`, the register configuration in `RGB_Init` and `HC595_Init`, and the raw input-register reads of the two beams. The beams are boolean inputs.
- All blocking delays are treated as no-ops: the `delay_ms` calls in the loop and the spin loops in the LED drivers. OPENING and CLOSING therefore finish in one iteration, and the 1.5 s pause after the "denied" and "full" notices polls nothing.
- The source reads the beams and the clock several times per iteration. The model takes one snapshot per iteration and uses it for every test in that iteration.
- The LCD is a sink. The free-slot count is recorded as a number, and the second line as a status label.
- `volatile` qualifiers are not modelled: no interrupt handler touches those variables.
- The configuration branches the board does not use (common cathode, `ORDER_321 == 0`) are kept as parameters. They are proved like the configured branch but never instantiated by `Controller`.
- `find_vehicle_index` and `is_card_authorized` compare rows with `memcmp`, and `add_vehicle` copies a row with `memcpy`. The model compares and assigns 4-byte sequences. `remove_vehicle`'s byte loop is kept.
- The tick counter `Get_Ms_Ticks()` is the `now` input of each cycle. The model only requires it to be a `uint32_t`; it need not increase.
- Rgb.ComputePscIsCeiling: requires that `fpwm·(arr+1)` and `timclk + fpwm·(arr+1) − 1` do not wrap and that the ceiling is at most 65536. Outside that range the exact wrapped value is still what `Rgb.ComputePsc` computes, but no ceiling property is claimed.
- SevenSegment.ShiftRegister.DisplayNumber: requires `num < 65536`, the range of its `uint16_t` parameter. Its caller passes a count of at most four.
