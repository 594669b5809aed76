# h-button: a verified model of the firmware's control logic

h-button is ESP32 firmware for a Bluetooth LE volume knob with a mute
button. A rotary encoder turns into volume-up and volume-down media keys.
A push button with an LED toggles a mute state, which is sent to the host
as the Ctrl+Shift+M chord. This project models the sequential state
updates behind that in Dafny and proves their properties:

- `machine.dfy`, module `Machine`: Rust's `i32` with the wrap-around of
  `fetch_add`/`fetch_sub`, microsecond timestamps, pin levels and one-shot
  timers. Module `Options` holds an `Option` type.
- `debouncer.dfy`, module `Debouncing`: the `Debouncer` time gate. The
  clock reading is the parameter `now`.
- `ble_keyboard.dfy`, module `Keyboard`: the HID report builder.
  - `press`, `release`, `toggle_mute` and `_write` work on the 8-byte
    keyboard report, using the 128-entry ASCII table.
  - `press_media_key`, `release_media_keys`, `volume_up` and `volume_down`
    work on a 16-bit media mask stored as two bytes.
  - The key slots and media bytes are arrays.
  - Every report sent is appended to a log (`keyReports`, `mediaReports`).
- `encoder.dfy`, module `Encoding`: the encoder's position counter. It
  covers the two line handlers, their timer re-enable callbacks and
  `position()`.
- `led_button.dfy`, module `LedButtons`: the LED button that toggles on
  each accepted edge.
- `mute_led.dfy`, module `MuteLeds`: the On/Off mute indicator and its pin.
- `main_loop.dfy`, module `Reporting`: one pass of `main`'s reporting loop.
  While connected, it turns a change of LED state into one `toggle_mute`
  and a change of position into one volume step.

Each Rust struct that is updated in place is a class. The classes also
make explicit what the Rust code keeps in drivers or closures:
- `Encoder` has the position counter, plus each line's interrupt-enable
  flag and timer, and the list of positions passed to the on-change callback.
- `LedButton` has `led_state` and the LED level, plus the button's
  interrupt-enable flag and its timer.
- `BleKeyboard` splits the key report into `modifiers` and the six-slot
  `keys` array, and adds the two logs of sent reports.
- `ReportingLoop` holds the locals `last_pos` and `last_mute_state` of `main`.

Each interrupt or timer callback is a method, and its postcondition ties
the new state to a pure function of the old state. Lemmas about those
functions cover arbitrary sequences of events: edges on a line, timer
firings, setter calls and loop ticks. The GPIO driver delivers an edge only
while its interrupt is enabled, and a timer fires only when armed. This
gating is in the `Step` functions and the `Deliver` methods.

Notes on the code's behaviour:

- The encoder handlers (`src/encoder.rs:72-113`) use no debounce gate. They
  only disable the line and re-enable it from a timer.
- A `None` direction still calls the on-change callback (`src/encoder.rs:87`).
- Two calls less than the window apart do not always let one through.
  Right after `Debouncer::new`, `last_update` is 0, so every call in the
  first window after boot is rejected (`CloseCallsAtBootBothRejected`).
- A clockwise edge at `i32::MAX` wraps the position to `i32::MIN`. While
  connected, the next tick then sends a volume-down step
  (`Reporting.WrapSendsVolumeDown`).
- `src/main.rs:59-64` passes three arguments to `Encoder::new`, which
  takes four. The encoder is modelled from `src/encoder.rs`.

## Model

| member | source | states |
|---|---|---|
| Machine.WrapI32 | src/encoder.rs:80-83 | the wrapped value is the one `i32` congruent to the input modulo 2^32, and equals the input when that already fits in `i32` |
| Machine.WrapAdd | src/encoder.rs:78-86 | wrapping after every `fetch_add`/`fetch_sub` is the same as wrapping once at the end |
| Debouncing.Step | src/debouncer.rs:21-30 | one `should_update` call: accepted iff `now - last_update >= window`, and `last_update` becomes `now` only then (the method `ShouldUpdate` is proved equal to it) |
| Debouncing.Run | src/debouncer.rs:21-30 | successive `should_update` calls: one answer per call, and the `last_update` left at the end, which is the start value when there are no calls |
| Debouncing.Debouncer.constructor | src/debouncer.rs:14-19 | a new gate has `last_update` 0 and keeps the given window |
| Debouncing.Debouncer.ShouldUpdate | src/debouncer.rs:21-30 | accepts iff `now - last_update >= window`; on acceptance `last_update` becomes `now`, otherwise it is unchanged |
| Debouncing.FirstCallAfterNew | src/debouncer.rs:14-24 | the first call after `new` is accepted iff `now >= window` |
| Debouncing.NextCallAfterAccepted | src/debouncer.rs:24-28 | after a call accepted at t, a call at t2 is accepted iff t2 - t >= window |
| Debouncing.SpacedCallsAllAccepted | src/debouncer.rs:24-28 | calls at least the window apart (the first one too) are all accepted, and `last_update` ends at the last of them |
| Debouncing.ZeroWindowAcceptsAll | src/debouncer.rs:24 | with a zero window every call of a non-decreasing sequence is accepted |
| Debouncing.BouncesRejected | src/debouncer.rs:24-29 | any number of calls within the window after the accepted time are all rejected and leave `last_update` alone |
| Debouncing.CloseCallsOneAccepted | src/debouncer.rs:24-29 | of two calls less than the window apart, if the first is accepted the second is rejected |
| Debouncing.CloseCallsAtBootBothRejected | src/debouncer.rs:14-29 | right after `new`, two close calls inside the first window are both rejected |
| Keyboard.AsciiMapSize | src/ble_keyboard.rs:80-209 | the table has 128 entries, so the lookup in `press` is in bounds for every byte below 128 |
| Keyboard.AsciiCode | src/ble_keyboard.rs:342 | the table entry `ASCII_MAP[k]` for an ASCII byte |
| Keyboard.Translate | src/ble_keyboard.rs:336-351 | the three branches of `press` before the slot search: raw code, modifier bit, or table entry split into the Shift bit and the code; `None` for a zero entry (its cases are `PressRawOrModifier`, `PressUnmapped`, `PressShifted` and `PressUnshifted`) |
| Keyboard.InsertKey | src/ble_keyboard.rs:353-362 | the slot search: a present code changes nothing, otherwise the first zero slot takes it (properties in `InsertKeySlots` and `InsertKeyKeepsDistinct`) |
| Keyboard.PressReport | src/ble_keyboard.rs:334-365 | the report `press(k)` sends: the modifiers ORed with the translation's bits and the slots after the slot search, or nothing for an unmapped byte |
| Keyboard.Pressed | src/ble_keyboard.rs:334-365 | the report `press(k)` leaves: its sent report, or the old one for an unmapped byte |
| Keyboard.PressSent | src/ble_keyboard.rs:334-365 | the reports `press(k)` sends: exactly one, or none for an unmapped byte |
| Keyboard.MuteReports | src/ble_keyboard.rs:320-325 | the reports of `press(KEY_LEFT_CTRL)`, `press(KEY_LEFT_SHIFT)`, `press(b'M')`, each from the report the previous one left, then the release (worked out in `MuteReportsShape`) |
| Keyboard.CharReports | src/ble_keyboard.rs:328-331 | the reports one byte of `_write` sends: its press report, if mapped, then the release |
| Keyboard.WriteReports | src/ble_keyboard.rs:327-332 | the reports `_write` sends byte by byte; every byte after the first starts from the empty report the release left (properties in `WriteReportsSnoc` and `WriteReportsShape`) |
| Keyboard.VolumeReports | src/ble_keyboard.rs:310-318 | the press report and then the release report of one volume key (its effect is `VolumeReportsEffect`) |
| Keyboard.FirstZero | src/ble_keyboard.rs:353-362 | the slot search stops at a slot index, or at the length when it runs off the end |
| Keyboard.FirstZeroIsFirst | src/ble_keyboard.rs:353-359 | every slot before the index found is taken, and the slot found, if any, is empty |
| Keyboard.PressRawOrModifier | src/ble_keyboard.rs:334-365 | a byte >= 136 puts raw code k-136 through the slot search and keeps the modifiers; a byte 128..135 sets modifier bit k-128 and leaves every slot alone |
| Keyboard.PressUnmapped | src/ble_keyboard.rs:341-346 | an ASCII byte whose table entry is 0 produces no report |
| Keyboard.PressShifted | src/ble_keyboard.rs:341-351 | an ASCII byte whose entry has bit 0x80 adds modifier 0x02 and puts `entry & 0x7F` through the slot search |
| Keyboard.PressUnshifted | src/ble_keyboard.rs:341-351 | an ASCII byte with a plain non-zero entry keeps the modifiers and puts the entry through the slot search |
| Keyboard.InsertZero | src/ble_keyboard.rs:353-362 | the slot search with code 0 (what a modifier byte leaves) never changes the slots |
| Keyboard.InsertIntoEmpty | src/ble_keyboard.rs:353-362 | on six empty slots a pressed code lands in slot 0 |
| Keyboard.InsertKeySlots | src/ble_keyboard.rs:353-362 | the slot search keeps the length; a present code, or six taken slots, change nothing; otherwise the code goes into the first zero slot only, and is then present |
| Keyboard.InsertKeyKeepsDistinct | src/ble_keyboard.rs:353-362 | the slot search keeps the non-zero slots pairwise distinct |
| Keyboard.BleKeyboard.constructor | src/ble_keyboard.rs:297-302 | the keyboard report and the media report start all zero, and nothing has been sent |
| Keyboard.BleKeyboard.TranslateKey | src/ble_keyboard.rs:336-351 | the translation half of `press`: ORs the modifier bits of the byte's translation into the report and yields its code, or reports an unmapped byte and leaves the modifiers alone |
| Keyboard.BleKeyboard.InsertSlot | src/ble_keyboard.rs:353-362 | the six-slot loop stores the code as the slot search specifies |
| Keyboard.BleKeyboard.Press | src/ble_keyboard.rs:334-365 | a mapped byte turns the report into `PressReport` of the old report and sends exactly that one report; an unmapped byte changes nothing and sends nothing; the media report and its log are untouched (that the slots stay distinct is `InsertKeyKeepsDistinct`) |
| Keyboard.BleKeyboard.Release | src/ble_keyboard.rs:367-371 | modifiers and all six slots become 0 and exactly one all-zero report is sent |
| Keyboard.BleKeyboard.ToggleMute | src/ble_keyboard.rs:320-325 | sends the four reports of Ctrl, Shift, 'M' and release, in order, and leaves the report empty |
| Keyboard.PressLetterM | src/ble_keyboard.rs:341-351 | `press(b'M')` adds modifier 0x02 and puts usage 0x10 through the slot search |
| Keyboard.MuteReportsShape | src/ble_keyboard.rs:320-325 | from any report, `toggle_mute` sends the report with modifier bit 0x01 added, then with 0x03, then also with usage 0x10 in a slot, then the empty report |
| Keyboard.ToggleMuteFromEmpty | src/ble_keyboard.rs:320-325 | from the empty report the four reports are modifiers 0x01, then 0x03, then 0x03 with usage 0x10 in slot 0, then all zero |
| Keyboard.BleKeyboard.Write | src/ble_keyboard.rs:327-332 | sends, byte by byte, the press report (when the byte is mapped) and the release report |
| Keyboard.WriteReportsSnoc | src/ble_keyboard.rs:327-332 | one more byte of text appends exactly that byte's reports |
| Keyboard.WriteReportsShape | src/ble_keyboard.rs:327-332 | for text of n bytes `_write` sends between n and 2n reports in all, and for non-empty text the last one is the empty report |
| Keyboard.Pack | src/ble_keyboard.rs:379-382 | byte 0 is the high byte and byte 1 the low byte of the 16-bit mask |
| Keyboard.Unpack | src/ble_keyboard.rs:385-386 | splitting a mask into bytes is undone by packing |
| Keyboard.PackRoundTrip | src/ble_keyboard.rs:378-389 | pack and unpack are inverse both ways |
| Keyboard.MediaPress | src/ble_keyboard.rs:384 | the key's bits are set and every other bit is kept |
| Keyboard.MediaRelease | src/ble_keyboard.rs:395 | the key's bits are cleared and every other bit is kept |
| Keyboard.BleKeyboard.PressMediaKey | src/ble_keyboard.rs:378-389 | the media report becomes the old mask ORed with the key's mask, and exactly that report is sent; the keyboard report is untouched |
| Keyboard.BleKeyboard.ReleaseMediaKeys | src/ble_keyboard.rs:391-400 | the media report becomes the old mask with the key's bits cleared, and exactly that report is sent; the keyboard report is untouched |
| Keyboard.BleKeyboard.VolumeUp | src/ble_keyboard.rs:310-313 | sends the volume-up press and release reports and leaves the last one in the media report |
| Keyboard.BleKeyboard.VolumeDown | src/ble_keyboard.rs:315-318 | sends the volume-down press and release reports and leaves the last one in the media report |
| Keyboard.VolumeFromIdle | src/ble_keyboard.rs:310-318 | from the idle media report, volume up sends [32, 0] then [0, 0], and volume down [64, 0] then [0, 0] |
| Keyboard.VolumeReportsEffect | src/ble_keyboard.rs:378-400 | a volume step sends the mask with the key set, then the original mask with exactly the key's bits cleared |
| Encoding.Step | src/encoder.rs:72-113 | one delivered event: an edge runs its line's handler only while that line is enabled, a timer callback only while armed, otherwise nothing changes |
| Encoding.Run | src/encoder.rs:72-113 | the state after a sequence of delivered events, one `Step` at a time (properties in `RunPosition`, `DisabledLineIgnored` and `ReportedPerHandledEdge`) |
| Encoding.Reported | src/encoder.rs:87-111 | the positions passed to the on-change callback, one after each handled edge, after its own update |
| Encoding.AfterEdge | src/encoder.rs:72-89 | a handled edge moves the position by `Delta` of its direction (+1, -1 or 0, the match at src/encoder.rs:78-86) with wrap-around, disables only its own line and arms only its own timer for the window |
| Encoding.AfterTimer | src/encoder.rs:45-59 | a timer callback re-enables only its own line and changes nothing else |
| Encoding.RunPosition | src/encoder.rs:78-110 | after any events the position has moved by clockwise minus counter-clockwise handled edges, wrapped to `i32` |
| Encoding.RunMoves | src/encoder.rs:78-110 | after any events the position is the start moved by the summed deltas of the handled edges, wrapped once to `i32` |
| Encoding.MovesNet | src/encoder.rs:78-89 | the summed deltas are the clockwise minus the counter-clockwise handled edges |
| Encoding.PositionFromNew | src/encoder.rs:41-110 | from `new`, the position is the wrapped count of clockwise minus counter-clockwise handled edges |
| Encoding.ReportedPerHandledEdge | src/encoder.rs:87-111 | the on-change callback runs once per handled edge, `None` included, and the last value it received is the current position |
| Encoding.DisabledLineIgnored | src/encoder.rs:73-97 | while a line is disabled and its timer has not fired, none of its edges is handled, whatever the other line does |
| Encoding.ExampleTrace | src/encoder.rs:41-113 | a concrete trace: a second edge on A before A's timer fires is ignored |
| Encoding.Encoder.constructor | src/encoder.rs:28-41 | position 0, both interrupts enabled, no timer armed, no callback yet |
| Encoding.Encoder.HandleEdge | src/encoder.rs:72-89 | the line handler's new state is `AfterEdge`, and it passes the post-update position to the callback |
| Encoding.Encoder.HandleTimer | src/encoder.rs:43-59 | the timer callback's new state is `AfterTimer` |
| Encoding.Encoder.Deliver | src/encoder.rs:116-130 | a subscribed handler runs only for an enabled line, and a timer callback only for an armed timer |
| Encoding.Encoder.Position | src/encoder.rs:138-140 | returns the counter and changes nothing |
| LedButtons.Step | src/led_button.rs:40-78 | one delivered event: a falling edge runs `callback_button` only while the interrupt is enabled, and the timer callback runs only when armed |
| LedButtons.Run | src/led_button.rs:40-78 | the state after a sequence of delivered events (properties in `RunConsistent` and `LedOnAfterOddToggles`) |
| LedButtons.Toggles | src/led_button.rs:59-73 | the number of edges that reached `callback_button` and so toggled `led_state` |
| LedButtons.AfterPress | src/led_button.rs:59-73 | a handled edge flips `led_state`, sets the LED High iff the new state is on, disables the interrupt and arms the timer |
| LedButtons.AfterTimer | src/led_button.rs:40-46 | the timer callback re-enables the interrupt and leaves the LED alone |
| LedButtons.PressTwice | src/led_button.rs:62-71 | two handled edges restore `led_state` and the LED level |
| LedButtons.RunConsistent | src/led_button.rs:62-71 | every sequence of events keeps the LED level equal to `led_state`, which has flipped once per toggle |
| LedButtons.LedOnAfterOddToggles | src/led_button.rs:28-71 | from `new`, the LED is on and driven High exactly after an odd number of toggles |
| LedButtons.OneToggleUntilTimer | src/led_button.rs:60-72 | until the timer fires, at most one edge toggles, and one does iff the interrupt was enabled |
| LedButtons.LedButton.constructor | src/led_button.rs:28-38 | `led_state` false, LED Low, interrupt enabled |
| LedButtons.LedButton.CallbackButton | src/led_button.rs:59-73 | the button callback's new state is `AfterPress` |
| LedButtons.LedButton.CallbackTimer | src/led_button.rs:42-45 | the timer callback's new state is `AfterTimer` |
| LedButtons.LedButton.Deliver | src/led_button.rs:76-78 | the subscribed callback runs only while the interrupt is enabled, and the timer only when armed |
| LedButtons.LedButton.IsLedOn | src/led_button.rs:87-89 | returns `led_state` and changes nothing |
| MuteLeds.Apply | src/mute_led.rs:33-43 | after a setter the status is the one it sets and agrees with the pin level |
| MuteLeds.ApplyAll | src/mute_led.rs:33-43 | the state after a sequence of setter calls (properties in `ApplyAllAgrees`) |
| MuteLeds.ApplyAllAgrees | src/mute_led.rs:33-43 | after any sequence of setter calls, status and pin agree and the last setter decides |
| MuteLeds.SetterIdempotent | src/mute_led.rs:33-43 | calling a setter twice is the same as calling it once |
| MuteLeds.MuteLed.constructor | src/mute_led.rs:20-31 | status Off, pin Low |
| MuteLeds.MuteLed.SetLedOn | src/mute_led.rs:33-37 | status On, pin High |
| MuteLeds.MuteLed.SetLedOff | src/mute_led.rs:39-43 | status Off, pin Low |
| MuteLeds.MuteLed.GetLedStatus | src/mute_led.rs:45-47 | returns the status and changes nothing |
| Reporting.MuteActions | src/main.rs:82-85 | a `toggle_mute` when `last_mute_state` differs from the LED state read |
| Reporting.VolumeActions | src/main.rs:87-94 | a volume step when `last_pos` differs from the position read: up if the position is greater, down otherwise |
| Reporting.LoopStep | src/main.rs:78-96 | disconnected: no action and locals kept; connected: a toggle iff the LED state changed, volume up iff the position rose, down iff it fell, no action twice, the toggle first, and the locals then hold the readings |
| Reporting.RunTicks | src/main.rs:78-96 | successive passes of the loop: the final locals and all actions issued, in order (properties in `CatchUpOnReconnect` and `DisconnectedRunQuiet`) |
| Reporting.TickKeyReports | src/main.rs:82-85 | the keyboard reports a pass sends: the mute chord's when it toggles, none otherwise |
| Reporting.TickKeyReport | src/main.rs:82-85 | the keyboard report a pass leaves: empty after the mute chord's release, unchanged otherwise |
| Reporting.TickMediaReports | src/main.rs:87-94 | the media reports a pass sends: the volume-up or volume-down press and release, or none |
| Reporting.TickMedia | src/main.rs:87-94 | the media report a pass leaves: the last one sent, or the old one when nothing was sent |
| Reporting.SplitActions | src/main.rs:81-95 | the mute half of a pass alone decides its keyboard reports and the volume half alone its media reports |
| Reporting.WrapSendsVolumeDown | src/main.rs:87-92 | a clockwise edge handled at `i32::MAX` leaves `i32::MIN`, and the next connected tick reads that as a fall and issues exactly volume down |
| Reporting.UnchangedTickQuiet | src/main.rs:75-96 | a tick that reads what the locals hold issues nothing, as the first tick after start-up does when nothing moved during its 10 ms delay |
| Reporting.CatchUpOnReconnect | src/main.rs:81-93 | ticks while disconnected followed by one connected tick issue what a single tick would: one catch-up step |
| Reporting.DisconnectedRunQuiet | src/main.rs:81-95 | any number of disconnected ticks issue nothing and keep the locals |
| Reporting.ReportingLoop.constructor | src/main.rs:75-76 | the locals start at the current position and LED state |
| Reporting.ReportingLoop.Tick | src/main.rs:78-96 | the loop body's new locals and actions are `LoopStep` of the readings; it sends exactly the keyboard and media reports of those actions and leaves the key and media reports they determine, so passes compose |
| Reporting.ReportingLoop.CheckMute | src/main.rs:82-85 | a changed LED state sends the mute chord once, leaves the key report empty and is remembered; otherwise the key report is unchanged; the media report and its log are untouched |
| Reporting.ReportingLoop.CheckVolume | src/main.rs:87-94 | a changed position sends one volume step in the direction of the change, leaves the last report sent in the media report and is remembered; otherwise the media report is unchanged; the key report and its log are untouched |

## Left out

- `src/ble.rs` is not part of this model: the BLE service and characteristic setup, advertising and JSON serialisation are I/O.
- `src/mute_button.rs` is not part of this model. It is an interrupt-to-thread queue, and the debounce decision it makes is the `Debouncer` modelled here.
- The HID report descriptor (`src/ble_keyboard.rs:13-77`) and the BLE and security setup in `BleKeyboard::new` are device configuration. Only the initial report state is modelled.
- `connected()` reads the BLE stack, so it is the input `connected`.
- `send_report` and `send_media_keys_report` become appends to the report logs. The 7 ms delay and the characteristic notification are left out.
- `Rotary::update` decodes the quadrature phase in a library that is not part of this model, so its direction is an input.
- Real time and `EspTimerService` are left out. Arming a timer records its delay. Its firing is an explicit event.
- Mutexes and atomic orderings are left out, because the model is sequential: callback bodies never interleave. The loop's snapshots are never torn.
- Reporting.ReportingLoop.Tick: reads the LED state twice and the position three times, as the source does. With no concurrency, each read returns the same value. A change between two reads is not modelled. So the model misses this case: the button toggles again during the four 7 ms reports of `toggle_mute`. The second read then stores the new LED state in `last_mute_state` and sends nothing for it, which leaves the host's mute state out of step with the LED.
- The loop repeats forever with a 10 ms delay. The model has one pass (`Tick`) and finite runs of passes (`RunTicks`). What the interrupts do between passes is the encoder's and button's own event model.
- The on-change callback passed to `Encoder::new` is external code. Only the positions it receives are recorded.
- `Duration::as_micros() as i64` is not modelled. The window and timestamps are non-negative `i64` microsecond values, so `now - last_update` cannot overflow.
- `unwrap()` panics of the drivers and timer service, and all logging, are left out.
- The unused `EVENT_QUEUE`, `notify_interrupt`, watchdog disabling and peripheral construction in `src/main.rs` are left out.
