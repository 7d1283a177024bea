# GPIO keyboard driver: the interrupt state machine

A Dafny model of the event handling of a Linux kernel module that turns
edges on four GPIO inputs into key taps on a virtual input device. Columns
0-2 are plain keys; column 3 is a key that also switches the active row of a
2x4 key map when it is pressed rapidly enough times in a row.

The driver keeps four globals: `state` (the active key-map row),
`pressCounter`, `lastInterruptTime` and `lastPressTime`. Two handlers update
them for every edge:

- the general handler (columns 0-2) drops an edge less than 250 ms after the
  last accepted plain key; otherwise it taps `keyMap[state][column]`, records
  the time and resets the press counter;
- the gesture handler (column 3) drops an edge less than 80 ms after the last
  accepted plain key; then, if the edge is less than 350 ms after the previous
  column-3 event, it either counts it silently or, once the counter is past 6,
  flips `state` with `^= 1` and sends nothing; a slower edge taps the
  column-3 key and resets the counter.

All times are 32-bit millisecond counts and every comparison is an unsigned
32-bit subtraction, modelled as `Elapsed(now, earlier)` modulo 2^32.

Files:

- `ctypes.dfy` (module `CTypes`): `uint16`, `uint32`, `++` on `unsigned short`.
- `time.dfy` (module `Time`): unsigned elapsed time and the millisecond
  conversion of `getTimeMillis`.
- `keys.dfy` (module `Keys`): the key map, the events sent to the input
  device, taps and reading the pressed keys back from a log.
- `handlers.dfy` (module `Handlers`): the four globals as a value, one
  function per handler, runs of several interrupts, and the properties.
- `driver.dfy` (module `Driver`): class `Keyboard` holding the globals and
  the log of sent events, with one method per handler, each proved to act as
  the function of the same handler in `Handlers`.
- `scenarios.dfy` (module `Scenarios`): concrete runs from the initial globals.

Behaviour of the code worth knowing, as modelled:

- The comment at `linux_kernel_module.c:125` speaks of five presses; the code
  toggles on the rapid event seen with `pressCounter > 6`, i.e. the eighth
  rapid event of a burst. The model follows the code.
- "Eight rapid events toggle" holds only when the first of them is itself
  within 350 ms of the previous column-3 event. After a pause the first
  event is slow: it types its key and resets the counter, so it takes nine
  events to switch rows (`Handlers.QuietBurstTapsThenToggles`,
  `Scenarios.NineGesturesSwitchRow`).
- The initial `lastInterruptTime` is 0, so edges within 250 ms (80 ms for
  column 3) of time 0 modulo 2^32 are dropped (`Scenarios.FirstEdgeAtZeroDropped`).
- The column-3 debounce is measured against the last accepted plain key,
  never against the previous column-3 event; the gesture handler never
  writes `lastInterruptTime`.
- Swallowed events of a burst that stops before the toggle are never typed.
- Nothing checks the column passed to the general handler; the model types
  columns as `0..3`, which is what the four registered handlers pass.

## Model

| member | source | states |
|---|---|---|
| `CTypes.Increment` | linux_kernel_module.c:135 | `++pressCounter` adds one below 65535 and wraps to 0 at 65535 |
| `Time.Elapsed` | linux_kernel_module.c:72 | the unsigned 32-bit difference `now - earlier` is the delay that, added to `earlier` modulo 2^32, gives `now` |
| `Time.ElapsedAfter` | linux_kernel_module.c:123 | any delay below 2^32 ms is measured exactly by the 32-bit subtraction, also across a wrap of the clock |
| `Time.TimeMillis` | linux_kernel_module.c:49-51 | the 64-bit millisecond sum truncated to 32 bits is the wall-clock millisecond count modulo 2^32 |
| `Time.ElapsedBetweenReadings` | linux_kernel_module.c:39-51 | for two clock readings less than 2^32 ms apart, the subtraction of their truncated values is the true interval |
| `Keys.LookupInjective` | linux_kernel_module.c:35-36 | each (row, column) of the key map has its own key code, in both directions |
| `Keys.TapReports` | linux_kernel_module.c:56-62 | `sendKey` presses its code once and releases it once, and no other code |
| `Keys.TapsRoundTrip` | linux_kernel_module.c:56-62 | the pressed codes and the released codes read back from a sequence of taps are the tapped codes |
| `Handlers.General` | linux_kernel_module.c:66-85 | the general handler keeps `state` a row of the key map and `pressCounter` at most 7 |
| `Handlers.Gesture` | linux_kernel_module.c:110-151 | the gesture handler keeps `state` in {0,1} and `pressCounter` at most 7, so every `keyMap[state][column]` read is in bounds |
| `Handlers.Step` | linux_kernel_module.c:88-110 | whichever of the four handlers runs, the invariant is kept |
| `Handlers.Run` | linux_kernel_module.c:66-151 | any sequence of interrupts handled one at a time keeps the invariant |
| `Handlers.PlainBounceIgnored` | linux_kernel_module.c:72-73 | a plain edge less than 250 ms (mod 2^32) after the last accepted plain key sends nothing and changes none of the four globals |
| `Handlers.PlainAccepted` | linux_kernel_module.c:76-79 | an accepted plain edge sends exactly one tap of `keyMap[state][column]`, sets `lastInterruptTime` to now and `pressCounter` to 0, and keeps `state` and `lastPressTime` |
| `Handlers.GestureBounceIgnored` | linux_kernel_module.c:116-117 | a column-3 edge less than 80 ms after the last accepted plain key sends nothing and changes nothing |
| `Handlers.GestureKeepsInterruptTime` | linux_kernel_module.c:110-151 | no path of the gesture handler writes `lastInterruptTime` |
| `Handlers.GestureToggles` | linux_kernel_module.c:123-134 | a rapid column-3 event with `pressCounter > 6` flips `state`, sends nothing, resets the counter and records the time |
| `Handlers.GestureCounts` | linux_kernel_module.c:123-145 | a rapid column-3 event with `pressCounter <= 6` sends nothing, adds one to the counter, records the time and keeps `state` |
| `Handlers.GestureSlowTaps` | linux_kernel_module.c:139-145 | a column-3 event 350 ms or more after the previous one sends one tap of `keyMap[state][3]`, resets the counter, records the time and keeps `state` |
| `Handlers.RunAppend` | linux_kernel_module.c:66-151 | handling two sequences of interrupts one after the other is handling their concatenation |
| `Handlers.StepEmitsTaps` | linux_kernel_module.c:56-62 | one interrupt sends nothing or whole taps |
| `Handlers.RunEmitsTaps` | linux_kernel_module.c:56-62 | whatever the interrupts, the device sees only whole taps: every pressed key is released right after, and the presses read back rebuild the log |
| `Handlers.GesturesKeepInterruptTime` | linux_kernel_module.c:110-151 | any number of column-3 interrupts leaves `lastInterruptTime` as it was |
| `Handlers.BurstCounts` | linux_kernel_module.c:123-136 | a rapid burst that keeps the counter at most 7 sends nothing, keeps `state` and advances the counter by its length |
| `Handlers.BurstToggles` | linux_kernel_module.c:123-135 | a rapid burst that brings the counter to the toggle (eight events from 0) switches `state` exactly once, sends nothing and leaves the counter at 0 |
| `Handlers.QuietBurstTapsThenToggles` | linux_kernel_module.c:123-145 | after a pause, nine column-3 events (one slow, eight rapid) type the column-3 key once and switch `state` |
| `Handlers.PlainKeyRestartsBurst` | linux_kernel_module.c:76-79 | after an accepted plain key, seven rapid column-3 events only bring the counter to 7: the burst starts from scratch |
| `Handlers.TwoPlainWithinWindowTypeOnce` | linux_kernel_module.c:72-78 | two plain edges less than 250 ms apart type at most one key |
| `Driver.Keyboard.constructor` | linux_kernel_module.c:29-32 | the four globals start at 0 and nothing has been sent |
| `Driver.Keyboard.SendKey` | linux_kernel_module.c:56-62 | appends press, sync, release, sync of `keyMap[row][column]` to the device log |
| `Driver.Keyboard.InterruptHandlerGeneral` | linux_kernel_module.c:66-85 | updates the globals in place and appends to the log exactly as `Handlers.General` says, keeping the invariant |
| `Driver.Keyboard.InterruptHandler0` | linux_kernel_module.c:89-92 | the general handler for column 0 |
| `Driver.Keyboard.InterruptHandler1` | linux_kernel_module.c:96-99 | the general handler for column 1 |
| `Driver.Keyboard.InterruptHandler2` | linux_kernel_module.c:103-106 | the general handler for column 2 |
| `Driver.Keyboard.InterruptHandler3` | linux_kernel_module.c:110-151 | updates the globals in place and appends to the log exactly as `Handlers.Gesture` says, keeping the invariant |
| `Driver.Keyboard.Interrupt` | linux_kernel_module.c:203-208 | the handler registered for the edge's column acts as `Handlers.Step` |
| `Scenarios.PlainBounceScenario` | linux_kernel_module.c:72-79 | column 0 at 1000 ms and 1100 ms types `KEY_A` once |
| `Scenarios.FirstEdgeAtZeroDropped` | linux_kernel_module.c:31 | a key at time 0 right after loading is dropped by the debounce against the initial 0 |
| `Scenarios.DebounceAcrossWrap` | linux_kernel_module.c:72-73 | a key 200 ms after one at 2^32 - 100 ms is dropped although its timestamp is smaller |
| `Scenarios.SlowGesturesTap` | linux_kernel_module.c:139-145 | column 3 at 1000 ms and 1500 ms types `KEY_ENTER` twice and leaves the counter at 0 |
| `Scenarios.NineGesturesSwitchRow` | linux_kernel_module.c:123-145 | column 3 every 100 ms from 1000 ms to 1800 ms types `KEY_ENTER` once and switches to row 1 |

## Left out

- Module initialisation and exit (`keyboard_init`, `keyboard_exit`): GPIO requests, input device allocation and registration, IRQ registration. They are kernel calls; only the column-to-handler mapping of the IRQ table is modelled (`Driver.Keyboard.Interrupt`).
- Reading the clock (`do_gettimeofday`): each handler takes the 32-bit time `now` as a parameter; the conversion to milliseconds is modelled separately (`Time.TimeMillis`).
- `local_irq_save` / `local_irq_restore` and the race between the unlocked debounce test and the update: each handler call is treated as atomic.
- `input_report_key` and `input_sync` are appends to a log of sent events, not kernel calls; the numeric values of the `KEY_*` codes are not modelled, only that the eight are distinct.
- Edge direction (the IRQs fire on rising and falling edges): the handlers do not look at it, so an edge carries only its column and time.
- The handlers' return value is always `IRQ_HANDLED`; the methods return nothing.
- `printk` logging and the GPIO number table `gpioMap`.
