# RF24 irrigation network — a verified model of its decision logic

The irrigation network has a few nodes that talk over nRF24L01 radios:

- **Valve controller** (`controller-hub/controller_hub.cpp`). An ESP32 that switches an irrigation relay for a requested number of seconds. It stops early when the reservoir runs empty and reports consumption and reservoir level back.
- **Control hub** (`control-hub/main.cpp`). A Raspberry Pi base station. It drains the radio into two FIFO queues, one for valve-controller reports and one for tagged sensor readings. It also has a `key:value,key:value` command parser.
- **Interactive base** (`control-hub/central_hub.cpp`) and **demo base** (`control-hub/central_demo.cpp`). The first is a base that sends an operator-entered on-time on SIGINT. The second waits for a 32-bit reply and unpacks it.
- **In-ground sensor simulator** (`in-ground-sensors/MMSimulator.cpp`). It transmits a reading every eight seconds, rotating over the three sensor pipes.

The model is in Dafny, one module per node plus one shared module:

- `Network` (`network.dfy`): fixed-width integer ranges, wrapping `millis()` subtraction, the six pipe addresses, and the structs sent over the air.
- `ControllerHub` (`controller_hub.dfy`):
  - The level switches, the reservoir code and the display icon, as pure functions.
  - `loop()` as four phase functions composed into `Tick`, with lemmas over single ticks and over runs of ticks.
  - A `Controller` class whose fields are the globals. Its methods update those fields in place and are proved equal to the phase functions.
- `CommandParser` (`command_parser.dfy`): `splitDelimiter` as a `getline`-style `Split` function and a loop method proved equal to it. Also `stoi` on well-formed text, and `actuatorCommandParser` as a fold over the split fields plus a loop method proved equal to it.
- `Aggregator` (`aggregator.dfy`):
  - The pipe setup, and the dispatch of frames into the two queues (the `ControlHub` class).
  - The inner `available` loop as written, and the corrected one that drains every frame (see Findings).
- `CentralHub` (`central_hub.dfy`):
  - `configurePipes(wpipe)` and its address plan.
  - The 1↔2 pipe counter.
  - The `uint8_t` truncation of the on-time, and the flag handling.
- `CentralDemo` (`central_demo.dfy`): packing and unpacking the reply word, failure recovery, and the drain-to-last loop.
- `SensorSimulator` (`sensor_simulator.dfy`): the eight-second send gate, the 2→3→4 pipe rotation and the LED outcome.

Parts the model does not compute become inputs:

- The radio becomes a receive FIFO of frames (pipe number plus payload) and acknowledgement booleans.
- The clock becomes one `millis()` value per iteration.
- The level switches become two booleans sampled once per iteration.
- The flow sensor becomes the flow rate it would compute.
- The operator becomes the number typed and whether SIGINT was raised.

Where the code and its description differ, the model follows the code:

- A stop command received while the relay is off is not a no-op. It resets the flow counters and sends one report.
- A start command with timer 0 is accepted and does not time out before the 32-bit `elapsedTime` counter wraps (after 2^32 counted seconds it comes back to 0, equal to `rtime`, and the session ends).
- `elapsedTime` is a 32-bit counter and can wrap when `rtime` is 0.
- With both level switches asserted, the report says 2 (full) but the display shows the error icon.

## Model

| member | source | states |
|---|---|---|
| Network.ElapsedMillis | controller-hub/controller_hub.cpp:174 | `millis() - since` on unsigned 32 bits: the plain difference when `now >= since`, otherwise the difference plus 2^32 |
| ControllerHub.CheckLevelPolicies | controller-hub/controller_hub.cpp:250-266 | `checkLevel(true)` implies `checkLevel(false)`; `checkLevel(false)` is exactly "not empty"; `checkLevel(true)` is full and not empty |
| ControllerHub.ReservoirCode | controller-hub/controller_hub.cpp:275-280 | the reservoir code is 0, 1 or 2; 2 exactly when the full switch is asserted (full wins over empty), 1 exactly when neither switch is, 0 exactly when only empty is |
| ControllerHub.IconAgreesWithCode | controller-hub/controller_hub.cpp:412-419 | the error icon is drawn exactly when both switches are asserted, a state reported as code 2; on the other three combinations the icon matches the reported code |
| ControllerHub.ReceivePhase | controller-hub/controller_hub.cpp:129-141 | a command received while the relay is off zeroes `flowRate`, `flowLitres`, `totalLitres`, `pulseCount` and `oldFlowTime`, whatever it contains; `exitRoutine` afterwards can only be true as an acknowledged send |
| ControllerHub.Tick | controller-hub/controller_hub.cpp:126-207 | one `loop()` iteration sends at most one report; any report leaves the relay off with `exitRoutine` holding that send's result; an empty reservoir leaves the relay off by the end of the iteration, and if the relay was on, exactly one report goes out carrying the litres counted so far and the reservoir code; the session invariant (`elapsedTime < rtime` while running with `rtime >= 1`, non-negative flow) is preserved |
| ControllerHub.TickWhileOff | controller-hub/controller_hub.cpp:129-156 | idle without a command: nothing changes; idle with a command: the relay turns on exactly when status is true and the level check passes, then `rtime = timer` (0 allowed), `elapsedTime = 0`, no report; otherwise the relay stays off, the counters are zeroed, and exactly one report (0 litres, the reservoir code) is sent, with its result in `exitRoutine` |
| ControllerHub.TickWhileOn | controller-hub/controller_hub.cpp:158-186 | running: a status-true command has the same effect as no command; a status-false command turns the relay off with one report; a due second adds exactly 1 (mod 2^32) to `elapsedTime`; reaching `rtime` turns the relay off with `elapsedTime == rtime` and one report; `rtime == 0` keeps the relay on |
| ControllerHub.RunBounds | controller-hub/controller_hub.cpp:126-207 | over any number of iterations there are no more reports than iterations, and the session invariant holds throughout |
| ControllerHub.QuietRunKeepsCounting | controller-hub/controller_hub.cpp:174-186 | a running session with no commands and a non-empty reservoir counts one second per due iteration and stays on while below `rtime`; with `rtime == 0` it stays on until the 32-bit counter would wrap |
| ControllerHub.QuietRunTimesOut | controller-hub/controller_hub.cpp:174-186 | a running session with `rtime >= 1` left alone turns off after exactly `rtime - elapsedTime` due iterations, with `elapsedTime == rtime` and exactly one report |
| ControllerHub.Controller.constructor | controller-hub/controller_hub.cpp:50-79 | at power-up the relay is off and the counters are zero, which satisfies the session invariant |
| ControllerHub.Controller.ReturnStatus | controller-hub/controller_hub.cpp:268-293 | the report carries the running total and the reservoir code, and `exitRoutine` becomes the send's acknowledgement |
| ControllerHub.Controller.ReceiveCommand | controller-hub/controller_hub.cpp:128-171 | updating the globals in place gives exactly the state and reports of `ReceivePhase` |
| ControllerHub.Controller.CountSecond | controller-hub/controller_hub.cpp:173-186 | updating the globals in place gives exactly the state and reports of `TimerPhase` |
| ControllerHub.Controller.CheckWaterLevel | controller-hub/controller_hub.cpp:188-197 | updating the globals in place gives exactly the state and reports of `LevelPhase` |
| ControllerHub.Controller.SampleFlow | controller-hub/controller_hub.cpp:199-203 | updating the globals in place gives exactly the state of `FlowPhase` |
| ControllerHub.Controller.Loop | controller-hub/controller_hub.cpp:126-207 | one call of `loop()` on the globals leaves them at `Tick` of the old globals and sends exactly `Tick`'s reports, so every property of `Tick` holds of the running controller |
| CommandParser.SplitNonEmpty | control-hub/main.cpp:177-186 | `splitDelimiter` returns no token exactly when the input is empty |
| CommandParser.SplitTokensExcludeDelimiter | control-hub/main.cpp:177-186 | no token contains the delimiter |
| CommandParser.JoinSplit | control-hub/main.cpp:177-186 | joining the tokens with the delimiter gives the input back, except for a trailing delimiter, which produced no token |
| CommandParser.SplitCount | control-hub/main.cpp:180-184 | one token per delimiter plus one for a non-empty tail: no trailing empty token after a trailing delimiter, none for the empty input, and a leading empty token after a leading delimiter |
| CommandParser.SplitDelimiter | control-hub/main.cpp:177-187 | the `getline` loop, character by character, returns exactly `Split` of its input |
| CommandParser.TimerTruncation | control-hub/main.cpp:170-171 | `(uint16_t) stoi(v)` equals the number read when it is in 0..65535 and is congruent to it mod 65536 in every case |
| CommandParser.StoiDecimal | control-hub/main.cpp:171 | `stoi` reads back the decimal text of every natural number up to `INT_MAX` |
| CommandParser.ParseStatus | control-hub/main.cpp:157-169 | `status` stays unset exactly when no token has the key `status`; otherwise the last such token decides it, and it is true only for the exact value "on"; other keys are ignored |
| CommandParser.ParseTimer | control-hub/main.cpp:157-173 | `timer` stays unset exactly when no token has the key `timer`; otherwise it is the last such token's value read by `stoi`, mod 65536; other keys are ignored |
| CommandParser.ActuatorCommandParser | control-hub/main.cpp:155-174 | the parser's loop over the tokens returns exactly `ParseFields` of the split input, so `ParseStatus` and `ParseTimer` describe its result |
| Aggregator.RecordsAppend | control-hub/main.cpp:100-123 | each queue keeps arrival order: the records of two batches of frames are the records of the first followed by those of the second |
| Aggregator.SensorTagsIdentifyPipe | control-hub/main.cpp:111-121 | every queued sensor reading is tagged with the address of pipe 2, 3 or 4, and those addresses are distinct |
| Aggregator.InnerLoopStallsOnUnservedPipe | control-hub/main.cpp:100-123 | as written, once a frame on pipe 0 or 5 is at the head of the receive FIFO, no number of iterations changes the queues or the FIFO: the loop never exits |
| Aggregator.InnerLoopStallExample | control-hub/main.cpp:100-123 | a controller report queued behind a frame on pipe 5 never reaches `controllerHubData` |
| Aggregator.InnerLoopAsWrittenServed | control-hub/main.cpp:100-123 | when every frame is on pipe 1..4, the loop as written empties the FIFO in one iteration per frame and queues exactly what the corrected drain queues |
| Aggregator.ConfigurePipes | control-hub/main.cpp:146-151 | the writing pipe is `pipes[0]`, and reading pipe i is opened on `pipes[i]` for i = 0..5, in that order |
| Aggregator.ControlHub.constructor | control-hub/main.cpp:73-80 | the queues start empty and the pipe counter at 1 |
| Aggregator.ControlHub.Service | control-hub/main.cpp:102-122 | a frame on pipe 1 is appended to `controllerHubData`, one on pipes 2..4 to `inGroundData` tagged with `pipes[pipe]`, the other queue unchanged; a frame on another pipe is not read and changes neither queue |
| Aggregator.ControlHub.Drain | control-hub/main.cpp:100-123 | the corrected inner loop reads every frame: each queue gains exactly the records of its pipes, in arrival order |
| Aggregator.ControlHub.NextPipe | control-hub/main.cpp:125-126 | after the increment the counter is in 1..5, stepping by one and wrapping 5 → 1 |
| Aggregator.ControlHub.Poll | control-hub/main.cpp:98-127 | one outer iteration, with the corrected inner loop of the Findings row (as written an iteration that meets a frame on pipe 0 or 5 never ends), appends the records of the drained frames to the queues in arrival order and sets the counter to the step of lines 125-126 applied to the pipe of the last frame read, or to its old value when none was |
| CentralHub.ConfigurePipes | control-hub/central_hub.cpp:19-33 | the loop with its running counter makes exactly the calls of `PipePlan(wpipe)`; `n` ends at 6, or at 7 when `wpipe` is outside 0..5 |
| CentralHub.PipePlanInRange | control-hub/central_hub.cpp:19-32 | for 0 ≤ w < 6: exactly one writing pipe, on `pipes[w]`; the other five addresses are reading pipes 1..5 on their own addresses, strictly increasing with the address index, each number used once |
| CentralHub.PipePlanOutOfRange | control-hub/central_hub.cpp:22-31 | for w outside 0..5, all six addresses are reading pipes numbered 1..6 |
| CentralHub.MainSetupIsPlanPrefix | control-hub/central_hub.cpp:51-54 | the hand-written setup in `main` is the first three calls `configurePipes(0)` would make |
| CentralHub.OnTime | control-hub/central_hub.cpp:86-89 | `(uint8_t) t` is `t` for 0..255 and congruent to `t` mod 256 in every case |
| CentralHub.HandleFlag | control-hub/central_hub.cpp:81-108 | the flag is always clear afterwards; something happens exactly when it was raised; a truncated on-time of 0 exits, any other is written once with the acknowledgement as its result |
| CentralHub.OnTimeExit | control-hub/central_hub.cpp:86-92 | every multiple of 256, 256 included, exits without a write |
| CentralHub.WritesBoundedBySignals | control-hub/central_hub.cpp:81-83 | over any sequence of iterations, there are no more writes than raisings of the flag (plus one if it starts raised) |
| CentralHub.CentralHub.constructor | control-hub/central_hub.cpp:59 | `pip` starts at 1 and the flag is clear |
| CentralHub.CentralHub.SignalHandler | control-hub/central_hub.cpp:35-38 | SIGINT raises the flag |
| CentralHub.CentralHub.DrainMessages | control-hub/central_hub.cpp:64-69 | `pip` ends at the pipe of the last message read, unchanged when none is available |
| CentralHub.CentralHub.NextPip | control-hub/central_hub.cpp:77-79 | after the step `pip` is 1 or 2, alternating 1 → 2 → 1 |
| CentralHub.CentralHub.CheckFlag | control-hub/central_hub.cpp:81-108 | updating the flag in place gives exactly `HandleFlag` |
| CentralHub.CentralHub.Iteration | control-hub/central_hub.cpp:61-111 | one iteration sets `pip` to the step of lines 77-79 applied to the pipe of the last message read (or the old `pip` when none was), so it alternates 1, 2, 1 across quiet iterations, and handles the flag as `HandleFlag`, counting a SIGINT raised since the last check |
| CentralDemo.PipesFor | control-hub/central_demo.cpp:26-32 | for either `radioNumber` the writing address differs from the reading address, and both are node addresses |
| CentralDemo.PipesForSwapped | control-hub/central_demo.cpp:26-32 | the two node numbers use the swapped pair: what one writes to, the other reads |
| CentralDemo.Unpack | control-hub/central_demo.cpp:78-79 | `elapsed = rmsg >> 16` and `litres = (uint16_t) rmsg` lose nothing: `elapsed * 65536 + litres == rmsg` |
| CentralDemo.Pack | control-hub/central_demo.cpp:78-79 | the packed word's high and low halves are the two given values |
| CentralDemo.UnpackPack | control-hub/central_demo.cpp:78-79 | unpacking `e * 65536 + l` gives back `(e, l)` for all 16-bit `e`, `l` |
| CentralDemo.PackUnpack | control-hub/central_demo.cpp:78-79 | unpacking and then repacking is the identity on 32-bit words |
| CentralDemo.CentralDemo.constructor | control-hub/central_demo.cpp:26-32 | the initial setup opens `PipesFor(radioNumber)` |
| CentralDemo.CentralDemo.Recover | control-hub/central_demo.cpp:39-50 | after a failure the flag is cleared and exactly the initial pair for the same `radioNumber` is re-opened; without one nothing changes |
| CentralDemo.CentralDemo.DrainReplies | control-hub/central_demo.cpp:74-79 | the drain loop leaves `rmsg` equal to the last word available, earlier ones discarded, and unpacks it |
| CentralDemo.CentralDemo.Iteration | control-hub/central_demo.cpp:36-82 | one iteration clears any failure, keeping the node's own pair open, and reports the on-time sent, the write's result and the unpacked last reply |
| SensorSimulator.NextPip | in-ground-sensors/MMSimulator.cpp:84-85 | the pipe index stays in {2, 3, 4}, cycling 2 → 3 → 4 → 2 |
| SensorSimulator.ShowOutcome | in-ground-sensors/MMSimulator.cpp:72-81 | the LEDs always show opposite levels: LED1 HIGH exactly when the send was acknowledged |
| SensorSimulator.Step | in-ground-sensors/MMSimulator.cpp:57-88 | a transmission happens exactly when `millis() - timer > 8000`; it goes to the current `pip`, resets `timer` to now, advances `pip` whatever the ack, and sets the LEDs from the ack; otherwise nothing changes |
| SensorSimulator.RotateClosedForm | in-ground-sensors/MMSimulator.cpp:84-85 | after k sends from pip p, `pip` is `2 + (p - 2 + k) mod 3` |
| SensorSimulator.ThreeSendsCover | in-ground-sensors/MMSimulator.cpp:69-70 | any three consecutive sends cover pipes 2, 3 and 4; from pip 2 they are in that order |
| SensorSimulator.RunRotates | in-ground-sensors/MMSimulator.cpp:69-85 | over any run, the k-th transmission targets `pipes[Rotate(pip, k)]` whether or not earlier sends were acknowledged (no retry), and `pip` advances once per send |
| SensorSimulator.FirstSendsFromStart | in-ground-sensors/MMSimulator.cpp:33-85 | from power-up the first three transmissions go to `pipes[2]`, `pipes[3]`, `pipes[4]` |
| SensorSimulator.Simulator.constructor | in-ground-sensors/MMSimulator.cpp:32-43 | `timer` is 0, `pip` 2, both LEDs HIGH |
| SensorSimulator.Simulator.Loop | in-ground-sensors/MMSimulator.cpp:57-88 | updating the globals in place gives exactly `Step`, and the address sent to is `pipes[pip]` |

## Left out

- The RF24 driver is not modelled: `begin`, radio settings, `printDetails`, `startListening`/`stopListening`, `flush_tx`/`flush_rx`. Received frames, their pipe numbers and write acknowledgements are inputs.
- Flow arithmetic (`acquireFlowSensorData`, controller-hub/controller_hub.cpp:220-242) is floating point. The rate it computes is an input, `sampledRate`, and the model keeps only the reset, the once-per-second sampling gate and the running total.
- ControllerHub.Report: `water_comsumption` is kept as the real-valued running total; the `(uint16_t)` cast at controller-hub/controller_hub.cpp:274 is not modelled, because it converts a float.
- The pulse-counting interrupt and `attachInterrupt`/`detachInterrupt` are not modelled, because they are asynchronous. `pulseCount` is only zeroed where the loop zeroes it.
- The SIGINT handler of `central_hub.cpp` runs asynchronously. It is modelled as a flag input checked once per iteration (`signalled`), not as an interruption at an arbitrary point.
- OLED drawing, logging, `printf`, `Serial` and the `cin` prompts are output or input, and not modelled. Only the level-icon choice is kept.
- A `cin` read that fails is not modelled: the operator's number arrives as an integer.
- Each `loop()` iteration reads the level switches and `millis()` once. The source reads them again at each call, so a switch that changes within one iteration is not modelled.
- CentralDemo.CentralDemo.Iteration: the busy-wait `while(!radio.available())` at control-hub/central_demo.cpp:69-70 can spin forever. The model starts after a reply is available (`rx != []`).
- Raw struct byte layouts (padding, endianness, and senders writing 1 or 2 bytes where a full `ActuatorCommand` is read) are platform-defined. A frame is given as it reads into each struct. Only the explicit 32-bit packing of the demo reply is modelled.
- CommandParser.ActuatorCommandParser: inputs the source does not handle are excluded by a precondition rather than modelled. These are: a `timer` value on which `stoi` throws a C++ exception (`std::invalid_argument` with no digits, `std::out_of_range` beyond `int`); a `status` or `timer` key with no value, where `v[1]` is read past the end of the vector; and an empty comma-separated token (as in `",status:on"`), where `v[0]` is read from an empty vector (control-hub/main.cpp:162-163). Other keys without a value, such as `foo`, are harmless and are accepted.
- The simulator's `random()` readings and the GPIO pin setup are not modelled.

## Findings

| source | as written | input that shows it | evidently intended | confidence | as-written member | corrected member |
|---|---|---|---|---|---|---|
| control-hub/main.cpp:100-123 | the inner `while (radio.available(&pipe))` loop reads a frame only when it arrived on pipe 1 or 2..4; a frame on pipe 0 or 5 stays at the head of the receive FIFO, so `available` keeps reporting it and the loop never exits | a frame on pipe 5 followed by a report on pipe 1: the loop spins forever and the report never reaches `controllerHubData` | read every available frame and discard those on pipes the hub does not serve, so the loop ends and later frames are queued | medium, not executed | Aggregator.InnerLoopStallsOnUnservedPipe | Aggregator.ControlHub.Drain |
