# logi-kvm switch-input: a verified model

`switch-input.py` turns Logitech Easy-Switch key presses into a software KVM
switch. A host runs the script with its own Unifying channel number (the
self channel). The script listens to the HID++ reports of a Logitech
Unifying receiver. When a paired peripheral reports that its Easy-Switch key
for another channel was pressed, the script does two things:

- it moves every monitor bound to the self channel to the input of the
  requested channel, over DDC/CI;
- it sends a "change host" command for that channel to every other
  peripheral of the group, so that all of them follow the key press
  together.

This project models that core in Dafny and proves its properties. The
modules are:

- `Protocol`: the per-model table that the `UnifyingDevice` constructor fills in.
  - Supported models: MX Keys, MX Ergo and MX Master 3.
  - The table holds each model's detect pattern, its Easy-Switch key codes,
    its 7-byte switch command template and its channel count.
  - Model names are matched case-insensitively.
  - `Decode` is the report decoder. It returns a channel index, `-1` for no
    match, or `-2` for a model that cannot signal a switch.
- `Peripheral`: the class `UnifyingDevice`.
  - Its command buffer is an `array`.
  - `SwitchChannel` overwrites byte 4 of the buffer in place and sends it.
  - `NewUnifyingDevice` is the constructor call together with its
    `ValueError` path.
- `Host`: the outside world.
  - HID writes and monitor input changes go to one ordered ghost log.
  - Monitor inputs are an abstract map from monitor index to input name.
- `Monitors`: the `VirtualMonitor` bindings and `Monitor.switch_input`.
  - `Monitor.switch_input` is proved against the specification function
    `Reconcile`.
- `Coordinator`: the class `Device` and its `switch_channel`.
  - All monitors are handled first.
  - Then every peripheral off the origin slot receives the command.
  - It is proved against `Dispatch`.
- `EventLoop`: one pass of `main_loop`'s body over one report, plus the
  configuration built by `populate_devices`.
  - `Planned` lists the dispatches that one report triggers.
  - `Run` applies those dispatches.
  - The scenario lemmas replay the built-in configuration.

Bytes are Python integers in lists, so they are `int`. The slot id and the
channel number are copied into messages unchanged.

The code and its comment disagree on the decoder. The comment at
switch-input.py:117 says bytes 0-4 are compared. The code compares
`input_bytes[:4]`, which is bytes 0-3, plus byte 6. The model follows the
code, and `Protocol.DecodeIgnoresByte4` states the consequence.

Some parts of a source function are separate methods with their own
contracts. `ServePeripheral`, `ServeGroup` and `SendCommand` each carry
one loop body, and their callers' loops are the source's loops.
`HandleGroup` carries the whole inner loop of `main_loop`
(switch-input.py:208-214). `FixturePeripherals` and `FixtureDevices`
carry straight-line parts of `populate_devices` (switch-input.py:189-198).

## Model

| member | source | states |
|---|---|---|
| Protocol.Lower | switch-input.py:77 | lower-casing works character by character: A-Z and the Kelvin sign become their ASCII lower case, and every other character is kept |
| Protocol.KindOf | switch-input.py:77-110 | a device type selects a model exactly when its lower-cased text is "mx keys", "mx ergo" or "mx master 3"; any other type is refused |
| Protocol.KindOfIgnoresCase | switch-input.py:77-97 | two type strings that differ only in letter case select the same model |
| Protocol.KindOfMXKeys | switch-input.py:77 | "MX Keys" and "MX KEYS" both select MX Keys |
| Protocol.KindOfOthers | switch-input.py:90-97 | "MX Ergo" and "MX Master 3" select their models |
| Protocol.KindOfKelvin | switch-input.py:77 | "MX Keys" written with the Kelvin sign for K selects MX Keys, as Python's `str.lower` maps that sign to k |
| Protocol.KindOfUnknown | switch-input.py:109-110 | a model missing from the table ("MX Anywhere 3") is refused |
| Protocol.Table | switch-input.py:85-108 | every template is 7 bytes with the slot id at byte 1 and the 0xFF placeholder at byte 4; the detect pattern is empty exactly for MX Ergo, and otherwise is 7 bytes with the slot id at byte 1 |
| Protocol.TableKeys | switch-input.py:86-108 | the Easy-Switch keys of a model are pairwise distinct; for MX Keys and MX Master 3 there are exactly max_channels of them |
| Protocol.FirstIndex | switch-input.py:120-122 | the key loop's result is -1 exactly when the byte is not a key; otherwise it is the position of the first equal key |
| Protocol.Decode | switch-input.py:112-128 | decode returns -2 exactly for MX Ergo, and then for every report, because the empty pattern is never longer than the report |
| Protocol.DecodeErgo | switch-input.py:115-125 | MX Ergo decodes every report to -2, including the empty report |
| Protocol.DecodeShortReport | switch-input.py:114-115 | a report shorter than the detect pattern decodes to -1 |
| Protocol.DecodeChannel | switch-input.py:114-122 | for MX Keys and MX Master 3, decode returns i >= 0 exactly when bytes 0-3 and 6 match the pattern and byte 5 is the i-th key; every other report gives -1; every result is below max_channels |
| Protocol.DecodeNeedsSlot | switch-input.py:118-119 | a report whose byte 1 is not the device's slot id never decodes to a channel for it |
| Protocol.DecodeIgnoresByte4 | switch-input.py:117-119 | byte 4 of a report is never compared: changing it never changes the result |
| Peripheral.FromTable | switch-input.py:75-108 | the constants stored for a device are the table row of its model and slot |
| Peripheral.Command | switch-input.py:130-131 | the command for channel c is 7 bytes addressed to the device's slot, with c at byte 4 and every other byte taken from the template |
| Peripheral.FitsAfterChannelWrite | switch-input.py:131 | overwriting byte 4 keeps the buffer a command of the same template |
| Peripheral.UnifyingDevice.constructor | switch-input.py:74-108 | a new device stores its type, slot and the table row of its model; its command buffer is new and holds the template |
| Peripheral.UnifyingDevice.SwitchChannel | switch-input.py:130-134 | afterwards byte 4 of the stored command is c and the other bytes are unchanged; exactly one HID write of that command is appended to the log, and nothing else changes |
| Peripheral.NewUnifyingDevice | switch-input.py:74-110 | construction fails with "Invalid Unifying device type" exactly for an unknown type; otherwise it returns a new, valid device of the matching model |
| Host.Environment.Write | switch-input.py:55-60 | a HID write appends one event to the log and changes no monitor |
| Host.Environment.GetInputSource | switch-input.py:158-160 | reading a monitor returns its current input |
| Host.Environment.SetInputSource | switch-input.py:165 | setting a monitor changes that monitor's input only and logs the change |
| Monitors.NewVirtualMonitor | switch-input.py:137-142 | a binding keeps the given channel, monitor and input; its VCP message number defaults to 60 |
| Monitors.LastInput | switch-input.py:153-156 | the target is the fallback or the input of some binding for the requested channel; `LastInputChoice` says which |
| Monitors.Reconcile | switch-input.py:150-165 | the set of attached monitors stays the same; each binding's compare-and-set is decided by `SwitchStep` |
| Monitors.ReconcileOnlySets | switch-input.py:150-165 | switch_input only appends monitor input changes to the log, and never a HID write |
| Monitors.LastInputChoice | switch-input.py:153-156 | the target is the input of the last binding for the requested channel; with no such binding it is the self-channel binding's own input |
| Monitors.ReconcileReachesTargets | switch-input.py:151-165 | afterwards every self-channel monitor shows its target input, when no two self-channel bindings share a monitor |
| Monitors.ReconcileLeavesMonitor | switch-input.py:151-165 | a monitor keeps its input and receives no set when every self-channel binding naming it targets the input it already shows; so a monitor named by no self-channel binding is never touched |
| Monitors.ReconcileSetsTargets | switch-input.py:151-165 | each binding issues at most one set, and every logged set moves a self-channel binding's monitor to that binding's target |
| Monitors.ReconcileNoWriteWhenSet | switch-input.py:160-165 | when every self-channel monitor already shows its target, nothing is set and nothing is logged |
| Monitors.ReconcileIdempotent | switch-input.py:150-165 | when no two self-channel bindings share a monitor, a second identical switch_input issues no write and changes nothing |
| Monitors.MainMonitor | switch-input.py:193-195 | the fixture's monitor has two bindings with the default VCP number, and no channel binds one monitor twice |
| Monitors.ReconcileScenario | switch-input.py:193-195 | on channel 0's host with monitor 2 on HDMI2: requesting channel 0 does nothing; requesting channel 1 sets monitor 2 to HDMI1, once |
| Monitors.SwitchStepAsWritten | switch-input.py:160-168 | as written, the step raises exactly when the monitor already shows the target; otherwise it switches to the target |
| Monitors.SwitchStep | switch-input.py:160-165 | as intended, the step leaves the monitor alone exactly when it already shows the target; otherwise it switches to the target |
| Monitors.RepeatedSwitchRaisesAsWritten | switch-input.py:166-168 | repeating the channel-1 request reaches the already-set branch, which raises as written and does nothing as intended |
| Monitors.Monitor.constructor | switch-input.py:146-148 | a Monitor holds the given bindings |
| Monitors.Monitor.SwitchInput | switch-input.py:150-165 | the new monitor state and log are those of `Reconcile` over all bindings, whose properties are the lemmas above |
| Coordinator.ReconcileAll | switch-input.py:178-179 | handling the monitors keeps the set of attached monitors |
| Coordinator.ReconcileAllOnlySets | switch-input.py:178-179 | the monitor loop only appends input changes to the log |
| Coordinator.CommandOf | switch-input.py:182-186 | the peripheral on the origin slot gets nothing; any other gets exactly its command for the channel |
| Coordinator.Commands | switch-input.py:181-186 | the peripheral loop sends at most one command per peripheral |
| Coordinator.CommandsShape | switch-input.py:181-183 | every command sent is a 7-byte HID write carrying the requested channel, and none is addressed to the origin slot |
| Coordinator.CommandsSkipOrigin | switch-input.py:181-186 | no command is ever addressed to the origin slot |
| Coordinator.CommandsReach | switch-input.py:181-186 | with distinct slots, a peripheral off the origin slot has received exactly one command once the loop has passed it, and none before |
| Coordinator.CommandsExactlyOnce | switch-input.py:181-186 | with distinct slots, each peripheral off the origin slot receives exactly one command and the origin slot receives none |
| Coordinator.Dispatch | switch-input.py:177-186 | switch_channel keeps the set of attached monitors |
| Coordinator.DispatchOrder | switch-input.py:177-186 | the log only grows, and after the first HID write no monitor input is set any more: all monitors come before any peripheral |
| Coordinator.Device.constructor | switch-input.py:172-175 | a Device holds its channel, peripherals and monitors |
| Coordinator.Device.SwitchChannel | switch-input.py:177-186 | the new environment is `Dispatch` of the device's value: all monitors' switch_input, then the commands; every peripheral stays valid |
| Coordinator.Device.SendCommands | switch-input.py:181-186 | the peripheral loop appends exactly the commands of `Commands`, in list order, and sets no monitor |
| Coordinator.Device.SendCommand | switch-input.py:182-186 | one iteration appends the peripheral's command, or nothing when it sits on the origin slot; peripherals that share its object stay valid |
| EventLoop.Detections | switch-input.py:208-214 | every request a group raises is for that group and for a channel that is neither negative nor the self channel |
| EventLoop.Planned | switch-input.py:206-214 | every request of a pass comes from a group bound to the self channel and asks for a channel >= 0 other than the self channel |
| EventLoop.DetectionsExactly | switch-input.py:208-214 | a group raises a request exactly when one of its peripherals decodes the report to it, with that peripheral's slot as the origin |
| EventLoop.PlannedExactly | switch-input.py:206-214 | a pass raises a request exactly when a peripheral of a group bound to the self channel decodes the report to another channel >= 0, with its slot as the origin |
| EventLoop.QuietReport | switch-input.py:206-214 | a report that no self-channel peripheral decodes to another channel dispatches nothing |
| EventLoop.Run | switch-input.py:206-214 | serving requests keeps the set of attached monitors |
| EventLoop.Serve | switch-input.py:209-214 | one peripheral's step keeps the set of attached monitors |
| EventLoop.Handle | switch-input.py:207-214 | one group's step keeps the set of attached monitors |
| EventLoop.ServePeripheral | switch-input.py:209-214 | the inner loop body decodes the report and calls switch_channel exactly when the result is >= 0 and not the self channel |
| EventLoop.HandleGroup | switch-input.py:208-214 | the inner loop serves the requests of `Detections` for the group, in peripheral order, with no early exit |
| EventLoop.ServeGroup | switch-input.py:207-214 | a group not bound to the self channel changes nothing; a bound group is handled; the peripherals of every group stay valid |
| EventLoop.MainLoopStep | switch-input.py:205-214 | one pass over a report serves exactly the requests of `Planned`, in order |
| EventLoop.FixtureGroups | switch-input.py:191-198 | the fixture has two groups, on channels 0 and 1, with the same peripherals on distinct slots and the same main monitor |
| EventLoop.FixtureViews | switch-input.py:193-198 | the two groups populate_devices builds have the fixture's values |
| EventLoop.FixturePeripherals | switch-input.py:191-192 | populate_devices builds an MX Ergo on slot 2 and an MX Keys on slot 1, with distinct new command buffers |
| EventLoop.FixtureDevices | switch-input.py:191-198 | the two groups built have the fixture's values; their peripherals are valid and have separate, new command buffers |
| EventLoop.PopulateDevices | switch-input.py:189-198 | it appends two groups, on channels 0 and 1, that share the same peripherals and monitor; each peripheral's buffer is new and separate |
| EventLoop.MainLoopOnce | switch-input.py:201-214 | after the configuration is built, the first pass over a report serves exactly the fixture's `Planned` requests |
| EventLoop.FixtureDecodes | switch-input.py:115-125 | in the fixture, MX Keys decodes the key-2 report to 1 and the key-1 report to 0; MX Ergo decodes both to -2 |
| EventLoop.KeyTwoPlanned | switch-input.py:206-214 | on channel 0's host, the key-2 report raises exactly one request: group 0 to channel 1, from slot 1 |
| EventLoop.GroupZeroToChannelOne | switch-input.py:177-186 | that request sets monitor 2 to HDMI1, then sends `[0x10,2,0x15,0x1b,1,0,0]` to MX Ergo only |
| EventLoop.KeyTwoOnChannelZero | switch-input.py:204-214 | the whole pass for that report has exactly that effect |
| EventLoop.OwnChannelKeyIgnored | switch-input.py:210-211 | pressing the key of the host's own channel dispatches nothing, on either host |
| EventLoop.ShortReportIgnored | switch-input.py:206-214 | a report shorter than the detect pattern dispatches nothing, whatever the self channel |
| EventLoop.NoEarlyExit | switch-input.py:208-214 | two peripherals of one group that both decode a report each dispatch it, in list order; this needs two peripherals on one slot, since the slot id is part of the detect pattern |

## Left out

- HID transport: `unifying_listen`, `unifying_write`, `usb_discover` and
  the device-path globals (switch-input.py:35-70) are foreign calls into
  `hid`. The report read becomes a parameter. A write becomes an event
  appended to the ghost log.
- monitorcontrol: `get_monitors`, `get_input_source`, `set_input_source`
  and the `with monitor` context become the map in `Host.Environment`.
  This rests on two assumptions about that library:
  - `get_input_source` returns the very string that `set_input_source`
    was last given, in the form the configuration uses ("HDMI1",
    "HDMI2"). So the test `old_input != target_input` is a comparison of
    configured names. If the library reports inputs in another form, the
    source sets a monitor on every request. In that case
    `ReconcileNoWriteWhenSet`, `ReconcileLeavesMonitor`,
    `ReconcileIdempotent` and the Findings row do not describe it.
  - Monitor ids are non-negative indices into the `get_monitors()` list.
    Python also accepts a negative index, which names the same monitor as
    the list length plus that index. The map treats `-1` and, say, `2` as
    two monitors, so `DistinctSelfMonitors` does not see that aliasing.
- Monitors.Monitor.SwitchInput: requires every monitor bound to the self
  channel to be present in that map. The source would raise `IndexError`
  from `get_monitors()[vm.monitor_id]` otherwise, and that error is not
  modelled.
- EventLoop.MainLoopStep: requires the monitors of every group bound to
  the self channel to be present in that map, even for a report that
  dispatches nothing and so never calls `get_monitors()`. A deployment
  whose monitors are missing is therefore not modelled at all, not even
  for its quiet reports.
- EventLoop.ServePeripheral: requires the monitors of every group bound to
  the self channel to be present in the map, as `MainLoopStep` does.
- EventLoop.HandleGroup: requires the monitors of every group bound to the
  self channel to be present in the map, as `MainLoopStep` does.
- EventLoop.ServeGroup: requires the monitors of every group bound to the
  self channel to be present in the map, as `MainLoopStep` does.
- EventLoop.MainLoopOnce: requires the monitors of every group bound to
  the self channel to be present in the map, as `MainLoopStep` does.
- Monitors.Monitor.SwitchInput: models the already-set branch as doing
  nothing. As written, that branch raises `AttributeError` (see Findings).
  `Coordinator.Device.SwitchChannel` and `EventLoop.MainLoopStep` inherit
  this corrected behaviour.
- Logging: every `logging.debug`/`logging.info` line is left out. Only the
  decisions around them are modelled.
- The `while True` loop (switch-input.py:204) is not modelled; one pass over
  one report is. Logger setup and argparse (switch-input.py:217-243) are
  process plumbing and are left out too.
- The `NotImplementedError` branch (switch-input.py:126-127) is
  unreachable, because the constructor accepts only the three known
  models. `Protocol.Kind` has exactly those three values.
- The `self_channel` argument of `UnifyingDevice.__init__` is never used by
  the source, so the model's constructor has no such parameter. The same
  holds for `populate_devices`' `self_channel`, which the model only passes
  through.
- Peripheral.UnifyingDevice.constructor: requires the type to be a known
  model. The refusal of an unknown type is modelled by
  `NewUnifyingDevice`.
- EventLoop.PopulateDevices: returns the extended sequence instead of
  appending to the caller's list in place.
- Protocol.Lower: maps only A-Z and the Kelvin sign (U+212A, which
  Python's `str.lower` maps to k), and keeps every other character as it
  is. Python lower-cases the rest of Unicode too, and turns U+0130 into
  two characters, "i" and a combining dot. Those results are never an
  ASCII letter other than that "i", which is always followed by the
  combining dot, and the three model names contain neither. So `KindOf`
  refuses the same strings the source refuses, but `Lower` is not Python's
  `str.lower` on other text.
- Protocol.Decode: its own contract states only when the result is -2. The
  channel and no-match cases are stated by `DecodeChannel`: for MX Keys and
  MX Master 3 the result is a channel or -1. `DecodeShortReport` and
  `DecodeNeedsSlot` state the short-report and wrong-slot cases.
- Coordinator.Device.SwitchChannel: states that every peripheral's command
  buffer still holds its template with some value in byte 4. It does not
  track which value. The source overwrites byte 4 before every send and
  reads no other byte of the buffer back, so the stale value is never
  observed.
- Coordinator.Device.SendCommands: states that every command buffer keeps
  its template, but not which value byte 4 holds afterwards, for the
  reason given for `SwitchChannel`.
- Coordinator.Device.SendCommand: states that every command buffer keeps
  its template, but not which value byte 4 holds afterwards, for the
  reason given for `SwitchChannel`.
- EventLoop.ServePeripheral: does not track the value left in byte 4 of
  the command buffers either.
- EventLoop.HandleGroup: does not track the value left in byte 4 of the
  command buffers either.
- EventLoop.ServeGroup: does not track the value left in byte 4 of the
  command buffers either.
- EventLoop.MainLoopStep: does not track the value left in byte 4 of the
  command buffers either.
- EventLoop.NoEarlyExit: the source has no `break`, so several dispatches
  per report are possible. With the fixture's distinct slots, though, only
  one peripheral can match, because the slot id is byte 1 of the detect
  pattern (`Protocol.DecodeNeedsSlot`). The lemma therefore puts MX Keys
  and MX Master 3 on the same slot.

## Findings

| source | as written | input that shows it | evidently intended | confidence | as-written member | corrected member |
|---|---|---|---|---|---|---|
| switch-input.py:166-168 | the branch for a monitor that already shows the target input formats its debug line with `vm.display_id`, which `VirtualMonitor` does not have, so `switch_input` raises `AttributeError` and `main_loop` stops | on channel 0's host with monitor 2 on HDMI2, serve the channel-1 request twice: the second `switch_input` finds HDMI1 already selected | log and leave the monitor alone, so that repeating a request is harmless when no two self-channel bindings share a monitor | high, not executed | Monitors.SwitchStepAsWritten, Monitors.RepeatedSwitchRaisesAsWritten | Monitors.SwitchStep, Monitors.ReconcileIdempotent |
