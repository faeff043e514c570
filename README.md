# Power controller sequencing model

This project models the power-sequencing core of the board-management
daemon's `PowerController` (`src/hal/power_controller.rs`). The controller
owns the enable lines of the board's four compute nodes and the two
indicator-light files. It switches nodes on and off in a fixed two-phase
order: it announces the new state to the platform driver through a sysfs
attribute, waits 100 ms, and then drives the node's enable line.

Every interaction with the kernel or the timer is an event appended to a
trace held by a `Kernel` object (module `Effects`):

- `Write(path, token)` is a file write;
- `Sleep(ms)` is a timed suspension;
- `SetLine(idx, level)` sets enable line `idx`.

A fixed set of trace positions, `faulty`, says which attempted writes or line
sets fail. Sleeps never fail. The model's statements about ordering,
aborting at the first failure, the lack of rollback and the composition of a
reset are all statements about this trace.

Modules:

- `Bits`: the `u8` type and the bit decoder (`bit_iterator`). The decoder
  turns a state byte and a mask byte into ascending `(index, bit)` pairs,
  one per set mask bit among bits 0..7.
- `NodeIds`: the four node slots, their 0-based index and their one-hot bit
  field (`NodeId::to_bitfield`).
- `Decimal`: the decimal text of a node number, as `format!("{}")` produces
  it, and the parse that inverts it.
- `Effects`: trace events, errors and outcomes, and the `Kernel` class.
- `PowerControl`: the path and token constants, `set_mode`,
  `fallback_if_not_exist`, the `PowerController` class and the
  specification functions of a call.
  - `RunUpdates` is what the update loop does against a given failure set.
  - `Plan` is the complete sequence of a call in which nothing fails.
  - `ResetRun` is the composition performed by `reset_node`.
- `Sequencing`: lemmas about those functions, covering order, abort
  without rollback, panics, final line levels, idempotence, a worked example
  and the reset script.

The controller's methods take `&self`, so its fields never change after
construction. They are `const` fields of the Dafny class. The methods
modify only the `Kernel`.

## Model

| member | source | states |
|---|---|---|
| Bits.BitIterator | src/hal/power_controller.rs:93-95 | The decoder: the `(index, state bit)` pairs for the set bits of the mask among bits 0..7, lowest index first; its properties are `Bits.BitIteratorDecodes` and `Bits.LowMaskIndices`. |
| Bits.BitIteratorDecodes | src/hal/power_controller.rs:93-95 | The decoded pairs name only set mask bits (0..7), carry the matching state bit, are strictly ascending, and include every set mask bit. |
| Bits.LowMaskIndices | src/hal/power_controller.rs:95-99 | With a mask below 16 every decoded index is below 4, so it names one of the four enable lines. |
| NodeIds.ToBitfield | src/hal/power_controller.rs:108 | A node's bit field is `1 << (node - 1)`: the value 2 to the power of the node's 0-based index. |
| NodeIds.BitfieldOneHot | src/hal/power_controller.rs:108 | A node's bit field has exactly the node's own bit set. |
| NodeIds.OneHotUpdates | src/hal/power_controller.rs:108-112 | Decoding against a node's one-hot mask yields the single pair for that node, with that node's state bit. |
| Decimal.ParseFormat | src/hal/power_controller.rs:136 | The decimal text of a node number is all digits and parses back to the number. |
| Decimal.FormatDigits | src/hal/power_controller.rs:136 | The decimal text is non-empty, all digits, and has no leading zero. |
| Decimal.FormatInjective | src/hal/power_controller.rs:136 | Different numbers have different decimal text. |
| PowerControl.ChipPath | src/hal/power_controller.rs:45-49 | `/dev/gpiochip1` is chosen exactly for a latching system, `/dev/gpiochip2` exactly otherwise. |
| PowerControl.ModeToken | src/hal/power_controller.rs:130-134 | The token written for a node state; what it means is stated by `PowerControl.ModeTokenMeaning`. |
| PowerControl.ModePath | src/hal/power_controller.rs:136 | The node's power-state attribute: the prefix `/sys/bus/platform/devices/node`, the node number in decimal, then `-power/state`; its properties are `Sequencing.ModePathDigit` and `Sequencing.ModePathInjective`. |
| PowerControl.ModeTokenMeaning | src/hal/power_controller.rs:130-134 | The token is "enabled" exactly when the state is non-zero and "disabled" exactly when it is zero. |
| PowerControl.LedToken | src/hal/power_controller.rs:117 | The light token is "1" exactly when `on` holds and "0" exactly when it does not. |
| PowerControl.SetMode | src/hal/power_controller.rs:129-138 | Appends exactly one write of the state token to the node's power-state attribute; it fails exactly when that write fails. |
| PowerControl.FallbackIfNotExist | src/hal/power_controller.rs:140-147 | Returns the primary path when it exists and the fallback path otherwise, whether or not the fallback exists. |
| PowerControl.RunUpdates | src/hal/power_controller.rs:95-100 | The loop over the decoded pairs against a failure set: per pair the write, the 100 ms sleep and the line set, stopping at the first failing write or line set or at an index with no line; `SetPowerNode` is proved against it and the `Sequencing` lemmas state its order, abort and plan properties. |
| PowerControl.NodeRun | src/hal/power_controller.rs:97-99 | One node's handling produces a prefix of write, 100 ms sleep, line set, and it completes exactly when the write and the line set succeed and the index has a line. |
| PowerControl.RunCons | src/hal/power_controller.rs:95-100 | The loop is the first node's handling, followed by the rest of the loop only when that node completes. |
| PowerControl.ResetRun | src/hal/power_controller.rs:108-113 | The reset: the off call over the node's one-hot mask, then, only if it completed, the 1 s sleep and the on call; `ResetNode` is proved against it and `Sequencing.ResetOffFails`/`Sequencing.ResetOnPhase` give the resulting seven-step script. |
| PowerControl.PowerController.New | src/hal/power_controller.rs:44-76 | A chip that does not open gives an I/O error labelled with the chip path. Otherwise the call succeeds exactly when all four lines exist; the first missing line in the order node1-en..node4-en gives its "cannot find PORTk_EN" message; and on success each enable line has the offset found under its name and each light path is the primary one if it exists, else the fallback. |
| PowerControl.PowerController.SetPowerNode | src/hal/power_controller.rs:92-103 | The trace grows by exactly the effects of `RunUpdates` over the decoded pairs, and the outcome is that run's outcome. |
| PowerControl.PowerController.ApplyUpdates | src/hal/power_controller.rs:95-102 | The loop over any list of pairs appends exactly the effects of `RunUpdates` and returns its outcome. |
| PowerControl.PowerController.ApplyUpdate | src/hal/power_controller.rs:96-99 | One loop iteration appends exactly `NodeRun`'s effects and returns its outcome. |
| PowerControl.PowerController.ResetNode | src/hal/power_controller.rs:106-114 | The trace grows by exactly the effects of `ResetRun`: the off call, then, only if that completed, the 1 s sleep and the on call. |
| PowerControl.PowerController.PowerLed | src/hal/power_controller.rs:116-120 | Appends one write of "1"/"0" to the power-light path chosen at construction; a failure is labelled with the primary power-light path even when the fallback was chosen. |
| PowerControl.PowerController.StatusLed | src/hal/power_controller.rs:122-126 | Appends one write of "1"/"0" to the status-light path chosen at construction; a failure is labelled with the primary status-light path. |
| Sequencing.ModePathInjective | src/hal/power_controller.rs:136 | Distinct node numbers write to distinct power-state attributes. |
| Sequencing.ModePathDigit | src/hal/power_controller.rs:136 | Node n (n < 10) writes to `/sys/bus/platform/devices/node<n>-power/state`. |
| Sequencing.PlanNodeOrder | src/hal/power_controller.rs:95-99 | In the plan, node k's write, 100 ms sleep and line set occupy positions 3k, 3k+1 and 3k+2, in that order. |
| Sequencing.PlanPrefix | src/hal/power_controller.rs:95-100 | The plan of the first k pairs is the first 3k steps of the plan. |
| Sequencing.RunDoneIffClean | src/hal/power_controller.rs:93-102 | A call completes exactly when every decoded node completes, and then its effects are exactly the plan: one write, one sleep and one line set per pair, and nothing else. |
| Sequencing.RunUpToFault | src/hal/power_controller.rs:95-100 | If the nodes before k complete and node k does not, the effects are the earlier nodes' full steps followed by node k's cut-short run. |
| Sequencing.AbortAtFirstFault | src/hal/power_controller.rs:97-99 | After the earlier nodes' full steps, a failed write leaves only that write, with no sleep and no line set. An index without a line leaves the write and the sleep and then panics. A failed line set leaves all three steps. No later node is touched, and earlier nodes are not rolled back. |
| Sequencing.RunIsPlanPrefix | src/hal/power_controller.rs:95-100 | Whatever fails, a call's effects are a prefix of its plan. |
| Sequencing.RunPanicsOnlyOutOfRange | src/hal/power_controller.rs:99 | A call panics only on an index with no enable line, and never when every index is below 4. |
| Sequencing.NoFaultNeverFails | src/hal/power_controller.rs:97-99 | With no failing write or line set, a call never returns an error. |
| Sequencing.LowMaskNeverPanics | src/hal/power_controller.rs:93-99 | A mask below 16 never indexes past the four enable lines. |
| Sequencing.HighMaskBitPanics | src/hal/power_controller.rs:93-99 | A set mask bit 4..7 is not ignored: with nothing failing, the call panics on an index of at least 4. |
| Sequencing.LastLevelAppend | src/hal/power_controller.rs:99 | A later successful set of a line overrides an earlier one. |
| Sequencing.PlanLevel | src/hal/power_controller.rs:95-100 | When every step of the plan succeeds, each line ends at the state last requested for it. |
| Sequencing.LastRequestedUniform | src/hal/power_controller.rs:93-95 | If every request for a node asks for the same state, the last request is that state when there is one. |
| Sequencing.DecodedRequest | src/hal/power_controller.rs:93-95 | The decoder requests the state bit for exactly the masked nodes. |
| Sequencing.RunLevel | src/hal/power_controller.rs:95-102 | After a completed run, each line is at its last requested state, or unchanged if the run did not request it. |
| Sequencing.SetPowerNodeLevel | src/hal/power_controller.rs:92-103 | After a successful call, every masked node's line is at its state bit and every other line is unchanged. |
| Sequencing.RunIdempotent | src/hal/power_controller.rs:95-102 | Two completed runs of the same pairs produce identical effects, and the second leaves every line where the first left it. |
| Sequencing.SetPowerNodeIdempotent | src/hal/power_controller.rs:92-103 | Two completed calls with the same state and mask perform the same writes, sleeps and line sets, and the second changes no line level. |
| Sequencing.ExampleDecodes | src/hal/power_controller.rs:93 | States 0b0101 under mask 0b1111 decode to indices 0..3 with states 1, 0, 1, 0. |
| Sequencing.SetPowerNodeExample | src/hal/power_controller.rs:92-103 | `set_power_node(0b0101, 0b1111)` with nothing failing handles nodes 1, 2, 3, 4 in order. It writes "enabled", "disabled", "enabled", "disabled", each followed by a 100 ms sleep and the line set to 1, 0, 1, 0, and completes. |
| Sequencing.ResetRunNodes | src/hal/power_controller.rs:106-114 | A reset is the node's off handling, then, only if that completes, a 1 s sleep and the node's on handling. |
| Sequencing.ResetOffFails | src/hal/power_controller.rs:108-110 | A failed off write ends the reset after that write. A failed off line set ends it after the three off steps. Neither case has the 1 s sleep or any on step. |
| Sequencing.ResetOnPhase | src/hal/power_controller.rs:110-113 | After a completed off phase come the 1 s sleep and the on phase. A failed on write ends the reset after that write, a failed on line set ends it after all seven steps, and otherwise all seven steps complete. A reset never panics. |

## Left out

- GPIO access through `gpiod` (opening the chip, `Lines::set_values`): a line set is a trace event that fails at a faulty position. Opening the chip is a lookup in the `Devices.chips` map.
- `load_lines`, `bit_iterator` and `NodeId::to_bitfield` are defined in files that are not part of this model. They are modelled by their use: a name-to-offset map per chip, ascending pairs for the set mask bits, and a one-hot mask.
- PowerController.New: a failure of the `gpio_output_array!` request (line 66) is not modelled; construction succeeds once all four names are found. The macro lives in a file that is not part of this model.
- `tokio::fs::write` and `tokio::time::sleep`: these are trace events with no real-time meaning. Whether a write fails is given by `faulty`, and a sleep cannot fail.
- `PathBuf::exists` and the filesystem: the set of existing files is a parameter (`Devices.files`). The `expect("valid utf8 path")` calls on constant paths cannot fail and are not modelled.
- Logging through `tracing` is not modelled, and neither is the text of `anyhow` errors: only the error kind and its context label are kept.
- Async cancellation and concurrent callers are not modelled; the model is sequential.
- The enable line is identified by its index 0..3 in the trace. The line offsets found at construction are recorded in `enable`, but `SetLine` names the index, not the offset.
- Decoded states are 0 or 1, as the decoder takes one bit of the state byte; `set_mode` and the line set are modelled over natural numbers.
- Mask bits 4..7 are not ignored: the call writes the attribute for node 5..8, sleeps, then panics on the 4-element `enable` array at line 99 (`Panicked(index)`), so this assumes `bit_iterator` yields every set mask bit.
- Errors from `set_mode` and from the line set carry no context label (`Io(None)`), because the code attaches none.
