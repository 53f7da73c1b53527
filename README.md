# RapidChange ATC tool-change sequencer, modelled in Dafny

This project models the sequencing core of the RapidChange automatic tool changer
plugin for the grblHAL CNC controller (`my_plugin.c`). The model covers:

- where each tool's pocket sits (`get_tool_location`);
- the module state `current_tool` / `next_tool` and the HAL entry points
  `tool_select`, `reset` and `tool_change`;
- one unload or load pass, `spindle(load)`, including the tool-recognition
  check with its single retry.

Modules:

- `Config`: the settings record the sequencer reads, with its C integer widths.
- `Geometry`: pocket positions. `ToolLocation` models `get_tool_location`. The
  product `(tool_id - 1) * pocket_offset` is evaluated in unsigned 32-bit
  arithmetic, as in C.
- `Motion`: the collaborators the plugin calls, recorded as an `Effect` trace.
  These are the spindle HAL, `mc_line`, `protocol_buffer_synchronize`, the
  coolant HAL, the manual hooks, the sensor, `measureTool`, the tool report and
  the previous driver reset. `Machine` holds where the machine stands once the
  planner has run dry, the targets queued to the planner since, and whether the
  spindle turns. A move is only queued (`mc_line`). A synchronise
  (`protocol_buffer_synchronize`) waits until the queue has drained. A spindle
  command acts at once. `Run` carries out a trace. `Safe` means that no
  sideways move is queued or executing while the spindle turns.
- `Sequencer`: the pass and the change as functions. `PassSpec` and `ChangeSpec`
  map the inputs to the status, the effect trace and the new `current_tool`.
  `PassExit` and `ChangeExit` give where the machine ends up.
- `Atc`: the plugin's state as a class, `Changer`. Its methods `ToolSelect`,
  `Reset`, `Spindle` and `ToolChange` update the fields in place. `Spindle` and
  `ToolChange` are proved to produce exactly what `PassSpec` / `PassExit` and
  `ChangeSpec` / `ChangeExit` say. Their steps `MoveIntoPocket` and
  `RecognitionCheck` are proved against `Approach` and `Recognize`. `ToolSelect`
  and `Reset` state their new state outright.
- `ChangeProperties`: lemmas about those functions. They cover ordering, safety,
  counts, the retry protocol and the edge cases.

The recognition sensor (`laserBlocked`) is an oracle: a sequence of readings.
Reading `k` past the end of the sequence answers "not blocked", as the stub at
`my_plugin.c:428-431` does. The source reads the sensor twice on every
recognition pass.

### Quirks of the code (modelled as written)

- After a completed load pass, `current_tool` is zeroed. After a completed
  unload pass, it is a copy of `*next_tool` (lines 401-405). A completed change
  would be expected to leave the loaded tool recorded as mounted. As written, it
  leaves tool 0 (`CompletedChangeClearsCurrentTool`).
- `reset` is meant to restore the previous tool when it interrupts a change
  (comment at line 283). An interrupt right after a completed unload finds
  `current_tool` already equal to the selection, so nothing is restored and no
  tool report is queued (`CompletedUnloadDefeatsRestore`,
  `Atc.Changer.UnloadThenReset`).
- The spindle is started (lines 355-359) right after the raise, the traverse
  and the descent were queued (lines 342, 348, 352), with no synchronise in
  between. The traverse may therefore still be executing when the spindle starts
  turning (`SpindleStartsBeforeQueueDrains`). A pass is safe exactly when the
  machine is already settled over the pocket, so that no traverse is needed
  (`ApproachSafety`, `PassIsSafe`, `ChangeIsSafe`).
- `tool_change` never clears `next_tool` (lines 434-468). A later `reset` therefore
  still sees a pending change. After a completed change `current_tool` is all zero,
  so for any selected tool other than 0 that reset writes the zero record through
  `next_tool` and queues a tool report (`Atc.Changer.ChangeThenReset`).
- The range check at line 316 reads `next_tool` on the unload pass too. An
  unload therefore goes manual when the *selected* tool is beyond the magazine
  (`UnloadRangeCheckReadsSelection`).
- The spindle is stopped only inside the recognition branch. With recognition
  off, or after a failed recognition, the spindle is left turning
  (`SpindleLeftTurning`).
- `tool_change` discards both pass statuses. A failed recognition is reported as
  success (`FailedLoadReportsOk`).
- Only the second sensor reading decides a failure. The first one only decides
  whether to retry (`RecognitionSamples`).
- Tool 0 is not refused by the range check. Its pocket distance wraps to
  2^32 - pocket_offset (`LoadingToolZeroLeavesMagazine`, `ToolZeroWraps`).

## Model

| member | source | states |
|---|---|---|
| Geometry.ToolLocation | my_plugin.c:251-273 | The pocket lies on the configured line through pocket 1: the cross-axis coordinate is pocket 1's and Z is 0. |
| Geometry.ToolOneAtFirstPocket | my_plugin.c:256-270 | Tool 1 sits exactly at the configured first-pocket position. |
| Geometry.LocationIsWalk | my_plugin.c:251-273 | Without 32-bit overflow, tool t sits where walking t-1 pocket spacings from pocket 1 along the alignment axis and direction arrives. |
| Geometry.ExactDistance | my_plugin.c:258 | When the product does not overflow, the pocket distance is exactly (tool-1)*offset. |
| Geometry.DistanceStep | my_plugin.c:258 | Without overflow, each tool's pocket distance is one spacing more than the previous tool's. |
| Geometry.LocationStep | my_plugin.c:256-270 | One spacing more of pocket distance is one step along the alignment axis in the configured direction. |
| Geometry.NextPocket | my_plugin.c:256-270 | Consecutive tools are exactly one signed spacing apart on the alignment axis. |
| Geometry.MagazineFitsInWord | my_plugin.c:258-267 | For every tool of the magazine, the 32-bit product does not wrap. |
| Geometry.InMagazineDistance | my_plugin.c:258-267 | Inside the magazine the pocket distance is the plain product (tool-1)*offset. |
| Geometry.DistanceGrows | my_plugin.c:258-267 | Inside the magazine a higher tool number is strictly further from pocket 1. |
| Geometry.SameLocationSameDistance | my_plugin.c:256-270 | Two tools share a position if and only if their pocket distances agree. |
| Geometry.DistinctPockets | my_plugin.c:251-273 | With a non-zero spacing, distinct tools of the magazine get distinct pockets. |
| Geometry.ToolZeroWraps | my_plugin.c:258 | Tool 0's distance wraps to 2^32 - pocket_offset. |
| Atc.ToolRecord.constructor | my_plugin.c:84 | A parser-owned tool record holds the given data. |
| Atc.Changer.constructor | my_plugin.c:84 | Initial module state: no tool mounted (all-zero record), no selection, nothing emitted. |
| Atc.Changer.ToolSelect | my_plugin.c:298-303 | The selection points at the given record; the mounted tool becomes a copy of it exactly when it is not only the next selection; nothing else changes. |
| Atc.Changer.Reset | my_plugin.c:280-295 | Without a selection, only the driver reset runs. With one: if the mounted tool differs, the selected record is overwritten with it and a tool report is queued; the parser's pending tool is re-synced; the selection is dropped; the driver reset runs last. |
| Atc.Changer.MoveIntoPocket | my_plugin.c:329-364 | Emits the approach (stop, raise, traverse, descend, start, plunge). The spindle is left turning, and the four targets are queued behind what was already queued. |
| Atc.Changer.RecognitionCheck | my_plugin.c:366-397 | Emits the probe, the retry when the first reading is blocked, and the second reading. It passes exactly when the second reading is clear, and then stops the spindle and queues the raise to clearance. |
| Atc.Changer.Spindle | my_plugin.c:305-411 | One pass produces PassSpec's status, trace and mounted tool, and leaves the machine at PassExit; the selection and parser state are untouched. |
| Atc.Changer.UnloadThenReset | my_plugin.c:280-295 | An interrupt right after the unload pass of a change that its guards let go ahead (lines 439, 457-460). After a completed unload the mounted tool is the selection, the selected record is untouched and only the driver reset follows. Otherwise the mounted tool is kept, the record is overwritten with it and a tool report is queued. |
| Atc.Changer.ToolChange | my_plugin.c:434-468 | A change produces ChangeSpec's status, trace and mounted tool, and leaves the machine at ChangeExit. |
| Atc.Changer.ChangeThenReset | my_plugin.c:280-295 | A reset after a `tool_change` call, which leaves `next_tool` set: the record is overwritten with the change's resulting tool and a report queued exactly when their numbers differ. After a completed change to a tool other than 0, the mounted tool and the selected record are both all zero and a tool report is queued. |
| Sequencer.PassSpec | my_plugin.c:305-411 | A pass never returns the tool error; a recognition failure leaves the mounted tool unchanged. |
| Sequencer.ChangeSpec | my_plugin.c:434-468 | Without a selection: tool error, nothing emitted, nothing changed. With one: success, whatever the passes returned. |
| ChangeProperties.ApproachRun | my_plugin.c:329-364 | From any machine state, the approach leaves the spindle turning and the raise, traverse, descent and plunge all still queued behind what was queued before; the machine has not been waited for. |
| ChangeProperties.SpindleStartsBeforeQueueDrains | my_plugin.c:338-359 | When the spindle is started, the raise, the traverse and the descent are still queued and the machine has not moved. |
| ChangeProperties.ApproachSafety | my_plugin.c:329-364 | The approach is safe if and only if the machine is settled and already over the pocket's column; any traverse is unsafe. |
| ChangeProperties.EngagedRestSafety | my_plugin.c:329-397 | An approach followed by moves that stay over the pocket is safe if and only if the approach is. |
| ChangeProperties.RecognizeRun | my_plugin.c:366-397 | Recognition waits for the planner after its first probe move. It ends drained at the last probe height with the spindle as it was when the second reading is blocked. Otherwise it ends with the spindle stopped and the raise to clearance queued. |
| ChangeProperties.RecognizeSteps | my_plugin.c:370-396 | Every recognition move stays over the pocket. |
| ChangeProperties.PassExitIsRun | my_plugin.c:305-411 | Carrying out a pass's trace leaves the machine exactly at PassExit. |
| ChangeProperties.EngagedPassRun | my_plugin.c:355-407 | The three endings of a pass that reached the pocket, each with the planner drained: engaged and turning, failed at the probe height and turning, or retracted to clearance and stopped. |
| ChangeProperties.PassIsSafe | my_plugin.c:329-397 | A pass never has a sideways move queued or executing while the spindle turns if and only if the machine starts safe and, when the pass moves, is already settled over the pocket. |
| ChangeProperties.ChangeIsSafe | my_plugin.c:457-462 | A whole change is safe if and only if the machine starts safe and each pass that moves finds the machine settled over its pocket; the load pass is judged from where the unload pass left the machine. |
| ChangeProperties.ChangeExitIsRun | my_plugin.c:457-462 | Carrying out a change's trace leaves the machine at ChangeExit; the load pass starts where the unload pass left the machine. |
| ChangeProperties.UnloadWithoutToolIsNoOp | my_plugin.c:311-314 | Unloading with tool 0 mounted succeeds, emits nothing and changes nothing. |
| ChangeProperties.OutOfRangeGoesManual | my_plugin.c:316-324 | A selection beyond the magazine emits only the manual load or unload hook, succeeds and keeps the mounted tool. |
| ChangeProperties.UnloadRangeCheckReadsSelection | my_plugin.c:316 | With a tool mounted, the unload goes manual if and only if the selected tool is beyond the magazine. |
| ChangeProperties.MotionOrder | my_plugin.c:329-364 | The first six effects: stop, raise at the start XY, traverse at clearance to the tool's pocket, descend to the start height, start CW at pickup speed to load or CCW at drop-off speed to unload, plunge to engagement. |
| ChangeProperties.MovesUseEngagementFeed | my_plugin.c:331-332 | Every move of a pass runs at the engagement feed rate with rapid motion off. |
| ChangeProperties.ApproachCounts | my_plugin.c:329-364 | The approach holds exactly one spindle stop, no synchronise, no sensor reading and no coolant command. |
| ChangeProperties.RecognizeCounts | my_plugin.c:366-397 | Recognition reads the sensor exactly twice, counts the blocked readings, and synchronises once plus once more on a retry. |
| ChangeProperties.RecognizeCount | my_plugin.c:366-397 | For a synchronise or a sensor reading, its count across probe, retry, second reading and retract. |
| ChangeProperties.PassLeavesCoolant | my_plugin.c:305-411 | No pass commands the coolant. |
| ChangeProperties.RecognitionSamples | my_plugin.c:366-409 | With recognition on: two readings; the retry happens exactly when the first is blocked; failure if and only if the second is blocked; failure keeps the mounted tool and success commits. |
| ChangeProperties.StubSensorPassesFirstSample | my_plugin.c:428-431 | With the stub sensor, recognition passes without a retry: two clear readings and two synchronises. |
| ChangeProperties.WithoutRecognition | my_plugin.c:329-409 | With recognition off: no reading, one spindle stop, one synchronise as the last effect, and the pass commits. |
| ChangeProperties.SpindleLeftTurning | my_plugin.c:355-397 | After a pass that moved, the spindle turns if and only if recognition is off or its second reading is blocked. |
| ChangeProperties.PassDrained | my_plugin.c:374-407 | Every move of a pass is followed by a synchronise before the pass returns. |
| ChangeProperties.LoadingToolZeroLeavesMagazine | my_plugin.c:316-348 | Loading tool 0 is not refused; the traverse goes to the wrapped location 2^32 - pocket_offset away. |
| ChangeProperties.CompletedUnloadDefeatsRestore | my_plugin.c:401-405 | After an unload pass the mounted tool is the selection exactly when the pass completed, and is unchanged otherwise. |
| ChangeProperties.TrivialRequests | my_plugin.c:436-440 | No selection gives the tool error; the mounted tool gives success; neither emits or changes anything. |
| ChangeProperties.ChangeOrder | my_plugin.c:457-464 | Coolant off comes first and never again. Then comes the whole unload pass, then the whole load pass from where the unload left the machine, and the measurement last. |
| ChangeProperties.FailedLoadReportsOk | my_plugin.c:460-467 | A load that fails recognition still returns success, with the spindle turning and the unload's mounted tool kept. |
| ChangeProperties.CompletedChangeClearsCurrentTool | my_plugin.c:401-405 | A change whose load pass completes leaves the all-zero record (tool 0) mounted. |
| ChangeProperties.OutOfRangeSelectionIsManual | my_plugin.c:316-324 | A selection beyond the magazine gives exactly: coolant off, the manual unload if a tool is mounted, the manual load and the measurement. No move is made and the mounted tool is kept. |

## Left out

- Settings storage and registration (`my_plugin.c:89-248`), the report hook, `warning_mem`
  and `debug_output` are not modelled: persistence and console output only.
- `my_plugin_init` (`my_plugin.c:485-512`) is not modelled. It installs the entry
  points and chains the previous `driver_reset` only once (lines 508-511). The model
  takes the chained reset as the `DriverReset` effect.
- The homing check in `tool_change` (`my_plugin.c:442-447`) is compiled out, because
  `my_plugin.h:5` defines `DEBUG`. The model follows that build and never returns
  `Status_HomingRequired`.
- The motion planner, spindle, coolant and sensor drivers are outside the plugin. Their
  calls are recorded as effects. `Machine` keeps the queued targets, the position
  reached once they have drained, and the spindle state. It does not know how far
  along its queue the machine is at a given moment. For that reason a queued
  sideways move counts as possibly executing.
- The position `spindle()` reads at line 335 is taken as the drained position. Every
  pass that moves ends drained. This is therefore exact for a load pass that follows
  an unload pass that moved. Otherwise, as for the unload pass, it assumes nothing
  was still queued when `tool_change` was entered.
- `mc_line` results are never checked by the source. The model assumes every move is
  accepted.
- `measureTool` only reads the position, so it is the single effect `MeasureTool`.
  The manual hooks are empty in the source and are single effects.
- Geometry.ToolLocation: positions are real numbers. The single-precision rounding of
  the `float` arithmetic is not modelled. The 32-bit unsigned wrap of the product is
  modelled.
- `tool_data_t` and `parser_state_t` come from grblHAL headers, which are not part of
  this model. The tool number is taken as `uint32_t`. Offsets are a sequence of reals (three in
  `NoTool`). The
  parser state argument of `tool_change` is unused by the source and left out.
- `reset` runs asynchronously in the controller. The model gives it as a separate
  method. It is composed with a change at two points: right after the unload pass
  (`UnloadThenReset`) and after the whole `tool_change` call (`ChangeThenReset`). An
  interrupt inside a pass, or between the load pass and the measurement, is not
  modelled.
- Geometry.ToolLocation and Atc.Changer.MoveIntoPocket assume a three-axis machine
  (`Point` has x, y and z). `get_tool_location` zeroes every coordinate of
  `coord_data_t` before setting x and y (lines 252-254). On a machine with more than
  three axes, the traverse at lines 345-348 therefore also drives every axis beyond Z
  to 0, while the raise at lines 339-342 keeps them. The model does not show this.
- Settings the sequencer never reads are left out: origin, Z traverse, Z retract, tool
  setter, dust cover and the recognition input port.
- Atc.Changer.Spindle: dereferencing a null `next_tool` is undefined in C. The method
  requires a selection whenever the pass can get past the unload no-op, as
  `tool_change` guarantees.
