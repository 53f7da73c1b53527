/** The plugin's module state and its HAL entry points: `tool_select`, `reset`,
    `tool_change` and the pass `spindle(load)` they drive. */
module Atc {
  import opened Config
  import opened Geometry
  import opened Motion
  import opened Sequencer
  import opened ChangeProperties

  /** A `tool_data_t` owned by the parser; the plugin keeps a pointer to one. */
  class ToolRecord {
    var data: ToolData

    constructor (d: ToolData)
      ensures data == d
    {
      data := d;
    }
  }

  class Changer {
    /** `my_settings`, fixed while the plugin runs. */
    const settings: Settings
    /** `current_tool`: the tool believed to be in the spindle. */
    var currentTool: ToolData
    /** `next_tool`: the parser's record of the selected tool, or null. */
    var nextTool: ToolRecord?
    /** `gc_state.tool`: the parser's record of the tool in use. */
    var parserTool: ToolRecord
    /** `gc_state.tool_pending`. */
    var toolPending: U32
    /** The planner: the position once its queue has drained, the targets still
        queued, and whether the spindle turns. */
    var machine: Machine
    /** Every collaborator call made so far, in order. */
    var trace: seq<Effect>

    /** The pending selection as a value. */
    function Pending(): Option<ToolData>
      reads this, nextTool
    {
      if nextTool == null then None else Some(nextTool.data)
    }

    /** Static zero-initialised state: no tool mounted, nothing selected. */
    constructor (settings: Settings, parserTool: ToolRecord, toolPending: U32, machine: Machine)
      ensures this.settings == settings && this.parserTool == parserTool
      ensures this.toolPending == toolPending && this.machine == machine
      ensures currentTool == NoTool && nextTool == null && trace == []
    {
      this.settings := settings;
      this.parserTool := parserTool;
      this.toolPending := toolPending;
      this.machine := machine;
      currentTool := NoTool;
      nextTool := null;
      trace := [];
    }

    /** Hand one call to a collaborator; the machine follows it. */
    method Emit(e: Effect)
      modifies this`trace, this`machine
      ensures trace == old(trace) + [e] && machine == Apply(old(machine), e)
    {
      trace := trace + [e];
      machine := Apply(machine, e);
    }

    /** `tool_select`: point at the selected record; unless it is only the next
        selection, also take it as the mounted tool. */
    method ToolSelect(tool: ToolRecord, next: bool)
      modifies this
      ensures nextTool == tool
      ensures currentTool == if next then old(currentTool) else tool.data
      ensures parserTool == old(parserTool) && toolPending == old(toolPending)
      ensures machine == old(machine) && trace == old(trace)
    {
      nextTool := tool;
      if !next {
        currentTool := tool.data;
      }
    }

    /** `reset`: if a change was pending and the selection differs from the mounted
        tool, overwrite the selected record with the mounted one and queue a tool
        report; re-sync the parser's pending tool; drop the selection; then run the
        previously installed driver reset. */
    method Reset()
      modifies this, nextTool
      ensures nextTool == null
      ensures currentTool == old(currentTool) && parserTool == old(parserTool) && machine == old(machine)
      ensures old(nextTool) == null ==>
        toolPending == old(toolPending) && trace == old(trace) + [DriverReset]
      ensures old(nextTool) != null ==>
        var differs := old(currentTool.toolId != nextTool.data.toolId);
        && old(nextTool).data == (if differs then old(currentTool) else old(nextTool.data))
        && toolPending == parserTool.data.toolId
        && trace == old(trace) + (if differs then [ReportTool] else []) + [DriverReset]
      ensures parserTool != old(nextTool) ==> parserTool.data == old(parserTool.data)
    {
      if nextTool != null {
        if currentTool.toolId != nextTool.data.toolId {
          nextTool.data := currentTool;
          trace := trace + [ReportTool];
        }
        toolPending := parserTool.data.toolId;
        nextTool := null;
      }
      trace := trace + [DriverReset];
    }

    /** Lines 330-364 of `spindle(load)`: stop, raise, traverse, descend, start, engage. */
    method MoveIntoPocket(load: bool, pocket: Point)
      modifies this`trace, this`machine
      ensures trace == old(trace) + Approach(settings, load, old(machine.pos), pocket)
      ensures machine == Machine(old(machine.pos), old(machine.queue) + Path(settings, old(machine.pos), pocket), true)
    {
      var feed := settings.engagementFeedRate as real;
      Emit(SpindleSet(false, false, 0.0));
      var currentPos := machine.pos;
      var target := currentPos.(z := settings.zSafeClearance as real);
      Emit(Move(target, feed, false));
      target := pocket.(z := settings.zSafeClearance as real);
      Emit(Move(target, feed, false));
      target := target.(z := settings.startHeight);
      Emit(Move(target, feed, false));
      if load {
        Emit(SpindleSet(true, false, settings.pickupRpm as real));
      } else {
        Emit(SpindleSet(true, true, settings.dropoffRpm as real));
      }
      target := target.(z := settings.zEngagement as real);
      Emit(Move(target, feed, false));
    }

    /** Lines 367-397 of `spindle(load)`: the recognition check with its one retry. */
    method RecognitionCheck(pocket: Point, sensor: seq<bool>) returns (passed: bool)
      modifies this`trace, this`machine
      ensures passed == Recognize(settings, pocket, sensor).passed
      ensures trace == old(trace) + Recognize(settings, pocket, sensor).effects
      ensures var zone := pocket.(z := if Sample(sensor, 0) then settings.detectZone1 else settings.detectZone2);
        machine == if passed then Machine(zone, [pocket.(z := settings.zSafeClearance as real)], false)
                   else Machine(zone, [], old(machine.spindleOn))
    {
      ghost var t0 := trace;
      var feed := settings.engagementFeedRate as real;
      var target := pocket.(z := settings.detectZone2);
      Emit(Move(target, feed, false));
      Emit(Sync);
      var blocked := Sample(sensor, 0);
      Emit(SensorRead(blocked));
      ghost var done := [MoveTo(settings, pocket.(z := settings.detectZone2)), Sync, SensorRead(blocked)];
      assert trace == t0 + done;
      if blocked {
        target := target.(z := settings.zEngagement as real);
        Emit(Move(target, feed, false));
        target := target.(z := settings.detectZone1);
        Emit(Move(target, feed, false));
        Emit(Sync);
        done := done + [MoveTo(settings, pocket.(z := settings.zEngagement as real)),
                        MoveTo(settings, pocket.(z := settings.detectZone1)), Sync];
        assert trace == t0 + done;
      }
      blocked := Sample(sensor, 1);
      Emit(SensorRead(blocked));
      done := done + [SensorRead(blocked)];
      assert trace == t0 + done;
      if blocked {
        assert done == Recognize(settings, pocket, sensor).effects;
        return false;
      }
      target := target.(z := settings.zSafeClearance as real);
      Emit(SpindleSet(false, false, 0.0));
      Emit(Move(target, feed, false));
      done := done + [StopSpindle, MoveTo(settings, pocket.(z := settings.zSafeClearance as real))];
      assert trace == t0 + done;
      assert done == Recognize(settings, pocket, sensor).effects;
      return true;
    }

    /** `spindle(load)`: one unload or load pass. */
    method Spindle(load: bool, sensor: seq<bool>) returns (status: Status)
      requires nextTool != null || (!load && currentTool.toolId == 0)
      modifies this
      ensures var o := PassSpec(settings, load, old(currentTool), old(Pending()), old(machine.pos), sensor);
        && status == o.status && currentTool == o.current && trace == old(trace) + o.effects
      ensures machine == PassExit(settings, load, old(currentTool), old(Pending()), old(machine), sensor)
      ensures nextTool == old(nextTool) && parserTool == old(parserTool) && toolPending == old(toolPending)
    {
      if currentTool.toolId == 0 && !load {
        return Ok;
      }
      if nextTool.data.toolId > settings.numberOfPockets {
        Emit(if load then ManualLoad else ManualUnload);
        return Ok;
      }
      ghost var t0 := trace;
      var pocket := ToolLocation(settings, if load then nextTool.data.toolId else currentTool.toolId);
      ghost var approach := Approach(settings, load, machine.pos, pocket);
      MoveIntoPocket(load, pocket);
      ghost var check := if settings.toolRecognition then Recognize(settings, pocket, sensor).effects else [];
      if settings.toolRecognition {
        var passed := RecognitionCheck(pocket, sensor);
        if !passed {
          AppendAssoc2(t0, approach, check);
          return GcodeInvalidTarget;
        }
      }
      currentTool := if load then NoTool else nextTool.data;
      Emit(Sync);
      AppendAssoc3(t0, approach, check, [Sync]);
      assert !settings.toolRecognition ==> approach + check == approach;
      return Ok;
    }

    /** An interrupt that lands during a change right after the unload pass:
        coolant off and `spindle(false)` as `tool_change` issues them once its
        guards let the change go ahead, then `reset`.
        A completed unload has already copied the selection into `current_tool`,
        so nothing is restored and no tool report is queued. */
    method UnloadThenReset(sensor: seq<bool>)
      requires nextTool != null && currentTool.toolId != nextTool.data.toolId
      modifies this, nextTool
      ensures nextTool == null && parserTool == old(parserTool)
      ensures toolPending == parserTool.data.toolId
      ensures machine == PassExit(settings, false, old(currentTool), old(Pending()), old(machine), sensor)
      ensures var u := PassSpec(settings, false, old(currentTool), old(Pending()), old(machine.pos), sensor);
        var differs := u.current.toolId != old(nextTool.data.toolId);
        && currentTool == u.current
        && old(nextTool).data == (if differs then u.current else old(nextTool.data))
        && trace == old(trace) + [CoolantOff] + u.effects + (if differs then [ReportTool] else []) + [DriverReset]
      ensures Completes(settings, false, old(currentTool), old(Pending()), sensor) ==>
        && currentTool == old(nextTool.data) && old(nextTool).data == old(nextTool.data)
        && trace == old(trace) + [CoolantOff]
             + PassSpec(settings, false, old(currentTool), old(Pending()), old(machine.pos), sensor).effects
             + [DriverReset]
      ensures !Completes(settings, false, old(currentTool), old(Pending()), sensor) ==>
        && currentTool == old(currentTool)
        && old(nextTool).data == old(currentTool)
        && trace == old(trace) + [CoolantOff]
             + PassSpec(settings, false, old(currentTool), old(Pending()), old(machine.pos), sensor).effects
             + [ReportTool, DriverReset]
    {
      CompletedUnloadDefeatsRestore(settings, currentTool, Pending(), machine.pos, sensor);
      Emit(CoolantOff);
      var unloaded := Spindle(false, sensor);
      Reset();
    }

    /** `tool_change`: refuse without a selection, do nothing for the mounted tool,
        otherwise coolant off, unload, load and measure, and report success. */
    method ToolChange(unloadSensor: seq<bool>, loadSensor: seq<bool>) returns (status: Status)
      modifies this
      ensures var o := ChangeSpec(settings, old(currentTool), old(Pending()), old(machine), unloadSensor, loadSensor);
        && status == o.status && currentTool == o.current && trace == old(trace) + o.effects
      ensures machine == ChangeExit(settings, old(currentTool), old(Pending()), old(machine), unloadSensor, loadSensor)
      ensures nextTool == old(nextTool) && parserTool == old(parserTool) && toolPending == old(toolPending)
    {
      if nextTool == null {
        return GCodeToolError;
      }
      if currentTool.toolId == nextTool.data.toolId {
        return Ok;
      }
      ghost var t0 := trace;
      Emit(CoolantOff);
      var unloaded := Spindle(false, unloadSensor);
      ghost var t1 := trace;
      var loaded := Spindle(true, loadSensor);
      ghost var t2 := trace;
      // Both pass statuses are discarded.
      Emit(MeasureTool);
      AppendAssoc(t0, [CoolantOff], t1[|t0| + 1..], t2[|t1|..], [MeasureTool]);
      return Ok;
    }

    /** A `reset` that follows a `tool_change` call. `tool_change` never clears
        `next_tool`, so the reset still sees a pending change. After a completed
        change `current_tool` is all zero, and the reset writes that zero record
        through `next_tool` and queues a tool report. */
    method ChangeThenReset(unloadSensor: seq<bool>, loadSensor: seq<bool>) returns (status: Status)
      modifies this, nextTool
      ensures var o := ChangeSpec(settings, old(currentTool), old(Pending()), old(machine), unloadSensor, loadSensor);
        && status == o.status && currentTool == o.current
        && machine == ChangeExit(settings, old(currentTool), old(Pending()), old(machine), unloadSensor, loadSensor)
      ensures nextTool == null && parserTool == old(parserTool)
      ensures old(nextTool) == null ==>
        toolPending == old(toolPending) && trace == old(trace) + [DriverReset]
      ensures old(nextTool) != null ==>
        var o := ChangeSpec(settings, old(currentTool), old(Pending()), old(machine), unloadSensor, loadSensor);
        var differs := o.current.toolId != old(nextTool.data.toolId);
        && old(nextTool).data == (if differs then o.current else old(nextTool.data))
        && toolPending == parserTool.data.toolId
        && trace == old(trace) + o.effects + (if differs then [ReportTool] else []) + [DriverReset]
      ensures old(nextTool) != null && old(currentTool.toolId != nextTool.data.toolId) && old(nextTool.data.toolId) != 0
              && Completes(settings, true, PassSpec(settings, false, old(currentTool), old(Pending()), old(machine.pos), unloadSensor).current,
                           old(Pending()), loadSensor) ==>
        && currentTool == NoTool && old(nextTool).data == NoTool
        && trace == old(trace)
             + ChangeSpec(settings, old(currentTool), old(Pending()), old(machine), unloadSensor, loadSensor).effects
             + [ReportTool, DriverReset]
    {
      if && nextTool != null && currentTool.toolId != nextTool.data.toolId
         && nextTool.data.toolId <= settings.numberOfPockets
         && (!settings.toolRecognition || !Sample(loadSensor, 1))
      {
        CompletedChangeClearsCurrentTool(settings, currentTool, Pending(), machine, unloadSensor, loadSensor);
      }
      status := ToolChange(unloadSensor, loadSensor);
      Reset();
    }
  }
}
