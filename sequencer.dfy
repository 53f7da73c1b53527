/** The load/unload pass of `spindle()` and the orchestration of `tool_change()`,
    as functions from the inputs to the status, the effect trace and the new
    `current_tool`. The class in module Atc is proved to produce exactly these. */
module Sequencer {
  import opened Config
  import opened Geometry
  import opened Motion

  /** grblHAL's `tool_data_t`: per-axis length offsets, radius and tool number. */
  datatype ToolData = ToolData(offset: seq<real>, radius: real, toolId: U32)

  /** The all-zero record `memset` produces (three axes): tool number 0, "no tool". */
  const NoTool: ToolData := ToolData([0.0, 0.0, 0.0], 0.0, 0)

  /** The status codes the core returns. */
  datatype Status = Ok | GCodeToolError | GcodeInvalidTarget

  datatype Option<T> = None | Some(value: T)

  /** What a pass or a whole change returns, emits and leaves in `current_tool`. */
  datatype Outcome = Outcome(status: Status, effects: seq<Effect>, current: ToolData)

  /** Sample `k` of the recognition sensor; past the end of the oracle it answers
      as the stub `laserBlocked` does: not blocked. */
  function Sample(sensor: seq<bool>, k: nat): bool
  {
    if k < |sensor| then sensor[k] else false
  }

  const StopSpindle: Effect := SpindleSet(false, false, 0.0)

  /** Every move of a pass: engagement feed rate, rapid motion off. */
  function MoveTo(s: Settings, p: Point): Effect
  {
    Move(p, s.engagementFeedRate as real, false)
  }

  /** Clockwise at pickup speed to load, counter-clockwise at drop-off speed to unload. */
  function StartSpindle(s: Settings, load: bool): Effect
  {
    if load then SpindleSet(true, false, s.pickupRpm as real)
    else SpindleSet(true, true, s.dropoffRpm as real)
  }

  /** Stop, raise, traverse over the pocket, descend, start the spindle, engage. */
  function Approach(s: Settings, load: bool, start: Point, pocket: Point): seq<Effect>
  {
    [ StopSpindle,
      MoveTo(s, start.(z := s.zSafeClearance as real)),
      MoveTo(s, pocket.(z := s.zSafeClearance as real)),
      MoveTo(s, pocket.(z := s.startHeight)),
      StartSpindle(s, load),
      MoveTo(s, pocket.(z := s.zEngagement as real)) ]
  }

  /** The targets the approach hands to the planner, in order: raise, traverse,
      descend to the start height, plunge to engagement. No synchronise separates
      them from the spindle start. */
  function Path(s: Settings, start: Point, pocket: Point): seq<Point>
  {
    [ start.(z := s.zSafeClearance as real),
      pocket.(z := s.zSafeClearance as real),
      pocket.(z := s.startHeight),
      pocket.(z := s.zEngagement as real) ]
  }

  /** The effects of the recognition check and whether the tool was confirmed. */
  datatype Check = Check(effects: seq<Effect>, passed: bool)

  /** Probe at zone 2, wait for the queue, read the sensor. */
  function Probe(s: Settings, pocket: Point, blocked: bool): seq<Effect>
  {
    [MoveTo(s, pocket.(z := s.detectZone2)), Sync, SensorRead(blocked)]
  }

  /** If the first reading was blocked: back to engagement, on to zone 1, wait. */
  function Retry(s: Settings, pocket: Point, blocked: bool): seq<Effect>
  {
    if blocked then [MoveTo(s, pocket.(z := s.zEngagement as real)), MoveTo(s, pocket.(z := s.detectZone1)), Sync]
    else []
  }

  /** After a confirmed tool: stop the spindle and raise to clearance height. */
  function Retract(s: Settings, pocket: Point): seq<Effect>
  {
    [StopSpindle, MoveTo(s, pocket.(z := s.zSafeClearance as real))]
  }

  /** The recognition check: probe, retry once if blocked, read again; the second
      reading decides. On success stop the spindle and raise. */
  function Recognize(s: Settings, pocket: Point, sensor: seq<bool>): Check
  {
    var first, second := Sample(sensor, 0), Sample(sensor, 1);
    var verdict := Probe(s, pocket, first) + Retry(s, pocket, first) + [SensorRead(second)];
    if second then Check(verdict, false) else Check(verdict + Retract(s, pocket), true)
  }

  /** The tool-record update at the end of a completed pass, as the code writes it:
      a load clears `current_tool`, an unload copies the pending tool into it. */
  function Commit(load: bool, next: ToolData): ToolData
  {
    if load then NoTool else next
  }

  /** A pass the early exits do not stop. */
  predicate Proceeds(s: Settings, load: bool, cur: ToolData, next: Option<ToolData>)
  {
    (load || cur.toolId != 0) && next.Some? && next.value.toolId <= s.numberOfPockets
  }

  /** A pass that gets past the early exits and is not stopped by recognition:
      it reaches the commit. */
  predicate Completes(s: Settings, load: bool, cur: ToolData, next: Option<ToolData>, sensor: seq<bool>)
  {
    Proceeds(s, load, cur, next) && (!s.toolRecognition || !Sample(sensor, 1))
  }

  /** The pocket a proceeding pass works at: the pending tool's to load, the mounted tool's to unload. */
  function PassPocket(s: Settings, load: bool, cur: ToolData, next: ToolData): Point
  {
    ToolLocation(s, if load then next.toolId else cur.toolId)
  }

  /** One pass of `spindle(load)` starting at machine position `start`. */
  function PassSpec(s: Settings, load: bool, cur: ToolData, next: Option<ToolData>,
                    start: Point, sensor: seq<bool>): (o: Outcome)
    requires next.Some? || (!load && cur.toolId == 0)
    ensures o.status != GCodeToolError
    ensures o.status == GcodeInvalidTarget ==> o.current == cur
  {
    if !load && cur.toolId == 0 then
      Outcome(Ok, [], cur)
    else if next.value.toolId > s.numberOfPockets then
      Outcome(Ok, [if load then ManualLoad else ManualUnload], cur)
    else
      var pocket := PassPocket(s, load, cur, next.value);
      var approach := Approach(s, load, start, pocket);
      if !s.toolRecognition then
        Outcome(Ok, approach + [Sync], Commit(load, next.value))
      else
        var check := Recognize(s, pocket, sensor);
        if !check.passed then Outcome(GcodeInvalidTarget, approach + check.effects, cur)
        else Outcome(Ok, approach + check.effects + [Sync], Commit(load, next.value))
  }

  /** Where a pass leaves the machine, starting from `m`: untouched after an early
      exit; otherwise over the pocket with the planner drained, at engagement
      height with the spindle still turning when recognition is off, at the last
      probe height with the spindle turning when recognition failed, raised to
      clearance and stopped when it passed. */
  function PassExit(s: Settings, load: bool, cur: ToolData, next: Option<ToolData>,
                    m: Machine, sensor: seq<bool>): Machine
    requires next.Some? || (!load && cur.toolId == 0)
  {
    if !Proceeds(s, load, cur, next) then m
    else
      var pocket := PassPocket(s, load, cur, next.value);
      if !s.toolRecognition then Machine(pocket.(z := s.zEngagement as real), [], true)
      else if Sample(sensor, 1) then
        Machine(pocket.(z := if Sample(sensor, 0) then s.detectZone1 else s.detectZone2), [], true)
      else Machine(pocket.(z := s.zSafeClearance as real), [], false)
  }

  /** `tool_change()`: guards, coolant off, unload, load, measure; the passes'
      statuses are discarded. `m` is the machine when the change starts. */
  function ChangeSpec(s: Settings, cur: ToolData, next: Option<ToolData>, m: Machine,
                      unloadSensor: seq<bool>, loadSensor: seq<bool>): (o: Outcome)
    ensures next.None? ==> o == Outcome(GCodeToolError, [], cur)
    ensures next.Some? ==> o.status == Ok
  {
    if next.None? then
      Outcome(GCodeToolError, [], cur)
    else if cur.toolId == next.value.toolId then
      Outcome(Ok, [], cur)
    else
      var unload := PassSpec(s, false, cur, next, m.pos, unloadSensor);
      var load := PassSpec(s, true, unload.current, next, PassExit(s, false, cur, next, m, unloadSensor).pos, loadSensor);
      Outcome(Ok, [CoolantOff] + unload.effects + load.effects + [MeasureTool], load.current)
  }

  /** Where a whole change leaves the machine, starting from `m`. */
  function ChangeExit(s: Settings, cur: ToolData, next: Option<ToolData>, m: Machine,
                      unloadSensor: seq<bool>, loadSensor: seq<bool>): Machine
  {
    if next.None? || cur.toolId == next.value.toolId then m
    else
      var unload := PassSpec(s, false, cur, next, m.pos, unloadSensor);
      var afterUnload := PassExit(s, false, cur, next, m, unloadSensor);
      PassExit(s, true, unload.current, next, afterUnload, loadSensor)
  }
}
